/** Convergence analyzer: per token, how often and how fast a price spread
    closed after a signal. Events update counters, timing extremes and two
    moving averages; the derived rate moves the token onto a whitelist or a
    blacklist; a 0-10 priority score and a blacklist-first gate read the
    records. */
module Convergence {
  import opened Common
  import opened Ranking

  /** Below this many events a token is scored neutrally and never vetoed by score. */
  const MinSamples: nat := 3
  /** Events needed before an update may move a token between the lists. */
  const ListSamples: nat := 5
  const WhitelistRate: real := 0.6
  const BlacklistRate: real := 0.3
  /** Default score threshold of `should_signal` and default board length. */
  const DefaultMinScore: real := 4.0
  const DefaultTopN: int := 20

  datatype ConvergenceStats = ConvergenceStats(
    symbol: string,
    totalSignals: nat,
    convergedSignals: nat,
    avgConvergenceTimeSec: real,
    fastestConvergenceSec: Option<real>,  // None stands for the initial +infinity
    slowestConvergenceSec: real,
    convergenceRate: real,
    avgProfitOnConverge: real,
    lastUpdated: real)

  function NewStats(symbol: string): ConvergenceStats {
    ConvergenceStats(symbol, 0, 0, 0.0, None, 0.0, 0.0, 0.0, 0.0)
  }

  /** `converged / total if total > 0 else 0`. */
  function Rate(converged: nat, total: nat): (r: real)
    ensures total == 0 ==> r == 0.0
    ensures converged <= total ==> 0.0 <= r <= 1.0
    ensures 0 < total && converged == total ==> r == 1.0
    ensures converged == 0 ==> r == 0.0
  {
    if total > 0 then converged as real / total as real else 0.0
  }

  /** One convergence event, as `record_convergence` receives it. */
  datatype Event = Event(converged: bool, timeSeconds: real, profitPercent: real, now: real)

  /** The record after one more event. The timing extremes and both moving
      averages move only on a converged event; the counters and the rate
      always do. */
  function Observed(st: ConvergenceStats, e: Event): (r: ConvergenceStats)
    ensures r.symbol == st.symbol
    ensures r.totalSignals == st.totalSignals + 1
    ensures r.convergedSignals == st.convergedSignals + (if e.converged then 1 else 0)
    ensures r.convergenceRate == Rate(r.convergedSignals, r.totalSignals)
    ensures r.lastUpdated == e.now
    ensures !e.converged ==>
              && r.fastestConvergenceSec == st.fastestConvergenceSec
              && r.slowestConvergenceSec == st.slowestConvergenceSec
              && r.avgConvergenceTimeSec == st.avgConvergenceTimeSec
              && r.avgProfitOnConverge == st.avgProfitOnConverge
    ensures e.converged ==>
              && r.fastestConvergenceSec.Some?
              && r.fastestConvergenceSec.value <= e.timeSeconds <= r.slowestConvergenceSec
              && Min(st.avgConvergenceTimeSec, e.timeSeconds) <= r.avgConvergenceTimeSec
                 <= Max(st.avgConvergenceTimeSec, e.timeSeconds)
              && Min(st.avgProfitOnConverge, e.profitPercent) <= r.avgProfitOnConverge
                 <= Max(st.avgProfitOnConverge, e.profitPercent)
  {
    var total := st.totalSignals + 1;
    var converged := st.convergedSignals + (if e.converged then 1 else 0);
    var timed :=
      if e.converged then
        st.(fastestConvergenceSec := Some(FasterOf(st.fastestConvergenceSec, e.timeSeconds)),
            slowestConvergenceSec := Max(st.slowestConvergenceSec, e.timeSeconds),
            avgConvergenceTimeSec := Ema(st.avgConvergenceTimeSec, e.timeSeconds),
            avgProfitOnConverge := Ema(st.avgProfitOnConverge, e.profitPercent))
      else st;
    timed.(totalSignals := total,
           convergedSignals := converged,
           convergenceRate := Rate(converged, total),
           lastUpdated := e.now)
  }

  /** What every record keeps: no more converged events than events, and a
      rate that is their current ratio. */
  ghost predicate WellFormed(st: ConvergenceStats) {
    st.convergedSignals <= st.totalSignals
    && st.convergenceRate == Rate(st.convergedSignals, st.totalSignals)
  }

  lemma ObservedWellFormed(st: ConvergenceStats, e: Event)
    requires WellFormed(st)
    ensures WellFormed(Observed(st, e))
    ensures 0.0 <= Observed(st, e).convergenceRate <= 1.0
  {
  }

  /** A token's record after a sequence of events, oldest first. */
  function Replay(st: ConvergenceStats, events: seq<Event>): ConvergenceStats {
    if events == [] then st
    else Observed(Replay(st, events[..|events| - 1]), events[|events| - 1])
  }

  function ConvergedCount(events: seq<Event>): (n: nat)
    ensures n <= |events|
  {
    if events == [] then 0
    else ConvergedCount(events[..|events| - 1]) + (if events[|events| - 1].converged then 1 else 0)
  }

  /** Replaying events into a fresh record: the rate is the fraction of
      converged events, the timing extremes bracket every converged time,
      and "fastest" is still +infinity exactly when nothing converged. */
  lemma {:induction false} ReplayEvents(symbol: string, events: seq<Event>)
    ensures Replay(NewStats(symbol), events).totalSignals == |events|
    ensures Replay(NewStats(symbol), events).convergedSignals == ConvergedCount(events)
    ensures Replay(NewStats(symbol), events).convergenceRate == Rate(ConvergedCount(events), |events|)
    ensures Replay(NewStats(symbol), events).fastestConvergenceSec.None? <==> ConvergedCount(events) == 0
    ensures forall i :: 0 <= i < |events| && events[i].converged ==>
              && Replay(NewStats(symbol), events).fastestConvergenceSec.Some?
              && Replay(NewStats(symbol), events).fastestConvergenceSec.value <= events[i].timeSeconds
              && events[i].timeSeconds <= Replay(NewStats(symbol), events).slowestConvergenceSec
  {
    if events != [] {
      var init := events[..|events| - 1];
      ReplayEvents(symbol, init);
      var before := Replay(NewStats(symbol), init);
      var after := Replay(NewStats(symbol), events);
      assert after == Observed(before, events[|events| - 1]);
      forall i | 0 <= i < |events| && events[i].converged
        ensures after.fastestConvergenceSec.Some?
        ensures after.fastestConvergenceSec.value <= events[i].timeSeconds <= after.slowestConvergenceSec
      {
        if i < |init| {
          assert events[i] == init[i];
        }
      }
    }
  }

  /** The convergence speed component: 5 for an average at or below zero
      (no timing data), otherwise the 0-10 speed score. */
  function ConvergenceSpeed(avgSeconds: real): (r: real)
    ensures 0.0 <= r <= 10.0
    ensures avgSeconds <= 0.0 ==> r == 5.0
    ensures 0.0 < avgSeconds <= 300.0 ==> r == 10.0
    ensures avgSeconds >= 3600.0 ==> r == 0.0
    ensures 300.0 < avgSeconds < 3600.0 ==> r == 10.0 * (1.0 - (avgSeconds - 300.0) / 3300.0)
  {
    if avgSeconds <= 0.0 then 5.0 else SpeedScore(avgSeconds)
  }

  /** The 0-10 priority: neutral 5.0 below the sample minimum, otherwise rate
      (0.4), speed (0.3) and profit (0.3), rounded to two decimals. */
  function Priority(st: ConvergenceStats): (r: real)
    ensures st.totalSignals < MinSamples ==> r == 5.0
    ensures 0.0 <= st.convergenceRate <= 1.0 ==> 0.0 <= r <= 10.0
  {
    if st.totalSignals < MinSamples then 5.0
    else
      var rateScore := st.convergenceRate * 10.0;
      var speedScore := ConvergenceSpeed(st.avgConvergenceTimeSec);
      var profitScore := Clamp10(st.avgProfitOnConverge * 2.0);
      var total := rateScore * 0.4 + speedScore * 0.3 + profitScore * 0.3;
      assert 0.0 <= st.convergenceRate <= 1.0 ==> 0.0 <= RoundHalfEven(total, 100) <= 10.0 by {
        if 0.0 <= st.convergenceRate <= 1.0 { RoundWithin(total, 100, 0, 10); }
      }
      RoundHalfEven(total, 100)
  }

  /** One aggregated row of the seven-day query: a missing converged count
      is 0, a missing or zero average time is 3600, missing or zero minimum,
      maximum and profit are 0. */
  datatype ConvergenceRow = ConvergenceRow(
    token: string,
    total: nat,
    converged: Option<nat>,
    avgTime: Option<real>,
    minTime: Option<real>,
    maxTime: Option<real>,
    avgProfit: Option<real>)

  function ConvergedOf(row: ConvergenceRow): nat {
    if row.converged.Some? then row.converged.value else 0
  }

  /** The record a row is loaded as; it replaces whatever the token had. */
  function RowStats(row: ConvergenceRow, now: real): (st: ConvergenceStats)
    ensures st.symbol == row.token && st.totalSignals == row.total
    ensures st.convergenceRate == Rate(ConvergedOf(row), row.total)
    ensures st.avgConvergenceTimeSec != 0.0
  {
    ConvergenceStats(
      row.token,
      row.total,
      ConvergedOf(row),
      OrDefault(row.avgTime, 3600.0),
      Some(OrDefault(row.minTime, 0.0)),
      OrDefault(row.maxTime, 0.0),
      Rate(ConvergedOf(row), row.total),
      OrDefault(row.avgProfit, 0.0),
      now)
  }

  /** The records after loading `rows` into `m`, a later row for a token
      replacing an earlier one. */
  function LoadedStats(m: map<string, ConvergenceStats>, rows: seq<ConvergenceRow>, now: real)
    : map<string, ConvergenceStats>
  {
    if rows == [] then m
    else LoadedStats(m, rows[..|rows| - 1], now)[rows[|rows| - 1].token := RowStats(rows[|rows| - 1], now)]
  }

  /** The last row for `symbol`, if there is one. */
  function LastRowFor(rows: seq<ConvergenceRow>, symbol: string): (r: Option<ConvergenceRow>)
    ensures r.None? <==> forall i :: 0 <= i < |rows| ==> rows[i].token != symbol
    ensures r.Some? ==> r.value in rows && r.value.token == symbol
  {
    if rows == [] then None
    else if rows[|rows| - 1].token == symbol then Some(rows[|rows| - 1])
    else
      var r := LastRowFor(rows[..|rows| - 1], symbol);
      assert forall i :: 0 <= i < |rows| - 1 ==> rows[..|rows| - 1][i] == rows[i];
      r
  }

  /** A row for `symbol` that no later row for it follows is the one found. */
  lemma {:induction false} LastRowForLatest(rows: seq<ConvergenceRow>, symbol: string, i: nat)
    requires i < |rows| && rows[i].token == symbol
    requires forall j :: i < j < |rows| ==> rows[j].token != symbol
    ensures LastRowFor(rows, symbol) == Some(rows[i])
  {
    if i < |rows| - 1 {
      LastRowForLatest(rows[..|rows| - 1], symbol, i);
    }
  }

  /** After a load a token holds the record of its last row, or, with no
      row, what it held before. */
  lemma {:induction false} LoadedLookup(m: map<string, ConvergenceStats>, rows: seq<ConvergenceRow>,
                                        now: real, symbol: string)
    ensures symbol in LoadedStats(m, rows, now) <==> symbol in m || LastRowFor(rows, symbol).Some?
    ensures LastRowFor(rows, symbol).Some? ==>
              LoadedStats(m, rows, now)[symbol] == RowStats(LastRowFor(rows, symbol).value, now)
    ensures LastRowFor(rows, symbol).None? && symbol in m ==>
              LoadedStats(m, rows, now)[symbol] == m[symbol]
  {
    if rows != [] {
      LoadedLookup(m, rows[..|rows| - 1], now, symbol);
    }
  }

  lemma LoadedStep(m: map<string, ConvergenceStats>, rows: seq<ConvergenceRow>, i: nat, now: real)
    requires i < |rows|
    ensures LoadedStats(m, rows[..i + 1], now)
            == LoadedStats(m, rows[..i], now)[rows[i].token := RowStats(rows[i], now)]
  {
    assert rows[..i + 1][..i] == rows[..i];
  }

  /** Tokens a load whitelists: rate at least 0.6, with no sample minimum. */
  function WhitelistedRows(rows: seq<ConvergenceRow>): set<string> {
    set i | 0 <= i < |rows| && Rate(ConvergedOf(rows[i]), rows[i].total) >= WhitelistRate :: rows[i].token
  }

  /** Tokens a load blacklists: rate under 0.3 and at least five events. */
  function BlacklistedRows(rows: seq<ConvergenceRow>): set<string> {
    set i | 0 <= i < |rows| && Rate(ConvergedOf(rows[i]), rows[i].total) < BlacklistRate
                             && rows[i].total >= ListSamples :: rows[i].token
  }

  /** Loading one more row adds what that row lists to what the earlier
      rows listed. */
  lemma RowListsStep(rows: seq<ConvergenceRow>, i: nat, w0: set<string>, b0: set<string>,
                     w: set<string>, b: set<string>, w': set<string>, b': set<string>)
    requires i < |rows|
    requires w == w0 + WhitelistedRows(rows[..i]) && b == b0 + BlacklistedRows(rows[..i])
    requires w' == w + (if Rate(ConvergedOf(rows[i]), rows[i].total) >= WhitelistRate
                        then {rows[i].token} else {})
    requires b' == b + (if Rate(ConvergedOf(rows[i]), rows[i].total) < BlacklistRate
                           && rows[i].total >= ListSamples then {rows[i].token} else {})
    ensures w' == w0 + WhitelistedRows(rows[..i + 1])
    ensures b' == b0 + BlacklistedRows(rows[..i + 1])
  {
    assert forall k :: 0 <= k < i ==> rows[..i + 1][k] == rows[..i][k];
  }

  /** Why a signal is admitted or vetoed. */
  datatype Reason = Blacklisted | NewToken | InsufficientData | LowScore | LowRate | Approved

  datatype Verdict = Verdict(pass: bool, reason: Reason)

  /** `(symbol, priority)` for each of `keys`, in order. */
  function Scored(m: map<string, ConvergenceStats>, keys: seq<string>): (r: seq<(string, real)>)
    requires forall k :: k in keys ==> k in m
    ensures |r| == |keys|
    ensures forall i :: 0 <= i < |r| ==> r[i] == (keys[i], Priority(m[keys[i]]))
  {
    if keys == [] then [] else [(keys[0], Priority(m[keys[0]]))] + Scored(m, keys[1..])
  }

  /** What the leader board of `keys` holds: scored known tokens, highest
      first, one entry per token, and no token left out that outranks one
      kept. */
  lemma TopScored(m: map<string, ConvergenceStats>, keys: seq<string>, n: int)
    requires KeyOrder(m, keys)
    ensures forall i :: 0 <= i < |Top(Scored(m, keys), n)| ==>
              Top(Scored(m, keys), n)[i].0 in m
              && Top(Scored(m, keys), n)[i].1 == Priority(m[Top(Scored(m, keys), n)[i].0])
    ensures DistinctKeys(Top(Scored(m, keys), n))
    ensures forall s :: s in m && (s, Priority(m[s])) !in Top(Scored(m, keys), n) ==>
              (0 <= n ==> |Top(Scored(m, keys), n)| == n)
              && forall i :: 0 <= i < |Top(Scored(m, keys), n)| ==>
                   Top(Scored(m, keys), n)[i].1 >= Priority(m[s])
  {
    var scored := Scored(m, keys);
    var r := Top(scored, n);
    forall s | s in m ensures (s, Priority(m[s])) in scored {
      var k :| 0 <= k < |keys| && keys[k] == s;
      assert scored[k] == (s, Priority(m[s]));
    }
    assert DistinctKeys(scored);
    forall i | 0 <= i < |r| ensures r[i].0 in m && r[i].1 == Priority(m[r[i].0]) {
      assert r[i] in scored;
    }
  }

  /** The in-place update of one record by one event, as `record_convergence` does it. */
  method ApplyEvent(prior: ConvergenceStats, e: Event) returns (st: ConvergenceStats)
    ensures st == Observed(prior, e)
  {
    st := prior.(totalSignals := prior.totalSignals + 1);
    if e.converged {
      st := st.(convergedSignals := st.convergedSignals + 1);
      if st.fastestConvergenceSec.None? || e.timeSeconds < st.fastestConvergenceSec.value {
        st := st.(fastestConvergenceSec := Some(e.timeSeconds));
      }
      if e.timeSeconds > st.slowestConvergenceSec {
        st := st.(slowestConvergenceSec := e.timeSeconds);
      }
      if st.avgConvergenceTimeSec == 0.0 {
        st := st.(avgConvergenceTimeSec := e.timeSeconds);
      } else {
        st := st.(avgConvergenceTimeSec :=
                    Alpha * e.timeSeconds + (1.0 - Alpha) * st.avgConvergenceTimeSec);
      }
      if st.avgProfitOnConverge == 0.0 {
        st := st.(avgProfitOnConverge := e.profitPercent);
      } else {
        st := st.(avgProfitOnConverge :=
                    Alpha * e.profitPercent + (1.0 - Alpha) * st.avgProfitOnConverge);
      }
    }
    st := st.(convergenceRate := Rate(st.convergedSignals, st.totalSignals));
    st := st.(lastUpdated := e.now);
  }

  /** Every record is filed under its own symbol and well formed. */
  ghost predicate Consistent(m: map<string, ConvergenceStats>) {
    forall s :: s in m ==> m[s].symbol == s && WellFormed(m[s])
  }

  lemma ConsistentStore(m: map<string, ConvergenceStats>, k: string, v: ConvergenceStats)
    requires Consistent(m) && v.symbol == k && WellFormed(v)
    ensures Consistent(m[k := v])
  {
  }

  /** What the lists say about the records: a token with at least five
      events is whitelisted and not blacklisted when its rate is at least
      0.6, and the reverse when its rate is under 0.3. */
  ghost predicate ListsAgree(stats: map<string, ConvergenceStats>, whitelist: set<string>,
                             blacklist: set<string>)
  {
    forall s :: s in stats && stats[s].totalSignals >= ListSamples ==>
      && (stats[s].convergenceRate >= WhitelistRate ==> s in whitelist && s !in blacklist)
      && (stats[s].convergenceRate < BlacklistRate ==> s in blacklist && s !in whitelist)
  }

  /** Storing a record keeps the lists in agreement when only the stored
      token's memberships change and they follow the rule for its record. */
  lemma ListsAgreeStore(stats: map<string, ConvergenceStats>, whitelist: set<string>,
                        blacklist: set<string>, symbol: string, st: ConvergenceStats,
                        whitelist': set<string>, blacklist': set<string>)
    requires ListsAgree(stats, whitelist, blacklist)
    requires whitelist' - {symbol} == whitelist - {symbol}
    requires blacklist' - {symbol} == blacklist - {symbol}
    requires st.totalSignals >= ListSamples && st.convergenceRate >= WhitelistRate ==>
               symbol in whitelist' && symbol !in blacklist'
    requires st.totalSignals >= ListSamples && st.convergenceRate < BlacklistRate ==>
               symbol in blacklist' && symbol !in whitelist'
    ensures ListsAgree(stats[symbol := st], whitelist', blacklist')
  {
    forall s | s in stats[symbol := st] && stats[symbol := st][s].totalSignals >= ListSamples
      ensures stats[symbol := st][s].convergenceRate >= WhitelistRate ==>
                s in whitelist' && s !in blacklist'
      ensures stats[symbol := st][s].convergenceRate < BlacklistRate ==>
                s in blacklist' && s !in whitelist'
    {
      if s != symbol {
        assert s in whitelist' <==> s in whitelist' - {symbol};
        assert s in blacklist' <==> s in blacklist' - {symbol};
      }
    }
  }

  /** The bulk load only ever adds to the lists, so a blacklisted token whose
      loaded rate is at least 0.6 over five or more events ends up on both
      lists: the agreement that every single event keeps does not survive a
      load. */
  lemma LoadRowCanBreakAgreement(stats: map<string, ConvergenceStats>, whitelist: set<string>,
                                 blacklist: set<string>, row: ConvergenceRow, now: real)
    requires ListsAgree(stats, whitelist, blacklist)
    requires row.token in blacklist
    requires ConvergedOf(row) <= row.total && row.total >= ListSamples
    requires Rate(ConvergedOf(row), row.total) >= WhitelistRate
    ensures !ListsAgree(stats[row.token := RowStats(row, now)], whitelist + {row.token}, blacklist)
  {
    var after := stats[row.token := RowStats(row, now)];
    assert row.token in after && after[row.token].totalSignals >= ListSamples;
  }

  /** The tokens of `rows`, in the order given. */
  function RowTokens(rows: seq<ConvergenceRow>): seq<string> {
    seq(|rows|, i requires 0 <= i < |rows| => rows[i].token)
  }

  /** The engine: one record per token, the tokens in first-seen order, and
      the two lists. */
  class ConvergenceAnalyzer {
    var stats: map<string, ConvergenceStats>
    var order: seq<string>
    var whitelist: set<string>
    var blacklist: set<string>

    ghost predicate Valid()
      reads this
    {
      KeyOrder(stats, order) && Consistent(stats)
    }

    constructor ()
      ensures Valid()
      ensures stats == map[] && order == [] && whitelist == {} && blacklist == {}
      ensures ListsAgree(stats, whitelist, blacklist)
    {
      stats := map[];
      order := [];
      whitelist := {};
      blacklist := {};
    }

    function Prior(symbol: string): ConvergenceStats
      reads this
    {
      if symbol in stats then stats[symbol] else NewStats(symbol)
    }

    /** Records one event and, once the token has five events, moves it onto
        the whitelist (rate at least 0.6) or the blacklist (rate under 0.3). */
    method RecordConvergence(symbol: string, converged: bool, timeSeconds: real,
                             profitPercent: real, now: real)
      requires Valid()
      modifies this
      ensures Valid()
      ensures stats == old(stats)[symbol := Observed(old(Prior(symbol)),
                 Event(converged, timeSeconds, profitPercent, now))]
      ensures order == if symbol in old(stats) then old(order) else old(order) + [symbol]
      ensures stats[symbol].totalSignals >= ListSamples
              && stats[symbol].convergenceRate >= WhitelistRate ==>
                whitelist == old(whitelist) + {symbol} && blacklist == old(blacklist) - {symbol}
      ensures stats[symbol].totalSignals >= ListSamples
              && stats[symbol].convergenceRate < BlacklistRate ==>
                blacklist == old(blacklist) + {symbol} && whitelist == old(whitelist) - {symbol}
      ensures stats[symbol].totalSignals < ListSamples
              || BlacklistRate <= stats[symbol].convergenceRate < WhitelistRate ==>
                whitelist == old(whitelist) && blacklist == old(blacklist)
      ensures old(ListsAgree(stats, whitelist, blacklist)) ==> ListsAgree(stats, whitelist, blacklist)
    {
      ghost var agreed := ListsAgree(stats, whitelist, blacklist);
      ghost var (stats0, whitelist0, blacklist0) := (stats, whitelist, blacklist);
      var prior := Prior(symbol);
      var st := ApplyEvent(prior, Event(converged, timeSeconds, profitPercent, now));
      ObservedWellFormed(prior, Event(converged, timeSeconds, profitPercent, now));
      KeyOrderStore(stats, order, symbol, st);
      ConsistentStore(stats, symbol, st);
      if symbol !in stats {
        order := order + [symbol];
      }
      stats := stats[symbol := st];

      if st.totalSignals >= ListSamples {
        if st.convergenceRate >= WhitelistRate {
          whitelist := whitelist + {symbol};
          blacklist := blacklist - {symbol};
        } else if st.convergenceRate < BlacklistRate {
          blacklist := blacklist + {symbol};
          whitelist := whitelist - {symbol};
        }
      }
      if agreed {
        ListsAgreeStore(stats0, whitelist0, blacklist0, symbol, st, whitelist, blacklist);
      }
    }

    /** The body of the row-processing loop: the row's record replaces the
        token's, a rate of at least 0.6 whitelists the token, and a rate
        under 0.3 over at least five events blacklists it. Nothing is taken
        off a list, so a blacklisted token loaded with a high rate ends up on
        both (see `LoadRowCanBreakAgreement`). */
    method LoadRow(row: ConvergenceRow, now: real)
      requires Valid()
      requires ConvergedOf(row) <= row.total
      modifies this
      ensures Valid()
      ensures stats == old(stats)[row.token := RowStats(row, now)]
      ensures order == if row.token in old(order) then old(order) else old(order) + [row.token]
      ensures whitelist == old(whitelist)
              + (if Rate(ConvergedOf(row), row.total) >= WhitelistRate then {row.token} else {})
      ensures blacklist == old(blacklist)
              + (if Rate(ConvergedOf(row), row.total) < BlacklistRate && row.total >= ListSamples
                 then {row.token} else {})
    {
      var st := RowStats(row, now);
      KeyOrderStore(stats, order, row.token, st);
      ConsistentStore(stats, row.token, st);
      if row.token !in stats {
        order := order + [row.token];
      }
      stats := stats[row.token := st];
      if st.convergenceRate >= WhitelistRate {
        whitelist := whitelist + {row.token};
      } else if st.convergenceRate < BlacklistRate && row.total >= ListSamples {
        blacklist := blacklist + {row.token};
      }
    }

    /** The row-processing loop of the bulk load. The query groups by token,
        so a row never counts more converged events than events. */
    method LoadRows(rows: seq<ConvergenceRow>, now: real)
      requires Valid()
      requires forall i :: 0 <= i < |rows| ==> ConvergedOf(rows[i]) <= rows[i].total
      modifies this
      ensures Valid()
      ensures stats == LoadedStats(old(stats), rows, now)
      ensures whitelist == old(whitelist) + WhitelistedRows(rows)
      ensures blacklist == old(blacklist) + BlacklistedRows(rows)
      ensures order == KeysAfter(old(order), RowTokens(rows))
    {
      ghost var tokens := RowTokens(rows);
      for i := 0 to |rows|
        invariant Valid()
        invariant stats == LoadedStats(old(stats), rows[..i], now)
        invariant whitelist == old(whitelist) + WhitelistedRows(rows[..i])
        invariant blacklist == old(blacklist) + BlacklistedRows(rows[..i])
        invariant order == KeysAfter(old(order), tokens[..i])
      {
        ghost var (w, b, keys) := (whitelist, blacklist, order);
        LoadRow(rows[i], now);
        LoadedStep(old(stats), rows, i, now);
        RowListsStep(rows, i, old(whitelist), old(blacklist), w, b, whitelist, blacklist);
        KeysAfterStep(old(order), tokens, i, keys, order);
      }
      assert rows[..|rows|] == rows;
      assert tokens[..|rows|] == tokens;
    }

    function IsBlacklisted(symbol: string): (r: bool)
      reads this
      ensures r <==> symbol in blacklist
    {
      symbol in blacklist
    }

    function IsWhitelisted(symbol: string): (r: bool)
      reads this
      ensures r <==> symbol in whitelist
    {
      symbol in whitelist
    }

    function PriorityScore(symbol: string): (r: real)
      reads this
      requires Valid()
      ensures symbol !in stats ==> r == 5.0
      ensures symbol in stats && stats[symbol].totalSignals < MinSamples ==> r == 5.0
      ensures 0.0 <= r <= 10.0
    {
      if symbol in stats then Priority(stats[symbol]) else 5.0
    }

    /** The gate: the blacklist first, then the sample minimum, then the
        priority score and the rate. */
    function ShouldSignal(symbol: string, minScore: real): (v: Verdict)
      reads this
      requires Valid()
      ensures symbol in blacklist ==> v == Verdict(false, Blacklisted)
      ensures symbol !in blacklist && symbol !in stats ==> v == Verdict(true, NewToken)
      ensures symbol !in blacklist && symbol in stats && stats[symbol].totalSignals < MinSamples
              ==> v == Verdict(true, InsufficientData)
      ensures v.pass && symbol in stats && stats[symbol].totalSignals >= MinSamples ==>
                && symbol !in blacklist
                && PriorityScore(symbol) >= minScore
                && stats[symbol].convergenceRate >= BlacklistRate
      ensures symbol !in blacklist && symbol in stats && stats[symbol].totalSignals >= MinSamples
              && PriorityScore(symbol) >= minScore
              && stats[symbol].convergenceRate >= BlacklistRate
              ==> v == Verdict(true, Approved)
    {
      if symbol in blacklist then Verdict(false, Blacklisted)
      else if symbol !in stats then Verdict(true, NewToken)
      else if stats[symbol].totalSignals < MinSamples then Verdict(true, InsufficientData)
      else if PriorityScore(symbol) < minScore then Verdict(false, LowScore)
      else if stats[symbol].convergenceRate < BlacklistRate then Verdict(false, LowRate)
      else Verdict(true, Approved)
    }

    /** The `n` best tokens by priority, highest first, ties in first-seen order. */
    function TopTokens(n: int): (r: seq<(string, real)>)
      reads this
      requires Valid()
      ensures forall i :: 0 <= i < |r| ==> r[i].0 in stats && r[i].1 == Priority(stats[r[i].0])
      ensures NonIncreasing(r)
      ensures DistinctKeys(r)
      ensures 0 <= n ==> |r| <= n
      ensures forall s :: s in stats && (s, Priority(stats[s])) !in r ==>
                (0 <= n ==> |r| == n)
                && forall i :: 0 <= i < |r| ==> r[i].1 >= Priority(stats[s])
      ensures forall v :: WithScore(r, v) <= WithScore(Scored(stats, order), v)
    {
      TopScored(stats, order, n);
      Top(Scored(stats, order), n)
    }
  }
}
