/** Token intelligence: every closed trade of a token is folded into its
    record (outcome and direction counters, profit extremes, a moving average
    of convergence time, a window of the last ten outcomes) and the record's
    0-10 quality score is recomputed; gate queries read the records. */
module Intelligence {
  import opened Common
  import opened Ranking

  /** Below this many trades a token is scored neutrally and never vetoed. */
  const MinTradesForScoring: nat := 3
  /** Length of the most-recent-outcomes window. */
  const RecentCapacity: nat := 10
  /** Default thresholds of `should_signal`. */
  const DefaultMinScore: real := 4.0
  const DefaultMinWinRate: real := 0.35
  /** Default threshold and length of the recommendation list. */
  const DefaultRecommendMinScore: real := 6.0
  const DefaultRecommendLimit: int := 20

  datatype TokenStats = TokenStats(
    symbol: string,
    totalSignals: nat,
    wins: nat,
    losses: nat,
    draws: nat,
    totalProfit: real,
    avgProfit: real,
    bestTrade: real,
    worstTrade: real,
    avgConvergenceTime: real,
    fastestConvergence: Option<real>,  // None stands for the initial +infinity
    longWins: nat,
    longTotal: nat,
    shortWins: nat,
    shortTotal: nat,
    recentOutcomes: seq<string>,
    winRate: real,
    qualityScore: real,
    lastUpdated: real)

  /** A record as it is created on a token's first trade. */
  function NewStats(symbol: string): TokenStats {
    TokenStats(symbol, 0, 0, 0, 0, 0.0, 0.0, 0.0, 0.0, 0.0, None,
               0, 0, 0, 0, [], 0.0, 5.0, 0.0)
  }

  /** One closed trade, as `record_outcome` receives it. */
  datatype Trade = Trade(
    direction: string,
    outcome: string,
    profitPercent: real,
    convergenceTime: real,
    now: real)

  /** Occurrences of `x` in `s` (Python's `list.count`). */
  function Count(s: seq<string>, x: string): (n: nat)
    ensures n <= |s|
  {
    if s == [] then 0
    else Count(s[..|s| - 1], x) + (if s[|s| - 1] == x then 1 else 0)
  }

  lemma FractionWithin(a: nat, b: nat)
    requires 0 < b && a <= b
    ensures 0.0 <= a as real / b as real <= 1.0
  {
  }

  /** The 0-10 quality score: neutral 5.0 below the sample minimum, otherwise
      a weighted sum of win rate (0.35), average profit (0.25), speed (0.20),
      recent consistency (0.10) and sample confidence (0.10), rounded to two
      decimals. */
  function QualityScore(st: TokenStats): (r: real)
    ensures st.totalSignals < MinTradesForScoring ==> r == 5.0
    ensures 0.0 <= st.winRate <= 1.0 ==> 0.0 <= r <= 10.0
  {
    if st.totalSignals < MinTradesForScoring then 5.0
    else
      var winScore := st.winRate * 10.0;
      var profitScore := Clamp10(5.0 + st.avgProfit * 0.5);
      var speedScore := SpeedScore(st.avgConvergenceTime);
      var recentTotal := |st.recentOutcomes|;
      var recentWins := Count(st.recentOutcomes, "win");
      var consistencyScore :=
        if recentTotal > 0 then recentWins as real / recentTotal as real * 10.0 else 5.0;
      var sampleScore :=
        if st.totalSignals >= 20 then 10.0 else st.totalSignals as real / 20.0 * 10.0;
      var weighted :=
        winScore * 0.35 + profitScore * 0.25 + speedScore * 0.20
        + consistencyScore * 0.10 + sampleScore * 0.10;
      assert recentTotal > 0 ==> 0.0 <= recentWins as real / recentTotal as real <= 1.0 by {
        if recentTotal > 0 { FractionWithin(recentWins, recentTotal); }
      }
      assert 0.0 <= st.winRate <= 1.0 ==> 0.0 <= RoundHalfEven(weighted, 100) <= 10.0 by {
        if 0.0 <= st.winRate <= 1.0 { RoundWithin(weighted, 100, 0, 10); }
      }
      RoundHalfEven(weighted, 100)
  }

  /** Appending to the recent-outcomes list, then dropping the oldest entry
      when the list has grown past its capacity. */
  function KeepRecent(s: seq<string>): seq<string> {
    if |s| > RecentCapacity then s[1..] else s
  }

  /** The counters after one more trade. Any outcome other than "win" and
      "lose" is a draw, and any direction other than "LONG" is short. */
  function Counted(st: TokenStats, t: Trade): TokenStats {
    var isWin := t.outcome == "win";
    var isLoss := !isWin && t.outcome == "lose";
    var isLong := t.direction == "LONG";
    st.(
      totalSignals := st.totalSignals + 1,
      wins := st.wins + (if isWin then 1 else 0),
      losses := st.losses + (if isLoss then 1 else 0),
      draws := st.draws + (if isWin || isLoss then 0 else 1),
      longWins := st.longWins + (if isWin && isLong then 1 else 0),
      shortWins := st.shortWins + (if isWin && !isLong then 1 else 0),
      longTotal := st.longTotal + (if isLong then 1 else 0),
      shortTotal := st.shortTotal + (if isLong then 0 else 1))
  }

  /** The profit sum and extremes after one more trade. */
  function Profited(st: TokenStats, t: Trade): TokenStats {
    st.(
      totalProfit := st.totalProfit + t.profitPercent,
      bestTrade := Max(st.bestTrade, t.profitPercent),
      worstTrade := Min(st.worstTrade, t.profitPercent))
  }

  /** The timing fields after one more trade: only a positive convergence
      time of a trade that was not lost is taken into account. */
  function Timed(st: TokenStats, t: Trade): TokenStats {
    if t.convergenceTime > 0.0 && t.outcome != "lose" then
      st.(
        fastestConvergence := Some(FasterOf(st.fastestConvergence, t.convergenceTime)),
        avgConvergenceTime := Ema(st.avgConvergenceTime, t.convergenceTime))
    else st
  }

  /** The recent-outcomes window after one more trade. */
  function Windowed(st: TokenStats, t: Trade): TokenStats {
    st.(recentOutcomes := KeepRecent(st.recentOutcomes + [t.outcome]))
  }

  /** The derived fields, recomputed from the counters: average profit, win
      rate, time stamp and, last, the quality score. */
  function Derived(st: TokenStats, now: real): TokenStats
    requires st.totalSignals > 0
  {
    var base := st.(
      avgProfit := st.totalProfit / st.totalSignals as real,
      winRate := st.wins as real / st.totalSignals as real,
      lastUpdated := now);
    base.(qualityScore := QualityScore(base))
  }

  /** The record after one more trade: what `record_outcome` leaves behind. */
  function Recorded(st: TokenStats, t: Trade): TokenStats {
    Derived(Windowed(Timed(Profited(Counted(st, t), t), t), t), t.now)
  }

  /** The outcome and direction counters add up. */
  ghost predicate CountersAddUp(st: TokenStats) {
    && st.wins + st.losses + st.draws == st.totalSignals
    && st.longTotal + st.shortTotal == st.totalSignals
    && st.longWins + st.shortWins == st.wins
    && st.longWins <= st.longTotal
    && st.shortWins <= st.shortTotal
    && |st.recentOutcomes| == (if st.totalSignals < RecentCapacity then st.totalSignals else RecentCapacity)
  }

  /** The timing fields agree with each other and the extremes bracket zero. */
  ghost predicate TimingAgrees(st: TokenStats) {
    && st.worstTrade <= 0.0 <= st.bestTrade
    && st.avgConvergenceTime >= 0.0
    && (st.fastestConvergence.None? <==> st.avgConvergenceTime == 0.0)
    && (st.fastestConvergence.Some? ==>
          0.0 < st.fastestConvergence.value <= st.avgConvergenceTime)
  }

  /** The averages, the win rate and the score are current. */
  ghost predicate DerivedCurrent(st: TokenStats) {
    && st.winRate == (if st.totalSignals > 0 then st.wins as real / st.totalSignals as real else 0.0)
    && st.avgProfit == (if st.totalSignals > 0 then st.totalProfit / st.totalSignals as real else 0.0)
    && 0.0 <= st.winRate <= 1.0
    && st.qualityScore == QualityScore(st)
  }

  /** The invariants every record keeps: the counters add up, the window is
      bounded, the extremes bracket zero, the timing fields agree with each
      other and the derived fields (averages, win rate, score) are current. */
  ghost predicate WellFormed(st: TokenStats) {
    CountersAddUp(st) && TimingAgrees(st) && DerivedCurrent(st)
  }

  lemma NewStatsWellFormed(symbol: string)
    ensures WellFormed(NewStats(symbol))
  {
  }

  /** Recording a trade keeps every invariant of the record. */
  lemma RecordedWellFormed(st: TokenStats, t: Trade)
    requires WellFormed(st)
    ensures WellFormed(Recorded(st, t))
  {
    RecordedCounters(st, t);
    RecordedTiming(st, t);
    RecordedDerived(st, t);
  }

  lemma RecordedCounters(st: TokenStats, t: Trade)
    requires CountersAddUp(st)
    ensures CountersAddUp(Recorded(st, t))
  {
    var w := Windowed(Timed(Profited(Counted(st, t), t), t), t);
    assert CountersAddUp(w);
  }

  lemma RecordedTiming(st: TokenStats, t: Trade)
    requires TimingAgrees(st)
    ensures TimingAgrees(Recorded(st, t))
  {
    var w := Windowed(Timed(Profited(Counted(st, t), t), t), t);
    assert TimingAgrees(w);
  }

  lemma RecordedDerived(st: TokenStats, t: Trade)
    requires CountersAddUp(st)
    ensures DerivedCurrent(Recorded(st, t))
  {
    var w := Windowed(Timed(Profited(Counted(st, t), t), t), t);
    assert w.wins <= w.totalSignals;
    FractionWithin(w.wins, w.totalSignals);
  }

  /** Recomputing the score of a well-formed record changes nothing. */
  lemma RescoreIdempotent(st: TokenStats)
    requires WellFormed(st)
    ensures st.(qualityScore := QualityScore(st)) == st
  {
  }

  /** A token's record after a sequence of trades, oldest first. */
  function Replay(st: TokenStats, trades: seq<Trade>): TokenStats {
    if trades == [] then st
    else Recorded(Replay(st, trades[..|trades| - 1]), trades[|trades| - 1])
  }

  function Outcomes(trades: seq<Trade>): (r: seq<string>)
    ensures |r| == |trades|
    ensures forall i :: 0 <= i < |trades| ==> r[i] == trades[i].outcome
  {
    if trades == [] then []
    else Outcomes(trades[..|trades| - 1]) + [trades[|trades| - 1].outcome]
  }

  function LongTrades(trades: seq<Trade>): nat {
    if trades == [] then 0
    else LongTrades(trades[..|trades| - 1]) + (if trades[|trades| - 1].direction == "LONG" then 1 else 0)
  }

  /** The last `n` entries of `s`, or all of them when there are fewer. */
  function LastN(s: seq<string>, n: nat): (r: seq<string>)
    ensures |r| == if |s| < n then |s| else n
  {
    if |s| <= n then s else s[|s| - n..]
  }

  /** Replaying trades into a fresh record keeps the invariants. */
  lemma {:induction false} ReplayWellFormed(symbol: string, trades: seq<Trade>)
    ensures WellFormed(Replay(NewStats(symbol), trades))
    ensures Replay(NewStats(symbol), trades).symbol == symbol
  {
    if trades == [] {
      NewStatsWellFormed(symbol);
    } else {
      ReplayWellFormed(symbol, trades[..|trades| - 1]);
      RecordedWellFormed(Replay(NewStats(symbol), trades[..|trades| - 1]), trades[|trades| - 1]);
    }
  }

  /** The counters of a replayed record count the trades: every trade once,
      every "win" as a win, every "lose" as a loss, every other outcome as a
      draw, every "LONG" as long and every other direction as short. */
  lemma {:induction false} ReplayCounters(symbol: string, trades: seq<Trade>)
    ensures Replay(NewStats(symbol), trades).totalSignals == |trades|
    ensures Replay(NewStats(symbol), trades).wins == Count(Outcomes(trades), "win")
    ensures Replay(NewStats(symbol), trades).losses == Count(Outcomes(trades), "lose")
    ensures Replay(NewStats(symbol), trades).draws
            == |trades| - Count(Outcomes(trades), "win") - Count(Outcomes(trades), "lose")
    ensures Replay(NewStats(symbol), trades).longTotal == LongTrades(trades)
    ensures Replay(NewStats(symbol), trades).shortTotal == |trades| - LongTrades(trades)
  {
    if trades != [] {
      var init := trades[..|trades| - 1];
      ReplayCounters(symbol, init);
      assert Outcomes(trades)[..|trades| - 1] == Outcomes(init);
    }
  }

  /** Recording a trade moves the extremes to include its profit. */
  lemma RecordedExtremes(st: TokenStats, t: Trade)
    ensures Recorded(st, t).bestTrade == Max(st.bestTrade, t.profitPercent)
    ensures Recorded(st, t).worstTrade == Min(st.worstTrade, t.profitPercent)
  {
  }

  /** best_trade is the largest of 0 and every recorded profit. */
  lemma {:induction false} ReplayBest(symbol: string, trades: seq<Trade>)
    ensures Replay(NewStats(symbol), trades).bestTrade >= 0.0
    ensures forall i :: 0 <= i < |trades| ==>
              trades[i].profitPercent <= Replay(NewStats(symbol), trades).bestTrade
    ensures Replay(NewStats(symbol), trades).bestTrade == 0.0
            || exists i :: 0 <= i < |trades| && trades[i].profitPercent == Replay(NewStats(symbol), trades).bestTrade
  {
    if trades != [] {
      var init := trades[..|trades| - 1];
      ReplayBest(symbol, init);
      var before := Replay(NewStats(symbol), init);
      var last := trades[|trades| - 1];
      RecordedExtremes(before, last);
      forall i | 0 <= i < |init| ensures trades[i] == init[i] { }
      if before.bestTrade != 0.0 && before.bestTrade >= last.profitPercent {
        var k :| 0 <= k < |init| && init[k].profitPercent == before.bestTrade;
        assert trades[k] == init[k];
      }
    }
  }

  /** worst_trade is the smallest of 0 and every recorded profit. */
  lemma {:induction false} ReplayWorst(symbol: string, trades: seq<Trade>)
    ensures Replay(NewStats(symbol), trades).worstTrade <= 0.0
    ensures forall i :: 0 <= i < |trades| ==>
              Replay(NewStats(symbol), trades).worstTrade <= trades[i].profitPercent
    ensures Replay(NewStats(symbol), trades).worstTrade == 0.0
            || exists i :: 0 <= i < |trades| && trades[i].profitPercent == Replay(NewStats(symbol), trades).worstTrade
  {
    if trades != [] {
      var init := trades[..|trades| - 1];
      ReplayWorst(symbol, init);
      var before := Replay(NewStats(symbol), init);
      var last := trades[|trades| - 1];
      RecordedExtremes(before, last);
      forall i | 0 <= i < |init| ensures trades[i] == init[i] { }
      if before.worstTrade != 0.0 && before.worstTrade <= last.profitPercent {
        var k :| 0 <= k < |init| && init[k].profitPercent == before.worstTrade;
        assert trades[k] == init[k];
      }
    }
  }

  /** The recent-outcomes window holds exactly the last ten outcomes. */
  lemma {:induction false} ReplayRecent(symbol: string, trades: seq<Trade>)
    ensures Replay(NewStats(symbol), trades).recentOutcomes == LastN(Outcomes(trades), RecentCapacity)
  {
    if trades != [] {
      var init := trades[..|trades| - 1];
      ReplayRecent(symbol, init);
      var o := Outcomes(trades);
      assert o == Outcomes(init) + [trades[|trades| - 1].outcome];
      if |o| > RecentCapacity {
        assert LastN(Outcomes(init), RecentCapacity) + [o[|o| - 1]]
               == o[|o| - RecentCapacity - 1..];
      }
    }
  }

  /** `recent_outcomes[-5:]` holding four or more losses. */
  predicate LosingStreak(recent: seq<string>) {
    |recent| >= 5 && Count(recent[|recent| - 5..], "lose") >= 4
  }

  /** The direction-specific veto: a direction with at least three trades
      and a win rate under 0.3 fails. Only "LONG" and "SHORT" are checked. */
  predicate PoorDirection(st: TokenStats, direction: string) {
    || (direction == "LONG" && st.longTotal >= 3
        && st.longWins as real / st.longTotal as real < 0.3)
    || (direction == "SHORT" && st.shortTotal >= 3
        && st.shortWins as real / st.shortTotal as real < 0.3)
  }

  /** Why a signal is admitted or vetoed (the f-string reasons without their numbers). */
  datatype Reason =
    | NewToken | InsufficientData | LowScore | LowWinRate
    | PoorLong | PoorShort | LosingStreakVeto | Approved

  datatype Verdict = Verdict(pass: bool, reason: Reason)

  /** One historical outcome row as the store returns it; `pnl` and
      `duration` may be missing. */
  datatype OutcomeRow = OutcomeRow(
    token: string,
    direction: string,
    outcome: string,
    pnl: Option<real>,
    duration: Option<real>)

  /** The trade a stored row stands for: `pnl or 0` and `duration or 0`. */
  function RowTrade(row: OutcomeRow, now: real): Trade {
    Trade(row.direction, row.outcome, OrDefault(row.pnl, 0.0), OrDefault(row.duration, 0.0), now)
  }

  /** The record `symbol` has in `m`, or a fresh one. */
  function PriorIn(m: map<string, TokenStats>, symbol: string): TokenStats {
    if symbol in m then m[symbol] else NewStats(symbol)
  }

  /** The tokens of `rows`, in the order given. */
  function RowTokens(rows: seq<OutcomeRow>): seq<string> {
    seq(|rows|, i requires 0 <= i < |rows| => rows[i].token)
  }

  /** The records after replaying `rows`, in the order given, into `m`. */
  function Loaded(m: map<string, TokenStats>, rows: seq<OutcomeRow>, now: real)
    : map<string, TokenStats>
  {
    if rows == [] then m
    else
      var before := Loaded(m, rows[..|rows| - 1], now);
      var row := rows[|rows| - 1];
      before[row.token := Recorded(PriorIn(before, row.token), RowTrade(row, now))]
  }

  /** The trades of `symbol` among `rows`, in the order given. */
  function TradesFor(rows: seq<OutcomeRow>, symbol: string, now: real): seq<Trade> {
    if rows == [] then []
    else
      TradesFor(rows[..|rows| - 1], symbol, now)
      + (if rows[|rows| - 1].token == symbol then [RowTrade(rows[|rows| - 1], now)] else [])
  }

  /** Loading rows into an empty engine gives every token that has rows the
      record of replaying exactly its own rows, and no other token a record. */
  lemma {:induction false} LoadedReplay(rows: seq<OutcomeRow>, now: real, symbol: string)
    ensures symbol in Loaded(map[], rows, now) <==> TradesFor(rows, symbol, now) != []
    ensures symbol in Loaded(map[], rows, now) ==>
              Loaded(map[], rows, now)[symbol] == Replay(NewStats(symbol), TradesFor(rows, symbol, now))
  {
    if rows != [] {
      var init := rows[..|rows| - 1];
      var row := rows[|rows| - 1];
      LoadedReplay(init, now, symbol);
      var before := Loaded(map[], init, now);
      var ts := TradesFor(rows, symbol, now);
      if row.token == symbol {
        assert ts == TradesFor(init, symbol, now) + [RowTrade(row, now)];
        assert ts[..|ts| - 1] == TradesFor(init, symbol, now);
        assert PriorIn(before, symbol) == Replay(NewStats(symbol), TradesFor(init, symbol, now));
      } else {
        assert ts == TradesFor(init, symbol, now);
      }
    }
  }

  /** The `(symbol, score)` pairs of the recommendation query, in key order:
      tokens with at least five trades and a score of at least `minScore`. */
  function Recommendable(m: map<string, TokenStats>, keys: seq<string>, minScore: real)
    : (r: seq<(string, real)>)
    requires forall k :: k in keys ==> k in m
    ensures forall i :: 0 <= i < |r| ==>
              r[i].0 in keys && r[i].1 == m[r[i].0].qualityScore
              && r[i].1 >= minScore && m[r[i].0].totalSignals >= 5
    ensures forall k :: k in keys && m[k].qualityScore >= minScore && m[k].totalSignals >= 5
              ==> (k, m[k].qualityScore) in r
  {
    if keys == [] then []
    else
      var rest := Recommendable(m, keys[1..], minScore);
      var k := keys[0];
      if m[k].qualityScore >= minScore && m[k].totalSignals >= 5 then [(k, m[k].qualityScore)] + rest
      else rest
  }

  /** One key, one pair: distinct keys give distinct pairs. */
  lemma {:induction false} RecommendableDistinct(m: map<string, TokenStats>, keys: seq<string>, minScore: real)
    requires forall k :: k in keys ==> k in m
    requires forall i, j :: 0 <= i < j < |keys| ==> keys[i] != keys[j]
    ensures DistinctKeys(Recommendable(m, keys, minScore))
  {
    if keys != [] {
      RecommendableDistinct(m, keys[1..], minScore);
      var rest := Recommendable(m, keys[1..], minScore);
      forall i | 0 <= i < |rest| ensures rest[i].0 != keys[0] {
        assert rest[i].0 in keys[1..];
        var k :| 0 <= k < |keys[1..]| && keys[1..][k] == rest[i].0;
        assert keys[k + 1] == rest[i].0;
      }
      var k := keys[0];
      if m[k].qualityScore >= minScore && m[k].totalSignals >= 5 {
        DistinctCons((k, m[k].qualityScore), rest);
      }
    }
  }

  /** The leader board over the recommendable pairs: real scores of known
      tokens, one entry per token, and nothing left out outranks an entry. */
  lemma TopRecommendable(m: map<string, TokenStats>, keys: seq<string>, minScore: real, n: int)
    requires KeyOrder(m, keys)
    ensures forall i :: 0 <= i < |Top(Recommendable(m, keys, minScore), n)| ==>
              Top(Recommendable(m, keys, minScore), n)[i].0 in m
              && Top(Recommendable(m, keys, minScore), n)[i].1 == m[Top(Recommendable(m, keys, minScore), n)[i].0].qualityScore
              && Top(Recommendable(m, keys, minScore), n)[i].1 >= minScore
              && m[Top(Recommendable(m, keys, minScore), n)[i].0].totalSignals >= 5
    ensures DistinctKeys(Top(Recommendable(m, keys, minScore), n))
    ensures forall s ::
              (s in m && m[s].qualityScore >= minScore && m[s].totalSignals >= 5
               && (s, m[s].qualityScore) !in Top(Recommendable(m, keys, minScore), n))
              ==> (0 <= n ==> |Top(Recommendable(m, keys, minScore), n)| == n)
                  && forall i :: 0 <= i < |Top(Recommendable(m, keys, minScore), n)| ==>
                       Top(Recommendable(m, keys, minScore), n)[i].1 >= m[s].qualityScore
  {
    var pairs := Recommendable(m, keys, minScore);
    var r := Top(pairs, n);
    RecommendableDistinct(m, keys, minScore);
    forall i | 0 <= i < |r|
      ensures r[i].0 in m && r[i].1 == m[r[i].0].qualityScore
      ensures r[i].1 >= minScore && m[r[i].0].totalSignals >= 5
    {
      assert r[i] in pairs;
      var k :| 0 <= k < |pairs| && pairs[k] == r[i];
    }
  }

  /** The tokens to avoid, in key order: at least five trades and a score under 3.0. */
  function Avoidable(m: map<string, TokenStats>, keys: seq<string>): (r: seq<string>)
    requires forall k :: k in keys ==> k in m
    ensures forall s :: s in r <==> s in keys && m[s].qualityScore < 3.0 && m[s].totalSignals >= 5
    ensures (forall i, j :: 0 <= i < j < |keys| ==> keys[i] != keys[j]) ==>
              forall i, j :: 0 <= i < j < |r| ==> r[i] != r[j]
  {
    if keys == [] then []
    else
      var rest := Avoidable(m, keys[1..]);
      var k := keys[0];
      if m[k].qualityScore < 3.0 && m[k].totalSignals >= 5 then [k] + rest else rest
  }

  /** The in-place update of one record by one trade, block by block as
      `record_outcome` does it. */
  method ApplyTrade(prior: TokenStats, t: Trade) returns (st: TokenStats)
    ensures st == Recorded(prior, t)
  {
    st := CountTrade(prior, t);
    st := AddProfit(st, t);
    st := AddTiming(st, t);
    st := PushOutcome(st, t);
    st := st.(avgProfit := st.totalProfit / st.totalSignals as real,
              winRate := st.wins as real / st.totalSignals as real,
              lastUpdated := t.now);
    st := st.(qualityScore := QualityScore(st));
  }

  method CountTrade(prior: TokenStats, t: Trade) returns (st: TokenStats)
    ensures st == Counted(prior, t)
  {
    st := prior.(totalSignals := prior.totalSignals + 1);
    if t.outcome == "win" {
      st := st.(wins := st.wins + 1);
      if t.direction == "LONG" {
        st := st.(longWins := st.longWins + 1);
      } else {
        st := st.(shortWins := st.shortWins + 1);
      }
    } else if t.outcome == "lose" {
      st := st.(losses := st.losses + 1);
    } else {
      st := st.(draws := st.draws + 1);
    }
    if t.direction == "LONG" {
      st := st.(longTotal := st.longTotal + 1);
    } else {
      st := st.(shortTotal := st.shortTotal + 1);
    }
  }

  method AddProfit(prior: TokenStats, t: Trade) returns (st: TokenStats)
    ensures st == Profited(prior, t)
  {
    st := prior.(totalProfit := prior.totalProfit + t.profitPercent);
    if t.profitPercent > st.bestTrade {
      st := st.(bestTrade := t.profitPercent);
    }
    if t.profitPercent < st.worstTrade {
      st := st.(worstTrade := t.profitPercent);
    }
  }

  method AddTiming(prior: TokenStats, t: Trade) returns (st: TokenStats)
    ensures st == Timed(prior, t)
  {
    st := prior;
    if t.convergenceTime > 0.0 && t.outcome != "lose" {
      if st.fastestConvergence.None? || t.convergenceTime < st.fastestConvergence.value {
        st := st.(fastestConvergence := Some(t.convergenceTime));
      }
      if st.avgConvergenceTime == 0.0 {
        st := st.(avgConvergenceTime := t.convergenceTime);
      } else {
        st := st.(avgConvergenceTime :=
                    Alpha * t.convergenceTime + (1.0 - Alpha) * st.avgConvergenceTime);
      }
    }
  }

  method PushOutcome(prior: TokenStats, t: Trade) returns (st: TokenStats)
    ensures st == Windowed(prior, t)
  {
    var recent := prior.recentOutcomes + [t.outcome];
    if |recent| > RecentCapacity {
      recent := recent[1..];
    }
    st := prior.(recentOutcomes := recent);
  }

  /** Every record is filed under its own symbol and well formed. */
  ghost predicate Consistent(m: map<string, TokenStats>) {
    forall s :: s in m ==> m[s].symbol == s && WellFormed(m[s])
  }

  lemma ConsistentStore(m: map<string, TokenStats>, k: string, v: TokenStats)
    requires Consistent(m) && v.symbol == k && WellFormed(v)
    ensures Consistent(m[k := v])
  {
  }

  /** The engine: one record per token, keyed by symbol, plus the symbols in
      the order they were first seen (the iteration order of the dict). */
  class TokenIntelligence {
    var stats: map<string, TokenStats>
    var order: seq<string>

    ghost predicate Valid()
      reads this
    {
      KeyOrder(stats, order) && Consistent(stats)
    }

    constructor ()
      ensures Valid() && stats == map[] && order == []
    {
      stats := map[];
      order := [];
    }

    /** The record a new trade of `symbol` is folded into. */
    function Prior(symbol: string): TokenStats
      reads this
    {
      PriorIn(stats, symbol)
    }

    method RecordOutcome(symbol: string, direction: string, outcome: string,
                         profitPercent: real, convergenceTime: real, now: real)
      requires Valid()
      modifies this
      ensures Valid()
      ensures stats == old(stats)[symbol := Recorded(old(Prior(symbol)),
                 Trade(direction, outcome, profitPercent, convergenceTime, now))]
      ensures order == if symbol in old(stats) then old(order) else old(order) + [symbol]
    {
      var trade := Trade(direction, outcome, profitPercent, convergenceTime, now);
      var prior := Prior(symbol);
      NewStatsWellFormed(symbol);
      var st := ApplyTrade(prior, trade);
      RecordedWellFormed(prior, trade);
      KeyOrderStore(stats, order, symbol, st);
      ConsistentStore(stats, symbol, st);
      if symbol !in stats {
        order := order + [symbol];
      }
      stats := stats[symbol := st];
    }

    /** The replay loop of the bulk load: every row goes through
        `RecordOutcome`, a missing or zero profit or duration counting as 0;
        a token seen for the first time joins the key order at the end. */
    method LoadRows(rows: seq<OutcomeRow>, now: real)
      requires Valid()
      modifies this
      ensures Valid()
      ensures stats == Loaded(old(stats), rows, now)
      ensures order == KeysAfter(old(order), RowTokens(rows))
    {
      ghost var tokens := RowTokens(rows);
      for i := 0 to |rows|
        invariant Valid()
        invariant stats == Loaded(old(stats), rows[..i], now)
        invariant order == KeysAfter(old(order), tokens[..i])
      {
        var row := rows[i];
        assert rows[..i + 1][..i] == rows[..i];
        assert row.token in stats <==> row.token in order;
        ghost var keys := order;
        var trade := RowTrade(row, now);
        RecordOutcome(row.token, trade.direction, trade.outcome,
                      trade.profitPercent, trade.convergenceTime, now);
        KeysAfterStep(old(order), tokens, i, keys, order);
      }
      assert rows[..|rows|] == rows;
      assert tokens[..|rows|] == tokens;
      RecalculateScores();
    }

    /** The rescoring pass after a bulk load; the scores are already current,
        so it leaves every record as it was. */
    method RecalculateScores()
      requires Valid()
      modifies this
      ensures Valid() && stats == old(stats) && order == old(order)
    {
      for i := 0 to |order|
        invariant Valid() && stats == old(stats) && order == old(order)
      {
        var st := stats[order[i]];
        RescoreIdempotent(st);
        stats := stats[order[i] := st.(qualityScore := QualityScore(st))];
      }
    }

    function GetScore(symbol: string): (r: real)
      reads this
      requires Valid()
      ensures symbol !in stats ==> r == 5.0
      ensures symbol in stats && stats[symbol].totalSignals < MinTradesForScoring ==> r == 5.0
      ensures 0.0 <= r <= 10.0
    {
      if symbol in stats then stats[symbol].qualityScore else 5.0
    }

    /** Admits a signal unless accumulated evidence says otherwise. */
    function ShouldSignal(symbol: string, direction: string, minScore: real, minWinRate: real)
      : (v: Verdict)
      reads this
      ensures symbol !in stats ==> v == Verdict(true, NewToken)
      ensures symbol in stats && stats[symbol].totalSignals < MinTradesForScoring
              ==> v == Verdict(true, InsufficientData)
      ensures v.pass && symbol in stats && stats[symbol].totalSignals >= MinTradesForScoring ==>
                && stats[symbol].qualityScore >= minScore
                && stats[symbol].winRate >= minWinRate
                && !PoorDirection(stats[symbol], direction)
                && !LosingStreak(stats[symbol].recentOutcomes)
      ensures symbol in stats && stats[symbol].totalSignals >= MinTradesForScoring
              && stats[symbol].qualityScore >= minScore
              && stats[symbol].winRate >= minWinRate
              && !PoorDirection(stats[symbol], direction)
              && !LosingStreak(stats[symbol].recentOutcomes)
              ==> v == Verdict(true, Approved)
      ensures symbol in stats && stats[symbol].totalSignals >= MinTradesForScoring
              && LosingStreak(stats[symbol].recentOutcomes)
              ==> !v.pass
    {
      if symbol !in stats then Verdict(true, NewToken)
      else
        var st := stats[symbol];
        if st.totalSignals < MinTradesForScoring then Verdict(true, InsufficientData)
        else if st.qualityScore < minScore then Verdict(false, LowScore)
        else if st.winRate < minWinRate then Verdict(false, LowWinRate)
        else if direction == "LONG" && st.longTotal >= 3
                && st.longWins as real / st.longTotal as real < 0.3 then Verdict(false, PoorLong)
        else if direction == "SHORT" && st.shortTotal >= 3
                && st.shortWins as real / st.shortTotal as real < 0.3 then Verdict(false, PoorShort)
        else if |st.recentOutcomes| >= 5
                && Count(st.recentOutcomes[|st.recentOutcomes| - 5..], "lose") >= 4
        then Verdict(false, LosingStreakVeto)
        else Verdict(true, Approved)
    }

    /** A profit multiplier: the mean of a score term and a direction term. */
    function SignalModifier(symbol: string, direction: string): (m: real)
      reads this
      requires Valid()
      ensures symbol !in stats || stats[symbol].totalSignals < 3 ==> m == 1.0
      ensures 0.5 <= m <= 1.5
    {
      if symbol !in stats || stats[symbol].totalSignals < 3 then 1.0
      else
        var st := stats[symbol];
        var scoreModifier := 0.5 + (st.qualityScore / 10.0) * 1.0;
        var dirModifier :=
          if direction == "LONG" && st.longTotal >= 3 then
            FractionWithin(st.longWins, st.longTotal);
            0.7 + (st.longWins as real / st.longTotal as real) * 0.6
          else if direction == "SHORT" && st.shortTotal >= 3 then
            FractionWithin(st.shortWins, st.shortTotal);
            0.7 + (st.shortWins as real / st.shortTotal as real) * 0.6
          else 1.0;
        (scoreModifier + dirModifier) / 2.0
    }

    /** The best-scored tokens with at least five trades, highest first,
        ties in the order the tokens were first seen, cut to `limit`. */
    function RecommendedTokens(minScore: real, limit: int): (r: seq<(string, real)>)
      reads this
      requires Valid()
      ensures forall i :: 0 <= i < |r| ==>
                r[i].0 in stats && r[i].1 == stats[r[i].0].qualityScore
                && r[i].1 >= minScore && stats[r[i].0].totalSignals >= 5
      ensures NonIncreasing(r)
      ensures DistinctKeys(r)
      ensures 0 <= limit ==> |r| <= limit
      ensures forall s ::
                (s in stats && stats[s].qualityScore >= minScore && stats[s].totalSignals >= 5
                 && (s, stats[s].qualityScore) !in r)
                ==> (0 <= limit ==> |r| == limit)
                    && forall i :: 0 <= i < |r| ==> r[i].1 >= stats[s].qualityScore
      ensures forall v :: WithScore(r, v) <= WithScore(Recommendable(stats, order, minScore), v)
    {
      TopRecommendable(stats, order, minScore, limit);
      Top(Recommendable(stats, order, minScore), limit)
    }

    /** Tokens with at least five trades and a score under 3.0, in the order
        they were first seen. */
    function AvoidTokens(): (r: seq<string>)
      reads this
      requires Valid()
      ensures forall s :: s in r <==> s in stats && stats[s].qualityScore < 3.0 && stats[s].totalSignals >= 5
      ensures forall i, j :: 0 <= i < j < |r| ==> r[i] != r[j]
    {
      Avoidable(stats, order)
    }
  }
}
