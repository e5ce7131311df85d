/** Momentum tracker: a bounded, time-evicted price history per token, the
    price closest to a given age, a trend/strength classifier over the 1- and
    5-minute changes, and two gates over the cached result. */
module Momentum {
  import opened Common

  /** The `maxlen` of every price deque. */
  const Capacity: nat := 1000
  /** A point is only returned for an age if it lies within 30% of that age. */
  const Tolerance: real := 0.3
  /** Default window of the price history, in seconds. */
  const DefaultMaxHistorySec: int := 600
  /** Default strength a trend needs before `confirms_direction` acts on it. */
  const DefaultMinStrength: real := 2.0

  datatype PricePoint = PricePoint(price: real, timestamp: real)

  datatype Trend = Bullish | Bearish | Neutral

  datatype MomentumData = MomentumData(
    symbol: string,
    currentPrice: real,
    price1m: Option<real>,
    price5m: Option<real>,
    change1m: real,
    change5m: real,
    trend: Trend,
    strength: real,
    lastUpdated: real)

  /** How many points a deque with `maxlen=1000` drops when `append` is
      called on `h`: one when it is full. */
  function Overflow(h: seq<PricePoint>): (n: nat)
    ensures n <= |h|
    ensures |h| + 1 - n <= Capacity
    ensures |h| < Capacity ==> n == 0
  {
    if |h| >= Capacity then |h| + 1 - Capacity else 0
  }

  /** `deque.append` on a deque with `maxlen=1000`. */
  function AppendBounded(h: seq<PricePoint>, p: PricePoint): seq<PricePoint> {
    (h + [p])[Overflow(h)..]
  }

  /** How many points the eviction loop drops: the leading points older
      than `cutoff`. */
  function Stale(h: seq<PricePoint>, cutoff: real): (n: nat)
    ensures n <= |h|
    ensures forall i :: 0 <= i < n ==> h[i].timestamp < cutoff
    ensures n < |h| ==> h[n].timestamp >= cutoff
  {
    if h != [] && h[0].timestamp < cutoff then 1 + Stale(h[1..], cutoff) else 0
  }

  /** The eviction loop: pops from the front while the front point is older
      than `cutoff`. */
  function Evict(h: seq<PricePoint>, cutoff: real): seq<PricePoint> {
    h[Stale(h, cutoff)..]
  }

  /** Timestamps never decrease along the history. */
  ghost predicate Chronological(h: seq<PricePoint>) {
    forall i, j :: 0 <= i < j < |h| ==> h[i].timestamp <= h[j].timestamp
  }

  /** The history after recording `p` with the given cutoff. */
  function Retained(h: seq<PricePoint>, p: PricePoint, cutoff: real): seq<PricePoint> {
    Evict(AppendBounded(h, p), cutoff)
  }

  /** Recording a point keeps at most 1000 points, and they are the newest
      points of the old history followed by the new point. */
  lemma RetainedSuffix(h: seq<PricePoint>, p: PricePoint, cutoff: real)
    ensures |Retained(h, p, cutoff)| <= Capacity
    ensures Retained(h, p, cutoff) == (h + [p])[|h| + 1 - |Retained(h, p, cutoff)|..]
  {
    var o := Overflow(h);
    var a := AppendBounded(h, p);
    var n := Stale(a, cutoff);
    assert (h + [p])[o..][n..] == (h + [p])[o + n..];
  }

  /** A point inside the window is kept, and it is the newest point. */
  lemma RetainedKeepsNew(h: seq<PricePoint>, p: PricePoint, cutoff: real)
    requires p.timestamp >= cutoff
    ensures Retained(h, p, cutoff) != []
    ensures Retained(h, p, cutoff)[|Retained(h, p, cutoff)| - 1] == p
  {
    var a := AppendBounded(h, p);
    assert a[|a| - 1] == p;
  }

  /** With a clock that does not run backwards, the history stays in time
      order and, once recorded, holds only points inside the window. */
  lemma RetainedWindow(h: seq<PricePoint>, p: PricePoint, cutoff: real)
    requires Chronological(h)
    requires h != [] ==> h[|h| - 1].timestamp <= p.timestamp
    ensures Chronological(Retained(h, p, cutoff))
    ensures forall i :: 0 <= i < |Retained(h, p, cutoff)| ==> Retained(h, p, cutoff)[i].timestamp >= cutoff
  {
    ChronologicalAppend(h, p);
    ChronologicalSuffix(h + [p], Overflow(h));
    EvictWindow(AppendBounded(h, p), cutoff);
  }

  lemma ChronologicalAppend(h: seq<PricePoint>, p: PricePoint)
    requires Chronological(h)
    requires h != [] ==> h[|h| - 1].timestamp <= p.timestamp
    ensures Chronological(h + [p])
  {
  }

  /** Evicting from a history in time order leaves only points at or after
      the cutoff, still in time order. */
  lemma EvictWindow(h: seq<PricePoint>, cutoff: real)
    requires Chronological(h)
    ensures Chronological(Evict(h, cutoff))
    ensures forall i :: 0 <= i < |Evict(h, cutoff)| ==> Evict(h, cutoff)[i].timestamp >= cutoff
  {
    var n := Stale(h, cutoff);
    ChronologicalSuffix(h, n);
    forall i | 0 <= i < |Evict(h, cutoff)| ensures Evict(h, cutoff)[i].timestamp >= cutoff {
      assert Evict(h, cutoff)[i] == h[n + i];
      assert h[n].timestamp <= h[n + i].timestamp;
    }
  }

  lemma ChronologicalSuffix(h: seq<PricePoint>, k: nat)
    requires Chronological(h) && k <= |h|
    ensures Chronological(h[k..])
  {
    forall i, j | 0 <= i < j < |h[k..]| ensures h[k..][i].timestamp <= h[k..][j].timestamp {
      assert h[k..][i] == h[k + i] && h[k..][j] == h[k + j];
    }
  }

  /** `deque.append` in place on a deque that respects its `maxlen`. */
  method Append(h: seq<PricePoint>, p: PricePoint) returns (r: seq<PricePoint>)
    requires |h| <= Capacity
    ensures r == AppendBounded(h, p)
  {
    r := h;
    if |r| >= Capacity {
      r := r[1..];
    }
    r := r + [p];
  }

  /** The `popleft` loop of `record_price`. */
  method EvictOlder(h: seq<PricePoint>, cutoff: real) returns (r: seq<PricePoint>)
    ensures r == Evict(h, cutoff)
  {
    r := h;
    ghost var popped := 0;
    while r != [] && r[0].timestamp < cutoff
      invariant popped <= |h| && r == h[popped..]
      invariant popped + Stale(r, cutoff) == Stale(h, cutoff)
      decreases |r|
    {
      r := r[1..];
      popped := popped + 1;
    }
  }

  /** Distance of a point from the target time. */
  function Diff(p: PricePoint, target: real): real {
    Abs(p.timestamp - target)
  }

  /** Index of the point closest to `target`, the scan keeping the earlier
      point on a tie. */
  function ClosestIndex(h: seq<PricePoint>, target: real): (k: nat)
    requires h != []
    ensures k < |h|
  {
    if |h| == 1 then 0
    else
      var k := ClosestIndex(h[..|h| - 1], target);
      if Diff(h[|h| - 1], target) < Diff(h[k], target) then |h| - 1 else k
  }

  /** The scan finds the first point among those nearest to the target. */
  lemma {:induction false} ClosestIndexFirstNearest(h: seq<PricePoint>, target: real)
    requires h != []
    ensures forall j :: 0 <= j < |h| ==> Diff(h[ClosestIndex(h, target)], target) <= Diff(h[j], target)
    ensures forall j :: 0 <= j < ClosestIndex(h, target) ==> Diff(h[j], target) > Diff(h[ClosestIndex(h, target)], target)
  {
    if |h| > 1 {
      var front := h[..|h| - 1];
      ClosestIndexFirstNearest(front, target);
      assert forall j :: 0 <= j < |front| ==> front[j] == h[j];
    }
  }

  /** The price about `age` seconds before `now`: the closest point, if it
      is within 30% of the age. */
  function PriceAtAge(h: seq<PricePoint>, age: real, now: real): (r: Option<real>)
    ensures h == [] ==> r.None?
  {
    if h == [] then None
    else
      var k := ClosestIndex(h, now - age);
      if Diff(h[k], now - age) < age * Tolerance then Some(h[k].price) else None
  }

  /** A price comes back exactly when some point lies within 30% of the age
      of the target time, and it is the price of the first point nearest to
      that time. */
  lemma PriceAtAgeNearest(h: seq<PricePoint>, age: real, now: real)
    ensures PriceAtAge(h, age, now).Some? ==>
              exists k :: 0 <= k < |h| && h[k].price == PriceAtAge(h, age, now).value
                && Diff(h[k], now - age) < age * Tolerance
                && (forall j :: 0 <= j < |h| ==> Diff(h[k], now - age) <= Diff(h[j], now - age))
                && (forall j :: 0 <= j < k ==> Diff(h[j], now - age) > Diff(h[k], now - age))
    ensures PriceAtAge(h, age, now).None? ==>
              forall j :: 0 <= j < |h| ==> Diff(h[j], now - age) >= age * Tolerance
  {
    if h != [] {
      var target := now - age;
      var k := ClosestIndex(h, target);
      ClosestIndexFirstNearest(h, target);
      if Diff(h[k], target) < age * Tolerance {
        assert PriceAtAge(h, age, now) == Some(h[k].price);
        assert forall j :: 0 <= j < |h| ==> Diff(h[k], target) <= Diff(h[j], target);
        assert forall j :: 0 <= j < k ==> Diff(h[j], target) > Diff(h[k], target);
      } else {
        assert PriceAtAge(h, age, now) == None;
      }
    }
  }

  /** Percentage change from a reference price; 0 when the reference is
      missing or not positive. */
  function Change(current: real, reference: Option<real>): (c: real)
    ensures reference.None? || reference.value <= 0.0 ==> c == 0.0
    ensures reference.Some? && reference.value > 0.0 ==>
              (c > 0.0 <==> current > reference.value) && (c < 0.0 <==> current < reference.value)
  {
    if reference.Some? && reference.value > 0.0
    then (current - reference.value) / reference.value * 100.0
    else 0.0
  }

  /** 0.6 of the 1-minute change plus 0.4 of the 5-minute change. */
  function Weighted(change1m: real, change5m: real): real {
    change1m * 0.6 + change5m * 0.4
  }

  lemma ProductSign(a: real, b: real)
    ensures a * b > 0.0 <==> (a > 0.0 && b > 0.0) || (a < 0.0 && b < 0.0)
    ensures a * b < 0.0 <==> (a > 0.0 && b < 0.0) || (a < 0.0 && b > 0.0)
  {
    if a > 0.0 && b < 0.0 { assert a * b < 0.0 * b; }
    if a < 0.0 && b > 0.0 { assert a * b < 0.0 * b; }
  }

  /** Strength before rounding: twice the weighted change, capped at 10,
      raised by 30% (still capped) when both changes point the same way and
      cut by 30% when they disagree. */
  function RawStrength(change1m: real, change5m: real): (s: real)
    ensures 0.0 <= s <= 10.0
    ensures (change1m == 0.0 || change5m == 0.0) ==>
              s == Min(10.0, Abs(Weighted(change1m, change5m)) * 2.0)
    ensures (change1m > 0.0 && change5m > 0.0) || (change1m < 0.0 && change5m < 0.0) ==>
              s >= Min(10.0, Abs(Weighted(change1m, change5m)) * 2.0)
    ensures (change1m > 0.0 && change5m < 0.0) || (change1m < 0.0 && change5m > 0.0) ==>
              s <= Min(10.0, Abs(Weighted(change1m, change5m)) * 2.0)
  {
    ProductSign(change1m, change5m);
    var base := Min(10.0, Abs(Weighted(change1m, change5m)) * 2.0);
    if change1m * change5m > 0.0 then Min(10.0, base * 1.3)
    else if change1m * change5m < 0.0 then base * 0.7
    else base
  }

  /** Trend and strength: bullish exactly above a weighted change of 0.5,
      bearish exactly below -0.5, strength rounded to one decimal. */
  function CalculateTrend(change1m: real, change5m: real): (r: (Trend, real))
    ensures r.0 == Bullish <==> Weighted(change1m, change5m) > 0.5
    ensures r.0 == Bearish <==> Weighted(change1m, change5m) < -0.5
    ensures 0.0 <= r.1 <= 10.0
  {
    var w := Weighted(change1m, change5m);
    var trend := if w > 0.5 then Bullish else if w < -0.5 then Bearish else Neutral;
    var s := RawStrength(change1m, change5m);
    RoundWithin(s, 10, 0, 10);
    (trend, RoundHalfEven(s, 10))
  }

  /** The analysis `analyze_momentum` builds from the history `h` (which
      already holds the current price). */
  function Analysis(h: seq<PricePoint>, symbol: string, currentPrice: real, now: real): (m: MomentumData)
    ensures m.symbol == symbol && m.currentPrice == currentPrice && m.lastUpdated == now
    ensures m.price1m == PriceAtAge(h, 60.0, now) && m.price5m == PriceAtAge(h, 300.0, now)
    ensures 0.0 <= m.strength <= 10.0
  {
    var p1 := PriceAtAge(h, 60.0, now);
    var p5 := PriceAtAge(h, 300.0, now);
    var c1 := Change(currentPrice, p1);
    var c5 := Change(currentPrice, p5);
    var t := CalculateTrend(c1, c5);
    MomentumData(symbol, currentPrice, p1, p5, c1, c5, t.0, t.1, now)
  }

  /** A price of 100 five minutes ago and of 110 now: no point lies within
      18 s of one minute ago, so the 1-minute change is 0; the 5-minute change
      is 10%, the weighted change 4, and the trend bullish with strength 8.0. */
  lemma AnalysisExample(symbol: string, now: real)
    ensures Analysis([PricePoint(100.0, now - 300.0), PricePoint(110.0, now)], symbol, 110.0, now)
            == MomentumData(symbol, 110.0, None, Some(100.0), 0.0, 10.0, Bullish, 8.0, now)
  {
    var h := [PricePoint(100.0, now - 300.0), PricePoint(110.0, now)];
    assert ClosestIndex(h, now - 60.0) == 1 by {
      assert ClosestIndex(h[..1], now - 60.0) == 0;
    }
    assert ClosestIndex(h, now - 300.0) == 0 by {
      assert ClosestIndex(h[..1], now - 300.0) == 0;
    }
    assert PriceAtAge(h, 60.0, now) == None;
    assert PriceAtAge(h, 300.0, now) == Some(100.0);
    assert Change(110.0, Some(100.0)) == 10.0;
    assert RawStrength(0.0, 10.0) == 8.0;
    assert NearestEven(8.0 * 10 as real) == 80;
    assert RoundHalfEven(8.0, 10) == 8.0;
  }

  /** The trend works against the direction of the signal. */
  predicate Opposes(direction: string, trend: Trend) {
    (direction == "LONG" && trend == Bearish) || (direction == "SHORT" && trend == Bullish)
  }

  /** The trend goes the way of the signal. */
  predicate Aligned(direction: string, trend: Trend) {
    (direction == "LONG" && trend == Bullish) || (direction == "SHORT" && trend == Bearish)
  }

  /** Why a direction is confirmed or vetoed. */
  datatype Reason = NoData | Contradicts | Confirms | NeutralOrWeak

  datatype Verdict = Verdict(pass: bool, reason: Reason)

  class MomentumTracker {
    var priceHistory: map<string, seq<PricePoint>>
    const maxHistory: real
    var momentumCache: map<string, MomentumData>

    /** Deques never outgrow their `maxlen`; cached analyses are filed under
        their own symbol and have a 0-10 strength. */
    ghost predicate Valid()
      reads this
    {
      && (forall s :: s in priceHistory ==> |priceHistory[s]| <= Capacity)
      && (forall s :: s in momentumCache ==>
            momentumCache[s].symbol == s && 0.0 <= momentumCache[s].strength <= 10.0)
    }

    /** The window defaults to `DefaultMaxHistorySec`. */
    constructor (maxHistorySec: int)
      ensures Valid()
      ensures priceHistory == map[] && momentumCache == map[] && maxHistory == maxHistorySec as real
    {
      priceHistory := map[];
      maxHistory := maxHistorySec as real;
      momentumCache := map[];
    }

    function HistoryOf(symbol: string): seq<PricePoint>
      reads this
    {
      if symbol in priceHistory then priceHistory[symbol] else []
    }

    method RecordPrice(symbol: string, price: real, now: real)
      requires Valid()
      modifies this
      ensures Valid()
      ensures priceHistory == old(priceHistory)[symbol :=
                Retained(old(HistoryOf(symbol)), PricePoint(price, now), now - maxHistory)]
      ensures momentumCache == old(momentumCache)
    {
      var h := if symbol in priceHistory then priceHistory[symbol] else [];
      assert h == HistoryOf(symbol);
      h := Append(h, PricePoint(price, now));
      h := EvictOlder(h, now - maxHistory);
      assert h == Retained(old(HistoryOf(symbol)), PricePoint(price, now), now - maxHistory);
      priceHistory := priceHistory[symbol := h];
    }

    /** The scan for the point closest to `now - ageSeconds`. */
    method GetPriceAtAge(symbol: string, ageSeconds: real, now: real) returns (r: Option<real>)
      ensures r == PriceAtAge(HistoryOf(symbol), ageSeconds, now)
    {
      if symbol !in priceHistory || priceHistory[symbol] == [] {
        return None;
      }
      var history := priceHistory[symbol];
      var target := now - ageSeconds;
      var closest: Option<PricePoint> := None;
      var closestDiff: Option<real> := None;  // None is +infinity
      for i := 0 to |history|
        invariant i == 0 ==> closest.None? && closestDiff.None?
        invariant i > 0 ==>
          && closest == Some(history[ClosestIndex(history[..i], target)])
          && closestDiff == Some(Diff(history[ClosestIndex(history[..i], target)], target))
      {
        var diff := Abs(history[i].timestamp - target);
        assert history[..i + 1][..i] == history[..i];
        if closestDiff.None? || diff < closestDiff.value {
          closestDiff := Some(diff);
          closest := Some(history[i]);
        }
      }
      assert history[..|history|] == history;
      if closest.Some? && closestDiff.value < ageSeconds * Tolerance {
        return Some(closest.value.price);
      }
      return None;
    }

    /** Records the current price, reads the 1- and 5-minute prices, derives
        the changes and the trend, and caches the result. */
    method AnalyzeMomentum(symbol: string, currentPrice: real, now: real) returns (m: MomentumData)
      requires Valid()
      modifies this
      ensures Valid()
      ensures priceHistory == old(priceHistory)[symbol :=
                Retained(old(HistoryOf(symbol)), PricePoint(currentPrice, now), now - maxHistory)]
      ensures m == Analysis(priceHistory[symbol], symbol, currentPrice, now)
      ensures momentumCache == old(momentumCache)[symbol := m]
      ensures GetCachedMomentum(symbol) == Some(m)
    {
      RecordPrice(symbol, currentPrice, now);
      assert HistoryOf(symbol) == priceHistory[symbol];
      var price1m := GetPriceAtAge(symbol, 60.0, now);
      var price5m := GetPriceAtAge(symbol, 300.0, now);
      var change1m := Change(currentPrice, price1m);
      var change5m := Change(currentPrice, price5m);
      var t := CalculateTrend(change1m, change5m);
      m := MomentumData(symbol, currentPrice, price1m, price5m, change1m, change5m, t.0, t.1, now);
      assert m == Analysis(priceHistory[symbol], symbol, currentPrice, now);
      momentumCache := momentumCache[symbol := m];
    }

    function GetCachedMomentum(symbol: string): (r: Option<MomentumData>)
      reads this
      ensures r.Some? <==> symbol in momentumCache
      ensures r.Some? ==> r.value == momentumCache[symbol]
    {
      if symbol in momentumCache then Some(momentumCache[symbol]) else None
    }

    /** Vetoes a signal only when a cached trend opposes it with at least
        `minStrength`. */
    function ConfirmsDirection(symbol: string, direction: string, minStrength: real): (v: Verdict)
      reads this
      ensures symbol !in momentumCache ==> v == Verdict(true, NoData)
      ensures !v.pass <==>
                symbol in momentumCache
                && Opposes(direction, momentumCache[symbol].trend)
                && momentumCache[symbol].strength >= minStrength
      ensures v.reason == Confirms <==>
                symbol in momentumCache
                && Aligned(direction, momentumCache[symbol].trend)
                && momentumCache[symbol].strength >= minStrength
    {
      if symbol !in momentumCache then Verdict(true, NoData)
      else
        var m := momentumCache[symbol];
        if direction == "LONG" && m.trend == Bearish && m.strength >= minStrength then
          Verdict(false, Contradicts)
        else if direction == "LONG" && m.trend == Bullish && m.strength >= minStrength then
          Verdict(true, Confirms)
        else if direction == "SHORT" && m.trend == Bullish && m.strength >= minStrength then
          Verdict(false, Contradicts)
        else if direction == "SHORT" && m.trend == Bearish && m.strength >= minStrength then
          Verdict(true, Confirms)
        else Verdict(true, NeutralOrWeak)
    }

    /** A multiplier in [0.5, 1.5]: up by 5% per strength point when the
        trend is aligned, down by as much when it is opposite. */
    function MomentumBonus(symbol: string, direction: string): (b: real)
      reads this
      requires Valid()
      ensures symbol !in momentumCache ==> b == 1.0
      ensures (symbol in momentumCache && !Aligned(direction, momentumCache[symbol].trend)
              && !Opposes(direction, momentumCache[symbol].trend)) ==> b == 1.0
      ensures symbol in momentumCache && Aligned(direction, momentumCache[symbol].trend) ==> b >= 1.0
      ensures symbol in momentumCache && Opposes(direction, momentumCache[symbol].trend) ==> b <= 1.0
      ensures 0.5 <= b <= 1.5
    {
      if symbol !in momentumCache then 1.0
      else
        var m := momentumCache[symbol];
        var aligned := (direction == "LONG" && m.trend == Bullish) || (direction == "SHORT" && m.trend == Bearish);
        var opposite := (direction == "LONG" && m.trend == Bearish) || (direction == "SHORT" && m.trend == Bullish);
        if aligned then 1.0 + m.strength * 0.05
        else if opposite then 1.0 - m.strength * 0.05
        else 1.0
    }

    /** What the bonus gives a long signal it takes from a short one. */
    lemma BonusSymmetric(symbol: string)
      requires Valid()
      ensures MomentumBonus(symbol, "LONG") + MomentumBonus(symbol, "SHORT") == 2.0
    {
    }
  }
}
