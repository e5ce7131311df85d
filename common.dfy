/** Numeric building blocks shared by the four per-symbol scoring engines:
    an optional value (standing in for Python's `None` and for the
    `float('inf')` seeds), the exponential moving average with smoothing
    factor 0.3, the 0-10 speed score and `round(x, n)` on exact reals. */
module Common {

  datatype Option<+T> = None | Some(value: T)

  function Min(a: real, b: real): real { if a <= b then a else b }

  function Max(a: real, b: real): real { if a >= b then a else b }

  function Abs(x: real): real { if x < 0.0 then -x else x }

  /** The smaller of a running minimum and `t`, where None is the initial
      `float('inf')`. */
  function FasterOf(fastest: Option<real>, t: real): (r: real)
    ensures r <= t
    ensures fastest.Some? ==> r <= fastest.value && (r == t || r == fastest.value)
  {
    if fastest.None? || t < fastest.value then t else fastest.value
  }

  /** Python's `max(0, min(10, x))` (token_intelligence.py:177), which is the
      same clamp as `min(10, max(0, x))` (convergence_analyzer.py:220). */
  function Clamp10(x: real): (r: real)
    ensures 0.0 <= r <= 10.0
    ensures 0.0 <= x <= 10.0 ==> r == x
    ensures r == Min(10.0, Max(0.0, x))
  {
    Max(0.0, Min(10.0, x))
  }

  /** Python's `value or default` on an optional number: a missing value
      and a zero are both falsy, so both give the default. */
  function OrDefault(o: Option<real>, default: real): real {
    if o.Some? && o.value != 0.0 then o.value else default
  }

  /** The smoothing factor of every moving average in the engines. */
  const Alpha: real := 0.3

  /** One step of an exponential moving average in which a stored zero means
      "no value yet": the first value seeds the average. */
  function Ema(previous: real, x: real): (r: real)
    ensures previous == 0.0 ==> r == x
    ensures Min(previous, x) <= r <= Max(previous, x)
  {
    if previous == 0.0 then x else Alpha * x + (1.0 - Alpha) * previous
  }

  /** Speed on a 0-10 scale: 10 for an average at or under five minutes,
      0 at or over an hour, linear in between. */
  function SpeedScore(avgSeconds: real): (r: real)
    ensures 0.0 <= r <= 10.0
    ensures avgSeconds <= 300.0 ==> r == 10.0
    ensures avgSeconds >= 3600.0 ==> r == 0.0
  {
    if avgSeconds <= 300.0 then 10.0
    else if avgSeconds >= 3600.0 then 0.0
    else 10.0 * (1.0 - (avgSeconds - 300.0) / 3300.0)
  }

  /** Faster is never worse: the speed score does not increase with the average time. */
  lemma SpeedScoreNonIncreasing(a: real, b: real)
    requires a <= b
    ensures SpeedScore(a) >= SpeedScore(b)
  {
    if 300.0 < a && b < 3600.0 {
      assert (a - 300.0) / 3300.0 <= (b - 300.0) / 3300.0;
    }
  }

  /** The rounding step of `round(x, n)`: the integer nearest to `y`, ties to even. */
  function NearestEven(y: real): (n: int)
    ensures y - 0.5 <= n as real <= y + 0.5
    ensures n == y.Floor || (n == y.Floor + 1 && y > y.Floor as real)
  {
    var f := y.Floor;
    var frac := y - f as real;
    if frac > 0.5 then f + 1
    else if frac < 0.5 then f
    else if f % 2 == 0 then f
    else f + 1
  }

  /** Python's `round(x, n)` taken on exact reals, with `scale` = 10^n: the
      nearest multiple of 1/scale, ties going to the even multiple. */
  function RoundHalfEven(x: real, scale: nat): (r: real)
    requires scale > 0
  {
    NearestEven(x * scale as real) as real / scale as real
  }

  /** Rounding never leaves an interval with integer ends, so the 0-10 scores
      keep their bounds after `round`. */
  lemma RoundWithin(x: real, scale: nat, lo: int, hi: int)
    requires scale > 0
    requires lo as real <= x <= hi as real
    ensures lo as real <= RoundHalfEven(x, scale) <= hi as real
  {
    ScaledWithin(x, scale, lo, hi);
    UnscaleWithin(NearestEven(x * scale as real), scale, lo, hi);
  }

  /** Scaling and rounding keeps the scaled integer ends. */
  lemma ScaledWithin(x: real, scale: nat, lo: int, hi: int)
    requires scale > 0
    requires lo as real <= x <= hi as real
    ensures lo * scale <= NearestEven(x * scale as real) <= hi * scale
  {
    ScaleMonotone(lo as real, x, scale as real);
    ScaleMonotone(x, hi as real, scale as real);
    IntScale(lo, scale);
    IntScale(hi, scale);
    NearestWithin(x * scale as real, lo * scale, hi * scale);
  }

  /** Dividing back by the scale keeps the unscaled ends. */
  lemma UnscaleWithin(n: int, scale: nat, lo: int, hi: int)
    requires scale > 0
    requires lo * scale <= n <= hi * scale
    ensures lo as real <= n as real / scale as real <= hi as real
  {
    IntScale(lo, scale);
    IntScale(hi, scale);
    DivMul(n as real, scale as real);
    UnscaleMonotone(lo as real, n as real / scale as real, scale as real);
    UnscaleMonotone(n as real / scale as real, hi as real, scale as real);
  }

  lemma NearestWithin(y: real, lo: int, hi: int)
    requires lo as real <= y <= hi as real
    ensures lo <= NearestEven(y) <= hi
  {
  }

  lemma DivMul(m: real, s: real)
    requires s != 0.0
    ensures (m / s) * s == m
  {
  }

  lemma ScaleMonotone(a: real, b: real, s: real)
    requires a <= b && s > 0.0
    ensures a * s <= b * s
  {
  }

  lemma UnscaleMonotone(a: real, b: real, s: real)
    requires a * s <= b * s && s > 0.0
    ensures a <= b
  {
  }

  lemma IntScale(k: int, scale: nat)
    ensures (k * scale) as real == k as real * scale as real
  {
  }

  /** A map together with the order in which its keys were first inserted
      (the iteration order of a Python dict): every key listed exactly once. */
  ghost predicate KeyOrder<V>(m: map<string, V>, order: seq<string>) {
    && (forall k :: k in m <==> k in order)
    && (forall i, j :: 0 <= i < j < |order| ==> order[i] != order[j])
  }

  /** Storing under a key keeps the order: a new key goes to the end, an
      existing key keeps its place. */
  lemma KeyOrderStore<V>(m: map<string, V>, order: seq<string>, k: string, v: V)
    requires KeyOrder(m, order)
    ensures KeyOrder(m[k := v], if k in m then order else order + [k])
  {
  }

  /** The key order after storing under `tokens` one after the other: each
      token not listed yet is appended, in the order it first occurs. */
  function KeysAfter(order: seq<string>, tokens: seq<string>): seq<string> {
    if tokens == [] then order
    else
      var before := KeysAfter(order, tokens[..|tokens| - 1]);
      var t := tokens[|tokens| - 1];
      if t in before then before else before + [t]
  }

  /** Storing never reorders: the old keys stay in front, and the keys
      listed afterwards are exactly the old keys and the stored tokens. */
  lemma {:induction false} KeysAfterGrows(order: seq<string>, tokens: seq<string>)
    ensures order <= KeysAfter(order, tokens)
    ensures forall k :: k in KeysAfter(order, tokens) <==> k in order || k in tokens
  {
    if tokens != [] {
      var init := tokens[..|tokens| - 1];
      KeysAfterGrows(order, init);
      assert tokens == init + [tokens[|tokens| - 1]];
    }
  }

  /** Every key is listed once, however often it is stored. */
  lemma {:induction false} KeysAfterDistinct(order: seq<string>, tokens: seq<string>)
    requires forall i, j :: 0 <= i < j < |order| ==> order[i] != order[j]
    ensures forall i, j :: 0 <= i < j < |KeysAfter(order, tokens)| ==>
              KeysAfter(order, tokens)[i] != KeysAfter(order, tokens)[j]
  {
    if tokens != [] {
      KeysAfterDistinct(order, tokens[..|tokens| - 1]);
    }
  }

  /** One more store extends the order as a single store does. */
  lemma KeysAfterStep(order: seq<string>, tokens: seq<string>, i: nat,
                      before: seq<string>, after: seq<string>)
    requires i < |tokens| && before == KeysAfter(order, tokens[..i])
    requires after == if tokens[i] in before then before else before + [tokens[i]]
    ensures after == KeysAfter(order, tokens[..i + 1])
  {
    assert tokens[..i + 1][..i] == tokens[..i];
  }

  /** Storing "A", "B", "A" into an empty dict lists "A" then "B". */
  lemma KeysAfterExample()
    ensures KeysAfter([], ["A", "B", "A"]) == ["A", "B"]
  {
    assert ["A", "B", "A"][..2] == ["A", "B"];
    assert ["A", "B"][..1] == ["A"];
    assert ["A"][..0] == [];
  }
}
