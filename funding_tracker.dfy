/** Funding-rate tracker: a symbol-keyed cache of perpetual-futures funding
    records filled from the exchange's funding-rate endpoints, and the two
    formulas that turn a cached rate into a position's expected funding cost
    and into a profit adjustment. The HTTP responses are parameters. */
module Funding {
  import opened Common

  /** A cached entry is served without a new request for 300 seconds. */
  const CacheTtl: real := 300.0
  /** Funding settles every 8 hours. */
  const PeriodHours: real := 8.0
  /** Expected funding events during an average hold. */
  const AvgFundingEvents: real := 0.3
  /** Default holding time, in hours, of `calculate_funding_cost`. */
  const DefaultHoldHours: real := 4.0
  /** The suffix of the exchange's contract names. */
  const Quote: string := "_USDT"

  datatype FundingInfo = FundingInfo(
    symbol: string,
    fundingRate: real,
    nextFundingTime: int,
    predictedRate: real,
    lastUpdated: real)

  /** `d.get(key, default)`: a missing field reads as the default. */
  function ValueOr<T>(o: Option<T>, default: T): T {
    if o.Some? then o.value else default
  }

  /** The rate fields of one contract in a response; a missing field is None. */
  datatype RateFields = RateFields(
    fundingRate: Option<real>,
    nextSettleTime: Option<int>,
    expectedFundingRate: Option<real>)

  /** The outcome of the single-symbol request: anything but a 200 response
      with `success` set and a non-empty `data` object (an HTTP error, an
      exception, an unsuccessful or empty payload) is `Failed`. */
  datatype Response = Failed | Succeeded(data: RateFields)

  /** One element of the bulk response's `data` list; a missing `symbol`
      reads as the empty string. */
  datatype Item = Item(symbol: string, fields: RateFields)

  function InfoOf(symbol: string, f: RateFields, now: real): (info: FundingInfo)
    ensures info.symbol == symbol && info.lastUpdated == now
    ensures info.fundingRate == ValueOr(f.fundingRate, 0.0)
    ensures info.predictedRate == ValueOr(f.expectedFundingRate, 0.0)
  {
    FundingInfo(symbol, ValueOr(f.fundingRate, 0.0), ValueOr(f.nextSettleTime, 0),
                ValueOr(f.expectedFundingRate, 0.0), now)
  }

  /** A cached entry is fresh while strictly less than 300 s old. */
  predicate Fresh(info: FundingInfo, now: real) {
    now - info.lastUpdated < CacheTtl
  }

  /** The base symbol of a contract name ending in "_USDT"; None for any
      other name. */
  function StripQuote(contract: string): (r: Option<string>)
    ensures r.Some? <==> |contract| >= |Quote| && contract[|contract| - |Quote|..] == Quote
    ensures r.Some? ==> r.value + Quote == contract
  {
    if |contract| >= |Quote| && contract[|contract| - |Quote|..] == Quote
    then
      assert contract[..|contract| - |Quote|] + Quote == contract;
      Some(contract[..|contract| - |Quote|])
    else None
  }

  /** Stripping undoes appending the suffix: the bulk path files "BTC_USDT"
      under exactly the key "BTC" that the single-symbol path asks for. */
  lemma StripQuoteRoundTrip(base: string)
    ensures StripQuote(base + Quote) == Some(base)
  {
    assert (base + Quote)[..|base|] == base;
    assert (base + Quote)[|base|..] == Quote;
  }

  /** The cache after the bulk loop over `items`, in order. */
  function Bulk(cache: map<string, FundingInfo>, items: seq<Item>, now: real): map<string, FundingInfo> {
    if items == [] then cache
    else
      var prior := Bulk(cache, items[..|items| - 1], now);
      var item := items[|items| - 1];
      var key := StripQuote(item.symbol);
      if key.Some? then prior[key.value := InfoOf(key.value, item.fields, now)] else prior
  }

  /** The last element of `items` whose contract name strips to `symbol`. */
  function LastItemFor(items: seq<Item>, symbol: string): (r: Option<Item>)
    ensures r.Some? ==> r.value in items && StripQuote(r.value.symbol) == Some(symbol)
    ensures r.None? ==> forall i :: 0 <= i < |items| ==> StripQuote(items[i].symbol) != Some(symbol)
  {
    if items == [] then None
    else if StripQuote(items[|items| - 1].symbol) == Some(symbol) then Some(items[|items| - 1])
    else LastItemFor(items[..|items| - 1], symbol)
  }

  /** A contract for `symbol` that no later contract for it follows is the
      one found. */
  lemma {:induction false} LastItemForLatest(items: seq<Item>, symbol: string, i: nat)
    requires i < |items| && StripQuote(items[i].symbol) == Some(symbol)
    requires forall j :: i < j < |items| ==> StripQuote(items[j].symbol) != Some(symbol)
    ensures LastItemFor(items, symbol) == Some(items[i])
  {
    if i < |items| - 1 {
      LastItemForLatest(items[..|items| - 1], symbol, i);
    }
  }

  /** After the bulk loop a key holds the record of the last contract that
      strips to it; keys no contract strips to keep their old record, and
      nothing else is added. */
  lemma {:induction false} BulkLookup(cache: map<string, FundingInfo>, items: seq<Item>, now: real, symbol: string)
    ensures symbol in Bulk(cache, items, now) <==> symbol in cache || LastItemFor(items, symbol).Some?
    ensures LastItemFor(items, symbol).Some? ==>
              Bulk(cache, items, now)[symbol] == InfoOf(symbol, LastItemFor(items, symbol).value.fields, now)
    ensures LastItemFor(items, symbol).None? && symbol in cache ==>
              Bulk(cache, items, now)[symbol] == cache[symbol]
  {
    if items != [] {
      BulkLookup(cache, items[..|items| - 1], now, symbol);
    }
  }

  /** Every record the bulk loop writes is filed under its own symbol. */
  lemma {:induction false} BulkFiled(cache: map<string, FundingInfo>, items: seq<Item>, now: real)
    requires forall s :: s in cache ==> cache[s].symbol == s
    ensures forall s :: s in Bulk(cache, items, now) ==> Bulk(cache, items, now)[s].symbol == s
  {
    if items != [] {
      BulkFiled(cache, items[..|items| - 1], now);
    }
  }

  /** Expected funding cost in percent over `holdHours`: a long position pays
      a positive rate, any other direction receives it. */
  function Cost(rate: real, direction: string, holdHours: real): real {
    var periods := holdHours / PeriodHours;
    var pct := rate * 100.0;
    if direction == "LONG" then -pct * periods else pct * periods
  }

  /** Adjustment in percent to subtract from gross profit: positive when a
      long position pays. */
  function Adjustment(info: FundingInfo, direction: string): real {
    var rate := if info.predictedRate != 0.0 then info.predictedRate else info.fundingRate;
    var pct := rate * 100.0;
    if direction == "LONG" then pct * AvgFundingEvents else -pct * AvgFundingEvents
  }

  class FundingTracker {
    var cache: map<string, FundingInfo>

    /** Every record is filed under its own symbol. */
    ghost predicate Valid()
      reads this
    {
      forall s :: s in cache ==> cache[s].symbol == s
    }

    constructor ()
      ensures Valid() && cache == map[]
    {
      cache := map[];
    }

    /** A fresh cached record is returned as it is and `response` is not
        consulted; otherwise a successful response is cached and returned, and
        a failed one leaves the cache alone and yields None. */
    method FetchFundingRate(symbol: string, response: Response, now: real) returns (r: Option<FundingInfo>)
      requires Valid()
      modifies this
      ensures Valid()
      ensures symbol in old(cache) && Fresh(old(cache)[symbol], now) ==>
                r == Some(old(cache)[symbol]) && cache == old(cache)
      ensures !(symbol in old(cache) && Fresh(old(cache)[symbol], now)) && response.Succeeded? ==>
                r == Some(InfoOf(symbol, response.data, now))
                && cache == old(cache)[symbol := InfoOf(symbol, response.data, now)]
      ensures !(symbol in old(cache) && Fresh(old(cache)[symbol], now)) && response.Failed? ==>
                r == None && cache == old(cache)
      ensures r.Some? ==> symbol in cache && cache[symbol] == r.value && Fresh(r.value, now)
    {
      if symbol in cache && now - cache[symbol].lastUpdated < CacheTtl {
        return Some(cache[symbol]);
      }
      if response.Succeeded? {
        var info := InfoOf(symbol, response.data, now);
        cache := cache[symbol := info];
        return Some(info);
      }
      return None;
    }

    /** The bulk request: on success (`items` present and non-empty) every
        "_USDT" contract is cached under its base symbol, all with the same
        timestamp, and the whole cache is returned; on failure nothing is
        cached and the result is empty. */
    method FetchAllFundingRates(items: Option<seq<Item>>, now: real) returns (r: map<string, FundingInfo>)
      requires Valid()
      modifies this
      ensures Valid()
      ensures items.Some? && items.value != [] ==> cache == Bulk(old(cache), items.value, now) && r == cache
      ensures items.None? || items.value == [] ==> cache == old(cache) && r == map[]
    {
      if items.None? || items.value == [] {
        return map[];
      }
      var data := items.value;
      for i := 0 to |data|
        invariant cache == Bulk(old(cache), data[..i], now)
      {
        assert data[..i + 1][..i] == data[..i];
        var key := StripQuote(data[i].symbol);
        if key.Some? {
          cache := cache[key.value := InfoOf(key.value, data[i].fields, now)];
        }
      }
      assert data[..|data|] == data;
      BulkFiled(old(cache), data, now);
      return cache;
    }

    function GetCachedRate(symbol: string): (rate: real)
      reads this
      ensures symbol !in cache ==> rate == 0.0
      ensures symbol in cache ==> rate == cache[symbol].fundingRate
    {
      if symbol in cache then cache[symbol].fundingRate else 0.0
    }

    /** Expected funding cost of a position in percent, negative for a cost
        and 0 for an uncached symbol. */
    function CalculateFundingCost(symbol: string, direction: string, holdHours: real): (c: real)
      reads this
      ensures symbol !in cache ==> c == 0.0
      ensures symbol in cache ==> c == Cost(cache[symbol].fundingRate, direction, holdHours)
    {
      if symbol !in cache then 0.0
      else Cost(cache[symbol].fundingRate, direction, holdHours)
    }

    /** Funding adjustment in percent to subtract from gross profit, from the
        predicted rate when it is nonzero; 0 for an uncached symbol. */
    function GetFundingAdjustment(symbol: string, direction: string): (a: real)
      reads this
      ensures symbol !in cache ==> a == 0.0
      ensures symbol in cache ==> a == Adjustment(cache[symbol], direction)
    {
      if symbol !in cache then 0.0 else Adjustment(cache[symbol], direction)
    }
  }

  /** What a long position pays, a short one receives. */
  lemma CostSymmetric(rate: real, holdHours: real)
    ensures Cost(rate, "LONG", holdHours) == -Cost(rate, "SHORT", holdHours)
  {
  }

  /** With a positive rate and a positive hold a long position pays and a
      short one gains; a zero rate costs nothing. */
  lemma CostSign(rate: real, holdHours: real)
    ensures rate > 0.0 && holdHours > 0.0 ==> Cost(rate, "LONG", holdHours) < 0.0 && Cost(rate, "SHORT", holdHours) > 0.0
    ensures rate < 0.0 && holdHours > 0.0 ==> Cost(rate, "LONG", holdHours) > 0.0 && Cost(rate, "SHORT", holdHours) < 0.0
    ensures rate == 0.0 ==> Cost(rate, "LONG", holdHours) == 0.0 && Cost(rate, "SHORT", holdHours) == 0.0
  {
    var periods := holdHours / PeriodHours;
    if holdHours > 0.0 {
      assert periods > 0.0;
      if rate > 0.0 {
        assert rate * 100.0 * periods > 0.0;
      } else if rate < 0.0 {
        assert -rate * 100.0 * periods > 0.0;
      }
    }
  }

  /** The cost grows linearly with the holding time. */
  lemma CostAdditive(rate: real, direction: string, h1: real, h2: real)
    ensures Cost(rate, direction, h1 + h2) == Cost(rate, direction, h1) + Cost(rate, direction, h2)
  {
    var pct := rate * 100.0;
    assert (h1 + h2) / PeriodHours == h1 / PeriodHours + h2 / PeriodHours;
    assert pct * ((h1 + h2) / PeriodHours) == pct * (h1 / PeriodHours) + pct * (h2 / PeriodHours);
  }

  /** A rate of 0.01% held for one 8-hour period costs a long position 0.01%. */
  lemma CostExample()
    ensures Cost(0.0001, "LONG", 8.0) == -0.01
  {
  }

  /** The adjustment follows the opposite sign convention to the cost: it is
      exactly the negated cost over 0.3 of a funding period (2.4 hours) when
      no predicted rate is set. */
  lemma AdjustmentIsNegatedCost(info: FundingInfo, direction: string)
    requires info.predictedRate == 0.0
    ensures Adjustment(info, direction) == -Cost(info.fundingRate, direction, AvgFundingEvents * PeriodHours)
  {
  }

  /** What the adjustment charges a long position it credits a short one. */
  lemma AdjustmentSymmetric(info: FundingInfo)
    ensures Adjustment(info, "LONG") == -Adjustment(info, "SHORT")
  {
  }
}
