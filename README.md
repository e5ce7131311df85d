# Per-symbol scoring engines of a lead-lag signal service

This project models the four per-token scoring engines of a CEX/DEX
lead-lag signal service in Dafny and proves properties about them:

- **Token intelligence** (`token_intelligence.dfy`, module `Intelligence`).
  Each closed trade of a token is folded into the token's record:
  - outcome and direction counters;
  - profit sum and extremes;
  - a moving average of convergence time and the fastest time;
  - a window of the last ten outcomes.

  The record's 0-10 quality score is then recomputed. Gate queries read
  the records: `should_signal`, the signal modifier, the recommended and
  avoid lists.
- **Convergence analyzer** (`convergence_analyzer.dfy`, module
  `Convergence`). Each convergence event updates counters, timing extremes,
  two moving averages and the convergence rate. The rate moves a token onto
  a whitelist or a blacklist. A 0-10 priority score, a blacklist-first gate
  and a top-N board read the records.
- **Momentum tracker** (`momentum_tracker.dfy`, module `Momentum`).
  - Each token has a price history: a deque of at most 1000 points, with
    points older than the window evicted.
  - A lookup returns the price nearest to a given age.
  - A trend/strength classifier runs over the 1- and 5-minute changes.
  - Two gates read the cached analysis.
- **Funding tracker** (`funding_tracker.dfy`, module `Funding`).
  - A symbol-keyed cache of funding records with a 300-second freshness
    window, filled from a single-symbol response or from a bulk response
    whose "_USDT" contract names are stripped to base symbols.
  - Two formulas: the expected funding cost and the profit adjustment.

Two shared modules support them:

- `common.dfy` (module `Common`) holds the moving average, the speed
  score, Python's `round(x, n)` and a map-with-insertion-order invariant.
- `ranking.dfy` (module `Ranking`) holds Python's stable descending sort
  followed by the `[:n]` slice, used by both leader boards.

Modelling conventions:

- **Engines are classes.** Each engine is a class whose fields are the
  Python object's fields. A Python dict becomes a `map` plus a `seq` of
  its keys in insertion order (the dict's iteration order), a set becomes
  a `set`, and a deque becomes a `seq`. Every state-changing method is
  proved equal to a declarative function: `Recorded`, `Observed`,
  `Retained`, `Loaded`, `LoadedStats`, `Bulk`. The cumulative properties
  are lemmas about those functions, by induction over the sequence of
  updates.
- **Clock and network as parameters.** The clock is a `now` parameter;
  within one call every `time.time()` reads the same `now`. HTTP responses
  are parameters of the fetch methods.
- **Numbers.** Python floats are exact reals. `round(x, n)` is
  round-half-even on the exact value (`Common.RoundHalfEven`). The
  `float('inf')` seed of a running minimum is `None`. Python's `x or d` on
  a number is `Common.OrDefault`, under which zero is falsy.
- **Reasons.** The reason strings returned by the gates are enumerations;
  the numbers formatted into them are left out.
- **Where the code and the prose differ, the code is followed.** For
  example:
  - the convergence speed term is 5 for an average at or below zero;
  - the bulk load whitelists without a sample minimum;
  - the funding adjustment has the opposite sign convention to the
    funding cost (proved as `Funding.AdjustmentIsNegatedCost`);
  - an outcome other than "win" or "lose" counts as a draw;
  - a direction other than "LONG" counts as short;
  - the bulk convergence load only ever adds to the lists, so loading a
    blacklisted token with a rate of 0.6 or more leaves it on both lists
    (`Convergence.LoadRowCanBreakAgreement`), while single events keep
    the lists in agreement with the records (`Convergence.ListsAgree`).
- **Default arguments** are named constants:
  - `Intelligence.DefaultMinScore` (4.0) and `Intelligence.DefaultMinWinRate`
    (0.35) for `should_signal`;
  - `Intelligence.DefaultRecommendMinScore` (6.0) and
    `Intelligence.DefaultRecommendLimit` (20) for the recommended list;
  - `Convergence.DefaultMinScore` (4.0) and `Convergence.DefaultTopN` (20);
  - `Momentum.DefaultMaxHistorySec` (600) and `Momentum.DefaultMinStrength`
    (2.0);
  - `Funding.DefaultHoldHours` (4.0).

  The model's operations take every argument explicitly.
- **Bulk token load order.** The token engine's bulk load replays rows in
  the order the query returns them, which is newest first. So the
  recent-outcomes window and the moving average end up reflecting the
  oldest trades. The model keeps that order: `Intelligence.LoadedReplay`
  states the loaded record as the replay of the rows in the given order.

## Model

| member | source | states |
|---|---|---|
| Common.FasterOf | token_intelligence.py:137-138 | the running minimum never exceeds the new time or the old minimum and is one of the two |
| Common.Clamp10 | token_intelligence.py:177 | `max(0, min(10, x))` lies in [0, 10], leaves values already in range unchanged, and equals the `min(10, max(0, x))` order of the convergence score |
| Common.Ema | token_intelligence.py:141-148 | a stored zero is seeded by the first value; otherwise the average lies between the old average and the new value |
| Common.SpeedScore | token_intelligence.py:181-186 | speed score in [0, 10]: 10 at or under 300 s, 0 at or over 3600 s |
| Common.SpeedScoreNonIncreasing | token_intelligence.py:181-186 | a faster average never scores lower |
| Common.NearestEven | token_intelligence.py:213 | the rounding step picks an integer within 0.5 of the value, the floor or the next integer |
| Common.RoundWithin | token_intelligence.py:213 | `round(x, n)` never leaves an interval with integer ends, so rounded 0-10 scores stay in [0, 10] |
| Common.KeyOrderStore | token_intelligence.py:104-105 | storing a key keeps the dict's insertion order: a new key is appended, an existing one keeps its place |
| Common.KeysAfterGrows | token_intelligence.py:82-84 | storing a run of tokens keeps the old keys in front, and afterwards exactly the old keys and the stored tokens are listed |
| Common.KeysAfterDistinct | token_intelligence.py:82-84 | however often a token is stored, it is listed once |
| Common.KeysAfterStep | token_intelligence.py:104-105 | one more store extends the key order as a single store does |
| Common.KeysAfterExample | token_intelligence.py:82-84 | storing "A", "B", "A" into an empty dict lists "A" then "B" |
| Ranking.InsertDescSorted | token_intelligence.py:307 | inserting into a descending list keeps it descending |
| Ranking.InsertDescPerm | token_intelligence.py:307 | inserting adds exactly the one element |
| Ranking.SortDesc | token_intelligence.py:307 | the descending sort is sorted and a permutation of its input |
| Ranking.SortDescStable | token_intelligence.py:307 | the sort is stable: entries with equal scores keep their input order |
| Ranking.SortDescDistinct | token_intelligence.py:307 | sorting keeps one entry per key |
| Ranking.Prefix | token_intelligence.py:308 | Python's `[:n]`: a prefix of length min(n, len) for n >= 0, dropping -n entries from the end for n < 0 |
| Ranking.Top | token_intelligence.py:300-308 | sort-then-slice is descending, drawn from the input, at most n long, stable, and nothing left out outranks anything kept |
| Intelligence.Count | token_intelligence.py:189 | `list.count` is at most the list length |
| Intelligence.QualityScore | token_intelligence.py:162-213 | neutral 5.0 below three trades; with a win rate in [0, 1] the score is in [0, 10] |
| Intelligence.NewStatsWellFormed | token_intelligence.py:15-48 | a fresh record satisfies every record invariant |
| Intelligence.RecordedCounters | token_intelligence.py:108-153 | one more trade keeps wins + losses + draws = total, long + short = total, and the window length min(total, 10) |
| Intelligence.RecordedTiming | token_intelligence.py:128-148 | one more trade keeps worst <= 0 <= best and a positive fastest time at most the average exactly when an average exists |
| Intelligence.RecordedDerived | token_intelligence.py:155-160 | after one more trade the average profit, the win rate (in [0, 1]) and the score are current |
| Intelligence.RecordedWellFormed | token_intelligence.py:95-160 | recording a trade keeps every record invariant |
| Intelligence.RescoreIdempotent | token_intelligence.py:86-88 | rescoring a well-formed record changes nothing |
| Intelligence.ReplayWellFormed | token_intelligence.py:95-160 | any sequence of trades from a fresh record leaves a well-formed record of the same symbol |
| Intelligence.ReplayCounters | token_intelligence.py:108-126 | the counters count the trades: total, "win", "lose", everything else as draw, "LONG" and everything else as short |
| Intelligence.RecordedExtremes | token_intelligence.py:128-133 | one more trade moves best and worst to include its profit |
| Intelligence.ReplayBest | token_intelligence.py:128-131 | best trade is the maximum of 0 and every profit recorded |
| Intelligence.ReplayWorst | token_intelligence.py:132-133 | worst trade is the minimum of 0 and every profit recorded |
| Intelligence.ReplayRecent | token_intelligence.py:150-153 | the window holds exactly the last ten outcomes, in order |
| Intelligence.LoadedReplay | token_intelligence.py:82-84 | a bulk load into an empty engine gives each token with rows the replay of exactly its rows, and no other token a record |
| Intelligence.Recommendable | token_intelligence.py:302-306 | the pairs are exactly the tokens with score >= min and at least five trades, with their scores |
| Intelligence.RecommendableDistinct | token_intelligence.py:302-306 | one pair per token |
| Intelligence.TopRecommendable | token_intelligence.py:300-308 | the board holds real scores of qualifying tokens, one entry each, and no qualifying token left out outranks an entry |
| Intelligence.Avoidable | token_intelligence.py:310-315 | a token is listed iff it has at least five trades and a score under 3.0, each once |
| Intelligence.ApplyTrade | token_intelligence.py:107-160 | the in-place update of a record equals `Recorded` |
| Intelligence.CountTrade | token_intelligence.py:108-126 | the counter block equals the counting stage |
| Intelligence.AddProfit | token_intelligence.py:128-133 | the profit block equals the profit stage |
| Intelligence.AddTiming | token_intelligence.py:135-148 | the timing block equals the timing stage, skipping lost trades and non-positive times |
| Intelligence.PushOutcome | token_intelligence.py:150-153 | the append-then-pop block equals the window stage |
| Intelligence.ConsistentStore | token_intelligence.py:104-107 | storing a well-formed record under its own symbol keeps the engine consistent |
| Intelligence.TokenIntelligence.constructor | token_intelligence.py:57-59 | the engine starts empty |
| Intelligence.TokenIntelligence.RecordOutcome | token_intelligence.py:95-160 | the token's record becomes `Recorded(prior, trade)`, a new token is appended to the key order, and the invariants hold |
| Intelligence.TokenIntelligence.LoadRows | token_intelligence.py:61-88 | the bulk replay leaves `Loaded(old, rows)`, missing or zero profit and duration read as 0; the key order is `KeysAfter(old order, row tokens)`: each new token is appended where it first occurs |
| Intelligence.TokenIntelligence.RecalculateScores | token_intelligence.py:86-88 | the rescoring pass leaves every record unchanged |
| Intelligence.TokenIntelligence.GetScore | token_intelligence.py:219-222 | unknown or under-sampled tokens score 5.0; every score is in [0, 10] |
| Intelligence.TokenIntelligence.ShouldSignal | token_intelligence.py:224-270 | new and under-sampled tokens pass; a pass otherwise means score, win rate, direction and streak checks all hold, and they all holding means approval; a 4-of-5 losing streak always vetoes |
| Intelligence.TokenIntelligence.SignalModifier | token_intelligence.py:272-298 | 1.0 for unknown or under-sampled tokens; always within [0.5, 1.5] |
| Intelligence.TokenIntelligence.RecommendedTokens | token_intelligence.py:300-308 | highest first, one entry per token, real scores of qualifying tokens, at most `limit`, ties in first-seen order, no qualifying token left out outranks an entry |
| Intelligence.TokenIntelligence.AvoidTokens | token_intelligence.py:310-315 | exactly the tokens with at least five trades and a score under 3.0, each once |
| Convergence.Rate | convergence_analyzer.py:158-161 | 0 with no events, within [0, 1], 1 when all converged, 0 when none did |
| Convergence.Observed | convergence_analyzer.py:128-162 | counters and rate always move; timing and averages move only on convergence, then bracketing the new time and staying between old and new values |
| Convergence.ObservedWellFormed | convergence_analyzer.py:129-161 | one more event keeps converged <= total and the rate current and in [0, 1] |
| Convergence.ReplayEvents | convergence_analyzer.py:106-162 | after any events the rate is converged/total, fastest is unset iff none converged, and fastest/slowest bracket every converged time |
| Convergence.ConvergenceSpeed | convergence_analyzer.py:208-216 | 5 for an average at or below zero, 10 up to 300 s, 0 from 3600 s, linear in between |
| Convergence.Priority | convergence_analyzer.py:185-228 | neutral 5.0 below three events; in [0, 10] for a rate in [0, 1] |
| Convergence.RowStats | convergence_analyzer.py:72-91 | a loaded row's record has the row's token, total and converged/total rate, and a nonzero average time |
| Convergence.LastRowFor | convergence_analyzer.py:72-92 | the row found is a row of the token, and there is none exactly when the token has no row |
| Convergence.LastRowForLatest | convergence_analyzer.py:72-92 | the row found is the token's last row |
| Convergence.LoadedLookup | convergence_analyzer.py:72-92 | after a load a token holds its last row's record, or its old record when it has no row |
| Convergence.Scored | convergence_analyzer.py:264-267 | every key paired with its priority, in key order |
| Convergence.TopScored | convergence_analyzer.py:262-269 | the board holds each token's priority once, and no token left out outranks an entry |
| Convergence.ApplyEvent | convergence_analyzer.py:128-162 | the in-place update equals `Observed` |
| Convergence.ConsistentStore | convergence_analyzer.py:122-126 | storing a well-formed record under its own symbol keeps the analyzer consistent |
| Convergence.ListsAgreeStore | convergence_analyzer.py:164-171 | a store that puts the token on the list its rate calls for, and leaves every other token's membership alone, keeps the lists in agreement with the records |
| Convergence.LoadRowCanBreakAgreement | convergence_analyzer.py:94-98 | a blacklisted token loaded with a rate >= 0.6 over five or more events ends on both lists, so the agreement fails |
| Convergence.ConvergenceAnalyzer.constructor | convergence_analyzer.py:35-39 | empty records and empty lists, which agree (`ListsAgree`) |
| Convergence.ConvergenceAnalyzer.RecordConvergence | convergence_analyzer.py:106-171 | the record becomes `Observed(prior, event)`; from five events a rate >= 0.6 moves the token to the whitelist, < 0.3 to the blacklist, otherwise the lists stay; agreement between lists and records is preserved |
| Convergence.ConvergenceAnalyzer.LoadRow | convergence_analyzer.py:72-98 | one row replaces the token's record; rate >= 0.6 whitelists, else rate < 0.3 with five events blacklists, nothing is removed from a list |
| Convergence.ConvergenceAnalyzer.LoadRows | convergence_analyzer.py:72-98 | the load leaves `LoadedStats(old, rows)`, adds exactly the whitelisted and blacklisted rows' tokens to the lists, and leaves the key order `KeysAfter(old order, row tokens)` |
| Convergence.ConvergenceAnalyzer.IsBlacklisted | convergence_analyzer.py:177-179 | true iff on the blacklist |
| Convergence.ConvergenceAnalyzer.IsWhitelisted | convergence_analyzer.py:181-183 | true iff on the whitelist |
| Convergence.ConvergenceAnalyzer.PriorityScore | convergence_analyzer.py:185-228 | 5.0 for unknown or under-sampled tokens; always in [0, 10] |
| Convergence.ConvergenceAnalyzer.ShouldSignal | convergence_analyzer.py:230-260 | the blacklist vetoes first; new and under-sampled tokens pass; otherwise a pass iff score >= min and rate >= 0.3 |
| Convergence.ConvergenceAnalyzer.TopTokens | convergence_analyzer.py:262-269 | highest priority first, one entry per token, at most n, ties in first-seen order, no token left out outranks an entry |
| Momentum.Overflow | momentum_tracker.py:54-57 | a full deque drops exactly enough points to stay within 1000 |
| Momentum.Stale | momentum_tracker.py:60-63 | the eviction loop drops exactly the leading points older than the cutoff |
| Momentum.RetainedSuffix | momentum_tracker.py:53-63 | after recording, at most 1000 points remain and they are the newest points of the old history plus the new one |
| Momentum.RetainedKeepsNew | momentum_tracker.py:56-63 | a new point inside the window survives eviction and is the last point |
| Momentum.RetainedWindow | momentum_tracker.py:56-63 | with a clock that does not run backwards the history stays in time order and holds only points inside the window |
| Momentum.EvictWindow | momentum_tracker.py:60-63 | evicting from a time-ordered history leaves only points at or after the cutoff |
| Momentum.Append | momentum_tracker.py:57 | the append step of the bounded deque computes `AppendBounded`, dropping the oldest point of a full deque |
| Momentum.EvictOlder | momentum_tracker.py:60-63 | the popleft loop removes exactly the leading points older than the cutoff (`Evict`) |
| Momentum.ClosestIndexFirstNearest | momentum_tracker.py:74-82 | the strict-less scan finds the first of the points nearest to the target |
| Momentum.PriceAtAge | momentum_tracker.py:65-88 | an empty or missing history gives no price |
| Momentum.PriceAtAgeNearest | momentum_tracker.py:65-88 | a price comes back iff some point is within 30% of the age, and it is the price of the first nearest point |
| Momentum.Change | momentum_tracker.py:109-116 | 0 without a positive reference; otherwise positive iff the price rose and negative iff it fell |
| Momentum.RawStrength | momentum_tracker.py:150-162 | strength in [0, 10]; raised when both changes agree in sign, lowered when they disagree, twice the weighted change (capped) otherwise |
| Momentum.CalculateTrend | momentum_tracker.py:136-164 | bullish iff 0.6·c1 + 0.4·c5 > 0.5, bearish iff < -0.5, strength in [0, 10] after rounding |
| Momentum.Analysis | momentum_tracker.py:90-134 | the analysis uses the 60 s and 300 s price lookups, keeps the current price and time, and has strength in [0, 10] |
| Momentum.AnalysisExample | momentum_tracker.py:90-164 | 100 five minutes ago and 110 now: no 1-minute price, +10% over 5 minutes, bullish, strength 8.0 |
| Momentum.MomentumTracker.constructor | momentum_tracker.py:42-46 | empty histories and cache with the given window |
| Momentum.MomentumTracker.RecordPrice | momentum_tracker.py:48-63 | the token's history becomes `Retained(old, point, now - window)`; every history stays within 1000 points |
| Momentum.MomentumTracker.GetPriceAtAge | momentum_tracker.py:65-88 | the loop returns `PriceAtAge` of the token's history |
| Momentum.MomentumTracker.AnalyzeMomentum | momentum_tracker.py:90-134 | records the price, returns `Analysis` of the new history, and caches it so the cached lookup returns it |
| Momentum.MomentumTracker.GetCachedMomentum | momentum_tracker.py:166-168 | present exactly for analyzed tokens, returning the cached analysis |
| Momentum.MomentumTracker.ConfirmsDirection | momentum_tracker.py:170-206 | no data passes; a veto happens iff an opposing trend has at least the minimum strength; "confirms" iff an aligned trend does |
| Momentum.MomentumTracker.MomentumBonus | momentum_tracker.py:208-235 | 1.0 without data or a neutral trend; >= 1 when aligned, <= 1 when opposed; always in [0.5, 1.5] |
| Momentum.MomentumTracker.BonusSymmetric | momentum_tracker.py:208-235 | the long and short bonuses of a token sum to 2 |
| Funding.InfoOf | funding_tracker.py:73-79 | the record keeps the symbol and time and reads missing rates as 0 |
| Funding.StripQuote | funding_tracker.py:104-106 | a base symbol comes back iff the name ends in "_USDT", and appending "_USDT" gives the name back |
| Funding.StripQuoteRoundTrip | funding_tracker.py:104-106 | stripping undoes appending "_USDT" |
| Funding.LastItemFor | funding_tracker.py:103-115 | the contract found strips to the symbol, and there is none exactly when no contract does |
| Funding.LastItemForLatest | funding_tracker.py:103-115 | the contract found is the last one for the symbol |
| Funding.BulkLookup | funding_tracker.py:103-115 | after the bulk loop a symbol holds its last contract's record, or its old record when no contract strips to it |
| Funding.BulkFiled | funding_tracker.py:108-115 | the bulk loop files every record under its own symbol |
| Funding.FundingTracker.constructor | funding_tracker.py:33-36 | an empty cache |
| Funding.FundingTracker.FetchFundingRate | funding_tracker.py:48-87 | a fresh entry (strictly under 300 s old) is returned unchanged; otherwise success caches and returns the new record and failure returns None with the cache unchanged |
| Funding.FundingTracker.FetchAllFundingRates | funding_tracker.py:89-123 | success leaves `Bulk(old, items)` and returns the whole cache; failure or empty data returns an empty map and leaves the cache |
| Funding.FundingTracker.GetCachedRate | funding_tracker.py:125-131 | the cached funding rate, or 0 for an unknown symbol |
| Funding.FundingTracker.CalculateFundingCost | funding_tracker.py:133-168 | 0 for an unknown symbol, otherwise the cost formula on the cached rate |
| Funding.FundingTracker.GetFundingAdjustment | funding_tracker.py:170-195 | 0 for an unknown symbol, otherwise the adjustment formula on the cached record |
| Funding.CostSymmetric | funding_tracker.py:161-166 | the cost of a long is the negated cost of a short |
| Funding.CostSign | funding_tracker.py:155-166 | with a positive rate and hold time a long's result is negative (a cost) and a short's positive (a gain); the reverse for a negative rate; a zero rate costs nothing |
| Funding.CostAdditive | funding_tracker.py:155-166 | the cost is additive in the holding time |
| Funding.CostExample | funding_tracker.py:155-168 | a rate of 0.0001 held 8 hours gives a long -0.01, a cost of 0.01 percent |
| Funding.AdjustmentIsNegatedCost | funding_tracker.py:161-195 | without a predicted rate the adjustment is exactly the negated cost over 2.4 hours |
| Funding.AdjustmentSymmetric | funding_tracker.py:190-195 | the long adjustment is the negated short adjustment |

## Left out

- SQL queries, the database connection and its error handling (`load_from_database` in both engines). The rows a query returns are parameters. The aggregation the convergence query does (a count, a sum and averages per token) is not modelled. Its consequence, converged <= total for every row, is a precondition of `Convergence.ConvergenceAnalyzer.LoadRows`.
- The HTTP session, requests, JSON decoding and `close` of the funding tracker. A response is a parameter: either failed or the fields it carries. A field that is not a number (which makes the source's `float(...)` or `int(...)` raise) and a symbol that is present but null are not representable.
- Funding.FundingTracker.FetchAllFundingRates: in the source, an item that raises part-way through the loop (a null or non-numeric field, a null symbol) leaves the records of the items before it in the cache and returns an empty map. The model cannot represent such an item, so it does not capture this partial write.
- Funding.FundingTracker.FetchAllFundingRates, Funding.FundingTracker.FetchFundingRate, Momentum.MomentumTracker.AnalyzeMomentum, Momentum.MomentumTracker.GetCachedMomentum: the source hands back live references (the cache dict itself, the stored `FundingInfo`, the cached `MomentumData` object), so a caller that keeps one sees later updates and a caller that mutates one changes the engine's state. The model returns immutable snapshots, so aliasing between a returned object and the engine's state is not captured.
- Logging, the module-level singletons and the `get_stats` accessors, which are plain dict lookups.
- Intelligence.TokenIntelligence.LoadRows: the source takes `time.time()` separately for each row; the model uses one `now` for the whole load.
- Momentum.MomentumTracker.AnalyzeMomentum: the source reads the clock several times within one call; the model uses one `now` for all of them.
- Floating-point rounding: arithmetic is exact, so `round` is taken on exact values and a boundary such as 0.5 is never blurred by float error.
- Integer-typed source values (convergence times, the history window, the funding settle time) are reals in the model where they meet real arithmetic; nothing in the source depends on their being integers.
- Momentum.MomentumTracker.RecordPrice: the deque is a value; Python's in-place `append`/`popleft` on the stored deque and the one-step creation of an empty deque for a new symbol are collapsed into one store of the resulting sequence, which no caller can tell apart.
- The numbers formatted into the gates' reason strings.
