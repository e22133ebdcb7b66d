# Market dashboard core, modelled in Dafny

This project models the computing core of an Indian F&O (futures and
options) market dashboard. The web front end shows live quotes, indices
and sectors, option chains, candlestick pattern labels and two kinds of
Open = Low / Open = High scanners. All of its numbers come from a few
TypeScript modules, and these are what the model covers:

- **The analytics library** (`frontend/src/lib/analytics.ts`).
  - The price/open-interest scenario classifier.
  - The simulated 11-strike option chain.
  - The sixteen-rule candlestick classifier and its legacy single-name form.
  - Modules `Analytics`, `CandlePatterns` and `CandleProperties`.
- **The option chain view** (`frontend/src/views/OptionChainView.tsx`).
  - Its own scenario rule and badge colours.
  - The simulated 21-strike chain.
  - The chain built around a backend entry (the ATM row seeded from the
    backend, the other rows synthesised).
  - The "highest call / put change in OI" pick.
  - Module `OptionChainView`.
- **The live market store** (`frontend/src/hooks/useQueries.ts`).
  - Seed data and base prices.
  - `initStockData` and the three random walks.
  - The index merge and the NSE freshness status, in module `LiveMarket`.
  - The module-level singleton (state, listeners, interval flag, NSE
    status), modelled as the class `MarketStore.Store`. It has the same
    operations: lazy `getState`, `tick`, `subscribe`/unsubscribe,
    `startInterval`, `seedFromSnapshot`, `seedIndicesFromSnapshot` and
    `notifyNSEStatus`.
- **The Open = Low scanner of the live dashboard**
  (`frontend/src/views/BullishScannerView.tsx`), in module `OpenLowScanner`.
- **The two synthetic scanners of the older front end**
  (`src/frontend/src/views/BullishScannerView.tsx` and
  `BearishScannerView.tsx`), in module `SynthScanners`.
  - One generic `Candle` function serves both sides. Each side has its own
    factors (`LowFactor`, `HighFactor`, `CloseFactor`).
  - The central result is `ScanAlwaysEmpty`. For every draw in [0, 1) and
    every quote map, both scanners list nothing. The synthesised close
    always lies more than 0.5 % from the open level, so the `isNearLevel`
    test can never pass. It fails whatever the price, because the price
    cancels out of the ratio.

How the model works:

- **Numbers.** JavaScript numbers are modelled as `real`, and counters as
  `int`.
  - `Math.floor` is `Common.Floor` and `Math.round` is `Common.Round`
    (floor of x + 0.5).
  - A division whose divisor can be zero gives NaN or Infinity in
    JavaScript, and either value fails every later threshold test. The model
    turns such a division into an `Option` whose `None` fails the same
    tests (`OpenLowScanner.Proximity`, `SynthScanners.AbsRatio`).
- **Outside inputs.** Every outside input is an explicit parameter:
  - each `Math.random()` draw is a real in [0, 1) (predicate `Unit`);
  - `Math.exp` is a function parameter `exp`;
  - `new Date()` / `Date.now()` is a `now` timestamp in milliseconds.
- **Proofs.**
  - Imperative code (loops over the strike ladder, the sequence of pushes
    in the candle classifier, the store's state changes) is kept as methods
    with loops and `modifies` clauses. Each method is proved equal to a
    specification function.
  - The properties are proved about those functions as lemmas.
  - The candle classifier's methods test each condition through a named
    predicate (`IsHammer`, `IsBearishEngulfing`, …). Each predicate's body
    is exactly the source's inequality.

Four facts about the code shape the model:

- The candle rules run in a fixed order: the bullish group, then the
  bearish group, then the neutral group.
- No operation raises an "invalid input" error; bad inputs flow through
  the arithmetic.
- The backend-seeded chain is centred on the backend's `atm` strike, not on
  a rounded spot.
- The two `generateOptionChain` implementations (analytics library and
  option chain view) have different ladders, scales and scenario rules.
  They are modelled separately.

## Model

| member | source | states |
|---|---|---|
| Common.Floor | frontend/src/lib/analytics.ts:21-24 | `Math.floor` gives the greatest integer not above x |
| Common.Round | frontend/src/lib/analytics.ts:15 | `Math.round` lands within one half of x, ties rounding up |
| Common.RoundToStep | frontend/src/views/OptionChainView.tsx:52 | the result is a whole number of strike steps and lies at most half a step from the spot |
| Common.Ladder | frontend/src/lib/analytics.ts:16-17 | the strike loop yields 2·half+1 strikes, the k-th being atm + (k − half)·step |
| Common.LadderShape | frontend/src/views/OptionChainView.tsx:96-101 | consecutive strikes differ by exactly one step, and only the middle strike equals the ATM strike |
| Analytics.GetScenario | frontend/src/lib/analytics.ts:6-12 | each of the five scenario texts holds exactly when its sign condition on price and OI change holds; the bull/bear badges go with rising/falling price and a non-zero OI change |
| Analytics.MakeRow | frontend/src/lib/analytics.ts:19-65 | definition of one chain row; properties in Analytics.RowFacts |
| Analytics.GenerateOptionChain | frontend/src/lib/analytics.ts:14-68 | 11 rows, the middle one at spot rounded to 100 (within 50 of spot), strikes 100 apart, each row built from its own draws |
| Analytics.RowFacts | frontend/src/lib/analytics.ts:19-65 | each side's action is BUY exactly when its change in OI exceeds 5000 and SELL exactly when it is below −5000; call and put premiums are at least 0.1, the call at least spot − strike + 5 and the put at least strike − spot + 5; OI lies in [50000, 200000) and change in OI in [−10000, 20000); the PCR of OI is positive; the PCR of change in OI is missing exactly when the call's change is zero; the trend is bullish exactly when the put's change in OI exceeds the call's |
| CandlePatterns.PartsMakeRange | frontend/src/lib/analytics.ts:90-93 | body plus upper and lower wick always add up to the range, and the body is never negative |
| CandlePatterns.NamesDistinct | frontend/src/lib/analytics.ts:96-255 | the sixteen rules report sixteen different pattern names |
| CandlePatterns.RuleAt | frontend/src/lib/analytics.ts:96-255 | the k-th rule of the evaluation order has rank k, so order and rank are inverse |
| CandlePatterns.ScanFacts | frontend/src/lib/analytics.ts:96-255 | scanning the first k rules keeps exactly the rules that hold, in strictly increasing evaluation order |
| CandlePatterns.ReportedIsScan | frontend/src/lib/analytics.ts:96-255 | pushing rule by rule yields exactly the records of the detected rules, in order |
| CandlePatterns.Classify | frontend/src/lib/analytics.ts:75-258 | definition of the reference classification; properties in CandleProperties.ClassifyNeverEmpty, ClassifyReportsFiring, ClassifyOnlyFiring and ClassifyOrdered |
| CandlePatterns.DetectCandlestickPatterns | frontend/src/lib/analytics.ts:75-258 | the classifier as written returns the reference classification (detected rules, or the No Pattern sentinel) |
| CandlePatterns.BullishRules | frontend/src/lib/analytics.ts:96-168 | the bullish block appends exactly the bullish rules that hold, in order |
| CandlePatterns.BearishRules | frontend/src/lib/analytics.ts:170-241 | the bearish block appends exactly the bearish rules that hold, in order |
| CandlePatterns.NeutralRules | frontend/src/lib/analytics.ts:243-255 | the neutral block appends exactly the neutral rules that hold, in order |
| CandleProperties.ClassifyNeverEmpty | frontend/src/lib/analytics.ts:257 | the result is never empty, and it is the lone No Pattern record exactly when no rule holds |
| CandleProperties.ClassifyReportsFiring | frontend/src/lib/analytics.ts:96-255 | a pattern's record is in the result if and only if its rule holds |
| CandleProperties.ClassifyOnlyFiring | frontend/src/lib/analytics.ts:96-257 | every reported record is the No Pattern sentinel or the record of a rule that holds |
| CandleProperties.ClassifyOrdered | frontend/src/lib/analytics.ts:96-255 | results come grouped bullish, then bearish, then neutral, with no pattern name repeated |
| CandleProperties.FlatCandleNoPattern | frontend/src/lib/analytics.ts:90-94 | a candle with open = high = low = close matches no rule and yields only No Pattern |
| CandleProperties.OpposedRulesExclusive | frontend/src/lib/analytics.ts:99-212 | hammer/hanging man, inverse hammer/shooting star, the two engulfings and the two stars never fire together |
| CandleProperties.NoHistoryNoMultiCandle | frontend/src/lib/analytics.ts:108-236 | without a previous candle no two- or three-candle pattern is reported |
| CandleProperties.DojiFamilyExclusive | frontend/src/lib/analytics.ts:164-255 | a spinning top is never a doji of any kind, and the plain, dragonfly and gravestone dojis exclude each other |
| CandleProperties.DetectCandlePattern | frontend/src/lib/analytics.ts:261-264 | definition of the legacy single-name form; properties in CandleProperties.LegacyNamesFirstMatch |
| CandleProperties.LegacyNamesFirstMatch | frontend/src/lib/analytics.ts:261-264 | the single-name form never answers Neutral; it answers No Pattern when nothing is detected and otherwise the first detected name |
| OptionChainView.GetScenario | frontend/src/views/OptionChainView.tsx:32-39 | each of the five scenarios holds exactly when its condition on change in OI and price versus previous price holds |
| OptionChainView.ScenarioColor | frontend/src/views/OptionChainView.tsx:41-48 | build-up-long and short-covering are green, short-build-up and long-unwinding red, everything else muted |
| OptionChainView.ColorFollowsPrice | frontend/src/views/OptionChainView.tsx:32-48 | the badge is green exactly when OI changed and price did not fall, red exactly when OI changed and price fell, muted exactly when OI did not change |
| OptionChainView.SynthRow | frontend/src/views/OptionChainView.tsx:58-90 | definition of a synthesised row; properties in OptionChainView.SynthRowPremiums |
| OptionChainView.SynthRowPremiums | frontend/src/views/OptionChainView.tsx:58-91 | a synthesised row's call and put premiums are at least 0.05 and at least intrinsic value; a side's scenario is Neutral exactly when its change in OI is zero |
| OptionChainView.GenerateOptionChain | frontend/src/views/OptionChainView.tsx:51-92 | 21 rows, the middle at spot rounded to 50 (within 25 of spot), strikes 50 apart, only the middle row flagged ATM, each row the synthesised row of its strike |
| OptionChainView.StepSize | frontend/src/views/OptionChainView.tsx:97 | the strike step is 100 above a spot of 10000, 50 above 1000, and 10 otherwise |
| OptionChainView.BackendRow | frontend/src/views/OptionChainView.tsx:103-165 | a row keeps its strike and is flagged ATM exactly when the strike is the backend's ATM strike |
| OptionChainView.SeededRow | frontend/src/views/OptionChainView.tsx:108-130 | definition of the backend-seeded ATM row; properties in OptionChainView.SeededRowFidelity |
| OptionChainView.SeededRowFidelity | frontend/src/views/OptionChainView.tsx:108-130 | the ATM row shows the backend's prices unchanged; its OI and change in OI are the backend's rounded to the nearest integer; VWAP is price·1.001; the call reads Long Build Up on a bullish backend trend and Short Build Up otherwise, the put Short Build Up on a bearish trend and Long Build Up otherwise; badges follow the backend trend and are never muted |
| OptionChainView.BuildOptionChainFromBackend | frontend/src/views/OptionChainView.tsx:94-166 | 21 rows centred on the backend ATM strike, StepSize apart, only the middle row flagged ATM, each row seeded or synthesised by its strike |
| OptionChainView.BestIndex | frontend/src/views/OptionChainView.tsx:238-248 | the chosen row has the largest key among the first n rows, and no earlier row ties with it (the first maximum wins) |
| OptionChainView.BestCe | frontend/src/views/OptionChainView.tsx:238-242 | definition of the highest call change in OI; properties in OptionChainView.BestRows |
| OptionChainView.BestPe | frontend/src/views/OptionChainView.tsx:244-248 | definition of the highest put change in OI; properties in OptionChainView.BestRows |
| OptionChainView.BestRows | frontend/src/views/OptionChainView.tsx:238-248 | the highest call/put change in OI is a row of the chain whose value no row exceeds |
| LiveMarket.BasePrice | frontend/src/hooks/useQueries.ts:128-139 | every listed base price is at least 165 |
| LiveMarket.SeedPrice | frontend/src/hooks/useQueries.ts:141-143 | a listed symbol gets its base price, any other symbol a price in [100, 1580) |
| LiveMarket.StockAroundFacts | frontend/src/hooks/useQueries.ts:145-169 | a record drawn around a positive price starts unmoved (LTP = previous LTP = price, volume = cumulative volume), carries the given OI and change, has cumulative price·volume = price·volume, and is a record the tick can move |
| LiveMarket.InitFromSnapshot | frontend/src/hooks/useQueries.ts:145-169 | a record seeded from a snapshot takes its last price as LTP and previous LTP, its OI, volume and change percent, and is valid |
| LiveMarket.InitStockData | frontend/src/hooks/useQueries.ts:145-169 | definition of a new record; properties in LiveMarket.InitFromSnapshot, InitFresh and StockAroundFacts |
| LiveMarket.InitFresh | frontend/src/hooks/useQueries.ts:145-169 | a record without snapshot starts unmoved at the seed price, with volume in [50000, 550000) and OI in [100000, 2100000), and is valid |
| LiveMarket.InitRange | frontend/src/hooks/useQueries.ts:147-149 | the initial low and high bracket the base price and the initial open is positive |
| LiveMarket.RandomWalk | frontend/src/hooks/useQueries.ts:173-203 | high and low only widen and contain the LTP; volume and cumulative volume grow by the same amount, at least 100; the VWAP stays cumulative price·volume over cumulative volume; OI stays non-negative with the change in OI matching it; IV stays at least 5; the previous LTP is the old LTP; symbol, open and close are kept |
| LiveMarket.RandomWalkIndex | frontend/src/hooks/useQueries.ts:205-221 | the new value is clamped to the index's bounds and is the unclamped step when that lies inside them; the previous value is the old value; name and bounds are kept |
| LiveMarket.RandomWalkSector | frontend/src/hooks/useQueries.ts:223-226 | the change percent moves by at least −0.05 and less than +0.05, the previous change is the old change, the name is kept |
| LiveMarket.FindIndex | frontend/src/hooks/useQueries.ts:347 | no entry is found exactly when no entry has the name; a found entry has the name and no earlier entry does |
| LiveMarket.MergeIndex | frontend/src/hooks/useQueries.ts:346-358 | definition of one index's merge; properties in LiveMarket.MergeIndexFacts |
| LiveMarket.MergeIndexFacts | frontend/src/hooks/useQueries.ts:346-358 | an index without live data is unchanged; with live data it takes the value and change percent, the change is value·percent/100, the previous value is the old value, name and bounds are kept |
| LiveMarket.ComputeNseStatus | frontend/src/hooks/useQueries.ts:249-255 | offline without a fetch or after an error; live exactly when the last fetch is at most 15 s old; delayed exactly when it is between 15 and 60 s old |
| LiveMarket.StatusOnlyDegrades | frontend/src/hooks/useQueries.ts:249-255 | as time passes without a new fetch, the status never becomes fresher |
| MarketStore.InitStocksFacts | frontend/src/hooks/useQueries.ts:259-262 | the first state has a record for exactly the F&O symbols, every record valid |
| MarketStore.InitStocks | frontend/src/hooks/useQueries.ts:259-262 | definition of the first stocks map; properties in MarketStore.InitStocksFacts |
| MarketStore.InitialStateValid | frontend/src/hooks/useQueries.ts:257-272 | the first state is valid and holds the five index seeds and the eight sector seeds |
| MarketStore.TickFacts | frontend/src/hooks/useQueries.ts:282-295 | a tick keeps the set of symbols, the number and names of indices and sectors, keeps every index within its bounds, sets each previous LTP to the old LTP, and keeps the state valid |
| MarketStore.TickState | frontend/src/hooks/useQueries.ts:283-294 | definition of the state after a tick; properties in MarketStore.TickFacts |
| MarketStore.SeedStocks | frontend/src/hooks/useQueries.ts:330-335 | definition of the stocks after a snapshot merge; properties in MarketStore.SeedStocksKeys, SeedStocksUntouched, SeedStocksLastWins and SeedStocksValid |
| MarketStore.SeedStocksKeys | frontend/src/hooks/useQueries.ts:328-336 | seeding from snapshots adds exactly the accepted snapshot symbols to the existing ones |
| MarketStore.SeedStocksUntouched | frontend/src/hooks/useQueries.ts:328-336 | a symbol named by no accepted snapshot keeps its record |
| MarketStore.SeedStocksLastWins | frontend/src/hooks/useQueries.ts:328-336 | a symbol's record comes from the last accepted snapshot naming it |
| MarketStore.SeedStocksValid | frontend/src/hooks/useQueries.ts:328-338 | seeding from sane snapshots keeps the state valid |
| MarketStore.MergeIndices | frontend/src/hooks/useQueries.ts:346-359 | the merge keeps the number of indices and merges each index on its own |
| MarketStore.MergeIndicesValid | frontend/src/hooks/useQueries.ts:346-361 | merging live index data keeps the state valid and every index's name |
| MarketStore.Without | frontend/src/hooks/useQueries.ts:300-302 | unsubscribing never lengthens the listener list |
| MarketStore.WithoutFacts | frontend/src/hooks/useQueries.ts:300-302 | after unsubscribing the listener is gone and every other listener keeps its multiplicity |
| MarketStore.WithoutAppend | frontend/src/hooks/useQueries.ts:301 | the filter keeps the remaining listeners in registration order: filtering a concatenation filters each part |
| MarketStore.WithoutAbsent | frontend/src/hooks/useQueries.ts:300-302 | unsubscribing a listener that is not subscribed changes nothing |
| MarketStore.UnsubscribeUndoesSubscribe | frontend/src/hooks/useQueries.ts:298-303 | subscribing a new listener and then calling its unsubscribe restores the list |
| MarketStore.Store.constructor | frontend/src/hooks/useQueries.ts:231-242 | the store starts with no state, no listeners, no interval and an offline NSE status |
| MarketStore.Store.GetState | frontend/src/hooks/useQueries.ts:257-273 | an existing state is returned unchanged; otherwise the initial state is built and kept; nothing else changes |
| MarketStore.Store.Tick | frontend/src/hooks/useQueries.ts:282-296 | the state becomes the tick of the (lazily created) previous state; nothing else changes |
| MarketStore.Store.SeedFromSnapshot | frontend/src/hooks/useQueries.ts:328-338 | the stocks become the previous stocks overwritten by the accepted snapshots, in order; indices and sectors are kept |
| MarketStore.Store.SeedIndicesFromSnapshot | frontend/src/hooks/useQueries.ts:340-363 | with no data the state is only created; otherwise the indices are merged with the live data and stocks and sectors kept |
| MarketStore.Store.Subscribe | frontend/src/hooks/useQueries.ts:298-299 | the listener is appended; nothing else changes |
| MarketStore.Store.Unsubscribe | frontend/src/hooks/useQueries.ts:300-302 | every occurrence of the listener is removed; nothing else changes |
| MarketStore.Store.StartInterval | frontend/src/hooks/useQueries.ts:312-315 | afterwards the interval is active, whether or not it was before; nothing else changes |
| MarketStore.Store.NotifyNseStatus | frontend/src/hooks/useQueries.ts:244-247 | the NSE status becomes the given one; nothing else changes |
| OpenLowScanner.Proximity | frontend/src/views/BullishScannerView.tsx:16 | no number exactly when the open is zero; non-negative for a positive open; zero when open equals low |
| OpenLowScanner.QualifiesInPrices | frontend/src/views/BullishScannerView.tsx:16-19 | with a positive open, a stock qualifies exactly when its open is within 0.5 % of the open from its low, the bound included |
| OpenLowScanner.QualifyingMembers | frontend/src/views/BullishScannerView.tsx:12-19 | an entry survives the map and filter exactly when its symbol is an F&O symbol with a record that qualifies, and the entry is that record's row |
| OpenLowScanner.InsertSorted | frontend/src/views/BullishScannerView.tsx:20 | inserting into a list sorted by proximity keeps it sorted |
| OpenLowScanner.InsertPermutes | frontend/src/views/BullishScannerView.tsx:20 | inserting adds exactly the one entry |
| OpenLowScanner.SortByProximity | frontend/src/views/BullishScannerView.tsx:20 | definition of the ascending, stable sort by proximity; properties in OpenLowScanner.SortFacts |
| OpenLowScanner.SortFacts | frontend/src/views/BullishScannerView.tsx:20 | the sort orders by ascending proximity and is a permutation |
| OpenLowScanner.BullishStocks | frontend/src/views/BullishScannerView.tsx:11-21 | definition of the scanner's list; properties in OpenLowScanner.BullishStocksFacts |
| OpenLowScanner.BullishStocksFacts | frontend/src/views/BullishScannerView.tsx:11-21 | the list is sorted nearest first and is a rearrangement of the qualifying rows; a row is listed exactly when it qualifies; every listed proximity is at most 0.5 |
| SynthScanners.Price | src/frontend/src/views/BullishScannerView.tsx:11 | a present non-zero quote is used as is, otherwise a random price in [500, 2500); the price is never zero |
| SynthScanners.KeptMembers | src/frontend/src/views/BullishScannerView.tsx:29-35 | a candle survives the filter exactly when it is a synthesised candle and passes both tests |
| SynthScanners.KeptAppend | src/frontend/src/views/BearishScannerView.tsx:29-35 | the filter keeps the order of the symbols |
| SynthScanners.Scan | src/frontend/src/views/BullishScannerView.tsx:10-36 | definition of a synthetic scanner's list; properties in SynthScanners.ScanFacts and ScanAlwaysEmpty |
| SynthScanners.ScanFacts | src/frontend/src/views/BullishScannerView.tsx:29-36 | at most 25 candles, exactly the first 25 (or all) that pass, each a synthesised candle that passes |
| SynthScanners.Candle | src/frontend/src/views/BullishScannerView.tsx:10-28 | definition of a synthesised candle for either side; properties in SynthScanners.CandleShape and NeverNearLevel |
| SynthScanners.CandleShape | src/frontend/src/views/BullishScannerView.tsx:11-15 | for a positive price the candle has 0 < low < high, a close between them, an open at the level, and passes the open-at-level test |
| SynthScanners.NeverNearLevel | src/frontend/src/views/BullishScannerView.tsx:11-33 | for any non-zero price the synthesised close is never within 0.5 % of the level |
| SynthScanners.NeverNearLow | src/frontend/src/views/BullishScannerView.tsx:12-18 | on the Open = Low side the close is more than 0.5 % above the low |
| SynthScanners.NeverNearHigh | src/frontend/src/views/BearishScannerView.tsx:12-18 | on the Open = High side the close is more than 0.5 % below the high |
| SynthScanners.ScanAlwaysEmpty | src/frontend/src/views/BearishScannerView.tsx:10-36 | both synthetic scanners list nothing, for every quote map and every draw in [0, 1) |

## Left out

- Randomness: each `Math.random()` call is a parameter. The model says
  nothing about the distribution of the draws, only that each is in [0, 1).
- `Math.exp` is a function parameter, so nothing is proved about the
  exponential decay of synthesised open interest away from the ATM strike.
- Clocks: `new Date()` and `Date.now()` are a `now` parameter in
  milliseconds. Scheduling with `setInterval`/`clearInterval` is a boolean
  flag.
- IEEE 754 rounding, NaN and Infinity are not modelled. The model uses real
  arithmetic, and a division by zero becomes `None`.
  - `toFixed`, `toLocaleString` and other display formatting are left out.
- `charCodeAt` (UTF-16 code units) becomes `char` ordinals, for the symbol
  hashes that spread initial values across symbols.
- Key order: the order of `Object.keys` in `tick` does not matter, because
  each symbol's draws are a function of the symbol.
  - The draws of each index and sector are a function of its position.
- The listener callbacks themselves are not modelled. Listeners are opaque
  identifiers, and broadcasting state to them is left out.
- `stopInterval`, `resetState`, `subscribeNSEStatus` and the NSE polling
  engine are left out. The polling engine is the network fetch cycle and
  its retries.
- The NSE HTTP client is left out: it is network I/O.
- The React hooks (`useLiveMarketData` and its bounds reset) and all
  rendering are left out.
- The option chain view of the older front end is left out. It duplicates
  the live dashboard's view.
- The unused `symbol` argument of the analytics `generateOptionChain` is
  dropped.
  - So are the entry-level `scenarios` and `price` fields of the backend
    `OptionChainEntry`, which the chain never reads. Every field of the
    per-side `CepeData` is kept.
- Style classes are the three-valued `Style` enumeration instead of CSS
  class strings.
- Previous candles: the source's optional per-field previous candles are
  one `Option<Candle>` each.
- Division preconditions. The source does not check any of these. The model
  requires them where the source divides or where the result would be NaN:
  - `OptionChainView.GenerateOptionChain`, `OptionChainView.BuildOptionChainFromBackend`,
    `OptionChainView.SynthRowPremiums` and `OptionChainView.SeededRowFidelity` require a positive spot.
  - `LiveMarket.RandomWalk` requires a valid record: a positive open, the
    last price inside the day's range, non-negative cumulative volume and
    OI, and IV
    of at least 5. Every record the store creates is valid, and a walk
    keeps it valid.
  - `LiveMarket.InitFromSnapshot` requires a sane snapshot (positive last
    price, non-negative volume and OI).
  - `MarketStore.SeedStocksValid` and `MarketStore.Store.SeedFromSnapshot`
    require sane snapshots too.
  - `MarketStore.Store.GetState` and the other store methods require
    non-empty F&O symbols with one draw each.
- LiveMarket.InitFresh: does not state the cumulative price·volume of a
  fresh record, only that the record is valid and starts at the seed price.
- OptionChainView.SeededRowFidelity: states the OI of the seeded ATM row
  as rounding bounds around the backend value, not as an exact integer.
- OpenLowScanner.SortByProximity: sortedness and permutation are proved,
  but stability (equal proximities keep list order) is only built into the
  definition, not stated as a lemma.
