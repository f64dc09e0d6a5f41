# WhalePulse trading rules in Dafny

WhalePulse is a browser dashboard for the NAS100 index and a few crypto pairs.
Under its UI sit a small number of rules. This project models those rules and
proves their properties:

- **Provider adapters**:
  - Binance: symbol translation, the whale threshold, the trade filter, the confidence percentage and its buckets.
  - Alpha Vantage: the quote, the EMA and RSI derivation with numeric defaults, support and resistance, trend, pullback.
  - Yahoo Finance: symbol translation and the change computation.
- **Aggregator**: tries the sources in a fixed order and returns the first success, tagged with that source's name.
- **Data hooks** (modelled as classes):
  - `useRealMarketData`: signal generation, the deduplicating whale merge, the fallback tick.
  - `useMockData`: one interval tick with its clamps and bounded windows.
- **Alert list** (`AlertsManager`): toggle, delete, create and counts.
- **Settings store**: shallow merge, reset, and an import that tolerates parse failures.
- **Keyboard-shortcut matching**: the first matching entry runs, and the trading table is proved free of clashes.
- **Analysis panels**:
  - NAS100 analysis: whale net flow, risk level, final signal.
  - Performance rating.
  - RSI badge and trend label.
  - Portfolio totals.

Modelling conventions:

- JavaScript numbers are `real`.
- `Math.round(x)` is `(x + 0.5).Floor`.
- `parseFloat` results are `Option<real>`, with `None` standing for NaN.
- `x || d` on a number is `NumberOr`: both 0 and NaN select `d`.
- `x.toFixed(2)` is `Fixed2`: `x × 100` rounded half away from zero (`Hundredths`), then written as the whole part, a point and two digits, with '-' in front for a negative x.
- HTTP responses are passed in already decoded, as `Result` values. `Err` is a request or decoding failure.
- `Date.now()` is a `now` parameter.
- `Math.random()` results are parameters that lie in [0, 1).
- A React state slot is a class field. Each handler is a method whose `ensures` gives the new state as a function of the old one.

Both hooks read state through stale closures, and the model keeps that behaviour:

- `loadInitialData` generates its first signals with the volume of the mounting render, which is the placeholder 0.
- In the `useMockData` tick:
  - the new `currentPrice` comes from the render that created the interval, which is the pre-tick price;
  - so do the whale price and the signal features (pre-tick price, volume and RSI).

On these points the model follows what the code does:

- The confidence buckets apply to the rounded percentage `min(round(ratio*10), 100)` at 75 and 50. They do not apply to the ratio at 0.75 and 0.5 (`BinanceService.ConfidenceBoundaries`).
- Yahoo Finance passes an unmapped symbol through unchanged instead of falling back to a default ticker.
- A trade exactly at the threshold is filtered out, because the comparison is strict. It never gets a confidence.

## Model

| member | source | states |
|---|---|---|
| BinanceService.ConvertSymbol | src/services/binanceService.ts:111-122 | the result is always one of the table's tickers; a mapped symbol gets its ticker and every unmapped symbol gets BTCUSDT |
| BinanceService.ConvertSymbolAsWritten | src/services/binanceService.ts:121 | the lookup as written: it agrees with ConvertSymbol except on the Object.prototype member names, where it yields an inherited member |
| BinanceService.ConvertSymbolAsWrittenMissesDefault | src/services/binanceService.ts:121 | the symbol "toString" is not translated to the default ticker by the code as written, though it is unmapped |
| BinanceService.WhaleThreshold | src/services/binanceService.ts:90-98 | the threshold is volume / 24 × 0.001, or 1000 when the ticker request fails |
| BinanceService.CalculateConfidence | src/services/binanceService.ts:100-103 | the percentage never exceeds 100; it is at least 10 for any trade above a positive threshold; a zero threshold gives 100 |
| BinanceService.ConfidenceLevel | src/services/binanceService.ts:105-109 | exactly one bucket: high iff pct ≥ 75, medium iff 50 ≤ pct < 75, low iff pct < 50 |
| BinanceService.ConfidenceMonotone | src/services/binanceService.ts:100-109 | for a fixed threshold a larger trade never gets a lower percentage or a lower bucket |
| BinanceService.ConfidenceBoundaries | src/services/binanceService.ts:100-109 | 7.5 thresholds is high, 5 thresholds is medium and 4.9 thresholds is low, so both bucket bounds are inclusive on the percentage |
| BinanceService.LargeTrades | src/services/binanceService.ts:52 | keeps exactly the trades whose quantity is strictly above the threshold |
| BinanceService.LargeTradesConcat | src/services/binanceService.ts:52 | the filter distributes over concatenation, so the trades keep their relative order |
| BinanceService.ToWhaleTransaction | src/services/binanceService.ts:53-62 | type is sell iff `m`; amountUsd = q × p; id is the decimal text of `a`; the confidence is the bucket of the trade's percentage; the source is Binance |
| BinanceService.WhalesFromTrades | src/services/binanceService.ts:51-63 | at most 10 results, and the i-th result is the mapped i-th large trade, i.e. a prefix of the filtered list in order |
| BinanceService.GetWhaleTransactions | src/services/binanceService.ts:37-68 | a failed trades request yields []; every result is above the threshold in use (above 1000 when the ticker fails); at most 10 |
| BinanceService.WhaleConfidenceAtLeastTen | src/services/binanceService.ts:51-62 | every returned transaction has a confidence percentage of at least 10 when the threshold is positive |
| BinanceService.GetMarketData | src/services/binanceService.ts:7-35 | succeeds iff both requests succeed; keeps the caller's symbol, appends '%' to the percentage text, tags the source Binance |
| AlphaVantageService.NormalizePercent | src/services/alphaVantageService.ts:34 | the result always ends in '%'; a text without '%' just gets one appended |
| AlphaVantageService.NormalizePercentKeepsWellFormed | src/services/alphaVantageService.ts:34 | a text in Alpha Vantage's own form ("1.23%") is left as it is |
| AlphaVantageService.GetMarketData | src/services/alphaVantageService.ts:8-43 | a missing Global Quote is the error "No quote data received from Alpha Vantage"; on success the symbol and source are tagged, price, change and volume are the quote's, and the percentage text is NormalizePercent of the quote's text, so it ends in '%' |
| AlphaVantageService.FirstEntry | src/services/alphaVantageService.ts:77-83 | a missing indicator block is an error with the block's message, an empty one is a TypeError, otherwise the first value |
| AlphaVantageService.GetEMA | src/services/alphaVantageService.ts:71-90 | a parsed non-zero x gives (x, 0.99x, 0.98x); NaN or 0 gives 23500/23400/23300; a missing block is "No EMA data received" |
| AlphaVantageService.EmaDescending | src/services/alphaVantageService.ts:85-89 | the triple is strictly descending iff its EMA50 is positive, which covers the defaults |
| AlphaVantageService.GetRSI | src/services/alphaVantageService.ts:92-109 | the first RSI value, 65 when it is NaN or 0; a missing block is "No RSI data received" |
| AlphaVantageService.CalculateSupport | src/services/alphaVantageService.ts:111-113 | support is 2% below the price, so not above it for a non-negative price |
| AlphaVantageService.CalculateResistance | src/services/alphaVantageService.ts:115-117 | resistance is 2% above the price, so not below it for a non-negative price |
| AlphaVantageService.DetermineTrend | src/services/alphaVantageService.ts:119-126 | bullish iff ema50 > ema200 ∧ rsi > 50; bearish iff ema50 < ema200 ∧ rsi < 50; sideways otherwise |
| AlphaVantageService.DetectPullback | src/services/alphaVantageService.ts:128-130 | pullback iff rsi < 30 ∨ rsi > 70; 30 and 70 themselves are not pullbacks |
| AlphaVantageService.GetTechnicalData | src/services/alphaVantageService.ts:45-69 | succeeds iff all three requests succeed; EMA50, EMA100 and EMA200 are the derived triple, the RSI is the derived value, and support, resistance, current price, trend and pullback are derived from the quote price, the triple and the RSI |
| AlphaVantageService.NeverBearishForPositiveEma | src/services/alphaVantageService.ts:54-63 | with a positive or defaulted EMA the snapshot is never bearish: bullish iff rsi > 50, else sideways |
| YahooFinanceService.ConvertSymbol | src/services/yahooFinanceService.ts:47-58 | a mapped symbol gets its Yahoo ticker; an unmapped symbol is returned unchanged |
| YahooFinanceService.KnownTickers | src/services/yahooFinanceService.ts:48-55 | the six known symbols map to ^NDX, ^IXIC, ^GSPC, ^DJI, BTC-USD and ETH-USD |
| YahooFinanceService.ConvertSymbolIdempotent | src/services/yahooFinanceService.ts:47-58 | translating twice is translating once, because no ticker is itself a key |
| YahooFinanceService.ConvertSymbolAsWritten | src/services/yahooFinanceService.ts:57 | the lookup as written: it agrees with ConvertSymbol except on the Object.prototype member names |
| YahooFinanceService.ConvertSymbolAsWrittenMissesIdentity | src/services/yahooFinanceService.ts:57 | the symbol "valueOf" is not passed through unchanged by the code as written |
| YahooFinanceService.ChangePercentText | src/services/yahooFinanceService.ts:27-29 | for a non-zero previous close, the text spells change / previousClose × 100 rounded to hundredths, with '-' iff it is negative; for a zero close it is "Infinity", "-Infinity" or "NaN" by the sign of the change |
| JsBuiltins.Fixed2 | src/services/yahooFinanceService.ts:29 | the text is '-' iff x < 0, then digits, a point and two digits that read back as the hundredths of \|x\| |
| JsBuiltins.Hundredths | src/services/yahooFinanceService.ts:29 | the hundredths `toFixed(2)` shows are within half a hundredth of x × 100 and carry x's sign |
| JsBuiltins.HundredthsText | src/services/yahooFinanceService.ts:29 | a count of hundredths is written as its whole part, a point and two digits that read back as the same count |
| YahooFinanceService.GetMarketData | src/services/yahooFinanceService.ts:7-45 | an empty chart result is an error; otherwise change = price − previous close, which is positive iff the price is above the previous close, the percentage text is ChangePercentText(change, previous close) followed by '%', and the caller's symbol is kept |
| MarketDataService.FirstSuccess | src/services/marketDataService.ts:50-67 | fails iff every source fails, with "All market data sources failed"; otherwise returns the record of the first succeeding source, tagged with that source's name |
| MarketDataService.FirstSuccessIs | src/services/marketDataService.ts:50-67 | when source k is the first to succeed, the result is source k's record tagged with its name, whatever the later sources do |
| MarketDataService.AdapterPriority | src/services/marketDataService.ts:50-67 | with the real adapters: Yahoo Finance's record when its chart call succeeds, else Alpha Vantage's, else Binance's, else the aggregate error |
| MarketDataService.Adapters | src/services/marketDataService.ts:51-55 | each source stands for its own adapter's getMarketData |
| MarketDataService.GetMarketData | src/services/marketDataService.ts:50-67 | the loop returns FirstSuccess over Yahoo Finance, Alpha Vantage and Binance; the sources it consults form a prefix of that order, ending at the first success, with all earlier ones failed |
| MarketDataService.GetTechnicalData | src/services/marketDataService.ts:69-76 | only Alpha Vantage is consulted, and its failure is passed on |
| MarketDataService.GetWhaleTransactions | src/services/marketDataService.ts:78-86 | never fails: a rejected call gives [], otherwise Binance's list |
| MarketDataService.WhalesFromBinance | src/services/marketDataService.ts:78-86 | composed with Binance's call, the aggregator returns Binance's list of at most 10 |
| RealMarketData.RsiSignal | src/hooks/useRealMarketData.ts:120-152 | an RSI signal exists iff rsi > 70 or rsi < 30; it is a high-confidence technical_breakout with id "rsi-" + time |
| RealMarketData.EmaSignal | src/hooks/useRealMarketData.ts:155-170 | an EMA signal exists iff ema50 > ema200; it is a medium-confidence ema_cross with id "ema-" + time |
| RealMarketData.NewSignals | src/hooks/useRealMarketData.ts:116-170 | at most two new signals, all stamped with the call's time and the NAS100 symbol; none iff RSI is in [30, 70] and ema50 ≤ ema200 |
| RealMarketData.NewSignalsShape | src/hooks/useRealMarketData.ts:116-175 | at most two new signals, the RSI one first; none iff RSI is in [30, 70] and ema50 ≤ ema200; two signals of one call have different ids |
| RealMarketData.FreshWhales | src/hooks/useRealMarketData.ts:103-105 | keeps exactly the incoming transactions whose id is not already present |
| RealMarketData.FreshWhalesSingleton | src/hooks/useRealMarketData.ts:103-105 | one incoming transaction is kept iff its id is not already present |
| RealMarketData.FreshWhalesConcat | src/hooks/useRealMarketData.ts:103-105 | the filter distributes over concatenation, so the kept transactions keep their order |
| RealMarketData.MergeWhales | src/hooks/useRealMarketData.ts:102-107 | a prefix of the fresh transactions followed by the existing ones, all of them when they fit; its length is min(fresh + existing, 10) |
| RealMarketData.FreshWhalesDistinct | src/hooks/useRealMarketData.ts:103-105 | filtering keeps ids distinct |
| RealMarketData.MergeWhalesDistinct | src/hooks/useRealMarketData.ts:102-107 | the merge gives distinct ids when both inputs have distinct ids |
| RealMarketData.FallbackStep | src/hooks/useRealMarketData.ts:203-216 | the price is the old price moved by the draw, floored at 23000, so away from the floor it moves by less than 10 either way; change = price − 23455; the percentage text is change / 23455 × 100 to two places (with '-' iff the change is negative) followed by '%' |
| RealMarketData.RealMarketDataHook.constructor | src/hooks/useRealMarketData.ts:23-48 | the hook's initial slots: a loading placeholder quote, no whales, no signals |
| RealMarketData.RealMarketDataHook.GenerateSignalsFromTechnical | src/hooks/useRealMarketData.ts:116-175 | the pushes build the new-signal list; it goes in front of the old signals and the result is cut to 20; the signals are unchanged when nothing is generated |
| RealMarketData.RealMarketDataHook.LoadFallbackData | src/hooks/useRealMarketData.ts:177-200 | the fallback quote and indicators are installed |
| RealMarketData.RealMarketDataHook.LoadInitialData | src/hooks/useRealMarketData.ts:53-82 | the error flag is raised iff the quote or the indicators fail, and then the fallback quote and indicators are installed and the lists are kept; otherwise the slots are set and new signals from the pre-load volume go in front, or the signals are kept when there are none; loading ends in both cases |
| RealMarketData.RealMarketDataHook.FallbackTick | src/hooks/useRealMarketData.ts:202-217 | one fallback tick; the price stays at or above 23000 |
| RealMarketData.RealMarketDataHook.OnMarketUpdate | src/hooks/useRealMarketData.ts:88-89 | a pushed snapshot replaces the quote |
| RealMarketData.RealMarketDataHook.OnTechnicalRefreshed | src/hooks/useRealMarketData.ts:92-95 | a refreshed indicator set replaces the old one |
| RealMarketData.RealMarketDataHook.OnWhalesRefreshed | src/hooks/useRealMarketData.ts:99-110 | the whale list becomes the merge, stays within 10 and keeps distinct ids |
| RealMarketData.RealMarketDataHook.ClearSignals | src/hooks/useRealMarketData.ts:223-225 | the signal list is empty |
| MockData.PickConfidence | src/hooks/useMockData.ts:174 | high iff the draw is below 1/3, medium iff it is in [1/3, 2/3), low iff it is at least 2/3 |
| MockData.PickSignalType | src/hooks/useMockData.ts:191 | each fifth of [0, 1) picks its own type, in the order volume_spike, whale_activity, technical_breakout, ema_cross, support_break |
| MockData.ChangeText | src/hooks/useMockData.ts:145-152 | '+' iff the change is ≥ 0, then change / 13324.50 × 100 to two places, then '%' |
| MockData.NextMarket | src/hooks/useMockData.ts:141-155 | price ≥ 13300, change = price − 13324.50, the percentage text starts with '+' iff the change is ≥ 0 and ends in '%', the volume grows by less than 10 million and never decreases |
| MockData.NextMarketText | src/hooks/useMockData.ts:143-152 | the updater's percentage text is ChangeText of its change, so its digits are those of the percentage to two places |
| MockData.NextTechnical | src/hooks/useMockData.ts:158-163 | RSI stays in [0, 100] and moves unclamped when it can; currentPrice is the render's price; a pullback iff the draw is above 0.9 |
| MockData.NewWhale | src/hooks/useMockData.ts:166-175 | 500 ≤ amount ≤ 2500 and 1M ≤ amountUsd ≤ 3M; buy iff the draw is above 0.5; id and timestamp from the tick time; the render's price; the confidence is the draw's bucket |
| MockData.NewSignal | src/hooks/useMockData.ts:181-200 | a bullish headline iff the draw is above 0.5; id and timestamp from the tick time; confidence and type are the draws' buckets; the features hold the render's price, volume and RSI |
| Seqs.PrependBounded | src/hooks/useMockData.ts:177 | the new item comes first, then a prefix of the old list, and the length is min(old + 1, cap) |
| MockData.MockFeed.constructor | src/hooks/useMockData.ts:52-135 | the initial quote, the initial indicators, and the sample whales and signals |
| MockData.InitialWhales | src/hooks/useMockData.ts:61-89 | three sample whales with ids 1, 2, 3, dated 5, 10 and 15 minutes before mount |
| MockData.InitialSignals | src/hooks/useMockData.ts:103-135 | two sample signals with ids 1 and 2, dated 3 and 8 minutes before mount, on the mock symbol |
| MockData.MockFeed.Tick | src/hooks/useMockData.ts:138-207 | the price floor, RSI range and window bounds are preserved; the volume never decreases; whales and signals go in front of windows of 10 and 20 |
| MockData.MockFeed.StepIndicators | src/hooks/useMockData.ts:141-163 | both updaters run on the previous slot values; the price floor and RSI range are preserved |
| MockData.MockFeed.AddWhale | src/hooks/useMockData.ts:177 | the new whale goes in front of a window of 10 |
| MockData.MockFeed.AddSignal | src/hooks/useMockData.ts:202 | the new signal goes in front of a window of 20 |
| MockData.MockFeed.ClearSignals | src/hooks/useMockData.ts:209 | the signal list is empty |
| AlertsManager.Toggled | src/components/alerts/AlertsManager.tsx:96-100 | the length is kept; `active` flips exactly on the alerts with the id; every other field and every other alert is unchanged |
| AlertsManager.Deleted | src/components/alerts/AlertsManager.tsx:102-104 | an alert stays iff it was there and has another id |
| AlertsManager.FromDraft | src/components/alerts/AlertsManager.tsx:106-113 | the new alert is active and not triggered, takes its id from the time and its other fields from the draft |
| AlertsManager.ActiveCount | src/components/alerts/AlertsManager.tsx:313 | the active count is at most the total, and equal to it iff every alert is active |
| AlertsManager.TriggeredCount | src/components/alerts/AlertsManager.tsx:320 | the triggered count is at most the total, and 0 iff no alert has fired |
| AlertsManager.ToggleTwice | src/components/alerts/AlertsManager.tsx:97-99 | toggling the same id twice restores the list |
| AlertsManager.ToggleKeepsTriggeredCount | src/components/alerts/AlertsManager.tsx:97-99 | toggling leaves the triggered count unchanged |
| AlertsManager.DeletedAppend | src/components/alerts/AlertsManager.tsx:103 | deleting distributes over concatenation, so the survivors keep their order |
| AlertsManager.DeletedSingleton | src/components/alerts/AlertsManager.tsx:103 | a single alert survives iff its id differs |
| AlertsManager.DeleteAbsent | src/components/alerts/AlertsManager.tsx:103 | deleting an id that is not present changes nothing |
| AlertsManager.DeleteIdempotent | src/components/alerts/AlertsManager.tsx:103 | deleting twice is deleting once |
| AlertsManager.CountsAppend | src/components/alerts/AlertsManager.tsx:306-320 | appending an alert adds its own flags to the counts |
| AlertsManager.AlertsBoard.constructor | src/components/alerts/AlertsManager.tsx:43-94 | three sample alerts, all active, one triggered; the dialog is closed and the draft is at its defaults |
| AlertsManager.AlertsBoard.ToggleAlert | src/components/alerts/AlertsManager.tsx:96-100 | the list becomes Toggled |
| AlertsManager.AlertsBoard.DeleteAlert | src/components/alerts/AlertsManager.tsx:102-104 | the list becomes Deleted |
| AlertsManager.AlertsBoard.EditDraft | src/components/alerts/AlertsManager.tsx:170-225 | the dialog's editors replace the draft |
| AlertsManager.AlertsBoard.CreateAlert | src/components/alerts/AlertsManager.tsx:106-123 | one alert is appended at the end; the active count grows by one and the triggered count is unchanged; the dialog closes and the draft resets |
| TradingStore.Whole | src/stores/tradingStore.ts:123 | every top-level field is supplied |
| TradingStore.Merge | src/stores/tradingStore.ts:115-120 | each supplied top-level field replaces the state's, and every absent field keeps its value |
| TradingStore.Override | src/stores/tradingStore.ts:115-120 | of two partials, the later one wins field by field, for all eight top-level fields; an absent field keeps the earlier one |
| TradingStore.MergeEmpty | src/stores/tradingStore.ts:116-119 | an empty partial is a no-op |
| TradingStore.MergeIdempotent | src/stores/tradingStore.ts:116-119 | applying the same partial twice is applying it once |
| TradingStore.MergeCompose | src/stores/tradingStore.ts:115-120 | two updates in a row are one update with the later partial winning |
| TradingStore.MergeWhole | src/stores/tradingStore.ts:122-124 | a fully supplied object replaces the whole state |
| TradingStore.ShallowGroupReplace | src/stores/tradingStore.ts:117-119 | a supplied nested group replaces the whole group; a caller that spreads the old group changes only the field it sets |
| TradingStore.DefaultsSane | src/stores/tradingStore.ts:63-108 | the defaults have oversold 20 < overbought 80 and a 3000 ms refresh interval |
| TradingStore.Store.constructor | src/stores/tradingStore.ts:110-113 | a fresh store holds the defaults |
| TradingStore.Store.UpdateSettings | src/stores/tradingStore.ts:115-120 | the state becomes Merge(old state, partial) |
| TradingStore.Store.ResetSettings | src/stores/tradingStore.ts:122-124 | every setting equals its default |
| TradingStore.Store.ImportSettings | src/stores/tradingStore.ts:131-138 | a parse failure leaves the state unchanged; a parsed object is merged like an update |
| TradingStore.ResetIdempotent | src/stores/tradingStore.ts:122-124 | resetting twice is resetting once |
| KeyboardShortcuts.Flag | src/hooks/useKeyboardShortcuts.ts:17-19 | an absent modifier flag counts as false |
| KeyboardShortcuts.Matches | src/hooks/useKeyboardShortcuts.ts:15-20 | an entry matches iff the keys agree ignoring case and each of ctrl, alt and shift is set on the event exactly when the entry sets it to true |
| KeyboardShortcuts.FirstMatch | src/hooks/useKeyboardShortcuts.ts:15-20 | the index found matches and no earlier entry matches; none iff no entry matches |
| KeyboardShortcuts.HandleKeyDown | src/hooks/useKeyboardShortcuts.ts:14-26 | preventDefault iff some entry matches, and then the action of the first matching entry runs; with no match nothing runs |
| KeyboardShortcuts.TradingShortcuts | src/hooks/useKeyboardShortcuts.ts:46-99 | eight entries; only the last one reloads the page |
| KeyboardShortcuts.FirstMatchIs | src/hooks/useKeyboardShortcuts.ts:15-20 | an index that matches, with no earlier index matching, is what find returns |
| KeyboardShortcuts.NothingMatches | src/hooks/useKeyboardShortcuts.ts:14-26 | when no entry matches, the handler neither prevents the default nor runs anything |
| KeyboardShortcuts.TableSignatures | src/hooks/useKeyboardShortcuts.ts:46-99 | the (lower-cased key, ctrl, alt, shift) of each of the eight entries, in table order |
| KeyboardShortcuts.TableSignaturesDistinct | src/hooks/useKeyboardShortcuts.ts:46-99 | no two entries share (lower-cased key, ctrl, alt, shift) |
| KeyboardShortcuts.AtMostOneMatch | src/hooks/useKeyboardShortcuts.ts:46-99 | no event matches two entries of the table |
| KeyboardShortcuts.CtrlF5NotHandled | src/hooks/useKeyboardShortcuts.ts:76-81 | Ctrl+F5 runs nothing, because the F5 entry wants Ctrl off |
| KeyboardShortcuts.F5Refreshes | src/hooks/useKeyboardShortcuts.ts:76-81 | plain F5 runs the refresh callback, or the no-op when none is given |
| KeyboardShortcuts.CtrlShiftRReloads | src/hooks/useKeyboardShortcuts.ts:92-98 | Ctrl+Shift with 'R' or 'r' reloads the page |
| Nas100Analysis.Add | src/components/trading/NAS100Analysis.tsx:74 | a sum is NaN iff either side is NaN |
| Nas100Analysis.Signed | src/components/trading/NAS100Analysis.tsx:73-74 | the amount parsed after removing every '$' and 'M', plus for a buy and minus otherwise; NaN iff it does not parse |
| Nas100Analysis.FlowFrom | src/components/trading/NAS100Analysis.tsx:72-75 | the reduce equals its accumulator plus the sum of the amounts |
| Nas100Analysis.NetFlow | src/components/trading/NAS100Analysis.tsx:72-75 | the net flow is the sum of the signed amounts |
| Nas100Analysis.TotalRemove | src/components/trading/NAS100Analysis.tsx:72-75 | any single row can be taken out of the sum |
| Nas100Analysis.TotalPermutation | src/components/trading/NAS100Analysis.tsx:72-75 | the sum is the same for any reordering of the rows |
| Nas100Analysis.NetFlowOrderIndependent | src/components/trading/NAS100Analysis.tsx:72-75 | the net flow is buys minus sells and does not depend on the order of the rows |
| Nas100Analysis.Risk | src/components/trading/NAS100Analysis.tsx:78-87 | high iff rsi > 90 ∧ flow < −2; low iff rsi < 30 ∧ flow > 2; medium otherwise (NaN compares false) |
| Nas100Analysis.Signal | src/components/trading/NAS100Analysis.tsx:90-102 | sell-likely iff rsi > 85 ∧ flow < −1; buy-likely iff rsi < 40 ∧ flow > 1; wait otherwise |
| Nas100Analysis.RiskAgreesWithSignal | src/components/trading/NAS100Analysis.tsx:81-98 | high risk implies sell-likely, and low risk implies buy-likely |
| Nas100Analysis.StripDollarMillions | src/components/trading/NAS100Analysis.tsx:73 | "$a.bM" becomes "a.b" |
| Nas100Analysis.ParseOneDecimal | src/components/trading/NAS100Analysis.tsx:73 | "a.b" parses to a + b/10 |
| Nas100Analysis.AmountOf | src/components/trading/NAS100Analysis.tsx:73-74 | a row "$a.bM" is worth ±(a + b/10) million |
| Nas100Analysis.BuiltInAmount | src/components/trading/NAS100Analysis.tsx:59-61 | the snapshot's k-th row is worth −2.2, −2.9 and +1.1 million for k = 0, 1, 2 |
| Nas100Analysis.FlowOfThree | src/components/trading/NAS100Analysis.tsx:72-75 | rows worth −2.2, −2.9 and +1.1 give a flow of −4.0 |
| Nas100Analysis.BuiltInAnalysis | src/components/trading/NAS100Analysis.tsx:46-105 | on the snapshot the flow is −4.0, the risk is high and the signal is sell-likely |
| PerformanceMonitor.Bands | src/components/performance/PerformanceMonitor.tsx:57-68 | each type has two increasing positive thresholds |
| PerformanceMonitor.GetPerformanceStatus | src/components/performance/PerformanceMonitor.tsx:55-72 | memory <60 / [60,80) / ≥80, render <16 / [16,33) / ≥33, network <50 / [50,100) / ≥100; unknown iff the type is none of the three |
| PerformanceMonitor.DeclaredTypesRated | src/components/performance/PerformanceMonitor.tsx:55-72 | the default branch is never taken for a declared type |
| PerformanceMonitor.StatusMonotone | src/components/performance/PerformanceMonitor.tsx:55-72 | a higher value never gets a better rating |
| TechnicalIndicators.GetRsiStatus | src/components/trading/TechnicalIndicators.tsx:39-43 | overbought iff rsi ≥ 70, oversold iff rsi ≤ 30, neutral iff 30 < rsi < 70 |
| TechnicalIndicators.TrendLabel | src/components/trading/TechnicalIndicators.tsx:63 | every trend gets a label |
| TechnicalIndicators.TrendLabelsDistinct | src/components/trading/TechnicalIndicators.tsx:63 | different trends get different labels |
| TechnicalIndicators.RsiConventionsDiffer | src/components/trading/TechnicalIndicators.tsx:39-43 | the card's inclusive bounds and the provider's strict pullback bounds disagree exactly at 30 and 70 |
| PortfolioOverview.ValueFrom | src/components/portfolio/PortfolioOverview.tsx:59 | the reduce is its start plus the sum of the value column |
| PortfolioOverview.PnLFrom | src/components/portfolio/PortfolioOverview.tsx:60 | the reduce is its start plus the sum of the PnL column |
| PortfolioOverview.TotalValue | src/components/portfolio/PortfolioOverview.tsx:59 | the total value is the value column's sum, non-negative when every position's value is |
| PortfolioOverview.TotalPnL | src/components/portfolio/PortfolioOverview.tsx:60 | the total PnL is the PnL column's sum |
| PortfolioOverview.SumsSplit | src/components/portfolio/PortfolioOverview.tsx:59-60 | the column sums split over concatenation |
| PortfolioOverview.TotalsAdd | src/components/portfolio/PortfolioOverview.tsx:59-60 | total value and total PnL add over concatenated portfolios |
| PortfolioOverview.PnLPercent | src/components/portfolio/PortfolioOverview.tsx:61 | percent × (value − PnL) = PnL × 100; undefined iff value = PnL |
| PortfolioOverview.SignPrefix | src/components/portfolio/PortfolioOverview.tsx:99-100 | '+' iff the number is ≥ 0 |
| PortfolioOverview.PercentSignFollowsPnL | src/components/portfolio/PortfolioOverview.tsx:61 | with a positive cost basis the percent has the sign of the PnL, so both cards show the same prefix |
| PortfolioOverview.MockTotals | src/components/portfolio/PortfolioOverview.tsx:25-61 | the sample portfolio totals 169014.5 with a PnL of 4267.5 on a positive cost basis |

## Left out

- HTTP requests, JSON decoding and the Binance WebSocket are left out. They are I/O. Their decoded results are parameters.
- Fetch outcomes are not split into network failures and non-2xx statuses. Both are one `Err`.
- `subscribeToMarketData` and every timer are left out: the polling intervals, the fallback interval with its 5-minute stop, and the mock interval's scheduling. They are timer plumbing. One tick or one callback is a method.
- The random gates that decide when the real hook refreshes indicators and whales are left out. Only the continuations that run after a refresh are modelled.
- Floating point is not modelled. Numbers are exact reals, so rounding errors (such as 2.2 + 2.9) do not appear. Infinity and NaN appear only where a branch depends on them. `toFixed` is modelled only for magnitudes below 10^21. `parseFloat` does not read exponents or "Infinity", and skips only space, tab, LF and CR as leading white space (not VT, FF, U+00A0, U+FEFF, U+2028/2029 or the other Zs characters).
- Trade, quote and chart fields are taken as already-parsed numbers. The NaN those fields could carry is not modelled.
- `toISOString` is not modelled. Timestamps are the epoch milliseconds they are rendered from.
- `toLowerCase` is modelled on ASCII letters only. Other characters are left unchanged, with no Unicode case mapping.
- Persian descriptions, disclaimers and toast texts are not modelled. Signal titles are the `Headline` enumeration.
- The order of the `Math.random()` calls in one mock tick is not modelled. Each draw is a named parameter, because the draws are independent.
- `getHistoricalData` in src/services/yahooFinanceService.ts is not part of this model. No core rule uses it.
- The zustand `persist` layer, `exportSettings` and the JSON text of an import are left out. They are a foreign library and serialisation. An import is an already-parsed `Option` of a partial settings record.
- The random metric sampling of the performance monitor is left out. So are all colours and icons.
- WebSocketManager, the service worker and the pure UI components are not part of this model.
- Promise rejection timing is simplified. When several of the calls combined by `Promise.all` fail, the model reports the leftmost failure. In the source, which rejection wins depends on timing.
- BinanceService.CalculateConfidence: requires the trade to be above the threshold. Its only call site, the filter at src/services/binanceService.ts:52, guarantees this.
- TradingStore.Store.ImportSettings: only an import whose text parses to an object of known top-level keys is modelled. Text that parses to null, a number, a string or a boolean makes zustand's `set` replace the whole state, actions included. An array merges its index keys into the state. Unknown keys and wrongly typed values are copied in as they are. None of these is modelled.
- MockData.MockFeed.Tick: a whale's timestamp is the tick time `now`. The ISO string rendering is not modelled.

## Findings

| source | as written | input that shows it | evidently intended | confidence | as-written member | corrected member |
|---|---|---|---|---|---|---|
| src/services/binanceService.ts:121 | `symbolMap[symbol] \|\| 'BTCUSDT'` on a plain object literal also finds Object.prototype members | symbol "toString" gives the inherited function, which is truthy, instead of 'BTCUSDT' | every symbol outside the table gets the default ticker BTCUSDT | medium, not executed | BinanceService.ConvertSymbolAsWritten | BinanceService.ConvertSymbol |
| src/services/yahooFinanceService.ts:57 | `symbolMap[symbol] \|\| symbol` on a plain object literal also finds Object.prototype members | symbol "valueOf" gives the inherited function instead of "valueOf" | every symbol outside the table is passed through unchanged | medium, not executed | YahooFinanceService.ConvertSymbolAsWritten | YahooFinanceService.ConvertSymbol |
