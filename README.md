# Trading-signal dashboard: indicator engine, consensus, feed and AI-reply normaliser

A Dafny model of the computational core of a trading-signal dashboard written
in TypeScript. It covers:

- **Indicators** (`indicators.dfy`, `src/services/IndicatorService.ts`):
  - RSI with its zero-loss saturation rule;
  - EMA, seeded with a simple average, written as a loop;
  - MACD, whose fast and slow EMAs are aligned by index with a falsy fallback;
  - SMA;
  - Bollinger bands, using the population variance.
- **Structure** (`structure.dfy`, the same file):
  - support and resistance detection: local extrema over five bars on each side, de-duplicated, keeping the last three, written as a loop;
  - the candlestick and trend classifier, whose rules are tried in priority order.
- **Consensus** (`consensus.dfy`, `src/components/features/TechnicalIndicators.tsx`):
  - one buy, sell or neutral vote per indicator that is present;
  - the three counts;
  - the bias label.
- **MockData** (`mock_data.dfy`, `src/services/MockDataService.ts`):
  - a class `MarketFeed` whose `data` buffer is replaced by `GenerateInitialData`, which is a loop;
  - bars appended one at a time by `GenerateNextCandle`, which evicts the oldest bar once the buffer holds more than 100;
  - the buffer returned by `GetData`;
  - every `Math.random()` draw and the clock are parameters.
- **AnalyzeChart** (`analyze_chart.dfy`, `supabase/functions/analyze-chart/index.ts`):
  - the request guard;
  - extraction of the JSON block from the AI's reply;
  - coercion of the signal and the confidence;
  - timestamping of candles;
  - a class `ParsedReply` whose fields are normalised in place, as the handler mutates `result`.
- **ChartAnalyzer** (`chart_analyzer.dfy`, `src/components/features/ChartAnalyzer.tsx`):
  - the upload guards, which check the MIME prefix and the 10 MiB limit;
  - `saveToHistory`'s list update, which prepends an entry and truncates to 50, on the class `SignalHistory`.

`types.dfy` holds the shared records of `src/types/index.ts`. `wrappers.dfy` holds `Option` and `Result`.

Modelling conventions:
- **Numbers.** Prices are unbounded reals. JavaScript `null` results are `None`.
- **Square root.** `Math.sqrt` is a parameter `sqrt: real -> real`. Lemmas that need a property of it state that property in their `requires`: a non-negative root, or `sqrt(0) == 0`.
- **Rounding.** `Number(x.toFixed(5))` is the concrete function `Round5`: it rounds to the nearest multiple of 0.00001, with ties going away from zero. It is proved monotone, idempotent and within 0.000005 of its input.
- **Division in the pattern rules.** The pattern rules divide by the first half's extreme. A divisor of +0 gives `Infinity` or `NaN` in JavaScript, and neither passes `< 0.01`. The model therefore tests `a != 0` instead of requiring positive prices. A divisor of -0 would give `-Infinity`, which passes; signed zero is not modelled (see "## Left out").
- **JSON.parse.** The model does not choose how `JSON.parse` behaves: it is a parameter `parse`. Its input always starts with `{` and ends with `}`, so it either yields an object or throws. `None` stands for the throw.
- **The RSI window.** RSI over 14 periods needs 15 bars (`data.length < period + 1` returns null). A history of exactly 14 bars therefore has no RSI. The model follows the code here; a 14-bar example that yields a saturated RSI would contradict it.

## Model

| member | source | states |
|---|---|---|
| Types.Closes | src/services/IndicatorService.ts:43 | the closes of the bars, same length, element by element |
| Indicators.LastN | src/services/IndicatorService.ts:8 | `slice(-n)`: the last n elements (all of them when shorter), in order |
| Indicators.Deltas | src/services/IndicatorService.ts:7 | one change per consecutive pair of closes, `c[i+1] - c[i]` |
| Indicators.Gains | src/services/IndicatorService.ts:10 | a value is kept exactly when it is a positive change of the input; the kept values are positive and no more numerous than the input |
| Indicators.Losses | src/services/IndicatorService.ts:11 | a magnitude is kept exactly when its negation is a change of the input, i.e. every negative change contributes its absolute value; no more values than the input |
| Indicators.RsiWindow | src/services/IndicatorService.ts:7-8 | the changes the RSI looks at: at most period of them, exactly period once there are period+1 bars |
| Indicators.AverageOver | src/services/IndicatorService.ts:13-14 | `len > 0 ? sum / period : 0`; its meaning is stated by AverageIsSumOver and AverageNonNegative |
| Indicators.RelativeStrength | src/services/IndicatorService.ts:16 | `avgLoss === 0 ? 100 : avgGain / avgLoss`; non-negative for non-negative averages |
| Indicators.GainsMinusLosses | src/services/IndicatorService.ts:10-11 | no change is lost by the two filters: the sum of the gains minus the sum of the losses is the sum of the changes |
| Indicators.AverageIsSumOver | src/services/IndicatorService.ts:13-14 | the average gain or loss is the sum divided by the period, not by the count (the emptiness test is redundant) |
| Indicators.AverageNonNegative | src/services/IndicatorService.ts:13-14 | averages of non-negative values are non-negative |
| Indicators.IndexFromStrength | src/services/IndicatorService.ts:17 | `100 - 100/(1+rs)` lies in [0, 100) for rs >= 0 |
| Indicators.CalculateRsi | src/services/IndicatorService.ts:4-18 | null exactly when there are fewer than period+1 bars; otherwise a value in [0, 100) |
| Indicators.RsiSaturates | src/services/IndicatorService.ts:10-17 | no negative change in the window gives RS = 100 and RSI = 100 - 100/101 |
| Indicators.RsiOfFlatSeries | src/services/IndicatorService.ts:7-17 | a flat close series saturates at 100 - 100/101 |
| Indicators.RsiOfAverages | src/services/IndicatorService.ts:13-17 | with averages G/p and L/p (L > 0) the period cancels: RSI = 100 G / (G + L) |
| Indicators.RsiFromSums | src/services/IndicatorService.ts:10-17 | when the window holds a loss, RSI is gains as a share of total movement, with G >= 0 and L > 0 |
| Indicators.Ema | src/services/IndicatorService.ts:20-33 | the EMA series has length \|data\| - period + 1 (1 when the data is shorter) |
| Indicators.EmaHead | src/services/IndicatorService.ts:24-25 | the first EMA value is the mean of the first period inputs |
| Indicators.EmaStep | src/services/IndicatorService.ts:27-30 | each later value is `data[period-1+j]*k + prev*(1-k)` with k = 2/(period+1) |
| Indicators.EmaSeed | src/services/IndicatorService.ts:24 | `data.slice(0, period)` summed over period; EmaHead states it is the first EMA value |
| Indicators.Blend | src/services/IndicatorService.ts:28 | `value * k + prev * (1 - k)` lies between value and prev for k in [0, 1] |
| Indicators.EmaOfConstant | src/services/IndicatorService.ts:20-32 | a constant input gives a constant output |
| Indicators.CalculateEma | src/services/IndicatorService.ts:20-33 | the loop computes exactly the EMA series |
| Indicators.MacdLine | src/services/IndicatorService.ts:47 | the MACD line has the fast EMA's length |
| Indicators.SlowAt | src/services/IndicatorService.ts:47 | `slowEMA[i] \|\| slowEMA[last]` is always a value of the slow series |
| Indicators.MacdLineAligned | src/services/IndicatorService.ts:47 | element i is fast[i] - slow[i] while the slow series lasts and is non-zero |
| Indicators.MacdLinePadded | src/services/IndicatorService.ts:47 | past the slow series, element i is fast[i] - slow[last] |
| Indicators.MacdLineZeroSlowFallsBack | src/services/IndicatorService.ts:47 | a slow value of exactly 0 is falsy and also falls back to slow[last] |
| Indicators.CalculateMacd | src/services/IndicatorService.ts:35-58 | null exactly when there are fewer than slow+signal bars; histogram == macd - signal |
| Indicators.MacdFinalPoint | src/services/IndicatorService.ts:43-56 | with fast <= slow, macd is the last fast EMA minus the last slow EMA and signal is the last EMA of the MACD line |
| Indicators.CloseWindow | src/services/IndicatorService.ts:74 | the closes of the last period bars, in order |
| Indicators.CalculateSma | src/services/IndicatorService.ts:60-65 | null exactly when there are fewer than period bars |
| Indicators.SmaBetweenBounds | src/services/IndicatorService.ts:63-64 | the SMA is a mean: any bound on the last period closes bounds it |
| Indicators.SmaOfConstant | src/services/IndicatorService.ts:63-64 | equal closes give that close |
| Indicators.Square | src/services/IndicatorService.ts:77 | a square is never negative |
| Indicators.SquaredDeviations | src/services/IndicatorService.ts:77 | one squared deviation from the mean per close |
| Indicators.PopulationVariance | src/services/IndicatorService.ts:77 | the population variance is non-negative |
| Indicators.CalculateBollingerBands | src/services/IndicatorService.ts:67-85 | null exactly when there are fewer than period bars; the middle band is the SMA; the bands are symmetric |
| Indicators.BollingerOrdered | src/services/IndicatorService.ts:80-84 | lower <= middle <= upper for stdDev >= 0 and a non-negative root |
| Indicators.VarianceOfConstant | src/services/IndicatorService.ts:75-77 | equal closes have mean c and variance 0 |
| Indicators.BollingerOfConstant | src/services/IndicatorService.ts:72-84 | equal closes collapse all three bands onto the close |
| Structure.IsLocalExtreme | src/services/IndicatorService.ts:94-100 | isLocalLow / isLocalHigh: the five bars before and the five after all respect bar i's level, ties allowed |
| Structure.Candidates | src/services/IndicatorService.ts:92-104 | the levels pushed for 5 <= i < n in index order: at most one per index; CandidatesAreExtrema and ExtremaAreCandidates state which |
| Structure.CandidatesAreExtrema | src/services/IndicatorService.ts:92-103 | every pushed level is a local low (high) at some index 5 <= i < n, non-strict on both sides |
| Structure.ExtremaAreCandidates | src/services/IndicatorService.ts:92-103 | the level of every local extremum at 5 <= i < n is pushed |
| Structure.Distinct | src/services/IndicatorService.ts:107-108 | `[...new Set(s)]` has exactly the values of s, none twice |
| Structure.DistinctInDetectionOrder | src/services/IndicatorService.ts:107-108 | the de-duplicated values keep the order of their first occurrence |
| Structure.SuffixValues | src/services/IndicatorService.ts:107-108 | every value of the last n is a value of the sequence |
| Structure.SuffixNoDuplicates | src/services/IndicatorService.ts:107-108 | the last n values of a duplicate-free list are duplicate-free |
| Structure.SuffixOfDistinct | src/services/IndicatorService.ts:107-108 | the last three distinct values come from the candidates and are pairwise distinct |
| Structure.SuffixInDetectionOrder | src/services/IndicatorService.ts:107-108 | the last three distinct values keep first-detection order |
| Structure.Levels | src/services/IndicatorService.ts:106-109 | exactly min(3, number of distinct candidates) levels per side; none with fewer than 11 bars |
| Structure.LevelsAreLocalExtrema | src/services/IndicatorService.ts:87-110 | every reported level is the low (high) of a local extremum, and none repeats |
| Structure.LevelsAreMostRecent | src/services/IndicatorService.ts:87-110 | every reported level was pushed by the loop, and they keep first-detection order |
| Structure.DroppedSeenFirst | src/services/IndicatorService.ts:107-108 | a value cut by `[...new Set(c)].slice(-n)` was first met before every kept value |
| Structure.UnreportedSeenEarlier | src/services/IndicatorService.ts:92-108 | every pushed level that is not reported was first detected before every reported level: the levels are the last three by first detection, and a level detected again later keeps its first slot |
| Structure.FewDistinctAllKept | src/services/IndicatorService.ts:107-108 | with at most n distinct values, the last n keep every value |
| Structure.FewLevelsAllReported | src/services/IndicatorService.ts:87-110 | with at most three distinct levels, the level of every local extremum is reported |
| Structure.DetectSupportsResistances | src/services/IndicatorService.ts:87-110 | the loop returns exactly the support and resistance levels |
| Structure.MinLow | src/services/IndicatorService.ts:119-120 | a lower bound of every low that is one of the lows |
| Structure.MaxHigh | src/services/IndicatorService.ts:121-122 | an upper bound of every high that is one of the highs |
| Structure.WithinOnePercent | src/services/IndicatorService.ts:124 | `Math.abs(a - b) / a < 0.01`; for a > 0 exactly 0.99a < b < 1.01a |
| Structure.IsDoubleBottom | src/services/IndicatorService.ts:119-126 | rule 1: the second half's low within 1% of the first half's, and a higher second-half high |
| Structure.IsDoubleTop | src/services/IndicatorService.ts:119-130 | rule 2: the second half's high within 1% of the first half's, and a lower second-half low |
| Structure.IsHammer | src/services/IndicatorService.ts:132-139 | rule 3: lower wick over twice the body, upper wick under half of it |
| Structure.IsShootingStar | src/services/IndicatorService.ts:132-143 | rule 4: upper wick over twice the body, lower wick under half of it |
| Structure.Classify | src/services/IndicatorService.ts:112-153 | awaiting data exactly when there are fewer than 10 bars |
| Structure.DetectPattern | src/services/IndicatorService.ts:112-153 | always one of the eight labels; 'AGUARDANDO DADOS' exactly below 10 bars |
| Structure.Rules | src/services/IndicatorService.ts:124-150 | the six if-return rules in source order; none of them yields consolidation or awaiting data |
| Structure.FirstMatch | src/services/IndicatorService.ts:124-152 | first-match-wins over a rule table; stated by FirstMatchDefault and FirstMatchPicks |
| Structure.FirstMatchDefault | src/services/IndicatorService.ts:152 | when no rule holds the default outcome is returned |
| Structure.FirstMatchPicks | src/services/IndicatorService.ts:124-150 | when rule i holds and no earlier one does, rule i's outcome is returned |
| Structure.ClassifyIsFirstMatch | src/services/IndicatorService.ts:124-152 | the classifier tries W, M, hammer, shooting star, uptrend and downtrend in that order, else consolidation |
| Structure.DojiIsNoReversal | src/services/IndicatorService.ts:132-143 | a well-formed doji is neither hammer nor shooting star |
| Structure.FlatClosesAreUptrend | src/services/IndicatorService.ts:145-150 | five equal final closes classify as uptrend unless rules 1-4 fire; never as downtrend |
| Structure.HammerExample | src/services/IndicatorService.ts:132-139 | a concrete last bar is a hammer, reported unless W or M takes priority |
| Consensus.RsiSignal | src/components/features/TechnicalIndicators.tsx:66-70 | buy below 30, sell above 70, neutral on [30, 70] |
| Consensus.MacdSignal | src/components/features/TechnicalIndicators.tsx:72-76 | strict comparisons: equal values are neutral |
| Consensus.BollingerSignal | src/components/features/TechnicalIndicators.tsx:78-82 | buy at or below the lower band, tested first; sell at or above the upper band; neutral strictly between |
| Consensus.CollapsedBandsVoteBuy | src/components/features/TechnicalIndicators.tsx:78-82 | bands collapsed onto the price vote buy, not sell |
| Consensus.SmaSignal | src/components/features/TechnicalIndicators.tsx:84-88 | price above buys, below sells, equal is neutral |
| Consensus.IndicatorVotes | src/components/features/TechnicalIndicators.tsx:90-115 | exactly one vote per indicator that passes its inclusion test, so at most four |
| Consensus.VoteOf | src/components/features/TechnicalIndicators.tsx:90-115 | the vote of the first card with a title (no earlier card has it), None exactly when no card has it |
| Consensus.Included | src/components/features/TechnicalIndicators.tsx:90-115 | looking up a title finds the vote of the matching indicator when it passes its inclusion test, otherwise nothing |
| Consensus.InclusionRules | src/components/features/TechnicalIndicators.tsx:90-115 | RSI votes whenever present (0 included); MACD when present; Bollinger with a positive price; SMA 20 when non-zero with a positive price; absent ones cast no vote |
| Consensus.Count | src/components/features/TechnicalIndicators.tsx:117-119 | a count never exceeds the number of votes |
| Consensus.CountsPartition | src/components/features/TechnicalIndicators.tsx:117-119 | buy + sell + neutral counts equal the number of included indicators |
| Consensus.CountIgnoresOrder | src/components/features/TechnicalIndicators.tsx:117-119 | the counts depend only on the multiset of votes |
| Consensus.BiasOf | src/components/features/TechnicalIndicators.tsx:162-167 | buy > sell is a buy bias, sell > buy a sell bias, a tie is neutral |
| Consensus.BiasLabel | src/components/features/TechnicalIndicators.tsx:167 | 'VIÉS COMPRA', 'VIÉS VENDA', or the neutral signal's spelling 'NEUTRO' exactly for no bias |
| Consensus.Tally | src/components/features/TechnicalIndicators.tsx:117-167 | the counts sum to the number of votes and the bias follows buy vs sell |
| Consensus.TallyIgnoresOrder | src/components/features/TechnicalIndicators.tsx:117-167 | reordering the votes leaves the panel unchanged |
| Consensus.NoIndicatorsNoBias | src/components/features/TechnicalIndicators.tsx:90-167 | no indicator present gives 0-0-0 and a neutral bias |
| MockData.Round5 | src/services/MockDataService.ts:24-27 | `Number(x.toFixed(5))`: a whole number of hundred-thousandths with the sign of x |
| MockData.Round5Monotone | src/services/MockDataService.ts:24-27 | rounding to five decimals never reverses an order |
| MockData.Round5Idempotent | src/services/MockDataService.ts:24-27 | rounding a rounded price changes nothing |
| MockData.Round5Error | src/services/MockDataService.ts:24-27 | the rounded price is within 0.000005 of the input |
| MockData.VolumeOf | src/services/MockDataService.ts:28 | a draw in [0, 1) gives a volume in [100, 1099] |
| MockData.Shape | src/services/MockDataService.ts:16-20 | close = open + change; non-negative jitters put the high above and the low below the body |
| MockData.StampIsGenerated | src/services/MockDataService.ts:22-29 | a well-formed raw candle stays well-formed after rounding, with prices rounded and volume in range |
| MockData.InitialCandles | src/services/MockDataService.ts:14-32 | one candle per draw |
| MockData.InitialCandlesFrom | src/services/MockDataService.ts:14-31 | from draw k on, the walk is the candle drawn at the carried price followed by the walk from its close |
| MockData.InitialCandlesTimes | src/services/MockDataService.ts:14-15 | candle j is stamped 60·j seconds after the first |
| MockData.InitialCandlesChained | src/services/MockDataService.ts:17-31 | each candle opens at the previous candle's close |
| MockData.InitialCandlesGenerated | src/services/MockDataService.ts:16-29 | with draws in [0, 1) every candle is well-formed and rounded, with volume in range |
| MockData.InitialDataIsFeed | src/services/MockDataService.ts:9-36 | the initial data is chained, well-formed and runs from now - count·60 to now - 60 |
| MockData.NextCandle | src/services/MockDataService.ts:39-58 | the next bar is stamped 60 s after the last and opens at its rounded close |
| MockData.NextCandleContinues | src/services/MockDataService.ts:39-47 | the next bar is stamped 60 s later and opens at the last close |
| MockData.Evict | src/services/MockDataService.ts:60-64 | one `shift` past 100 bars: the length drops by one only then, and the result is a suffix of the input |
| MockData.AppendEvict | src/services/MockDataService.ts:60-64 | the new bar is last; the length grows up to 100; a full buffer loses exactly its oldest bar, the rest in order |
| MockData.FeedAppend | src/services/MockDataService.ts:60 | appending a generated bar that continues the last one keeps the buffer chained and well-formed |
| MockData.FeedTail | src/services/MockDataService.ts:62-63 | dropping the oldest bar keeps the buffer chained and well-formed |
| MockData.NextCandleKeepsFeed | src/services/MockDataService.ts:38-67 | appending the next bar keeps the buffer chained and well-formed |
| MockData.MarketFeed.constructor | src/services/MockDataService.ts:6 | the buffer starts empty |
| MockData.MarketFeed.GenerateInitialData | src/services/MockDataService.ts:9-36 | the loop returns the initial candles from now - count·60 and they replace the buffer |
| MockData.MarketFeed.GenerateNextCandle | src/services/MockDataService.ts:38-67 | returns the next bar after the last one and the buffer becomes the append-and-evict of the old buffer |
| MockData.MarketFeed.GetData | src/services/MockDataService.ts:87-89 | returns an equal copy of the buffer |
| AnalyzeChart.Property | supabase/functions/analyze-chart/index.ts:14 | reading a property throws exactly on null and undefined |
| AnalyzeChart.Truthy | supabase/functions/analyze-chart/index.ts:16 | JavaScript truthiness: undefined, null, false, 0 and '' are falsy, arrays and objects truthy |
| AnalyzeChart.OrZero | supabase/functions/analyze-chart/index.ts:142-145 | `x \|\| 0`: a truthy value is kept, a falsy one becomes 0 |
| AnalyzeChart.CheckRequest | supabase/functions/analyze-chart/index.ts:14-23 | succeeds exactly with a truthy image and a non-empty key; a falsy image is 'No image data provided'; a truthy image with a missing or empty key is the missing-key error |
| AnalyzeChart.IndexOf | supabase/functions/analyze-chart/index.ts:121 | the first position of a character, None exactly when absent |
| AnalyzeChart.LastIndexOf | supabase/functions/analyze-chart/index.ts:121 | the last position of a character, None exactly when absent |
| AnalyzeChart.ExtractJsonBlock | supabase/functions/analyze-chart/index.ts:121-124 | the text from the first '{' to the last '}'; None exactly when no '}' follows a '{' |
| AnalyzeChart.NormalizeSignal | supabase/functions/analyze-chart/index.ts:129-131 | the result is the wire spelling of some signal; a valid one is kept, anything else becomes NEUTRO |
| AnalyzeChart.NormalizeConfidence | supabase/functions/analyze-chart/index.ts:133-135 | the result is a number in [0, 100]; an in-range number is kept, anything else becomes 50 |
| AnalyzeChart.StampCandle | supabase/functions/analyze-chart/index.ts:140-146 | throws exactly on a null or undefined candle |
| AnalyzeChart.StampTime | supabase/functions/analyze-chart/index.ts:141 | `now - (length - 1 - index) * 60`; StampTimesEndAtNow states its meaning |
| AnalyzeChart.StampCandles | supabase/functions/analyze-chart/index.ts:138-146 | one stamped candle per item in order, failing exactly when an item is null or undefined |
| AnalyzeChart.StampTimesEndAtNow | supabase/functions/analyze-chart/index.ts:141 | the last candle is stamped now and the times step by 60 |
| AnalyzeChart.StampedFields | supabase/functions/analyze-chart/index.ts:141-145 | truthy price fields are kept; falsy ones become 0; time is the given stamp |
| AnalyzeChart.Normalized | supabase/functions/analyze-chart/index.ts:129-149 | the three normalisation steps; fails exactly when an array chartData holds a null or undefined candle |
| AnalyzeChart.NormalizedShape | supabase/functions/analyze-chart/index.ts:129-149 | valid signal and confidence (kept when valid); an array chartData keeps its length; a non-array one becomes empty; other properties unchanged |
| AnalyzeChart.ParsedReply.constructor | supabase/functions/analyze-chart/index.ts:126 | the reply holds the parsed object |
| AnalyzeChart.ParsedReply.Normalize | supabase/functions/analyze-chart/index.ts:129-149 | the in-place assignments yield the normalised reply, failing exactly when the candle map throws |
| AnalyzeChart.Serve | supabase/functions/analyze-chart/index.ts:13-165 | every guard error with CheckRequest's message (TypeError, no image, no API key), 'Invalid response format from AI' without a JSON block, success exactly when guard, extraction, parse and normalisation succeed |
| ChartAnalyzer.StartsWith | src/components/features/ChartAnalyzer.tsx:34 | `s.startsWith(prefix)`: s begins with prefix |
| ChartAnalyzer.ValidateUpload | src/components/features/ChartAnalyzer.tsx:30-51 | no file, a non-image (checked before the size), an image over 10 MiB, each rejected; the rest accepted |
| ChartAnalyzer.SizeLimitIsInclusive | src/components/features/ChartAnalyzer.tsx:44-51 | exactly 10 MiB is accepted, one byte more is not |
| ChartAnalyzer.EntryFor | src/components/features/ChartAnalyzer.tsx:107-112 | the entry carries the id and the result's signal, confidence and timestamp |
| ChartAnalyzer.Prepended | src/components/features/ChartAnalyzer.tsx:107-113 | the new entry first, then the previous entries in order, length min(old+1, 50) |
| ChartAnalyzer.PrependedKeepsOrder | src/components/features/ChartAnalyzer.tsx:105-116 | saving a result no older than the newest keeps the history newest first and within 50 |
| ChartAnalyzer.SignalHistory.constructor | src/components/features/ChartAnalyzer.tsx:106 | an absent stored history is the empty list |
| ChartAnalyzer.SignalHistory.SaveToHistory | src/components/features/ChartAnalyzer.tsx:105-116 | the history becomes the prepended and truncated list |

## Left out

- Rendering, styling and the indicator cards' display strings (the `toFixed` values and descriptions in `TechnicalIndicators.tsx`) are left out: they are UI with no logic of their own.
- Screen capture, `FileReader`, the Supabase invoke, the AI gateway `fetch` with its prompt and error branches, and CORS handling are left out: they are browser and network I/O. The AI's reply text is a parameter of `AnalyzeChart.Serve`.
- `localStorage` and the `storage` event are left out: they are persistence. The history is an in-memory field, and `crypto.randomUUID()` is a parameter.
- Timers are left out as scheduling concerns: `startRealtime`/`stopRealtime`, auto mode and the dashboard counters.
- Floating point is not modelled: NaN, infinities, signed zero, and the double-precision result of `toFixed`. Prices are reals and `Round5` rounds exactly.
- Indicators.CalculateBollingerBands: `Math.sqrt` is a parameter. The ordering lemma assumes only a non-negative root, and the collapse lemma assumes only `sqrt(0) == 0`.
- Indicators.CalculateRsi: `period >= 1` is required, as it is for the EMA, MACD, SMA and Bollinger functions. A zero or non-integer period would divide by zero or slice fractionally in JavaScript.
- MockData.MarketFeed.GenerateNextCandle: a non-empty buffer is required. On an empty buffer the source reads a property of `undefined` and throws.
- MockData.MarketFeed.GenerateInitialData: a non-integer `count` is not modelled. A count above 100 is kept whole, as in the source, because only `generateNextCandle` evicts.
- MockData.MarketFeed.GenerateInitialData: the source returns the live `this.data` array, so a later `generateNextCandle` push or shift changes what the caller holds. The model returns a value, so this aliasing is not captured (`getData` returns a copy in the source, which the value model matches).
- The `console.log` and `console.error` calls in `index.ts` are left out: they are logging with no effect on the response.
- AnalyzeChart.Serve: the messages of a thrown `TypeError` and of a `SyntaxError` from `JSON.parse` are stand-in strings. The reply text stands for `data.choices?.[0]?.message?.content || ''`.
