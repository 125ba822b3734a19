# Stock dashboard indicator engine, modelled in Dafny

This project models the technical-indicator engine of a stock-market dashboard. The engine turns one instrument's ordered daily OHLCV bars (`t, o, h, l, c, v`) into these figures:

- the 20- and 50-bar simple moving averages;
- the 14-bar relative strength index;
- the 12/26 MACD line, which is the difference of two exponential moving averages;
- the volatility of the closes;
- support and resistance levels;
- a BUY / SELL / HOLD trend signal;
- the per-symbol summary the `/api/stocks/all` route returns.

The two dashboard panels are also modelled:

- the technical-indicator panel, with its RSI and MACD badges;
- the performance-metrics panel, with its risk badge, volatility bar and null-aware formatting.

Modules:

- `Series`: sums, extrema and the range facts the indicator proofs use, all over `seq<real>`.
- `Optional` and `Bars`: the optional value type and the `Bar` record with its per-field projections.
- `Indicators`: one specification of each indicator, as functions, with the lemmas about them.
- `StocksRoute`: the route's helpers. The RSI and EMA loops are methods with loop invariants, proved equal to the `Indicators` functions. `FetchStockData` covers everything that happens after the bars have arrived.
- `TechnicalIndicators`: the panel's own copies of the RSI loop, the inner `ema` closure and MACD, proved equal to the same functions. It also holds the `current` price, the RSI and MACD badges, and every reading the panel shows.
- `PerformanceMetrics`: the risk level, the progress value, `formatPercent` / `formatNumber`, the return colour and trend icon, and the dividend condition.

Prices are Dafny `real`s and volumes are `nat`s. A missing value (`undefined` or `null`) is `Option.None`.

Two edge cases of the code, as modelled:

- **RSI range.** A window in which no close rose gives exactly 0, so a computed RSI lies in [0, 100) (`Indicators.RsiZeroIffNoRise`).
- **Volatility of an empty series.** `calculateVolatility` divides by zero on an empty series. The route throws on an empty bar list first, so `Indicators.Variance` requires a non-empty series.

## Model

| member | source | states |
|---|---|---|
| Indicators.Sma | app/api/stocks/all/route.ts:33-37 | with fewer than `period` bars the result is the sentinel 0; otherwise `period` times the result is the sum of the last `period` closes |
| Indicators.SmaWithinWindow | app/api/stocks/all/route.ts:33-37 | a computed SMA lies between the lowest and highest close of its window |
| Indicators.SmaOfFlatWindow | components/technical-indicators.tsx:21-25 | when the last `period` closes are all one price, the SMA is that price |
| Indicators.Gains | app/api/stocks/all/route.ts:43-46 | the accumulated gains are never negative |
| Indicators.Losses | app/api/stocks/all/route.ts:43-46 | the accumulated losses are never negative |
| Indicators.RsiOf | app/api/stocks/all/route.ts:48-49 | with the `losses || 1` guard the index is in [0, 100), and it is 0 exactly when nothing was gained |
| Indicators.Rsi | app/api/stocks/all/route.ts:39-50 | at most `period` bars give the sentinel 50; otherwise the index is in [0, 100) |
| Indicators.GainsZeroIff | app/api/stocks/all/route.ts:43-46 | the gains are 0 exactly when no close-to-close change in the window is positive |
| Indicators.RsiZeroIffNoRise | app/api/stocks/all/route.ts:39-50 | a computed RSI is 0 exactly when no close in the window rose |
| Indicators.Alpha | app/api/stocks/all/route.ts:53 | the smoothing factor `2 / (period + 1)` is in (0, 1] |
| Indicators.EmaWithin | app/api/stocks/all/route.ts:52-59 | with at least `period` values, the EMA stays inside any interval that holds every value |
| Indicators.EmaBetweenExtremes | app/api/stocks/all/route.ts:52-59 | the EMA lies between the smallest and the largest value |
| Indicators.EmaOfFlat | app/api/stocks/all/route.ts:52-59 | the EMA of constant data is that constant |
| Indicators.Macd | app/api/stocks/all/route.ts:61-65 | fewer than `slow` bars give the sentinel 0 |
| Indicators.MacdWithinRange | app/api/stocks/all/route.ts:61-65 | when fast <= slow, the MACD line is never larger in size than the price range of the closes |
| Indicators.MacdOfFlat | components/technical-indicators.tsx:40-54 | constant closes give a MACD line of 0 |
| Indicators.SquaredDeviations | app/api/stocks/all/route.ts:70 | the sum of squared deviations is never negative |
| Indicators.Variance | app/api/stocks/all/route.ts:67-72 | the population variance of the closes is never negative |
| Indicators.SquaredDeviationsZeroIff | app/api/stocks/all/route.ts:70 | the squared deviations sum to 0 exactly when every value equals the mean |
| Indicators.VarianceZeroIffFlat | app/api/stocks/all/route.ts:67-72 | the variance is 0 exactly when all closes are equal |
| Indicators.VolatilityUnique | app/api/stocks/all/route.ts:71 | there is only one non-negative root of the variance, so the reported volatility is determined |
| Indicators.VolatilityZeroIffFlat | app/api/stocks/all/route.ts:67-72 | the volatility is 0 exactly when all closes are equal |
| Indicators.SignalOf | app/api/stocks/all/route.ts:96 | BUY exactly when the last close is above the first, SELL exactly when below, HOLD exactly when equal; a single bar is always HOLD |
| Indicators.Support | app/api/stocks/all/route.ts:103 | support is at most every low and is some bar's low |
| Indicators.Resistance | app/api/stocks/all/route.ts:104 | resistance is at least every high and is some bar's high |
| Indicators.TotalVolumeAppend | app/api/stocks/all/route.ts:122 | the volume total over two consecutive stretches of bars is the sum of their totals |
| Indicators.LatestVolumeAtMostTotal | app/api/stocks/all/route.ts:118-122 | the latest bar's volume never exceeds the total volume |
| Indicators.AveragePriceBetween | app/api/stocks/all/route.ts:119-121 | `low30 <= avgPrice <= high30` |
| Indicators.LevelsBracketCloses | app/api/stocks/all/route.ts:103-104 | when every close lies within its bar's low..high range, support is at most the lowest close and resistance at least the highest |
| StocksRoute.CalculateRsi | app/api/stocks/all/route.ts:39-50 | the gains/losses loop computes `Indicators.Rsi`: 50 for at most `period` bars, otherwise a value in [0, 100) |
| StocksRoute.CalculateEma | app/api/stocks/all/route.ts:52-59 | the seed-and-fold loop computes `Indicators.Ema` |
| StocksRoute.CalculateMacd | app/api/stocks/all/route.ts:61-65 | computes `Indicators.Macd` |
| StocksRoute.ChangePercent | app/api/stocks/all/route.ts:117 | for a non-zero open, the result times the open is 100 times the day's change; with a zero open there is no value |
| StocksRoute.FetchStockData | app/api/stocks/all/route.ts:90-136 | an empty bar list fails with "No bars returned" for the symbol. Otherwise the summary holds the latest bar's price, volume and change, the start and end dates, the signal, the highest and lowest close, `avgPrice` as the mean close with `low30 <= avgPrice <= high30`, the volume total (at least the latest volume), the variance, SMA, RSI and MACD, and support and resistance. On well-formed bars support is at most `low30` and resistance at least `high30` |
| TechnicalIndicators.CalculateRsi | components/technical-indicators.tsx:27-38 | the panel's RSI loop computes the same `Indicators.Rsi` as the route's |
| TechnicalIndicators.Ema | components/technical-indicators.tsx:42-49 | the inner `ema` closure's loop reads only from index `period` on and computes `Indicators.Ema` |
| TechnicalIndicators.CalculateMacd | components/technical-indicators.tsx:40-54 | the panel's MACD computes the same `Indicators.Macd` as the route's |
| TechnicalIndicators.Current | components/technical-indicators.tsx:64 | the last close, or 0 with no bars |
| TechnicalIndicators.CurrentBetweenLevels | components/technical-indicators.tsx:62-64 | on non-empty bars whose closes lie within their low..high range, support <= current <= resistance |
| TechnicalIndicators.GetRsiStatus | components/technical-indicators.tsx:66-70 | Overbought exactly when above 70, Oversold exactly when below 30, Neutral exactly on [30, 70], so exactly one label applies |
| TechnicalIndicators.GetMacdStatus | components/technical-indicators.tsx:72-76 | Bullish exactly when above 0.5, Bearish exactly when below -0.5, Neutral exactly on [-0.5, 0.5] |
| TechnicalIndicators.ComputeReadings | components/technical-indicators.tsx:56-79 | every reading is the shared indicator definition. Support and resistance exist exactly when there are bars and bracket the current price on well-formed bars. `sma20` is 0 below 20 bars and `sma50` below 50. With at most 14 bars the RSI badge is Neutral (the sentinel 50), and below 26 bars the MACD badge is Neutral (the sentinel 0) |
| PerformanceMetrics.GetRiskLevel | components/performance-metrics.tsx:28-33 | Unknown exactly when the volatility is missing; High exactly above 30; Medium exactly on (20, 30]; Low exactly at or below 20 |
| PerformanceMetrics.RiskMonotone | components/performance-metrics.tsx:28-33 | a larger defined volatility never gives a lower risk level |
| PerformanceMetrics.ProgressValue | components/performance-metrics.tsx:92 | 0 for a missing volatility; never above 100; 100 exactly when the volatility is at least 50; twice the volatility up to 50 |
| PerformanceMetrics.ProgressMonotone | components/performance-metrics.tsx:92 | for defined volatilities the bar is monotone, because the zero test agrees with `min(v, 50) * 2` |
| PerformanceMetrics.ProgressMatchesRisk | components/performance-metrics.tsx:92 | the badge reads High exactly when the bar is past 60, Medium exactly on (40, 60], and Low exactly at or below 40 |
| PerformanceMetrics.FormatPercent | components/performance-metrics.tsx:38-39 | "N/A" exactly for a missing value; otherwise the value with two decimals, a "%" suffix, and a "+" exactly when the value is not negative |
| PerformanceMetrics.FormatNumber | components/performance-metrics.tsx:41-42 | "N/A" exactly for a missing value; otherwise the value with `decimals` places, never signed, never a percentage |
| PerformanceMetrics.FormattersAgreeOnMissing | components/performance-metrics.tsx:38-42 | both helpers show "N/A" for exactly the same inputs and otherwise show the same value |
| PerformanceMetrics.ColorOf | components/performance-metrics.tsx:61 | the gain colour exactly for a defined, non-negative return |
| PerformanceMetrics.TrendIcon | components/performance-metrics.tsx:64-68 | no icon for a missing or zero return; up exactly when positive; down exactly when negative |
| PerformanceMetrics.IconAgreesWithFigure | components/performance-metrics.tsx:61-68 | a shown icon points up exactly when the figure has the gain colour and exactly when it carries a "+" |
| PerformanceMetrics.ShowDividend | components/performance-metrics.tsx:137 | the dividend card is shown exactly for a defined, positive yield |
| PerformanceMetrics.ShownDividendIsSigned | components/performance-metrics.tsx:137-145 | a shown dividend yield is always formatted with a "+" |

`calculateSMA` in components/technical-indicators.tsx:21-25 is the same expression as the route's and is modelled by the same `Indicators.Sma`. The panel's loops are separate methods because the component carries its own copies of them.

## Left out

- Network and runtime plumbing of the route: the HTTP request for bars, the API-key environment check, the `Date`-based start and end dates, `Promise.all` over the symbol list, `NextResponse`, and logging. `FetchStockData` takes the bars the request would return as a parameter. Its error path models only the "No bars returned" error. Any other thrown error has a message the model cannot see.
- The `STOCK_INFO` lookup (name, sector, market cap, P/E) and the constant placeholders `beta`, `dividendYield` and `roe`. They are constant data with no logic to state.
- `latestPrice` and `latestVolume` are not separate fields of `StocksRoute.StockSummary`. They duplicate `price` and `volume`.
- StocksRoute.FetchStockData: reports the variance rather than `volatility`, because Dafny reals have no square root. `Indicators.IsVolatility` states what the volatility is: the non-negative number whose square is the variance. `VolatilityUnique` and `VolatilityZeroIffFlat` are proved about it.
- Floating point: rounding, NaN and infinities, and `toFixed` digit strings. Prices are exact reals. `Formatted` records the sign prefix, value, number of decimals and percent suffix, but not the digits.
- StocksRoute.ChangePercent: the source divides by the open unguarded. A zero open, which gives a non-finite number there, is `None` here.
- TechnicalIndicators.ComputeReadings: `Math.min` / `Math.max` over no bars (±Infinity in the source) are `None`.
- Indicators.Sma, Indicators.Macd, StocksRoute.CalculateEma and TechnicalIndicators.Ema require periods greater than 0, because the source divides by the period. Every caller passes the defaults 20, 50, 12 and 26.
- `undefined` and `null` are not distinguished; both are `None`, which is how `!= null` and the truthiness test of the progress value treat them.
- PerformanceMetrics.GetRiskLevel: the source tests `volatility === undefined`, so a `null` volatility would fall through to Low there, while `None` gives Unknown here. The prop's type (`Partial<{ volatility: number }>`) admits `undefined` but not `null`, so the model treats a missing volatility as `undefined`.
- The badges' colour and icon names, and all markup. The status labels are modelled; the remaining fields of each badge follow from the label.
- How `app/page.tsx` wires the panels. The mock-data generators, `app/api/stocks/route.ts`, the chart history generator and the layout are not part of this model.
- Weekly and monthly bar aggregation is not part of this model. None of the modelled files contains it.
