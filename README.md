# IWDA buy-signal indicators in Dafny

This project models the indicator pipeline of `iwda_signals.py`, a script that computes buy
signals for the IWDA exchange-traded fund. The script takes the daily closing prices of the
ETF. From them it derives, row by row:

- a 14-day simple-moving-average RSI, where a zero average loss becomes a missing value;
- 20-day Bollinger bands at two sample standard deviations;
- the running peak of the price and the drawdown from that peak;
- a buy flag, which is the AND of three comparisons.

It then reports the last ten flagged rows. Before any of this, it rejects an empty download.

The model works on Dafny `real`s. Every indicator value is an `Option<real>`, and `None`
stands for a pandas missing value (NaN or `pd.NA`). All operations are pure functions, as in
the source, which computes whole columns with no explicit loops. Differences, clipping,
rolling means, `cummax`, the flag, `loc` and `tail` are each written once and reused.

Modules, one per section of the script:

- `Wrappers`: `Option` and `Result`.
- `Config`: the script's constants: 14, 20, 2, -0.20, the RSI level 30 and the tail length 10.
- `Arith`: two sign facts about real products.
- `Rolling`: `rolling(window, min_periods).mean()`. It is defined as pandas defines it: the
  mean of the present entries of the trailing window, or missing when fewer than
  `min_periods` entries are present.
- `RsiIndicator`: `diff`, `clip`, the two averages, and the RSI with its zero-denominator
  rule.
- `Bollinger`: the moving average, the sample standard deviation and the bands. The square
  root is a parameter `sqrt: real -> real`. The lemmas assume it is exact (`IsSqrt`).
- `DrawdownIndicator`: `cummax` and the drawdown.
- `Signals`: the per-row table (`Frame`), the buy flag, `loc` followed by `tail(10)`,
  `dropna`, and the empty-download guard (`Run`).
- `Examples`: a sixteen-price falling series.

Where each source line lives (the property is stated by the members in the table below):

- line 31 `dropna`: `Signals.DropNa`;
- line 36: `RsiIndicator.Diff`;
- lines 37-38: `Gain` and `Loss`, built from `ClipLower`, `ClipUpper` and `Negate`;
- lines 40-41: `AvgGain` and `AvgLoss`, built on `Rolling.RollingMean`;
- lines 44-45: `RsiAt` and `RsiValue`; line 46: `Rsi`;
- line 51: `Bollinger.Sma`; line 52: `Std` and `RollingStd`; lines 53-54: `Upper` and `Lower`;
- line 59: `DrawdownIndicator.CumMax`; line 60: `Drawdown`;
- lines 65-69: `Signals.BuyCondition`, with missing-aware comparison `LessThan`;
- the table assembled over lines 30-65: `Signals.Frame`;
- line 107: `Loc`, `Tail` and `Signals`;
- lines 25-27 and the whole run: `Run`.

Two consequences of the code's order of operations:

- RSI is missing on rows 0 to 13. `diff()` leaves row 0 missing, and `min_periods=14` then
  needs rows 1 to 14.
- The emptiness guard runs on the raw download only, before `dropna`. So a download whose
  prices are all missing gives an empty report (`Signals.AllMissingDownloadYieldsNoSignals`).

## Model

| member | source | states |
|---|---|---|
| `Rolling.CountDefined` | iwda_signals.py:40-41 | The count of present entries in a window is at most its length, and equals it exactly when no entry is missing. This is the test `min_periods` applies. |
| `Rolling.RollingMean` | iwda_signals.py:40-41 | A rolling mean of a non-negative column is non-negative wherever it is present. |
| `Rolling.RollingMeanFullWindow` | iwda_signals.py:40-41 | With `min_periods` equal to the window, the mean at row t is present iff the window is full and none of its entries is missing. It is then the window's sum divided by the width. |
| `Rolling.SumDefinedZero` | iwda_signals.py:40-41 | A sum of non-negative entries is zero iff every present entry is zero. |
| `Rolling.SumDefinedAtLeast` | iwda_signals.py:40-41 | A sum of non-negative entries is at least each of its entries. |
| `Rolling.SumConstant` | iwda_signals.py:51 | A window of n equal prices c sums to n·c. |
| `Rolling.SumDefinedLift` | iwda_signals.py:51 | A price column with no missing entries sums like the plain prices. |
| `RsiIndicator.ClipLower` | iwda_signals.py:37 | `clip(lower)` keeps missing entries missing. A present x becomes max(x, lo): the result is at least both x and lo, and equals one of them. |
| `RsiIndicator.ClipUpper` | iwda_signals.py:38 | `clip(upper)` keeps missing entries missing. A present x becomes min(x, hi): the result is at most both x and hi, and equals one of them. |
| `RsiIndicator.Gain` | iwda_signals.py:37 | Every present gain is non-negative. |
| `RsiIndicator.Loss` | iwda_signals.py:38 | Every present loss is non-negative. |
| `RsiIndicator.AvgGain` | iwda_signals.py:40 | Every present average gain is non-negative. |
| `RsiIndicator.AvgLoss` | iwda_signals.py:41 | Every present average loss is non-negative. |
| `RsiIndicator.GainLossSplit` | iwda_signals.py:36-38 | At row 0 the delta, gain and loss are missing. From row 1 on, gain and loss are present and non-negative, at most one is non-zero, and gain minus loss is the price change. |
| `RsiIndicator.GainAt` | iwda_signals.py:36-37 | From row 1 on, the gain is the rise in price, or 0 when the price did not rise. |
| `RsiIndicator.LossAt` | iwda_signals.py:36-38 | From row 1 on, the loss is the fall in price, or 0 when the price did not fall. |
| `RsiIndicator.AveragesUndefinedBefore` | iwda_signals.py:36-41 | Average gain and average loss are missing on rows 0 to 13, including row 13, because of the missing delta at row 0. |
| `RsiIndicator.AveragesDefinedFrom` | iwda_signals.py:36-41 | Average gain and average loss are present from row 14 on. |
| `RsiIndicator.RsiUndefinedBefore` | iwda_signals.py:36-46 | The RSI is missing on every row before row 14. |
| `RsiIndicator.ShortSeriesHasNoRsi` | iwda_signals.py:36-46 | A series of at most 14 prices has no RSI value at all. |
| `RsiIndicator.LossWindowZeroIff` | iwda_signals.py:38 | The losses of a window are all zero iff the price did not fall inside it. |
| `RsiIndicator.AvgLossZeroIff` | iwda_signals.py:38-41 | From row 14 on, the average loss is zero iff the price did not fall on any day of the trailing 14-row window. |
| `RsiIndicator.RsiDefinedIff` | iwda_signals.py:43-45 | From row 14 on, the RSI is present iff the average loss is non-zero. Equivalently, iff the price fell on some day of the window. A zero average loss gives a missing RSI, not 100. |
| `RsiIndicator.RsiValue` | iwda_signals.py:45 | For avg gain g ≥ 0 and avg loss l > 0, `100 - 100/(1 + g/l)` satisfies r·(g + l) = 100·g. It lies in [0, 100) and is 0 when g = 0. |
| `RsiIndicator.RsiValueAt` | iwda_signals.py:43-46 | Where the RSI is present, the row is at least 14, the average loss is positive, and the RSI is 100·g/(g+l), in [0, 100). |
| `RsiIndicator.RsiOversoldIff` | iwda_signals.py:45 | RSI < 30 iff 7·avg_gain < 3·avg_loss. |
| `RsiIndicator.RsiOversoldAt` | iwda_signals.py:43-46 | On a row where the RSI is present, it is below 30 iff 7·avg_gain < 3·avg_loss. |
| `Bollinger.SquaredDeviations` | iwda_signals.py:52 | A sum of squared deviations is non-negative. |
| `Bollinger.SquaredDeviationsConstant` | iwda_signals.py:52 | A constant window has zero squared deviation from its value. |
| `Bollinger.SampleVariance` | iwda_signals.py:52 | The ddof=1 sample variance is non-negative. |
| `Bollinger.AddScaled` | iwda_signals.py:53-54 | `SMA ± k·std` is present iff both operands are present. |
| `Bollinger.BandsAt` | iwda_signals.py:51-54 | SMA, BB_Upper and BB_Lower are missing before row 19 and present from row 19 on. There SMA is the mean of the 20 trailing prices and the bands are mean ± 2·sqrt(sample variance). |
| `Bollinger.ShortSeriesHasNoBands` | iwda_signals.py:51-54 | A series of fewer than 20 prices has no SMA and no bands. |
| `Bollinger.BandsOrdered` | iwda_signals.py:53-54 | Where present, BB_Lower ≤ SMA ≤ BB_Upper. |
| `Bollinger.ConstantWindowBands` | iwda_signals.py:51-54 | On a window of 20 equal prices, SMA, BB_Upper and BB_Lower all equal that price. |
| `Bollinger.BelowLowerIff` | iwda_signals.py:54 | The square-root-free band test: price < BB_Lower iff SMA − price > 0 and (SMA − price)² > 4·variance. |
| `Bollinger.GapExceedsTwice` | iwda_signals.py:54 | For s ≥ 0, g > 2s iff g > 0 and g² > 4s². |
| `DrawdownIndicator.PrefixMax` | iwda_signals.py:59 | The fold is an element of the prefix and no element exceeds it. |
| `DrawdownIndicator.CumMaxIsPeak` | iwda_signals.py:59 | Rolling_Max(t) is the maximum of the prices on rows 0..t: some such row reaches it and none exceeds it. |
| `DrawdownIndicator.CumMaxMonotone` | iwda_signals.py:59 | Rolling_Max never decreases and is never below the current price. |
| `DrawdownIndicator.CumMaxPositive` | iwda_signals.py:59 | With positive prices, Rolling_Max is positive. |
| `DrawdownIndicator.DrawdownBounds` | iwda_signals.py:60 | With positive prices, Drawdown lies in (−1, 0]. It is 0 exactly when the price equals Rolling_Max. |
| `DrawdownIndicator.DrawdownBelow` | iwda_signals.py:60 | Drawdown < th iff price < (1 + th)·Rolling_Max. |
| `DrawdownIndicator.NonDecreasingHasNoDrawdown` | iwda_signals.py:59-60 | On a price series that never falls, Rolling_Max equals the price and Drawdown is 0 on every row. |
| `Signals.BuySignalIff` | iwda_signals.py:65-69 | Each table row carries the computed columns. Its flag is 0 or 1. It is 1 iff RSI is present and < 30, BB_Lower is present and > price, and Drawdown < −0.20. So a missing RSI or BB_Lower gives 0. |
| `Signals.BuySignalNeeds` | iwda_signals.py:36-69 | A flagged row is at row 19 or later. The price fell on some day of its RSI window. The price is below 0.8 times Rolling_Max. |
| `Signals.ConstantWindowHasNoBuy` | iwda_signals.py:51-69 | If the 20 trailing prices are equal, the row is not flagged, whatever its RSI and drawdown. |
| `Signals.NonDecreasingHasNoBuy` | iwda_signals.py:59-69 | On a price series that never falls, no row is flagged. |
| `Signals.BuySignalWithoutSqrt` | iwda_signals.py:52-69 | With an exact square root, the flag is 1 iff RSI < 30, the squared gap below the SMA exceeds 4·variance (with a positive gap), and Drawdown < −0.20. |
| `Signals.Tail` | iwda_signals.py:107 | `tail(n)` returns min(n, length) rows and is a suffix of its input. |
| `Signals.LocSound` | iwda_signals.py:107 | Every row `loc` selects is the Price/RSI/BB_Lower/Drawdown projection of a row whose flag is 1. |
| `Signals.LocComplete` | iwda_signals.py:107 | Every row whose flag is 1 is selected by `loc`. |
| `Signals.LocDatesFrom` | iwda_signals.py:107 | No selected row is dated before the table's first row. |
| `Signals.LocOrdered` | iwda_signals.py:107 | `loc` keeps the table's date order. |
| `Signals.LocLength` | iwda_signals.py:107 | `loc` selects exactly as many rows as are flagged. |
| `Signals.TailKeepsLatest` | iwda_signals.py:107 | The tail of date-ordered rows is date-ordered and consists of the input's last rows. Every input row dated after one of its rows is in it. |
| `Signals.SignalsSound` | iwda_signals.py:106-107 | Every extracted signal is the projection of a flagged row. |
| `Signals.SignalsKeepLater` | iwda_signals.py:106-107 | A flagged row dated after an extracted signal is extracted too. |
| `Signals.SignalsAreLatestBuys` | iwda_signals.py:106-107 | The extracted signals are the last min(10, k) of the k flagged rows: each is a flagged row's projection, they are in date order, and no later flagged row is left out. |
| `Signals.NoBuysCountZero` | iwda_signals.py:65-69 | A table with no flagged row counts zero flags. |
| `Signals.NoBuysNoSignals` | iwda_signals.py:107 | A table with no flagged row yields no signals. |
| `Signals.ShortSeriesHasNoSignals` | iwda_signals.py:51-107 | Fewer than 20 prices yield no signals. |
| `Signals.NonDecreasingHasNoSignals` | iwda_signals.py:59-107 | A price series that never falls yields no signals. |
| `Signals.DropNa` | iwda_signals.py:31 | `dropna` keeps positivity: if every present downloaded price is positive, so is every kept price. |
| `Signals.DropNaSound` | iwda_signals.py:31 | Every kept row is a downloaded row with a price. |
| `Signals.DropNaComplete` | iwda_signals.py:31 | Every downloaded row with a price is kept. |
| `Signals.DropNaOrdered` | iwda_signals.py:31 | `dropna` keeps the download's date order. |
| `Signals.Run` | iwda_signals.py:25-27 | The run fails, with the no-data error, iff the download has no rows. The guard runs before `dropna` and before any indicator. |
| `Signals.AllMissingDownloadYieldsNoSignals` | iwda_signals.py:26-31 | A non-empty download whose prices are all missing passes the guard and gives an empty report. |
| `Signals.RunReportsLatestBuys` | iwda_signals.py:25-107 | On a non-empty download with increasing dates, the run succeeds. It reports the signals of a date-ordered table built from the rows that have a price. |
| `Examples.DecliningShapeRsi` | iwda_signals.py:36-46 | On a 16-price series that rises by 2 on row 1, falls by 5 on row 5 and never rises after row 1, RSI is missing on rows 0 to 13. It is present and below 30 on rows 14 and 15. |
| `Examples.DecliningRsi` | iwda_signals.py:36-46 | The same for the series 100, 102, 101, 99, 95, …, 45, 40. |

## Left out

- The yfinance download (line 25) is left out, as is the choice between the "Adj Close" and
  "Close" columns (lines 29-30). These are network and DataFrame plumbing. The model takes
  the downloaded rows as `RawQuote(date, price)` with a possibly missing price.
- Directory creation and output paths (lines 17-20) are filesystem side effects.
- Plotting and saving the chart (lines 74-101) are presentational I/O.
- Printing and CSV export (lines 109-114) are I/O. Only the row selection of line 107 is
  modelled.
- The model does not track IEEE-754 rounding, including the residue of pandas' online
  rolling sums that can make an "all-zero" average loss differ from 0. It uses exact reals.
- `sqrt` in the rolling standard deviation is a parameter. The band lemmas assume it is the
  exact square root (`IsSqrt`). `IsSqrt` also states `sqrt(0) = 0` outright: the rest
  implies it, but the solver does not derive it.
- pandas dtype differences between `pd.NA` and NaN (line 44) are collapsed into `None`. So is
  the Kleene logic of `&` on `pd.NA`: every comparison with a missing operand is false.
- Prices are assumed positive: `Drawdown`, `Frame` and `Run` require it. With a zero running
  peak, pandas would produce NaN or infinities, and these are not modelled.
- `Bollinger.RollingStd`: modelled only on the price column, which has no missing entries
  after `dropna`. Its count of observations is therefore the window length. The missing-entry
  counting of pandas' `std` is not modelled.
- Dates are day numbers (`int`). The ordering lemmas assume they strictly increase, as a
  date index does.
- `DataFrame.empty` is also true for a frame with rows but no columns. Such a download is not
  modelled, because every raw row carries a price column.
- Determinism and idempotence get no lemma: every member is a Dafny function, so equal
  inputs give equal outputs.
