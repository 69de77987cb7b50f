# Signal scorer of the Fthlabz trader dashboard

This project models the decision logic of the Streamlit dashboard in `app.py`.
The dashboard downloads a year of daily bars for a ticker and computes a set of indicators with pandas_ta.
It then reduces the last row to a composite score and a signal label.

The model covers:

- the **minimum-history guard**: a missing download, or one with fewer than 50 bars, yields no frame and the message "Veri yetersiz.";
- the **SAR merge**: each row's SAR is the first non-NaN value across the PSAR output columns, in column order, or the close when there is no PSAR column;
- the **frame** of named columns that the analysis extends in place (class `History.Frame`);
- the **scorer**: a trend term of +25, 0 or −25, then SAR, DMI and WaveTrend terms of exactly ±25 each, accumulated into one integer score;
- the **label rules**: "NÖTR" is overwritten by threshold tests at 50, 75, −50 and −75;
- the **display classifiers**: the strength `|score|`, the trend label "YUKARI"/"AŞAĞI" and the ADX label "Güçlü"/"Zayıf".

Floating-point indicator values are modelled as `Option<real>`, with `None` standing for NaN.
Python's `>` and `<` are false as soon as one side is NaN, so `Signal.Above` and `Signal.Below` require both sides to be present.
The model never does floating-point arithmetic: the scorer only compares values.

The composite score has a reference definition, `Signal.Score`: 25 times the number of bullish votes minus the number of bearish votes.
The trend casts a bullish vote, a bearish vote or none.
The SAR, DMI and WaveTrend readings each cast one vote, bearish whenever not bullish.
`Signal.ComputeScore` is the accumulator as the dashboard writes it, proved equal to that definition.
`Signal.Status` is the sequence of overwriting threshold tests, proved equal to the band definition `Signal.Classify`.

With a split trend the trend term is 0, so three bullish readings already score 75, which app.py:113 labels strong buy (`Signal.StrongBuyWithSplitTrend`).
`Signal.LabelByVotes` gives every label in vote counts.

## Model

| member | source | states |
|---|---|---|
| `Signal.Above` | app.py:94 | Python's float `>`: true only when both values are present and the first is larger |
| `Signal.Below` | app.py:95 | Python's float `<`: true only when both values are present and the first is smaller |
| `Signal.BullTrend` | app.py:94 | `bull_trend`: close above ZLSMA and above SMA21 |
| `Signal.BearTrend` | app.py:95 | `bear_trend`: close below ZLSMA and below SMA21 |
| `Signal.SarBull` | app.py:98 | the SAR comparison: close above SAR |
| `Signal.DmiBull` | app.py:100 | the DMI comparison: +DI above −DI |
| `Signal.WaveBull` | app.py:102 | the WaveTrend comparison: WT1 above WT2 |
| `Signal.Classify` | app.py:111-115 | reference definition of the label rules as disjoint score bands |
| `Signal.StatusText` | app.py:111-115 | the five literal texts shown for the labels |
| `History.Select` | app.py:53 | `df[psar_cols]`: the named columns in the order named, each the frame's column of that name |
| `History.Row` | app.py:53 | one row across the selected columns, in column order, holding each column's entry at that row |
| `Signal.BullCount` | app.py:94-103 | at most four readings vote bullish: trend, SAR, DMI, WaveTrend |
| `Signal.BearCount` | app.py:95-103 | at most four readings vote bearish; SAR, DMI and WaveTrend vote bearish whenever they are not bullish |
| `Signal.Score` | app.py:93-103 | the score is a multiple of 25 within [−100, 100], one of nine values, and an odd multiple of 25 exactly when the trend is neutral |
| `Signal.TrendTerm` | app.py:94-97 | the trend term is +25 exactly on a bull trend, −25 exactly on a bear trend, and 0 exactly when neither holds |
| `Signal.Vote` | app.py:98-103 | each SAR, DMI and WaveTrend term is exactly +25 or −25, positive exactly when the comparison is true |
| `Signal.ComputeScore` | app.py:93-103 | the accumulated score equals the vote-count score, and equals the trend term plus the three ±25 terms |
| `Signal.Status` | app.py:111-115 | the overwriting threshold tests give strong buy exactly for score ≥ 75, buy for 50 ≤ score < 75, sell for −75 < score ≤ −50, strong sell for score ≤ −75, neutral otherwise |
| `Signal.StatusTextDistinct` | app.py:111-115 | the five label texts are pairwise different |
| `Signal.Strength` | app.py:117 | the displayed strength is the magnitude of the score |
| `Signal.TrendText` | app.py:118 | the trend label is "YUKARI" exactly on a bull trend and "AŞAĞI" otherwise |
| `Signal.AdxText` | app.py:119 | the ADX label is "Güçlü" exactly when ADX is present and above 20, "Zayıf" otherwise |
| `Signal.Evaluate` | app.py:93-119 | the dashboard's metrics for one reading: score, label of that score, strength equal to the magnitude of the score, in [0, 100] as a multiple of 25, reaching 100 only at strong buy 100 or strong sell −100, and the two display labels |
| `Signal.TrendExclusive` | app.py:94-95 | the bull trend and the bear trend never hold together |
| `Signal.TrendNeutralCases` | app.py:94-97 | a tie with either moving average, close between the two averages, or any missing value gives a trend term of 0 |
| `Signal.TiesVoteBearish` | app.py:98-103 | Close == SAR, DMP == DMN, WT1 == WT2, or a missing value on either side, each count −25 |
| `Signal.AllBullish` | app.py:93-113 | the score is 100 exactly when all four readings are bullish, and then the label is strong buy |
| `Signal.AllBearish` | app.py:93-115 | the score is −100 exactly when all four readings are bearish, and then the label is strong sell |
| `Signal.LabelByVotes` | app.py:93-115 | strong buy exactly when no reading is bearish, buy exactly with three bullish and one bearish, sell exactly with one bullish and three bearish, strong sell exactly when none is bullish, neutral otherwise |
| `Signal.TrendSarDmiAgreeBuys` | app.py:93-113 | close above both averages and the SAR with +DI above −DI yields buy or strong buy whatever WaveTrend reads |
| `Signal.StrongBuyWithSplitTrend` | app.py:93-113 | a reading with only three bullish votes and a split trend scores 75 and is labelled strong buy |
| `Signal.StrengthBounded` | app.py:93-117 | the strength of any reading is a multiple of 25 within [0, 100], 25 times the gap between bullish and bearish votes |
| `Signal.AdxBoundary` | app.py:119 | ADX exactly 20, or missing, is labelled weak |
| `History.CheckHistory` | app.py:43 | a missing download or fewer than 50 bars fails with "Veri yetersiz."; otherwise the bars pass through unchanged |
| `History.FirstPresent` | app.py:53 | the row value is NaN exactly when every column is NaN, and otherwise the value of the first column that is present |
| `History.MergeSar` | app.py:52-54 | the merged SAR series has one entry per row |
| `History.MergeSarFallback` | app.py:54 | with no PSAR column the SAR series is the close series |
| `History.MergeSarRow` | app.py:52-53 | per row, the SAR is NaN exactly when all PSAR columns are, and otherwise the first present PSAR value, every earlier column being NaN |
| `History.Frame.FromBars` | app.py:42 | the downloaded frame holds the open, high, low, close and volume columns, one entry per bar |
| `History.Frame.SetColumn` | app.py:47-48 | adding an indicator column replaces only that column and keeps every column one entry per row |
| `History.Frame.SetSar` | app.py:52-54 | the SAR column becomes the merge of the PSAR columns, or a copy of close without them; nothing else changes |

## Left out

- Indicator computation (`ta.sma`, `ta.linreg`, `df.ta.psar`, `df.ta.adx`, `ta.ema`; app.py:47-51, 57, 68-73): these are pandas_ta calls whose code is not part of this model. Their outputs enter as the fields of `Signal.Reading` and as the columns given to `History.Frame.SetColumn`.
- WaveTrend arithmetic (app.py:66-73): floating-point numerics, including the unguarded division by `0.015*d`.
- Column discovery by name prefix (app.py:52, 58-63): `History.Frame.SetSar` receives the PSAR column names directly. Which columns pandas_ta names with the PSAR prefix, and in what order, is not part of this model.
- Reading the last row (`df.iloc[-1]`, app.py:89): the scorer receives that row as a `Signal.Reading`. The previous row (app.py:90) only feeds the price-delta display (app.py:108), which is presentation.
- The download (`yf.download`, app.py:42) is network I/O; it enters as the optional bar sequence given to `History.CheckHistory`.
- History.Frame.FromBars: the exact set of column names is what the download library returns (some versions add "Adj Close"); the model relies only on the "Close" column and builds a frame with the five bar fields.
- The MultiIndex column flattening (app.py:44) is pandas behaviour and is not modelled.
- The broad `except` returning `str(e)` (app.py:76): it only wraps what the foreign calls raise.
- History.MergeSar: its own contract states only the length; the per-row first-present property is stated by `History.MergeSarRow`.
- Streamlit, CSS and Plotly presentation (app.py:10-35, 81-82, 106-108, 122-147).
