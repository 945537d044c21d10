# Stock assistant: indicators, signal scoring and credential checks

This project models the analytic core of `main.py`, a stock assistant.
Given a daily price and volume history, the assistant computes technical
indicators and turns them into a BUY, SELL or HOLD recommendation. The
recommendation comes with a confidence level and an ordered list of reasons.
The modelled core has four parts:

- **Indicators** (`moving_averages.dfy`, `rsi.dfy`, `macd.dfy`). These are
  pandas pipelines over the close column, computed here over `real`:
  - `rolling(window).mean()`;
  - `ewm(adjust=False).mean()`, in both the `span` form (α = 2/(span+1))
    and the `com` form (α = 1/(com+1));
  - RSI: `diff`, split into gains and losses, each smoothed with `com = 13`,
    then 100 − 100/(1 + gain/loss);
  - MACD: EMA12 − EMA26, a 9-span signal line and the histogram.

  A NaN value is `None` in an `Option`. The division corner cases of the RSI
  are explicit branches: a zero loss with a positive gain gives 100, and zero
  over zero gives `None`. The EMA recurrence is a recursive function, `Ema`.
  A loop method, `EwmMean`, is proved to compute the same column.
- **Signal scorer** (`signal_scorer.dfy`). Four ordered rules read the latest
  values: trend, RSI, MACD and volume. They add to two counters and append
  tagged reasons. `ScoreSignals` is the imperative block as the source writes
  it. It is proved equal to the pure `Score`, which is built from one rule
  function per rule. Comparisons against a NaN are false (`Gt`, `Lt`).
- **Recommendation** (`recommendation.dfy`). `SnapshotOf` takes the latest
  indicator values of a history. `Resolve` turns the two counts into a
  verdict and a confidence level. `GetStockRecommendation` chains them, and
  also reports the error for an empty history.
- **Credential validators** (`credentials.dfy`). These are the username and
  password checks of the sign-up form, with their exact messages.

`series.dfy` holds the price bar, `Sum` and `Mean` with their bounds.
`wrappers.dfy` holds `Option` and `Result`.

Two consequences of the code are worth stating:

- A strictly rising history of 200 or more bars gives no BUY. Such a
  history never falls, so the smoothed loss is zero and the RSI is exactly
  100. That is overbought, worth two sell signals, and it cancels the two
  buy signals of the strong uptrend. The verdict is a neutral HOLD
  (`Recommendation.RisingPricesHold`).
- The RSI of a flat price run is 0/0, NaN in the code. The model keeps it
  `None`. Every RSI comparison then fails, so the RSI rule stays silent
  exactly as in the 45–55 dead zone (`SignalScorer.NanRsiIsDeadZone`).

## Model

| member | source | states |
|---|---|---|
| MovingAverages.SpanAlpha | main.py:357 | the `span` smoothing factor satisfies α·(span+1) = 2 and lies in (0, 1] |
| MovingAverages.ComAlpha | main.py:370-371 | the `com` smoothing factor satisfies α·(com+1) = 1 and lies in (0, 1] |
| MovingAverages.Ema | main.py:357 | `ewm(adjust=False)`: output as long as input, seeded with the first value, the last entry α·x[n−1] + (1−α)·e[n−2] |
| MovingAverages.EmaStep | main.py:357 | every entry after the first is α·x[i] + (1−α)·e[i−1] |
| MovingAverages.EwmMean | main.py:357 | the loop that carries the running average computes exactly the column `Ema` defines |
| MovingAverages.EmaPrefix | main.py:357 | the EMA is causal: the EMA of a prefix is the prefix of the EMA |
| MovingAverages.EmaWithin | main.py:357 | every EMA value lies between bounds that hold for all inputs |
| MovingAverages.EmaConstant | main.py:357 | a constant column is its own EMA |
| MovingAverages.EmaZeroIff | main.py:370-371 | for non-negative input and α < 1, the EMA at i is zero iff every input up to i is zero |
| MovingAverages.EmaPositiveAtLast | main.py:370-371 | a positive last input among non-negative inputs gives a positive last EMA |
| MovingAverages.SmaShape | main.py:349 | the SMA is undefined exactly at the first window−1 indices, and each defined value is the mean of the window ending there |
| MovingAverages.SmaPrefix | main.py:349 | the SMA is causal: the SMA of a prefix is the prefix of the SMA |
| MovingAverages.SmaDefinedCount | main.py:349 | a column of n ≥ w values has exactly n−w+1 defined SMA values, a shorter one none |
| MovingAverages.SmaWithin | main.py:349 | each defined SMA value lies between bounds that hold for all closes |
| MovingAverages.LastSma | main.py:514-515 | the latest SMA is undefined iff there are fewer bars than the window, and otherwise is the mean of the trailing window |
| MovingAverages.RisingCloseAboveSma | main.py:514-537 | in a strictly rising column the last close is above the latest SMA of two or more bars |
| MovingAverages.RisingShortSmaAboveLong | main.py:514-537 | in a strictly rising column the latest shorter SMA is above the latest longer one |
| MovingAverages.CalculateSma | main.py:345-350 | no closes gives `NoData`, a window below 1 gives `InvalidParameter`; it succeeds exactly when there are closes and the window is at least 1, with the SMA column |
| MovingAverages.CalculateEma | main.py:353-358 | no closes gives `NoData`, a span below 1 gives `InvalidParameter`; it succeeds exactly when there are closes and the span is at least 1, with the span EMA column seeded with the first close |
| RsiIndicator.RsiAlpha | main.py:370-371 | the RSI smoothing factor is 1/14 (com = 13) |
| RsiIndicator.Gains | main.py:366-367 | one clipped gain per change, never negative and at least the change |
| RsiIndicator.Losses | main.py:366-368 | one clipped loss per change, never negative and at least minus the change |
| RsiIndicator.ClipSplit | main.py:366-368 | gain − loss is the change, at most one of them is non-zero, and both are zero iff the close did not move |
| RsiIndicator.SmoothedGains | main.py:370 | the smoothed gain is never negative |
| RsiIndicator.SmoothedLosses | main.py:371 | the smoothed loss is never negative |
| RsiIndicator.RsiValue | main.py:373-374 | undefined iff gain and loss are both zero; a positive loss gives a value in [0, 100); 100 iff the loss is zero and the gain positive |
| RsiIndicator.RsiValueIsShare | main.py:373-374 | every defined RSI, the infinite ratio included, equals 100·gain/(gain+loss) |
| RsiIndicator.RatioIdentity | main.py:374 | 100 − 100/(1 + gain/loss) = 100·gain/(gain+loss), which is below 100, when the loss is positive |
| RsiIndicator.RsiAt | main.py:373-374 | the RSI of one bar: undefined at bar 0, after that the RSI of that bar's smoothed gain and loss, always in [0, 100] when defined |
| RsiIndicator.RsiSeries | main.py:373-374 | one RSI per bar, undefined at bar 0, each entry the RSI of its bar |
| RsiIndicator.LossesZeroIff | main.py:368 | the clipped losses up to bar i are all zero iff the close never fell up to bar i |
| RsiIndicator.GainsZeroIff | main.py:367 | the clipped gains up to bar i are all zero iff the close never rose up to bar i |
| RsiIndicator.SmoothedLossZeroIff | main.py:371 | the smoothed loss at bar i is zero iff the close never fell up to bar i |
| RsiIndicator.SmoothedGainZeroIff | main.py:370 | the smoothed gain at bar i is zero iff the close never rose up to bar i |
| RsiIndicator.RsiUndefinedIffFlat | main.py:373-374 | the RSI at bar i is undefined iff the close never moved up to bar i |
| RsiIndicator.RsiHundredIffNoFall | main.py:373-374 | the RSI at bar i is 100 iff the close never fell and rose at least once up to bar i |
| RsiIndicator.RsiBelowHundredAfterFall | main.py:373-374 | once the close has fallen, the RSI is defined and in [0, 100) |
| RsiIndicator.CalculateRsi | main.py:361-375 | no closes gives `NoData`; otherwise the RSI column and its last value, which is the latest RSI the recommendation reads |
| MacdIndicator.MacdOf | main.py:383-388 | three aligned columns, with histogram = MACD − signal at every index |
| MacdIndicator.MacdStartsAtZero | main.py:383-388 | all three lines start at zero |
| MacdIndicator.HistogramFromPreviousSignal | main.py:387-388 | the histogram at i is 0.8·(MACD[i] − signal[i−1]), so MACD beats the signal at i iff it beats the signal of i−1 |
| MacdIndicator.MacdOfConstant | main.py:383-388 | a constant close column has all three lines at zero |
| MacdIndicator.CalculateMacd | main.py:378-390 | no closes gives `NoData`; otherwise the last MACD, signal and histogram (= MACD − signal) and the columns |
| SignalScorer.TrendRuleTable | main.py:537-548 | the trend rule fires exactly one branch with one trend reason: +2 buy iff close > SMA50 > SMA200, +2 sell iff close < SMA50 < SMA200, else +1 buy iff close > SMA50, else +1 sell |
| SignalScorer.RsiRuleTable | main.py:550-561 | +2 buy iff RSI < 30, +2 sell iff RSI > 70, +1 buy iff 30 ≤ RSI < 45, +1 sell iff 55 < RSI ≤ 70, never both; no reason and no signal iff RSI is in [45, 55] or NaN; the reason carries the RSI value |
| SignalScorer.MacdRule | main.py:563-568 | exactly one signal, a buy iff MACD > signal, so a tie sells; the reason records the side |
| SignalScorer.VolumeRule | main.py:570-573 | never changes a counter; a volume reason iff the recent mean exceeds 1.2 × the overall mean |
| SignalScorer.ScoreSignals | main.py:533-573 | the step-by-step counter and reason updates give exactly the counts and reasons of the four rules applied in order |
| SignalScorer.ScoreCounts | main.py:533-573 | 2 ≤ buy + sell ≤ 5 (3..5 when the RSI rule fires, 2..3 when it does not); 2 ≤ |reasons| ≤ 4, one per fired rule |
| SignalScorer.ReasonsInRuleOrder | main.py:537-573 | the trend reason is first, a MACD reason is always present, and reasons appear in rule order |
| SignalScorer.NanRsiIsDeadZone | main.py:524-561 | a NaN RSI acts exactly as an RSI of 50: no signal, no reason |
| SignalScorer.TrendWithoutLongAverages | main.py:514-548 | without an SMA200 only close versus SMA50 decides; without an SMA50 the rule always gives "below SMA50" |
| Recommendation.Resolve | main.py:575-583 | BUY iff buy > sell + 1, SELL iff sell > buy + 1, HOLD iff the counts differ by at most one; Neutral iff HOLD; High iff the winning side has four or more signals |
| Recommendation.SnapshotOf | main.py:513-571 | the scorer reads the last close, and the SMA50 (SMA200) is undefined iff there are fewer than 50 (200) bars |
| Recommendation.SnapshotAverages | main.py:514-515 | the snapshot's SMA50 and SMA200 are the latest 50- and 200-bar SMAs of the closes |
| Recommendation.GetStockRecommendation | main.py:505-599 | an empty history gives `NoData`; otherwise the verdict, confidence, price, RSI, counts and reasons come from scoring the history's latest values, with 2..5 signals and 2..4 reasons |
| Recommendation.HighConfidenceNeedsStrongRule | main.py:537-583 | high confidence needs the RSI rule to have fired and a strong trend or an extreme RSI on the winning side |
| Recommendation.ShortHistoryTrend | main.py:514-548 | with fewer than 50 bars the trend rule always gives one sell signal and "below SMA50" comes first |
| Recommendation.ConflictingExtremesHold | main.py:537-583 | a strong trend with the RSI at the opposite extreme always gives a neutral HOLD |
| Recommendation.WeakBearishSells | main.py:537-583 | close not above SMA50, no strong downtrend, a silent RSI and MACD not above its signal give a moderate SELL on two signals |
| Recommendation.ConstantIndicators | main.py:513-530 | for a constant close column both SMAs equal the constant once defined, the RSI is undefined and MACD equals its signal |
| Recommendation.ConstantSnapshot | main.py:513-530 | for a constant history the close is not above the SMA50, the RSI is undefined and MACD equals its signal |
| Recommendation.ConstantPricesSell | main.py:505-583 | a constant history gives "below SMA50" and "MACD bearish", 0 buy and 2 sell signals, and a moderate SELL |
| Series.TrailingMeanConstant | main.py:570-571 | the mean of the last (up to) five volumes of a constant column is that constant |
| Recommendation.SteadyVolumeNeverHigh | main.py:570-573 | a constant non-negative volume gives a recent mean equal to the overall mean, so no volume reason |
| Recommendation.RisingAverages | main.py:514-537 | in a strictly rising close column of 200 or more bars the last close is above the SMA50, which is above the SMA200 |
| Recommendation.RisingPricesStrongUptrend | main.py:513-537 | a strictly rising history of 200 or more bars is a strong uptrend |
| Recommendation.RisingPricesRsiHundred | main.py:518-524 | a strictly rising history of two or more bars has an RSI of exactly 100 |
| Recommendation.RisingPricesHold | main.py:505-583 | a strictly rising history of 200 or more bars gives strong uptrend and overbought reasons and a neutral HOLD |
| Credentials.ValidateUsernameAsWritten | main.py:40-48 | the username check with Python's `$`: accepts exactly the names of three or more characters that are letters, optionally followed by one newline; otherwise the message of the first failing check (empty, pattern, too short) |
| Credentials.ValidateUsername | main.py:40-48 | valid iff at least 3 ASCII letters and nothing else; otherwise the message of the first failing check (empty, not letters only, too short) |
| Credentials.ValidatePassword | main.py:50-60 | valid iff at least 6 characters with an ASCII letter and an ASCII digit; otherwise the message of the first failing check (empty, too short, no letter, no digit) |
| Credentials.ValidMessageMeansAccepted | main.py:40-60 | the message is "Valid" iff the check passed |
| Credentials.NoStringIsBothUsernameAndPassword | main.py:40-60 | no string passes both checks |
| Credentials.AsWrittenAcceptance | main.py:44 | the as-written check accepts what the letters-only check accepts plus two or more letters followed by one newline |
| Credentials.AsWrittenAgreesWithoutTrailingNewline | main.py:44 | without a trailing newline both username checks give the same result and message |
| Credentials.TrailingNewlineAccepted | main.py:44-48 | "ab\n" passes the as-written check and fails the letters-only check |

## Left out

- Market data: the `yfinance` download of a year of bars is network I/O. The history is an input, and an empty history stands for "no data".
- Charts: every matplotlib figure, including the one built for the recommendation and the RSI gauge geometry, is display only.
- The Streamlit pages, styles, session state and navigation are UI glue.
- The OpenAI chat and tool-call loop is a foreign API.
- The user file, SHA-256 hashing, registration and login are file I/O and a foreign hash. Without them, registration is only "reject if present, else insert".
- The ticker lookup page is interleaved with network calls.
- `round(…, 2)` on price and RSI, reason strings with `:.2f` values, and the blanket `except` are formatting and exception plumbing. Reasons are tagged values, and RSI reasons carry the unrounded RSI.
- IEEE-754 floats: values are exact reals, 1.2 is exact, and NaN/∞ appear only as the explicit branches above. The model does not cover NaN inside a price column, because a history's closes and volumes are real numbers here.
- Gains, Losses: pandas keeps a NaN at index 0 of `diff`; the model drops that index, so the smoothing starts at bar 1 exactly as pandas' NaN-skipping seed does.
- MovingAverages.CalculateSma, MovingAverages.CalculateEma: pandas raises for a negative window and for a span below 1; a window of 0, an all-NaN column in pandas, is also reported as `InvalidParameter`. The application only passes windows from 5 to 200 (main.py:847).
- Recommendation.SnapshotOf: its contract does not restate the SMA values, the RSI, MACD and volume fields. `SnapshotAverages` states the SMA values, and lemmas such as `RisingPricesRsiHundred`, `ConstantSnapshot` and `SteadyVolumeNeverHigh` state the others where needed.
- Recommendation.GetStockRecommendation: the result carries no figure.
- The other columns (open, high, low, dates) are never read by the core.

## Findings

| source | as written | input that shows it | evidently intended | confidence | as-written member | corrected member |
|---|---|---|---|---|---|---|
| main.py:44 | `re.match(r'^[a-zA-Z]+$', username)`; in Python `$` also matches just before a final newline | "ab\n" is accepted as a valid username, with two letters and a newline | usernames consist of letters only, as the docstring and the message say | not executed | Credentials.ValidateUsernameAsWritten (Credentials.TrailingNewlineAccepted) | Credentials.ValidateUsername |
