# MACD divergence detector — a Dafny model

This project models the signal-decision core of a crypto-market alert bot. The
bot polls candles for a fixed grid of pairs and timeframes. For each pair it
computes indicators and looks for a MACD divergence: price making a new swing
low (or high) while the MACD histogram does not. It then scores the divergence
with oscillator confirmations and sends an alert the first time a strong enough
signal of a new kind appears for that pair.

The model takes the indicator table after warm-up trimming as its input. The
table has three columns, `low`, `Hist` and `OBV`, plus the latest row's RSI,
StochRSI, MFI and Bollinger %B. The model has five modules:

- `Swing`: the swing-extrema detector (`find_swing_lows_highs`).
  - `Swings` is its specification: a strict local minimum or maximum over
    `window` neighbours on each side, listed in ascending index order.
  - `FindSwingLowsHighs` is the loop. It is proved equal to `Swings`.
  - The detector as the repository writes it is modelled separately (see
    Findings).
- `Divergence`: Python's `min(range(n), key=...)` nearest-point choice
  (`Nearest`) and the bullish/bearish test (`Diverges`). `Diverges` is written
  once for both kinds, and `Beyond` gives the direction.
- `Confirmation`: the eight oscillator threshold tests and the OBV note.
- `Detector`: the length guards and the `signal`/`strength`/`reasons` updates.
  - `Detect` and `Classify` run them step by step.
  - `Evaluate` and `Decide` are the specification functions they are proved
    against.
- `Gate`: the `LAST_SIGNAL` dictionary, as a class `SignalGate`. Its `map` field
  is updated in place by `Offer` and `Scan`.

Reasons are a datatype `Reason`, so distinct reasons are distinct values. `Text`
gives the exact wording the bot shows for each one.

Two consequences of the code are easy to miss:
- Strength can reach 10, not 8. When both divergences fire they both score 3,
  and the four oscillators add at most one point each.
- When both divergences fire the signal is bearish. The bearish block
  overwrites `signal`, but it adds to `strength` and `reasons`.

## Model

| member | source | states |
|---|---|---|
| `Swing.Swings` | main.py:85-95 | The list holds exactly the indices `i` in `[window, len-window)` whose value is strictly beyond each of the `window` values on both sides, each once, with `value == series[i]`, in strictly increasing index order |
| `Swing.SwingsBelowSound` | main.py:88-94 | Scanning candidates below `n` appends only swing points `(i, series[i])` with `i < n`, in strictly ascending order |
| `Swing.SwingsBelowComplete` | main.py:88-94 | Scanning candidates below `n` appends every swing point below `n` |
| `Swing.CheckCandidate` | main.py:89-90 | The two `all(...)` passes over `j = 1..window` yield true exactly for a strict local minimum (resp. maximum); an equal neighbour disqualifies |
| `Swing.FindSwingLowsHighs` | main.py:85-95 | The loop's `lows` and `highs` are exactly `Swings(series, window, Low)` and `Swings(series, window, High)` |
| `Swing.IncreasingHasNoSwings` | main.py:85-95 | A strictly increasing series has no swing low and no swing high |
| `Swing.DecreasingHasNoSwings` | main.py:85-95 | A strictly decreasing series has no swing low and no swing high |
| `Swing.VShapeHasOneLow` | main.py:85-95 | A V-shaped series whose bottom `k` lies in `[w, len-w)` has exactly one swing low, `(k, s[k])`, and no swing high |
| `Swing.FindSwingLowsHighsAsWritten` | main.py:88-94 | As written, the detector either raises or returns two empty lists |
| `Swing.ScanAsWrittenFails` | main.py:88-94 | As written, the scan from `i` raises exactly when some candidate from `i` on is a strict local minimum |
| `Swing.AsWrittenRaisesIffSwingLow` | main.py:88-94 | As written, the detector raises exactly when the corrected detector finds at least one swing low |
| `Swing.AsWrittenRaisesOnV` | main.py:88-94 | On 5,4,3,2,1,0,1,2,3,4,5 with window 5, the corrected detector finds the one low `(5, 0)` while the code as written raises |
| `Divergence.NearestAmong` | main.py:111-112 | Python's left-to-right `min` over the first `n` positions returns a valid position of least distance, and every earlier position is strictly farther |
| `Divergence.Nearest` | main.py:111-112 | The chosen MACD swing point lies at least distance from the price point, ties go to the earliest list position, and the result indexes the list |
| `Divergence.NearestIsDetermined` | main.py:123-124 | Any position that is nearest and earliest among the nearest is the one `Nearest` returns, so the choice is deterministic |
| `Divergence.DivergesUnfolds` | main.py:114 | Bullish holds iff `p2 < p1` and the histogram at P2's aligned low exceeds that at P1's; bearish iff `p2 > p1` and the histogram at P2's aligned high is below that at P1's |
| `Divergence.AlignedValueIsSwingValue` | main.py:114 | Looking up `Hist` at an aligned histogram swing point gives that swing point's own value |
| `Divergence.BullishExample` | main.py:108-117 | Price lows 100 then 95 against histogram lows -2.0 then -0.5 are a bullish divergence and not a bearish one |
| `Confirmation.Verdict` | main.py:135-136 | One oscillator earns no reason iff its reading lies between its thresholds, and at most one reason when its oversold threshold is below its overbought one |
| `Confirmation.Confirmations` | main.py:135-142 | The eight tests earn at most four reasons |
| `Confirmation.VerdictHas` | main.py:135-142 | A reading earns its oversold reason iff it is below the lower threshold, and its overbought reason iff it is above the upper one |
| `Confirmation.ConfirmationsExact` | main.py:135-142 | Each of the eight reasons is earned iff its own threshold test holds (RSI <35/>65, StochRSI <0.2/>0.8, MFI <30/>70, %B <0.2/>0.8); no other reason is earned |
| `Confirmation.AddVerdict` | main.py:135-142 | One oscillator's two tests add one point per earned reason and append those reasons |
| `Confirmation.AddConfirmations` | main.py:135-142 | The eight tests add `\|Confirmations(row)\|` points and append `Confirmations(row)` in the source's order |
| `Confirmation.OversoldExample` | main.py:135-142 | RSI 30, StochRSI 0.1, MFI 25 and %B 0.15 earn exactly the four oversold reasons |
| `Detector.SwingsIndexInto` | main.py:97-98 | Every swing point of the `low` and `Hist` columns indexes into `Hist` |
| `Detector.TestDivergence` | main.py:108-117 | One divergence block fires exactly when `Diverges` holds for its swing lists and kind |
| `Detector.Classify` | main.py:100-143 | The step-by-step updates of `signal`, `strength` and `reasons` produce exactly `Decide` on the four swing lists |
| `Detector.Detect` | main.py:53-143 | The whole pass, with both guards and both swing scans, produces exactly `Evaluate(candles, table)` |
| `Detector.DecideIsExact` | main.py:107-143 | On any swing lists, a decided signal needs a divergence. Bearish wins the kind when it fires. Each reason appears iff its fact holds. Strength is 3 per divergence plus one per confirmation, between 3 and 10 |
| `Detector.NoSignalIff` | main.py:55-56 | No result iff fewer than 100 candles, fewer than 50 trimmed rows, or neither divergence fires (also main.py:81-82, 131-132) |
| `Detector.SignalIsExact` | main.py:107-143 | A signal's kind is bearish iff the bearish divergence fired. It carries each reason iff that reason's fact holds, including "OBV Rising" iff `OBV[-1] > OBV[-10]`. Strength is `3 × divergences + confirmations`, in `[3, 10]` |
| `Detector.BothFireIsBearish` | main.py:115-129 | When both divergences fire the signal is bearish, its strength is 6 plus the confirmations, and its reasons start with the bullish then the bearish divergence |
| `Detector.ObvNeverScores` | main.py:143 | Changing the OBV column never changes whether a signal is given, its kind or its strength |
| `Detector.AsWrittenNeverSignals` | main.py:85-98 | As written, a pass raises exactly when it passes the guards and price or histogram has a strict local minimum; otherwise it never gives a signal |
| `Gate.RepeatIsSuppressed` | main.py:146-147 | Right after a kind is sent for a key, the same kind for the same key is held back |
| `Gate.SameThenOpposite` | main.py:146-147 | From an absent key, same kind twice then the opposite kind (all strength ≥ 5) gives send, hold, send |
| `Gate.SentSignalsAreConfirmed` | main.py:146 | A sent signal has both divergences or at least two confirmations, and its strength is at most the displayed maximum of 10 |
| `Gate.SignalGate.constructor` | main.py:48 | The record starts empty |
| `Gate.SignalGate.Offer` | main.py:146-147 | Sends iff strength ≥ 5 and the key is absent or holds another kind. On sending, only that key is set to the kind. Otherwise nothing changes |
| `Gate.SignalGate.Scan` | main.py:53-162 | No result leaves the record untouched. Otherwise an alert carrying the signal and the latest readings is produced iff the gate admits the signal, and the record is updated only then |
| `Gate.ScanTwice` | main.py:146-147 | An identical second pass for the same pair never sends, whatever the first one did |

## Left out

- Fetching candles through ccxt (main.py:40-43, 54) is network I/O. The model takes the number of candles fetched and the trimmed table as inputs.
- The indicator computations (MACD, RSI, StochRSI, MFI, OBV, Bollinger bands and %B, main.py:62-77) are foreign library calls on floating point. The table's columns are inputs.
- `dropna().reset_index` and the datetime column (main.py:58-59, 79) are DataFrame plumbing. The table is taken as already trimmed, with aligned columns (`Table.WellFormed`).
- Floating point: readings are Dafny `real`. The thresholds 0.2 and 0.8 are exact rationals here, not the nearest doubles. NaN cannot reach the core after `dropna`.
- The message text, its rounding and its `strftime` timestamp (main.py:149-159) are presentation. `Gate.SignalGate.Scan` returns an `Alert` record carrying the pair, the signal and the latest readings instead. The close price and the candle time are not in the model.
- The scanner loop, its sleeps and its exception handling, and `send_message` (main.py:167-181) are scheduling and I/O. So are the Telegram handlers, the chat-id global, the Flask endpoint, the threads and the token check (main.py:24-38, 186-213). An exception raised by the as-written detector is modelled as a `Failure` result, not as the loop catching it.

## Findings

| source | as written | input that shows it | evidently intended | confidence | as-written member | corrected member |
|---|---|---|---|---|---|---|
| main.py:89-94 | The candidate test is only "strictly below all neighbours". Every candidate that passes then calls `series.low()`, which a pandas Series does not have, so the detector raises at the first strict local minimum. A scan that does not raise returns no swing point. So no pass ever gives a signal: `Detector.AsWrittenNeverSignals` | the series 5,4,3,2,1,0,1,2,3,4,5 with window 5 raises at index 5 (`Swing.AsWrittenRaisesOnV`) | Lows are strict local minima and highs are strict local maxima (the bearish block at main.py:120-129 needs highs) | high (not executed) | `Swing.FindSwingLowsHighsAsWritten` | `Swing.FindSwingLowsHighs` |
