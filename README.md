# Memecoin scalper: one analysis tick, modelled in Dafny

This project models the per-tick analysis step of the memecoin scalping bot:
`MemecoinScalper.analyze_signals` in `memecoin_screening.py`, together with the
three fields of the scalper object that this step uses. It reads all three
(`price_history`, `prev_ema9`, `prev_ema21`) and writes only `price_history`. One tick does five things.

1. **Price window.** It appends the new close to the price history and cuts the
   list back to its last 100 entries.
2. **Indicators.** It computes the following over the window:
   - EMA(9) and EMA(21), using the `adjust=False` recurrence;
   - RSI(14), using `com=13` smoothing of gains and losses. It is undefined at
     14 closes or fewer, and when the window never moves;
   - Bollinger(20, 2), from the rolling mean and the sample standard deviation.
     It is undefined below 20 closes.
3. **EMA cross.** It compares the current EMA pair with the previous pair held
   in the object.
4. **Classifier.** It builds the insertion-ordered conditions dictionary, with
   the keys `ema_cross`, `rsi`, `bb` and `order_flow`.
5. **Reducer.** It turns the conditions into a recommendation: BUY, else SELL,
   else the fallback action, which lists the keys present.

Modules:
- `Wrappers`: `Option`, standing for Python's `None` and pandas' NaN.
- `PriceWindow`: the bounded history is a `seq<real>`.
- `Indicators`: pure recursive functions over the window, with lemmas.
- `Signals`: the classifier and reducer as step-by-step methods (`BuildConditions`, `Recommend`).
  - Each is proved against a specification predicate (`Classifies`, `Recommends`).
  - Lemmas derive what those predicates imply.
- `Scalper`: the class `MemecoinScalper`, with its three fields and tick methods.
  - `AnalyzeSignals` models the method as written.
  - `AnalyzeSignalsTracking` is the corrected variant described under Findings.

Prices are exact `real`s. Three representation choices follow from that:
- A NaN indicator is `None`.
- A Bollinger band keeps its variance, and the band-touch tests are decided without the square root. `TouchesLowerAgrees` and `TouchesUpperAgrees` prove that they match the source's comparisons for the true standard deviation.
- The RSI is kept as its pair of averages, and the 30/70 thresholds are decided without dividing. `BelowThirtyAgrees` and `AboveSeventyAgrees` prove that they match `100 - 100 / (1 + rs)`.

The model follows the code in these details:
- The code does no price validation. It appends whatever close it is given, non-positive ones included.
- A completely flat window gives `0 / 0`, so the RSI is NaN and no rsi label is set. The code does not use a zero-loss convention of 100 here.
- RSI 100 needs at least one rise as well as no fall.
- The dictionary key is `bb`.

## Model

| member | source | states |
|---|---|---|
| PriceWindow.LastNAbsorbs | memecoin_screening.py:92-93 | cutting the list back to its last n entries early does not change what a later cut to n entries keeps, whatever is appended in between |
| PriceWindow.Append | memecoin_screening.py:90-93 | after a tick the window has at most 100 entries, exactly min(100, old + 1) of them; the new close is last, and before it come the most recent entries of the old history in order |
| PriceWindow.AppendAllKeepsMostRecent | memecoin_screening.py:90-93 | however many ticks arrive, the window is exactly the last 100 closes of everything seen, in chronological order |
| Indicators.Alpha | memecoin_screening.py:102-112 | the smoothing factors 2/10, 2/22 and 1/14 all lie strictly between 0 and 1 |
| Indicators.EmaWithin | memecoin_screening.py:102-103 | the EMA of a window lies between the window's lower and upper bounds |
| Indicators.EmaOfConstant | memecoin_screening.py:102-103 | the EMA of a constant window (in particular a single close) is that constant |
| Indicators.EmaNonNegative | memecoin_screening.py:111-112 | smoothing non-negative values gives a non-negative average |
| Indicators.EmaZeroIff | memecoin_screening.py:111-112 | over non-negative values, the average is 0 exactly when every value is 0 |
| Indicators.Gains | memecoin_screening.py:107-108 | the gain series is 0 at index 0; later entries are non-negative, and positive exactly where the price rose |
| Indicators.Losses | memecoin_screening.py:107-109 | the loss series is 0 at index 0; later entries are non-negative, and positive exactly where the price fell |
| Indicators.AveragesNonNegative | memecoin_screening.py:111-112 | avg_gain and avg_loss are never negative |
| Indicators.RsiOf | memecoin_screening.py:114-115 | RSI lies in [0, 100]; it is undefined (NaN) exactly when both averages are 0; it is 100 exactly when avg_loss is 0 and avg_gain is positive |
| Indicators.Rsi | memecoin_screening.py:106-117 | the RSI reading exists exactly when the window holds more than 14 closes, and its averages are non-negative |
| Indicators.RsiValue | memecoin_screening.py:114-117 | the RSI value of a reading lies in [0, 100], and there is none without a reading |
| Indicators.BelowThirtyAgrees | memecoin_screening.py:159 | the division-free threshold test is true exactly when the RSI value is defined and below 30 |
| Indicators.AboveSeventyAgrees | memecoin_screening.py:162 | the division-free threshold test is true exactly when the RSI value is defined and above 70 |
| Indicators.AvgGainZeroIff | memecoin_screening.py:107-111 | avg_gain is 0 exactly when the window never rises |
| Indicators.AvgLossZeroIff | memecoin_screening.py:107-112 | avg_loss is 0 exactly when the window never falls |
| Indicators.RsiUndefinedIffFlat | memecoin_screening.py:106-115 | above 14 closes, the RSI is NaN exactly when all closes are equal |
| Indicators.RsiHundredIff | memecoin_screening.py:106-115 | above 14 closes, the RSI is exactly 100 when the window never falls and rises at least once |
| Indicators.Bollinger | memecoin_screening.py:120-121 | the bands exist exactly when the window holds at least 20 closes, and their variance is non-negative |
| Indicators.UpperBand | memecoin_screening.py:122 | for a non-negative std the upper band is at least the middle band |
| Indicators.LowerBand | memecoin_screening.py:123 | for a non-negative std the lower band is at most the middle band |
| Indicators.TouchesLowerAgrees | memecoin_screening.py:167 | the square-root-free lower test equals `price <= lower_band * 1.01` for the true std |
| Indicators.TouchesUpperAgrees | memecoin_screening.py:170 | the square-root-free upper test equals `price >= upper_band * 0.99` for the true std |
| Indicators.CollapsedBandTouchedTwice | memecoin_screening.py:167-172 | a zero-width band at a non-negative price is touched from both sides by that price |
| Indicators.BollingerOfFlatTail | memecoin_screening.py:120-121 | if the last 20 closes all equal `c`, the middle band is `c` and the width is 0 |
| Indicators.SquaredDeviations | memecoin_screening.py:121 | a sum of squared deviations is never negative |
| Indicators.SumOfConstant | memecoin_screening.py:120 | the sum of n copies of c is n * c |
| Indicators.NoDeviationFromConstant | memecoin_screening.py:121 | constant samples have no deviation from their value |
| Signals.GetPresent | memecoin_screening.py:184-186 | `conditions.get(k)` finds a value exactly when some entry has key k, and what it returns is stored under k |
| Signals.BuildConditions | memecoin_screening.py:149-180 | the built dictionary is well formed: each label sits under its own key, keys appear in the order ema_cross, rsi, bb, order_flow, and order_flow is present. Each label holds exactly when its condition in the source holds. |
| Signals.AssembledConditions | memecoin_screening.py:145-180 | the four steps, each storing at most one label, give a well-formed dictionary in which each key holds what its step stored |
| Signals.SectionAppended | memecoin_screening.py:153-180 | storing a key ranked above every present key keeps the dictionary well ordered, and afterwards the key holds the stored label |
| Signals.SectionKeepsOthers | memecoin_screening.py:153-180 | storing one key leaves every other key's value unchanged |
| Signals.ClassificationUnique | memecoin_screening.py:149-180 | two well-formed dictionaries that classify the same tick are identical, entry order included |
| Signals.OrderedDeterminedByGet | memecoin_screening.py:145-180 | two dictionaries in key order that answer every `get` alike are equal |
| Signals.Recommend | memecoin_screening.py:183-232 | the recommendation is BUY exactly when a buy trigger holds, even if a sell trigger also holds, and SELL exactly when only a sell trigger holds. BUY carries entry = price, take profit = 1.03 × price and stop loss = 0.99 × price, so stop loss < entry < take profit for price > 0. The matched lists are non-empty, exact and in key order. The fallback carries its action text and the joined keys. |
| Signals.MatchesListed | memecoin_screening.py:196-219 | the matched list names exactly the labels present among one side's three, in key order, and it is non-empty exactly when that side triggers |
| Signals.FallbackListsOrderFlow | memecoin_screening.py:227-232 | in the fallback branch the dictionary holds only `order_flow`: `conditions.keys()` is exactly `[order_flow]`, so the joined `conditions_met` text is "order_flow" |
| Signals.NoCrossWithoutPrevious | memecoin_screening.py:150-156 | without both previous EMAs, no ema_cross label is recorded |
| Signals.OrderFlowAlwaysSet | memecoin_screening.py:175-180 | order_flow is always present: BULLISH exactly when buys exceed sells, otherwise BEARISH, ties included |
| Signals.ShortWindowRecordsNoRsiOrBand | memecoin_screening.py:106-172 | with 14 closes or fewer there is no rsi label, and with fewer than 20 there is no bb label |
| Signals.RisingWindowOverbought | memecoin_screening.py:106-164 | a window that never falls and rises at least once gives RSI 100, recorded as OVERBOUGHT |
| Signals.FlatWindowNoRsi | memecoin_screening.py:106-164 | a window whose closes are all equal records no rsi label, at any length |
| Signals.RsiLabelInSourceTerms | memecoin_screening.py:159-164 | the rsi label is OVERSOLD exactly when the RSI value is defined and below 30, and OVERBOUGHT exactly when it is above 70 |
| Signals.BandLabelInSourceTerms | memecoin_screening.py:167-172 | for the true std, TOUCH_LOWER holds exactly when `price <= lower * 1.01`; otherwise TOUCH_UPPER holds exactly when `price >= upper * 0.99` |
| Signals.FlatTailTouchesLower | memecoin_screening.py:120-187 | after 20 equal non-negative closes the price touches the collapsed lower band, so TOUCH_LOWER is recorded and BUY is triggered |
| Scalper.MemecoinScalper.constructor | memecoin_screening.py:12-15 | a new scalper has an empty history and no previous EMA pair |
| Scalper.MemecoinScalper.AnalyzeSignals | memecoin_screening.py:85-234 | an empty feed gives NO_DATA and leaves the window alone. Otherwise the result holds the close, the order counts, the indicators of the new window, the classified conditions and the reduced recommendation. The new window is the old one plus the close, cut to 100. The previous EMA pair is unchanged. |
| Scalper.MemecoinScalper.AnalyzeSignalsTracking | memecoin_screening.py:85-234 | the same tick, which afterwards stores the current EMA pair as the previous one |
| Scalper.Tick | memecoin_screening.py:88-232 | a tick with data appends the close and computes the analysis of the new window from the given previous pair |
| Scalper.FirstTickEmas | memecoin_screening.py:102-103 | on the first tick both EMAs equal the close |
| Scalper.NoCrossWithoutPreviousPair | memecoin_screening.py:150-156 | a tick without a previous pair records no ema_cross |
| Scalper.SnapshotOfTwoCloses | memecoin_screening.py:102-123 | for closes 2 then 3, EMA9 = 2.2 and EMA21 = 23/11, and RSI and bands are undefined |
| Scalper.SecondTickAtThree | memecoin_screening.py:149-210 | a tick at 3 after a single close of 2 puts EMA9 above EMA21. It reports GOLDEN_CROSS, and so BUY, when the previous pair is (2, 2). |
| Scalper.CrossMissedAsWritten | memecoin_screening.py:150-156 | as written, closes 2 then 3 lift EMA9 above EMA21, yet no ema_cross is recorded |
| Scalper.CrossDetectedWhenTracked | memecoin_screening.py:150-156 | with the pair stored, the same closes record GOLDEN_CROSS and recommend BUY |

## Left out

- `get_price_data` (HTTP request, JSON parsing, DataFrame construction). This is network I/O. A feed row is the `Observation` record (close, buy count, sell count), and an empty DataFrame is `None`.
- `initialize_price_history`. This is a polling loop with `time.sleep` over the network. Its effect is at most 21 window appends; `PriceWindow.AppendAll` gives their outcome.
- `run_scalping_bot` and `main`. These handle console input, printing and the endless sleep loop. Their check for "Market Bearish & Illiquid" never matches the action string "Market Bearish & Tidak Likuid" that the reducer sets. That is a display matter outside the tick.
- `calculate_bollinger_bands`. It is never called, and it reads attributes the class never defines.
- IEEE-754 floating point. Prices are exact reals, so rounding, infinities and the NaN propagation of `dropna` are not modelled. A NaN indicator is `None`.
- The display-only parts of the result:
  - the `signals` message list;
  - the `price_usd` text;
  - the pass-through fields token, dex, volume, liquidity and price change;
  - the "N/A" text for an undefined RSI.
- The `volume_history` and `base_url`/`timeframe` fields. The tick never reads them.
- Indicators.Bollinger: the band keeps its sample variance instead of the standard deviation, because the square root has no exact real counterpart. The source's band values appear only through `UpperBand`/`LowerBand` for any std satisfying `IsStd`.
- Indicators.Rsi: the reading keeps the two averages. The RSI value itself is `RsiValue`, and the classifier decides the thresholds without dividing. The agreement lemmas tie the two together.
- Signals.Recommend: `conditions_met` is a list of labels. Its display text is `Label.MatchName`, which is defined only for the six BUY and SELL labels, as the source lists only those.
- Scalper.MemecoinScalper.AnalyzeSignals: no price validation, because the source performs none.

## Findings

| source | as written | input that shows it | evidently intended | confidence | as-written member | corrected member |
|---|---|---|---|---|---|---|
| memecoin_screening.py:14-15 | `prev_ema9` and `prev_ema21` start as `None` and nothing ever assigns them, so the cross check at lines 150-156 never runs | a fresh scalper fed closes 2.0 then 3.0: EMA9 rises from 2.0 to 2.2, above EMA21 = 23/11, yet no ema_cross is recorded | store the tick's EMA pair after each analysis, so the next tick reports GOLDEN_CROSS or DEATH_CROSS | not executed | Scalper.CrossMissedAsWritten | Scalper.CrossDetectedWhenTracked |
