# PAWScoin tracker — verified model of the widget's logic

PAWScoin is a fictional currency. The tracker is a desktop widget that draws a
new PAWScoin price every few seconds from a skewed random distribution. It
records each price with its timestamp and shows a live histogram of how
likely each price range is. This project models the logic underneath the GUI
in Dafny and proves properties of it. There are three modules.

- `Price` (`price.dfy`) models the weighted price draw. `Clamp` is
  `min(max(v, 0), 99)` applied to whatever integer the transform
  `int((1 - r ** 0.5) * 100)` produced. That integer is an input. `Skew`
  additionally models the transform over exact reals, with the square root
  of the uniform draw as its input and Python's `int()` as truncation toward
  zero.
- `Histogram` (`histogram.dfy`) models the probability chart. `Bin` is the
  `<=` threshold chain (15, 45, 68, 85, 90, else), which gives six bins.
  `CountBins` is the counting loop as a fold, `Tabulate` is the loop
  itself, and `Shares` is the percentage step. The batch of 100000 skewed
  samples is an input.
- `Tracker` (`tracker.dfy`) models the countdown/update state machine. The
  state is the countdown plus the parallel price and time histories. `Tick`
  is one call of `update_timer`, and `UpdatePrice` is `update_price`. Each
  tick receives a `Draw`: the skewed integer and a timestamp of an opaque
  type `T`. The countdown starts at 12, the value the code uses; the
  initial label text says 30.

Construction is `Init`: the countdown is set to 12 and `update_price` runs
once. The direct call of `update_timer` at the end of the constructor is the
first `Tick`. Every later `root.after(1000, ...)` callback is one more `Tick`.

## Model

| member | source | states |
|---|---|---|
| Price.Clamp | PAWScoinTracker.py:68 | The result is always in [0, 99]. A value already in range is kept, a negative value becomes 0, and a value above 99 becomes 99. |
| Price.ClampMonotone | PAWScoinTracker.py:68 | A larger raw value never gives a smaller price. |
| Price.ClampIdempotent | PAWScoinTracker.py:68 | Clamping an already clamped price changes nothing. |
| Price.TruncateTowardZero | PAWScoinTracker.py:67 | Python's `int()` on a real: the result lies within 1 of the input, on the same side of zero, and never exceeds it in magnitude. |
| Price.Skew | PAWScoinTracker.py:67 | The transform `int((1 - root) * 100)` over exact reals: for a root in [0, 1] the value is the floor of (1 − root)·100, so it lies in [0, 100], and it equals 100 exactly when the root is 0. |
| Price.SkewAntitone | PAWScoinTracker.py:67 | The transform is decreasing: a larger root never yields a larger value. |
| Price.GenerateWeightedPrice | PAWScoinTracker.py:65-68 | The price is always in [0, 99]. For a root in (0, 1] the clamp leaves the skewed value unchanged. A zero root (draw 0) gives 99, and a root of 1 gives 0. |
| Histogram.Bin | PAWScoinTracker.py:142-147 | The result is one of six bins. An integer lies in a bin's threshold range if and only if it is the bin returned, so the six ranges partition the integers. |
| Histogram.BinMonotone | PAWScoinTracker.py:142-147 | `v <= w` implies `Bin(v) <= Bin(w)`. |
| Histogram.BinMatchesLabels | PAWScoinTracker.py:142-152 | On prices 0..99, a value is in bin b exactly when it lies in the displayed label range of bin b ("0–15" … "91–99"). |
| Histogram.Increment | PAWScoinTracker.py:142-147 | `bins[b] += 1` raises bin b by one, leaves the other counts unchanged, and adds one to the total. |
| Histogram.CountBins | PAWScoinTracker.py:140-149 | The fold yields six counts, and their sum equals the number of samples. |
| Histogram.CountBinsStep | PAWScoinTracker.py:141-147 | Adding one sample raises the count of its own bin by one and leaves the other five counts unchanged. |
| Histogram.CountBinsIsTally | PAWScoinTracker.py:140-147 | Each count equals the number of samples in that bin's range, counted independently from the front. |
| Histogram.Tabulate | PAWScoinTracker.py:140-147 | The loop with its literal threshold chain yields six counts summing to the batch size. Each count is the number of samples in that bin's range. |
| Histogram.Shares | PAWScoinTracker.py:140-150 | For the six counts the program builds, there is no result (a division by zero) exactly when the total is 0. Otherwise each share is its count over the total times 100, lies in [0, 100], and the shares sum to exactly 100. |
| Histogram.LiveProbabilities | PAWScoinTracker.py:137-150 | Shares exist exactly when the batch is non-empty, so a batch of 100000 cannot divide by zero. The six shares sum to 100, and each is that bin's tally over the batch size, times 100. |
| Tracker.UpdatePrice | PAWScoinTracker.py:73-95 | Exactly the clamped draw (a price in [0, 99]) and the draw's timestamp are appended to the histories, nothing else in them changes, aligned histories stay aligned, and the countdown becomes 12. |
| Tracker.Init | PAWScoinTracker.py:61-62 | The widget starts in a valid state with countdown 12, the clamped first draw as its only price, and that draw's timestamp as its only time. |
| Tracker.Tick | PAWScoinTracker.py:97-103 | A positive countdown drops by one and both histories are unchanged. A countdown of 0 or below appends one clamped price and one timestamp and resets the countdown to 12. Validity is preserved. |
| Tracker.Run | PAWScoinTracker.py:97-103 | Over any number of ticks a valid state stays valid (countdown in [0, 12], histories aligned, prices in range). The histories only grow at the end. |
| Tracker.RunClosedForm | PAWScoinTracker.py:95-103 | After n ticks from countdown c, the countdown and the number of appended prices match an independent closed form: count down to 0, then one update every 13 ticks. |
| Tracker.OnePeriod | PAWScoinTracker.py:95-103 | Thirteen ticks from a valid state add exactly one price and one timestamp, and return the countdown to its starting value. |
| Tracker.EveryWindowAddsOne | PAWScoinTracker.py:95-103 | After any prefix of ticks, every window of 13 consecutive ticks adds exactly one history entry. |
| Tracker.Session | PAWScoinTracker.py:61-63 | From construction onward the countdown stays in [0, 12] forever and the histories stay aligned. The number of prices is 1 plus the number of completed countdowns. |

## Left out

- Widgets, labels, buttons, the key binding, and `toggle_probability_chart`
  (PAWScoinTracker.py:167-172) are UI state with no logic of their own.
- Matplotlib plotting, axis limits, bar annotations, and hover/click
  hit-testing through `scatter.contains` (PAWScoinTracker.py:81-93, 111-135,
  155-165) are calls into a plotting library that this model does not include.
- Clipboard writes through `pyperclip`, `datetime.now()`, and `strftime`
  formatting (PAWScoinTracker.py:105-109, 132-135) are I/O. Timestamps are an
  opaque type parameter.
- Random number generation is not modelled. Each tick takes the skewed
  integer as input, and the histogram takes its 100000 samples as input.
- The floating-point square root and float rounding are not modelled.
  `Price.Skew` takes the root as an exact real. `Histogram.Shares` computes
  the percentages in exact real arithmetic, so the sum is exactly 100 rather
  than 100 up to rounding.
- Scheduling through `root.after(1000, ...)` (PAWScoinTracker.py:103) is not
  modelled. One callback is one `Tick`, and wall-clock timing is not
  represented.
- `calculate_next_probabilities` (PAWScoinTracker.py:70-71) is a stub that
  returns an empty dictionary and is never called.
- `update_price` also refreshes the probability chart from a fresh batch
  (PAWScoinTracker.py:94). That refresh does not change the tracker state, so
  `Tracker.UpdatePrice` omits it. `Histogram.LiveProbabilities` models it
  separately.
- The histogram samples are not clamped, unlike the price. A draw of exactly
  0 gives the value 100, which the code puts in bin 5 although that bin's
  label reads "91–99". `Histogram.Bin` follows the code, and
  `Histogram.BinMatchesLabels` covers only 0..99.
- Histogram.Shares: is stated only for the six counts the program always
  builds (`[0]*6`, PAWScoinTracker.py:140); an empty list of counts, which the
  program never produces, is outside its domain.
