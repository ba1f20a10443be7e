# Rule-1 stock check: high, two-week low and half-retrace

A Dafny model of the computing core of a single-page stock tool for
Tokyo-listed tickers (`app.py`). From a frame of daily bars (a date index
with High and Low columns) the page

1. takes the last five bars (`df.tail(5)`), their highest High
   (`recent_high`) and the date of its first occurrence (`idxmax`);
2. keeps the bars dated from fourteen days before that high date up to the
   high date, both ends included, and takes their lowest Low
   (`recent_low`) and the date of its first occurrence (`idxmin`), or shows
   a "no low data in the period" message when no bar is left;
3. offers the "rule 1" calculator when both values exist: if
   `high > low > 0` it shows the rise rate `high / low`, the rise width
   `high - low`, half the width floored, and the half-retrace price
   `floor(high - half)`; otherwise it shows a warning.

Dates are day numbers (`int`), so "fourteen days earlier" is subtraction;
prices are `real`. The `None` sentinels `recent_high` and `recent_low` are
`Option` values. The model is purely functional, as the source is: pandas
column expressions and straight-line arithmetic, no loops.

Modules, one per step, plus the page flow:

- `Wrappers` — `Option`.
- `Series` — `Bar`, `Extreme` (a price with its row's date), the High and
  Low columns, and first-position argmax/argmin over a column (`idxmax`,
  `idxmin`).
- `FiveDayHigh` — the recent high.
- `TwoWeekLow` — the date window and the window low.
- `HalfRetrace` — the calculator.
- `Page` — what the page shows for a frame and for a button press.

The frame is taken as given: the model does not sort it, just as the code
does not. "First occurrence" is stated in frame order for every frame.
Where a fact depends on dates being ordered (that "first occurrence" means
"earliest date"), the lemma requires `Ascending`. A price source is expected
to return ascending dates, but the code never checks this. The window
always holds at least the high bar, ordered or not, so the "no low data"
branch at app.py:88-89 is dead code; `Page.LowAlwaysFound` proves it.

## Model

| member | source | states |
|---|---|---|
| `Series.FirstArgMax` | app.py:70-72 | an index at or after `lo` whose value no later value exceeds, with every value between `lo` and it strictly smaller: the first maximum |
| `Series.FirstArgMin` | app.py:82-83 | an index at or after `lo` whose value no later value undercuts, with every value between `lo` and it strictly larger: the first minimum |
| `FiveDayHigh.TailStart` | app.py:69 | the tail is the whole frame when it has at most five bars, and exactly the last five otherwise |
| `FiveDayHigh.HighIndex` | app.py:69-74 | the index of a tail bar with the maximum High, where no earlier tail bar reaches that High |
| `FiveDayHigh.RecentHigh` | app.py:68-74 | None exactly for an empty frame; otherwise the High and date of a tail bar, that High at least every tail High, and every earlier tail bar strictly lower |
| `FiveDayHigh.HighDateIsEarliest` | app.py:72-74 | with ascending dates, every tail bar whose High equals `recent_high` is dated on or after `high_date` |
| `FiveDayHigh.EarlierTailBarsAreLower` | app.py:70-74 | with ascending dates, every tail bar dated before `high_date` has a High strictly below `recent_high` |
| `FiveDayHigh.HighBarInSeries` | app.py:69-72 | for a non-empty frame the high and its date come from one bar of the frame |
| `FiveDayHigh.ShortSeriesUsesAllBars` | app.py:69-70 | a frame of at most five bars has its high taken over all of its bars |
| `TwoWeekLow.Window` | app.py:77-79 | a bar is in the window if and only if it is in the frame and `highDate - 14 <= date <= highDate` (both ends inclusive); the window is no longer than the frame |
| `TwoWeekLow.WindowAscending` | app.py:79 | masking keeps frame order: an ascending frame gives an ascending window |
| `TwoWeekLow.RecentLow` | app.py:81-89 | None if and only if no frame bar is in the window; otherwise the Low and date of a window bar, dated within `[highDate - 14, highDate]`, that Low at most every window Low, and every earlier window row (in frame order) strictly higher |
| `TwoWeekLow.LowDateIsEarliest` | app.py:83-85 | with ascending dates, every window bar whose Low equals `recent_low` is dated on or after `low_date` |
| `HalfRetrace.Calculate` | app.py:110-124 | figures if and only if `high > low` and `low > 0`; then `rate * low == high` and `rate > 1`, `width > 0` and `low + width == high`, `half` is the floor of `width / 2` and is non-negative, and `price` is the floor of `high - half` |
| `HalfRetrace.PriceBetweenMidpointAndHigh` | app.py:113-115 | when `high > low > 0`, the floored midpoint `floor((high + low) / 2)` is at most the retrace price, and the retrace price is at most the high |
| `HalfRetrace.Examples` | app.py:111-115 | (110, 101) gives width 9, half 4, price 106; (103, 100) gives rate 1.03, width 3, half 1, price 102; (100, 100) and (100, 0) give no figures |
| `Page.Analyze` | app.py:68-97 | the error screen exactly for an empty frame; otherwise the recent high and the window low taken at its date |
| `Page.RecentHighOf` | app.py:55 | `recent_high` stays None for the error screen and holds the quote's high otherwise |
| `Page.RecentLowOf` | app.py:56 | `recent_low` stays None for the error screen and holds the quote's window low (None when the window is empty) otherwise |
| `Page.SentinelsAfterQuote` | app.py:68-82 | for a non-empty frame `recent_high` is the five-day high and `recent_low` is the window low taken at its date, and it is set |
| `Page.Defaults` | app.py:103-108 | the calculator is offered if and only if both sentinels are set, and its inputs then start at their prices |
| `Page.Press` | app.py:110-124 | not offered exactly when there are no defaults; a warning exactly when offered and the guard fails; figures exactly when offered and `high > low > 0`, and they are the calculator's |
| `Page.EmptySeries` | app.py:96-103 | an empty frame shows the error, leaves both sentinels None, and any press does nothing |
| `Page.LowAlwaysFound` | app.py:77-89 | for every non-empty frame, ordered or not, the window low exists: the "no low data" branch cannot be taken |
| `Page.CalculatorOffered` | app.py:77-108 | for every non-empty frame the calculator is offered, and the low's date is within fourteen days before the high's date |
| `Page.LowNotAboveHigh` | app.py:70-82 | when every bar's Low is at most its High, `recent_low` is at most `recent_high` |
| `Page.PressWithDefaults` | app.py:103-115 | pressing with the pre-filled values shows figures if and only if `recent_high > recent_low > 0` |
| `Page.SampleHigh` | app.py:69-74 | on a six-bar frame the oldest bar is outside the tail; of two tied highs the first is taken |
| `Page.SampleWindow` | app.py:77-79 | on that frame a bar exactly fourteen days before the high is kept; a bar fifteen days before and a bar after the high are dropped |
| `Page.LowOfSampleWindow` | app.py:81-85 | a window of the sample's three bars (Lows 85, 90, 95) gives the low 85 of its first row, day 0 |
| `Page.SampleLow` | app.py:81-85 | on that frame the low is the one from the bar exactly fourteen days before the high |
| `Page.WorkedFrame` | app.py:68-85 | the page's full reading of that frame: high 100 on day 14, low 85 on day 0 |

Every function here is deterministic, so calling the calculator twice with
the same inputs gives the same figures; no lemma is needed for that.

## Left out

- Page layout, CSS, headings, captions and the `green_box` helper
  (app.py:9-48, 104-105, 117-120, 126-129): presentation only.
- The download `yf.download`, the company-name lookup `yf.Ticker(...).info`,
  `datetime.today()` and the 30-day fetch span (app.py:58-66): these are
  network and clock reads, so the frame is a parameter.
- The broad `except Exception` (app.py:99-100): the `try` at app.py:63
  wraps app.py:64-97, so the fetch, steps one and two and the quote display
  all sit inside it. On the model's inputs (exact reals and a date index)
  nothing in app.py:68-97 raises, so only the fetch at app.py:64-66, which
  is left out, can reach the handler.
- The `isinstance(..., pd.Series)` unwrapping of `idxmax`/`idxmin`
  (app.py:73-74, 84-85): in the model the argmax and argmin already return
  a single index.
- Date formatting with `strftime` and `:.2f` number formatting: presentation
  only.
- IEEE floating point: prices, the ratio and the width are exact reals.
  `math.floor` is Dafny's `Floor`, so it rounds toward negative infinity.
- The `number_input` widgets' `min_value=0.0` clamp (app.py:107-108):
  `Press` takes any two reals, because the guard already decides every
  input.
- Open and Close columns: the core never reads them.
