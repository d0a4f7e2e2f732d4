# tradechart stock chart: decision rules of the indicator pipeline

A Dafny model of the logic in `src/uiComponents/tsChart.tsx` of the tradechart
stock-chart component. The chart decorates a parsed OHLC series in three stages,
`buySell(ema26(ema12(initialData)))`. The two EMA stages merge a 12-period and a
26-period exponential moving average into each record. The buy/sell stage slides a
window of two records over the series. Its accumulator signals LONG when the short
EMA crosses above the long one and SHORT when it crosses below. The chart also defines
a few per-record accessors, the initial view window (the last 100 records) and the
row list of the hover tooltip.

Modules:

- `Wrappers`: `Option`. `None` stands for a JavaScript `undefined` field.
- `Crossover`: the `Signal` and `EmaPair` values and the accumulator `Accumulate`.
  JavaScript `<` and `>` on an `undefined` operand are false, so a missing EMA gives
  no signal. The lemmas cover exclusivity, ties, missing data and the swap symmetry.
- `Records`: `OhlcRecord`, a class whose derived fields the merge callbacks write in
  place. `Bar` is a value snapshot of the record's fields, read by the pure accessors.
  Ghost flags record which EMA merges have already run on a record.
- `Stages`: the EMA stages as loops that merge one value per record, the crossover
  stage on one window, and the stage composition.
- `ChartAccessors`: `openCloseColor`, the extent and series accessors, and the initial
  x window.
- `Tooltip`: JavaScript values and their truthiness, the price rows, the caller rows,
  `.filter`, and `tooltipContent`. The source's row field `label` is called `caption`
  here because `label` is a Dafny keyword.

Stage order and signals, as the source has them:

- The source has no run-time check of stage order. The order comes only from the
  composition on line 126. The model states that order as the precondition of
  `Stages.BuySellWindow`, and `Stages.Calculate` proves the composition discharges it.
- "No signal" is the accumulator returning `undefined`, so `longShort` is `undefined`.
  `Signal.NoSignal` models that value.
- Equal EMAs give no signal, because the comparisons on lines 97-98 are strict.

Reference definitions used by the contracts: `Crossover.Below` and `Crossover.Above`
are JavaScript `<` and `>` on a possibly-undefined operand (lines 97-98), and
`Tooltip.Truthy` is the truthiness test behind `&&` and `.filter` (lines 36-58).
`Tooltip.LinesShown` and `Tooltip.PriceRowShown` give the tooltip rows without
`And` or `Filter`.

## Model

| member | source | states |
|---|---|---|
| `Crossover.Accumulate` | src/uiComponents/tsChart.tsx:94-99 | LONG exactly when both EMAs are set in both records, prev short < prev long and now short > now long; SHORT exactly when both are set, prev short > prev long and now short < now long |
| `Crossover.LongAndShortExclusive` | src/uiComponents/tsChart.tsx:97-98 | the LONG test and the SHORT test never hold at once |
| `Crossover.MissingGivesNoSignal` | src/uiComponents/tsChart.tsx:94-99 | an EMA missing in either record gives no signal |
| `Crossover.TieGivesNoSignal` | src/uiComponents/tsChart.tsx:97-98 | equal EMAs at prev or at now give no signal |
| `Crossover.NoCrossGivesNoSignal` | src/uiComponents/tsChart.tsx:97-98 | EMAs that keep their order across the window give no signal |
| `Crossover.SwapMirrorsSignal` | src/uiComponents/tsChart.tsx:97-98 | exchanging short and long EMA in both records turns LONG into SHORT and back, and keeps no signal as no signal |
| `Crossover.ReversedWindowMirrorsSignal` | src/uiComponents/tsChart.tsx:97-98 | reading the window backwards gives the opposite signal |
| `Records.OhlcRecord.constructor` | src/uiComponents/utils.js:5-14 | a freshly parsed record has its price fields, no EMA and no signal, and no merge has run on it |
| `Records.OhlcRecord.MergeEma12` | src/uiComponents/tsChart.tsx:83 | writes `ema12` and leaves every other field unchanged |
| `Records.OhlcRecord.MergeEma26` | src/uiComponents/tsChart.tsx:89 | writes `ema26` and leaves every other field unchanged |
| `Records.OhlcRecord.MergeLongShort` | src/uiComponents/tsChart.tsx:100 | writes `longShort` and leaves every other field unchanged |
| `Stages.Ema12Stage` | src/uiComponents/tsChart.tsx:80-84 | record i receives the i-th EMA-12 value; nothing else of any record changes |
| `Stages.Ema26Stage` | src/uiComponents/tsChart.tsx:86-90 | record i receives the i-th EMA-26 value; nothing else of any record changes |
| `Stages.BuySellWindow` | src/uiComponents/tsChart.tsx:92-100 | needs both EMA merges done on both records; the last record of the window gets the accumulator's signal for the window, and nothing else changes |
| `Stages.Calculate` | src/uiComponents/tsChart.tsx:126 | after `ema26(ema12(data))` every record holds its two EMA values with prices and signal untouched, and every record meets the crossover stage's precondition |
| `Stages.CalculateAt` | src/uiComponents/tsChart.tsx:126 | on a series of any length, after both EMA stages the crossover on window [i-1, i] leaves in record i the signal of the freshly merged EMAs; every other record holds just its two EMA values |
| `Stages.CalculatePair` | src/uiComponents/tsChart.tsx:126 | on a two-record series the full composition leaves the signal computed from the freshly merged EMAs in the second record |
| `ChartAccessors.OpenCloseColor` | src/uiComponents/tsChart.tsx:290-292 | up colour exactly when close > open strictly, down colour exactly otherwise |
| `ChartAccessors.UnchangedCloseIsDown` | src/uiComponents/tsChart.tsx:290-292 | a record with close equal to open is drawn in the down colour |
| `ChartAccessors.CandleChartExtents` | src/uiComponents/tsChart.tsx:278-280 | two extents, the record's high then its low |
| `ChartAccessors.BarChartExtents` | src/uiComponents/tsChart.tsx:274-276 | the record's volume |
| `ChartAccessors.YBarSeries` | src/uiComponents/tsChart.tsx:282-284 | the record's volume |
| `ChartAccessors.YEdgeIndicator` | src/uiComponents/tsChart.tsx:286-288 | the record's close |
| `ChartAccessors.SeriesWithinExtents` | src/uiComponents/tsChart.tsx:274-288 | each volume bar's height is its volume extent; for a record with low <= close <= high, the edge indicator lies within the candle extents |
| `ChartAccessors.InitialWindow` | src/uiComponents/tsChart.tsx:137-139 | empty data has no window; otherwise it spans the last index n-1 and max(0, n-100), both valid indices, covering min(n, 100) records |
| `ChartAccessors.WindowSlides` | src/uiComponents/tsChart.tsx:137-139 | from 100 records on, one more record moves both ends of the window by one |
| `Tooltip.And` | src/uiComponents/tsChart.tsx:36 | JavaScript `a && b`: truthy iff both are; `b` when `a` is truthy, `a` otherwise |
| `Tooltip.PriceValue` | src/uiComponents/tsChart.tsx:36-48 | a price row value is truthy iff the price is non-zero, and it is then the formatted price |
| `Tooltip.PriceRows` | src/uiComponents/tsChart.tsx:33-50 | four rows labelled open, high, low, close in that order, with their price values and no stroke |
| `Tooltip.LineRows` | src/uiComponents/tsChart.tsx:51-57 | one row per caller line, in order, carrying its label, its value at the record and its stroke |
| `Tooltip.Filter` | src/uiComponents/tsChart.tsx:58 | keeps no more rows than given, and only truthy ones |
| `Tooltip.TooltipContent` | src/uiComponents/tsChart.tsx:29-61 | x is the x accessor's value for the record; every row has a truthy value; at most 4 + the number of caller lines |
| `Tooltip.FilterSingle` | src/uiComponents/tsChart.tsx:58 | a single row survives iff its value is truthy |
| `Tooltip.FilterConcat` | src/uiComponents/tsChart.tsx:51-58 | filtering a concatenation filters each part and keeps the parts in order |
| `Tooltip.FilterMembership` | src/uiComponents/tsChart.tsx:58 | a row is kept iff it is in the input with a truthy value |
| `Tooltip.FilterKeepsTruthy` | src/uiComponents/tsChart.tsx:58 | rows that are all truthy pass unchanged |
| `Tooltip.LinesShown` | src/uiComponents/tsChart.tsx:51-58 | the caller lines whose value is truthy, as rows, in the caller's order; never more rows than lines |
| `Tooltip.LineRowsFiltered` | src/uiComponents/tsChart.tsx:51-58 | mapping caller lines to rows then filtering equals keeping the truthy lines then mapping |
| `Tooltip.TooltipRows` | src/uiComponents/tsChart.tsx:33-58 | the rows are open, high, low, close (each only when non-zero, showing the formatted price), then the caller lines with truthy values, in the caller's order |
| `Tooltip.TooltipShowsEverything` | src/uiComponents/tsChart.tsx:33-58 | with all prices non-zero and all caller values truthy, every row is shown in order |

## Left out

- The EMA recurrence and Elder Ray bull/bear power (lines 7, 80-90, 124). They come from the charting library. They are floating-point numerics. The EMA values are opaque inputs to the EMA stages.
- The discontinuous time-scale provider and its `xAccessor` (lines 9, 67-68, 135). `ChartAccessors.InitialWindow` gives the record positions whose x values become `xExtents`. The mapping from position to x value is not modelled.
- The sliding-window driver `algo` (lines 16, 92-93). It lives in `src/data/algo`, which is not part of this model. It decides which windows are formed, what the leading record receives and which record of a window the merge writes. `Stages.BuySellWindow` models one window and merges into its last record. That placement is an assumption about `algo`, whose code is not part of this model.
- Stages.Ema12Stage: requires the records to be distinct objects. A duplicated object would keep only the last value merged into it. Parsed data never repeats an object.
- Stages.Ema26Stage: requires distinct records, as `Ema12Stage` does.
- Stages.BuySellWindow: requires both EMA merges to have run on both records. The source does not check this. It holds by the composition on line 126, which `Stages.Calculate` proves.
- JSX rendering (lines 151-271). This includes the `Annotate` conditions on `longShort` (234-237), the EMA lines passed to the hover tooltip (215-232), and the layout height arithmetic (141-147).
- `d3-format` and `d3-time-format` (lines 26-27, 149). A formatted number is the opaque, always truthy `Formatted(x)`. The tooltip's `x` is left as the unformatted x value.
- NaN. JavaScript treats NaN as falsy and compares it false. Prices and EMAs are modelled as reals, so NaN cannot occur.
- The unary `+` number conversion and the `timeParse` date parsing in `parseData` (`src/uiComponents/utils.js`) are not modelled; the `OhlcRecord` constructor takes the already-parsed values.
- `getData` and `useFetch` in `src/uiComponents/utils.js`, `src/app.tsx` and `src/uiComponents/ohlcData.js`. These are network access, React hooks and UI.
