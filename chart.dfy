/**
 * The chart's small per-record accessors and the initial horizontal window
 * (the last 100 records).
 */
module ChartAccessors {
  import opened Wrappers
  import opened Records

  const UpColor: string := "#26a69a"
  const DownColor: string := "#ef5350"

  /** Fill colour of a volume bar and of the last-price edge indicator. */
  function OpenCloseColor(b: Bar): (c: string)
    ensures c == UpColor <==> b.close > b.open
    ensures c == DownColor <==> b.close <= b.open
  {
    if b.close > b.open then UpColor else DownColor
  }

  /** A record that closes where it opened is drawn in the down colour. */
  lemma UnchangedCloseIsDown(b: Bar)
    requires b.close == b.open
    ensures OpenCloseColor(b) == DownColor
  {
  }

  /** y-extents of the candlestick chart: the record's high and then its low. */
  function CandleChartExtents(b: Bar): (r: seq<real>)
    ensures |r| == 2 && r[0] == b.high && r[1] == b.low
  {
    [b.high, b.low]
  }

  /** y-extents of the volume chart: the record's volume. */
  function BarChartExtents(b: Bar): (v: real)
    ensures v == b.volume
  {
    b.volume
  }

  /** Height of a volume bar. */
  function YBarSeries(b: Bar): (v: real)
    ensures v == b.volume
  {
    b.volume
  }

  /** Value shown by the last-price edge indicator. */
  function YEdgeIndicator(b: Bar): (v: real)
    ensures v == b.close
  {
    b.close
  }

  /** A record whose close lies within its low..high range. */
  predicate WellFormed(b: Bar)
  {
    b.low <= b.close <= b.high
  }

  /**
   * The volume chart's extents cover every bar it draws, and for a
   * well-formed record the candlestick chart's extents cover the edge
   * indicator's value.
   */
  lemma SeriesWithinExtents(b: Bar)
    ensures YBarSeries(b) == BarChartExtents(b)
    ensures WellFormed(b) ==>
      CandleChartExtents(b)[1] <= YEdgeIndicator(b) <= CandleChartExtents(b)[0]
  {
  }

  /** The number of trailing records the chart shows initially. */
  const VisibleItems: nat := 100

  /**
   * The records whose x-positions become the initial `xExtents`: `start` is
   * the last record and `end` the one 99 positions before it, clamped at 0.
   */
  datatype ViewWindow = ViewWindow(start: nat, end: nat)

  /**
   * The initial view window over a series of `n` records. An empty series
   * has no last record, so the source's lookup fails; that is `None` here.
   */
  function InitialWindow(n: nat): (w: Option<ViewWindow>)
    ensures w.None? <==> n == 0
    ensures w.Some? ==>
      w.value.start == n - 1 &&
      w.value.end <= w.value.start < n &&
      w.value.start - w.value.end + 1 == (if n < VisibleItems then n else VisibleItems)
    ensures w.Some? && n <= VisibleItems ==> w.value.end == 0
  {
    if n == 0 then None
    else
      var last := n - 1;
      var first := if n - VisibleItems < 0 then 0 else n - VisibleItems;
      Some(ViewWindow(last, first))
  }

  /** Once the series holds at least 100 records, one more record slides the window by one. */
  lemma WindowSlides(n: nat)
    requires n >= VisibleItems
    ensures InitialWindow(n + 1).value.start == InitialWindow(n).value.start + 1
    ensures InitialWindow(n + 1).value.end == InitialWindow(n).value.end + 1
  {
  }
}
