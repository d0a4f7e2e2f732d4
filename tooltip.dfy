/**
 * The hover tooltip's row list: four rows for open, high, low and close,
 * followed by the caller's rows, with every row whose value is falsy removed.
 */
module Tooltip {
  import opened Wrappers
  import opened Records

  /**
   * The JavaScript values a tooltip row can hold. `Formatted(x)` is the text
   * `numberFormat(x)` produces: a non-empty string whose digits are not
   * modelled.
   */
  datatype JsValue = Undefined | Num(x: real) | Text(s: string) | Formatted(x: real)

  /** JavaScript truthiness of those values. */
  predicate Truthy(v: JsValue)
  {
    match v
    case Undefined => false
    case Num(x) => x != 0.0
    case Text(s) => s != ""
    case Formatted(_) => true
  }

  /** JavaScript `a && b`: `b` when `a` is truthy, otherwise `a` itself. */
  function And(a: JsValue, b: JsValue): (r: JsValue)
    ensures Truthy(r) <==> Truthy(a) && Truthy(b)
    ensures Truthy(a) ==> r == b
    ensures !Truthy(a) ==> r == a
  {
    if Truthy(a) then b else a
  }

  /** One line of the tooltip; the four price rows carry no stroke. */
  datatype Row = Row(caption: string, value: JsValue, stroke: Option<string>)

  /** A caller-supplied line: its caption, how to read its value from a record, its stroke. */
  datatype LineSpec = LineSpec(caption: string, value: Bar -> JsValue, stroke: Option<string>)

  /** What the tooltip shows: the record's x value (formatted as a date) and its rows. */
  datatype Content = Content(x: int, y: seq<Row>)

  /** `price && numberFormat(price)` for one price field. */
  function PriceValue(price: real): (v: JsValue)
    ensures Truthy(v) <==> price != 0.0
    ensures Truthy(v) ==> v == Formatted(price)
  {
    And(Num(price), Formatted(price))
  }

  /** The four price rows, before filtering. */
  function PriceRows(b: Bar): (rows: seq<Row>)
    ensures |rows| == 4
    ensures rows[0].caption == "open" && rows[1].caption == "high" &&
            rows[2].caption == "low" && rows[3].caption == "close"
    ensures rows[0].value == PriceValue(b.open) && rows[1].value == PriceValue(b.high) &&
            rows[2].value == PriceValue(b.low) && rows[3].value == PriceValue(b.close)
    ensures forall i :: 0 <= i < 4 ==> rows[i].stroke == None
  {
    [Row("open", PriceValue(b.open), None),
     Row("high", PriceValue(b.high), None),
     Row("low", PriceValue(b.low), None),
     Row("close", PriceValue(b.close), None)]
  }

  /** `ys.map(...)`: one row per caller line, in the caller's order. */
  function LineRows(ys: seq<LineSpec>, b: Bar): (rows: seq<Row>)
    ensures |rows| == |ys|
    ensures forall i :: 0 <= i < |ys| ==>
      rows[i] == Row(ys[i].caption, ys[i].value(b), ys[i].stroke)
  {
    seq(|ys|, i requires 0 <= i < |ys| => Row(ys[i].caption, ys[i].value(b), ys[i].stroke))
  }

  /** `.filter(line => line.value)`: the rows with a truthy value, in order. */
  function Filter(rows: seq<Row>): (kept: seq<Row>)
    ensures |kept| <= |rows|
    ensures forall i :: 0 <= i < |kept| ==> Truthy(kept[i].value)
  {
    if rows == [] then []
    else (if Truthy(rows[0].value) then [rows[0]] else []) + Filter(rows[1..])
  }

  /** The tooltip for the record under the mouse; `xAccessor` is the chart's x accessor. */
  function TooltipContent(ys: seq<LineSpec>, currentItem: Bar, xAccessor: Bar -> int): (c: Content)
    ensures c.x == xAccessor(currentItem)
    ensures forall i :: 0 <= i < |c.y| ==> Truthy(c.y[i].value)
    ensures |c.y| <= 4 + |ys|
  {
    Content(xAccessor(currentItem), Filter(PriceRows(currentItem) + LineRows(ys, currentItem)))
  }

  // ---------------------------------------------------------------------------
  // What the filter keeps

  /** A single row survives exactly when its value is truthy. */
  lemma FilterSingle(row: Row)
    ensures Filter([row]) == if Truthy(row.value) then [row] else []
  {
    assert [row][1..] == [];
  }

  /** Filtering a concatenation filters each part and keeps them in order. */
  lemma {:induction false} FilterConcat(a: seq<Row>, b: seq<Row>)
    ensures Filter(a + b) == Filter(a) + Filter(b)
  {
    if a == [] {
      assert a + b == b;
    } else {
      assert (a + b)[0] == a[0];
      assert (a + b)[1..] == a[1..] + b;
      FilterConcat(a[1..], b);
    }
  }

  /** A row is kept exactly when it occurs in the input with a truthy value. */
  lemma {:induction false} FilterMembership(rows: seq<Row>, row: Row)
    ensures row in Filter(rows) <==> row in rows && Truthy(row.value)
  {
    if rows != [] {
      FilterMembership(rows[1..], row);
      assert rows == [rows[0]] + rows[1..];
    }
  }

  /** Rows that are all truthy pass unchanged. */
  lemma {:induction false} FilterKeepsTruthy(rows: seq<Row>)
    requires forall i :: 0 <= i < |rows| ==> Truthy(rows[i].value)
    ensures Filter(rows) == rows
  {
    if rows != [] {
      FilterKeepsTruthy(rows[1..]);
    }
  }

  // ---------------------------------------------------------------------------
  // The tooltip's rows, stated without the filter

  /** The price row for one field when that price is non-zero, else nothing. */
  function PriceRowShown(caption: string, price: real): seq<Row>
  {
    if price != 0.0 then [Row(caption, Formatted(price), None)] else []
  }

  /** The caller lines whose value at `b` is truthy, as rows, in the caller's order. */
  function LinesShown(ys: seq<LineSpec>, b: Bar): (rows: seq<Row>)
    ensures |rows| <= |ys|
  {
    if ys == [] then []
    else
      (if Truthy(ys[0].value(b)) then [Row(ys[0].caption, ys[0].value(b), ys[0].stroke)] else [])
      + LinesShown(ys[1..], b)
  }

  /** Mapping the lines to rows and then filtering is filtering the lines and then mapping. */
  lemma {:induction false} LineRowsFiltered(ys: seq<LineSpec>, b: Bar)
    ensures Filter(LineRows(ys, b)) == LinesShown(ys, b)
  {
    if ys != [] {
      var rows := LineRows(ys, b);
      assert rows[1..] == LineRows(ys[1..], b);
      LineRowsFiltered(ys[1..], b);
    }
  }

  /**
   * The tooltip's rows are, in this order: open, high, low and close, each
   * only when that price is non-zero and then showing its formatted value;
   * then the caller's lines whose value is truthy, in the caller's order.
   */
  lemma TooltipRows(ys: seq<LineSpec>, b: Bar, xAccessor: Bar -> int)
    ensures TooltipContent(ys, b, xAccessor).y ==
      PriceRowShown("open", b.open) + PriceRowShown("high", b.high) +
      PriceRowShown("low", b.low) + PriceRowShown("close", b.close) +
      LinesShown(ys, b)
  {
    var p := PriceRows(b);
    FilterConcat(p, LineRows(ys, b));
    LineRowsFiltered(ys, b);
    assert p == [p[0]] + [p[1]] + [p[2]] + [p[3]];
    FilterConcat([p[0]] + [p[1]] + [p[2]], [p[3]]);
    FilterConcat([p[0]] + [p[1]], [p[2]]);
    FilterConcat([p[0]], [p[1]]);
    FilterSingle(p[0]);
    FilterSingle(p[1]);
    FilterSingle(p[2]);
    FilterSingle(p[3]);
  }

  /** When every price is non-zero and every caller value truthy, every row is shown. */
  lemma TooltipShowsEverything(ys: seq<LineSpec>, b: Bar, xAccessor: Bar -> int)
    requires b.open != 0.0 && b.high != 0.0 && b.low != 0.0 && b.close != 0.0
    requires forall i :: 0 <= i < |ys| ==> Truthy(ys[i].value(b))
    ensures TooltipContent(ys, b, xAccessor).y == PriceRows(b) + LineRows(ys, b)
  {
    var all := PriceRows(b) + LineRows(ys, b);
    forall i | 0 <= i < |all| ensures Truthy(all[i].value) {
      if i >= 4 {
        assert all[i] == LineRows(ys, b)[i - 4];
      }
    }
    FilterKeepsTruthy(all);
  }
}
