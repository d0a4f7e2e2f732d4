/**
 * An OHLC record as the chart's pipeline sees it: the parsed price fields
 * plus the derived fields that the merge callbacks write into the same
 * object in place (`ema12`, `ema26`, `longShort`).
 */
module Records {
  import opened Wrappers
  import opened Crossover

  /** A snapshot of a record's fields, read by the pure accessors. */
  datatype Bar = Bar(
    date: int,
    open: real, high: real, low: real, close: real, volume: real,
    ema12: Option<real>, ema26: Option<real>, longShort: Signal)
  {
    /** The two EMA fields the crossover accumulator destructures. */
    function Emas(): (p: EmaPair)
      ensures p.short == ema12 && p.long == ema26
    {
      EmaPair(ema12, ema26)
    }
  }

  class OhlcRecord {
    var date: int
    var open: real
    var high: real
    var low: real
    var close: real
    var volume: real
    var ema12: Option<real>
    var ema26: Option<real>
    var longShort: Signal

    /** Whether the `ema12` (resp. `ema26`) merge has written this record. */
    ghost var ema12Merged: bool
    ghost var ema26Merged: bool

    /** A freshly parsed record: no derived field is set. */
    constructor (date: int, open: real, high: real, low: real, close: real, volume: real)
      ensures Snapshot() == Bar(date, open, high, low, close, volume, None, None, NoSignal)
      ensures !ema12Merged && !ema26Merged
    {
      this.date, this.open, this.high, this.low, this.close, this.volume :=
        date, open, high, low, close, volume;
      ema12, ema26, longShort := None, None, NoSignal;
      ema12Merged, ema26Merged := false, false;
    }

    function Snapshot(): Bar
      reads this
    {
      Bar(date, open, high, low, close, volume, ema12, ema26, longShort)
    }

    /** Both EMA merges have run on this record, so the crossover may read it. */
    ghost predicate Ready()
      reads this
    {
      ema12Merged && ema26Merged
    }

    /** The `ema12` merge callback: `d.ema12 = c`. */
    method MergeEma12(c: Option<real>)
      modifies this
      ensures Snapshot() == old(Snapshot()).(ema12 := c)
      ensures ema12Merged && ema26Merged == old(ema26Merged)
    {
      ema12 := c;
      ema12Merged := true;
    }

    /** The `ema26` merge callback: `d.ema26 = c`. */
    method MergeEma26(c: Option<real>)
      modifies this
      ensures Snapshot() == old(Snapshot()).(ema26 := c)
      ensures ema26Merged && ema12Merged == old(ema12Merged)
    {
      ema26 := c;
      ema26Merged := true;
    }

    /** The buy/sell merge callback: `d.longShort = c`. */
    method MergeLongShort(c: Signal)
      modifies this
      ensures Snapshot() == old(Snapshot()).(longShort := c)
      ensures ema12Merged == old(ema12Merged) && ema26Merged == old(ema26Merged)
    {
      longShort := c;
    }
  }
}
