/**
 * The stage composition `buySell(ema26(ema12(initialData)))`: each EMA stage
 * merges one opaque value per record into that record's own field, and the
 * crossover stage reads both EMA fields of a window and merges its signal.
 */
module Stages {
  import opened Wrappers
  import opened Crossover
  import opened Records

  /** No record object occurs twice in the series. */
  ghost predicate Distinct(data: seq<OhlcRecord>)
  {
    forall i, j :: 0 <= i < j < |data| ==> data[i] != data[j]
  }

  /**
   * The merge half of `ema12(data)`: record `i` receives `values[i]`, the
   * value the EMA calculator produced for it (an input here), and nothing
   * else of any record changes.
   */
  method Ema12Stage(data: seq<OhlcRecord>, values: seq<Option<real>>)
    requires |values| == |data| && Distinct(data)
    modifies set r | r in data
    ensures forall i :: 0 <= i < |data| ==>
      data[i].Snapshot() == old(data[i].Snapshot()).(ema12 := values[i])
    ensures forall i :: 0 <= i < |data| ==>
      data[i].ema12Merged && data[i].ema26Merged == old(data[i].ema26Merged)
  {
    for k := 0 to |data|
      invariant forall i :: 0 <= i < k ==>
        data[i].Snapshot() == old(data[i].Snapshot()).(ema12 := values[i])
      invariant forall i :: 0 <= i < k ==>
        data[i].ema12Merged && data[i].ema26Merged == old(data[i].ema26Merged)
      invariant forall i :: k <= i < |data| ==>
        data[i].Snapshot() == old(data[i].Snapshot()) &&
        data[i].ema12Merged == old(data[i].ema12Merged) &&
        data[i].ema26Merged == old(data[i].ema26Merged)
    {
      data[k].MergeEma12(values[k]);
    }
  }

  /** The merge half of `ema26(data)`, as `Ema12Stage` for the long EMA. */
  method Ema26Stage(data: seq<OhlcRecord>, values: seq<Option<real>>)
    requires |values| == |data| && Distinct(data)
    modifies set r | r in data
    ensures forall i :: 0 <= i < |data| ==>
      data[i].Snapshot() == old(data[i].Snapshot()).(ema26 := values[i])
    ensures forall i :: 0 <= i < |data| ==>
      data[i].ema26Merged && data[i].ema12Merged == old(data[i].ema12Merged)
  {
    for k := 0 to |data|
      invariant forall i :: 0 <= i < k ==>
        data[i].Snapshot() == old(data[i].Snapshot()).(ema26 := values[i])
      invariant forall i :: 0 <= i < k ==>
        data[i].ema26Merged && data[i].ema12Merged == old(data[i].ema12Merged)
      invariant forall i :: k <= i < |data| ==>
        data[i].Snapshot() == old(data[i].Snapshot()) &&
        data[i].ema12Merged == old(data[i].ema12Merged) &&
        data[i].ema26Merged == old(data[i].ema26Merged)
    {
      data[k].MergeEma26(values[k]);
    }
  }

  /**
   * One window `[prev, now]` of the buy/sell detector: the accumulator reads
   * both EMA fields of both records and the result is merged into `now`, the
   * window's last record. Only `now.longShort` changes. The precondition is
   * the ordering obligation that the composition discharges (see `Calculate`).
   */
  method BuySellWindow(prev: OhlcRecord, now: OhlcRecord)
    requires prev.Ready() && now.Ready()
    modifies now
    ensures now.Snapshot() ==
      old(now.Snapshot()).(longShort := Accumulate(old(prev.Snapshot()).Emas(), old(now.Snapshot()).Emas()))
    ensures prev != now ==> prev.Snapshot() == old(prev.Snapshot())
    ensures now.Ready()
  {
    var signal := Accumulate(EmaPair(prev.ema12, prev.ema26), EmaPair(now.ema12, now.ema26));
    now.MergeLongShort(signal);
  }

  /**
   * The EMA stages of `buySell(ema26(ema12(initialData)))`, in that order:
   * afterwards every record holds its two EMA values, its price fields and
   * signal are untouched, and every record is ready for the crossover stage.
   */
  method Calculate(data: seq<OhlcRecord>, short: seq<Option<real>>, long: seq<Option<real>>)
    requires |short| == |data| && |long| == |data| && Distinct(data)
    modifies set r | r in data
    ensures forall i :: 0 <= i < |data| ==>
      data[i].Snapshot() == old(data[i].Snapshot()).(ema12 := short[i], ema26 := long[i])
    ensures forall i :: 0 <= i < |data| ==> data[i].Ready()
  {
    Ema12Stage(data, short);
    Ema26Stage(data, long);
  }

  /**
   * The whole composition on a series of any length, followed by the
   * crossover stage on the window `[data[i-1], data[i]]`: record `i` ends up
   * with the signal computed from the EMAs just merged into both records.
   */
  method CalculateAt(data: seq<OhlcRecord>, short: seq<Option<real>>, long: seq<Option<real>>, i: nat)
    requires |short| == |data| && |long| == |data| && Distinct(data)
    requires 0 < i < |data|
    modifies set r | r in data
    ensures data[i].longShort == Accumulate(EmaPair(short[i - 1], long[i - 1]), EmaPair(short[i], long[i]))
    ensures data[i].Snapshot() == old(data[i].Snapshot()).(ema12 := short[i], ema26 := long[i],
      longShort := Accumulate(EmaPair(short[i - 1], long[i - 1]), EmaPair(short[i], long[i])))
    ensures forall j :: 0 <= j < |data| && j != i ==>
      data[j].Snapshot() == old(data[j].Snapshot()).(ema12 := short[j], ema26 := long[j])
  {
    Calculate(data, short, long);
    BuySellWindow(data[i - 1], data[i]);
  }

  /**
   * The whole composition on a two-record series `[prev, now]`: after both
   * EMA stages the crossover stage may read the window, and `now` ends up with
   * the signal computed from the freshly merged EMAs.
   */
  method CalculatePair(prev: OhlcRecord, now: OhlcRecord, short: seq<Option<real>>, long: seq<Option<real>>)
    requires prev != now && |short| == 2 && |long| == 2
    modifies prev, now
    ensures prev.Snapshot() == old(prev.Snapshot()).(ema12 := short[0], ema26 := long[0])
    ensures now.Snapshot() == old(now.Snapshot()).(ema12 := short[1], ema26 := long[1],
      longShort := Accumulate(EmaPair(short[0], long[0]), EmaPair(short[1], long[1])))
  {
    var series := [prev, now];
    Calculate(series, short, long);
    assert series[0] == prev && series[1] == now;
    assert prev.Snapshot() == series[0].Snapshot() && prev.Ready() && now.Ready();
    BuySellWindow(prev, now);
  }
}
