/**
 * The EMA crossover accumulator of the chart's buy/sell detector: given two
 * consecutive records, each carrying a short-period EMA (`ema12`) and a
 * long-period EMA (`ema26`), it signals LONG when the short EMA crosses the
 * long one upwards and SHORT when it crosses downwards.
 *
 * EMA values are opaque inputs; only comparisons are applied to them.
 */
module Crossover {
  import opened Wrappers

  /** What the accumulator returns: "LONG", "SHORT" or nothing (`undefined`). */
  datatype Signal = Long | Short | NoSignal

  /** The two EMA fields of one record; `None` when the field is not set. */
  datatype EmaPair = EmaPair(short: Option<real>, long: Option<real>)

  /** JavaScript `a < b` on possibly-undefined numbers: false when either side is undefined. */
  predicate Below(a: Option<real>, b: Option<real>)
  {
    a.Some? && b.Some? && a.value < b.value
  }

  /** JavaScript `a > b` on possibly-undefined numbers: false when either side is undefined. */
  predicate Above(a: Option<real>, b: Option<real>)
  {
    a.Some? && b.Some? && a.value > b.value
  }

  /** Both EMAs of a record are set. */
  predicate Defined(p: EmaPair)
  {
    p.short.Some? && p.long.Some?
  }

  /** The accumulator applied to the window `[prev, now]`. */
  function Accumulate(prev: EmaPair, now: EmaPair): (r: Signal)
    ensures r == Long <==>
      Defined(prev) && Defined(now) &&
      prev.short.value < prev.long.value && now.short.value > now.long.value
    ensures r == Short <==>
      Defined(prev) && Defined(now) &&
      prev.short.value > prev.long.value && now.short.value < now.long.value
  {
    if Below(prev.short, prev.long) && Above(now.short, now.long) then Long
    else if Above(prev.short, prev.long) && Below(now.short, now.long) then Short
    else NoSignal
  }

  /** The record with the roles of its short and long EMA exchanged. */
  function Swap(p: EmaPair): (q: EmaPair)
    ensures q.short == p.long && q.long == p.short
  {
    EmaPair(p.long, p.short)
  }

  /** LONG and SHORT exchanged; no signal stays no signal. */
  function Opposite(s: Signal): (t: Signal)
    ensures s == Long <==> t == Short
    ensures s == Short <==> t == Long
    ensures s == NoSignal <==> t == NoSignal
  {
    match s
    case Long => Short
    case Short => Long
    case NoSignal => NoSignal
  }

  /** The LONG condition and the SHORT condition never hold together. */
  lemma LongAndShortExclusive(prev: EmaPair, now: EmaPair)
    ensures !(Below(prev.short, prev.long) && Above(now.short, now.long) &&
              Above(prev.short, prev.long) && Below(now.short, now.long))
  {
  }

  /** A window in which some EMA is missing gives no signal. */
  lemma MissingGivesNoSignal(prev: EmaPair, now: EmaPair)
    requires !Defined(prev) || !Defined(now)
    ensures Accumulate(prev, now) == NoSignal
  {
  }

  /** Equal EMAs at either end of the window give no signal: a touch is not a cross. */
  lemma TieGivesNoSignal(prev: EmaPair, now: EmaPair)
    requires prev.short == prev.long || now.short == now.long
    ensures Accumulate(prev, now) == NoSignal
  {
  }

  /** An EMA pair that does not change its order across the window gives no signal. */
  lemma NoCrossGivesNoSignal(prev: EmaPair, now: EmaPair)
    requires Defined(prev) && Defined(now)
    requires (prev.short.value < prev.long.value) == (now.short.value < now.long.value)
    requires (prev.short.value > prev.long.value) == (now.short.value > now.long.value)
    ensures Accumulate(prev, now) == NoSignal
  {
  }

  /** Exchanging the short and long EMA in both records mirrors the signal. */
  lemma SwapMirrorsSignal(prev: EmaPair, now: EmaPair)
    ensures Accumulate(Swap(prev), Swap(now)) == Opposite(Accumulate(prev, now))
  {
  }

  /** Reversing the window: a LONG crossing read backwards is a SHORT crossing. */
  lemma ReversedWindowMirrorsSignal(prev: EmaPair, now: EmaPair)
    ensures Accumulate(now, prev) == Opposite(Accumulate(prev, now))
  {
  }
}
