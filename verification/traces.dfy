/**
 * Sequences of allocator events applied one after another to the counters:
 * what holds over any run of `alloc`, `dealloc`, `realloc` and `reset` calls
 * made one at a time.
 */
module Traces {
  import opened Wrappers
  import opened Accounting

  /** One call into the allocator, with whether the system allocator succeeded. */
  datatype Event =
    | Alloc(size: nat, succeeded: bool)
    | Dealloc(size: nat)
    | Realloc(oldSize: nat, newSize: nat, succeeded: bool)
    | Reset

  /** A block handed back can be no larger than the memory in use. */
  predicate Enabled(c: Counters, e: Event) {
    match e
    case Dealloc(size) => size <= c.useCurr
    case Realloc(oldSize, _, _) => oldSize <= c.useCurr
    case _ => true
  }

  function Apply(c: Counters, e: Event): (r: Counters)
    requires Enabled(c, e)
    ensures c.PeakCovers() ==> r.PeakCovers()
  {
    match e
    case Alloc(size, succeeded) => AllocStep(c, size, succeeded)
    case Dealloc(size) => DeallocStep(c, size)
    case Realloc(oldSize, newSize, succeeded) => ReallocStep(c, oldSize, newSize, succeeded)
    case Reset => ResetStep(c)
  }

  predicate Feasible(c: Counters, es: seq<Event>)
    decreases |es|
  {
    es == [] || (Enabled(c, es[0]) && Feasible(Apply(c, es[0]), es[1..]))
  }

  /** The counters after the events of `es`, in order. */
  function Run(c: Counters, es: seq<Event>): Counters
    requires Feasible(c, es)
    decreases |es|
  {
    if es == [] then c else Run(Apply(c, es[0]), es[1..])
  }

  predicate NoReset(es: seq<Event>) {
    forall i :: 0 <= i < |es| ==> !es[i].Reset?
  }

  /** The invariant holds from any covered start, in particular from the zero start. */
  lemma {:induction false} RunKeepsPeakCovered(c: Counters, es: seq<Event>)
    requires c.PeakCovers() && Feasible(c, es)
    ensures Run(c, es).PeakCovers()
    decreases |es|
  {
    if es != [] {
      RunKeepsPeakCovered(Apply(c, es[0]), es[1..]);
    }
  }

  lemma ReachableStatesCovered(es: seq<Event>)
    requires Feasible(Zero(), es)
    ensures Run(Zero(), es).PeakCovers()
  {
    RunKeepsPeakCovered(Zero(), es);
  }

  /** No counter except the current use is lowered by anything but `reset`. */
  predicate NoneLowered(c: Counters, d: Counters) {
    d.allocCount >= c.allocCount && d.allocSum >= c.allocSum &&
    d.reallocGrowthCount >= c.reallocGrowthCount && d.reallocGrowthSum >= c.reallocGrowthSum &&
    d.reallocShrinkCount >= c.reallocShrinkCount && d.reallocShrinkSum >= c.reallocShrinkSum &&
    d.useMax >= c.useMax
  }

  lemma {:induction false} MonotoneBetweenResets(c: Counters, es: seq<Event>)
    requires Feasible(c, es) && NoReset(es)
    ensures NoneLowered(c, Run(c, es))
    decreases |es|
  {
    if es != [] {
      assert !es[0].Reset?;
      MonotoneBetweenResets(Apply(c, es[0]), es[1..]);
    }
  }

  /**
   * The highest current use an event passes through: an allocation adds its
   * block before anything is taken away, and a reallocation holds the old and
   * the new block at once.
   */
  function TransientPeak(c: Counters, e: Event): nat {
    match e
    case Alloc(size, true) => c.useCurr + size
    case Realloc(_, newSize, true) => c.useCurr + newSize
    case _ => c.useCurr
  }

  /** The transient peaks of the events of `es` along the run. */
  function Peaks(c: Counters, es: seq<Event>): (ps: seq<nat>)
    requires Feasible(c, es)
    ensures |ps| == |es|
    decreases |es|
  {
    if es == [] then [] else [TransientPeak(c, es[0])] + Peaks(Apply(c, es[0]), es[1..])
  }

  /** Between resets `use_max` is at least every level the current use reached ... */
  lemma {:induction false} UseMaxCoversPeaks(c: Counters, es: seq<Event>)
    requires c.PeakCovers() && Feasible(c, es) && NoReset(es)
    ensures Run(c, es).useMax >= c.useMax
    ensures forall i :: 0 <= i < |es| ==> Peaks(c, es)[i] <= Run(c, es).useMax
    decreases |es|
  {
    if es != [] {
      assert !es[0].Reset?;
      var d := Apply(c, es[0]);
      UseMaxCoversPeaks(d, es[1..]);
      assert Peaks(c, es) == [TransientPeak(c, es[0])] + Peaks(d, es[1..]);
    }
  }

  /** ... and it is no higher than the start's peak or one of those levels. */
  lemma {:induction false} UseMaxIsAttained(c: Counters, es: seq<Event>)
    requires Feasible(c, es) && NoReset(es)
    ensures Run(c, es).useMax == c.useMax || Run(c, es).useMax in Peaks(c, es)
    decreases |es|
  {
    if es != [] {
      assert !es[0].Reset?;
      var d := Apply(c, es[0]);
      UseMaxIsAttained(d, es[1..]);
      assert Peaks(c, es) == [TransientPeak(c, es[0])] + Peaks(d, es[1..]);
      assert d.useMax == c.useMax || d.useMax == TransientPeak(c, es[0]);
    }
  }

  /** Bytes newly acquired by successful allocations and reallocations. */
  function Acquired(es: seq<Event>): nat
    decreases |es|
  {
    if es == [] then 0
    else
      (match es[0]
       case Alloc(size, true) => size
       case Realloc(_, newSize, true) => newSize
       case _ => 0) + Acquired(es[1..])
  }

  /** Number of successful allocations, reallocations included. */
  function Acquisitions(es: seq<Event>): nat
    decreases |es|
  {
    if es == [] then 0
    else
      (match es[0]
       case Alloc(_, true) => 1
       case Realloc(_, _, true) => 1
       case _ => 0) + Acquisitions(es[1..])
  }

  /** Bytes handed back by deallocations and by successful reallocations. */
  function Released(es: seq<Event>): nat
    decreases |es|
  {
    if es == [] then 0
    else
      (match es[0]
       case Dealloc(size) => size
       case Realloc(oldSize, _, true) => oldSize
       case _ => 0) + Released(es[1..])
  }

  /**
   * The current use moves by exactly what was acquired minus what was
   * released; `reset` never touches it.
   */
  lemma {:induction false} UseCurrBalance(c: Counters, es: seq<Event>)
    requires Feasible(c, es)
    ensures Run(c, es).useCurr + Released(es) == c.useCurr + Acquired(es)
    decreases |es|
  {
    if es != [] {
      UseCurrBalance(Apply(c, es[0]), es[1..]);
    }
  }

  /** Between resets the allocation count and sum record every acquisition, reallocations included. */
  lemma {:induction false} AllocFlowRecordsAcquisitions(c: Counters, es: seq<Event>)
    requires Feasible(c, es) && NoReset(es)
    ensures Run(c, es).allocCount == c.allocCount + Acquisitions(es)
    ensures Run(c, es).allocSum == c.allocSum + Acquired(es)
    decreases |es|
  {
    if es != [] {
      assert !es[0].Reset?;
      AllocFlowRecordsAcquisitions(Apply(c, es[0]), es[1..]);
    }
  }

  function Sum(sizes: seq<nat>): nat
    decreases |sizes|
  {
    if sizes == [] then 0 else sizes[0] + Sum(sizes[1..])
  }

  /** Successful allocations of the given sizes, in order. */
  function AllocsOf(sizes: seq<nat>): (es: seq<Event>)
    ensures |es| == |sizes|
    decreases |sizes|
  {
    if sizes == [] then [] else [Alloc(sizes[0], true)] + AllocsOf(sizes[1..])
  }

  lemma {:induction false} AllocsFromLevelPeak(d: Counters, sizes: seq<nat>)
    requires d.useMax == d.useCurr
    ensures Feasible(d, AllocsOf(sizes))
    ensures Run(d, AllocsOf(sizes)) ==
            d.(allocCount := d.allocCount + |sizes|, allocSum := d.allocSum + Sum(sizes),
               useCurr := d.useCurr + Sum(sizes), useMax := d.useCurr + Sum(sizes))
    decreases |sizes|
  {
    if sizes != [] {
      var es := AllocsOf(sizes);
      assert es[0] == Alloc(sizes[0], true) && es[1..] == AllocsOf(sizes[1..]);
      AllocsFromLevelPeak(AllocStep(d, sizes[0], true), sizes[1..]);
    }
  }

  /**
   * Additivity: after a reset, N successful allocations of sizes s1..sN give
   * `alloc_count == N`, `alloc_sum == s1 + ... + sN`, the average as their
   * rounded-down mean, and raise both use levels by the same total.
   */
  lemma AllocsAccumulate(c: Counters, sizes: seq<nat>)
    ensures Feasible(ResetStep(c), AllocsOf(sizes))
    ensures var r := Run(ResetStep(c), AllocsOf(sizes));
            r.allocCount == |sizes| && r.allocSum == Sum(sizes) &&
            r.useCurr == c.useCurr + Sum(sizes) && r.useMax == c.useCurr + Sum(sizes) &&
            Snapshot(r).allocAvg == (if sizes == [] then None else Some(Sum(sizes) / |sizes|))
  {
    AllocsFromLevelPeak(ResetStep(c), sizes);
  }
}
