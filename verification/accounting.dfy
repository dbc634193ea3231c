/**
 * The counters kept by the statistics allocator, taken as one value, and the
 * rules by which each allocator event updates them (src/lib.rs).
 * The class in module Allocator holds the same eight counters as mutable
 * fields; its methods are specified by the step functions below.
 */
module Accounting {
  import opened Wrappers

  function Max(a: nat, b: nat): nat {
    if a < b then b else a
  }

  /**
   * `usize::checked_div`: `None` for a zero divisor, otherwise the quotient
   * rounded down.
   */
  function CheckedDiv(dividend: nat, divisor: nat): (r: Option<nat>)
    ensures r == None <==> divisor == 0
    ensures r.Some? ==> r.value * divisor <= dividend < r.value * divisor + divisor
  {
    if divisor == 0 then None else Some(dividend / divisor)
  }

  /** The eight process-wide counters. */
  datatype Counters = Counters(
    allocCount: nat,
    allocSum: nat,
    reallocGrowthCount: nat,
    reallocGrowthSum: nat,
    reallocShrinkCount: nat,
    reallocShrinkSum: nat,
    useCurr: nat,
    useMax: nat)
  {
    /** The peak invariant: the high-water mark is never below the current use. */
    predicate PeakCovers() {
      useMax >= useCurr
    }

    /** The six flow counters (counts and sums) are all zero. */
    predicate FlowCleared() {
      allocCount == 0 && allocSum == 0 &&
      reallocGrowthCount == 0 && reallocGrowthSum == 0 &&
      reallocShrinkCount == 0 && reallocShrinkSum == 0
    }
  }

  /** Every counter starts at zero when the process starts. */
  function Zero(): (c: Counters)
    ensures c.FlowCleared() && c.PeakCovers() && c.useCurr == 0 && c.useMax == 0
  {
    Counters(0, 0, 0, 0, 0, 0, 0, 0)
  }

  /** The snapshot returned by `stats()`. */
  datatype SystemStats = SystemStats(
    allocCount: nat,
    allocAvg: Option<nat>,
    reallocGrowthCount: nat,
    reallocGrowthAvg: Option<nat>,
    reallocShrinkCount: nat,
    reallocShrinkAvg: Option<nat>,
    useCurr: nat,
    useMax: nat)

  /**
   * `stats()`: the counts and use levels copied, each average derived from its
   * sum and count with `checked_div`.
   */
  function Snapshot(c: Counters): (s: SystemStats)
    ensures s.allocCount == c.allocCount && s.reallocGrowthCount == c.reallocGrowthCount &&
            s.reallocShrinkCount == c.reallocShrinkCount
    ensures s.useCurr == c.useCurr && s.useMax == c.useMax
    ensures s.allocAvg.Some? <==> c.allocCount > 0
    ensures s.reallocGrowthAvg.Some? <==> c.reallocGrowthCount > 0
    ensures s.reallocShrinkAvg.Some? <==> c.reallocShrinkCount > 0
    ensures s.allocAvg.Some? ==> s.allocAvg.value == c.allocSum / c.allocCount
    ensures s.reallocGrowthAvg.Some? ==>
              s.reallocGrowthAvg.value == c.reallocGrowthSum / c.reallocGrowthCount
    ensures s.reallocShrinkAvg.Some? ==>
              s.reallocShrinkAvg.value == c.reallocShrinkSum / c.reallocShrinkCount
  {
    SystemStats(
      c.allocCount, CheckedDiv(c.allocSum, c.allocCount),
      c.reallocGrowthCount, CheckedDiv(c.reallocGrowthSum, c.reallocGrowthCount),
      c.reallocShrinkCount, CheckedDiv(c.reallocShrinkSum, c.reallocShrinkCount),
      c.useCurr, c.useMax)
  }

  /**
   * `alloc`: when the underlying allocator succeeded, count the request, add
   * its size to the sum and to the current use, then raise the peak to the
   * new current use (a fetch-and-max on the post-update value). A failed
   * request changes nothing.
   */
  function AllocStep(c: Counters, size: nat, succeeded: bool): (r: Counters)
    ensures !succeeded ==> r == c
    ensures succeeded ==>
              r.allocCount == c.allocCount + 1 && r.allocSum == c.allocSum + size &&
              r.useCurr == c.useCurr + size && r.useMax == Max(c.useMax, r.useCurr) &&
              r.(allocCount := c.allocCount, allocSum := c.allocSum,
                 useCurr := c.useCurr, useMax := c.useMax) == c
    ensures succeeded ==> r.useMax >= r.useCurr
    ensures r.useMax >= c.useMax
    ensures c.PeakCovers() ==> r.PeakCovers()
  {
    if !succeeded then c
    else
      var curr := c.useCurr + size;
      c.(allocSum := c.allocSum + size,
         allocCount := c.allocCount + 1,
         useCurr := curr,
         useMax := Max(c.useMax, curr))
  }

  /** `dealloc`: only the current use goes down, by the block's size. */
  function DeallocStep(c: Counters, size: nat): (r: Counters)
    requires size <= c.useCurr
    ensures r.useCurr + size == c.useCurr
    ensures r.(useCurr := c.useCurr) == c
    ensures c.PeakCovers() ==> r.PeakCovers()
  {
    c.(useCurr := c.useCurr - size)
  }

  /**
   * The growth/shrink classification inside `realloc`: a larger new size is a
   * growth by the difference; anything else, an equal size included, is a
   * shrink by the difference.
   */
  function ResizeStep(c: Counters, oldSize: nat, newSize: nat): (r: Counters)
    ensures r.reallocGrowthCount + r.reallocShrinkCount ==
            c.reallocGrowthCount + c.reallocShrinkCount + 1
    ensures newSize > oldSize ==>
              r.reallocGrowthSum == c.reallocGrowthSum + (newSize - oldSize) &&
              r.(reallocGrowthCount := c.reallocGrowthCount,
                 reallocGrowthSum := c.reallocGrowthSum) == c
    ensures newSize <= oldSize ==>
              r.reallocShrinkSum == c.reallocShrinkSum + (oldSize - newSize) &&
              r.(reallocShrinkCount := c.reallocShrinkCount,
                 reallocShrinkSum := c.reallocShrinkSum) == c
  {
    if newSize > oldSize then
      c.(reallocGrowthCount := c.reallocGrowthCount + 1,
         reallocGrowthSum := c.reallocGrowthSum + (newSize - oldSize))
    else
      c.(reallocShrinkCount := c.reallocShrinkCount + 1,
         reallocShrinkSum := c.reallocShrinkSum + (oldSize - newSize))
  }

  /**
   * `realloc`: an `alloc` of the new size; if that succeeded, the growth or
   * shrink is recorded and the old block goes through `dealloc`. While both
   * blocks are live the current use includes them both, so that is the peak
   * the allocation raises `use_max` to.
   */
  function ReallocStep(c: Counters, oldSize: nat, newSize: nat, succeeded: bool): (r: Counters)
    requires oldSize <= c.useCurr
    ensures !succeeded ==> r == c
    ensures succeeded ==>
              r.allocCount == c.allocCount + 1 && r.allocSum == c.allocSum + newSize &&
              r.useCurr + oldSize == c.useCurr + newSize &&
              r.useMax == Max(c.useMax, c.useCurr + newSize)
    ensures succeeded ==> r.useCurr == AllocStep(DeallocStep(c, oldSize), newSize, true).useCurr
    ensures succeeded ==>
              r.(allocCount := c.allocCount, allocSum := c.allocSum,
                 useCurr := c.useCurr, useMax := c.useMax) == ResizeStep(c, oldSize, newSize)
    ensures c.PeakCovers() ==> r.PeakCovers()
  {
    if !succeeded then c
    else DeallocStep(ResizeStep(AllocStep(c, newSize, true), oldSize, newSize), oldSize)
  }

  /**
   * `reset`: the six flow counters go to zero and the peak is reseeded with
   * the current use, which itself is kept.
   */
  function ResetStep(c: Counters): (r: Counters)
    ensures r.FlowCleared()
    ensures r.useCurr == c.useCurr && r.useMax == r.useCurr
  {
    Counters(0, 0, 0, 0, 0, 0, c.useCurr, c.useCurr)
  }
}
