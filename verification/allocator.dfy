/**
 * `SystemWithStats`, the allocator decorator of src/lib.rs, as a class whose
 * eight fields are the process-wide counters. Each atomic update of the
 * source is one assignment here, and each allocator call is one sequential
 * method. Whether the wrapped system allocator returned memory is passed in
 * as `succeeded`; the memory itself is not modelled.
 */
module Allocator {
  import opened Wrappers
  import opened Accounting

  class SystemWithStats {
    // The counters; reading a field is the matching accessor of the source
    // (`alloc_count()`, `alloc_sum()`, ..., `use_curr()`, `use_max()`).
    var allocCount: nat
    var allocSum: nat
    var reallocGrowthCount: nat
    var reallocGrowthSum: nat
    var reallocShrinkCount: nat
    var reallocShrinkSum: nat
    var useCurr: nat
    var useMax: nat

    /** The counters as one value. */
    function View(): Counters
      reads this
    {
      Counters(allocCount, allocSum, reallocGrowthCount, reallocGrowthSum,
               reallocShrinkCount, reallocShrinkSum, useCurr, useMax)
    }

    /** The object invariant: the peak covers the current use. */
    ghost predicate Valid()
      reads this
    {
      View().PeakCovers()
    }

    /** The statics all start at zero. */
    constructor ()
      ensures Valid() && View() == Zero()
    {
      allocCount, allocSum := 0, 0;
      reallocGrowthCount, reallocGrowthSum := 0, 0;
      reallocShrinkCount, reallocShrinkSum := 0, 0;
      useCurr, useMax := 0, 0;
    }

    /** `alloc_avg()`: the mean allocation size, absent while nothing was allocated. */
    function AllocAvg(): (r: Option<nat>)
      reads this
      ensures r.Some? <==> allocCount > 0
      ensures r.Some? ==> r.value * allocCount <= allocSum < (r.value + 1) * allocCount
    {
      CheckedDiv(allocSum, allocCount)
    }

    /** `realloc_growth_avg()`: the mean growth, absent while no realloc grew a block. */
    function ReallocGrowthAvg(): (r: Option<nat>)
      reads this
      ensures r.Some? <==> reallocGrowthCount > 0
      ensures r.Some? ==>
                r.value * reallocGrowthCount <= reallocGrowthSum < (r.value + 1) * reallocGrowthCount
    {
      CheckedDiv(reallocGrowthSum, reallocGrowthCount)
    }

    /** `realloc_shrink_avg()`: the mean shrink, absent while no realloc shrank a block. */
    function ReallocShrinkAvg(): (r: Option<nat>)
      reads this
      ensures r.Some? <==> reallocShrinkCount > 0
      ensures r.Some? ==>
                r.value * reallocShrinkCount <= reallocShrinkSum < (r.value + 1) * reallocShrinkCount
    {
      CheckedDiv(reallocShrinkSum, reallocShrinkCount)
    }

    /** `stats()`: a snapshot whose every field agrees with the matching reader. */
    function Stats(): (s: SystemStats)
      reads this
      ensures s.allocCount == allocCount && s.allocAvg == AllocAvg()
      ensures s.reallocGrowthCount == reallocGrowthCount && s.reallocGrowthAvg == ReallocGrowthAvg()
      ensures s.reallocShrinkCount == reallocShrinkCount && s.reallocShrinkAvg == ReallocShrinkAvg()
      ensures s.useCurr == useCurr && s.useMax == useMax
      ensures Valid() ==> s.useMax >= s.useCurr
    {
      Snapshot(View())
    }

    /** `reset()`. */
    method Reset()
      modifies this
      ensures Valid()
      ensures View() == ResetStep(old(View()))
    {
      allocSum := 0;
      allocCount := 0;
      reallocGrowthCount := 0;
      reallocGrowthSum := 0;
      reallocShrinkCount := 0;
      reallocShrinkSum := 0;
      useMax := useCurr;
    }

    /** `GlobalAlloc::alloc` for a layout of `size` bytes. */
    method Alloc(size: nat, succeeded: bool)
      requires Valid()
      modifies this
      ensures Valid()
      ensures View() == AllocStep(old(View()), size, succeeded)
    {
      if succeeded {
        allocSum := allocSum + size;
        allocCount := allocCount + 1;
        var curr := useCurr + size;
        useCurr := curr;
        useMax := Max(useMax, curr);
      }
    }

    /** `GlobalAlloc::dealloc` of a block of `size` bytes. */
    method Dealloc(size: nat)
      requires Valid()
      requires size <= useCurr
      modifies this
      ensures Valid()
      ensures View() == DeallocStep(old(View()), size)
    {
      useCurr := useCurr - size;
    }

    /**
     * `GlobalAlloc::realloc` of a block of `oldSize` bytes to `newSize` bytes:
     * an `Alloc` of the new size, then, only if it succeeded, the growth or
     * shrink record and a `Dealloc` of the old block.
     */
    method Realloc(oldSize: nat, newSize: nat, succeeded: bool)
      requires Valid()
      requires oldSize <= useCurr
      modifies this
      ensures Valid()
      ensures View() == ReallocStep(old(View()), oldSize, newSize, succeeded)
    {
      Alloc(newSize, succeeded);
      if succeeded {
        if newSize > oldSize {
          var diff := newSize - oldSize;
          reallocGrowthCount := reallocGrowthCount + 1;
          reallocGrowthSum := reallocGrowthSum + diff;
        } else {
          var diff := oldSize - newSize;
          reallocShrinkCount := reallocShrinkCount + 1;
          reallocShrinkSum := reallocShrinkSum + diff;
        }
        Dealloc(oldSize);
      }
    }
  }
}
