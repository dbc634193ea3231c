/**
 * The concrete call sequences exercised by the repository's tests
 * (tests/allocs.rs, tests/reallocs.rs, tests/reset.rs, tests/basics.rs),
 * restricted to the counters that src/lib.rs keeps. Each starts from
 * whatever state the process is in; those whose test begins with `reset`
 * apply it first.
 */
module Scenarios {
  import opened Wrappers
  import opened Accounting

  /** Allocating a block and freeing it puts the current use back; the peak stays. */
  lemma AllocThenDeallocRestoresUse(c: Counters, size: nat)
    ensures var a := AllocStep(c, size, true);
            size <= a.useCurr &&
            DeallocStep(a, size).useCurr == c.useCurr &&
            DeallocStep(a, size).useMax == Max(c.useMax, c.useCurr + size)
  {
  }

  /** Blocks of 1, 4 and 95 bytes allocated, then freed in the same order. */
  lemma AllocBasics(c: Counters)
    ensures var r0 := ResetStep(c);
            var r1 := AllocStep(r0, 1, true);
            var r2 := AllocStep(r1, 4, true);
            var r3 := AllocStep(r2, 95, true);
            r0.useCurr == r0.useMax &&
            r1.allocCount == 1 && r1.allocSum == 1 && Snapshot(r1).allocAvg == Some(1) &&
            r1.useCurr == r0.useCurr + 1 && r1.useMax == r0.useMax + 1 &&
            r2.allocCount == 2 && r2.allocSum == 5 && Snapshot(r2).allocAvg == Some(2) &&
            r2.useCurr == r0.useCurr + 5 && r2.useMax == r0.useMax + 5 &&
            r3.allocCount == 3 && r3.allocSum == 100 && Snapshot(r3).allocAvg == Some(33) &&
            r3.useCurr == r0.useCurr + 100 && r3.useMax == r0.useMax + 100 &&
            var r4 := DeallocStep(r3, 1);
            var r5 := DeallocStep(r4, 4);
            var r6 := DeallocStep(r5, 95);
            r4.allocCount == 3 && r4.allocSum == 100 &&
            r4.useCurr == r3.useMax - 1 && r4.useMax == r3.useMax &&
            r5.allocCount == 3 && r5.allocSum == 100 &&
            r5.useCurr == r3.useMax - 5 && r5.useMax == r3.useMax &&
            r6.allocCount == 3 && r6.allocSum == 100 &&
            r6.useCurr == r3.useMax - 100 && r6.useMax == r3.useMax
  {
  }

  /** A 7-byte block grown to 13 and 23 bytes, then shrunk to 15 and 5. */
  lemma ReallocBasics(c: Counters)
    ensures var r1 := AllocStep(ResetStep(c), 7, true);
            var r2 := ReallocStep(r1, 7, 13, true);
            var r3 := ReallocStep(r2, 13, 23, true);
            r1.allocCount == 1 && r1.allocSum == 7 &&
            r1.reallocGrowthCount == 0 && r1.reallocGrowthSum == 0 &&
            Snapshot(r1).reallocGrowthAvg == None &&
            r1.reallocShrinkCount == 0 && r1.reallocShrinkSum == 0 &&
            Snapshot(r1).reallocShrinkAvg == None &&
            r2.allocCount == 2 && r2.allocSum == 20 &&
            r2.reallocGrowthCount == 1 && r2.reallocGrowthSum == 6 &&
            Snapshot(r2).reallocGrowthAvg == Some(6) &&
            r2.reallocShrinkCount == 0 && r2.reallocShrinkSum == 0 &&
            Snapshot(r2).reallocShrinkAvg == None &&
            r3.allocCount == 3 && r3.allocSum == 43 &&
            r3.reallocGrowthCount == 2 && r3.reallocGrowthSum == 16 &&
            Snapshot(r3).reallocGrowthAvg == Some(8) &&
            r3.reallocShrinkCount == 0 && r3.reallocShrinkSum == 0 &&
            Snapshot(r3).reallocShrinkAvg == None &&
            var r4 := ReallocStep(r3, 23, 15, true);
            var r5 := ReallocStep(r4, 15, 5, true);
            r4.allocCount == 4 && r4.allocSum == 58 &&
            r4.reallocGrowthCount == 2 && r4.reallocGrowthSum == 16 &&
            Snapshot(r4).reallocGrowthAvg == Some(8) &&
            r4.reallocShrinkCount == 1 && r4.reallocShrinkSum == 8 &&
            Snapshot(r4).reallocShrinkAvg == Some(8) &&
            r5.allocCount == 5 && r5.allocSum == 63 &&
            r5.reallocGrowthCount == 2 && r5.reallocGrowthSum == 16 &&
            Snapshot(r5).reallocGrowthAvg == Some(8) &&
            r5.reallocShrinkCount == 2 && r5.reallocShrinkSum == 18 &&
            Snapshot(r5).reallocShrinkAvg == Some(9)
  {
  }

  /** After `reset` every flow counter is zero and every average absent. */
  lemma ResetBasics(c: Counters)
    ensures var r := ResetStep(c);
            r.allocCount == 0 && r.allocSum == 0 && Snapshot(r).allocAvg == None &&
            r.reallocGrowthCount == 0 && r.reallocGrowthSum == 0 &&
            Snapshot(r).reallocGrowthAvg == None &&
            r.reallocShrinkCount == 0 && r.reallocShrinkSum == 0 &&
            Snapshot(r).reallocShrinkAvg == None &&
            r.useCurr == c.useCurr && r.useMax == c.useCurr
  {
  }

  /**
   * One iteration of the randomized test, from any reachable state: a block
   * of `size` bytes grown by `delta`. Both blocks are live at the peak, so
   * the peak reaches the current use plus `2 * size + delta`, while the
   * current use rises by `size + delta`.
   */
  lemma GrowOneBlock(c: Counters, size: nat, delta: nat)
    requires c.PeakCovers() && delta > 0
    ensures var r1 := AllocStep(c, size, true);
            size <= r1.useCurr &&
            var r2 := ReallocStep(r1, size, size + delta, true);
            r2.useCurr == c.useCurr + size + delta &&
            r2.useMax == Max(c.useMax, c.useCurr + 2 * size + delta) &&
            r2.allocCount == c.allocCount + 2 && r2.allocSum == c.allocSum + 2 * size + delta &&
            r2.reallocGrowthCount == c.reallocGrowthCount + 1 &&
            r2.reallocGrowthSum == c.reallocGrowthSum + delta &&
            r2.reallocShrinkCount == c.reallocShrinkCount &&
            r2.reallocShrinkSum == c.reallocShrinkSum
  {
  }

  /**
   * The same with the block shrunk by `delta`; the peak reaches the current
   * use plus `2 * size - delta`.
   */
  lemma ShrinkOneBlock(c: Counters, size: nat, delta: nat)
    requires c.PeakCovers() && delta <= size
    ensures var r1 := AllocStep(c, size, true);
            size <= r1.useCurr &&
            var r2 := ReallocStep(r1, size, size - delta, true);
            r2.useCurr == c.useCurr + size - delta &&
            r2.useMax == Max(c.useMax, c.useCurr + 2 * size - delta) &&
            r2.allocCount == c.allocCount + 2 && r2.allocSum == c.allocSum + 2 * size - delta &&
            r2.reallocShrinkCount == c.reallocShrinkCount + 1 &&
            r2.reallocShrinkSum == c.reallocShrinkSum + delta &&
            r2.reallocGrowthCount == c.reallocGrowthCount &&
            r2.reallocGrowthSum == c.reallocGrowthSum
  {
  }
}
