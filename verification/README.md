# system_alloc_stats — a Dafny model of `SystemWithStats`

`SystemWithStats` is a global-allocator decorator. It forwards every
`alloc` and `dealloc` call to the system allocator, and serves a
`realloc` as its own `alloc` of the new size, a copy, and its own
`dealloc` of the old block. On the way it keeps eight process-wide
counters:

- the number and total size of allocations;
- the number and total size of growing and of shrinking reallocations;
- the current heap use and its peak since the last reset.

Readers return each counter, the three averages (`checked_div`, so absent
while the count is zero) and a `SystemStats` snapshot. `reset` clears the
flow counters and reseeds the peak with the current use.

The model has five modules:

- `Wrappers` (wrappers.dfy): the `Option` type of the averages.
- `Accounting` (accounting.dfy): the eight counters as one value
  (`Counters`), `CheckedDiv`, the snapshot, and one step function per
  allocator event. Each step function is the update rule of src/lib.rs.
- `Allocator` (allocator.dfy): the class `SystemWithStats`. Its eight `nat`
  fields stand for the statics of src/lib.rs:71-78. Each accessor of the source is
  a read of the matching field. Its methods `Alloc`, `Dealloc`, `Realloc`
  and `Reset` update those fields one assignment per atomic operation, and
  `Realloc` calls `Alloc` and `Dealloc` as the source does. Each method is
  proved to produce `View() == <step function>(old(View()), ...)` and to keep
  the peak invariant `useMax >= useCurr`.
- `Traces` (traces.dfy): any sequence of events run from a start state. It
  proves that the peak invariant holds on every run from the zero start. It
  proves that between resets no flow counter and not the peak ever falls,
  and that `use_max` is exactly the highest level the current use reached
  (the transient level of a `realloc` holds both blocks). It also proves the
  byte balance of `use_curr` and the additivity of the allocation counters.
- `Scenarios` (scenarios.dfy): the call sequences of the repository's tests,
  restricted to counters that src/lib.rs keeps.

Whether the system allocator returned memory is a boolean parameter,
`succeeded`. A failed `alloc` or `realloc` changes no counter, and a failed
`realloc` frees nothing.

The model follows src/lib.rs:

- There are no deallocation counters (`dealloc_count`, `dealloc_sum`,
  `dealloc_avg`); `dealloc` only lowers `use_curr`. The repository's tests
  call such counters, but src/lib.rs does not have them.
- `realloc` is decomposed into `alloc` of the new size, then a growth or
  shrink record, then `dealloc` of the old block. So a reallocation also
  counts as one allocation of its new size. An equal size counts as a
  shrink by zero.

## Model

| member | source | states |
|---|---|---|
| `Accounting.CheckedDiv` | src/lib.rs:105-121 | absent exactly when the divisor is zero; otherwise the quotient rounded down (q·d ≤ n < q·d + d) |
| `Accounting.Zero` | src/lib.rs:71-78 | all counters, use_max included, start at zero; that start satisfies the peak invariant |
| `Accounting.Snapshot` | src/lib.rs:141-167 | snapshot copies counts and use levels; each average is present iff its count is non-zero and is then sum / count |
| `Accounting.AllocStep` | src/lib.rs:171-181 | failed alloc changes nothing; a successful one raises alloc_count by 1 and alloc_sum and use_curr by the size, sets use_max to max(old use_max, new use_curr) (fetch_max on the post-update value) and changes no realloc counter; use_max never falls; the peak invariant is kept |
| `Accounting.DeallocStep` | src/lib.rs:183-186 | use_curr drops by exactly the size; every other counter, use_max included, is unchanged |
| `Accounting.ResizeStep` | src/lib.rs:192-200 | exactly one of the two realloc counts goes up by one; new > old adds new − old to the growth sum, else (equal included) old − new to the shrink sum, the other side untouched |
| `Accounting.ReallocStep` | src/lib.rs:188-208 | failed realloc changes nothing; a successful one counts one alloc of new_size, ends with use_curr = old use_curr − old + new (same as freeing then allocating), use_max = max(old use_max, use_curr + new), classification as ResizeStep and nothing else changed; the peak invariant is kept |
| `Accounting.ResetStep` | src/lib.rs:131-139 | all six flow counters are zero; use_curr kept; use_max equals it |
| `Allocator.SystemWithStats.constructor` | src/lib.rs:71-78 | every counter starts at zero and the invariant holds |
| `Allocator.SystemWithStats.AllocAvg` | src/lib.rs:105-109 | present iff alloc_count > 0; then the rounded-down mean of alloc_sum |
| `Allocator.SystemWithStats.ReallocGrowthAvg` | src/lib.rs:111-115 | present iff realloc_growth_count > 0; then the rounded-down mean growth |
| `Allocator.SystemWithStats.ReallocShrinkAvg` | src/lib.rs:117-121 | present iff realloc_shrink_count > 0; then the rounded-down mean shrink |
| `Allocator.SystemWithStats.Stats` | src/lib.rs:141-167 | every snapshot field equals the matching accessor or average reader; use_max ≥ use_curr in it |
| `Allocator.SystemWithStats.Reset` | src/lib.rs:131-139 | new state is ResetStep of the old; invariant holds afterwards |
| `Allocator.SystemWithStats.Alloc` | src/lib.rs:171-181 | new state is AllocStep of the old (count +1, sum and use_curr +size, use_max raised to the new use_curr, nothing else); invariant kept |
| `Allocator.SystemWithStats.Dealloc` | src/lib.rs:183-186 | requires size ≤ use_curr; new state is DeallocStep of the old; invariant kept |
| `Allocator.SystemWithStats.Realloc` | src/lib.rs:188-208 | built from Alloc, the classification and Dealloc; new state is ReallocStep of the old; invariant kept |
| `Traces.Apply` | src/lib.rs:131-208 | every single allocator event or reset keeps use_max ≥ use_curr |
| `Traces.RunKeepsPeakCovered` | src/lib.rs:177-178 | any run of events from a state with use_max ≥ use_curr ends in such a state |
| `Traces.ReachableStatesCovered` | src/lib.rs:71-78 | every state reachable from the zero start has use_max ≥ use_curr |
| `Traces.MonotoneBetweenResets` | src/lib.rs:171-208 | without a reset, no count, sum or use_max ever decreases |
| `Traces.UseMaxCoversPeaks` | src/lib.rs:171-205 | without a reset, use_max ends at or above its start and above every level use_curr passed through, a realloc's two-block level included |
| `Traces.UseMaxIsAttained` | src/lib.rs:177-178 | without a reset, the final use_max is the starting peak or one of those levels, so it is exactly their maximum |
| `Traces.UseCurrBalance` | src/lib.rs:171-208 | final use_curr + bytes released = starting use_curr + bytes acquired, resets included |
| `Traces.AllocFlowRecordsAcquisitions` | src/lib.rs:171-208 | without a reset, alloc_count grows by the number of successful allocs and reallocs, alloc_sum by their sizes |
| `Traces.AllocsFromLevelPeak` | src/lib.rs:171-181 | successful allocations from a state whose peak equals its use raise count by N and sum, use_curr and use_max by the total size |
| `Traces.AllocsAccumulate` | tests/allocs.rs:16-44 | after a reset, N allocations give alloc_count = N, alloc_sum = Σ sizes, the average Σ / N (absent for N = 0), and both use levels raised by Σ |
| `Scenarios.AllocThenDeallocRestoresUse` | tests/allocs.rs:46-74 | allocating then freeing a block restores use_curr; use_max keeps the peak reached |
| `Scenarios.AllocBasics` | tests/allocs.rs:9-74 | the 1, 4 and 95-byte sequence gives counts 1, 2, 3, sums 1, 5, 100, averages 1, 2, 33, and the use levels the test expects |
| `Scenarios.ReallocBasics` | tests/reallocs.rs:9-64 | 7 → 13 → 23 → 15 → 5 gives the alloc, growth and shrink counts, sums and averages the test expects |
| `Scenarios.ResetBasics` | tests/reset.rs:14-28 | after reset all flow counts and sums are zero and all averages absent |
| `Scenarios.GrowOneBlock` | tests/basics.rs:84-106 | from any state with use_max ≥ use_curr, allocating a bytes and growing the block by r gives use_max = max(old use_max, use_curr + 2a + r), use_curr + a + r, two more allocs and one more growth of r |
| `Scenarios.ShrinkOneBlock` | tests/basics.rs:108-131 | from any state with use_max ≥ use_curr, allocating a bytes and shrinking the block by r gives use_max = max(old use_max, use_curr + 2a − r), use_curr + a − r, two more allocs and one more shrink of r |

## Left out

- The `fmt::Display` impl of `SystemStats` (src/lib.rs:29-69): presentation only, built on the external `humansize` and `num_format` crates.
- The memory itself: `System.alloc`, `System.dealloc`, `Layout`, raw pointers and `ptr::copy_nonoverlapping` are calls into the platform; the allocator's result is the `succeeded` flag, and the returned pointer is not modelled.
- Atomics and memory orderings: every operation is one sequential step, so the races the relaxed atomics allow (a `reset` overlapping an `alloc`, a snapshot mixing counters from different instants) are not modelled.
- `Allocator.SystemWithStats.Dealloc`: requires `size <= useCurr`, where the source's `fetch_sub` on `usize` would wrap around; likewise `Accounting.DeallocStep`, and `Accounting.ReallocStep`, `Allocator.SystemWithStats.Realloc` and `Traces.Enabled` require `oldSize <= useCurr` even for a failed reallocation, which touches no counter. The block handed back was allocated through this allocator and is still live, so its size is always counted in `use_curr`.
- `Allocator.SystemWithStats.constructor`: the class stands for the single process-wide set of counters (the statics of src/lib.rs:71-78, shared by every value of the unit struct `SystemWithStats`), and the constructor stands for process start. Two Dafny instances have separate counters, and constructing one zeroes its counters, neither of which happens in the source.
- `usize` overflow of the counters: every counter is an unbounded `nat`, so the wrap-around of `fetch_add` is not modelled.
- The accessors `alloc_count()` … `use_max()` (src/lib.rs:81-103, 123-129) are not separate members: each is a read of the matching field of the class.
- Deallocation counters (`dealloc_count`, `dealloc_sum`, `dealloc_avg`): the tests call them but src/lib.rs has none, so the test assertions about them are not modelled.
- The tests' harness: the installation as the global allocator, the random sizes and the loop of tests/basics.rs (one iteration is modelled, from any reachable state), and the check in tests/reset.rs that the runtime allocated something before the test starts.
