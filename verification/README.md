# Plan runtime of the resampling library, in Dafny

This project models the plan runtime of the `tintl` 3-D Fourier interpolation
library (`lib/interpolate.c`) and the shared helpers of `lib/common.h`. It then
proves properties of the model.

- **Plan lifecycle.** Plans are reference-counted and validated on every
  public call. Reference counts are incremented and decremented, and a plan
  is torn down when its count reaches zero.
- **Execution and statistics.** Execution timestamps are recorded, and the
  execution-time statistic is dispatched.
- **Plan cache.** A lazily initialised, process-wide cache is read and
  written through get and insert wrappers.
- **Auto-tuning selector (`find_best_plan`).** It counts the constructors up
  to the NULL sentinel. It constructs and times each candidate, keeps the
  strictly fastest one and destroys every loser at once. Finally it stores
  the winner under the `(n0, n1, n2, layout)` key. The three
  `interpolate_plan_3d_*_best` entry points call it with the naive,
  padding-aware and phase-shift constructors.
- **Property calculator.** `populate_properties` computes the coarse and fine
  dimensions and their strides. `num_elements` counts the coarse grid
  points, and `corner_size` gives the Nyquist-aware corner sizes.
- **Elementwise kernels.** For `pointwise_multiply_real`, the model shows
  which index each pass writes: an SSE2 pass over pairs, then a scalar tail.
  For `pointwise_multiply_complex`, it shows that the SSE2 shuffle sequence
  computes the complex product.

Files:

- `optional.dfy`: `Option`.
- `common.dfy`: module `Common`, the property calculator.
- `kernels.dfy`: module `Kernels`, the elementwise kernels.
- `runtime.dfy`: module `Runtime`, the plan state machine, the lifecycle and
  the cache.
- `selector.dfy`: module `Selector`, `find_best_plan` and the `*_best` entry
  points.

The process is modelled as an immutable `State`:

- `heap`: the live plans by identity;
- the cache and a flag saying whether it has been initialised;
- `nextId`: the next fresh identity;
- `log`: the calls the runtime makes to constructors, the timing harness and
  `destroy_detail`.

Each operation is one atomic step that returns a new state. A fatal
`assert` or a failed `validate_plan` is an `Abort` outcome; assertions are
taken to be compiled in.

The timing harness is a pair of oracles:

- `timer: nat -> real`: entry `timer(k)` is the time reported for the `k`-th
  candidate of a call. `DBL_MAX` is its exact value as a real.
- `samples: nat -> Sample`: entry `samples(k)` is the pair of timestamps the
  `k`-th candidate holds once the harness has run it.

The store behind `plan_cache.h` is a parameter, `StorePolicy`. It says what
the store does with a key it already holds, and whether storing a plan takes
a reference on it.

## Model

| member | source | states |
|---|---|---|
| Common.PopulateProperties | lib/common.h:93-110 | The layout is stored and the dimensions are `[n2, n1, n0]`. Each fine extent is twice the coarse one. Both stride triples are the packed row-major strides of their own dimensions. |
| Common.NumElementsOfPopulated | lib/common.h:112-115 | After `populate_properties`, the element count is `n0 * n1 * n2`, whatever the axis reordering. |
| Common.NumElements | lib/common.h:112-115 | Under packed strides the element count is the slowest stride times the slowest extent. It is positive when every extent is, and 0 when any extent is 0. |
| Common.PopulatedGridsArePacked | lib/common.h:93-115 | The fine grid has 8 times as many points as the coarse grid. At both resolutions, the slowest stride times the slowest extent equals the element count, so the layout has no gaps. |
| Common.PackedOffsetInRange | lib/common.h:103-105 | Under packed strides, every in-range grid point has an offset in `[0, volume)`. |
| Common.CDiv2 | lib/common.h:120 | C's `n / 2` truncates toward zero: the remainder is 0 or 1 for `n >= 0`, and 0 or -1 for negative `n`. |
| Common.CornerSize | lib/common.h:117-121 | The negative block holds `n / 2` bins, rounded toward zero: twice its size is `n` or `n - 1` for `n >= 0`, and `n` or `n + 1` below 0. The positive block (`negative == 0`) holds one bin more. |
| Common.CornerSizesSum | lib/common.h:117-121 | For `n >= 0`, the positive corner is one bin larger than the negative one. The two add up to `n + 1` for even `n` and to `n` for odd `n`. Every nonzero `negative` gives the same size. |
| Common.CornerBlocksCoverAxis | lib/common.h:117-121 | For `n >= 1`, the two corner blocks cover every bin. They overlap exactly when `n` is even, and then only at the Nyquist bin `n / 2`. |
| Common.Scenarios | lib/common.h:93-121 | The 4 x 4 x 4 split-product properties, and the corner sizes of axes of length 5 and 4. |
| Kernels.BothAligned | lib/common.h:75 | The mask test on the bitwise OR of the two addresses holds exactly when both addresses are multiples of 16. |
| Kernels.PointwiseMultiplyReal | lib/common.h:70-91 | The paired pass compares against `size` as a `size_t`, so on aligned buffers a negative `size` runs off the end of the buffers; the result reports exactly that case as an overrun. In every other case each index below `size` is written exactly once with `a[i] * b[i]`, and every other index is untouched. The paired pass stops at the largest even prefix when both buffers are aligned, and at 0 otherwise. |
| Kernels.SseComplexStepIsProduct | lib/common.h:44-57 | In exact arithmetic, the shuffle/multiply/add sequence stores the complex product `a[i] * b[i]`. |
| Kernels.PointwiseMultiplyComplex | lib/common.h:38-68 | Both the aligned path and the unaligned path leave the complex product at every index below `size`, and nothing else changes. |
| Runtime.IncRefCount | lib/interpolate.c:78-89 | An invalid plan aborts. Otherwise the result is the old count + 1, and the new state is the old one with only that plan's count replaced, so the cache, the identities and the log are unchanged. The invariant is kept. |
| Runtime.DecRefCount | lib/interpolate.c:91-111 | The result is the old count - 1, and a negative result aborts. The plan is torn down (`destroy_detail`, then freed) exactly when the new count is 0. Otherwise only its count changes, other plans are untouched and the invariant is kept. |
| Runtime.DestroyPlan | lib/interpolate.c:72-76 | Exactly one decrement: same aborts, same resulting state. |
| Runtime.IncDecRoundTrip | lib/interpolate.c:78-111 | An increment followed by a decrement restores the state and returns the original count. |
| Runtime.ReleaseShares | lib/interpolate.c:72-111 | A plan with `c` owners survives `c - 1` destroys, with one owner fewer each time. The `c`-th destroy tears it down, and `destroy_detail` runs exactly once. |
| Runtime.ExecutePlan | lib/interpolate.c:21-43 | Executing a valid plan saves the before and after timestamps into that plan only. Every other plan, the cache and its initialisation flag, the identities and the log are unchanged. An invalid plan aborts. |
| Runtime.GetStatisticFloat | lib/interpolate.c:51-64 | The execution-time statistic is served by the runtime as `STATISTIC_EXECUTION` with the plan's timestamps. Every other statistic id is forwarded unchanged with its index. The state does not change. |
| Runtime.StatisticAfterExecute | lib/interpolate.c:21-64 | After an execution, the execution-time statistic reports that execution's timestamps, for any index. |
| Runtime.GlobalPlanCache | lib/interpolate.c:113-138 | The first use initialises an empty cache. Any later use returns the cache unchanged. |
| Runtime.GlobalPlanCacheOnce | lib/interpolate.c:113-138 | Initialisation is idempotent and never touches plans, identities or the log. On a well-formed state it keeps the cache contents. |
| Runtime.CacheGet | lib/interpolate.c:140-145 | The result is the cached plan exactly when the initialised cache holds the key, and NULL otherwise. |
| Runtime.CacheInsert | lib/interpolate.c:147-152 | On an absent key, `key -> plan` is stored and reported as inserted. On a present key, the store keeps or replaces the entry as its policy says. A store that acquires references adds one owner to a plan it stores; nothing else about the plans, the identities or the log changes, and the invariant is kept. |
| Runtime.InsertThenGet | lib/interpolate.c:140-152 | After inserting a key the cache lacked, a lookup of that key finds the plan, and every other key looks up as before. The behaviour on a present key makes no difference. |
| Runtime.StoreShareIsIncrement | lib/interpolate.c:78-89 | The reference an acquiring store takes leaves the plans as `interpolate_inc_ref_count` would. |
| Runtime.Construct | lib/interpolate.c:183 | A constructor yields a fresh identity with one owner and the requested layout. |
| Runtime.RecordTiming | lib/interpolate.c:184 | Timing a plan logs the call and leaves the plan holding the harness's timestamps. No other plan, no count, the cache and the identities do not change. |
| Runtime.TimingIsExecution | lib/interpolate.c:21-43 | A harness that executes the plan once leaves the plans exactly as `interpolate_execute_*` does. |
| Selector.SentinelCount | lib/interpolate.c:173-176 | The count is the position of the first NULL, and every earlier entry is a constructor. |
| Selector.FastestIsUnique | lib/interpolate.c:186-192 | At most one candidate is the fastest, with ties going to the earliest. |
| Selector.LeaderIsFastest | lib/interpolate.c:178-197 | The loop's running best is the fastest candidate: its time is `<=` every time, and `<` every earlier time. There is no best exactly when every time is `>= DBL_MAX`. |
| Selector.TraceCounts | lib/interpolate.c:181-197 | Over the loop, each candidate is constructed once and timed once. Each loser is destroyed exactly once, and the winner never is. |
| Selector.SelectionTraceStep | lib/interpolate.c:186-196 | Each iteration extends those counts by one candidate. |
| Selector.CandidateLoses | lib/interpolate.c:193-196 | A candidate that is not strictly faster is destroyed at once, and the best plan stays. |
| Selector.CandidateReplaces | lib/interpolate.c:186-192 | A strictly faster candidate becomes the best, and the previous best is destroyed once. |
| Selector.CandidateLeadsFirst | lib/interpolate.c:186-191 | The first candidate under `DBL_MAX` becomes the best, and nothing is destroyed. |
| Selector.DestroyFreshCandidate | lib/interpolate.c:190 | Destroying a candidate with one owner tears it down. |
| Selector.Evaluate | lib/interpolate.c:183-196 | One iteration keeps the candidate exactly when it is strictly faster and destroys the loser. The heap ends up as the old heap, minus the loser, plus the kept plan. |
| Selector.RunCandidates | lib/interpolate.c:178-197 | After the loop, the best plan is the reference leader and is the only candidate still alive. The log is the reference trace, and the cache is unchanged. |
| Selector.FindBestPlan | lib/interpolate.c:156-205 | On a hit, it returns the cached plan with the state unchanged, so nothing is constructed or timed. On a miss, it aborts exactly when no time beats `DBL_MAX`. Otherwise it returns the fastest candidate and caches it under the key. The winner is the only survivor, holds the harness's timestamps, and is owned by the caller and, if the store acquires references, by the store. Each loser is destroyed once, and the invariant is kept. |
| Selector.SelectAndCache | lib/interpolate.c:173-204 | The miss path: the selection above, followed by the insert. |
| Selector.MissKeepsWellFormed | lib/interpolate.c:199-202 | Caching the fresh winner keeps the cache's layout consistency. |
| Selector.RegisteredCount | lib/interpolate.c:209-214 | Each `*_best` list has three constructors before its NULL. |
| Selector.PlanBest | lib/interpolate.c:207-239 | On a miss, the returned plan is live, has the requested layout, and was built by the fastest of the naive, padding-aware and phase-shift constructors; its owners are the caller and an acquiring store. The whole miss outcome of `find_best_plan` holds as well: it is the only survivor, it is cached under the key, and each loser was destroyed once. Abort happens exactly when all three times are `>= DBL_MAX`. |
| Selector.RequestTwice | lib/interpolate.c:156-205 | A second request with the same key returns the same plan, with no construction, no timing and no change of state. |
| Selector.ReleasedPlanStaysCached | lib/interpolate.c:199-204 | With a store that takes no reference, releasing the caller's one reference to a freshly selected plan tears it down while the cache still maps the key to it. |
| Selector.ReleasedPlanStaysLive | lib/interpolate.c:199-204 | With a store that takes a reference, the caller's release leaves the cached plan live, with the store as its one owner. |

## Left out

- Concurrency: each operation, including a whole `find_best_plan` call, is
  modelled as one atomic step. In the C code the cache lookup and insert of
  `find_best_plan` run outside any critical section. Two callers that both
  miss on the same key and both insert are the only case in which the
  store's behaviour on a present key (`StorePolicy.onPresent`) matters, and
  that interleaving is not modelled.
- Floating point: times and the complex kernel use exact reals. The real
  kernel is over an abstract element type and multiplication.
- `time_point_save` and `time_point_delta`:
  - The clock readings are parameters of `ExecutePlan`.
  - The statistic returns the timestamp pair, not their difference.
  - The `time_interpolate_*` harnesses are the `timer` oracle.
- The vtable callees are not modelled:
  - `interpolate_get_name`, `interpolate_print_timings` and
    `interpolate_set_flags` only forward to the implementation.
  - The bodies of the `execute_*` executors, `get_statistic_float` for
    other statistics, and `destroy_detail` are left out. The last is
    recorded as a log event.
- Constructor bodies: a constructor is modelled as returning a fresh plan of
  the requested layout with one owner. The `flags` argument is dropped.
- The `plan_cache.h` store is not part of this model. Its behaviour is the
  `StorePolicy` parameter:
  - what it does with a key it already holds;
  - whether storing a plan takes a reference on it. Neither the wrapper nor
    the insert call takes one, so this is an assumption about the store.
    `Selector.ReleasedPlanStaysCached` states the consequence of a store that
    takes none, and `Selector.ReleasedPlanStaysLive` that of one that does.
- `validate_plan` and the `magic` tag: validity is modelled as "the identity
  is live". Clearing `magic` before `free` is subsumed by removing the plan.
- Address reuse: identities are never reused, although `malloc` may reuse a
  freed address.
- Selector.MissKeepsWellFormed: the layout clause of `WellFormed` (a live
  cached plan has its key's layout) holds only because identities are fresh.
  With a store that takes no reference, C can break it. Take
  `interpolate_plan_3d_interleaved_best(4, 4, 4, 0)` returning W, cached
  under the interleaved key, and then `interpolate_destroy_plan(W)`. The
  cache still holds W's address. A later `interpolate_plan_3d_split_best(4,
  4, 4, 0)` misses, and `malloc` may place a candidate at that address. If
  it wins, it is cached under the split key, and a third interleaved request
  hits and returns a live split plan that `validate_plan` accepts. The model
  instead reports a hit on a dead plan, on which every use aborts.
- `best_plan_cache_enabled` is the constant 1, so the cache-disabled branches
  are not modelled.
- Runtime.CacheGet: the store's lookup (`plan_cache_get`) is not part of this
  model. It is assumed to take no reference and to have no side effect, which
  the hit cases of `Selector.FindBestPlan`, `Selector.RequestTwice` and
  `Selector.PlanBest` rely on.
- Runtime.IncRefCount: C `int` overflow is not modelled. At `INT_MAX` the
  C increment `++plan->ref_cnt` overflows (undefined behaviour), while the
  model always returns the old count + 1.
- Common.NumElements: C `int` overflow is not modelled. The C product of the
  three extents overflows (undefined behaviour) once it exceeds `2^31 - 1`,
  for example at `1300 x 1300 x 1300`, where no stride does. There the
  positivity clause and `Common.NumElementsOfPopulated` describe the exact
  product, not the C result.
- Runtime.RecordTiming: the harness is a caller-supplied function whose body
  is not part of this model. It is assumed to change only the timestamps of
  the plan it times. It does not change any reference count, the layout, the
  cache or any other plan.
- Runtime.DecRefCount: C `assert` is assumed to be compiled in. Under `NDEBUG`
  a decrement below zero would store a negative count and return normally
  instead of aborting.
- Selector.FindBestPlan: C `assert` is assumed to be compiled in. Under
  `NDEBUG`, when no time beats `DBL_MAX`, NULL would be cached and returned
  instead of aborting.
- Runtime.Construct: states only what the runtime relies on from a
  constructor. Whether a constructor can return NULL is not modelled.
- Common.PopulateProperties: C `int` overflow in the stride products is not
  modelled. The arithmetic uses unbounded integers, so the equalities hold
  for every input, including non-positive extents.
- Common.CornerBlocksCoverAxis: stated for `n >= 1`. An empty axis has no
  bins, yet `corner_size(0, 0)` is 1.
- Kernels.PointwiseMultiplyReal: models the SSE2 build. A build without SSE2
  runs only the scalar loop, which is the `split == 0` case.
- Kernels.PointwiseMultiplyReal: on an overrun, the C code reads and writes
  past the buffers, which is undefined behaviour. The model stops at the end
  of the buffers and promises nothing about their contents.
- Kernels.PointwiseMultiplyReal: `a` and `b` are assumed not to overlap.
  Nothing in the C code forbids overlap, and overlapping buffers would read
  values already overwritten.
- Kernels.PointwiseMultiplyComplex: `a` and `b` are assumed not to overlap,
  for the same reason.
- `lib/common_cuda.h` and the public headers: they hold declarations only.
  `STATISTIC_EXECUTION_TIME = 1` and the statistic kinds are copied.
