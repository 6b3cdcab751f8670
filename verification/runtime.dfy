/**
 The plan runtime of lib/interpolate.c, as a sequential state machine.

 The process state is an immutable `State`: the live plans by identity (their
 address), the process-wide plan cache with its lazy-initialisation flag, the
 next fresh identity, and a log of the calls the runtime makes to
 constructors, the timing harness and `destroy_detail`. Every public entry
 point first validates its plan; a plan is valid exactly when it is live, and
 a failed validation, like a failed `assert`, aborts the process (`Abort`).
 Each operation is one atomic step: concurrent callers are not modelled.
 */
module Runtime {
  import opened Optional
  import opened Common

  /** `STATISTIC_EXECUTION_TIME`. */
  const StatisticExecutionTime: int := 1

  /** `stat_type_t`. */
  datatype StatType = StatPlanning | StatExecution | StatUnknown

  /** The identity (address) of a heap-allocated plan. */
  type PlanId = nat

  /** The algorithm families a plan can be built by. */
  datatype Family = Naive | PaddingAware | PhaseShift

  /** The timestamps saved just before and just after the last execution. */
  datatype Sample = Sample(before: real, after: real)

  /** The timing sample of a plan that has not been executed yet. */
  const NoSample := Sample(0.0, 0.0)

  /** The runtime-visible part of `struct interpolate_plan_s`; the
      implementation-owned state behind the vtable is not modelled. */
  datatype Plan = Plan(refCount: int, layout: Layout, family: Family, sample: Sample)

  /** `plan_key_t`. */
  datatype Key = Key(n0: int, n1: int, n2: int, layout: Layout)

  /** Calls the runtime makes to constructors, the timing harness and a
      plan's `destroy_detail`. */
  datatype Event =
    | Constructed(id: PlanId)      // a constructor returned this plan
    | Timed(id: PlanId)            // the timing harness ran this plan
    | DetailDestroyed(id: PlanId)  // `destroy_detail` ran on this plan

  datatype State = State(
    heap: map<PlanId, Plan>,
    cacheReady: bool,
    cache: map<Key, PlanId>,
    nextId: PlanId,
    log: seq<Event>)

  /** The fatal conditions: a failed `validate_plan`, the reference-count
      `assert`, and the non-null `assert` on the selected plan. */
  datatype Fatal = InvalidPlan | RefCountUnderflow | NoBestPlan

  /** The result of an entry point: the new state and the returned value, or
      a process abort. */
  datatype Outcome<T> = Done(state: State, value: T) | Abort(reason: Fatal)

  /** The invariant every operation keeps: live and cached plans have
      identities the allocator has handed out, live plans are owned at least
      once, the cache is empty before its initialisation, and a cached plan
      that is still live has the layout of its key. */
  ghost predicate WellFormed(s: State)
  {
    && (forall id | id in s.heap :: id < s.nextId && s.heap[id].refCount >= 1)
    && (!s.cacheReady ==> s.cache == map[])
    && (forall k | k in s.cache :: s.cache[k] < s.nextId)
    && (forall k | k in s.cache && s.cache[k] in s.heap :: s.heap[s.cache[k]].layout == k.layout)
  }

  /** `validate_plan`: the handle names a live plan. */
  predicate Valid(s: State, id: PlanId)
  {
    id in s.heap
  }

  /** The state after `plan` has been torn down: `destroy_detail` ran, the
      tag was cleared and the memory freed. */
  function TearDown(s: State, id: PlanId): State
  {
    s.(heap := s.heap - {id}, log := s.log + [DetailDestroyed(id)])
  }

  /** The state with only the reference count of `id` replaced. */
  function WithCount(s: State, id: PlanId, count: int): State
    requires id in s.heap
  {
    s.(heap := s.heap[id := s.heap[id].(refCount := count)])
  }

  /** `interpolate_inc_ref_count`. */
  function IncRefCount(s: State, id: PlanId): (out: Outcome<int>)
    ensures !Valid(s, id) <==> out == Abort(InvalidPlan)
    ensures Valid(s, id) ==> out.Done? && out.value == s.heap[id].refCount + 1
    ensures out.Done? ==> out.state.heap.Keys == s.heap.Keys && out.state.log == s.log
    ensures out.Done? ==> out.state.heap[id] == s.heap[id].(refCount := out.value)
    ensures out.Done? ==> forall o | o in s.heap && o != id :: out.state.heap[o] == s.heap[o]
    ensures out.Done? ==> out.state == WithCount(s, id, out.value)
    ensures out.Done? && WellFormed(s) ==> WellFormed(out.state)
  {
    if !Valid(s, id) then Abort(InvalidPlan)
    else
      var count := s.heap[id].refCount + 1;
      Done(WithCount(s, id, count), count)
  }

  /** `interpolate_dec_ref_count`: the plan is torn down exactly when the new
      count is zero, a negative count aborts, and otherwise only the count
      changes. */
  function DecRefCount(s: State, id: PlanId): (out: Outcome<int>)
    ensures !Valid(s, id) ==> out == Abort(InvalidPlan)
    ensures Valid(s, id) ==> (out == Abort(RefCountUnderflow) <==> s.heap[id].refCount - 1 < 0)
    ensures out.Done? ==> Valid(s, id) && out.value == s.heap[id].refCount - 1 && out.value >= 0
    ensures out.Done? ==> (!Valid(out.state, id) <==> out.value == 0)
    ensures out.Done? && out.value == 0 ==> out.state == TearDown(s, id)
    ensures out.Done? && out.value > 0 ==> out.state == WithCount(s, id, out.value)
    ensures out.Done? ==> forall o | o in s.heap && o != id :: o in out.state.heap && out.state.heap[o] == s.heap[o]
    ensures WellFormed(s) && Valid(s, id) ==> out.Done? && WellFormed(out.state)
  {
    if !Valid(s, id) then Abort(InvalidPlan)
    else
      var count := s.heap[id].refCount - 1;
      if count < 0 then Abort(RefCountUnderflow)
      else if count == 0 then Done(TearDown(s, id), count)
      else Done(WithCount(s, id, count), count)
  }

  /** `interpolate_destroy_plan`: exactly one reference-count decrement. */
  function DestroyPlan(s: State, id: PlanId): (out: Outcome<()>)
    ensures !Valid(s, id) ==> out == Abort(InvalidPlan)
    ensures DecRefCount(s, id).Abort? <==> out.Abort?
    ensures out.Abort? ==> out.reason == DecRefCount(s, id).reason
    ensures out.Done? ==> out.state == DecRefCount(s, id).state
  {
    if !Valid(s, id) then Abort(InvalidPlan)
    else
      match DecRefCount(s, id)
      case Abort(r) => Abort(r)
      case Done(t, _) => Done(t, ())
  }

  /** Incrementing and then decrementing the count of a live plan restores
      the state and returns the original count. */
  lemma IncDecRoundTrip(s: State, id: PlanId)
    requires WellFormed(s) && Valid(s, id)
    ensures IncRefCount(s, id).Done?
    ensures DecRefCount(IncRefCount(s, id).state, id) == Done(s, s.heap[id].refCount)
  {
    var t := IncRefCount(s, id).state;
    assert t.heap[id].refCount >= 2;
    var u := DecRefCount(t, id).state;
    assert u.heap == s.heap;
  }

  /** `k` successive `interpolate_destroy_plan` calls on one plan. */
  ghost function DestroyTimes(s: State, id: PlanId, k: nat): Outcome<()>
    decreases k
  {
    if k == 0 then Done(s, ())
    else
      match DestroyPlan(s, id)
      case Abort(r) => Abort(r)
      case Done(t, _) => DestroyTimes(t, id, k - 1)
  }

  /** A plan with `c` owners survives the first `c - 1` releases with one
      owner fewer each time, and the `c`-th release tears it down, once. */
  lemma {:induction false} ReleaseShares(s: State, id: PlanId, k: nat)
    requires WellFormed(s) && Valid(s, id) && k <= s.heap[id].refCount
    ensures DestroyTimes(s, id, k).Done?
    ensures var t := DestroyTimes(s, id, k).state;
      && WellFormed(t)
      && (k < s.heap[id].refCount ==> Valid(t, id) && t.heap[id].refCount == s.heap[id].refCount - k && t.log == s.log)
      && (k == s.heap[id].refCount ==> !Valid(t, id) && t.log == s.log + [DetailDestroyed(id)])
    decreases k
  {
    if k > 0 {
      var t := DestroyPlan(s, id).state;
      if s.heap[id].refCount == 1 {
        assert t == TearDown(s, id);
        assert DestroyTimes(s, id, k) == DestroyTimes(t, id, 0);
      } else {
        assert t == WithCount(s, id, s.heap[id].refCount - 1);
        ReleaseShares(t, id, k - 1);
      }
    }
  }

  /** `interpolate_execute_interleaved`, `_split` and `_split_product`: the
      runtime saves a timestamp before dispatching to the implementation's
      executor and another after it; `before` and `after` are the clock
      readings. */
  function ExecutePlan(s: State, id: PlanId, before: real, after: real): (out: Outcome<()>)
    ensures !Valid(s, id) <==> out == Abort(InvalidPlan)
    ensures out.Done? ==> out.state.heap.Keys == s.heap.Keys && out.state.log == s.log
    ensures out.Done? ==>
      out.state.cacheReady == s.cacheReady && out.state.cache == s.cache && out.state.nextId == s.nextId
    ensures out.Done? ==> out.state.heap[id] == s.heap[id].(sample := Sample(before, after))
    ensures out.Done? ==> forall o | o in s.heap && o != id :: out.state.heap[o] == s.heap[o]
    ensures out.Done? && WellFormed(s) ==> WellFormed(out.state)
  {
    if !Valid(s, id) then Abort(InvalidPlan)
    else Done(s.(heap := s.heap[id := s.heap[id].(sample := Sample(before, after))]), ())
  }

  /** The answer of `interpolate_get_statistic_float`: either the runtime's
      own execution-time statistic, or the call handed on unchanged to the
      implementation's `get_statistic_float`. The time is the delta between
      the two timestamps of `sample`, which the timing harness computes. */
  datatype StatReply =
    | Served(kind: StatType, sample: Sample)
    | Forwarded(plan: PlanId, statistic: int, index: int)

  /** `interpolate_get_statistic_float`. */
  function GetStatisticFloat(s: State, id: PlanId, statistic: int, index: int): (out: Outcome<StatReply>)
    ensures !Valid(s, id) <==> out == Abort(InvalidPlan)
    ensures out.Done? ==> out.state == s
    ensures out.Done? && statistic == StatisticExecutionTime ==>
      out.value == Served(StatExecution, s.heap[id].sample)
    ensures out.Done? && statistic != StatisticExecutionTime ==>
      out.value == Forwarded(id, statistic, index)
  {
    if !Valid(s, id) then Abort(InvalidPlan)
    else if statistic == StatisticExecutionTime then Done(s, Served(StatExecution, s.heap[id].sample))
    else Done(s, Forwarded(id, statistic, index))
  }

  /** The execution-time statistic reports the timestamps of the latest
      execution, whatever index is asked for. */
  lemma StatisticAfterExecute(s: State, id: PlanId, before: real, after: real, index: int)
    requires Valid(s, id)
    ensures var e := ExecutePlan(s, id, before, after);
      && e.Done?
      && GetStatisticFloat(e.state, id, StatisticExecutionTime, index)
         == Done(e.state, Served(StatExecution, Sample(before, after)))
  {
  }

  /** `global_plan_cache`: the cache is initialised (to an empty store) on
      first use only. */
  function GlobalPlanCache(s: State): (t: State)
    ensures t.cacheReady
    ensures s.cacheReady ==> t == s
    ensures !s.cacheReady ==> t == s.(cacheReady := true, cache := map[])
  {
    if s.cacheReady then s else s.(cacheReady := true, cache := map[])
  }

  /** Initialisation happens once: a second use changes nothing, and it
      never alters the plans, the allocator or the log. */
  lemma GlobalPlanCacheOnce(s: State)
    ensures GlobalPlanCache(GlobalPlanCache(s)) == GlobalPlanCache(s)
    ensures GlobalPlanCache(s).heap == s.heap && GlobalPlanCache(s).nextId == s.nextId
    ensures GlobalPlanCache(s).log == s.log
    ensures WellFormed(s) ==> GlobalPlanCache(s).cache == s.cache && WellFormed(GlobalPlanCache(s))
  {
  }

  /** `global_plan_cache_get`: the cached plan for `key`, or `None` (NULL). */
  function CacheGet(s: State, key: Key): (r: (State, Option<PlanId>))
    ensures r.0 == GlobalPlanCache(s)
    ensures r.1.Some? <==> s.cacheReady && key in s.cache
    ensures r.1.Some? ==> r.1.value == s.cache[key]
  {
    var t := GlobalPlanCache(s);
    if key in t.cache then (t, Some(t.cache[key])) else (t, None)
  }

  /** What the store behind `plan_cache_insert` does with a key it already
      holds. */
  datatype OnPresent = KeepExisting | ReplaceExisting

  /** The behaviour of the store behind `plan_cache_insert`, whose
      implementation is not part of this model: what it does with a key it
      already holds, and whether storing a plan takes a reference on it (as
      an `interpolate_inc_ref_count` would). */
  datatype StorePolicy = StorePolicy(onPresent: OnPresent, acquires: bool)

  /** The references the store takes on a plan it stores. */
  function StoreShares(policy: StorePolicy): nat
  {
    if policy.acquires then 1 else 0
  }

  /** `global_plan_cache_insert`: stores `key -> id` and reports whether it
      did. A store that acquires references takes one on a plan it stores;
      nothing else about the plans changes. */
  function CacheInsert(s: State, key: Key, id: PlanId, policy: StorePolicy): (r: (State, bool))
    ensures r.0.cacheReady
    ensures r.0.heap.Keys == s.heap.Keys && r.0.nextId == s.nextId && r.0.log == s.log
    ensures !r.1 || id !in s.heap ==> r.0.heap == s.heap
    ensures r.1 && id in s.heap ==>
      r.0.heap == s.heap[id := s.heap[id].(refCount := s.heap[id].refCount + StoreShares(policy))]
    ensures !(s.cacheReady && key in s.cache) ==> r.1 && r.0.cache == GlobalPlanCache(s).cache[key := id]
    ensures s.cacheReady && key in s.cache && policy.onPresent == KeepExisting ==> !r.1 && r.0 == s
    ensures s.cacheReady && key in s.cache && policy.onPresent == ReplaceExisting ==>
      r.1 && r.0.cache == s.cache[key := id]
    ensures WellFormed(s) && id in s.heap && s.heap[id].layout == key.layout ==> WellFormed(r.0)
  {
    var t := GlobalPlanCache(s);
    if key in t.cache && policy.onPresent == KeepExisting then (t, false)
    else if policy.acquires && id in t.heap then
      var held := t.heap[id];
      (t.(cache := t.cache[key := id], heap := t.heap[id := held.(refCount := held.refCount + 1)]), true)
    else (t.(cache := t.cache[key := id]), true)
  }

  /** On a key the cache does not hold, both behaviours on a present key
      agree, and a later lookup of that key finds the inserted plan while
      every other key looks up as before. */
  lemma InsertThenGet(s: State, key: Key, id: PlanId, other: Key, acquires: bool)
    requires !(s.cacheReady && key in s.cache)
    requires other != key
    ensures var keep := StorePolicy(KeepExisting, acquires);
      && CacheInsert(s, key, id, keep) == CacheInsert(s, key, id, StorePolicy(ReplaceExisting, acquires))
      && CacheGet(CacheInsert(s, key, id, keep).0, key).1 == Some(id)
      && CacheGet(CacheInsert(s, key, id, keep).0, other).1 == CacheGet(s, other).1
  {
  }

  /** The reference an acquiring store takes is the one
      `interpolate_inc_ref_count` would take. */
  lemma StoreShareIsIncrement(s: State, key: Key, id: PlanId, policy: StorePolicy)
    requires policy.acquires && Valid(s, id)
    requires !(s.cacheReady && key in s.cache)
    ensures CacheInsert(s, key, id, policy).0.heap == IncRefCount(s, id).state.heap
  {
  }

  /** A registered constructor, whose body is not part of this model: it
      returns a fresh plan of the requested layout with one owner. */
  function Construct(s: State, layout: Layout, family: Family): (r: (State, PlanId))
    ensures r.1 !in s.heap ==> r.0.heap == s.heap[r.1 := Plan(1, layout, family, NoSample)]
    ensures r.0.nextId == s.nextId + 1 && r.1 == s.nextId
    ensures r.0.log == s.log + [Constructed(r.1)]
    ensures r.0.cacheReady == s.cacheReady && r.0.cache == s.cache
  {
    var id := s.nextId;
    (s.(heap := s.heap[id := Plan(1, layout, family, NoSample)], nextId := id + 1,
        log := s.log + [Constructed(id)]), id)
  }

  /** The caller's timing harness runs `id`. Its body is not part of this
      model: it may run the plan through the public executors, which restamp
      it, so `sample` is the pair of timestamps the plan holds afterwards.
      The harness is taken to change nothing else, of this plan or any
      other. */
  function RecordTiming(s: State, id: PlanId, sample: Sample): (t: State)
    ensures t.nextId == s.nextId && t.log == s.log + [Timed(id)]
    ensures t.cacheReady == s.cacheReady && t.cache == s.cache
    ensures id !in s.heap ==> t.heap == s.heap
    ensures id in s.heap ==> t.heap == s.heap[id := s.heap[id].(sample := sample)]
  {
    var timed := s.(log := s.log + [Timed(id)]);
    if id in s.heap then timed.(heap := s.heap[id := s.heap[id].(sample := sample)]) else timed
  }

  /** A harness that executes the plan once leaves it as
      `interpolate_execute_*` does. */
  lemma TimingIsExecution(s: State, id: PlanId, before: real, after: real)
    requires Valid(s, id)
    ensures ExecutePlan(s, id, before, after).Done?
    ensures RecordTiming(s, id, Sample(before, after)).heap == ExecutePlan(s, id, before, after).state.heap
  {
  }
}
