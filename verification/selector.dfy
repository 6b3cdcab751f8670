/**
 The auto-tuning selector of lib/interpolate.c (`find_best_plan` and the
 three `interpolate_plan_3d_*_best` entry points).

 The timing harness is an oracle: `timer(k)` is the time it reports for the
 `k`-th candidate constructed in the call, and `samples(k)` the pair of
 timestamps that candidate holds once the harness is done with it. Times are
 exact reals and the initial best time is the value of `DBL_MAX`.
 */
module Selector {
  import opened Optional
  import opened Common
  import opened Runtime

  /** `DBL_MAX`, (2^53 - 1) * 2^971. */
  const DblMax: real := 179769313486231570814527423731704356798070567525844996598917476803157260780028538760589558632766878171540458953514382464234321326889464182768467546703537516986049910576551282076245490090389328944075868508455133942304583236903222948165808559332123348274797826204144723168738177180919299881250404026184124858368.0

  /** The constructor list every `*_best` entry point passes: naive,
      padding-aware, phase-shift, then the NULL sentinel. */
  const Registered: seq<Option<Family>> := [Some(Naive), Some(PaddingAware), Some(PhaseShift), None]

  /** The list holds a NULL sentinel. */
  ghost predicate Terminated<T>(ctors: seq<Option<T>>)
  {
    exists k :: 0 <= k < |ctors| && ctors[k].None?
  }

  /** The counting loop of `find_best_plan`: the number of constructors
      before the first NULL. */
  function SentinelCount<T>(ctors: seq<Option<T>>): (n: nat)
    requires Terminated(ctors)
    ensures n < |ctors| && ctors[n].None?
    ensures forall k :: 0 <= k < n ==> ctors[k].Some?
  {
    if ctors[0].None? then 0
    else
      assert Terminated(ctors[1..]) by {
        var k :| 0 <= k < |ctors| && ctors[k].None?;
        assert ctors[1..][k - 1] == ctors[k];
      }
      1 + SentinelCount(ctors[1..])
  }

  /** Candidate `w` of the first `n` is the one the selection keeps: it beat
      the `DBL_MAX` sentinel, no candidate is strictly faster, and every
      earlier candidate is strictly slower, so a tie goes to the earliest. */
  ghost predicate IsFastest(timer: nat -> real, n: nat, w: nat)
  {
    && w < n
    && timer(w) < DblMax
    && (forall k :: 0 <= k < n ==> timer(w) <= timer(k))
    && (forall k :: 0 <= k < w ==> timer(w) < timer(k))
  }

  /** There is at most one fastest candidate. */
  lemma FastestIsUnique(timer: nat -> real, n: nat, w1: nat, w2: nat)
    requires IsFastest(timer, n, w1) && IsFastest(timer, n, w2)
    ensures w1 == w2
  {
  }

  /** The cache holds a plan for `key`. */
  ghost predicate Hit(s: State, key: Key)
  {
    s.cacheReady && key in s.cache
  }

  /** The calls the runtime makes to constructors, the timing harness and
      `destroy_detail` during one selection over the candidates with
      identities `[base, base + n)`: each is constructed and timed once, each
      except `winner` is destroyed once, and `winner` is never destroyed. */
  ghost predicate SelectionTrace(events: seq<Event>, base: nat, n: nat, winner: PlanId)
  {
    && TraceBounded(events, base, n)
    && (forall k :: base <= k < base + n ==>
          multiset(events)[Constructed(k)] == 1 && multiset(events)[Timed(k)] == 1)
    && (forall k :: base <= k < base + n ==>
          multiset(events)[DetailDestroyed(k)] == if k == winner then 0 else 1)
  }

  /** Every event of `events` concerns a candidate of `[base, base + n)`. */
  ghost predicate TraceBounded(events: seq<Event>, base: nat, n: nat)
  {
    forall j :: 0 <= j < |events| ==> base <= events[j].id < base + n
  }

  /** Appending the events of candidate `base + n` (and possibly of an
      earlier candidate) keeps the trace bounded. */
  lemma TraceBoundedStep(events: seq<Event>, step: seq<Event>, base: nat, n: nat)
    requires TraceBounded(events, base, n)
    requires forall j :: 0 <= j < |step| ==> base <= step[j].id < base + n + 1
    ensures TraceBounded(events + step, base, n + 1)
  {
  }

  /** A candidate not yet reached has no event in a bounded trace. */
  lemma NotYetInTrace(events: seq<Event>, base: nat, n: nat)
    requires TraceBounded(events, base, n)
    ensures multiset(events)[Constructed(base + n)] == 0
    ensures multiset(events)[Timed(base + n)] == 0
    ensures multiset(events)[DetailDestroyed(base + n)] == 0
  {
    var p := base + n;
    forall j | 0 <= j < |events|
      ensures events[j] != Constructed(p) && events[j] != Timed(p) && events[j] != DetailDestroyed(p)
    {
      assert events[j].id < p;
    }
    assert Constructed(p) !in events;
    assert Timed(p) !in events;
    assert DetailDestroyed(p) !in events;
  }

  /** The trace grows by `step`, the events of candidate `base + i` plus
      possibly the destruction of an earlier one, and the counts add up to a
      trace over one candidate more with winner `winner'`. */
  lemma CountsAfterStep(events: seq<Event>, step: seq<Event>, base: nat, i: nat, winner: PlanId, winner': PlanId)
    requires SelectionTrace(events, base, i, winner)
    requires TraceBounded(step, base, i + 1)
    requires multiset(step)[Constructed(base + i)] == 1 && multiset(step)[Timed(base + i)] == 1
    requires multiset(step)[DetailDestroyed(base + i)] == if winner' == base + i then 0 else 1
    requires forall k :: base <= k < base + i ==>
      multiset(step)[Constructed(k)] == 0 && multiset(step)[Timed(k)] == 0
    requires forall k :: base <= k < base + i ==>
      multiset(events)[DetailDestroyed(k)] + multiset(step)[DetailDestroyed(k)] == if k == winner' then 0 else 1
    ensures SelectionTrace(events + step, base, i + 1, winner')
  {
    NotYetInTrace(events, base, i);
    TraceBoundedStep(events, step, base, i);
    var all := events + step;
    assert multiset(all) == multiset(events) + multiset(step);
    forall k | base <= k < base + i + 1
      ensures multiset(all)[Constructed(k)] == 1 && multiset(all)[Timed(k)] == 1
      ensures multiset(all)[DetailDestroyed(k)] == if k == winner' then 0 else 1
    {
    }
  }

  /** One iteration of the selection loop extends the trace by the events
      of candidate `p = base + i`; `winner` is the best before it (or an
      identity past the candidates when there is none yet). */
  lemma SelectionTraceStep(events: seq<Event>, base: nat, i: nat, best: Option<PlanId>, nobody: nat, improved: bool)
    requires best.Some? ==> base <= best.value < base + i
    requires best.None? ==> base + i < nobody
    requires SelectionTrace(events, base, i, if best.Some? then best.value else nobody)
    ensures var p := base + i;
      var winner' := if improved then p else if best.Some? then best.value else nobody;
      SelectionTrace(events + StepEvents(p, best, improved), base, i + 1, winner')
  {
    var p := base + i;
    var winner := if best.Some? then best.value else nobody;
    if !improved {
      assert StepEvents(p, best, improved) == [Constructed(p), Timed(p), DetailDestroyed(p)];
      CandidateLoses(events, base, i, winner);
    } else if best.Some? {
      assert StepEvents(p, best, improved) == [Constructed(p), Timed(p), DetailDestroyed(winner)];
      CandidateReplaces(events, base, i, winner);
    } else {
      assert StepEvents(p, best, improved) == [Constructed(p), Timed(p)];
      CandidateLeadsFirst(events, base, i, nobody);
    }
  }

  /** A slower candidate is destroyed at once and the winner stays. */
  lemma CandidateLoses(events: seq<Event>, base: nat, i: nat, winner: PlanId)
    requires winner != base + i
    requires SelectionTrace(events, base, i, winner)
    ensures SelectionTrace(events + [Constructed(base + i), Timed(base + i), DetailDestroyed(base + i)], base, i + 1, winner)
  {
    var p := base + i;
    var step := [Constructed(p), Timed(p), DetailDestroyed(p)];
    assert multiset(step) == multiset{Constructed(p), Timed(p), DetailDestroyed(p)};
    CountsAfterStep(events, step, base, i, winner, winner);
  }

  /** A faster candidate takes over and the previous leader is destroyed. */
  lemma CandidateReplaces(events: seq<Event>, base: nat, i: nat, winner: PlanId)
    requires base <= winner < base + i
    requires SelectionTrace(events, base, i, winner)
    ensures SelectionTrace(events + [Constructed(base + i), Timed(base + i), DetailDestroyed(winner)], base, i + 1, base + i)
  {
    var p := base + i;
    var step := [Constructed(p), Timed(p), DetailDestroyed(winner)];
    assert multiset(step) == multiset{Constructed(p), Timed(p), DetailDestroyed(winner)};
    CountsAfterStep(events, step, base, i, winner, p);
  }

  /** The first candidate to beat `DBL_MAX` takes the lead and nothing is
      destroyed. */
  lemma CandidateLeadsFirst(events: seq<Event>, base: nat, i: nat, nobody: nat)
    requires base + i < nobody
    requires SelectionTrace(events, base, i, nobody)
    ensures SelectionTrace(events + [Constructed(base + i), Timed(base + i)], base, i + 1, base + i)
  {
    var p := base + i;
    var step := [Constructed(p), Timed(p)];
    assert multiset(step) == multiset{Constructed(p), Timed(p)};
    CountsAfterStep(events, step, base, i, nobody, p);
  }

  /** Destroying a candidate that nobody else owns tears it down. */
  lemma DestroyFreshCandidate(s: State, id: PlanId)
    requires Valid(s, id) && s.heap[id].refCount == 1
    ensures DestroyPlan(s, id) == Done(TearDown(s, id), ())
  {
  }

  /** The calls the runtime makes to constructors, the timing harness and
      `destroy_detail` while evaluating candidate `p`: it is constructed and
      timed, then the loser is destroyed, which is the previous best (if any)
      when `p` is faster and `p` itself otherwise. */
  function StepEvents(p: PlanId, best: Option<PlanId>, improved: bool): seq<Event>
  {
    [Constructed(p), Timed(p)]
      + (if !improved then [DetailDestroyed(p)] else if best.Some? then [DetailDestroyed(best.value)] else [])
  }

  /** One iteration of the selection loop: construct the candidate, time
      it, and keep it if it is strictly faster than the best so far, at once
      destroying whichever of the two lost. */
  function Evaluate(st: State, layout: Layout, family: Family, time: real, sample: Sample,
                    best: Option<PlanId>, bestTime: real)
    : (r: (State, Option<PlanId>, real))
    requires best.Some? ==> Valid(st, best.value) && st.heap[best.value].refCount == 1 && best.value < st.nextId
    ensures r.0.nextId == st.nextId + 1 && r.0.cacheReady == st.cacheReady && r.0.cache == st.cache
    ensures r.0.log == st.log + StepEvents(st.nextId, best, time < bestTime)
    ensures time < bestTime ==> r.1 == Some(st.nextId) && r.2 == time
    ensures time < bestTime ==>
      r.0.heap == (if best.Some? then st.heap - {best.value} else st.heap)[st.nextId := Plan(1, layout, family, sample)]
    ensures !(time < bestTime) ==> r.1 == best && r.2 == bestTime
    ensures !(time < bestTime) && st.nextId !in st.heap ==> r.0.heap == st.heap
  {
    var (st1, plan) := Construct(st, layout, family);
    var st2 := RecordTiming(st1, plan, sample);
    if time < bestTime then
      if best.Some? then
        DestroyFreshCandidate(st2, best.value);
        (DestroyPlan(st2, best.value).state, Some(plan), time)
      else (st2, Some(plan), time)
    else
      DestroyFreshCandidate(st2, plan);
      (DestroyPlan(st2, plan).state, best, bestTime)
  }

  /** The time to beat: that of the leading candidate, or `DBL_MAX`. */
  ghost function LeaderTime(timer: nat -> real, leader: Option<nat>): real
  {
    if leader.Some? then timer(leader.value) else DblMax
  }

  /** The position of the candidate the loop holds after timing the first
      `n`, by the loop's own recurrence: a candidate takes the lead only when
      it is strictly faster than the current leader. */
  ghost function Leader(timer: nat -> real, n: nat): Option<nat>
    decreases n
  {
    if n == 0 then None
    else
      var prev := Leader(timer, n - 1);
      if timer(n - 1) < LeaderTime(timer, prev) then Some(n - 1) else prev
  }

  /** A candidate position as a plan identity, candidates being numbered
      from `base`. */
  function AsPlan(leader: Option<nat>, base: nat): Option<PlanId>
  {
    if leader.Some? then Some(base + leader.value) else None
  }

  /** The calls the loop makes while timing the first `n` candidates. */
  ghost function Trace(timer: nat -> real, base: nat, n: nat): seq<Event>
    decreases n
  {
    if n == 0 then []
    else
      var i := n - 1;
      var prev := Leader(timer, i);
      Trace(timer, base, i) + StepEvents(base + i, AsPlan(prev, base), timer(i) < LeaderTime(timer, prev))
  }

  /** The loop's leader is the fastest candidate with ties to the earliest,
      and there is none exactly when no candidate beat `DBL_MAX`. */
  lemma {:induction false} LeaderIsFastest(timer: nat -> real, n: nat)
    ensures Leader(timer, n).Some? ==> IsFastest(timer, n, Leader(timer, n).value)
    ensures Leader(timer, n).None? <==> forall k :: 0 <= k < n ==> timer(k) >= DblMax
    decreases n
  {
    if n > 0 {
      LeaderIsFastest(timer, n - 1);
      var prev := Leader(timer, n - 1);
      if prev.Some? {
        assert timer(prev.value) < DblMax;
      }
    }
  }

  /** Over the first `n` candidates each is constructed and timed once, and
      each but the leader is destroyed once. `nobody` is an identity past
      the candidates, standing for "no leader". */
  lemma {:induction false} TraceCounts(timer: nat -> real, base: nat, n: nat, nobody: nat)
    requires base + n <= nobody
    ensures var l := AsPlan(Leader(timer, n), base);
      SelectionTrace(Trace(timer, base, n), base, n, if l.Some? then l.value else nobody)
    decreases n
  {
    if n > 0 {
      var i := n - 1;
      TraceCounts(timer, base, i, nobody);
      var prev := Leader(timer, i);
      var best := AsPlan(prev, base);
      var improved := timer(i) < LeaderTime(timer, prev);
      var events := Trace(timer, base, i);
      assert Trace(timer, base, n) == events + StepEvents(base + i, best, improved);
      var l := AsPlan(Leader(timer, n), base);
      assert (if l.Some? then l.value else nobody)
          == (if improved then base + i else if best.Some? then best.value else nobody);
      assert best.Some? ==> base <= best.value < base + i by {
        LeaderIsFastest(timer, i);
      }
      SelectionTraceStep(events, base, i, best, nobody, improved);
    }
  }

  /** What the benchmarking loop knows after timing the first `i`
      candidates, numbered from `base`: the calls made so far follow the
      reference trace, the held plan is the reference leader, and the heap
      is the initial one plus the leader alone. */
  ghost predicate LoopState(s: State, timer: nat -> real, samples: nat -> Sample,
                             ctors: seq<Option<Family>>, layout: Layout,
                             i: nat, st: State, best: Option<PlanId>, bestTime: real)
  {
    var base := s.nextId;
    && st.nextId == base + i
    && st.cacheReady == s.cacheReady && st.cache == s.cache
    && st.log == s.log + Trace(timer, base, i)
    && best == AsPlan(Leader(timer, i), base)
    && bestTime == LeaderTime(timer, Leader(timer, i))
    && LeaderAlone(s, samples, ctors, layout, i, st, best)
  }

  /** The heap is the initial one plus the held plan, if any, which is one
      of the first `i` candidates. */
  ghost predicate LeaderAlone(s: State, samples: nat -> Sample, ctors: seq<Option<Family>>, layout: Layout,
                              i: nat, st: State, best: Option<PlanId>)
  {
    var base := s.nextId;
    && (best.None? ==> st.heap == s.heap)
    && (best.Some? ==>
          && base <= best.value < base + i && best.value - base < |ctors| && ctors[best.value - base].Some?
          && st.heap ==
               s.heap[best.value := Plan(1, layout, ctors[best.value - base].value, samples(best.value - base))])
  }

  /** One iteration of the benchmarking loop keeps `LoopState`. */
  lemma EvaluateStep(s: State, timer: nat -> real, samples: nat -> Sample, ctors: seq<Option<Family>>, layout: Layout,
                     i: nat, st: State, best: Option<PlanId>, bestTime: real)
    requires i < |ctors| && ctors[i].Some?
    requires forall id | id in s.heap :: id < s.nextId
    requires LoopState(s, timer, samples, ctors, layout, i, st, best, bestTime)
    ensures best.Some? ==> Valid(st, best.value) && st.heap[best.value].refCount == 1 && best.value < st.nextId
    ensures var next := Evaluate(st, layout, ctors[i].value, timer(i), samples(i), best, bestTime);
      LoopState(s, timer, samples, ctors, layout, i + 1, next.0, next.1, next.2)
  {
    var next := Evaluate(st, layout, ctors[i].value, timer(i), samples(i), best, bestTime);
    EvaluateLog(s, timer, samples, ctors, layout, i, st, best, bestTime);
    EvaluateHeap(s, timer, samples, ctors, layout, i, st, best, bestTime);
  }

  /** One more step of the reference recurrences, in terms of the loop's
      variables. */
  lemma TraceSucc(timer: nat -> real, base: nat, i: nat, best: Option<PlanId>, bestTime: real)
    requires best == AsPlan(Leader(timer, i), base) && bestTime == LeaderTime(timer, Leader(timer, i))
    ensures Trace(timer, base, i + 1) == Trace(timer, base, i) + StepEvents(base + i, best, timer(i) < bestTime)
    ensures Leader(timer, i + 1) == if timer(i) < bestTime then Some(i) else Leader(timer, i)
  {
  }

  /** The calls and the leader after one more iteration. */
  lemma EvaluateLog(s: State, timer: nat -> real, samples: nat -> Sample, ctors: seq<Option<Family>>, layout: Layout,
                    i: nat, st: State, best: Option<PlanId>, bestTime: real)
    requires i < |ctors| && ctors[i].Some?
    requires best.Some? ==> Valid(st, best.value) && st.heap[best.value].refCount == 1 && best.value < st.nextId
    requires st.nextId == s.nextId + i
    requires st.cacheReady == s.cacheReady && st.cache == s.cache
    requires st.log == s.log + Trace(timer, s.nextId, i)
    requires best == AsPlan(Leader(timer, i), s.nextId)
    requires bestTime == LeaderTime(timer, Leader(timer, i))
    ensures var next := Evaluate(st, layout, ctors[i].value, timer(i), samples(i), best, bestTime);
      && next.0.nextId == s.nextId + i + 1
      && next.0.cacheReady == s.cacheReady && next.0.cache == s.cache
      && next.0.log == s.log + Trace(timer, s.nextId, i + 1)
      && next.1 == AsPlan(Leader(timer, i + 1), s.nextId)
      && next.2 == LeaderTime(timer, Leader(timer, i + 1))
  {
    var base := s.nextId;
    var step := StepEvents(base + i, best, timer(i) < bestTime);
    TraceSucc(timer, base, i, best, bestTime);
    assert s.log + Trace(timer, base, i + 1) == (s.log + Trace(timer, base, i)) + step;
  }

  /** The heap after one more iteration: the initial one plus the leader. */
  lemma EvaluateHeap(s: State, timer: nat -> real, samples: nat -> Sample, ctors: seq<Option<Family>>, layout: Layout,
                     i: nat, st: State, best: Option<PlanId>, bestTime: real)
    requires i < |ctors| && ctors[i].Some?
    requires forall id | id in s.heap :: id < s.nextId
    requires st.nextId == s.nextId + i
    requires LeaderAlone(s, samples, ctors, layout, i, st, best)
    ensures best.Some? ==> Valid(st, best.value) && st.heap[best.value].refCount == 1 && best.value < st.nextId
    ensures var next := Evaluate(st, layout, ctors[i].value, timer(i), samples(i), best, bestTime);
      LeaderAlone(s, samples, ctors, layout, i + 1, next.0, next.1)
  {
    var next := Evaluate(st, layout, ctors[i].value, timer(i), samples(i), best, bestTime);
    var newPlan := Plan(1, layout, ctors[i].value, samples(i));
    if timer(i) < bestTime {
      if best.Some? {
        var held := Plan(1, layout, ctors[best.value - s.nextId].value, samples(best.value - s.nextId));
        ReplaceAbsent(s.heap, best.value, held, st.nextId, newPlan);
      }
      assert next.0.heap == s.heap[st.nextId := newPlan];
    }
  }

  /** Dropping a key that was only just added, then adding another, is the
      same as adding the other alone. */
  lemma ReplaceAbsent<K, V>(m: map<K, V>, b: K, vb: V, n: K, vn: V)
    requires b !in m
    ensures (m[b := vb] - {b})[n := vn] == m[n := vn]
  {
    assert m[b := vb] - {b} == m;
  }

  /** What the loop guarantees once every candidate has been timed. */
  lemma LoopExit(s: State, timer: nat -> real, samples: nat -> Sample, ctors: seq<Option<Family>>, layout: Layout,
                 count: nat, st: State, best: Option<PlanId>, bestTime: real)
    requires count <= |ctors| && forall k :: 0 <= k < count ==> ctors[k].Some?
    requires LoopState(s, timer, samples, ctors, layout, count, st, best, bestTime)
    ensures st.nextId == s.nextId + count
    ensures st.cacheReady == s.cacheReady && st.cache == s.cache
    ensures st.log == s.log + Trace(timer, s.nextId, count)
    ensures best == AsPlan(Leader(timer, count), s.nextId)
    ensures best.Some? ==> s.nextId <= best.value < s.nextId + count
    ensures best.None? ==> st.heap == s.heap
    ensures best.Some? ==>
      var k := best.value - s.nextId;
      st.heap == s.heap[best.value := Plan(1, layout, ctors[k].value, samples(k))]
  {
  }

  /** The benchmarking loop of `find_best_plan` over the first `count`
      constructors, starting from `s`: afterwards the leader, if any, is the
      only candidate alive. */
  method RunCandidates(s: State, timer: nat -> real, samples: nat -> Sample, ctors: seq<Option<Family>>,
                       count: nat, layout: Layout)
    returns (st: State, best: Option<PlanId>)
    requires count <= |ctors| && forall k :: 0 <= k < count ==> ctors[k].Some?
    requires forall id | id in s.heap :: id < s.nextId
    ensures st.nextId == s.nextId + count
    ensures st.cacheReady == s.cacheReady && st.cache == s.cache
    ensures st.log == s.log + Trace(timer, s.nextId, count)
    ensures best == AsPlan(Leader(timer, count), s.nextId)
    ensures best.Some? ==> s.nextId <= best.value < s.nextId + count
    ensures best.None? ==> st.heap == s.heap
    ensures best.Some? ==>
      var k := best.value - s.nextId;
      st.heap == s.heap[best.value := Plan(1, layout, ctors[k].value, samples(k))]
  {
    st := s;
    best := None;
    var bestTime := DblMax;

    var planId := 0;
    while planId < count
      invariant planId <= count
      invariant LoopState(s, timer, samples, ctors, layout, planId, st, best, bestTime)
    {
      EvaluateStep(s, timer, samples, ctors, layout, planId, st, best, bestTime);
      var next := Evaluate(st, layout, ctors[planId].value, timer(planId), samples(planId), best, bestTime);
      st, best, bestTime := next.0, next.1, next.2;
      planId := planId + 1;
    }
    LoopExit(s, timer, samples, ctors, layout, count, st, best, bestTime);
  }

  /** The outcome of a selection on a cache miss: the fastest candidate `p`
      is the only one left alive, owned by the caller (and by the store, if
      it takes a reference), and is cached under `key`. */
  ghost predicate SelectedOnMiss(s: State, timer: nat -> real, samples: nat -> Sample, ctors: seq<Option<Family>>,
                                 key: Key, policy: StorePolicy, t: State, p: PlanId)
    requires Terminated(ctors)
  {
    var n := SentinelCount(ctors);
    && WinnerInstalled(s, timer, samples, ctors, n, key, policy, t, p)
    && SelectionLogged(s.log, t.log, s.nextId, n, p)
  }

  /** Of the first `n` candidates, numbered from `s.nextId`, `p` is the
      fastest; in `t` it is the only one alive, holding the caller's
      reference and the store's, if any, and is cached under `key`. */
  ghost predicate WinnerInstalled(s: State, timer: nat -> real, samples: nat -> Sample, ctors: seq<Option<Family>>,
                                  n: nat, key: Key, policy: StorePolicy, t: State, p: PlanId)
    requires n <= |ctors| && forall k :: 0 <= k < n ==> ctors[k].Some?
  {
    var base := s.nextId;
    && base <= p < base + n
    && IsFastest(timer, n, p - base)
    && t.heap == s.heap[p := Plan(1 + StoreShares(policy), key.layout, ctors[p - base].value, samples(p - base))]
    && t.nextId == base + n
    && t.cacheReady && t.cache == s.cache[key := p]
  }

  /** `after` extends `before` by the calls of one selection over
      `[base, base + n)` won by `p`. */
  ghost predicate SelectionLogged(before: seq<Event>, after: seq<Event>, base: nat, n: nat, p: PlanId)
  {
    && |before| <= |after| && after[..|before|] == before
    && SelectionTrace(after[|before|..], base, n, p)
  }

  /** `find_best_plan` with the cache enabled. `policy` stands for the
      behaviour of the store, which is not part of this model: what it does
      on a key it already holds never matters here, and whether it takes a
      reference decides whether the winner ends with one owner or two. */
  method FindBestPlan(s: State, timer: nat -> real, samples: nat -> Sample, ctors: seq<Option<Family>>,
                      n0: int, n1: int, n2: int, layout: Layout, policy: StorePolicy)
    returns (out: Outcome<PlanId>)
    requires WellFormed(s)
    requires Terminated(ctors)
    ensures Hit(s, Key(n0, n1, n2, layout)) ==> out == Done(s, s.cache[Key(n0, n1, n2, layout)])
    ensures !Hit(s, Key(n0, n1, n2, layout)) ==>
      (out.Abort? <==> forall k :: 0 <= k < SentinelCount(ctors) ==> timer(k) >= DblMax)
    ensures out.Abort? ==> out.reason == NoBestPlan
    ensures !Hit(s, Key(n0, n1, n2, layout)) && out.Done? ==>
      SelectedOnMiss(s, timer, samples, ctors, Key(n0, n1, n2, layout), policy, out.state, out.value)
    ensures out.Done? ==> WellFormed(out.state)
  {
    var key := Key(n0, n1, n2, layout);
    var (s1, cached) := CacheGet(s, key);
    if cached.Some? {
      return Done(s1, cached.value);
    }
    GlobalPlanCacheOnce(s);
    out := SelectAndCache(s, s1, timer, samples, ctors, key, policy);
  }

  /** The miss path of `find_best_plan`: `s1` is `s` with the cache
      initialised. The loop runs every constructor, the selected plan must
      exist, and it is stored under `key`. */
  method SelectAndCache(s: State, s1: State, timer: nat -> real, samples: nat -> Sample, ctors: seq<Option<Family>>,
                        key: Key, policy: StorePolicy)
    returns (out: Outcome<PlanId>)
    requires WellFormed(s) && Terminated(ctors) && !Hit(s, key)
    requires s1.heap == s.heap && s1.nextId == s.nextId && s1.log == s.log
    requires s1.cacheReady && s1.cache == s.cache
    ensures out.Abort? <==> forall k :: 0 <= k < SentinelCount(ctors) ==> timer(k) >= DblMax
    ensures out.Abort? ==> out.reason == NoBestPlan
    ensures out.Done? ==> SelectedOnMiss(s, timer, samples, ctors, key, policy, out.state, out.value)
    ensures out.Done? ==> WellFormed(out.state)
  {
    var count := SentinelCount(ctors);
    var st, best := RunCandidates(s1, timer, samples, ctors, count, key.layout);
    LeaderIsFastest(timer, count);
    if best.None? {
      return Abort(NoBestPlan);
    }
    var (s2, _) := CacheInsert(st, key, best.value, policy);
    MissOutcome(s, s1, timer, samples, ctors, key, policy, st, best.value);
    out := Done(s2, best.value);
  }

  /** The selected plan and the state after the insert, from what the loop
      guarantees. */
  lemma MissOutcome(s: State, s1: State, timer: nat -> real, samples: nat -> Sample, ctors: seq<Option<Family>>,
                    key: Key, policy: StorePolicy,
                    st: State, p: PlanId)
    requires WellFormed(s) && Terminated(ctors) && !Hit(s, key)
    requires s1.heap == s.heap && s1.nextId == s.nextId && s1.log == s.log
    requires s1.cacheReady && s1.cache == s.cache
    requires var n := SentinelCount(ctors);
      && st.nextId == s1.nextId + n
      && st.cacheReady == s1.cacheReady && st.cache == s1.cache
      && st.log == s1.log + Trace(timer, s1.nextId, n)
      && Some(p) == AsPlan(Leader(timer, n), s1.nextId)
      && s1.nextId <= p < s1.nextId + n
      && st.heap == s1.heap[p := Plan(1, key.layout, ctors[p - s1.nextId].value, samples(p - s1.nextId))]
    ensures var t := CacheInsert(st, key, p, policy).0;
      SelectedOnMiss(s, timer, samples, ctors, key, policy, t, p) && WellFormed(t)
  {
    var t := CacheInsert(st, key, p, policy).0;
    var base := s1.nextId;
    var won := Plan(1, key.layout, ctors[p - base].value, samples(p - base));
    assert t.heap == st.heap[p := won.(refCount := 1 + StoreShares(policy))];
    assert t.heap == s.heap[p := won.(refCount := 1 + StoreShares(policy))];
    assert t.nextId == st.nextId && t.log == st.log;
    assert t.cacheReady && t.cache == s.cache[key := p];
    MissSelects(s, timer, samples, ctors, key, policy, st, p, t);
    MissKeepsWellFormed(s, samples, ctors, key, policy, st, p, t);
  }

  /** A log that extends `prefix` by `events`, split back into the two. */
  lemma SplitLog(log: seq<Event>, prefix: seq<Event>, events: seq<Event>)
    requires log == prefix + events
    ensures |prefix| <= |log| && log[..|prefix|] == prefix && log[|prefix|..] == events
  {
  }

  /** On a miss, the state after the loop and the insert is the one
      `SelectedOnMiss` describes. */
  lemma MissSelects(s: State, timer: nat -> real, samples: nat -> Sample, ctors: seq<Option<Family>>, key: Key,
                    policy: StorePolicy, st: State, p: PlanId, t: State)
    requires Terminated(ctors) && !Hit(s, key)
    requires var n := SentinelCount(ctors);
      && st.nextId == s.nextId + n
      && st.log == s.log + Trace(timer, s.nextId, n)
      && Some(p) == AsPlan(Leader(timer, n), s.nextId)
      && s.nextId <= p < s.nextId + n
    requires var k := p - s.nextId;
      t.heap == s.heap[p := Plan(1 + StoreShares(policy), key.layout, ctors[k].value, samples(k))]
    requires t.nextId == st.nextId && t.log == st.log
    requires t.cacheReady && t.cache == s.cache[key := p]
    ensures SelectedOnMiss(s, timer, samples, ctors, key, policy, t, p)
  {
    var n := SentinelCount(ctors);
    MissWinner(s, timer, samples, ctors, n, key, policy, t, p);
    MissLog(timer, s.log, t.log, s.nextId, n, p);
  }

  lemma MissWinner(s: State, timer: nat -> real, samples: nat -> Sample, ctors: seq<Option<Family>>, n: nat,
                   key: Key, policy: StorePolicy, t: State, p: PlanId)
    requires n <= |ctors| && forall k :: 0 <= k < n ==> ctors[k].Some?
    requires Some(p) == AsPlan(Leader(timer, n), s.nextId)
    requires s.nextId <= p < s.nextId + n
    requires var k := p - s.nextId;
      t.heap == s.heap[p := Plan(1 + StoreShares(policy), key.layout, ctors[k].value, samples(k))]
    requires t.nextId == s.nextId + n
    requires t.cacheReady && t.cache == s.cache[key := p]
    ensures WinnerInstalled(s, timer, samples, ctors, n, key, policy, t, p)
  {
    LeaderIsFastest(timer, n);
  }

  lemma MissLog(timer: nat -> real, before: seq<Event>, after: seq<Event>, base: nat, n: nat, p: PlanId)
    requires after == before + Trace(timer, base, n)
    requires Some(p) == AsPlan(Leader(timer, n), base)
    ensures SelectionLogged(before, after, base, n, p)
  {
    TraceCounts(timer, base, n, base + n);
    assert SelectionTrace(Trace(timer, base, n), base, n, p);
    SplitLog(after, before, Trace(timer, base, n));
  }

  /** On a miss, the loop and the insert keep the runtime invariant: the
      winner has a fresh identity, so no older cache entry can name it.
      This rests on identities never being reused. */
  lemma MissKeepsWellFormed(s: State, samples: nat -> Sample, ctors: seq<Option<Family>>, key: Key, policy: StorePolicy,
                            st: State, p: PlanId, t: State)
    requires WellFormed(s) && !Hit(s, key)
    requires s.nextId <= p < st.nextId && s.nextId <= st.nextId
    requires p - s.nextId < |ctors| && ctors[p - s.nextId].Some?
    requires var k := p - s.nextId;
      t.heap == s.heap[p := Plan(1 + StoreShares(policy), key.layout, ctors[k].value, samples(k))]
    requires t.nextId == st.nextId
    requires t.cacheReady && t.cache == s.cache[key := p]
    ensures WellFormed(t)
  {
  }

  /** The registered list holds three constructors before its sentinel. */
  lemma RegisteredCount()
    ensures Terminated(Registered) && SentinelCount(Registered) == 3
  {
    assert Registered[3].None?;
  }

  /** `interpolate_plan_3d_interleaved_best`, `_split_best` and
      `_split_product_best`: each asks `find_best_plan` for a plan of its own
      layout, built by one of the registered naive, padding-aware and
      phase-shift constructors. On a miss the plan returned is live, has the
      requested layout, and came from the fastest constructor. */
  method PlanBest(s: State, timer: nat -> real, samples: nat -> Sample,
                  n0: int, n1: int, n2: int, layout: Layout, policy: StorePolicy)
    returns (out: Outcome<PlanId>)
    requires WellFormed(s)
    ensures Hit(s, Key(n0, n1, n2, layout)) ==> out == Done(s, s.cache[Key(n0, n1, n2, layout)])
    ensures !Hit(s, Key(n0, n1, n2, layout)) ==>
      (out.Abort? <==> timer(0) >= DblMax && timer(1) >= DblMax && timer(2) >= DblMax)
    ensures !Hit(s, Key(n0, n1, n2, layout)) && out.Done? ==>
      && s.nextId <= out.value < s.nextId + 3
      && IsFastest(timer, 3, out.value - s.nextId)
      && out.value in out.state.heap
      && out.state.heap[out.value] ==
           Plan(1 + StoreShares(policy), layout, Registered[out.value - s.nextId].value, samples(out.value - s.nextId))
      && out.state.nextId == s.nextId + 3
    ensures !Hit(s, Key(n0, n1, n2, layout)) && out.Done? ==>
      && Terminated(Registered)
      && SelectedOnMiss(s, timer, samples, Registered, Key(n0, n1, n2, layout), policy, out.state, out.value)
    ensures out.Done? ==> WellFormed(out.state)
  {
    RegisteredCount();
    out := FindBestPlan(s, timer, samples, Registered, n0, n1, n2, layout, policy);
    if !Hit(s, Key(n0, n1, n2, layout)) && out.Abort? {
      assert forall k :: 0 <= k < 3 ==> timer(k) >= DblMax;
      assert timer(0) >= DblMax && timer(1) >= DblMax && timer(2) >= DblMax;
    }
  }

  /** Two requests for the same problem: once the first has returned a
      plan, the second returns the same plan, constructs nothing and changes
      nothing. A failed first request ends the process, so there is no
      second one. */
  method RequestTwice(s: State, timer: nat -> real, samples: nat -> Sample, ctors: seq<Option<Family>>,
                      n0: int, n1: int, n2: int, layout: Layout, policy: StorePolicy)
    returns (first: Outcome<PlanId>, second: Outcome<PlanId>)
    requires WellFormed(s) && Terminated(ctors)
    ensures first.Abort? ==> second == first
    ensures first.Done? ==> second == Done(first.state, first.value)
  {
    first := FindBestPlan(s, timer, samples, ctors, n0, n1, n2, layout, policy);
    if first.Abort? {
      return first, first;
    }
    second := FindBestPlan(first.state, timer, samples, ctors, n0, n1, n2, layout, policy);
  }

  /** With a store that takes no reference of its own, when the caller
      releases the one reference to a freshly selected plan, the plan is
      torn down while the cache still maps the key to it, so a later request
      for the same problem is a hit on the freed address, which `malloc` may
      since have reused for another plan. */
  lemma ReleasedPlanStaysCached(s: State, timer: nat -> real, samples: nat -> Sample, ctors: seq<Option<Family>>,
                                key: Key, policy: StorePolicy, t: State, p: PlanId)
    requires !policy.acquires
    requires Terminated(ctors) && SelectedOnMiss(s, timer, samples, ctors, key, policy, t, p)
    ensures DestroyPlan(t, p) == Done(TearDown(t, p), ())
    ensures var u := TearDown(t, p);
      Hit(u, key) && u.cache[key] == p && !Valid(u, p)
  {
    DestroyFreshCandidate(t, p);
  }

  /** With a store that takes a reference, the caller's release leaves the
      cached plan live, owned by the cache alone. */
  lemma ReleasedPlanStaysLive(s: State, timer: nat -> real, samples: nat -> Sample, ctors: seq<Option<Family>>,
                              key: Key, policy: StorePolicy, t: State, p: PlanId)
    requires policy.acquires
    requires Terminated(ctors) && SelectedOnMiss(s, timer, samples, ctors, key, policy, t, p)
    ensures DestroyPlan(t, p).Done?
    ensures var u := DestroyPlan(t, p).state;
      Hit(u, key) && u.cache[key] == p && Valid(u, p) && u.heap[p].refCount == 1
  {
    assert t.heap[p].refCount == 2;
  }
}
