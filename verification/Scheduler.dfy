/** The priority gate for scarce agent slots (workbot/agents/scheduler.py).

    Lock-held sections contain no await, so each is one step.  What interleaves is when a waiter resumes:
    a promoted waiter already owns its slot while its coroutine has not run yet, and a cancellation can
    fall in between. */
module Scheduler {

  datatype Phase = Waiting | Active | Stopping

  datatype Future = Unset | Set | Dropped     // waiter_future: pending, result set, cancelled

  // `entered`: _acquire has returned and the body runs; `interrupted`: a CancelledError awaits the owner.
  datatype Invocation = Invocation(phase: Phase, priority: int, future: Future, entered: bool, interrupted: bool)

  // A heap entry; invocation ids are arrival numbers, so (priority, id) is (priority, arrival).
  datatype Entry = Entry(priority: int, id: nat)

  datatype State = State(cap: nat, born: nat, heap: set<Entry>, registry: map<nat, Invocation>)

  datatype Action =
    | Arrive(priority: int)
    | Resume(id: nat)            // the owner runs again after its future was set or cancelled
    | Cancel(id: nat)            // AgentScheduler.cancel
    | TaskCancel(id: nat)        // the owner task is cancelled from elsewhere
    | Finish(id: nat)            // the body of slot() ends

  predicate Before(a: Entry, b: Entry) {
    a.priority < b.priority || (a.priority == b.priority && a.id < b.id)
  }

  predicate AtMost(a: Entry, b: Entry) {
    a == b || Before(a, b)
  }

  lemma {:induction false} LeastExists(heap: set<Entry>) returns (least: Entry)
    requires heap != {}
    ensures least in heap && forall e :: e in heap ==> AtMost(least, e)
    decreases |heap|
  {
    least :| least in heap;
    var rest := heap - {least};
    if rest != {} {
      var other := LeastExists(rest);
      assert forall e :: e in heap ==> e == least || e in rest;
      if Before(other, least) {
        least := other;
      }
    }
  }

  // heapq.heappop
  ghost function Least(heap: set<Entry>): (least: Entry)
    requires heap != {}
    ensures least in heap && forall e :: e in heap ==> AtMost(least, e)
  {
    assert exists least :: least in heap && forall e :: e in heap ==> AtMost(least, e) by {
      var least := LeastExists(heap);
    }
    var least :| least in heap && forall e :: e in heap ==> AtMost(least, e);
    least
  }

  function Occupied(registry: map<nat, Invocation>): set<nat> {
    set id | id in registry && registry[id].phase != Waiting
  }

  // fut.cancelled() or nxt is None or nxt.state != "waiting"
  predicate Stale(s: State, e: Entry) {
    e.id !in s.registry || s.registry[e.id].phase != Waiting || s.registry[e.id].future == Dropped
  }

  predicate Live(s: State, e: Entry) {
    e in s.heap && !Stale(s, e)
  }

  function Activate(s: State, id: nat): State
    requires id in s.registry
  {
    s.(registry := s.registry[id := s.registry[id].(phase := Active, future := Set)])
  }

  // The loop of _release: pop until one live waiter has been promoted.
  ghost function Promote(s: State): State
    decreases |s.heap|
  {
    if s.heap == {} || |Occupied(s.registry)| >= s.cap then s
    else
      var e := Least(s.heap);
      var popped := s.(heap := s.heap - {e});
      if Stale(s, e) then Promote(popped) else Activate(popped, e.id)
  }

  ghost function Release(s: State, id: nat): State {
    Promote(s.(registry := s.registry - {id}))
  }

  // _acquire, up to its await
  function StartAcquire(s: State, priority: int): State {
    var id := s.born;
    if |Occupied(s.registry)| < s.cap && s.heap == {} then
      s.(born := id + 1, registry := s.registry[id := Invocation(Active, priority, Unset, true, false)])
    else
      s.(born := id + 1, registry := s.registry[id := Invocation(Waiting, priority, Unset, false, false)],
         heap := s.heap + {Entry(priority, id)})
  }

  // _acquire after its await.  In the cancelled branch only an 'active' invocation releases its slot.
  ghost function ResumeOwner(s: State, id: nat): State {
    if id !in s.registry || s.registry[id].entered then s
    else
      var v := s.registry[id];
      if v.future == Dropped || v.interrupted then
        if v.phase == Active then Release(s, id) else s.(registry := s.registry - {id})
      else if v.future == Set then s.(registry := s.registry[id := v.(entered := true)])
      else s
  }

  function CancelInvocation(s: State, id: nat): State {
    if id !in s.registry || s.registry[id].phase == Stopping then s
    else
      var v := s.registry[id];
      if v.phase == Waiting then s.(registry := s.registry - {id})
      else s.(registry := s.registry[id := v.(phase := Stopping, interrupted := true)])
  }

  function CancelTask(s: State, id: nat): State {
    if id !in s.registry || s.registry[id].entered then s
    else
      var v := s.registry[id];
      if v.future == Set then s.(registry := s.registry[id := v.(interrupted := true)])
      else s.(registry := s.registry[id := v.(future := Dropped)])
  }

  ghost function Step(s: State, a: Action): State {
    match a
    case Arrive(priority) => StartAcquire(s, priority)
    case Resume(id) => ResumeOwner(s, id)
    case Cancel(id) => CancelInvocation(s, id)
    case TaskCancel(id) => CancelTask(s, id)
    case Finish(id) => if id in s.registry && s.registry[id].entered then Release(s, id) else s
  }

  ghost function Run(s: State, acts: seq<Action>): State
    decreases |acts|
  {
    if acts == [] then s else Run(Step(s, acts[0]), acts[1..])
  }

  function Init(cap: nat): State {
    State(if cap < 1 then 1 else cap, 0, {}, map[])
  }

  // ------------------------------------------------------------------ The invariants

  predicate Fits(s: State, id: nat)
    requires id in s.registry
  {
    var v := s.registry[id];
    && id < s.born
    && (v.phase == Waiting ==> !v.entered && !v.interrupted && v.future != Set)
    && (v.phase == Waiting && v.future == Unset ==> Entry(v.priority, id) in s.heap)
    && (v.phase != Waiting && !v.entered ==> v.future == Set)
    && (v.phase == Stopping ==> v.interrupted)
  }

  predicate Sound(s: State) {
    && s.cap >= 1
    && |Occupied(s.registry)| <= s.cap
    && (forall id :: id in s.registry ==> Fits(s, id))
    && (forall e :: e in s.heap ==> e.id < s.born && (e.id in s.registry ==> s.registry[e.id].priority == e.priority))
  }

  /** Whenever a slot is free, nobody is waiting for one. */
  predicate NoLostWakeup(s: State) {
    |Occupied(s.registry)| < s.cap ==> s.heap == {}
  }

  ghost function Queue(s: State): set<Entry> {
    set e | e in s.heap && !Stale(s, e)
  }
}
