/** What every run of the scheduler keeps, whom it serves, and how it can stand still. */
module SchedulerRuns {
  import opened Scheduler

  lemma OccupiedPut(registry: map<nat, Invocation>, id: nat, v: Invocation)
    ensures Occupied(registry[id := v]) ==
      if v.phase != Waiting then Occupied(registry) + {id} else Occupied(registry) - {id}
  {
  }

  lemma OccupiedDrop(registry: map<nat, Invocation>, id: nat)
    ensures Occupied(registry - {id}) == Occupied(registry) - {id}
  {
  }

  /** The promotion loop hands over at most one slot, to the least live waiter. */
  lemma {:induction false} PromoteSound(s: State)
    requires Sound(s)
    ensures var t := Promote(s);
      && Sound(t) && t.cap == s.cap && t.born == s.born && t.heap <= s.heap
      && (t.registry == s.registry ||
           exists e :: Live(s, e) && (forall f :: Live(s, f) ==> AtMost(e, f))
             && t.registry == Activate(s, e.id).registry)
    decreases |s.heap|
  {
    if s.heap != {} && |Occupied(s.registry)| < s.cap {
      var e := Least(s.heap);
      var popped := s.(heap := s.heap - {e});
      if Stale(s, e) {
        assert forall f :: Live(s, f) <==> Live(popped, f);
        assert forall id :: id in popped.registry ==> Fits(s, id) && Fits(popped, id);
        PromoteSound(popped);
      } else {
        OccupiedPut(s.registry, e.id, Activate(popped, e.id).registry[e.id]);
        assert Live(s, e) && e.id !in Occupied(s.registry);
        forall id | id in Promote(s).registry ensures Fits(Promote(s), id) {
          assert Fits(s, id);
        }
      }
    }
  }

  /** After one slot has come free, the loop leaves no slot free while anyone waits. */
  lemma {:induction false} PromoteWakes(s: State)
    requires Sound(s) && (|Occupied(s.registry)| + 1 >= s.cap || s.heap == {})
    ensures NoLostWakeup(Promote(s))
    decreases |s.heap|
  {
    if s.heap != {} && |Occupied(s.registry)| < s.cap {
      var e := Least(s.heap);
      var popped := s.(heap := s.heap - {e});
      if Stale(s, e) {
        assert forall id :: id in popped.registry ==> Fits(s, id) && Fits(popped, id);
        PromoteWakes(popped);
      } else {
        OccupiedPut(s.registry, e.id, Activate(popped, e.id).registry[e.id]);
        assert e.id !in Occupied(s.registry);
      }
    }
  }

  lemma DropSound(s: State, id: nat)
    requires Sound(s)
    ensures Sound(s.(registry := s.registry - {id}))
    ensures |Occupied(s.registry - {id})| ==
      if id in Occupied(s.registry) then |Occupied(s.registry)| - 1 else |Occupied(s.registry)|
  {
    OccupiedDrop(s.registry, id);
    assert forall x :: x in s.registry - {id} ==> Fits(s, x) && Fits(s.(registry := s.registry - {id}), x);
    if id !in Occupied(s.registry) {
      assert Occupied(s.registry) - {id} == Occupied(s.registry);
    }
  }

  lemma ReleaseSound(s: State, id: nat)
    requires Sound(s)
    ensures Sound(Release(s, id)) && (NoLostWakeup(s) ==> NoLostWakeup(Release(s, id)))
  {
    var dropped := s.(registry := s.registry - {id});
    DropSound(s, id);
    PromoteSound(dropped);
    if NoLostWakeup(s) {
      PromoteWakes(dropped);
    }
  }

  lemma PutSound(s: State, id: nat, v: Invocation)
    requires Sound(s) && id in s.registry
    requires (v.phase != Waiting) == (s.registry[id].phase != Waiting) && v.priority == s.registry[id].priority
    requires Fits(s.(registry := s.registry[id := v]), id)
    ensures Sound(s.(registry := s.registry[id := v]))
    ensures |Occupied(s.registry[id := v])| == |Occupied(s.registry)|
  {
    var t := s.(registry := s.registry[id := v]);
    assert Occupied(t.registry) == Occupied(s.registry);
    forall x | x in t.registry ensures Fits(t, x) {
      if x != id {
        assert Fits(s, x);
      }
    }
  }

  lemma ArriveSound(s: State, priority: int)
    requires Sound(s)
    ensures Sound(StartAcquire(s, priority)) && (NoLostWakeup(s) ==> NoLostWakeup(StartAcquire(s, priority)))
  {
    var t := StartAcquire(s, priority);
    assert s.born in s.registry ==> Fits(s, s.born);
    OccupiedPut(s.registry, s.born, t.registry[s.born]);
    assert Occupied(s.registry) - {s.born} == Occupied(s.registry);
    forall x | x in t.registry ensures Fits(t, x) {
      if x != s.born {
        assert Fits(s, x);
      }
    }
  }

  /** The gap: a promoted invocation is cancelled before its owner has run, and its slot is given up without
      waking the next waiter. */
  predicate DroppedHandoff(s: State, a: Action) {
    && a.Resume? && a.id in s.registry && !s.registry[a.id].entered
    && s.registry[a.id].phase == Stopping && s.heap != {}
  }

  lemma SoundStep(s: State, a: Action)
    requires Sound(s)
    ensures Sound(Step(s, a))
    ensures NoLostWakeup(s) && !DroppedHandoff(s, a) ==> NoLostWakeup(Step(s, a))
  {
    match a {
      case Arrive(priority) => ArriveSound(s, priority);
      case Resume(id) =>
        if id in s.registry {
          assert Fits(s, id);
          ReleaseSound(s, id);
          DropSound(s, id);
          if s.registry[id].future == Set && !s.registry[id].interrupted {
            PutSound(s, id, s.registry[id].(entered := true));
          }
        }
      case Cancel(id) =>
        if id in s.registry {
          assert Fits(s, id);
          DropSound(s, id);
          if s.registry[id].phase == Active {
            PutSound(s, id, s.registry[id].(phase := Stopping, interrupted := true));
          }
        }
      case TaskCancel(id) =>
        if id in s.registry && !s.registry[id].entered {
          assert Fits(s, id);
          var v := s.registry[id];
          PutSound(s, id, if v.future == Set then v.(interrupted := true) else v.(future := Dropped));
        }
      case Finish(id) => ReleaseSound(s, id);
    }
  }

  // ------------------------------------------------------------------ Over whole runs

  /** Active plus stopping never exceeds max_concurrent, in any run at all. */
  lemma {:induction false} NeverOversubscribed(s: State, acts: seq<Action>)
    requires Sound(s)
    ensures Sound(Run(s, acts)) && Run(s, acts).cap == s.cap && |Occupied(Run(s, acts).registry)| <= s.cap
    decreases |acts|
  {
    if acts != [] {
      SoundStep(s, acts[0]);
      CapKept(s, acts[0]);
      NeverOversubscribed(Step(s, acts[0]), acts[1..]);
    }
  }

  lemma CapKept(s: State, a: Action)
    requires Sound(s)
    ensures Step(s, a).cap == s.cap
  {
    if a.Resume? || a.Finish? {
      DropSound(s, a.id);
      PromoteSound(s.(registry := s.registry - {a.id}));
    }
  }

  ghost predicate NoDroppedHandoff(s: State, acts: seq<Action>)
    decreases |acts|
  {
    acts == [] || (!DroppedHandoff(s, acts[0]) && NoDroppedHandoff(Step(s, acts[0]), acts[1..]))
  }

  lemma {:induction false} WakeupsKept(s: State, acts: seq<Action>)
    requires Sound(s) && NoLostWakeup(s) && NoDroppedHandoff(s, acts)
    ensures NoLostWakeup(Run(s, acts))
    decreases |acts|
  {
    if acts != [] {
      SoundStep(s, acts[0]);
      WakeupsKept(Step(s, acts[0]), acts[1..]);
    }
  }

  /** A step loses a wake-up exactly when it is a dropped hand-off. */
  lemma LostWakeupExactly(s: State, a: Action)
    requires Sound(s) && NoLostWakeup(s)
    ensures NoLostWakeup(Step(s, a)) <==> !DroppedHandoff(s, a)
  {
    SoundStep(s, a);
    if DroppedHandoff(s, a) {
      assert Fits(s, a.id);
      DropSound(s, a.id);
      assert a.id in Occupied(s.registry);
    }
  }

  // ------------------------------------------------------------------ Order

  /** The promotion loop takes exactly the first of the queue, whatever stale entries lie before it. */
  lemma {:induction false} PromoteServes(s: State, first: Entry)
    requires Sound(s) && |Occupied(s.registry)| < s.cap
    requires first in Queue(s) && forall e :: e in Queue(s) ==> AtMost(first, e)
    ensures Promote(s).registry == Activate(s, first.id).registry
    ensures Queue(Promote(s)) == Queue(s) - {first}
    decreases |s.heap|
  {
    var e := Least(s.heap);
    var popped := s.(heap := s.heap - {e});
    if Stale(s, e) {
      assert Queue(popped) == Queue(s);
      assert forall id :: id in popped.registry ==> Fits(s, id) && Fits(popped, id);
      PromoteServes(popped, first);
    } else {
      assert e in Queue(s);
      assert Fits(s, e.id);
      forall f | f in Queue(s) && f != e ensures f.id != e.id {
        assert s.registry[f.id].priority == f.priority;
      }
    }
  }

  /** Each release hands its slot to the first waiter in (priority, arrival) order and to nobody else. */
  lemma ReleaseServesFirst(s: State, id: nat, first: Entry)
    requires Sound(s) && id in Occupied(s.registry)
    requires first in Queue(s) && forall e :: e in Queue(s) ==> AtMost(first, e)
    ensures Release(s, id).registry == Activate(s, first.id).registry - {id}
    ensures Queue(Release(s, id)) == Queue(s) - {first}
  {
    var dropped := s.(registry := s.registry - {id});
    DropSound(s, id);
    assert Queue(dropped) == Queue(s);
    PromoteServes(dropped, first);
  }

  /** An arrival takes a slot at once only when nobody is waiting. */
  lemma ArrivalsDoNotOvertake(s: State, priority: int)
    requires Sound(s) && Queue(s) != {}
    ensures var t := StartAcquire(s, priority);
      && t.registry[s.born].phase == Waiting
      && Queue(t) == Queue(s) + {Entry(priority, s.born)}
  {
    var t := StartAcquire(s, priority);
    var e :| e in Queue(s);
    assert s.heap != {};
    assert forall f :: f in s.heap ==> f.id < s.born;
    assert t.heap == s.heap + {Entry(priority, s.born)};
  }

  // ------------------------------------------------------------------ What a dropped hand-off can do

  /** Slots free, waiters queued, and no occupant left to release anything. */
  predicate Dead(s: State) {
    Sound(s) && Occupied(s.registry) == {} && s.heap != {}
  }

  lemma DeadStep(s: State, a: Action)
    requires Dead(s)
    ensures Dead(Step(s, a))
  {
    SoundStep(s, a);
    assert forall id :: id in s.registry ==> Fits(s, id) && id !in Occupied(s.registry);
    assert Occupied(Step(s, a).registry) == {};
  }

  /** Such a scheduler never runs an invocation again: arrivals queue up behind the others. */
  lemma {:induction false} DeadForever(s: State, acts: seq<Action>)
    requires Dead(s)
    ensures Dead(Run(s, acts))
    decreases |acts|
  {
    if acts != [] {
      DeadStep(s, acts[0]);
      DeadForever(Step(s, acts[0]), acts[1..]);
    }
  }

  lemma RunCons(s: State, a: Action, rest: seq<Action>)
    ensures Run(s, [a] + rest) == Run(Step(s, a), rest)
  {
    assert ([a] + rest)[1..] == rest;
  }

  const Runner := Invocation(Active, 0, Unset, true, false)
  const Waiter := Invocation(Waiting, 0, Unset, false, false)
  const Promoted := Invocation(Active, 0, Set, false, false)
  const ThreeCallers := State(1, 3, {Entry(0, 1), Entry(0, 2)}, map[0 := Runner, 1 := Waiter, 2 := Waiter])
  const HandedOver := State(1, 3, {Entry(0, 2)}, map[1 := Promoted, 2 := Waiter])

  lemma CallersArrive()
    ensures Run(Init(1), [Arrive(0)] + ([Arrive(0)] + ([Arrive(0)] + []))) == ThreeCallers
  {
    var s1 := State(1, 1, {}, map[0 := Runner]);
    var s2 := State(1, 2, {Entry(0, 1)}, map[0 := Runner, 1 := Waiter]);
    assert Step(Init(1), Arrive(0)) == s1;
    assert Occupied(s1.registry) == {0};
    assert Step(s1, Arrive(0)) == s2;
    assert Occupied(s2.registry) == {0};
    assert Step(s2, Arrive(0)) == ThreeCallers;
    RunCons(Init(1), Arrive(0), [Arrive(0)] + ([Arrive(0)] + []));
    RunCons(s1, Arrive(0), [Arrive(0)] + []);
    RunCons(s2, Arrive(0), []);
  }

  lemma CancelBeforeResume()
    ensures Dead(Run(HandedOver, [Cancel(1)] + ([Resume(1)] + [])))
  {
    var stopping := State(1, 3, {Entry(0, 2)}, map[1 := Promoted.(phase := Stopping, interrupted := true),
                                               2 := Waiter]);
    var left := State(1, 3, {Entry(0, 2)}, map[2 := Waiter]);
    assert Step(HandedOver, Cancel(1)) == stopping;
    assert Step(stopping, Resume(1)) == left;
    assert Occupied(left.registry) == {};
    assert forall id :: id in left.registry ==> Fits(left, id);
    RunCons(HandedOver, Cancel(1), [Resume(1)] + []);
    RunCons(stopping, Resume(1), []);
  }

  lemma {:induction false} RunConcat(s: State, first: seq<Action>, rest: seq<Action>)
    ensures Run(s, first + rest) == Run(Run(s, first), rest)
    decreases |first|
  {
    if first == [] {
      assert first + rest == rest;
    } else {
      assert (first + rest)[1..] == first[1..] + rest;
      RunConcat(Step(s, first[0]), first[1..], rest);
    }
  }

  /** One slot and three callers: the first finishes, the second is promoted and cancelled before it resumes,
      and the third waits for ever. */
  lemma HandoffDeadlock()
    ensures exists acts :: Dead(Run(Init(1), acts))
  {
    CallersArrive();
    SecondPromoted();
    CancelBeforeResume();
    var arrivals := [Arrive(0)] + ([Arrive(0)] + ([Arrive(0)] + []));
    var after := [Finish(0)] + ([Cancel(1)] + ([Resume(1)] + []));
    RunCons(ThreeCallers, Finish(0), [Cancel(1)] + ([Resume(1)] + []));
    RunConcat(Init(1), arrivals, after);
    assert Dead(Run(Init(1), arrivals + after));
  }

  lemma SecondPromoted()
    ensures Step(ThreeCallers, Finish(0)) == HandedOver
  {
    var dropped := ThreeCallers.(registry := ThreeCallers.registry - {0});
    assert Occupied(dropped.registry) == {};
    var e := Least(dropped.heap);
    assert AtMost(e, Entry(0, 1));
    assert e == Entry(0, 1);
    var popped := dropped.(heap := dropped.heap - {e});
    assert popped.heap == HandedOver.heap;
    assert Activate(popped, 1).registry == HandedOver.registry;
  }
}
