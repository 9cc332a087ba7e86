/** AgentScheduler in the source's own form: a heap and a registry that the methods update. */
module SchedulerService {
  import opened Scheduler
  import opened SchedulerProgress

  class AgentScheduler {
    const maxConcurrent: nat
    var born: nat
    var waiters: set<Entry>
    var invocations: map<nat, Invocation>

    function Snapshot(): State
      reads this
    {
      State(maxConcurrent, born, waiters, invocations)
    }

    constructor (limit: nat)
      ensures Snapshot() == Init(limit)
    {
      maxConcurrent := if limit < 1 then 1 else limit;
      born, waiters, invocations := 0, {}, map[];
    }

    // _new_invocation and _acquire up to its await
    method Acquire(priority: int) returns (id: nat)
      modifies this
      ensures id == old(born) && Snapshot() == StartAcquire(old(Snapshot()), priority)
    {
      id := born;
      born := born + 1;
      if |Occupied(invocations)| < maxConcurrent && waiters == {} {
        invocations := invocations[id := Invocation(Active, priority, Unset, true, false)];
      } else {
        invocations := invocations[id := Invocation(Waiting, priority, Unset, false, false)];
        waiters := waiters + {Entry(priority, id)};
      }
    }

    // heapq.heappop
    method HeapPop() returns (e: Entry)
      requires waiters != {}
      modifies this`waiters
      ensures e == Least(old(waiters)) && waiters == old(waiters) - {e}
    {
      ghost var least := Least(waiters);
      e :| e in waiters && forall f :: f in waiters ==> AtMost(e, f);
      assert AtMost(e, least) && AtMost(least, e);
      waiters := waiters - {e};
    }

    // _release
    method ReleaseSlot(id: nat)
      modifies this`waiters, this`invocations
      ensures Snapshot() == Release(old(Snapshot()), id)
      ensures old(Sound(Snapshot()) && id in Occupied(invocations)) ==> GivenBack(old(Snapshot()), id, Snapshot())
    {
      assert Sound(Snapshot()) && id in Occupied(invocations) ==>
        GivenBack(Snapshot(), id, Release(Snapshot(), id)) by {
        if Sound(Snapshot()) && id in Occupied(invocations) {
          ReleaseGivesBack(Snapshot(), id);
        }
      }
      invocations := invocations - {id};
      var handed := false;
      while waiters != {} && |Occupied(invocations)| < maxConcurrent && !handed
        invariant (if handed then Snapshot() else Promote(Snapshot())) == Release(old(Snapshot()), id)
        decreases |waiters|
      {
        var e := HeapPop();
        if e.id !in invocations || invocations[e.id].phase != Waiting || invocations[e.id].future == Dropped {
          continue;
        }
        invocations := invocations[e.id := invocations[e.id].(phase := Active, future := Set)];
        handed := true;
      }
    }

    // _acquire after its await, and the finally of slot() when it raises
    method ResumeWaiter(id: nat) returns (acquired: bool)
      requires id in invocations && !invocations[id].entered
      requires invocations[id].future != Unset || invocations[id].interrupted
      modifies this`waiters, this`invocations
      ensures Snapshot() == Step(old(Snapshot()), Resume(id))
      ensures acquired <==> old(invocations[id].future) == Set && !old(invocations[id].interrupted)
      ensures acquired ==> Entered(Snapshot(), id) && invocations - {id} == old(invocations) - {id}
      ensures !acquired && old(invocations[id].phase) != Active ==> invocations == old(invocations) - {id}
      ensures !acquired && old(invocations[id].phase) == Active && old(Sound(Snapshot())) ==>
        GivenBack(old(Snapshot()), id, Snapshot())
    {
      var v := invocations[id];
      if v.future == Dropped || v.interrupted {
        if v.phase == Active {
          ReleaseSlot(id);
        } else {
          invocations := invocations - {id};
        }
        return false;
      }
      invocations := invocations[id := v.(entered := true)];
      return true;
    }

    // cancel
    method CancelOne(id: nat) returns (stopped: bool)
      modifies this`invocations
      ensures Snapshot() == Step(old(Snapshot()), Cancel(id))
      ensures stopped <==> id in old(invocations)
      ensures invocations - {id} == old(invocations) - {id} && waiters == old(waiters)
      ensures id in invocations <==> id in old(invocations) && old(invocations)[id].phase != Waiting
      ensures id in invocations ==> invocations[id].phase == Stopping
    {
      if id !in invocations {
        return false;
      }
      var v := invocations[id];
      if v.phase == Stopping {
        return true;
      }
      if v.phase == Waiting {
        invocations := invocations - {id};
      } else {
        invocations := invocations[id := v.(phase := Stopping, interrupted := true)];
      }
      return true;
    }

    // cancel_all
    method CancelAll()
      modifies this`invocations
      ensures forall id :: id in invocations ==> id in old(invocations) && invocations[id].phase == Stopping
      ensures forall id :: id in old(invocations) && old(invocations[id]).phase != Waiting ==> id in invocations
      ensures Occupied(invocations) == Occupied(old(invocations))
    {
      var left := invocations.Keys;
      while left != {}
        invariant left <= invocations.Keys <= old(invocations).Keys
        invariant forall id :: id in left ==> invocations[id] == old(invocations)[id]
        invariant forall id :: id in invocations && id !in left ==>
          invocations[id].phase == Stopping && old(invocations)[id].phase != Waiting
        invariant forall id :: id in old(invocations) && old(invocations)[id].phase != Waiting ==> id in invocations
        decreases |left|
      {
        var id :| id in left;
        var stopped := CancelOne(id);
        left := left - {id};
      }
    }
  }

  /** Cancelling everything frees no slot by itself: every occupant keeps its slot until its subprocess is reaped. */
  lemma CancelKeepsSlots(s: State, id: nat)
    requires Sound(s)
    ensures Occupied(CancelInvocation(s, id).registry) == Occupied(s.registry)
    ensures forall e :: e in Queue(CancelInvocation(s, id)) <==> e in Queue(s) && e.id != id
  {
    assert id in s.registry ==> Fits(s, id);
  }
}
