/** How a slot comes back, and exactly when a waiter can still get one. */
module SchedulerProgress {
  import opened Scheduler
  import opened SchedulerRuns

  // By priority, the least first, and then by arrival.
  predicate NotBehind(a: Entry, b: Entry) {
    a.priority < b.priority || (a.priority == b.priority && a.id <= b.id)
  }

  /** The first of the queue. */
  predicate Foremost(s: State, first: Entry) {
    first in s.heap && !Stale(s, first) && forall e :: e in s.heap && !Stale(s, e) ==> NotBehind(first, e)
  }

  lemma ForemostExists(s: State) returns (first: Entry)
    requires Queue(s) != {}
    ensures Foremost(s, first)
  {
    first := LeastExists(Queue(s));
    assert forall e :: e in s.heap && !Stale(s, e) ==> e in Queue(s);
  }

  /** An invocation that ends, cancelled meanwhile or not, leaves the registry; its slot goes to the first waiter, or
      comes free if nobody waits. */
  lemma FinishGivesBack(s: State, id: nat)
    requires Sound(s) && id in s.registry && s.registry[id].entered
    ensures var t := Step(s, Finish(id)); GivenBack(s, id, t)
  {
    assert Fits(s, id) && id in Occupied(s.registry);
    ReleaseGivesBack(s, id);
  }

  /** So does a promoted one whose owner was cancelled from elsewhere before it ran. */
  lemma InterruptedGivesBack(s: State, id: nat)
    requires Sound(s) && id in s.registry && !s.registry[id].entered
    requires s.registry[id].phase == Active && s.registry[id].interrupted
    ensures GivenBack(s, id, Step(s, Resume(id)))
  {
    ReleaseGivesBack(s, id);
  }

  ghost predicate GivenBack(s: State, id: nat, t: State) {
    && id !in t.registry
    && (Queue(s) == {} ==>
          t.registry == s.registry - {id} && |Occupied(t.registry)| == |Occupied(s.registry)| - 1)
    && (forall first :: Foremost(s, first) ==>
          && first.id in s.registry && first.id != id
          && t.registry == (s.registry - {id})[first.id := s.registry[first.id].(phase := Active, future := Set)]
          && Queue(t) == Queue(s) - {first}
          && |Occupied(t.registry)| == |Occupied(s.registry)|)
  }

  lemma ReleaseGivesBack(s: State, id: nat)
    requires Sound(s) && id in Occupied(s.registry)
    ensures GivenBack(s, id, Release(s, id))
  {
    var dropped := s.(registry := s.registry - {id});
    DropSound(s, id);
    assert forall first :: Foremost(s, first) ==> first in Queue(s);
    if Queue(s) == {} {
      assert Queue(dropped) == {};
      NobodyPromoted(dropped);
    } else {
      var first := ForemostExists(s);
      HandedToFirst(s, id, first);
      assert forall other :: Foremost(s, other) ==> other == first;
    }
  }

  lemma HandedToFirst(s: State, id: nat, first: Entry)
    requires Sound(s) && id in Occupied(s.registry) && Foremost(s, first)
    ensures var t := Release(s, id);
      && first.id in s.registry && first.id != id && Queue(t) == Queue(s) - {first}
      && t.registry == (s.registry - {id})[first.id := s.registry[first.id].(phase := Active, future := Set)]
      && |Occupied(t.registry)| == |Occupied(s.registry)|
  {
    var registry, t := s.registry - {id}, Release(s, id);
    ReleaseServesFirst(s, id, first);
    assert Activate(s, first.id).registry - {id} == registry[first.id := t.registry[first.id]];
    DropSound(s, id);
    OccupiedPut(registry, first.id, t.registry[first.id]);
    assert first.id !in Occupied(registry);
  }

  lemma {:induction false} NobodyPromoted(s: State)
    requires Queue(s) == {}
    ensures Promote(s).registry == s.registry
    decreases |s.heap|
  {
    if s.heap != {} && |Occupied(s.registry)| < s.cap {
      var e := Least(s.heap);
      assert e !in Queue(s);
      var popped := s.(heap := s.heap - {e});
      assert forall f :: f in Queue(popped) ==> f in Queue(s);
      NobodyPromoted(popped);
    }
  }

  /** A scheduler starts with all its slots free, and with one at least. */
  lemma InitIsSound(cap: nat)
    ensures var s := Init(cap);
      Sound(s) && NoLostWakeup(s) && Occupied(s.registry) == {} && s.cap >= 1 && (cap >= 1 ==> s.cap == cap)
  {
  }

  // ------------------------------------------------------------------ Who can still be served

  /** Promoted and cancelled before it ran: it will give its slot to nobody. */
  predicate Spent(s: State, id: nat) {
    id in s.registry && s.registry[id].phase == Stopping && !s.registry[id].entered
  }

  /** An occupant that will hand its slot over. */
  predicate HandsOver(s: State, id: nat) {
    id in Occupied(s.registry) && !Spent(s, id)
  }

  predicate Entered(s: State, id: nat) {
    id in s.registry && s.registry[id].entered
  }

  /** Promoted, and nothing has interrupted it. */
  predicate Promised(s: State, id: nat) {
    id in s.registry && s.registry[id] == Invocation(Active, s.registry[id].priority, Set, false, false)
  }

  lemma ThenRun(s: State, a: Action, rest: seq<Action>)
    requires !DroppedHandoff(s, a) && NoDroppedHandoff(Step(s, a), rest)
    ensures Run(s, [a] + rest) == Run(Step(s, a), rest) && NoDroppedHandoff(s, [a] + rest)
  {
    assert ([a] + rest)[1..] == rest;
  }

  lemma AfterHandover(s: State, id: nat, a: Action, first: Entry)
    requires Sound(s) && NoLostWakeup(s) && Foremost(s, first) && !DroppedHandoff(s, a)
    requires GivenBack(s, id, Step(s, a))
    ensures var t := Step(s, a);
      Sound(t) && NoLostWakeup(t) && Promised(t, first.id) && Queue(t) == Queue(s) - {first}
  {
    SoundStep(s, a);
    assert Fits(s, first.id);
  }

  /** An occupant hands over by at most two steps. */
  lemma HandOver(s: State, id: nat, first: Entry) returns (acts: seq<Action>, t: State)
    requires Sound(s) && NoLostWakeup(s) && HandsOver(s, id) && Foremost(s, first)
    ensures NoDroppedHandoff(s, acts) && t == Run(s, acts)
    ensures Sound(t) && NoLostWakeup(t) && Promised(t, first.id) && Queue(t) == Queue(s) - {first}
  {
    assert Fits(s, id);
    if s.registry[id].entered {
      FinishGivesBack(s, id);
      AfterHandover(s, id, Finish(id), first);
      acts, t := [Finish(id)] + [], Step(s, Finish(id));
      ThenRun(s, Finish(id), []);
    } else if s.registry[id].interrupted {
      InterruptedGivesBack(s, id);
      AfterHandover(s, id, Resume(id), first);
      acts, t := [Resume(id)] + [], Step(s, Resume(id));
      ThenRun(s, Resume(id), []);
    } else {
      var s1 := Step(s, Resume(id));
      EnterKeeps(s, id);
      FinishGivesBack(s1, id);
      AfterHandover(s1, id, Finish(id), first);
      acts, t := [Resume(id)] + ([Finish(id)] + []), Step(s1, Finish(id));
      ThenRun(s1, Finish(id), []);
      ThenRun(s, Resume(id), [Finish(id)] + []);
    }
  }

  lemma EnterKeeps(s: State, id: nat)
    requires Sound(s) && NoLostWakeup(s) && id in s.registry
    requires s.registry[id].phase == Active && !s.registry[id].entered && !s.registry[id].interrupted
    ensures var t := Step(s, Resume(id));
      && t == s.(registry := s.registry[id := s.registry[id].(entered := true)])
      && Sound(t) && NoLostWakeup(t) && Queue(t) == Queue(s) && !DroppedHandoff(s, Resume(id))
  {
    assert Fits(s, id);
    SoundStep(s, Resume(id));
  }

  function Ahead(s: State, e: Entry): set<Entry> {
    set f | f in s.heap && !Stale(s, f) && Before(f, e)
  }

  lemma {:induction false} Serve(s: State, id: nat, e: Entry) returns (acts: seq<Action>)
    requires Sound(s) && NoLostWakeup(s) && HandsOver(s, id) && e in Queue(s)
    ensures NoDroppedHandoff(s, acts) && Entered(Run(s, acts), e.id)
    decreases |Ahead(s, e)|
  {
    var first := ForemostExists(s);
    var begun, t := HandOver(s, id, first);
    var rest: seq<Action>;
    if first == e {
      EnterKeeps(t, e.id);
      rest := [Resume(e.id)] + [];
      ThenRun(t, Resume(e.id), []);
    } else {
      assert e in Queue(t) && first in Ahead(s, e);
      assert forall f :: f in Ahead(t, e) ==> f in Queue(t);
      AheadFewer(Ahead(t, e), Ahead(s, e), first);
      rest := Serve(t, first.id, e);
    }
    acts := begun + rest;
    ThenBoth(s, begun, rest);
  }

  lemma AheadFewer(less: set<Entry>, more: set<Entry>, first: Entry)
    requires less <= more - {first} && first in more
    ensures |less| < |more|
  {
    SubsetSmaller(less, more - {first});
  }

  lemma {:induction false} SubsetSmaller(a: set<Entry>, b: set<Entry>)
    requires a <= b
    ensures |a| <= |b|
    decreases |a|
  {
    if a != {} {
      var x :| x in a;
      SubsetSmaller(a - {x}, b - {x});
    }
  }

  lemma {:induction false} ThenBoth(s: State, first: seq<Action>, rest: seq<Action>)
    requires NoDroppedHandoff(s, first) && NoDroppedHandoff(Run(s, first), rest)
    ensures NoDroppedHandoff(s, first + rest) && Run(s, first + rest) == Run(Run(s, first), rest)
    decreases |first|
  {
    if first == [] {
      assert first + rest == rest;
    } else {
      assert (first + rest)[0] == first[0] && (first + rest)[1..] == first[1..] + rest;
      ThenBoth(Step(s, first[0]), first[1..], rest);
    }
  }

  /** Waiters, and no occupant that will hand over. */
  predicate Stalled(s: State) {
    Sound(s) && s.heap != {} && forall id :: id in Occupied(s.registry) ==> Spent(s, id)
  }

  lemma StalledStep(s: State, a: Action)
    requires Stalled(s)
    ensures Stalled(Step(s, a))
  {
    SoundStep(s, a);
    assert forall id :: id in s.registry ==> Fits(s, id) && (id in Occupied(s.registry) ==> Spent(s, id));
    var t := Step(s, a);
    assert t.heap != {} && forall id :: id in Occupied(t.registry) ==> Spent(t, id);
  }

  lemma {:induction false} StalledForever(s: State, acts: seq<Action>)
    requires Stalled(s)
    ensures Stalled(Run(s, acts)) && forall id :: !Entered(Run(s, acts), id)
    decreases |acts|
  {
    if acts == [] {
      assert forall id :: id in s.registry ==> Fits(s, id) && (id in Occupied(s.registry) ==> Spent(s, id));
    } else {
      StalledStep(s, acts[0]);
      StalledForever(Step(s, acts[0]), acts[1..]);
    }
  }

  ghost predicate EntersBy(s: State, acts: seq<Action>, id: nat) {
    Entered(Run(s, acts), id)
  }

  /** While no wake-up has been lost, a waiter can still enter, and without losing one, exactly when some occupant was
      not cancelled between its promotion and its first step. */
  lemma ServedExactly(s: State, e: Entry)
    requires Sound(s) && NoLostWakeup(s) && e in Queue(s)
    ensures (exists acts :: EntersBy(s, acts, e.id)) <==> exists id :: HandsOver(s, id)
    ensures (exists acts :: EntersBy(s, acts, e.id)) ==>
      exists acts :: EntersBy(s, acts, e.id) && NoDroppedHandoff(s, acts)
  {
    if id :| HandsOver(s, id) {
      var acts := Serve(s, id, e);
      assert EntersBy(s, acts, e.id) && NoDroppedHandoff(s, acts);
    } else {
      assert e in s.heap;
      forall id | id in Occupied(s.registry) ensures Spent(s, id) {
        assert !HandsOver(s, id);
      }
      forall acts ensures !EntersBy(s, acts, e.id) {
        StalledForever(s, acts);
      }
    }
  }

  // ------------------------------------------------------------------ Arrivals, cancellations and running bodies

  /** While no wake-up has been lost, an arrival enters at once exactly when a slot is free. */
  lemma EntersAtOnceExactly(s: State, priority: int)
    requires Sound(s) && NoLostWakeup(s)
    ensures var t := Step(s, Arrive(priority));
      && s.born in t.registry && t.registry == s.registry[s.born := t.registry[s.born]] && t.born == s.born + 1
      && (Entered(t, s.born) <==> |Occupied(s.registry)| < s.cap)
      && (Entered(t, s.born) <==> s.born in Occupied(t.registry))
  {
  }

  /** Gone for good, or about to be: its owner was cancelled before it ran. */
  predicate Withdrawn(s: State, id: nat) {
    id < s.born
    && (id in s.registry ==>
          var v := s.registry[id];
          !v.entered && (v.interrupted || (v.phase == Waiting && v.future == Dropped)))
  }

  lemma CancelWithdraws(s: State, id: nat, a: Action)
    requires Sound(s) && id in s.registry && !s.registry[id].entered && (a == Cancel(id) || a == TaskCancel(id))
    ensures Withdrawn(Step(s, a), id)
  {
    assert Fits(s, id);
  }

  /** When its owner runs, it goes, and gives back what it may have been promised. */
  lemma WithdrawnLeaves(s: State, id: nat)
    requires Sound(s) && Withdrawn(s, id) && id in s.registry
    ensures var t := Step(s, Resume(id));
      && id !in t.registry
      && (if s.registry[id].phase == Active then GivenBack(s, id, t) else t == s.(registry := s.registry - {id}))
  {
    assert Fits(s, id);
    if s.registry[id].phase == Active {
      ReleaseGivesBack(s, id);
    }
  }

  lemma OthersPromoted(s: State, dropped: nat, id: nat)
    requires Sound(s) && id != dropped && id in s.registry
    requires s.registry[id].phase != Waiting || s.registry[id].future == Dropped
    ensures var t := Release(s, dropped); t.born == s.born && id in t.registry && t.registry[id] == s.registry[id]
  {
    DropSound(s, dropped);
    PromoteSound(s.(registry := s.registry - {dropped}));
  }

  lemma GoneStays(s: State, dropped: nat, id: nat)
    requires Sound(s) && (id == dropped || id !in s.registry)
    ensures Release(s, dropped).born == s.born && id !in Release(s, dropped).registry
  {
    DropSound(s, dropped);
    PromoteSound(s.(registry := s.registry - {dropped}));
  }

  lemma WithdrawnStep(s: State, id: nat, a: Action)
    requires Sound(s) && Withdrawn(s, id)
    ensures Withdrawn(Step(s, a), id)
  {
    if id in s.registry {
      assert Fits(s, id);
    }
    if (a.Resume? || a.Finish?) && a.id in s.registry {
      if id in s.registry && a.id != id {
        OthersPromoted(s, a.id, id);
      } else {
        GoneStays(s, a.id, id);
      }
    }
  }

  /** A caller cancelled before its body begins never begins it, whatever slot it had been promised. */
  lemma {:induction false} WithdrawnNeverRuns(s: State, id: nat, acts: seq<Action>)
    requires Sound(s) && Withdrawn(s, id)
    ensures Withdrawn(Run(s, acts), id) && !Entered(Run(s, acts), id)
    decreases |acts|
  {
    if acts != [] {
      WithdrawnStep(s, id, acts[0]);
      SoundStep(s, acts[0]);
      WithdrawnNeverRuns(Step(s, acts[0]), id, acts[1..]);
    }
  }

  lemma RunningStep(s: State, id: nat, a: Action)
    requires Sound(s) && Entered(s, id) && a != Finish(id)
    ensures Entered(Step(s, a), id)
  {
    assert Fits(s, id);
    if (a.Resume? || a.Finish?) && a.id != id {
      OthersPromoted(s, a.id, id);
    }
  }

  /** A body that has begun keeps its slot, cancelled or not, until it ends. */
  lemma {:induction false} RunningKeepsSlot(s: State, id: nat, acts: seq<Action>)
    requires Sound(s) && Entered(s, id) && Finish(id) !in acts
    ensures Entered(Run(s, acts), id) && id in Occupied(Run(s, acts).registry)
    decreases |acts|
  {
    if acts == [] {
      assert Fits(s, id);
    } else {
      RunningStep(s, id, acts[0]);
      SoundStep(s, acts[0]);
      RunningKeepsSlot(Step(s, acts[0]), id, acts[1..]);
    }
  }
}
