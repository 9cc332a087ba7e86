/** No event is queued twice. */
module TaskTurnReports {
  import opened TaskTurns
  import opened TaskTurnSafety
  import opened TaskTurnScopes
  import opened TaskTurnQueue

  predicate ToldAt(outbox: seq<OutRow>, i: nat, turn: nat) {
    i < |outbox| && outbox[i].event.TurnCompleted? && outbox[i].event.turn == turn
  }

  ghost predicate OnceEach(outbox: seq<OutRow>) {
    forall i: nat, j: nat, turn: nat :: ToldAt(outbox, i, turn) && ToldAt(outbox, j, turn) ==> i == j
  }

  /** A reported turn is over, and its finalizer knows that it has reported it. */
  ghost predicate ToldFits(s: State) {
    forall i: nat, turn: nat :: ToldAt(s.outbox, i, turn) ==>
      (turn < s.turn || s.task == Completed) && (turn in s.gaps ==> s.gaps[turn].told)
  }

  ghost predicate Told(s: State) {
    OnceEach(s.outbox) && ToldFits(s)
  }

  /** Steps that report no turn completed, and at most note a later one. */
  lemma ToldKept(s: State, t: State, a: Action)
    requires Told(s) && OutboxExtends(s, t, [a])
    requires forall i: nat :: |s.outbox| <= i < |t.outbox| ==> !t.outbox[i].event.TurnCompleted?
    requires s.turn <= t.turn && (s.task == Completed ==> t.task == Completed)
    requires GapsFit(s, t)
    ensures Told(t)
  {
    assert forall i: nat, turn: nat :: ToldAt(t.outbox, i, turn) ==> ToldAt(s.outbox, i, turn);
  }

  predicate GapsFit(s: State, t: State) {
    forall turn :: turn in t.gaps ==>
      (turn in s.gaps && (s.gaps[turn].told ==> t.gaps[turn].told)) || (turn == s.turn && s.task != Completed)
  }

  lemma GapsStep(s: State, a: Action)
    requires Safe(s) && !a.GapTell?
    ensures GapsFit(s, Step(s, a))
  {
    if a.Work? {
      GapsWork(s, a);
    } else if a.Finalize? || a.Lost? || a.MonitorQuit? || a.GapLaunch? {
      GapsWatch(s, a);
    }
  }

  lemma GapsWatch(s: State, a: Action)
    requires a.Finalize? || a.Lost? || a.MonitorQuit? || a.GapLaunch?
    ensures GapsFit(s, Step(s, a))
  {
  }

  lemma GapsWork(s: State, a: Action)
    requires Safe(s) && a.Work?
    ensures GapsFit(s, Step(s, a))
  {
    if s.up && s.pc != Free {
      if Launches(s.pc) {
        assert WorkLaunch(s, a.ok).gaps == s.gaps;
      } else if Ends(s.pc) {
        GapsEnd(s);
      } else if Cancels(s.pc) {
        assert WorkCancel(s, a.wrote, a.rc).gaps == s.gaps;
      } else {
        GapsStay(s, a.wrote, a.rc);
      }
    }
  }

  lemma GapsEnd(s: State)
    requires PcAgrees(s.pc, s.task, s.turn) && Ends(s.pc)
    ensures GapsFit(s, WorkEnd(s))
  {
  }

  lemma GapsStay(s: State, wrote: bool, rc: int)
    requires s.pc.QueuedEvent? || s.pc.SteerBump? || MidSteer(s.pc)
    ensures WorkInstruct(s, wrote, rc).gaps == s.gaps
  {
  }

  lemma OthersReportNone(s: State, a: Action)
    requires !a.GapTell?
    ensures forall i: nat :: |s.outbox| <= i < |Step(s, a).outbox| ==> !Step(s, a).outbox[i].event.TurnCompleted?
  {
    if a.Work? {
      WorkSubmitsNothing(s, a.ok, a.wrote, a.rc);
    }
  }

  lemma ToldTell(s: State, turn: nat)
    requires Told(s) && LaunchPending(s)
    ensures Told(TellGap(s, turn))
  {
    var t := TellGap(s, turn);
    if s.up && turn in s.gaps && !s.gaps[turn].told {
      var n := |s.outbox|;
      assert forall i: nat :: !ToldAt(s.outbox, i, turn);
      assert t.outbox == s.outbox + [OutRow(TurnCompleted(s.gaps[turn].doneSeq, turn), false)];
      assert forall i: nat, k: nat :: ToldAt(t.outbox, i, k) ==> ToldAt(s.outbox, i, k) || (i == n && k == turn);
    }
  }

  lemma ToldStep(s: State, a: Action)
    requires Scoped(s) && Told(s) && !EarlySteer(s, a)
    ensures Told(Step(s, a))
  {
    if a.GapTell? {
      ToldTell(s, a.turn);
    } else {
      OutboxStep(s, a);
      OthersReportNone(s, a);
      GapsStep(s, a);
      SafeStep(s, a);
      if s.task == Completed {
        TerminalStep(s, a);
      }
      ToldKept(s, Step(s, a), a);
    }
  }

  lemma {:induction false} ToldRun(s: State, acts: seq<Action>)
    requires Scoped(s) && Told(s) && NoEarlySteer(s, acts) && NoOrphan(s, acts)
    ensures Told(Run(s, acts))
    decreases |acts|
  {
    if acts != [] {
      ToldStep(s, acts[0]);
      ScopedStep(s, acts[0]);
      ToldRun(Step(s, acts[0]), acts[1..]);
    }
  }

  /** No turn is reported completed twice, whatever crashes and whatever takes the lock between a finalization and its
      report. */
  lemma CompletedToldOnce(acts: seq<Action>, i: nat, j: nat)
    requires NoEarlySteer(Init, acts) && NoOrphan(Init, acts)
    requires i < j < |Run(Init, acts).outbox|
    requires Run(Init, acts).outbox[i].event.TurnCompleted? && Run(Init, acts).outbox[j].event.TurnCompleted?
    ensures Run(Init, acts).outbox[i].event.turn != Run(Init, acts).outbox[j].event.turn
  {
    InitIsScoped();
    ToldRun(Init, acts);
    assert ToldAt(Run(Init, acts).outbox, i, Run(Init, acts).outbox[i].event.turn);
    assert ToldAt(Run(Init, acts).outbox, j, Run(Init, acts).outbox[j].event.turn);
  }

  // ------------------------------------------------------------------ Identifiers

  lemma OnceOther(s: State, a: Action)
    requires OnePerId(s.outbox) && !a.Work?
    ensures OnePerId(Step(s, a).outbox)
  {
    match a {
      case RunBegin => EnqueuedOnce(s.outbox, TaskStarted);
      case RunFail => EnqueuedOnce(s.outbox, Final(Failed, 0));
      case Recover => EnqueuedOnce(s.outbox, Final(Failed, s.turn));
      case Submit(id, turn) => EnqueuedOnce(s.outbox, Local(id, turn));
      case GapTell(turn) =>
        if turn in s.gaps {
          EnqueuedOnce(s.outbox, TurnCompleted(s.gaps[turn].doneSeq, turn));
        }
      case _ =>
    }
  }

  lemma OnceStep(s: State, a: Action)
    requires OnePerId(s.outbox)
    ensures OnePerId(Step(s, a).outbox)
  {
    if !a.Work? {
      OnceOther(s, a);
    } else if s.pc.Spawn? {
      assert DoWork(s, a.ok, a.wrote, a.rc).outbox == s.outbox;
    } else {
      assert Step(s, a) == DoWork(s, true, a.wrote, a.rc);
      WrittenIsQueued(s, a.wrote, a.rc);
      EnqueuedOnce(s.outbox, Written(s));
    }
  }

  lemma {:induction false} OnceRun(s: State, acts: seq<Action>)
    requires OnePerId(s.outbox)
    ensures OnePerId(Run(s, acts).outbox)
    decreases |acts|
  {
    if acts != [] {
      OnceStep(s, acts[0]);
      OnceRun(Step(s, acts[0]), acts[1..]);
    }
  }

  /** In any run at all, an event that a local client submits again, and a terminal event that is committed again, is
      queued once. */
  lemma IdsQueuedOnce(acts: seq<Action>, i: nat, j: nat)
    requires i < j < |Run(Init, acts).outbox|
    ensures var e := Run(Init, acts).outbox[i].event; var f := Run(Init, acts).outbox[j].event;
      && !(e.Local? && f.Local? && e.id == f.id)
      && !(e.Final? && f.Final? && e.kind == f.kind)
  {
    OnceRun(Init, acts);
    assert !SameId(Run(Init, acts).outbox[i].event, Run(Init, acts).outbox[j].event);
  }
}
