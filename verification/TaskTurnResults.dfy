/** What a reported result says about the processes, over whole runs. */
module TaskTurnResults {
  import opened TaskTurns
  import opened TaskTurnSafety
  import opened TaskTurnScopes

  /** Completed, whether the turn or with it the task. */
  predicate CompletedRow(r: OutRow, turn: nat) {
    r.event == Final(Completed, turn) || (r.event.TurnCompleted? && r.event.turn == turn)
  }

  predicate ExitedWell(s: State, turn: nat) {
    turn in s.exits && s.exits[turn] == 0
  }

  ghost predicate WellReported(outbox: seq<OutRow>, exits: map<nat, int>) {
    forall i: nat, turn: nat :: i < |outbox| && CompletedRow(outbox[i], turn) ==> turn in exits && exits[turn] == 0
  }

  ghost predicate Earned(s: State) {
    && WellReported(s.outbox, s.exits)
    && (forall turn :: turn in s.gaps ==> ExitedWell(s, turn))
    && (s.pc.FinalMark? || s.pc.FinalCommit? ==> s.turn in s.exits && s.exits[s.turn] == s.pc.code)
    && (s.task == Completed ==> ExitedWell(s, s.turn))
  }

  predicate ExitsKept(s: State, t: State) {
    forall turn :: turn in s.exits ==> turn in t.exits && t.exits[turn] == s.exits[turn]
  }

  /** An exit file is never rewritten. */
  lemma ExitsStay(s: State, a: Action)
    requires LiveTurn(s)
    ensures ExitsKept(s, Step(s, a))
  {
    if a.Work? {
      ExitsStayWork(s, a);
    } else if a.Exit? {
      assert Step(s, a) == ExitTurn(s, a.turn, a.code);
    } else {
      ExitsSame(s, a);
    }
  }

  lemma ExitsSame(s: State, a: Action)
    requires !a.Work? && !a.Exit?
    ensures Step(s, a).exits == s.exits
  {
    if a.Finalize? || a.Lost? || a.MonitorQuit? || a.GapTell? || a.GapLaunch? {
      ExitsWatched(s, a);
    }
  }

  lemma ExitsWatched(s: State, a: Action)
    requires a.Finalize? || a.Lost? || a.MonitorQuit? || a.GapTell? || a.GapLaunch?
    ensures Step(s, a).exits == s.exits
  {
  }

  lemma ExitsStayWork(s: State, a: Action)
    requires LiveTurn(s) && a.Work?
    ensures ExitsKept(s, Step(s, a))
  {
    if s.up && s.pc != Free {
      if Launches(s.pc) {
        assert WorkLaunch(s, a.ok).exits == s.exits;
      } else if Ends(s.pc) {
        assert WorkEnd(s).exits == s.exits;
      } else if Cancels(s.pc) {
        assert ExitsKept(s, WorkCancel(s, a.wrote, a.rc));
      } else {
        ExitsStaySteer(s, a.wrote, a.rc);
      }
    }
  }

  lemma ExitsStaySteer(s: State, wrote: bool, rc: int)
    requires LiveTurn(s) && (s.pc.QueuedEvent? || s.pc.SteerBump? || MidSteer(s.pc))
    ensures ExitsKept(s, WorkInstruct(s, wrote, rc))
  {
  }

  ghost predicate NewRowsEarned(s: State, after: seq<OutRow>) {
    forall i: nat, turn: nat :: |s.outbox| <= i < |after| && CompletedRow(after[i], turn) ==> ExitedWell(s, turn)
  }

  /** A turn is reported completed by its end alone. */
  lemma NewRows(s: State, a: Action)
    requires Earned(s)
    ensures NewRowsEarned(s, Step(s, a).outbox)
  {
    if a.Work? {
      WorkRows(s, a);
    } else if a.GapTell? {
      assert NewRowsEarned(s, TellGap(s, a.turn).outbox);
    }
  }

  lemma WorkRows(s: State, a: Action)
    requires Earned(s) && a.Work?
    ensures NewRowsEarned(s, Step(s, a).outbox)
  {
    if s.up && s.pc != Free {
      if Launches(s.pc) {
        assert NewRowsEarned(s, WorkLaunch(s, a.ok).outbox);
      } else if Cancels(s.pc) {
        assert NewRowsEarned(s, WorkCancel(s, a.wrote, a.rc).outbox);
      } else if Ends(s.pc) {
        assert NewRowsEarned(s, WorkEnd(s).outbox);
      } else {
        InstructRows(s, a.wrote, a.rc);
      }
    }
  }

  lemma InstructRows(s: State, wrote: bool, rc: int)
    requires s.pc.QueuedEvent? || s.pc.SteerBump? || MidSteer(s.pc)
    ensures NewRowsEarned(s, WorkInstruct(s, wrote, rc).outbox)
  {
  }

  lemma EarnedEvents(s: State, a: Action)
    requires LiveTurn(s) && Earned(s)
    ensures WellReported(Step(s, a).outbox, Step(s, a).exits)
  {
    ExitsStay(s, a);
    OutboxStep(s, a);
    NewRows(s, a);
    EarnedRows(s, Step(s, a), a);
  }

  lemma EarnedRows(s: State, t: State, a: Action)
    requires Earned(s) && ExitsKept(s, t) && NewRowsEarned(s, t.outbox) && OutboxExtends(s, t, [a])
    ensures WellReported(t.outbox, t.exits)
  {
    forall i: nat, turn: nat | i < |t.outbox| && CompletedRow(t.outbox[i], turn)
      ensures turn in t.exits && t.exits[turn] == 0
    {
      if i < |s.outbox| {
        assert CompletedRow(s.outbox[i], turn);
      } else {
        assert ExitedWell(s, turn);
      }
    }
  }

  lemma EarnedEnd(s: State)
    requires Scoped(s) && Earned(s) && s.up && Ends(s.pc) && WellReported(WorkEnd(s).outbox, s.exits)
    ensures Earned(WorkEnd(s))
  {
  }

  lemma EarnedWork(s: State, a: Action)
    requires Scoped(s) && Earned(s) && a.Work?
    ensures Earned(Step(s, a))
  {
    EarnedEvents(s, a);
    if s.up && Ends(s.pc) {
      EarnedEnd(s);
    } else if s.up && s.pc != Free {
      ExitsStay(s, a);
      WorkElse(s, a);
    }
  }

  lemma WorkElse(s: State, a: Action)
    requires PcAgrees(s.pc, s.task, s.turn) && a.Work? && s.up && !Ends(s.pc) && s.pc != Free
    ensures var t := Step(s, a);
      !Ends(t.pc) && t.gaps == s.gaps && (t.task == Completed ==> s.task == Completed && t.turn == s.turn)
  {
    if Launches(s.pc) {
      assert WorkLaunch(s, a.ok).gaps == s.gaps;
    } else if !Cancels(s.pc) {
      InstructElse(s, a.wrote, a.rc);
    }
  }

  lemma InstructElse(s: State, wrote: bool, rc: int)
    requires PcAgrees(s.pc, s.task, s.turn) && (s.pc.QueuedEvent? || s.pc.SteerBump? || MidSteer(s.pc))
    ensures var t := WorkInstruct(s, wrote, rc);
      !Ends(t.pc) && t.gaps == s.gaps && (t.task == Completed ==> s.task == Completed && t.turn == s.turn)
  {
    match s.pc {
      case SteerMark(_, _, _) =>
      case SteerTell(_, _, _) =>
      case SteerKill(_, oldTurn) => assert Kill(s, oldTurn, wrote, rc).gaps == s.gaps;
      case _ =>
    }
  }

  lemma EarnedOther(s: State, a: Action)
    requires Scoped(s) && Earned(s) && !a.Work?
    ensures Earned(Step(s, a))
  {
    ExitsStay(s, a);
    EarnedEvents(s, a);
  }

  lemma EarnedStep(s: State, a: Action)
    requires Scoped(s) && Earned(s)
    ensures Earned(Step(s, a))
  {
    if a.Work? {
      EarnedWork(s, a);
    } else {
      EarnedOther(s, a);
    }
  }

  lemma {:induction false} EarnedRun(s: State, acts: seq<Action>)
    requires Scoped(s) && Earned(s) && NoEarlySteer(s, acts) && NoOrphan(s, acts)
    ensures Earned(Run(s, acts))
    decreases |acts|
  {
    if acts != [] {
      EarnedStep(s, acts[0]);
      ScopedStep(s, acts[0]);
      EarnedRun(Step(s, acts[0]), acts[1..]);
    }
  }

  /** Whatever is reported completed, a turn or the task with it, has left an exit file with code 0, through all crashes
      and recoveries. */
  lemma CompletedMeansExitZero(acts: seq<Action>, i: nat, turn: nat)
    requires NoEarlySteer(Init, acts) && NoOrphan(Init, acts)
    requires i < |Run(Init, acts).outbox|
    requires var e := Run(Init, acts).outbox[i].event;
      e == Final(Completed, turn) || (e.TurnCompleted? && e.turn == turn)
    ensures turn in Run(Init, acts).exits && Run(Init, acts).exits[turn] == 0
  {
    InitIsScoped();
    EarnedRun(Init, acts);
    assert CompletedRow(Run(Init, acts).outbox[i], turn);
  }

  // ------------------------------------------------------------------ Cancelled means dead

  /** Behind its kill a cancellation has nothing left to kill. */
  predicate Quelled(s: State) {
    s.task == Cancelled || s.pc.CancelMark? || s.pc.CancelCommit? ==> s.live == {}
  }

  lemma QuelledCancel(s: State, wrote: bool, rc: int)
    requires LiveTurn(s) && PcAgrees(s.pc, s.task, s.turn) && Quelled(s) && Cancels(s.pc)
    ensures Quelled(WorkCancel(s, wrote, rc))
  {
  }

  lemma QuelledInstruct(s: State, wrote: bool, rc: int)
    requires Quelled(s) && (s.pc.QueuedEvent? || s.pc.SteerBump? || MidSteer(s.pc))
    ensures Quelled(WorkInstruct(s, wrote, rc))
  {
  }

  lemma QuelledWork(s: State, a: Action)
    requires LiveTurn(s) && PcAgrees(s.pc, s.task, s.turn) && Quelled(s) && a.Work?
    ensures Quelled(Step(s, a))
  {
    if s.up && s.pc != Free {
      if Cancels(s.pc) {
        QuelledCancel(s, a.wrote, a.rc);
      } else if Launches(s.pc) {
        assert Quelled(WorkLaunch(s, a.ok));
      } else if Ends(s.pc) {
        assert Quelled(WorkEnd(s));
      } else {
        QuelledInstruct(s, a.wrote, a.rc);
      }
    }
  }

  lemma QuelledStep(s: State, a: Action)
    requires Scoped(s) && Quelled(s)
    ensures Quelled(Step(s, a))
  {
    if a.Work? {
      QuelledWork(s, a);
    }
  }

  lemma {:induction false} QuelledRun(s: State, acts: seq<Action>)
    requires Scoped(s) && Quelled(s) && NoEarlySteer(s, acts) && NoOrphan(s, acts)
    ensures Quelled(Run(s, acts))
    decreases |acts|
  {
    if acts != [] {
      QuelledStep(s, acts[0]);
      ScopedStep(s, acts[0]);
      QuelledRun(Step(s, acts[0]), acts[1..]);
    }
  }

  /** A task reported cancelled has no live process, then and for ever after. */
  lemma CancelledMeansDead(acts: seq<Action>)
    requires NoEarlySteer(Init, acts) && NoOrphan(Init, acts)
    ensures Run(Init, acts).task == Cancelled ==> Run(Init, acts).live == {}
  {
    InitIsScoped();
    QuelledRun(Init, acts);
  }

  // ------------------------------------------------------------------ Local events

  ghost predicate HasLocal(outbox: seq<OutRow>, id: nat) {
    exists i: nat :: i < |outbox| && outbox[i].event.Local? && outbox[i].event.id == id
  }

  /** A local event of an unfinished task that names no other turn is in the outbox from then on, whatever happens; any
      other is dropped. */
  lemma LocalEventKept(s: State, id: nat, turn: nat, acts: seq<Action>)
    requires s.up
    ensures if !s.task.Terminal() && (turn == 0 || s.turn == 0 || turn == s.turn)
            then HasLocal(Run(s, [Submit(id, turn)] + acts).outbox, id)
            else Step(s, Submit(id, turn)) == s
  {
    var t := Step(s, Submit(id, turn));
    RunStep(s, Submit(id, turn), acts);
    PendingUntilAcked(t, acts);
    if !s.task.Terminal() && (turn == 0 || s.turn == 0 || turn == s.turn) {
      var i := SubmittedAt(s, id, turn);
      assert Run(t, acts).outbox[i].event == t.outbox[i].event;
    }
  }

  lemma SubmittedAt(s: State, id: nat, turn: nat) returns (i: nat)
    requires s.up && !s.task.Terminal() && (turn == 0 || s.turn == 0 || turn == s.turn)
    ensures var after := Step(s, Submit(id, turn)).outbox;
      i < |after| && after[i].event.Local? && after[i].event.id == id
  {
    if HasId(s.outbox, Local(id, turn)) {
      i :| i < |s.outbox| && SameId(s.outbox[i].event, Local(id, turn));
    } else {
      i := |s.outbox|;
    }
  }

  // ------------------------------------------------------------------ After the end

  ghost predicate OnlyTurnCompleted(s: State, t: State) {
    forall i: nat :: |s.outbox| <= i < |t.outbox| ==> t.outbox[i].event.TurnCompleted?
  }

  lemma EndedStep(s: State, a: Action)
    requires Safe(s) && s.task.Terminal() && s.pc == Free
    ensures var t := Step(s, a);
      t.pc == Free && t.task == s.task && t.turn == s.turn && t.instrs == s.instrs && t.live <= s.live
      && OnlyTurnCompleted(s, t)
  {
  }

  /** Once a task has ended nothing is launched, no row of it changes, and all that is still reported is that a turn was
      completed. */
  lemma {:induction false} EndedForGood(s: State, acts: seq<Action>)
    requires Safe(s) && s.task.Terminal() && s.pc == Free
    ensures var t := Run(s, acts);
      t.task == s.task && t.turn == s.turn && t.instrs == s.instrs && t.live <= s.live && OnlyTurnCompleted(s, t)
    decreases |acts|
  {
    if acts != [] {
      var t := Step(s, acts[0]);
      EndedStep(s, acts[0]);
      SafeStep(s, acts[0]);
      EndedForGood(t, acts[1..]);
      PendingUntilAcked(t, acts[1..]);
    }
  }
}
