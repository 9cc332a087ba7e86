/** What every run of the task-turn protocol keeps, whatever crashes and interleaves. */
module TaskTurnSafety {
  import opened TaskTurns

  // ------------------------------------------------------------------ Results and terminal states

  predicate FinalAt(outbox: seq<OutRow>, i: nat) {
    i < |outbox| && outbox[i].event.Final?
  }

  ghost predicate NoFinal(outbox: seq<OutRow>) {
    forall i: nat :: !FinalAt(outbox, i)
  }

  /** Exactly one terminal event, for this state; a result names the current turn, and a result
      without a turn (the first launch failed) is possible only on turn 1. */
  ghost predicate OneFinal(outbox: seq<OutRow>, task: TaskState, turn: nat) {
    exists i: nat ::
      && FinalAt(outbox, i)
      && (forall j: nat :: FinalAt(outbox, j) ==> j == i)
      && outbox[i].event.kind == task
      && (task == Cancelled || outbox[i].event.turn == turn || (outbox[i].event.turn == 0 && turn == 1))
  }

  /** The row is terminal exactly when its one terminal event is in the outbox. */
  ghost predicate FinalsAgree(outbox: seq<OutRow>, task: TaskState, turn: nat) {
    if task.Terminal() then OneFinal(outbox, task, turn) else NoFinal(outbox)
  }

  predicate Open(task: TaskState) {
    task == Created || task == Running || task == Steering
  }

  predicate PcAgrees(pc: Pc, task: TaskState, turn: nat) {
    && (pc.SteerBump? ==> Open(task))
    && (MidSteer(pc) ==> task == Steering && turn == pc.oldTurn + 1)
    && (Launches(pc) ==> Open(task) && pc.turn == turn)
    && (pc.Spawn? && pc.origin == BySteer ==> task == Steering)
    && (pc.SetInstr? || pc.TellStarted? ==> task == Running)
    && (Cancels(pc) ==> task == Cancelling)
    && (Ends(pc) ==> task == Created || task == Running)
  }

  /** While the first launch is outstanding nothing else touches the task but an append or a cancel. */
  predicate FirstLaunchAlone(s: State) {
    s.run != NoRun ==>
      && s.turn == 1 && s.monitors == map[] && s.gaps == map[]
      && (Cancels(s.pc) || ((s.pc.Free? || s.pc.QueuedEvent?) && (s.task == Created || s.task == Cancelled)))
  }

  ghost predicate Safe(s: State) {
    && s.turn >= 1
    && FinalsAgree(s.outbox, s.task, s.turn)
    && PcAgrees(s.pc, s.task, s.turn)
    && (!s.up ==> s.pc == Free && s.run == NoRun && s.monitors == map[] && s.gaps == map[])
    && (s.task == Created ==> s.turn == 1)
    && (s.pc.Spawn? && s.pc.origin == ByRunTask ==> s.task == Created && s.monitors == map[] && s.gaps == map[])
    && FirstLaunchAlone(s)
  }

  lemma EnqueueKeepsFinals(outbox: seq<OutRow>, e: Event, task: TaskState, turn: nat)
    requires FinalsAgree(outbox, task, turn) && !e.Final?
    ensures FinalsAgree(Enqueue(outbox, e), task, turn)
  {
    var after := Enqueue(outbox, e);
    assert forall i: nat :: FinalAt(after, i) <==> FinalAt(outbox, i);
    if task.Terminal() {
      var i: nat :| FinalAt(outbox, i) && (forall j: nat :: FinalAt(outbox, j) ==> j == i);
      assert FinalAt(after, i);
    }
  }

  lemma CommitAgrees(outbox: seq<OutRow>, kind: TaskState, turn: nat, named: nat)
    requires NoFinal(outbox) && kind.Terminal()
    requires kind == Cancelled || named == turn || (named == 0 && turn == 1)
    ensures FinalsAgree(Enqueue(outbox, Final(kind, named)), kind, turn)
    ensures |Enqueue(outbox, Final(kind, named))| == |outbox| + 1
  {
    var e := Final(kind, named);
    if HasId(outbox, e) {
      var i :| 0 <= i < |outbox| && SameId(outbox[i].event, e);
      assert FinalAt(outbox, i);
    }
    var after := Enqueue(outbox, e);
    assert forall i: nat :: FinalAt(after, i) && i < |outbox| ==> FinalAt(outbox, i);
    assert FinalAt(after, |outbox|);
  }

  lemma SafeTellWork(s: State, ok: bool, wrote: bool, rc: int)
    requires Safe(s) && s.up && (s.pc.QueuedEvent? || s.pc.SteerTell?)
    ensures Safe(DoWork(s, ok, wrote, rc)) && DoWork(s, ok, wrote, rc).turn >= s.turn
  {
    if s.pc.QueuedEvent? {
      EnqueueKeepsFinals(s.outbox, TurnQueued(s.pc.item), s.task, s.turn);
    } else {
      EnqueueKeepsFinals(s.outbox, TurnSuperseded(s.pc.oldSeq, s.pc.oldTurn, s.pc.item), s.task, s.turn);
    }
  }

  lemma SafeSteerWork(s: State, ok: bool, wrote: bool, rc: int)
    requires Safe(s) && s.up && (s.pc.QueuedEvent? || s.pc.SteerBump? || MidSteer(s.pc))
    ensures Safe(DoWork(s, ok, wrote, rc)) && DoWork(s, ok, wrote, rc).turn >= s.turn
  {
    if s.pc.QueuedEvent? || s.pc.SteerTell? {
      SafeTellWork(s, ok, wrote, rc);
    }
  }

  lemma SafeLaunchWork(s: State, ok: bool, wrote: bool, rc: int)
    requires Safe(s) && s.up && Launches(s.pc)
    ensures Safe(DoWork(s, ok, wrote, rc)) && DoWork(s, ok, wrote, rc).turn >= s.turn
  {
    if s.pc.TellStarted? {
      EnqueueKeepsFinals(s.outbox, TurnStarted(s.pc.item, s.pc.turn), s.task, s.turn);
    }
  }

  lemma SafeCancelWork(s: State, ok: bool, wrote: bool, rc: int)
    requires Safe(s) && s.up && Cancels(s.pc)
    ensures Safe(DoWork(s, ok, wrote, rc)) && DoWork(s, ok, wrote, rc).turn >= s.turn
  {
    if s.pc == CancelCommit {
      CommitAgrees(s.outbox, Cancelled, s.turn, 0);
    }
  }

  lemma SafeFinalWork(s: State, ok: bool, wrote: bool, rc: int)
    requires Safe(s) && s.up && s.pc.FinalCommit?
    ensures Safe(DoWork(s, ok, wrote, rc)) && DoWork(s, ok, wrote, rc).turn >= s.turn
  {
    CommitAgrees(s.outbox, if s.pc.code != 0 then Failed else Completed, s.turn, s.turn);
  }

  lemma SafeMarkWork(s: State, ok: bool, wrote: bool, rc: int)
    requires Safe(s) && s.up && (s.pc.FinalMark? || s.pc.LostMark?)
    ensures Safe(DoWork(s, ok, wrote, rc)) && DoWork(s, ok, wrote, rc).turn >= s.turn
  {
  }

  lemma SafeEndWork(s: State, ok: bool, wrote: bool, rc: int)
    requires Safe(s) && s.up && Ends(s.pc)
    ensures Safe(DoWork(s, ok, wrote, rc)) && DoWork(s, ok, wrote, rc).turn >= s.turn
  {
    if s.pc.FinalCommit? {
      SafeFinalWork(s, ok, wrote, rc);
    } else if s.pc.FinalMark? || s.pc.LostMark? {
      SafeMarkWork(s, ok, wrote, rc);
    } else {
      CommitAgrees(s.outbox, Failed, s.turn, s.turn);
    }
  }

  lemma SafeWork(s: State, ok: bool, wrote: bool, rc: int)
    requires Safe(s)
    ensures Safe(DoWork(s, ok, wrote, rc)) && DoWork(s, ok, wrote, rc).turn >= s.turn
  {
    if s.up && s.pc != Free {
      if Launches(s.pc) {
        SafeLaunchWork(s, ok, wrote, rc);
      } else if Cancels(s.pc) {
        SafeCancelWork(s, ok, wrote, rc);
      } else if Ends(s.pc) {
        SafeEndWork(s, ok, wrote, rc);
      } else {
        SafeSteerWork(s, ok, wrote, rc);
      }
    }
  }

  lemma AckKeepsFinals(s: State, row: nat)
    requires FinalsAgree(s.outbox, s.task, s.turn)
    ensures FinalsAgree(AckRow(s, row).outbox, s.task, s.turn)
  {
    var after := AckRow(s, row).outbox;
    assert forall i: nat :: FinalAt(after, i) <==> FinalAt(s.outbox, i);
    if s.task.Terminal() {
      var i: nat :| FinalAt(s.outbox, i) && (forall j: nat :: FinalAt(s.outbox, j) ==> j == i);
      assert FinalAt(after, i);
    }
  }

  lemma SafeRequest(s: State, a: Action)
    requires Safe(s) && !EarlySteer(s, a)
    requires a.Instruct? || a.Cancel? || a.RunBegin? || a.RunLock? || a.RunFail?
    ensures Safe(Step(s, a)) && Step(s, a).turn >= s.turn
  {
    EnqueueKeepsFinals(s.outbox, TaskStarted, s.task, s.turn);
    if s.run == FailAtLock && s.task == Created {
      CommitAgrees(s.outbox, Failed, s.turn, 0);
    }
  }

  lemma SafeMonitor(s: State, a: Action)
    requires Safe(s)
    requires a.Finalize? || a.Lost? || a.MonitorQuit? || a.GapTell? || a.GapLaunch?
    ensures Safe(Step(s, a)) && Step(s, a).turn >= s.turn
  {
    if a.GapTell? && a.turn in s.gaps {
      EnqueueKeepsFinals(s.outbox, TurnCompleted(s.gaps[a.turn].doneSeq, a.turn), s.task, s.turn);
    }
  }

  lemma SafeAround(s: State, a: Action)
    requires Safe(s)
    requires a.Submit? || a.Ack? || a.Exit? || a.Vanish? || a.Crash? || a.Recover?
    ensures Safe(Step(s, a)) && Step(s, a).turn >= s.turn
  {
    match a {
      case Submit(id, turn) => EnqueueKeepsFinals(s.outbox, Local(id, turn), s.task, s.turn);
      case Ack(row) => AckKeepsFinals(s, row);
      case Recover =>
        if Open(s.task) {
          CommitAgrees(s.outbox, Failed, s.turn, s.turn);
        }
      case _ =>
    }
  }

  lemma SafeStep(s: State, a: Action)
    requires Safe(s) && !EarlySteer(s, a)
    ensures Safe(Step(s, a)) && Step(s, a).turn >= s.turn
  {
    match a {
      case Work(ok, wrote, rc) => SafeWork(s, ok, wrote, rc);
      case Finalize(_) => SafeMonitor(s, a);
      case Lost(_) => SafeMonitor(s, a);
      case MonitorQuit(_) => SafeMonitor(s, a);
      case GapTell(_) => SafeMonitor(s, a);
      case GapLaunch(_) => SafeMonitor(s, a);
      case Submit(_, _) => SafeAround(s, a);
      case Ack(_) => SafeAround(s, a);
      case Exit(_, _) => SafeAround(s, a);
      case Vanish(_) => SafeAround(s, a);
      case Crash => SafeAround(s, a);
      case Recover => SafeAround(s, a);
      case _ => SafeRequest(s, a);
    }
  }

  // ------------------------------------------------------------------ Over whole runs

  /** current_turn never decreases, and Safe holds after every run without an early steer. */
  lemma {:induction false} SafeRun(s: State, acts: seq<Action>)
    requires Safe(s) && NoEarlySteer(s, acts)
    ensures Safe(Run(s, acts)) && Run(s, acts).turn >= s.turn
    decreases |acts|
  {
    if acts != [] {
      SafeStep(s, acts[0]);
      SafeRun(Step(s, acts[0]), acts[1..]);
    }
  }

  lemma InitIsSafe()
    ensures Safe(Init)
  {
  }

  lemma GuardConcat(s: State, first: seq<Action>, rest: seq<Action>)
    requires NoEarlySteer(s, first + rest)
    ensures NoEarlySteer(s, first) && NoEarlySteer(Run(s, first), rest)
    decreases |first|
  {
    if first == [] {
      assert first + rest == rest;
    } else {
      assert (first + rest)[0] == first[0] && (first + rest)[1..] == first[1..] + rest;
      GuardConcat(Step(s, first[0]), first[1..], rest);
    }
  }

  /** After the worker starts, every state of every run is terminal exactly when its single terminal event is queued. */
  lemma TerminalIffEvent(acts: seq<Action>)
    requires NoEarlySteer(Init, acts)
    ensures FinalsAgree(Run(Init, acts).outbox, Run(Init, acts).task, Run(Init, acts).turn)
  {
    InitIsSafe();
    SafeRun(Init, acts);
  }

  /** Once a steer has superseded turn t, no result of a turn <= t is ever committed. */
  lemma SupersededTurnNeverFinal(s: State, ok: bool, wrote: bool, rc: int, after: seq<Action>, i: nat)
    requires Safe(s) && s.up && s.pc.SteerBump?
    requires NoEarlySteer(Step(s, Work(ok, wrote, rc)), after)
    requires FinalAt(Run(Step(s, Work(ok, wrote, rc)), after).outbox, i)
    ensures
      var e := Run(Step(s, Work(ok, wrote, rc)), after).outbox[i].event;
      e.kind == Cancelled || e.turn > s.turn
  {
    var bumped := Step(s, Work(ok, wrote, rc));
    SafeStep(s, Work(ok, wrote, rc));
    SafeRun(bumped, after);
  }

  lemma TerminalStep(s: State, a: Action)
    requires Safe(s) && s.task.Terminal()
    ensures Step(s, a).task == s.task
  {
  }

  /** Terminal states are absorbing. */
  lemma {:induction false} TerminalForever(s: State, acts: seq<Action>)
    requires Safe(s) && s.task.Terminal()
    ensures Run(s, acts).task == s.task
    decreases |acts|
  {
    if acts != [] {
      TerminalStep(s, acts[0]);
      SafeStep(s, acts[0]);
      TerminalForever(Step(s, acts[0]), acts[1..]);
    }
  }

  // ------------------------------------------------------------------ The durable outbox

  /** Rows are never removed or rewritten, and a row added later is one a local client may still report. */
  ghost predicate OutboxExtends(s: State, t: State, acts: seq<Action>) {
    && |s.outbox| <= |t.outbox|
    && (forall i: nat :: i < |s.outbox| ==> t.outbox[i].event == s.outbox[i].event)
    && (forall i: nat :: i < |s.outbox| && t.outbox[i].delivered ==> s.outbox[i].delivered || Ack(i) in acts)
    && (forall i: nat :: |s.outbox| <= i < |t.outbox| && t.outbox[i].delivered ==> Ack(i) in acts)
  }

  lemma RequestGrows(s: State, a: Action)
    requires a.Instruct? || a.Cancel? || a.RunBegin? || a.RunLock? || a.RunFail?
    ensures Grows(s.outbox, Step(s, a).outbox)
  {
  }

  lemma MonitorGrows(s: State, a: Action)
    requires a.Finalize? || a.Lost? || a.MonitorQuit? || a.GapTell? || a.GapLaunch?
    ensures Grows(s.outbox, Step(s, a).outbox)
  {
  }

  lemma OtherGrows(s: State, a: Action)
    requires !a.Ack? && !a.Work?
    ensures Grows(s.outbox, Step(s, a).outbox)
  {
    if a.Instruct? || a.Cancel? || a.RunBegin? || a.RunLock? || a.RunFail? {
      RequestGrows(s, a);
    } else if a.Finalize? || a.Lost? || a.MonitorQuit? || a.GapTell? || a.GapLaunch? {
      MonitorGrows(s, a);
    }
  }

  lemma OutboxStep(s: State, a: Action)
    ensures OutboxExtends(s, Step(s, a), [a])
  {
    if a.Ack? {
      assert Ack(a.row) in [a];
    } else if a.Work? {
      assert Grows(s.outbox, DoWork(s, a.ok, a.wrote, a.rc).outbox);
    } else {
      OtherGrows(s, a);
    }
  }

  /** A row stays pending until its acknowledgement arrives, over any run whatever, crashes included. */
  lemma {:induction false} PendingUntilAcked(s: State, acts: seq<Action>)
    ensures OutboxExtends(s, Run(s, acts), acts)
    decreases |acts|
  {
    if acts != [] {
      OutboxStep(s, acts[0]);
      PendingUntilAcked(Step(s, acts[0]), acts[1..]);
    }
  }

  /** Local events queued from now on name no superseded turn, and none at all once the task is terminal. */
  ghost predicate OnlyCurrentLocals(s: State, t: State) {
    forall i: nat :: |s.outbox| <= i < |t.outbox| && t.outbox[i].event.Local? ==>
      && !s.task.Terminal()
      && (t.outbox[i].event.turn == 0 || t.outbox[i].event.turn >= s.turn)
  }

  // The lock holder writes neither local events nor completed turns.
  predicate LockedRows(before: seq<OutRow>, after: seq<OutRow>) {
    forall i :: |before| <= i < |after| ==> !after[i].event.Local? && !after[i].event.TurnCompleted?
  }

  lemma SteerSubmitsNothing(s: State, wrote: bool, rc: int)
    requires s.pc.QueuedEvent? || s.pc.SteerBump? || MidSteer(s.pc)
    ensures LockedRows(s.outbox, WorkInstruct(s, wrote, rc).outbox)
  {
  }

  lemma LaunchSubmitsNothing(s: State, ok: bool)
    requires Launches(s.pc)
    ensures LockedRows(s.outbox, WorkLaunch(s, ok).outbox)
  {
    match s.pc {
      case TellStarted(item, turn) =>
        assert WorkLaunch(s, ok).outbox == Enqueue(s.outbox, TurnStarted(item, turn));
      case Spawn(_, _, _) => assert WorkLaunch(s, ok).outbox == s.outbox;
      case _ =>
    }
  }

  lemma EndSubmitsNothing(s: State)
    requires Ends(s.pc)
    ensures LockedRows(s.outbox, WorkEnd(s).outbox)
  {
  }

  lemma CancelSubmitsNothing(s: State, wrote: bool, rc: int)
    requires Cancels(s.pc)
    ensures LockedRows(s.outbox, WorkCancel(s, wrote, rc).outbox)
  {
  }

  lemma WorkSubmitsNothing(s: State, ok: bool, wrote: bool, rc: int)
    ensures LockedRows(s.outbox, DoWork(s, ok, wrote, rc).outbox)
  {
    if s.up && s.pc != Free {
      if Launches(s.pc) {
        LaunchSubmitsNothing(s, ok);
      } else if Cancels(s.pc) {
        CancelSubmitsNothing(s, wrote, rc);
      } else if Ends(s.pc) {
        EndSubmitsNothing(s);
      } else {
        SteerSubmitsNothing(s, wrote, rc);
      }
    }
  }

  lemma LocalStep(s: State, a: Action)
    requires Safe(s)
    ensures OnlyCurrentLocals(s, Step(s, a))
  {
    if a.Work? {
      WorkSubmitsNothing(s, a.ok, a.wrote, a.rc);
    }
  }

  lemma {:induction false} LateEventsDropped(s: State, acts: seq<Action>)
    requires Safe(s) && NoEarlySteer(s, acts)
    ensures OnlyCurrentLocals(s, Run(s, acts))
    decreases |acts|
  {
    if acts != [] {
      var s1 := Step(s, acts[0]);
      LocalStep(s, acts[0]);
      OutboxStep(s, acts[0]);
      SafeStep(s, acts[0]);
      if s.task.Terminal() {
        TerminalStep(s, acts[0]);
      }
      LateEventsDropped(s1, acts[1..]);
      PendingUntilAcked(s1, acts[1..]);
    }
  }
}
