/** What the sections of the worker do when nothing interrupts them: their chains of atomic steps have the effects that
    TaskEffects spells out, field by field. A run that begins a section and then lets its lock holder write ends exactly
    so. */
module TaskOutcomes {
  import opened TaskTurns
  import opened TaskSections
  import opened TaskEffects

  lemma EnqueueReports(outbox: seq<OutRow>, kind: TaskState, turn: nat)
    ensures Reports(outbox, Enqueue(outbox, Final(kind, turn)), kind, turn)
  {
    if HasId(outbox, Final(kind, turn)) {
      var i :| 0 <= i < |outbox| && SameId(outbox[i].event, Final(kind, turn));
      assert Reported(outbox, kind);
    }
  }

  lemma NextIsFirst(instrs: seq<Instruction>)
    ensures if NoneQueued(instrs) then NextQueued(instrs) == 0 else FirstQueued(instrs, NextQueued(instrs))
  {
    forall j: nat | QueuedAt(instrs, j) ensures QueuedAs(instrs, j + 1, instrs[j].mode == Steer) {
    }
    var n := NextQueued(instrs);
    assert n != 0 ==> QueuedAt(instrs, n - 1);
  }

  /** A cancellation kills the process of the task and reports it. */
  lemma CancelOutcome(s: State, w: Action)
    requires w.Work? && s.up && s.pc == Free && !s.task.Terminal()
    ensures TaskCancelled(s, Run(s, [Cancel] + ([w] + ([w] + ([w] + [])))), w.wrote, w.rc)
  {
    CancelSteps(s, w);
    CancelHas(s, w.wrote, w.rc);
  }

  lemma CancelHas(s: State, wrote: bool, rc: int)
    requires s.up && s.pc == Free
    ensures TaskCancelled(s, CancelAll(s, wrote, rc), wrote, rc)
  {
    EnqueueReports(s.outbox, Cancelled, 0);
  }

  /** A finalization goes by the exit code. */
  lemma FinalizeOutcome(s: State, turn: nat, w: Action)
    requires w.Work? && s.up && s.pc == Free && turn in s.monitors && turn in s.exits
    ensures TurnEnds(s, Run(s, [Finalize(turn)] + ([w] + ([w] + []))), turn)
  {
    FinalizeSteps(s, turn, w);
    FinalizeHas(s, turn);
  }

  lemma FinalizeHas(s: State, turn: nat)
    requires s.up && s.pc == Free && turn in s.monitors && turn in s.exits
    ensures TurnEnds(s, FinalizeAll(s, turn), turn)
  {
    if Current(s, turn) {
      var s1 := s.(monitors := s.monitors - {turn});
      assert FinalizeAll(s, turn) == EndTurn(s1, s.monitors[turn].item, s.exits[turn]);
      if s.exits[turn] != 0 {
        EnqueueReports(s.outbox, Failed, turn);
      } else {
        CompleteHas(s, s1, turn, s.monitors[turn].item);
      }
    }
  }

  lemma CompleteHas(s: State, s1: State, turn: nat, item: nat)
    requires s.turn == turn && s1 == s.(monitors := s.monitors - {turn})
    ensures var t := EndTurn(s1, item, 0);
      && OnlyRow(s.instrs, t.instrs, item, Done)
      && t == s1.(task := t.task, turn := t.turn, active := t.active, instrs := t.instrs, outbox := t.outbox,
                  gaps := t.gaps)
      && if NoneQueued(t.instrs) then
           && t.task == Completed && t.turn == turn && t.active == s.active
           && t.gaps == s.gaps[turn := Gap(item, 0, false)] && Reports(s.outbox, t.outbox, Completed, turn)
         else
           && t.task == Running && t.turn == turn + 1 && t.outbox == s.outbox && FirstQueued(t.instrs, t.active)
           && t.gaps == s.gaps[turn := Gap(item, t.active, false)]
  {
    var marked := Mark(s.instrs, item, AnyState, Done);
    EnqueueReports(s.outbox, Completed, turn);
    NextIsFirst(marked);
    assert OnlyRow(s.instrs, marked, item, Done);
    assert NextQueued(marked) != 0 ==> QueuedAt(marked, NextQueued(marked) - 1);
  }

  lemma LostOutcome(s: State, turn: nat, w: Action)
    requires w.Work? && s.up && s.pc == Free && turn in s.monitors && s.monitors[turn].session !in s.live
    ensures TurnLost(s, Run(s, [Lost(turn)] + ([w] + ([w] + []))), turn)
  {
    LostSteps(s, turn, w);
    LostHas(s, turn);
  }

  lemma LostHas(s: State, turn: nat)
    requires s.up && s.pc == Free && turn in s.monitors && s.monitors[turn].session !in s.live
    ensures TurnLost(s, LostAll(s, turn), turn)
  {
    EnqueueReports(s.outbox, Failed, turn);
  }

  /** A launch that succeeds leaves the turn running and watched. */
  lemma LaunchOutcome(s: State, w: Action)
    requires w.Work? && s.up && s.pc.Spawn? && w.ok && s.pc.turn !in s.live
    ensures TurnRuns(s.(pc := Free), Run(s, [w, w, w, w]), s.pc.item, s.pc.turn)
  {
    LaunchSteps(s, w);
    LaunchHas(s, s.pc.origin, s.pc.item, s.pc.turn);
  }

  lemma LaunchHas(s: State, origin: Starter, item: nat, turn: nat)
    requires turn !in s.live
    ensures TurnRuns(s.(pc := Free), Launch(s, origin, item, turn, true), item, turn)
  {
    assert !HasId(s.outbox, TurnStarted(item, turn));
  }

  /** From the inserted row on, a steer starts its turn over the dead scope of the old one. */
  lemma SteerOutcome(s: State, w: Action)
    requires w.Work? && s.up && s.pc == Free && s.active != 0 && !s.task.Terminal() && s.task != Cancelling
    ensures Instructed(s, Run(s, [Instruct(Steer)] + (Writes(w, 3) + Writes(w, 5))), Steer, w.ok, w.wrote, w.rc)
  {
    var s1 := s.(instrs := s.instrs + [Instruction(Steer, Queued)]);
    var item := |s.instrs| + 1;
    SteerSteps(s1, Bump(s1, item), item, w);
    RunStep(s, Instruct(Steer), Writes(w, 3) + Writes(w, 5));
    InstructHas(s, Steer, w.ok, w.wrote, w.rc);
  }

  lemma InstructHas(s: State, mode: Mode, ok: bool, wrote: bool, rc: int)
    requires s.up && s.pc == Free
    ensures Instructed(s, InstructAll(s, mode, ok, wrote, rc), mode, ok, wrote, rc)
  {
    if !Ended(s) && s.task != Cancelling {
      match mode {
        case Initial =>
        case Append => AppendHas(s, ok, wrote, rc);
        case Steer => SteerAllHas(s, ok, wrote, rc);
      }
    }
  }

  lemma SteerAllHas(s: State, ok: bool, wrote: bool, rc: int)
    requires s.up && s.pc == Free && !Ended(s) && s.task != Cancelling
    ensures Instructed(s, InstructAll(s, Steer, ok, wrote, rc), Steer, ok, wrote, rc)
  {
    var s1 := s.(instrs := s.instrs + [Instruction(Steer, Queued)]);
    var s2 := Supersede(s1, |s.instrs| + 1, wrote, rc);
    assert InstructAll(s, Steer, ok, wrote, rc) == Launch(s2, BySteer, |s.instrs| + 1, s2.turn, ok);
    SupersedeHas(s1, |s.instrs| + 1, wrote, rc);
    SteerHas(s, s2, ok, wrote, rc);
  }

  lemma AppendHas(s: State, ok: bool, wrote: bool, rc: int)
    requires s.up && s.pc == Free
    ensures Instructed(s, InstructAll(s, Append, ok, wrote, rc), Append, ok, wrote, rc)
  {
    assert !HasId(s.outbox, TurnQueued(|s.instrs| + 1));
  }

  lemma BumpHas(s: State, item: nat)
    ensures var t := Bump(s, item);
      && t == s.(task := Steering, turn := s.turn + 1, active := item, instrs := t.instrs, outbox := t.outbox)
      && OnlyRow(s.instrs, t.instrs, if RowIn(s.instrs, s.active, {InProgress}) then s.active else 0, Superseded)
      && t.outbox == s.outbox + SupersededEvent(s, item)
  {
    assert !HasId(s.outbox, TurnSuperseded(s.active, s.turn, item));
  }

  lemma SupersedeHas(s: State, item: nat, wrote: bool, rc: int)
    ensures var t := Supersede(s, item, wrote, rc);
      && t == s.(task := Steering, turn := s.turn + 1, active := item, live := t.live, exits := t.exits,
                 instrs := t.instrs, outbox := t.outbox)
      && ScopeKilled(s, t, s.turn, wrote, rc)
      && OnlyRow(s.instrs, t.instrs, if RowIn(s.instrs, s.active, {InProgress}) then s.active else 0, Superseded)
      && t.outbox == s.outbox + SupersededEvent(s, item)
  {
    BumpHas(s, item);
  }

  lemma SteerRows(s: State, mid: seq<Instruction>, after: seq<Instruction>, launched: bool)
    requires OnlyRow(s.instrs + [Instruction(Steer, Queued)], mid,
                     if RowIn(s.instrs + [Instruction(Steer, Queued)], s.active, {InProgress}) then s.active else 0,
                     Superseded)
    requires if launched then OnlyRow(mid, after, |s.instrs| + 1, InProgress) else after == mid
    ensures RowsSteered(s, after, launched)
  {
  }

  lemma SteerHas(s: State, mid: State, ok: bool, wrote: bool, rc: int)
    requires s.pc == Free && !Ended(s) && s.task != Cancelling
    requires var s1 := s.(instrs := s.instrs + [Instruction(Steer, Queued)]); var item := |s.instrs| + 1;
      && mid == s1.(task := Steering, turn := s.turn + 1, active := item, live := mid.live, exits := mid.exits,
                 instrs := mid.instrs, outbox := mid.outbox)
      && ScopeKilled(s1, mid, s.turn, wrote, rc)
      && OnlyRow(s1.instrs, mid.instrs, if RowIn(s1.instrs, s.active, {InProgress}) then s.active else 0, Superseded)
      && mid.outbox == s.outbox + SupersededEvent(s, item)
    ensures Instructed(s, Launch(mid, BySteer, |s.instrs| + 1, s.turn + 1, ok), Steer, ok, wrote, rc)
  {
    var t := Launch(mid, BySteer, |s.instrs| + 1, s.turn + 1, ok);
    if ok && s.turn + 1 !in mid.live {
      LaunchHas(mid, BySteer, |s.instrs| + 1, s.turn + 1);
    } else {
      assert t == mid.(pc := Free);
    }
    SteerRows(s, mid.instrs, t.instrs, ok && s.turn + 1 !in mid.live);
  }

  // ------------------------------------------------------------------ Launches that begin outside the lock

  lemma TellAppends(outbox: seq<OutRow>, e: Event)
    requires e.TaskStarted? || e.TurnCompleted?
    ensures Enqueue(outbox, e) == outbox + [OutRow(e, false)]
  {
    assert !HasId(outbox, e);
  }

  /** The first launch reports the task started and runs turn 1. */
  lemma FirstLaunchOutcome(s: State, w: Action)
    requires w.Work? && w.ok && s.up && s.pc == Free && s.run == Scheduled && s.task != Cancelled && 1 !in s.live
    ensures TurnRuns(s.(run := NoRun, outbox := s.outbox + [OutRow(TaskStarted, false)]),
                     Run(s, [RunBegin] + ([RunLock] + [w, w, w, w])), 1, 1)
  {
    TellAppends(s.outbox, TaskStarted);
    var begun := BeginRun(s);
    var locked := LockRun(begun);
    LaunchOutcome(locked, w);
    RunThen(begun, RunLock, [w, w, w, w], locked, Run(locked, [w, w, w, w]));
    RunThen(s, RunBegin, [RunLock] + [w, w, w, w], begun, Run(locked, [w, w, w, w]));
  }

  /** If it fails, the task fails unless it has been cancelled meanwhile. */
  lemma FirstLaunchFailure(s: State)
    requires s.up && s.pc == Free && s.run == FailAtLock
    ensures var t := Step(s, RunFail);
      if s.task == Cancelled || s.task == Cancelling then t == s.(run := NoRun)
      else t == s.(run := NoRun, task := Failed, outbox := t.outbox) && Reports(s.outbox, t.outbox, Failed, 0)
  {
    EnqueueReports(s.outbox, Failed, 0);
  }

  lemma GapForms(s: State, turn: nat)
    requires s.up && s.pc == Free && Current(s, turn + 1)
    requires turn in s.gaps && !s.gaps[turn].told && s.gaps[turn].next == s.active != 0
    ensures var told := s.outbox + [OutRow(TurnCompleted(s.gaps[turn].doneSeq, turn), false)];
      LaunchGap(TellGap(s, turn), turn) ==
        s.(gaps := s.gaps - {turn}, outbox := told, pc := Spawn(ByAppend, s.active, turn + 1))
  {
    TellAppends(s.outbox, TurnCompleted(s.gaps[turn].doneSeq, turn));
    assert TellGap(s, turn).gaps - {turn} == s.gaps - {turn};
  }

  /** A finalization that has chosen a row reports its own turn completed and runs the chosen one. */
  lemma ContinuationOutcome(s: State, turn: nat, w: Action)
    requires w.Work? && w.ok && s.up && s.pc == Free && Current(s, turn + 1) && turn + 1 !in s.live
    requires turn in s.gaps && !s.gaps[turn].told && s.gaps[turn].next == s.active != 0
    ensures var told := s.outbox + [OutRow(TurnCompleted(s.gaps[turn].doneSeq, turn), false)];
      TurnRuns(s.(gaps := s.gaps - {turn}, outbox := told),
               Run(s, [GapTell(turn)] + ([GapLaunch(turn)] + [w, w, w, w])), s.active, turn + 1)
  {
    GapForms(s, turn);
    var told := TellGap(s, turn);
    var locked := LaunchGap(told, turn);
    LaunchOutcome(locked, w);
    RunThen(told, GapLaunch(turn), [w, w, w, w], locked, Run(locked, [w, w, w, w]));
    RunThen(s, GapTell(turn), [GapLaunch(turn)] + [w, w, w, w], told, Run(locked, [w, w, w, w]));
  }

  /** One that has chosen none reports its turn completed and is done. */
  lemma LastTurnTold(s: State, turn: nat)
    requires s.up && turn in s.gaps && !s.gaps[turn].told && s.gaps[turn].next == 0
    ensures Step(s, GapTell(turn)) ==
      s.(gaps := s.gaps - {turn}, outbox := s.outbox + [OutRow(TurnCompleted(s.gaps[turn].doneSeq, turn), false)])
  {
    TellAppends(s.outbox, TurnCompleted(s.gaps[turn].doneSeq, turn));
  }

  // ------------------------------------------------------------------ Restarts, monitors, acknowledgements

  lemma RestartOutcome(s: State)
    ensures TaskRecovered(s, Run(s, [Crash] + ([Recover] + [])))
  {
    RunThen(CrashNow(s), Recover, [], RecoverNow(CrashNow(s)), RecoverNow(CrashNow(s)));
    RunThen(s, Crash, [Recover] + [], CrashNow(s), RecoverNow(CrashNow(s)));
    RecoverHas(CrashNow(s));
  }

  lemma RecoverHas(s: State)
    requires !s.up && s.run == NoRun && s.monitors == map[] && s.gaps == map[] && s.pc == Free
    ensures TaskRecovered(s, RecoverNow(s))
  {
    EnqueueReports(s.outbox, Failed, s.turn);
  }

  /** A monitor that does not find a result goes on exactly while its turn has the task. */
  lemma MonitorOutcome(s: State, turn: nat)
    requires s.up && turn in s.monitors
    ensures Step(s, MonitorQuit(turn)) == if Current(s, turn) then s else s.(monitors := s.monitors - {turn})
  {
  }

  /** An acknowledgement marks its row and no other. */
  lemma AckOutcome(s: State, row: nat)
    requires s.up
    ensures var t := Step(s, Ack(row));
      && t == s.(outbox := t.outbox) && |t.outbox| == |s.outbox|
      && forall i: nat :: i < |s.outbox| ==>
           && t.outbox[i].event == s.outbox[i].event
           && (t.outbox[i].delivered <==> s.outbox[i].delivered || i == row)
  {
  }
}
