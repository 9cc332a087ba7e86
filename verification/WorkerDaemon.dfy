/** The worker daemon in the source's own form: one object whose methods update the rows, the files and the
    coroutine tables of a task.  Each method is one lock-held section; TaskSections proves its outcome to be
    that of its atomic steps, and TaskTurns has the interleavings and crashes. */
module WorkerDaemon {
  import opened TaskTurns
  import opened TaskSections
  import opened TaskEffects
  import opened TaskOutcomes

  class Worker {
    var up: bool
    var state: TaskState
    var currentTurn: nat
    var activeSeq: nat
    var sessionTurn: nat
    var instructions: seq<Instruction>
    var outbox: seq<OutRow>
    var live: set<nat>
    var exits: map<nat, int>
    var run: RunPhase
    var monitors: map<nat, Monitor>
    var gaps: map<nat, Gap>

    // The object as a model state whose lock holder is about to do `pc`.
    function At(pc: Pc): State
      reads this
    {
      State(up, state, currentTurn, activeSeq, sessionTurn, instructions, outbox, live, exits, run, monitors, gaps, pc)
    }

    // _create_task of a fresh id
    constructor ()
      ensures At(Free) == Init
    {
      up, state, currentTurn, activeSeq, sessionTurn := true, Created, 1, 1, 0;
      instructions, outbox := [Instruction(Initial, Queued)], [];
      live, exits, run, monitors, gaps := {}, map[], Scheduled, map[], map[];
    }

    // WorkerStore.enqueue
    method Enqueue(e: Event)
      modifies this`outbox
      ensures outbox == TaskTurns.Enqueue(old(outbox), e)
    {
      if !HasId(outbox, e) {
        outbox := outbox + [OutRow(e, false)];
      }
    }

    // WorkerStore.finalize_and_enqueue
    method FinalizeAndEnqueue(kind: TaskState, turn: nat)
      modifies this`state, this`outbox
      ensures state == kind && outbox == TaskTurns.Enqueue(old(outbox), Final(kind, turn))
    {
      state := kind;
      Enqueue(Final(kind, turn));
    }

    // WorkerStore.ack
    method Ack(row: nat)
      requires up
      modifies this`outbox
      ensures At(Free) == Step(old(At(Free)), TaskTurns.Ack(row))
      ensures |outbox| == |old(outbox)| && forall k: nat :: k < |outbox| ==>
        outbox[k].event == old(outbox)[k].event && (outbox[k].delivered <==> old(outbox)[k].delivered || k == row)
    {
      if row < |outbox| {
        outbox := outbox[row := outbox[row].(delivered := true)];
      }
    }

    method MarkInstruction(sequence: nat, from: set<InstrState>, to: InstrState)
      modifies this`instructions
      ensures instructions == Mark(old(instructions), sequence, from, to)
    {
      if 1 <= sequence <= |instructions| && instructions[sequence - 1].state in from {
        instructions := instructions[sequence - 1 := instructions[sequence - 1].(state := to)];
      }
    }

    method TerminateExecutionScope(turn: nat, wrote: bool, rc: int)
      modifies this`live, this`exits
      ensures At(Free) == Kill(old(At(Free)), turn, wrote, rc)
    {
      if turn in live {
        live := live - {turn};
        if wrote {
          exits := exits[turn := rc];
        }
      }
    }

    method ScheduleMonitor(turn: nat, sequence: nat, session: nat)
      modifies this`monitors
      ensures At(Free) == Watch(old(At(Free)), turn, Monitor(sequence, session))
    {
      if turn !in monitors {
        monitors := monitors[turn := Monitor(sequence, session)];
      }
    }

    // Returns false where the source raises.
    method LaunchTurnLocked(origin: Starter, sequence: nat, turn: nat, ok: bool)
      returns (launched: bool)
      requires up
      modifies this
      ensures launched <==> ok && turn !in old(live)
      ensures At(Free) == Launch(old(At(Free)), origin, sequence, turn, ok)
      ensures launched ==> TurnRuns(old(At(Free)), At(Free), sequence, turn)
      ensures !launched ==> At(Free) == old(At(Free)).(run := if origin == ByRunTask then FailAtLock else old(run))
    {
      if !ok || turn in live {
        if origin == ByRunTask {
          run := FailAtLock;
        }
        return false;
      }
      LaunchHas(At(Free), origin, sequence, turn);
      live := live + {turn};
      state, sessionTurn, currentTurn, activeSeq := Running, turn, turn, sequence;
      MarkInstruction(sequence, AnyState, InProgress);
      Enqueue(TurnStarted(sequence, turn));
      ScheduleMonitor(turn, sequence, turn);
      return true;
    }

    method TaskInstruction(mode: Mode, ok: bool, wrote: bool, rc: int) returns (accepted: bool)
      requires up
      modifies this
      ensures At(Free) == InstructAll(old(At(Free)), mode, ok, wrote, rc)
      ensures Instructed(old(At(Free)), At(Free), mode, ok, wrote, rc)
      ensures !accepted ==>
        mode == Initial || old(state).Terminal() || old(state) == Cancelling || !ok || old(currentTurn) + 1 in old(live)
    {
      if mode == Initial || state.Terminal() || state == Cancelling {
        return false;
      }
      InstructHas(At(Free), mode, ok, wrote, rc);
      var sequence := |instructions| + 1;
      instructions := instructions + [Instruction(mode, Queued)];
      if mode == Append {
        Enqueue(TurnQueued(sequence));
        return true;
      }
      SupersedeTurn(sequence, wrote, rc);
      accepted := LaunchTurnLocked(BySteer, sequence, currentTurn, ok);
    }

    // The row names the new turn before the old scope dies, so the old monitor can never finalize it.
    method SupersedeTurn(sequence: nat, wrote: bool, rc: int)
      modifies this
      ensures At(Free) == Supersede(old(At(Free)), sequence, wrote, rc)
    {
      var oldTurn, oldSeq := currentTurn, activeSeq;
      state, currentTurn, activeSeq := Steering, oldTurn + 1, sequence;
      if oldSeq != 0 {
        MarkInstruction(oldSeq, {InProgress}, Superseded);
        Enqueue(TurnSuperseded(oldSeq, oldTurn, sequence));
      }
      assert At(Free) == Bump(old(At(Free)), sequence);
      TerminateExecutionScope(oldTurn, wrote, rc);
    }

    method CancelTask(wrote: bool, rc: int)
      requires up
      modifies this
      ensures At(Free) == CancelAll(old(At(Free)), wrote, rc) && TaskCancelled(old(At(Free)), At(Free), wrote, rc)
      ensures !old(state).Terminal() ==> state == Cancelled && live == old(live) - {old(currentTurn)}
    {
      CancelHas(At(Free), wrote, rc);
      if state.Terminal() {
        return;
      }
      var sequence := activeSeq;
      state := Cancelling;
      TerminateExecutionScope(currentTurn, wrote, rc);
      MarkInstruction(sequence, {Queued, InProgress}, Dropped);
      FinalizeAndEnqueue(Cancelled, 0);
    }

    // _run_task once it owns the lock
    method RunTaskLocked(ok: bool)
      requires up && run == AtLock
      modifies this
      ensures At(Free) == if old(state) == Cancelled then old(At(Free)).(run := NoRun)
                          else Launch(old(At(Free)).(run := NoRun), ByRunTask, 1, 1, ok)
    {
      run := NoRun;
      if state == Cancelled {
        return;
      }
      var launched := LaunchTurnLocked(ByRunTask, 1, 1, ok);
    }

    // _run_task's except branch
    method RunTaskFailed()
      requires up && run == FailAtLock
      modifies this
      ensures At(Free) == FailRun(old(At(Free))) && run == NoRun
      ensures if old(state) == Cancelled || old(state) == Cancelling then state == old(state) && outbox == old(outbox)
              else state == Failed && Reports(old(outbox), outbox, Failed, 0)
    {
      EnqueueReports(outbox, Failed, 0);
      run := NoRun;
      if state != Cancelled && state != Cancelling {
        FinalizeAndEnqueue(Failed, 0);
      }
    }

    // _finalize_task_from_files, first locked section, called by the monitor of `turn`
    method FinalizeFromFiles(turn: nat)
      requires up && turn in monitors && turn in exits
      modifies this
      ensures At(Free) == FinalizeAll(old(At(Free)), turn) && TurnEnds(old(At(Free)), At(Free), turn)
      ensures Current(old(At(Free)), turn) ==>
        && (state == Failed <==> exits[turn] != 0)
        && (state == Completed <==> exits[turn] == 0 && NoneQueued(instructions))
    {
      FinalizeHas(At(Free), turn);
      var sequence := monitors[turn].item;
      monitors := monitors - {turn};
      if state.Terminal() || state == Cancelling || state == Steering || currentTurn != turn {
        return;
      }
      CommitTurn(sequence, exits[turn]);
    }

    method CommitTurn(sequence: nat, code: int)
      modifies this
      ensures At(Free) == EndTurn(old(At(Free)), sequence, code)
    {
      MarkInstruction(sequence, AnyState, if code != 0 then Broken else Done);
      if code != 0 {
        FinalizeAndEnqueue(Failed, currentTurn);
      } else {
        var next := NextQueued(instructions);
        gaps := gaps[currentTurn := Gap(sequence, next, false)];
        if next != 0 {
          state, currentTurn, activeSeq := Running, currentTurn + 1, next;
        } else {
          FinalizeAndEnqueue(Completed, currentTurn);
        }
      }
    }

    // ... between the two sections
    method TellTurnCompleted(turn: nat)
      requires up && turn in gaps && !gaps[turn].told
      modifies this
      ensures At(Free) == TellGap(old(At(Free)), turn)
      ensures outbox == old(outbox) + [OutRow(TurnCompleted(old(gaps)[turn].doneSeq, turn), false)]
    {
      Enqueue(TurnCompleted(gaps[turn].doneSeq, turn));
      if gaps[turn].next == 0 {
        gaps := gaps - {turn};
      } else {
        gaps := gaps[turn := gaps[turn].(told := true)];
      }
    }

    // ... and the second locked section
    method LaunchChosen(turn: nat, ok: bool)
      requires up && turn in gaps && gaps[turn].told
      modifies this
      ensures var s := LaunchGap(old(At(Free)), turn);
        At(Free) == if s.pc.Spawn? then Launch(s, ByAppend, s.pc.item, s.pc.turn, ok) else s
      ensures var s := old(At(Free)).(gaps := old(gaps) - {turn}); var next := old(gaps)[turn].next;
        if Current(s, turn + 1) && old(activeSeq) == next && ok && turn + 1 !in old(live)
        then TurnRuns(s, At(Free), next, turn + 1) else At(Free) == s
    {
      var next := gaps[turn].next;
      gaps := gaps - {turn};
      if state.Terminal() || state == Cancelling || state == Steering {
        return;
      }
      if currentTurn != turn + 1 || activeSeq != next {
        return;
      }
      var launched := LaunchTurnLocked(ByAppend, next, turn + 1, ok);
    }

    // the lost-session branch of _monitor_task
    method SessionLost(turn: nat)
      requires up && turn in monitors && monitors[turn].session !in live
      modifies this
      ensures At(Free) == LostAll(old(At(Free)), turn) && TurnLost(old(At(Free)), At(Free), turn)
    {
      LostHas(At(Free), turn);
      var sequence := monitors[turn].item;
      monitors := monitors - {turn};
      if state.Terminal() || state == Cancelling || state == Steering || currentTurn != turn {
        return;
      }
      MarkInstruction(sequence, AnyState, Broken);
      FinalizeAndEnqueue(Failed, turn);
    }

    // the event branch of _handle_local
    method HandleLocalEvent(id: nat, turn: nat) returns (persisted: bool)
      requires up
      modifies this`outbox
      ensures At(Free) == SubmitLocal(old(At(Free)), id, turn)
      ensures persisted ==> HasId(outbox, Local(id, turn))
      ensures !persisted ==> outbox == old(outbox)
      ensures persisted <==> !state.Terminal() && (turn == 0 || currentTurn == 0 || turn == currentTurn)
    {
      if state.Terminal() || (turn != 0 && currentTurn != 0 && turn != currentTurn) {
        return false;
      }
      Enqueue(Local(id, turn));
      assert HasId(old(outbox), Local(id, turn)) || SameId(outbox[|old(outbox)|].event, Local(id, turn));
      return true;
    }

    // _recover_tasks, for this task, in a new process
    method RecoverTask()
      requires !up && run == NoRun && monitors == map[] && gaps == map[]
      modifies this
      ensures At(Free) == RecoverNow(old(At(Free))) && TaskRecovered(old(At(Free)), At(Free))
    {
      RecoverHas(At(Free));
      up := true;
      if state != Created && state != Running && state != Steering {
        return;
      }
      var session := if sessionTurn != 0 then sessionTurn else currentTurn;
      if currentTurn in exits {
        sessionTurn := session;
        ScheduleMonitor(currentTurn, activeSeq, session);
        return;
      }
      if session in live {
        state, sessionTurn := Running, session;
        ScheduleMonitor(currentTurn, activeSeq, session);
        return;
      }
      if state == Created {
        run := Scheduled;
        return;
      }
      FinalizeAndEnqueue(Failed, currentTurn);
    }
  }
}
