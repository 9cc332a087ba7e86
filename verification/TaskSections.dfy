/** The lock-held sections of the worker in closed form: what each leaves behind when nothing interrupts it.
    Every form is proved equal to its chain of atomic steps in TaskTurns. */
module TaskSections {
  import opened TaskTurns

  // _launch_turn_locked
  function Launch(s: State, origin: Starter, item: nat, turn: nat, ok: bool): State {
    if ok && turn !in s.live
    then Watch(s.(live := s.live + {turn}, task := Running, session := turn, turn := turn, active := item,
                  instrs := Mark(s.instrs, item, AnyState, InProgress),
                  outbox := Enqueue(s.outbox, TurnStarted(item, turn)), pc := Free),
               turn, Monitor(item, turn))
    else s.(pc := Free, run := if origin == ByRunTask then FailAtLock else s.run)
  }

  // _task_instruction from the turn bump to the kill
  function Bump(s: State, item: nat): State {
    if s.active == 0 then s.(task := Steering, turn := s.turn + 1, active := item)
    else s.(task := Steering, turn := s.turn + 1, active := item,
            instrs := Mark(s.instrs, s.active, {InProgress}, Superseded),
            outbox := Enqueue(s.outbox, TurnSuperseded(s.active, s.turn, item)))
  }

  function Supersede(s: State, item: nat, wrote: bool, rc: int): State {
    Kill(Bump(s, item), s.turn, wrote, rc)
  }

  function InstructAll(s: State, mode: Mode, ok: bool, wrote: bool, rc: int): State {
    if !s.up || s.pc != Free || s.task.Terminal() || s.task == Cancelling || mode == Initial then s
    else
      var item := |s.instrs| + 1;
      var s1 := s.(instrs := s.instrs + [Instruction(mode, Queued)]);
      if mode == Append then Emit(s1, TurnQueued(item))
      else
        var s2 := Supersede(s1, item, wrote, rc);
        Launch(s2, BySteer, item, s2.turn, ok)
  }

  function CancelAll(s: State, wrote: bool, rc: int): State {
    if !s.up || s.pc != Free || s.task.Terminal() then s
    else
      var s1 := Kill(s, s.turn, wrote, rc);
      Commit(s1.(instrs := Mark(s.instrs, s.active, {Queued, InProgress}, Dropped)), Cancelled, 0)
  }

  function EndTurn(s: State, item: nat, code: int): State {
    var s1 := s.(instrs := Mark(s.instrs, item, AnyState, if code != 0 then Broken else Done));
    if code != 0 then Commit(s1, Failed, s.turn)
    else
      var next := NextQueued(s1.instrs);
      var s2 := s1.(gaps := s.gaps[s.turn := Gap(item, next, false)]);
      if next != 0 then s2.(task := Running, turn := s.turn + 1, active := next) else Commit(s2, Completed, s.turn)
  }

  function FinalizeAll(s: State, turn: nat): State {
    var s1 := StartFinalize(s, turn);
    if s1.pc.FinalMark? then EndTurn(s1.(pc := Free), s1.pc.item, s1.pc.code) else s1
  }

  function LostAll(s: State, turn: nat): State {
    var s1 := StartLost(s, turn);
    if !s1.pc.LostMark? then s1
    else Commit(s1.(instrs := Mark(s1.instrs, s1.pc.item, AnyState, Broken), pc := Free), Failed, s.turn)
  }

  // ------------------------------------------------------------------ Closed forms are step chains

  lemma WorkOnce(s: State, w: Action, rest: seq<Action>)
    requires w.Work? && s.up && s.pc != Free
    ensures Run(s, [w] + rest) ==
      Run(if Launches(s.pc) then WorkLaunch(s, w.ok) else if Cancels(s.pc) then WorkCancel(s, w.wrote, w.rc)
          else if Ends(s.pc) then WorkEnd(s) else WorkInstruct(s, w.wrote, w.rc), rest)
  {}

  lemma LaunchForms(s: State, ok: bool)
    requires s.pc.Spawn?
    ensures var s1 := WorkLaunch(s, ok); var done := Launch(s, s.pc.origin, s.pc.item, s.pc.turn, ok);
      if s1.pc.SetRow? then
        WorkLaunch(s1, ok).pc.SetInstr? && WorkLaunch(WorkLaunch(s1, ok), ok).pc.TellStarted?
        && WorkLaunch(WorkLaunch(WorkLaunch(s1, ok), ok), ok) == done
      else s1.pc.Free? && s1 == done
  {
  }

  lemma LaunchSteps(s: State, w: Action)
    requires w.Work? && s.up && s.pc.Spawn?
    ensures Run(s, [w, w, w, w]) == Launch(s, s.pc.origin, s.pc.item, s.pc.turn, w.ok)
  {
    var s1 := WorkLaunch(s, w.ok);
    LaunchForms(s, w.ok);
    assert [w] + [w, w, w] == [w, w, w, w] && [w] + [w, w] == [w, w, w] && [w] + [w] == [w, w] && [w] + [] == [w];
    WorkOnce(s, w, [w, w, w]);
    if s1.pc.SetRow? {
      WorkOnce(s1, w, [w, w]);
      var s2 := WorkLaunch(s1, w.ok);
      WorkOnce(s2, w, [w]);
      WorkOnce(WorkLaunch(s2, w.ok), w, []);
    } else {
      IdleWrites(s1, w);
    }
  }

  lemma IdleWrites(s: State, w: Action)
    requires w.Work? && s.pc == Free
    ensures Run(s, [w, w, w]) == Run(s, [w] + ([w] + [])) == s
  {
    assert [w] + [w, w] == [w, w, w] && [w] + [w] == [w, w] && [w] + [] == [w];
    RunStep(s, w, [w, w]);
    RunStep(s, w, [w]);
    RunStep(s, w, []);
  }

  lemma BumpSteps(s: State, w: Action, rest: seq<Action>)
    requires w.Work? && s.up && s.pc.SteerBump? && s.active != 0
    ensures Run(s, [w] + ([w] + ([w] + rest))) == Run(Bump(s, s.pc.item).(pc := SteerKill(s.pc.item, s.turn)), rest)
  {
    var bumped := WorkInstruct(s, w.wrote, w.rc);
    var marked := WorkInstruct(bumped, w.wrote, w.rc);
    var told := WorkInstruct(marked, w.wrote, w.rc);
    RunThen(marked, w, rest, told, Run(told, rest));
    RunThen(bumped, w, [w] + rest, marked, Run(told, rest));
    RunThen(s, w, [w] + ([w] + rest), bumped, Run(told, rest));
  }

  lemma KillAndLaunch(bumped: State, item: nat, oldTurn: nat, w: Action)
    requires w.Work? && bumped.up
    ensures Run(bumped.(pc := SteerKill(item, oldTurn)), [w] + [w, w, w, w])
         == Launch(Kill(bumped, oldTurn, w.wrote, w.rc), BySteer, item, bumped.turn, w.ok)
  {
    var killed := Kill(bumped, oldTurn, w.wrote, w.rc);
    LaunchSteps(killed.(pc := Spawn(BySteer, item, bumped.turn)), w);
  }

  function Writes(w: Action, n: nat): seq<Action> {
    seq(n, _ => w)
  }

  lemma BumpWrites(s: State, item: nat, w: Action)
    requires w.Work? && s.up && s.active != 0
    ensures Run(s.(pc := SteerBump(item)), Writes(w, 3)) == Bump(s, item).(pc := SteerKill(item, s.turn))
  {
    BumpSteps(s.(pc := SteerBump(item)), w, []);
    assert Writes(w, 3) == [w] + ([w] + ([w] + []));
  }

  lemma LaunchWrites(bumped: State, item: nat, oldTurn: nat, w: Action)
    requires w.Work? && bumped.up
    ensures Run(bumped.(pc := SteerKill(item, oldTurn)), Writes(w, 5))
         == Launch(Kill(bumped, oldTurn, w.wrote, w.rc), BySteer, item, bumped.turn, w.ok)
  {
    KillAndLaunch(bumped, item, oldTurn, w);
    assert Writes(w, 5) == [w] + [w, w, w, w];
  }

  /** From the inserted row on, a steer is eight writes. */
  lemma SteerSteps(s: State, bumped: State, item: nat, w: Action)
    requires w.Work? && s.up && s.active != 0 && bumped == Bump(s, item)
    ensures Run(s.(pc := SteerBump(item)), Writes(w, 3) + Writes(w, 5))
         == Launch(Kill(bumped, s.turn, w.wrote, w.rc), BySteer, item, bumped.turn, w.ok)
  {
    BumpWrites(s, item, w);
    RunConcat(s.(pc := SteerBump(item)), Writes(w, 3), Writes(w, 5));
    LaunchWrites(bumped, item, s.turn, w);
  }

  lemma CancelSteps(s: State, w: Action)
    requires w.Work? && s.up && s.pc == Free && !s.task.Terminal()
    ensures Run(s, [Cancel] + ([w] + ([w] + ([w] + [])))) == CancelAll(s, w.wrote, w.rc)
  {
    var s1 := s.(task := Cancelling, pc := CancelKill(s.active));
    RunStep(s, Cancel, [w] + ([w] + ([w] + [])));
    WorkOnce(s1, w, [w] + ([w] + []));
    var killed := Kill(s, s.turn, w.wrote, w.rc);
    var s2 := killed.(task := Cancelling, pc := CancelMark(s.active));
    assert WorkCancel(s1, w.wrote, w.rc) == s2;
    WorkOnce(s2, w, [w] + []);
    var s3 := killed.(task := Cancelling, instrs := Mark(s.instrs, s.active, {Queued, InProgress}, Dropped),
                      pc := CancelCommit);
    WorkOnce(s3, w, []);
  }

  lemma FinalForms(s: State)
    requires s.pc.FinalMark?
    ensures WorkEnd(s).pc.FinalCommit? && WorkEnd(s).up == s.up
    ensures WorkEnd(WorkEnd(s)) == EndTurn(s.(pc := Free), s.pc.item, s.pc.code)
  {}

  lemma FinalWrites(s: State, w: Action)
    requires w.Work? && s.up && s.pc.FinalMark?
    ensures Run(s, [w] + ([w] + [])) == EndTurn(s.(pc := Free), s.pc.item, s.pc.code)
  {
    FinalForms(s);
    WorkOnce(s, w, [w] + []);
    WorkOnce(WorkEnd(s), w, []);
  }

  lemma LostWrites(s: State, w: Action)
    requires w.Work? && s.up && s.pc.LostMark?
    ensures Run(s, [w] + ([w] + [])) ==
      Commit(s.(instrs := Mark(s.instrs, s.pc.item, AnyState, Broken), pc := Free), Failed, s.turn)
  {
    var marked := WorkEnd(s);
    assert marked.pc.LostCommit?;
    WorkOnce(s, w, [w] + []);
    WorkOnce(marked, w, []);
  }

  lemma FinalRest(s: State, w: Action)
    requires w.Work? && s.up && (s.pc == Free || s.pc.FinalMark?)
    ensures Run(s, [w] + ([w] + [])) ==
      if s.pc.FinalMark? then EndTurn(s.(pc := Free), s.pc.item, s.pc.code) else s
  {
    if s.pc.FinalMark? {
      FinalWrites(s, w);
    } else {
      IdleWrites(s, w);
    }
  }

  lemma LostRest(s: State, w: Action)
    requires w.Work? && s.up && (s.pc == Free || s.pc.LostMark?)
    ensures Run(s, [w] + ([w] + [])) ==
      if s.pc.LostMark? then
        Commit(s.(instrs := Mark(s.instrs, s.pc.item, AnyState, Broken), pc := Free), Failed, s.turn)
      else s
  {
    if s.pc.LostMark? {
      LostWrites(s, w);
    } else {
      IdleWrites(s, w);
    }
  }

  lemma RunThen(s: State, a: Action, rest: seq<Action>, next: State, end: State)
    requires Step(s, a) == next && Run(next, rest) == end
    ensures Run(s, [a] + rest) == end
  {}

  lemma FinalizeSteps(s: State, turn: nat, w: Action)
    requires w.Work? && s.up && s.pc == Free
    ensures Run(s, [Finalize(turn)] + ([w] + ([w] + []))) == FinalizeAll(s, turn)
  {
    FinalRest(StartFinalize(s, turn), w);
    RunThen(s, Finalize(turn), [w] + ([w] + []), StartFinalize(s, turn), FinalizeAll(s, turn));
  }

  lemma LostSteps(s: State, turn: nat, w: Action)
    requires w.Work? && s.up && s.pc == Free
    ensures Run(s, [Lost(turn)] + ([w] + ([w] + []))) == LostAll(s, turn)
  {
    LostRest(StartLost(s, turn), w);
    RunThen(s, Lost(turn), [w] + ([w] + []), StartLost(s, turn), LostAll(s, turn));
  }
}
