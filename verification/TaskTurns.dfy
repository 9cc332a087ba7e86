/** The task-turn protocol of the Linux worker (linux/workbot_worker/daemon.py over store.py), for one task id.

    Every statement of the source that writes SQLite, starts or kills a process, or schedules a
    coroutine is one atomic step.  A section that holds the per-task lock is a chain of such steps:
    `pc` names the next one, so a daemon crash, a process exit, a local event or an acknowledgement
    can fall between any two of them.  `Step` is total: an action that is not enabled leaves the
    state unchanged, and a run is any sequence of actions. */
module TaskTurns {

  datatype TaskState = Created | Running | Steering | Cancelling | Completed | Failed | Cancelled {
    predicate Terminal() { Completed? || Failed? || Cancelled? }
  }

  datatype Mode = Initial | Append | Steer

  datatype InstrState = Queued | InProgress | Superseded | Done | Broken | Dropped

  // A row of task_instructions; the row with sequence n is instrs[n - 1].
  datatype Instruction = Instruction(mode: Mode, state: InstrState)

  datatype Event =
    | TaskStarted
    | TurnQueued(item: nat)
    | TurnSuperseded(item: nat, turn: nat, newer: nat)
    | TurnStarted(item: nat, turn: nat)
    | TurnCompleted(item: nat, turn: nat)
    | Final(kind: TaskState, turn: nat)   // the deterministic terminal event; turn 0: payload names no turn
    | Local(id: nat, turn: nat)           // submitted by a local client; turn 0: no _task_turn given

  datatype OutRow = OutRow(event: Event, delivered: bool)

  datatype Starter = ByRunTask | BySteer | ByAppend

  datatype Pc =
    | Free
    | QueuedEvent(item: nat)
    | SteerBump(item: nat)
    | SteerMark(item: nat, oldTurn: nat, oldSeq: nat)
    | SteerTell(item: nat, oldTurn: nat, oldSeq: nat)
    | SteerKill(item: nat, oldTurn: nat)
    | Spawn(origin: Starter, item: nat, turn: nat)
    | SetRow(item: nat, turn: nat)
    | SetInstr(item: nat, turn: nat)
    | TellStarted(item: nat, turn: nat)
    | CancelKill(item: nat)
    | CancelMark(item: nat)
    | CancelCommit
    | FinalMark(item: nat, code: int)
    | FinalCommit(item: nat, code: int)
    | LostMark(item: nat)
    | LostCommit

  // Progress of the _run_task coroutine until it owns the lock.
  datatype RunPhase = NoRun | Scheduled | AtLock | FailAtLock

  datatype Monitor = Monitor(item: nat, session: nat)

  // A finalizer between its two lock-held sections.
  datatype Gap = Gap(doneSeq: nat, next: nat, told: bool)

  datatype State = State(
    up: bool,
    task: TaskState, turn: nat, active: nat,
    session: nat,                        // turn whose session name is in session_id; 0: NULL
    instrs: seq<Instruction>,
    outbox: seq<OutRow>,
    live: set<nat>,                      // turns whose execution scope is alive
    exits: map<nat, int>,                // turns whose exit_code file exists
    run: RunPhase,
    monitors: map<nat, Monitor>,
    gaps: map<nat, Gap>,                 // keyed by the turn that was finalized
    pc: Pc)

  datatype Action =
    | Instruct(mode: Mode)               // task.instruction, up to its INSERT
    | Cancel                             // task.cancel, up to its UPDATE
    | RunBegin | RunLock | RunFail       // _run_task
    | Work(ok: bool, wrote: bool, rc: int) // next write of the section that holds the lock
    | Finalize(turn: nat)                // monitor of a turn whose exit file exists takes the lock
    | Lost(turn: nat)                    // monitor of a turn whose session is gone takes the lock
    | MonitorQuit(turn: nat)
    | GapTell(turn: nat) | GapLaunch(turn: nat)
    | Submit(id: nat, turn: nat)         // _handle_local event
    | Ack(row: nat)
    | Exit(turn: nat, code: int) | Vanish(turn: nat)
    | Crash | Recover

  // ------------------------------------------------------------------ store.py

  predicate SameId(e: Event, f: Event) {
    || (e.Final? && f.Final? && e.kind == f.kind)
    || (e.Local? && f.Local? && e.id == f.id)
  }

  predicate HasId(outbox: seq<OutRow>, e: Event) {
    exists i :: 0 <= i < |outbox| && SameId(outbox[i].event, e)
  }

  /** Rows are only appended, and an appended row is pending. */
  ghost predicate Grows(before: seq<OutRow>, after: seq<OutRow>) {
    && |before| <= |after|
    && (forall i: nat :: i < |before| ==> after[i] == before[i])
    && (forall i: nat :: |before| <= i < |after| ==> !after[i].delivered)
  }

  // INSERT OR IGNORE INTO outbox
  function Enqueue(outbox: seq<OutRow>, e: Event): (after: seq<OutRow>)
    ensures Grows(outbox, after)
  {
    if HasId(outbox, e) then outbox else outbox + [OutRow(e, false)]
  }

  ghost predicate OnePerId(outbox: seq<OutRow>) {
    forall i, j :: 0 <= i < j < |outbox| ==> !SameId(outbox[i].event, outbox[j].event)
  }

  /** An event gets a pending row at the back exactly when no row has its id; no other row changes, and an id never has
      two rows. */
  lemma EnqueuedOnce(outbox: seq<OutRow>, e: Event)
    requires OnePerId(outbox)
    ensures var after := Enqueue(outbox, e);
      && OnePerId(after) && |outbox| <= |after| && after[..|outbox|] == outbox
      && (if HasId(outbox, e) then |after| == |outbox|
          else |after| == |outbox| + 1 && after[|outbox|].event == e && !after[|outbox|].delivered)
  {
    var after := Enqueue(outbox, e);
    if !HasId(outbox, e) {
      forall i | 0 <= i < |outbox| ensures !SameId(after[i].event, after[|outbox|].event) {
        assert !SameId(outbox[i].event, e);
      }
    }
  }

  function Mark(instrs: seq<Instruction>, sequence: nat, from: set<InstrState>, to: InstrState): seq<Instruction> {
    if 1 <= sequence <= |instrs| && instrs[sequence - 1].state in from
    then instrs[sequence - 1 := instrs[sequence - 1].(state := to)]
    else instrs
  }

  const AnyState: set<InstrState> := {Queued, InProgress, Superseded, Done, Broken, Dropped}

  predicate QueuedAs(instrs: seq<Instruction>, sequence: nat, steer: bool) {
    && 1 <= sequence <= |instrs|
    && instrs[sequence - 1].state == Queued
    && (instrs[sequence - 1].mode == Steer) == steer
  }

  // Least queued sequence at or after `from` that is (or is not) a steer; 0 when there is none.
  function LeastQueued(instrs: seq<Instruction>, steer: bool, from: nat): (n: nat)
    requires 1 <= from <= |instrs| + 1
    ensures n != 0 ==> from <= n && QueuedAs(instrs, n, steer)
    ensures forall k: nat :: from <= k && QueuedAs(instrs, k, steer) ==> n != 0 && n <= k
    decreases |instrs| + 1 - from
  {
    if from == |instrs| + 1 then 0
    else if QueuedAs(instrs, from, steer) then from
    else LeastQueued(instrs, steer, from + 1)
  }

  // queued_instructions(task_id)[0]: steers first, then by sequence; 0 when nothing is queued.
  function NextQueued(instrs: seq<Instruction>): nat {
    var s := LeastQueued(instrs, true, 1);
    if s != 0 then s else LeastQueued(instrs, false, 1)
  }

  // ------------------------------------------------------------------ daemon.py

  // finalize_and_enqueue: the row and its terminal event in one transaction.
  function Commit(s: State, kind: TaskState, turn: nat): State {
    s.(task := kind, outbox := Enqueue(s.outbox, Final(kind, turn)))
  }

  function Emit(s: State, e: Event): State {
    s.(outbox := Enqueue(s.outbox, e))
  }

  // _terminate_execution_scope.  A killed wrapper may still get to write its exit_code file.
  function Kill(s: State, turn: nat, wrote: bool, rc: int): State {
    if turn in s.live
    then s.(live := s.live - {turn}, exits := if wrote then s.exits[turn := rc] else s.exits)
    else s
  }

  // _schedule_monitor
  function Watch(s: State, turn: nat, m: Monitor): State {
    if turn in s.monitors then s else s.(monitors := s.monitors[turn := m])
  }

  function StartInstruction(s: State, mode: Mode): State {
    if !s.up || s.pc != Free || s.task.Terminal() || s.task == Cancelling || mode == Initial then s
    else
      var item := |s.instrs| + 1;
      s.(instrs := s.instrs + [Instruction(mode, Queued)],
         pc := if mode == Append then QueuedEvent(item) else SteerBump(item))
  }

  function StartCancel(s: State): State {
    if !s.up || s.pc != Free || s.task.Terminal() then s
    else s.(task := Cancelling, pc := CancelKill(s.active))
  }

  function BeginRun(s: State): State {
    if !s.up || s.run != Scheduled then s
    else if s.task == Cancelled then s.(run := NoRun)
    else Emit(s, TaskStarted).(run := AtLock)
  }

  // The guard under the lock tests only for 'cancelled'.
  function LockRun(s: State): State {
    if !s.up || s.run != AtLock || s.pc != Free then s
    else if s.task == Cancelled then s.(run := NoRun)
    else s.(run := NoRun, pc := Spawn(ByRunTask, 1, 1))
  }

  function FailRun(s: State): State {
    if !s.up || s.run != FailAtLock || s.pc != Free then s
    else if s.task == Cancelled || s.task == Cancelling then s.(run := NoRun)
    else Commit(s, Failed, 0).(run := NoRun)
  }

  function StartFinalize(s: State, turn: nat): State {
    if !s.up || s.pc != Free || turn !in s.monitors || turn !in s.exits then s
    else
      var m := s.monitors[turn];
      var s1 := s.(monitors := s.monitors - {turn});
      if s.task.Terminal() || s.task == Cancelling || s.task == Steering || s.turn != turn then s1
      else s1.(pc := FinalMark(m.item, s.exits[turn]))
  }

  function StartLost(s: State, turn: nat): State {
    if !s.up || s.pc != Free || turn !in s.monitors || s.monitors[turn].session in s.live then s
    else
      var m := s.monitors[turn];
      var s1 := s.(monitors := s.monitors - {turn});
      if s.task.Terminal() || s.task == Cancelling || s.task == Steering || s.turn != turn then s1
      else s1.(pc := LostMark(m.item))
  }

  function QuitMonitor(s: State, turn: nat): State {
    if s.up && turn in s.monitors
       && (s.task.Terminal() || s.task == Cancelling || s.task == Steering || s.turn != turn)
    then s.(monitors := s.monitors - {turn})
    else s
  }

  // The finalizer, out of the lock: it enqueues turn.completed ...
  function TellGap(s: State, turn: nat): State {
    if !s.up || turn !in s.gaps || s.gaps[turn].told then s
    else
      var g := s.gaps[turn];
      var s1 := Emit(s, TurnCompleted(g.doneSeq, turn));
      if g.next == 0 then s1.(gaps := s.gaps - {turn}) else s1.(gaps := s.gaps[turn := g.(told := true)])
  }

  // ... and takes the lock again, and re-checks the row it had chosen.
  function LaunchGap(s: State, turn: nat): State {
    if !s.up || s.pc != Free || turn !in s.gaps || !s.gaps[turn].told then s
    else
      var g := s.gaps[turn];
      var s1 := s.(gaps := s.gaps - {turn});
      if s.task.Terminal() || s.task == Cancelling || s.task == Steering then s1
      else if s.turn != turn + 1 || s.active != g.next then s1
      else s1.(pc := Spawn(ByAppend, g.next, turn + 1))
  }

  // tmux new-session; tmux refuses a session name that is already taken.
  function SpawnTurn(s: State, origin: Starter, item: nat, turn: nat, ok: bool): State {
    if ok && turn !in s.live
    then s.(live := s.live + {turn}, pc := SetRow(item, turn))
    else s.(pc := Free, run := if origin == ByRunTask then FailAtLock else s.run)
  }

  predicate MidSteer(pc: Pc) {
    pc.SteerMark? || pc.SteerTell? || pc.SteerKill?
  }

  predicate Launches(pc: Pc) {
    pc.Spawn? || pc.SetRow? || pc.SetInstr? || pc.TellStarted?
  }

  predicate Cancels(pc: Pc) {
    pc.CancelKill? || pc.CancelMark? || pc.CancelCommit?
  }

  predicate Ends(pc: Pc) {
    pc.FinalMark? || pc.FinalCommit? || pc.LostMark? || pc.LostCommit?
  }

  /** Writes left until the lock is released. */
  function Left(pc: Pc): nat {
    match pc
    case Free => 0
    case QueuedEvent(_) => 1
    case SteerBump(_) => 9
    case SteerMark(_, _, _) => 8
    case SteerTell(_, _, _) => 7
    case SteerKill(_, _) => 6
    case Spawn(_, _, _) => 5
    case SetRow(_, _) => 4
    case SetInstr(_, _) => 3
    case TellStarted(_, _) => 2
    case CancelKill(_) => 3
    case CancelMark(_) => 2
    case CancelCommit => 1
    case FinalMark(_, _) => 2
    case FinalCommit(_, _) => 1
    case LostMark(_) => 2
    case LostCommit => 1
  }

  // _task_instruction after its INSERT
  function WorkInstruct(s: State, wrote: bool, rc: int): (t: State)
    requires s.pc.QueuedEvent? || s.pc.SteerBump? || MidSteer(s.pc)
    ensures Left(t.pc) < Left(s.pc)
    ensures Grows(s.outbox, t.outbox)
  {
    match s.pc
    case QueuedEvent(item) => Emit(s, TurnQueued(item)).(pc := Free)
    case SteerBump(item) =>
      s.(task := Steering, turn := s.turn + 1, active := item,
         pc := if s.active != 0 then SteerMark(item, s.turn, s.active) else SteerKill(item, s.turn))
    case SteerMark(item, oldTurn, oldSeq) =>
      s.(instrs := Mark(s.instrs, oldSeq, {InProgress}, Superseded), pc := SteerTell(item, oldTurn, oldSeq))
    case SteerTell(item, oldTurn, oldSeq) =>
      Emit(s, TurnSuperseded(oldSeq, oldTurn, item)).(pc := SteerKill(item, oldTurn))
    case SteerKill(item, oldTurn) => Kill(s, oldTurn, wrote, rc).(pc := Spawn(BySteer, item, s.turn))
  }

  // _launch_turn_locked
  function WorkLaunch(s: State, ok: bool): (t: State)
    requires Launches(s.pc)
    ensures Left(t.pc) < Left(s.pc)
    ensures Grows(s.outbox, t.outbox)
  {
    match s.pc
    case Spawn(origin, item, turn) => SpawnTurn(s, origin, item, turn, ok)
    case SetRow(item, turn) =>
      s.(task := Running, session := turn, turn := turn, active := item, pc := SetInstr(item, turn))
    case SetInstr(item, turn) => s.(instrs := Mark(s.instrs, item, AnyState, InProgress), pc := TellStarted(item, turn))
    case TellStarted(item, turn) =>
      Watch(Emit(s, TurnStarted(item, turn)), turn, Monitor(item, turn)).(pc := Free)
  }

  // _cancel_task after its first UPDATE
  function WorkCancel(s: State, wrote: bool, rc: int): (t: State)
    requires Cancels(s.pc)
    ensures Left(t.pc) < Left(s.pc)
    ensures Grows(s.outbox, t.outbox)
  {
    match s.pc
    case CancelKill(item) => Kill(s, s.turn, wrote, rc).(pc := CancelMark(item))
    case CancelMark(item) => s.(instrs := Mark(s.instrs, item, {Queued, InProgress}, Dropped), pc := CancelCommit)
    case CancelCommit => Commit(s, Cancelled, 0).(pc := Free)
  }

  // _finalize_task_from_files and the lost-session branch of _monitor_task, checks done
  function WorkEnd(s: State): (t: State)
    requires Ends(s.pc)
    ensures Left(t.pc) < Left(s.pc)
    ensures Grows(s.outbox, t.outbox)
  {
    match s.pc
    case FinalMark(item, code) =>
      s.(instrs := Mark(s.instrs, item, AnyState, if code != 0 then Broken else Done), pc := FinalCommit(item, code))
    case FinalCommit(item, code) =>
      if code != 0 then Commit(s, Failed, s.turn).(pc := Free)
      else
        var next := NextQueued(s.instrs);
        if next != 0
        then s.(task := Running, turn := s.turn + 1, active := next,
                gaps := s.gaps[s.turn := Gap(item, next, false)], pc := Free)
        else Commit(s, Completed, s.turn).(gaps := s.gaps[s.turn := Gap(item, 0, false)], pc := Free)
    case LostMark(item) => s.(instrs := Mark(s.instrs, item, AnyState, Broken), pc := LostCommit)
    case LostCommit => Commit(s, Failed, s.turn).(pc := Free)
  }

  // The next write of the section that holds the lock.
  function DoWork(s: State, ok: bool, wrote: bool, rc: int): (t: State)
    ensures s.up && s.pc != Free ==> Left(t.pc) < Left(s.pc)
    ensures Grows(s.outbox, t.outbox)
  {
    if !s.up || s.pc == Free then s
    else if Launches(s.pc) then WorkLaunch(s, ok)
    else if Cancels(s.pc) then WorkCancel(s, wrote, rc)
    else if Ends(s.pc) then WorkEnd(s)
    else WorkInstruct(s, wrote, rc)
  }

  // _handle_local: an event for a terminal task or a superseded turn is dropped.
  function SubmitLocal(s: State, id: nat, turn: nat): State {
    if !s.up || s.task.Terminal() || (turn != 0 && s.turn != 0 && turn != s.turn) then s
    else Emit(s, Local(id, turn))
  }

  function AckRow(s: State, row: nat): State {
    if s.up && row < |s.outbox| then s.(outbox := s.outbox[row := s.outbox[row].(delivered := true)]) else s
  }

  function ExitTurn(s: State, turn: nat, code: int): State {
    if turn in s.live then s.(live := s.live - {turn}, exits := s.exits[turn := code]) else s
  }

  // The scope disappears without an exit_code file.
  function VanishTurn(s: State, turn: nat): State {
    s.(live := s.live - {turn})
  }

  // Everything the process held in memory is lost; rows, files and execution scopes stay.
  function CrashNow(s: State): State {
    s.(up := false, run := NoRun, monitors := map[], gaps := map[], pc := Free)
  }

  // _recover_tasks, before any client is served.  The session probed is the one recorded in the
  // row; only when the row has none is it the session of the current turn.
  function RecoverNow(s: State): State {
    if s.up then s
    else if s.task != Created && s.task != Running && s.task != Steering then s.(up := true)
    else
      var sess := if s.session != 0 then s.session else s.turn;
      if s.turn in s.exits then
        s.(up := true, session := sess, monitors := map[s.turn := Monitor(s.active, sess)])
      else if sess in s.live then
        s.(up := true, task := Running, session := sess, monitors := map[s.turn := Monitor(s.active, sess)])
      else if s.task == Created then s.(up := true, run := Scheduled)
      else Commit(s, Failed, s.turn).(up := true)
  }

  function Step(s: State, a: Action): State {
    match a
    case Instruct(mode) => StartInstruction(s, mode)
    case Cancel => StartCancel(s)
    case RunBegin => BeginRun(s)
    case RunLock => LockRun(s)
    case RunFail => FailRun(s)
    case Work(ok, wrote, rc) => DoWork(s, ok, wrote, rc)
    case Finalize(turn) => StartFinalize(s, turn)
    case Lost(turn) => StartLost(s, turn)
    case MonitorQuit(turn) => QuitMonitor(s, turn)
    case GapTell(turn) => TellGap(s, turn)
    case GapLaunch(turn) => LaunchGap(s, turn)
    case Submit(id, turn) => SubmitLocal(s, id, turn)
    case Ack(row) => AckRow(s, row)
    case Exit(turn, code) => ExitTurn(s, turn, code)
    case Vanish(turn) => VanishTurn(s, turn)
    case Crash => CrashNow(s)
    case Recover => RecoverNow(s)
  }

  function Run(s: State, acts: seq<Action>): State
    decreases |acts|
  {
    if acts == [] then s else Run(Step(s, acts[0]), acts[1..])
  }

  // _create_task for a fresh task id.
  const Init := State(
    true, Created, 1, 1, 0, [Instruction(Initial, Queued)], [], {}, map[], Scheduled, map[], map[], Free)

  lemma RunStep(s: State, a: Action, rest: seq<Action>)
    ensures Run(s, [a] + rest) == Run(Step(s, a), rest)
  {}

  lemma {:induction false} RunConcat(s: State, first: seq<Action>, rest: seq<Action>)
    ensures Run(s, first + rest) == Run(Run(s, first), rest)
    decreases |first|
  {
    if first == [] {
      assert first + rest == rest;
    } else {
      assert (first + rest)[1..] == first[1..] + rest;
      RunConcat(Step(s, first[0]), first[1..], rest);
    }
  }

  // ------------------------------------------------------------------ Guards

  /** A steer handled while the first launch is still outstanding. */
  predicate EarlySteer(s: State, a: Action) {
    a == Instruct(Steer) && s.up && s.pc == Free && s.task == Created && s.run != NoRun
  }

  /** A crash after a steer has bumped the turn and before it has killed the scope it supersedes. */
  predicate OrphaningCrash(s: State, a: Action) {
    a == Crash && (s.pc.SteerMark? || s.pc.SteerTell? || s.pc.SteerKill?) && s.pc.oldTurn in s.live
  }

  predicate NoEarlySteer(s: State, acts: seq<Action>)
    decreases |acts|
  {
    acts == [] || (!EarlySteer(s, acts[0]) && NoEarlySteer(Step(s, acts[0]), acts[1..]))
  }

  predicate NoOrphan(s: State, acts: seq<Action>)
    decreases |acts|
  {
    acts == [] || (!OrphaningCrash(s, acts[0]) && NoOrphan(Step(s, acts[0]), acts[1..]))
  }
}
