/** What a lock-held section does, field by field: `s` is the task before, `t` after. */
module TaskEffects {
  import opened TaskTurns

  /** Row k ends in state `to`, every other row as it was. */
  ghost predicate OnlyRow(before: seq<Instruction>, after: seq<Instruction>, k: nat, to: InstrState) {
    && |after| == |before|
    && forall j: nat :: j < |before| ==>
         after[j].mode == before[j].mode && after[j].state == if j + 1 == k then to else before[j].state
  }

  predicate QueuedAt(instrs: seq<Instruction>, j: nat) {
    j < |instrs| && instrs[j].state == Queued
  }

  predicate RowIn(instrs: seq<Instruction>, k: nat, states: set<InstrState>) {
    1 <= k <= |instrs| && instrs[k - 1].state in states
  }

  ghost predicate NoneQueued(instrs: seq<Instruction>) {
    forall j: nat :: !QueuedAt(instrs, j)
  }

  /** Row k is queued, and no queued row goes before it: steers go first, then earlier rows. */
  ghost predicate FirstQueued(instrs: seq<Instruction>, k: nat) {
    && 1 <= k && QueuedAt(instrs, k - 1)
    && forall j: nat :: QueuedAt(instrs, j) && j + 1 != k ==>
         if (instrs[j].mode == Steer) == (instrs[k - 1].mode == Steer) then k < j + 1 else instrs[k - 1].mode == Steer
  }

  ghost predicate Reported(outbox: seq<OutRow>, kind: TaskState) {
    exists i: nat :: i < |outbox| && outbox[i].event.Final? && outbox[i].event.kind == kind
  }

  /** Every row stays, and this terminal event is queued unless one of its kind was. */
  ghost predicate Reports(before: seq<OutRow>, after: seq<OutRow>, kind: TaskState, turn: nat) {
    if Reported(before, kind) then after == before else after == before + [OutRow(Final(kind, turn), false)]
  }

  predicate Ended(s: State) {
    s.task == Completed || s.task == Failed || s.task == Cancelled
  }

  /** A finalizer or monitor of this turn still has the task. */
  predicate Current(s: State, turn: nat) {
    (s.task == Created || s.task == Running) && s.turn == turn
  }

  /** A finalization: the exit code alone decides between failed and completed, and after code 0 the task goes on with
      the first queued row exactly when there is one. */
  ghost predicate TurnEnds(s: State, t: State, turn: nat)
    requires turn in s.monitors && turn in s.exits
  {
    var item, left := s.monitors[turn].item, s.monitors - {turn};
    if !Current(s, turn) then t == s.(monitors := left)
    else if s.exits[turn] != 0 then
      && t == s.(monitors := left, task := Failed, instrs := t.instrs, outbox := t.outbox)
      && OnlyRow(s.instrs, t.instrs, item, Broken) && Reports(s.outbox, t.outbox, Failed, turn)
    else if NoneQueued(t.instrs) then
      && t == s.(monitors := left, task := Completed, instrs := t.instrs, outbox := t.outbox, gaps := t.gaps)
      && OnlyRow(s.instrs, t.instrs, item, Done) && Reports(s.outbox, t.outbox, Completed, turn)
      && t.gaps == s.gaps[turn := Gap(item, 0, false)]
    else
      && t == s.(monitors := left, task := Running, turn := turn + 1, active := t.active, instrs := t.instrs,
                 gaps := t.gaps)
      && OnlyRow(s.instrs, t.instrs, item, Done) && FirstQueued(t.instrs, t.active)
      && t.gaps == s.gaps[turn := Gap(item, t.active, false)]
  }

  /** The lost-session branch fails the task and the row of the turn. */
  ghost predicate TurnLost(s: State, t: State, turn: nat)
    requires turn in s.monitors
  {
    var item, left := s.monitors[turn].item, s.monitors - {turn};
    if !Current(s, turn) then t == s.(monitors := left)
    else
      && t == s.(monitors := left, task := Failed, instrs := t.instrs, outbox := t.outbox)
      && OnlyRow(s.instrs, t.instrs, item, Broken) && Reports(s.outbox, t.outbox, Failed, turn)
  }

  /** The scope of the turn is dead; it may have left an exit file while it died. */
  predicate ScopeKilled(s: State, t: State, turn: nat, wrote: bool, rc: int) {
    && t.live == s.live - {turn}
    && t.exits == if turn in s.live && wrote then s.exits[turn := rc] else s.exits
  }

  /** A cancellation kills the scope of the current turn, drops the row it works on if that was queued or in progress,
      and reports. On a task that has ended it changes nothing. */
  ghost predicate TaskCancelled(s: State, t: State, wrote: bool, rc: int) {
    if Ended(s) then t == s
    else
      && t == s.(task := Cancelled, live := t.live, exits := t.exits, instrs := t.instrs, outbox := t.outbox)
      && ScopeKilled(s, t, s.turn, wrote, rc)
      && OnlyRow(s.instrs, t.instrs, if RowIn(s.instrs, s.active, {Queued, InProgress}) then s.active else 0, Dropped)
      && Reports(s.outbox, t.outbox, Cancelled, 0)
  }

  /** The turn runs: its scope is live, its row in progress, its start reported, its session recorded and watched. */
  ghost predicate TurnRuns(s: State, t: State, item: nat, turn: nat) {
    && t == s.(task := Running, turn := turn, active := item, session := turn, live := s.live + {turn},
               instrs := t.instrs, monitors := t.monitors, outbox := t.outbox)
    && t.outbox == s.outbox + [OutRow(TurnStarted(item, turn), false)]
    && OnlyRow(s.instrs, t.instrs, item, InProgress)
    && t.monitors == if turn in s.monitors then s.monitors else s.monitors[turn := Monitor(item, turn)]
  }

  /** The rows after a steer: those before it stay but for the superseded one, and its own is the last. */
  ghost predicate RowsSteered(s: State, after: seq<Instruction>, launched: bool) {
    && |after| == |s.instrs| + 1
    && (forall j: nat :: j < |s.instrs| ==>
          && after[j].mode == s.instrs[j].mode
          && after[j].state == if j + 1 == s.active && s.instrs[j].state == InProgress then Superseded
                               else s.instrs[j].state)
    && after[|s.instrs|] == Instruction(Steer, if launched then InProgress else Queued)
  }

  // The old turn is reported superseded unless the row names none.
  function SupersededEvent(s: State, item: nat): seq<OutRow> {
    if s.active == 0 then [] else [OutRow(TurnSuperseded(s.active, s.turn, item), false)]
  }

  /** An instruction is refused or gets the last row. An append waits there. A steer takes the next turn, supersedes the
      row in progress, kills its scope and starts its own unless the launch fails. */
  ghost predicate Instructed(s: State, t: State, mode: Mode, ok: bool, wrote: bool, rc: int) {
    var item, next := |s.instrs| + 1, s.turn + 1;
    if Ended(s) || s.task == Cancelling || mode == Initial then t == s
    else if mode == Append then
      && t == s.(instrs := t.instrs, outbox := t.outbox)
      && t.instrs == s.instrs + [Instruction(Append, Queued)]
      && t.outbox == s.outbox + [OutRow(TurnQueued(item), false)]
    else
      var launched := ok && next !in s.live;
      && t == s.(task := if launched then Running else Steering, turn := next, active := item,
                 session := if launched then next else s.session, live := t.live, exits := t.exits,
                 instrs := t.instrs, outbox := t.outbox, monitors := t.monitors)
      && t.live == s.live - {s.turn} + (if launched then {next} else {})
      && t.exits == (if s.turn in s.live && wrote then s.exits[s.turn := rc] else s.exits)
      && RowsSteered(s, t.instrs, launched)
      && t.outbox == s.outbox + SupersededEvent(s, item)
                              + (if launched then [OutRow(TurnStarted(item, next), false)] else [])
      && t.monitors == (if launched && next !in s.monitors then s.monitors[next := Monitor(item, next)] else s.monitors)
  }

  /** A restarted worker takes an open task up again: it watches the turn whose result or session is there, starts over
      a task that was never launched, and fails any other. */
  ghost predicate TaskRecovered(s: State, t: State) {
    var base := s.(up := true, run := NoRun, monitors := map[], gaps := map[], pc := Free);
    var session := if s.session != 0 then s.session else s.turn;
    var watched := map[s.turn := Monitor(s.active, session)];
    if Ended(s) || s.task == Cancelling then t == base
    else if s.turn in s.exits then t == base.(session := session, monitors := watched)
    else if session in s.live then t == base.(task := Running, session := session, monitors := watched)
    else if s.task == Created then t == base.(run := Scheduled)
    else t == base.(task := Failed, outbox := t.outbox) && Reports(s.outbox, t.outbox, Failed, s.turn)
  }
}
