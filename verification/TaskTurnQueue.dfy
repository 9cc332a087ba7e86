/** No accepted instruction is lost, doubled or reordered: runs without crashes in which launches succeed.

    The launch log lists the instructions launched so far. An account says of every instruction where it is: queued,
    chosen by a finalization that has not taken the lock again, launched and running, ended, superseded or dropped.
    Each atomic step of the run model keeps the account, one lemma per step or group of steps: first the writes of the
    lock holder in the order of its program, then what happens around it. Over whole runs the account gives what
    TaskTurnLaunches states. The lemmas about a step take the log as a value, so that none of them has to look into the
    outbox; what a step adds to the log is proved apart. */
module TaskTurnQueue {
  import opened TaskTurns
  import opened TaskTurnSafety
  import opened TaskTurnScopes

  // ------------------------------------------------------------------ The launch log

  /** Sequence numbers of the instructions launched so far, in order: the task.turn.started events. */
  function Log(outbox: seq<OutRow>): seq<nat>
    decreases |outbox|
  {
    if outbox == [] then []
    else
      var rest := Log(outbox[..|outbox| - 1]);
      var e := outbox[|outbox| - 1].event;
      if e.TurnStarted? then rest + [e.item] else rest
  }

  lemma LogEnqueue(outbox: seq<OutRow>, e: Event)
    ensures Log(Enqueue(outbox, e)) == if e.TurnStarted? then Log(outbox) + [e.item] else Log(outbox)
  {
    assert (outbox + [OutRow(e, false)])[..|outbox|] == outbox;
  }

  lemma {:induction false} LogAck(outbox: seq<OutRow>, row: nat)
    requires row < |outbox|
    ensures Log(outbox[row := outbox[row].(delivered := true)]) == Log(outbox)
    decreases |outbox|
  {
    var n := |outbox| - 1;
    var after := outbox[row := outbox[row].(delivered := true)];
    if row == n {
      assert after[..n] == outbox[..n];
    } else {
      assert after[..n] == outbox[..n][row := outbox[..n][row].(delivered := true)];
      LogAck(outbox[..n], row);
    }
  }

  // ------------------------------------------------------------------ The accounts

  predicate In(instrs: seq<Instruction>, k: nat) {
    1 <= k <= |instrs|
  }

  predicate Begun(instrs: seq<Instruction>, k: nat) {
    In(instrs, k) && (instrs[k - 1].state == InProgress || instrs[k - 1].state == Superseded
                      || instrs[k - 1].state == Done || instrs[k - 1].state == Broken)
  }

  predicate InProgressAt(instrs: seq<Instruction>, k: nat) {
    In(instrs, k) && instrs[k - 1].state == InProgress
  }

  predicate Steers(instrs: seq<Instruction>, k: nat) {
    In(instrs, k) && instrs[k - 1].mode == Steer
  }

  /** The instruction that the section holding the lock is going to launch, 0 if none. */
  function Chosen(pc: Pc): nat {
    if pc.SteerBump? || MidSteer(pc) || pc.Spawn? || pc.SetRow? || pc.SetInstr? then pc.item else 0
  }

  ghost predicate Least(instrs: seq<Instruction>, k: nat) {
    QueuedAs(instrs, k, false) && forall j: nat :: QueuedAs(instrs, j, false) ==> k <= j
  }

  /** Launched exactly when begun, and never twice. */
  ghost predicate LogAgrees(instrs: seq<Instruction>, log: seq<nat>, pc: Pc) {
    && (forall i, j :: 0 <= i < j < |log| ==> log[i] != log[j])
    && (forall k :: k in log ==> In(instrs, k) && instrs[k - 1].state != Queued)
    && (forall k: nat :: Begun(instrs, k) ==> k in log || (pc.TellStarted? && pc.item == k))
    && (pc.TellStarted? ==> pc.item !in log)
  }

  /** Nothing but a steer overtakes: in the log, and between the log and what is still queued. */
  ghost predicate InOrder(instrs: seq<Instruction>, log: seq<nat>) {
    && (forall i, j :: 0 <= i < j < |log| && !Steers(instrs, log[i]) && !Steers(instrs, log[j]) ==> log[i] < log[j])
    && (forall k: nat, j: nat :: k in log && !Steers(instrs, k) && QueuedAs(instrs, j, false) ==> k < j)
  }

  /** Instruction k, unless a steer, comes after everything launched and before everything queued. */
  ghost predicate Next(instrs: seq<Instruction>, log: seq<nat>, k: nat) {
    !Steers(instrs, k) ==>
      && (forall j: nat :: j in log && !Steers(instrs, j) ==> j < k)
      && (forall j: nat :: QueuedAs(instrs, j, false) ==> k < j)
  }

  predicate RowFits(s: State, k: nat)
    requires In(s.instrs, k)
  {
    match s.instrs[k - 1].state
    case Queued => s.instrs[k - 1].mode == Steer ==> k == Chosen(s.pc) || s.task == Cancelled || s.pc == CancelCommit
    case InProgress =>
      if s.pc.SteerMark? then k == s.pc.oldSeq
      else k == s.active && !s.pc.SteerTell? && !s.pc.SteerKill? && !s.pc.Spawn? && !s.pc.SetRow? && !s.pc.SetInstr?
           && !s.pc.FinalCommit? && !s.pc.LostCommit?
    case Broken => s.task == Failed || s.pc == LostCommit || (s.pc.FinalCommit? && s.pc.code != 0)
    case Dropped => s.task == Cancelled || s.pc == CancelCommit
    case Superseded => true
    case Done => true
  }

  ghost predicate Progress(s: State) {
    && In(s.instrs, s.active)
    && (forall k: nat :: In(s.instrs, k) ==> RowFits(s, k))
    && (s.pc.FinalMark? || s.pc.LostMark? ==> s.pc.item == s.active && InProgressAt(s.instrs, s.active))
    && (s.task == Completed ==>
         forall k: nat :: In(s.instrs, k) ==> s.instrs[k - 1].state == Done || s.instrs[k - 1].state == Superseded)
  }

  ghost predicate Choices(s: State, log: seq<nat>) {
    && (Chosen(s.pc) != 0 ==> In(s.instrs, Chosen(s.pc)) && s.instrs[Chosen(s.pc) - 1].state == Queued)
    && (s.pc.SteerBump? || MidSteer(s.pc) ==> Steers(s.instrs, s.pc.item))
    && (s.pc.Spawn? || s.pc.SetRow? || s.pc.SetInstr? ==> Steers(s.instrs, s.pc.item) || Least(s.instrs, s.pc.item))
    && (s.pc.SetInstr? || s.pc.TellStarted? ==> s.active == s.pc.item)
    && (s.pc.TellStarted? ==> InProgressAt(s.instrs, s.pc.item) && Next(s.instrs, log, s.pc.item))
    && (s.task == Created ==> s.run != NoRun || s.pc.Spawn? || s.pc.SetRow?)
    && (s.task == Created && s.run != NoRun ==> QueuedAs(s.instrs, 1, false))
  }

  /** What the coroutines outside the lock rely on when they take it. */
  ghost predicate Watchers(s: State) {
    && (forall t :: t in s.monitors ==> t < s.turn || (t == s.turn && !MidSteer(s.pc) && !Launches(s.pc)))
    && (s.turn in s.monitors && s.task == Running && !Ends(s.pc) ==>
         s.monitors[s.turn].item == s.active && InProgressAt(s.instrs, s.active))
    && (forall t :: t in s.gaps && t + 1 == s.turn && s.task == Running ==>
         Least(s.instrs, s.gaps[t].next) && s.turn !in s.monitors)
    && (s.task == Created ==> s.monitors == map[])
  }

  /** The books of a state whose launch log is `log`. */
  ghost predicate Books(s: State, log: seq<nat>) {
    && s.up && s.run != FailAtLock
    && LogAgrees(s.instrs, log, s.pc)
    && InOrder(s.instrs, log)
    && Progress(s) && Choices(s, log) && Watchers(s)
  }

  ghost predicate Accounted(s: State) {
    Scoped(s) && Books(s, Log(s.outbox))
  }

  lemma MarkKeepsOrder(instrs: seq<Instruction>, k: nat, from: set<InstrState>, to: InstrState, log: seq<nat>)
    requires InOrder(instrs, log) && to != Queued
    ensures InOrder(Mark(instrs, k, from, to), log)
    ensures forall j: nat :: QueuedAs(Mark(instrs, k, from, to), j, false) ==> QueuedAs(instrs, j, false)
    ensures forall j: nat :: Least(instrs, j) && j != k ==> Least(Mark(instrs, k, from, to), j)
  {
    var after := Mark(instrs, k, from, to);
    assert forall j: nat :: Steers(after, j) <==> Steers(instrs, j);
    assert forall j: nat, b: bool :: QueuedAs(after, j, b) ==> QueuedAs(instrs, j, b);
    assert forall j: nat, b: bool :: QueuedAs(instrs, j, b) && j != k ==> QueuedAs(after, j, b);
  }

  lemma MarkKeepsLog(instrs: seq<Instruction>, k: nat, from: set<InstrState>, to: InstrState, log: seq<nat>,
                      pc: Pc, next: Pc)
    requires LogAgrees(instrs, log, pc) && to != Queued
    requires pc.TellStarted? ==> next == pc
    requires next.TellStarted? && !pc.TellStarted? ==> next.item == k && In(instrs, k) && instrs[k - 1].state == Queued
    requires Begun(instrs, k) || to == Dropped || (next.TellStarted? && next.item == k)
    ensures LogAgrees(Mark(instrs, k, from, to), log, next)
  {
    var after := Mark(instrs, k, from, to);
    assert forall j: nat :: Begun(after, j) && j != k ==> Begun(instrs, j);
  }

  lemma BooksSpawn(log: seq<nat>, s: State)
    requires Scoped(s) && Books(s, log) && (s.pc.Spawn? || s.pc.SetRow?)
    ensures Books(WorkLaunch(s, true), log)
  {
    var t := WorkLaunch(s, true);
    forall k: nat | In(t.instrs, k) ensures RowFits(t, k) {
      assert RowFits(s, k);
    }
  }

  lemma BooksSetInstr(log: seq<nat>, s: State)
    requires Scoped(s) && Books(s, log) && s.pc.SetInstr?
    ensures Books(WorkLaunch(s, true), log)
  {
    var t := WorkLaunch(s, true);
    MarkKeepsOrder(s.instrs, s.pc.item, AnyState, InProgress, log);
    MarkKeepsLog(s.instrs, s.pc.item, AnyState, InProgress, log, s.pc, t.pc);
    forall k: nat | In(t.instrs, k) ensures RowFits(t, k) {
      assert RowFits(s, k);
    }
  }

  lemma BooksTell(log: seq<nat>, s: State)
    requires Scoped(s) && Books(s, log) && s.pc.TellStarted?
    ensures Books(WorkLaunch(s, true), log + [s.pc.item])
  {
    var t := WorkLaunch(s, true);
    forall k: nat | In(t.instrs, k) ensures RowFits(t, k) {
      assert RowFits(s, k);
    }
  }

  lemma BooksMark(log: seq<nat>, s: State, t: State, k: nat, from: set<InstrState>, to: InstrState)
    requires Books(s, log) && !s.pc.TellStarted? && !t.pc.TellStarted? && to != Queued
    requires Begun(s.instrs, k) || to == Dropped
    requires t.instrs == Mark(s.instrs, k, from, to)
    ensures LogAgrees(t.instrs, log, t.pc) && InOrder(t.instrs, log)
    ensures forall j: nat :: In(t.instrs, j) ==> In(s.instrs, j) && RowFits(s, j)
    ensures forall j: nat :: Least(s.instrs, j) && j != k ==> Least(t.instrs, j)
  {
    MarkKeepsOrder(s.instrs, k, from, to, log);
    MarkKeepsLog(s.instrs, k, from, to, log, s.pc, t.pc);
  }

  /** Steps that write neither the instruction rows nor a start event. */
  lemma BooksKept(log: seq<nat>, s: State, t: State)
    requires Books(s, log) && t.instrs == s.instrs
    requires !s.pc.TellStarted? && !t.pc.TellStarted?
    ensures LogAgrees(t.instrs, log, t.pc) && InOrder(t.instrs, log)
    ensures forall j: nat :: In(t.instrs, j) ==> In(s.instrs, j) && RowFits(s, j)
  {
  }

  lemma BooksFinal(log: seq<nat>, s: State, t: State, kind: TaskState)
    requires Books(s, log) && t == s.(task := kind, outbox := t.outbox, gaps := t.gaps, pc := Free)
    requires kind == Failed || kind == Cancelled || kind == Completed
    requires forall k: nat :: In(s.instrs, k) && RowFits(s, k) ==> RowFits(t, k)
    requires kind == Completed ==> forall k: nat :: In(s.instrs, k) && RowFits(s, k) ==>
               s.instrs[k - 1].state == Done || s.instrs[k - 1].state == Superseded
    requires !s.pc.TellStarted? && !MidSteer(s.pc) && !Launches(s.pc)
    ensures Books(t, log)
  {
    BooksKept(log, s, t);
  }

  lemma BooksCancelMark(log: seq<nat>, s: State)
    requires Books(s, log) && PcAgrees(s.pc, s.task, s.turn) && s.pc.CancelMark?
    ensures Books(WorkCancel(s, false, 0), log)
  {
    var t := WorkCancel(s, false, 0);
    BooksMark(log, s, t, s.pc.item, {Queued, InProgress}, Dropped);
  }

  lemma BooksCancelKill(log: seq<nat>, s: State, wrote: bool, rc: int)
    requires Books(s, log) && PcAgrees(s.pc, s.task, s.turn) && s.pc.CancelKill?
    ensures Books(WorkCancel(s, wrote, rc), log)
  {
    BooksKept(log, s, WorkCancel(s, wrote, rc));
  }

  lemma BooksCancelCommit(log: seq<nat>, s: State)
    requires Books(s, log) && PcAgrees(s.pc, s.task, s.turn) && s.pc.CancelCommit?
    ensures Books(WorkCancel(s, false, 0), log)
  {
    BooksFinal(log, s, WorkCancel(s, false, 0), Cancelled);
  }

  lemma BooksSteerMark(log: seq<nat>, s: State)
    requires Books(s, log) && PcAgrees(s.pc, s.task, s.turn) && s.pc.SteerMark?
    ensures Books(WorkInstruct(s, false, 0), log)
  {
    var t := WorkInstruct(s, false, 0);
    if InProgressAt(s.instrs, s.pc.oldSeq) {
      BooksMark(log, s, t, s.pc.oldSeq, {InProgress}, Superseded);
    } else {
      BooksKept(log, s, t);
    }
  }

  lemma BooksSteerTell(log: seq<nat>, s: State)
    requires Books(s, log) && PcAgrees(s.pc, s.task, s.turn) && s.pc.SteerTell?
    ensures Books(WorkInstruct(s, false, 0), log)
  {
    BooksKept(log, s, WorkInstruct(s, false, 0));
  }

  lemma BooksSteerKill(log: seq<nat>, s: State, wrote: bool, rc: int)
    requires Books(s, log) && PcAgrees(s.pc, s.task, s.turn) && s.pc.SteerKill?
    ensures Books(WorkInstruct(s, wrote, rc), log)
  {
    BooksKept(log, s, WorkInstruct(s, wrote, rc));
  }

  lemma BooksInstruct(log: seq<nat>, s: State, wrote: bool, rc: int)
    requires Books(s, log) && PcAgrees(s.pc, s.task, s.turn) && (s.pc.QueuedEvent? || s.pc.SteerBump?)
    ensures Books(WorkInstruct(s, wrote, rc), log)
  {
    var t := WorkInstruct(s, wrote, rc);
    forall k: nat | In(t.instrs, k) ensures RowFits(t, k) {
      assert RowFits(s, k);
    }
  }

  lemma BooksEndMark(log: seq<nat>, s: State)
    requires Books(s, log) && PcAgrees(s.pc, s.task, s.turn) && (s.pc.FinalMark? || s.pc.LostMark?)
    ensures Books(WorkEnd(s), log)
  {
    var t := WorkEnd(s);
    BooksMark(log, s, t, s.pc.item, AnyState, if s.pc.FinalMark? && s.pc.code == 0 then Done else Broken);
    forall k: nat | In(t.instrs, k) ensures RowFits(t, k) {
      assert RowFits(s, k);
    }
  }

  lemma BooksFail(log: seq<nat>, s: State)
    requires Books(s, log) && PcAgrees(s.pc, s.task, s.turn)
      && ((s.pc.FinalCommit? && s.pc.code != 0) || s.pc.LostCommit?)
    ensures Books(WorkEnd(s), log)
  {
    BooksFinal(log, s, WorkEnd(s), Failed);
  }

  lemma BooksComplete(log: seq<nat>, s: State)
    requires Books(s, log) && PcAgrees(s.pc, s.task, s.turn) && s.pc.FinalCommit? && s.pc.code == 0
      && NextQueued(s.instrs) == 0
    ensures Books(WorkEnd(s), log)
  {
    forall k: nat | In(s.instrs, k) && RowFits(s, k)
      ensures s.instrs[k - 1].state == Done || s.instrs[k - 1].state == Superseded
    {
      assert !QueuedAs(s.instrs, k, true) && !QueuedAs(s.instrs, k, false);
    }
    BooksFinal(log, s, WorkEnd(s), Completed);
  }

  lemma BooksNext(log: seq<nat>, s: State)
    requires Books(s, log) && PcAgrees(s.pc, s.task, s.turn) && s.pc.FinalCommit? && s.pc.code == 0
      && NextQueued(s.instrs) != 0
    ensures Books(WorkEnd(s), log)
  {
    BooksKept(log, s, WorkEnd(s));
  }

  // ------------------------------------------------------------------ The other actions

  lemma AppendedRow(log: seq<nat>, instrs: seq<Instruction>, row: Instruction, pc: Pc)
    requires row.state == Queued && LogAgrees(instrs, log, pc) && InOrder(instrs, log) && !pc.TellStarted?
    ensures var after := instrs + [row];
      && InOrder(after, log) && (forall next: Pc :: !next.TellStarted? ==> LogAgrees(after, log, next))
      && (forall k: nat :: Least(instrs, k) ==> Least(after, k))
  {
    var after := instrs + [row];
    assert forall k: nat :: In(instrs, k) ==> In(after, k) && after[k - 1] == instrs[k - 1];
    assert forall k :: k in log ==> Steers(after, k) == Steers(instrs, k);
    assert forall j: nat :: QueuedAs(after, j, false) ==> QueuedAs(instrs, j, false) || j == |after|;
    assert forall j: nat :: QueuedAs(instrs, j, false) ==> QueuedAs(after, j, false);
  }

  lemma BooksAsk(log: seq<nat>, s: State, mode: Mode)
    requires Books(s, log) && PcAgrees(s.pc, s.task, s.turn) && !EarlySteer(s, Instruct(mode))
    ensures Books(StartInstruction(s, mode), log)
  {
    var t := StartInstruction(s, mode);
    if t != s {
      AppendedRow(log, s.instrs, Instruction(mode, Queued), s.pc);
      forall k: nat | In(t.instrs, k) ensures RowFits(t, k) {
        if In(s.instrs, k) {
          assert RowFits(s, k);
        }
      }
    }
  }

  lemma BooksStartCancel(log: seq<nat>, s: State)
    requires Books(s, log)
    ensures Books(StartCancel(s), log)
  {
    var t := StartCancel(s);
    if t != s {
      BooksKept(log, s, t);
    }
  }

  /** Forgetting monitors and finalizers, and anything that happens to processes and other events. */
  lemma BooksFrame(log: seq<nat>, s: State, t: State)
    requires Books(s, log)
    requires t.up && t.run != FailAtLock && (s.task == Created ==> (t.run == NoRun <==> s.run == NoRun))
    requires t.instrs == s.instrs && t.task == s.task && t.turn == s.turn && t.active == s.active && t.pc == s.pc
    requires forall x :: x in t.monitors ==> x in s.monitors && t.monitors[x] == s.monitors[x]
    requires forall x :: x in t.gaps ==> x in s.gaps && t.gaps[x].next == s.gaps[x].next
    ensures Books(t, log)
  {
    forall k: nat | In(t.instrs, k) ensures RowFits(t, k) {
      assert RowFits(s, k);
    }
  }

  lemma BooksRunLock(log: seq<nat>, s: State)
    requires FirstLaunchAlone(s) && SessionKnown(s) && Books(s, log)
    ensures Books(LockRun(s), log)
  {
    if LockRun(s) != s {
      BooksKept(log, s, LockRun(s));
      assert In(s.instrs, 1) ==> RowFits(s, 1);
    }
  }

  lemma BooksTake(log: seq<nat>, s: State, turn: nat, pc: Pc)
    requires Books(s, log) && s.pc == Free && turn in s.monitors
    requires s.turn == turn && s.task == Running
    requires pc == FinalMark(s.monitors[turn].item, if turn in s.exits then s.exits[turn] else 0)
      || pc == LostMark(s.monitors[turn].item)
    ensures Books(s.(monitors := s.monitors - {turn}, pc := pc), log)
  {
    BooksKept(log, s, s.(monitors := s.monitors - {turn}, pc := pc));
  }

  lemma BooksFinalize(log: seq<nat>, s: State, turn: nat)
    requires Books(s, log)
    ensures Books(StartFinalize(s, turn), log)
  {
    if s.pc == Free && turn in s.monitors && turn in s.exits {
      if s.task == Running && s.turn == turn {
        BooksTake(log, s, turn, FinalMark(s.monitors[turn].item, s.exits[turn]));
      } else {
        BooksFrame(log, s, StartFinalize(s, turn));
      }
    }
  }

  lemma BooksLost(log: seq<nat>, s: State, turn: nat)
    requires Books(s, log)
    ensures Books(StartLost(s, turn), log)
  {
    if s.pc == Free && turn in s.monitors && s.monitors[turn].session !in s.live {
      if s.task == Running && s.turn == turn {
        BooksTake(log, s, turn, LostMark(s.monitors[turn].item));
      } else {
        BooksFrame(log, s, StartLost(s, turn));
      }
    }
  }

  lemma BooksGapLaunch(log: seq<nat>, s: State, turn: nat)
    requires Books(s, log) && turn in s.gaps && s.pc == Free
    requires s.task == Running && s.turn == turn + 1 && s.active == s.gaps[turn].next
    ensures Books(s.(gaps := s.gaps - {turn}, pc := Spawn(ByAppend, s.gaps[turn].next, turn + 1)), log)
  {
    BooksKept(log, s, s.(gaps := s.gaps - {turn}, pc := Spawn(ByAppend, s.gaps[turn].next, turn + 1)));
    assert RowFits(s, s.active);
  }

  lemma BooksAround(log: seq<nat>, s: State, a: Action)
    requires Books(s, log)
    requires a.RunBegin? || a.RunFail? || a.MonitorQuit? || a.GapTell? || a.Submit? || a.Ack? || a.Exit?
      || a.Vanish? || a.Recover?
    ensures Books(Step(s, a), log)
  {
    if a.GapTell? {
      BooksGapTell(log, s, a.turn);
    } else if a.MonitorQuit? {
      BooksFrame(log, s, QuitMonitor(s, a.turn));
    } else {
      BooksWorld(log, s, a);
    }
  }

  lemma BooksGapTell(log: seq<nat>, s: State, turn: nat)
    requires Books(s, log)
    ensures Books(TellGap(s, turn), log)
  {
    BooksFrame(log, s, TellGap(s, turn));
  }

  lemma BooksWorld(log: seq<nat>, s: State, a: Action)
    requires Books(s, log)
    requires a.RunBegin? || a.RunFail? || a.Submit? || a.Ack? || a.Exit? || a.Vanish? || a.Recover?
    ensures Books(Step(s, a), log)
  {
    BooksFrame(log, s, Step(s, a));
  }

  lemma BooksOther(log: seq<nat>, s: State, a: Action)
    requires Scoped(s) && Books(s, log)
    requires !a.Work? && !a.Crash? && !EarlySteer(s, a)
    ensures Books(Step(s, a), log)
  {
    match a {
      case Instruct(mode) => BooksAsk(log, s, mode);
      case Cancel => BooksStartCancel(log, s);
      case RunLock => BooksRunLock(log, s);
      case Finalize(turn) => BooksFinalize(log, s, turn);
      case Lost(turn) => BooksLost(log, s, turn);
      case GapLaunch(turn) => BooksTakeGap(log, s, turn);
      case _ => BooksAround(log, s, a);
    }
  }

  lemma BooksTakeGap(log: seq<nat>, s: State, turn: nat)
    requires Scoped(s) && Books(s, log)
    ensures Books(LaunchGap(s, turn), log)
  {
    if LaunchGap(s, turn).pc.Spawn? && s.pc == Free {
      BooksGapLaunch(log, s, turn);
    } else {
      BooksFrame(log, s, LaunchGap(s, turn));
    }
  }

  lemma BooksWork(log: seq<nat>, s: State, wrote: bool, rc: int)
    requires Scoped(s) && Books(s, log)
    ensures Books(DoWork(s, true, wrote, rc), if s.pc.TellStarted? then log + [s.pc.item] else log)
  {
    match s.pc {
      case Free =>
      case QueuedEvent(_) => BooksInstruct(log, s, wrote, rc);
      case SteerBump(_) => BooksInstruct(log, s, wrote, rc);
      case SteerMark(_, _, _) => BooksSteerMark(log, s);
      case SteerTell(_, _, _) => BooksSteerTell(log, s);
      case SteerKill(_, _) => BooksSteerKill(log, s, wrote, rc);
      case Spawn(_, _, _) => BooksSpawn(log, s);
      case SetRow(_, _) => BooksSpawn(log, s);
      case SetInstr(_, _) => BooksSetInstr(log, s);
      case TellStarted(_, _) => BooksTell(log, s);
      case CancelKill(_) => BooksCancelKill(log, s, wrote, rc);
      case CancelMark(_) => BooksCancelMark(log, s);
      case CancelCommit => BooksCancelCommit(log, s);
      case FinalMark(_, _) => BooksEndMark(log, s);
      case LostMark(_) => BooksEndMark(log, s);
      case LostCommit => BooksFail(log, s);
      case FinalCommit(_, code) =>
        if code != 0 {
          BooksFail(log, s);
        } else if NextQueued(s.instrs) == 0 {
          BooksComplete(log, s);
        } else {
          BooksNext(log, s);
        }
    }
  }

  /** The event the next write of the lock holder enqueues, if it enqueues one. */
  function Written(s: State): Event {
    match s.pc
    case QueuedEvent(item) => TurnQueued(item)
    case SteerTell(item, oldTurn, oldSeq) => TurnSuperseded(oldSeq, oldTurn, item)
    case TellStarted(item, turn) => TurnStarted(item, turn)
    case CancelCommit => Final(Cancelled, 0)
    case FinalCommit(_, code) => Final(if code != 0 then Failed else Completed, s.turn)
    case _ => Final(Failed, s.turn)
  }

  lemma LogWork(s: State, wrote: bool, rc: int)
    ensures Log(DoWork(s, true, wrote, rc).outbox)
         == if s.up && s.pc.TellStarted? then Log(s.outbox) + [s.pc.item] else Log(s.outbox)
  {
    WrittenIsQueued(s, wrote, rc);
    LogEnqueue(s.outbox, Written(s));
    StartsWritten(s);
  }

  lemma StartsWritten(s: State)
    ensures if s.pc.TellStarted? then Written(s) == TurnStarted(s.pc.item, s.pc.turn) else !Written(s).TurnStarted?
  {
  }

  lemma WrittenIsQueued(s: State, wrote: bool, rc: int)
    ensures var after := DoWork(s, true, wrote, rc).outbox;
      if s.up && s.pc.TellStarted? then after == Enqueue(s.outbox, Written(s))
      else after == s.outbox || after == Enqueue(s.outbox, Written(s))
  {
    if !Launches(s.pc) && !Cancels(s.pc) && s.pc != Free {
      WrittenElsewhere(s, wrote, rc);
    }
  }

  lemma WrittenElsewhere(s: State, wrote: bool, rc: int)
    requires !Launches(s.pc) && !Cancels(s.pc) && s.pc != Free
    ensures var after := if Ends(s.pc) then WorkEnd(s).outbox else WorkInstruct(s, wrote, rc).outbox;
      after == s.outbox || after == Enqueue(s.outbox, Written(s))
  {
  }

  lemma LogOther(s: State, a: Action)
    requires !a.Work?
    ensures Log(Step(s, a).outbox) == Log(s.outbox)
  {
    match a {
      case RunBegin => LogEnqueue(s.outbox, TaskStarted);
      case RunFail => LogEnqueue(s.outbox, Final(Failed, 0));
      case Recover => LogEnqueue(s.outbox, Final(Failed, s.turn));
      case Submit(id, turn) => LogEnqueue(s.outbox, Local(id, turn));
      case GapTell(turn) =>
        if turn in s.gaps {
          LogEnqueue(s.outbox, TurnCompleted(s.gaps[turn].doneSeq, turn));
        }
      case Ack(row) =>
        if row < |s.outbox| {
          LogAck(s.outbox, row);
        }
      case _ =>
    }
  }

  lemma BooksStep(s: State, a: Action)
    requires Accounted(s) && !EarlySteer(s, a) && !a.Crash? && (a.Work? ==> a.ok)
    ensures Books(Step(s, a), Log(Step(s, a).outbox))
  {
    if a.Work? {
      BooksWork(Log(s.outbox), s, a.wrote, a.rc);
      LogWork(s, a.wrote, a.rc);
    } else {
      BooksOther(Log(s.outbox), s, a);
      LogOther(s, a);
    }
  }

  /** Each step keeps the account. */
  lemma AccountedStep(s: State, a: Action)
    requires Accounted(s) && !EarlySteer(s, a) && !a.Crash? && (a.Work? ==> a.ok)
    ensures Accounted(Step(s, a))
  {
    BooksStep(s, a);
    ScopedStep(s, a);
  }
}
