/** At most one execution scope per task, and exactly which steer and which crash break that. */
module TaskTurnScopes {
  import opened TaskTurns
  import opened TaskTurnSafety

  // ------------------------------------------------------------------ The invariant

  /** Every live scope belongs to the current turn, or to the turn a steer is about to kill. */
  predicate LiveTurn(s: State) {
    && (forall t :: t in s.live ==> t == if MidSteer(s.pc) then s.pc.oldTurn else s.turn)
    && (forall t :: t in s.exits ==> t <= s.turn && t !in s.live)
    && (MidSteer(s.pc) ==> s.turn !in s.exits && s.pc.oldTurn >= 1)
  }

  predicate Unlaunched(s: State) {
    s.live == {} && s.turn !in s.exits
  }

  /** The points where the current turn cannot have been launched yet. */
  predicate LaunchPending(s: State) {
    && (s.pc.Spawn? ==> Unlaunched(s))
    && (s.run != NoRun ==> Unlaunched(s))
    && (forall t :: t in s.gaps ==> t < s.turn || s.task == Completed)
    && (forall t :: t in s.gaps && t + 1 == s.turn ==> Unlaunched(s) && !MidSteer(s.pc) && !Launches(s.pc))
    && (s.pc.FinalMark? || s.pc.FinalCommit? ==> s.turn in s.exits)
  }

  /** session_id names the turn whose scope is alive; recovery relies on it. */
  predicate SessionKnown(s: State) {
    && (s.task == Created ==> s.session <= 1 && s.active == 1)
    && (s.pc.SteerBump? ==> s.pc.item >= 1)
    && (MidSteer(s.pc) ==> s.active == s.pc.item >= 1)
    && (s.up && Open(s.task) && !s.pc.SetRow? ==> forall t :: t in s.live ==> s.session == t)
  }

  ghost predicate Scoped(s: State) {
    Safe(s) && LiveTurn(s) && LaunchPending(s) && SessionKnown(s)
  }

  lemma AtMostOneLive(s: State)
    requires LiveTurn(s)
    ensures |s.live| <= 1
  {
    var t := if MidSteer(s.pc) then s.pc.oldTurn else s.turn;
    assert s.live <= {t};
    if s.live != {} {
      assert s.live == {t};
    }
  }

  lemma ScopedWork(s: State, ok: bool, wrote: bool, rc: int)
    requires Scoped(s)
    ensures Scoped(DoWork(s, ok, wrote, rc))
  {
    SafeWork(s, ok, wrote, rc);
    if s.up && s.pc != Free {
      if Launches(s.pc) {
        ScopedLaunch(s, ok);
      } else if Cancels(s.pc) {
        ScopedCancel(s, wrote, rc);
      } else if Ends(s.pc) {
        ScopedEnd(s);
      } else if MidSteer(s.pc) {
        ScopedMidSteer(s, wrote, rc);
      } else {
        ScopedInstruct(s, wrote, rc);
      }
    }
  }

  lemma ScopedLaunch(s: State, ok: bool)
    requires Scoped(s) && s.up && Launches(s.pc)
    ensures var t := WorkLaunch(s, ok); LiveTurn(t) && LaunchPending(t) && SessionKnown(t)
  {
  }

  lemma ScopedCancel(s: State, wrote: bool, rc: int)
    requires Scoped(s) && s.up && Cancels(s.pc)
    ensures var t := WorkCancel(s, wrote, rc); LiveTurn(t) && LaunchPending(t) && SessionKnown(t)
  {
  }

  lemma ScopedEnd(s: State)
    requires Scoped(s) && s.up && Ends(s.pc)
    ensures var t := WorkEnd(s); LiveTurn(t) && LaunchPending(t) && SessionKnown(t)
  {
  }

  lemma ScopedInstruct(s: State, wrote: bool, rc: int)
    requires Scoped(s) && s.up && (s.pc.QueuedEvent? || s.pc.SteerBump?)
    ensures var t := WorkInstruct(s, wrote, rc); LiveTurn(t) && LaunchPending(t) && SessionKnown(t)
  {}

  lemma ScopedMidSteer(s: State, wrote: bool, rc: int)
    requires Scoped(s) && s.up && MidSteer(s.pc)
    ensures var t := WorkInstruct(s, wrote, rc); LiveTurn(t) && LaunchPending(t) && SessionKnown(t)
  {
  }

  lemma ScopedStep(s: State, a: Action)
    requires Scoped(s) && !EarlySteer(s, a) && !OrphaningCrash(s, a)
    ensures Scoped(Step(s, a))
  {
    SafeStep(s, a);
    if a.Work? {
      ScopedWork(s, a.ok, a.wrote, a.rc);
    } else if a.Recover? {
      ScopedRecover(s);
    } else if a.Crash? || a.Exit? || a.Vanish? {
      ScopedWorld(s, a);
    } else if a.Submit? || a.Ack? {
    } else if a.Instruct? || a.Cancel? || a.RunBegin? || a.RunLock? || a.RunFail? {
      ScopedRequest(s, a);
    } else if a.GapTell? || a.GapLaunch? {
      ScopedGap(s, a);
    } else {
      ScopedMonitor(s, a);
    }
  }

  lemma ScopedWorld(s: State, a: Action)
    requires Scoped(s) && !OrphaningCrash(s, a)
    requires a.Crash? || a.Exit? || a.Vanish?
    ensures var t := Step(s, a); LiveTurn(t) && LaunchPending(t) && SessionKnown(t)
  {
  }

  lemma ScopedRecover(s: State)
    requires Scoped(s)
    ensures var t := RecoverNow(s); LiveTurn(t) && LaunchPending(t) && SessionKnown(t)
  {
  }

  lemma ScopedRequest(s: State, a: Action)
    requires Scoped(s) && !EarlySteer(s, a)
    requires a.Instruct? || a.Cancel? || a.RunBegin? || a.RunLock? || a.RunFail?
    ensures var t := Step(s, a); LiveTurn(t) && LaunchPending(t) && SessionKnown(t)
  {
  }

  lemma ScopedFinalize(s: State, turn: nat)
    requires Scoped(s)
    ensures var t := StartFinalize(s, turn); LiveTurn(t) && LaunchPending(t) && SessionKnown(t)
  {}

  lemma ScopedLost(s: State, turn: nat)
    requires Scoped(s)
    ensures var t := StartLost(s, turn); LiveTurn(t) && LaunchPending(t) && SessionKnown(t)
  {}

  lemma ScopedMonitor(s: State, a: Action)
    requires Scoped(s)
    requires a.Finalize? || a.Lost? || a.MonitorQuit?
    ensures var t := Step(s, a); LiveTurn(t) && LaunchPending(t) && SessionKnown(t)
  {
    if a.Finalize? {
      ScopedFinalize(s, a.turn);
    } else if a.Lost? {
      ScopedLost(s, a.turn);
    }
  }

  lemma ScopedGapTell(s: State, turn: nat)
    requires Scoped(s)
    ensures var t := TellGap(s, turn); LiveTurn(t) && LaunchPending(t) && SessionKnown(t)
  {
  }

  lemma ScopedGapLaunch(s: State, turn: nat)
    requires Scoped(s)
    ensures var t := LaunchGap(s, turn); LiveTurn(t) && LaunchPending(t) && SessionKnown(t)
  {}

  lemma ScopedGap(s: State, a: Action)
    requires Scoped(s) && (a.GapTell? || a.GapLaunch?)
    ensures var t := Step(s, a); LiveTurn(t) && LaunchPending(t) && SessionKnown(t)
  {
    if a.GapTell? {
      ScopedGapTell(s, a.turn);
    } else {
      ScopedGapLaunch(s, a.turn);
    }
  }

  /** Over any number of crashes and recoveries, at most one turn's scope is live at any time. */
  lemma {:induction false} OneScopeLive(s: State, acts: seq<Action>)
    requires Scoped(s) && NoEarlySteer(s, acts) && NoOrphan(s, acts)
    ensures Scoped(Run(s, acts)) && |Run(s, acts).live| <= 1
    decreases |acts|
  {
    if acts == [] {
      AtMostOneLive(s);
    } else {
      ScopedStep(s, acts[0]);
      OneScopeLive(Step(s, acts[0]), acts[1..]);
    }
  }

  lemma InitIsScoped()
    ensures Scoped(Init)
  {}

  // ------------------------------------------------------------------ The two guards are exact

  const Go: Action := Work(true, false, 0)

  /** Action sequences in which no client asks for anything and nothing crashes. */
  predicate Quiet(acts: seq<Action>) {
    forall a :: a in acts ==> !a.Instruct? && !a.Crash?
  }

  lemma {:induction false} QuietIsGuarded(s: State, acts: seq<Action>)
    requires Quiet(acts)
    ensures NoEarlySteer(s, acts) && NoOrphan(s, acts)
    decreases |acts|
  {
    if acts != [] {
      assert acts[0] in acts && forall a :: a in acts[1..] ==> a in acts;
      QuietIsGuarded(Step(s, acts[0]), acts[1..]);
    }
  }

  /** A result of a superseded turn, or the failure of a launch that a steer has overtaken, ends the task. */
  ghost predicate Overtaken(s: State, turn: nat) {
    exists i: nat :: FinalAt(s.outbox, i) && s.outbox[i].event.kind != Cancelled && s.outbox[i].event.turn <= turn
  }

  /** A steer past its turn bump, left alone, kills the superseded scope ... */
  lemma SteerKills(s: State) returns (t: State)
    requires s.up && s.pc.SteerMark? && NoFinal(s.outbox)
    ensures Run(s, [Go] + ([Go] + ([Go] + []))) == t
    ensures t == s.(pc := Spawn(BySteer, s.pc.item, s.turn), live := s.live - {s.pc.oldTurn},
                    instrs := t.instrs, outbox := t.outbox)
    ensures NoFinal(t.outbox)
  {
    var marked := SteerGoes(s, [Go, Go]);
    var told := SteerGoes(marked, [Go]);
    EnqueueKeepsFinals(s.outbox, TurnSuperseded(s.pc.oldSeq, s.pc.oldTurn, s.pc.item), Running, 1);
    t := SteerGoes(told, []);
  }

  lemma SteerGoes(s: State, rest: seq<Action>) returns (t: State)
    requires s.up && MidSteer(s.pc)
    ensures t == WorkInstruct(s, false, 0) && Run(s, [Go] + rest) == Run(t, rest)
  {
    t := WorkInstruct(s, false, 0);
    RunStep(s, Go, rest);
  }

  /** ... and a launch, left alone, starts its turn. */
  lemma LaunchGoes(s: State) returns (t: State)
    requires s.up && s.pc.Spawn? && NoFinal(s.outbox) && s.pc.turn !in s.live
    ensures Run(s, [Go, Go, Go, Go]) == t
    ensures t == s.(pc := Free, task := Running, session := s.pc.turn, turn := s.pc.turn, active := s.pc.item,
                    live := s.live + {s.pc.turn},
                    instrs := t.instrs, outbox := t.outbox, monitors := t.monitors)
    ensures NoFinal(t.outbox)
  {
    var spawned := WorkLaunch(s, true);
    var rowed := WorkLaunch(spawned, true);
    var flagged := WorkLaunch(rowed, true);
    EnqueueKeepsFinals(s.outbox, TurnStarted(s.pc.item, s.pc.turn), Running, 1);
    t := WorkLaunch(flagged, true);
    RunStep(s, Go, [Go, Go, Go]);
    RunStep(spawned, Go, [Go, Go]);
    RunStep(rowed, Go, [Go]);
    RunStep(flagged, Go, []);
  }

  /** An outstanding first launch that fails commits the failure, whatever has happened to the task. */
  lemma FirstLaunchFails(s: State) returns (acts: seq<Action>)
    requires s.up && s.pc == Free && s.run != NoRun && s.task == Running && NoFinal(s.outbox)
    ensures Quiet(acts)
    ensures var t := Run(s, acts); Overtaken(t, 0) && t.task == Failed && t.live == s.live && t.turn == s.turn
  {
    if s.run == Scheduled {
      var s1 := BeginRun(s);
      EnqueueKeepsFinals(s.outbox, TaskStarted, Running, 1);
      var tail := LockFails(s1);
      acts := [RunBegin] + tail;
      RunStep(s, RunBegin, tail);
    } else if s.run == AtLock {
      acts := LockFails(s);
    } else {
      acts := FailCommits(s);
    }
  }

  lemma FailCommits(s: State) returns (acts: seq<Action>)
    requires s.up && s.pc == Free && s.run == FailAtLock && s.task == Running && NoFinal(s.outbox)
    ensures Quiet(acts)
    ensures var t := Run(s, acts); Overtaken(t, 0) && t.task == Failed && t.live == s.live && t.turn == s.turn
  {
    CommitAgrees(s.outbox, Failed, 1, 0);
    acts := [RunFail];
    RunStep(s, RunFail, []);
    assert [RunFail] + [] == acts;
  }

  lemma LockFails(s: State) returns (acts: seq<Action>)
    requires s.up && s.pc == Free && s.run == AtLock && s.task == Running && NoFinal(s.outbox)
    ensures Quiet(acts)
    ensures var t := Run(s, acts); Overtaken(t, 0) && t.task == Failed && t.live == s.live && t.turn == s.turn
  {
    var locked := LockRun(s);
    var refused := WorkLaunch(locked, false);
    var tail := FailCommits(refused);
    RunStep(locked, Work(false, false, 0), tail);
    RunStep(s, RunLock, [Work(false, false, 0)] + tail);
    acts := [RunLock] + ([Work(false, false, 0)] + tail);
  }

  /** The steer's request done up to its turn bump. */
  function Bumped(s: State): State {
    Step(Step(s, Instruct(Steer)), Go)
  }

  const Kills: seq<Action> := [Go] + ([Go] + ([Go] + []))
  const Launch: seq<Action> := [Go, Go, Go, Go]

  /** From a bumped steer of a task with no other work: its own turn is running and the old scope is dead. */
  lemma SteerCompletes(s: State) returns (t: State)
    requires s.up && s.pc.SteerMark? && NoFinal(s.outbox) && s.turn !in s.live
    ensures Run(s, Kills + Launch) == t && Quiet(Kills + Launch)
    ensures t == s.(pc := Free, task := Running, session := s.turn, active := s.pc.item,
                    live := s.live - {s.pc.oldTurn} + {s.turn},
                    instrs := t.instrs, outbox := t.outbox, monitors := t.monitors)
    ensures NoFinal(t.outbox)
  {
    var killed := SteerKills(s);
    t := LaunchGoes(killed);
    RunConcat(s, Kills, Launch);
  }

  lemma EarlySteerOvertaken(s: State) returns (acts: seq<Action>)
    requires Scoped(s) && EarlySteer(s, Instruct(Steer))
    ensures Quiet(acts)
    ensures var t := Run(Bumped(s), acts);
      Overtaken(t, s.turn) && t.task == Failed && t.live == {2}
  {
    var launched := SteerCompletes(Bumped(s));
    var rest := FirstLaunchFails(launched);
    acts := Kills + Launch + rest;
    RunConcat(Bumped(s), Kills + Launch, rest);
  }

  /** A steer keeps its promise in every continuation exactly when it is not early: a worker that
      handles it while the first launch is outstanding can still end the task with turn 1's outcome. */
  lemma SteerSafeExactly(s: State)
    requires Scoped(s) && s.up && s.pc == Free && Open(s.task)
    ensures EarlySteer(s, Instruct(Steer)) <==>
      exists acts :: NoEarlySteer(Bumped(s), acts) && Overtaken(Run(Bumped(s), acts), s.turn)
  {
    if EarlySteer(s, Instruct(Steer)) {
      var acts := EarlySteerOvertaken(s);
      QuietIsGuarded(Bumped(s), acts);
    } else {
      SafeStep(s, Instruct(Steer));
      forall acts | NoEarlySteer(Bumped(s), acts)
        ensures !Overtaken(Run(Bumped(s), acts), s.turn)
      {
        forall i: nat | FinalAt(Run(Bumped(s), acts).outbox, i)
          ensures Run(Bumped(s), acts).outbox[i].event.kind == Cancelled
              || Run(Bumped(s), acts).outbox[i].event.turn > s.turn
        {
          SupersededTurnNeverFinal(Step(s, Instruct(Steer)), true, false, 0, acts, i);
        }
      }
    }
  }

  lemma FirstLaunchRuns(s: State) returns (acts: seq<Action>)
    requires s.up && s.pc == Free && (s.run == Scheduled || s.run == AtLock) && s.task == Running && 1 !in s.live
    ensures Quiet(acts)
    ensures var t := Run(s, acts); t.live == s.live + {1} && t.turn == 1
  {
    var atLock := if s.run == Scheduled then Step(s, RunBegin) else s;
    var locked := LockRun(atLock);
    var spawned := WorkLaunch(locked, true);
    var back := WorkLaunch(spawned, true);
    RunStep(spawned, Go, []);
    RunStep(locked, Go, [Go] + []);
    acts := [RunLock] + ([Go] + ([Go] + []));
    RunStep(atLock, RunLock, [Go] + ([Go] + []));
    if s.run == Scheduled {
      RunStep(s, RunBegin, acts);
      acts := [RunBegin] + acts;
    }
  }

  /** Unless the first launch has already failed, an early steer can also leave two scopes live and
      turn the task back to turn 1. */
  lemma EarlySteerOverlaps(s: State) returns (acts: seq<Action>)
    requires Scoped(s) && EarlySteer(s, Instruct(Steer)) && s.run != FailAtLock
    ensures Quiet(acts)
    ensures var t := Run(Bumped(s), acts); t.live == {1, 2} && t.turn == 1
  {
    var launched := SteerCompletes(Bumped(s));
    var rest := FirstLaunchRuns(launched);
    acts := Kills + Launch + rest;
    RunConcat(Bumped(s), Kills + Launch, rest);
  }

  lemma OrphanAdopted(s: State)
    requires Scoped(s) && OrphaningCrash(s, Crash)
    ensures var t := RecoverNow(CrashNow(s));
      && t.up && t.pc == Free && t.task == Running && t.active >= 1 && NoFinal(t.outbox)
      && t.live == {s.pc.oldTurn} && t.turn == s.pc.oldTurn + 1 == t.session + 1
  {
  }

  /** Recovery adopts the session recorded in the row, which is the superseded turn's; the next steer
      kills the scope of the turn that was never launched, and two turns run at once. */
  lemma OrphanOverlaps(s: State) returns (acts: seq<Action>)
    requires Scoped(s) && OrphaningCrash(s, Crash)
    ensures NoEarlySteer(Step(s, Crash), acts) && NoOrphan(Step(s, Crash), acts)
    ensures Run(Step(s, Crash), acts).live == {s.pc.oldTurn, s.pc.oldTurn + 2}
  {
    OrphanAdopted(s);
    var recovered := RecoverNow(CrashNow(s));
    var rest := NextSteerOverlaps(recovered);
    acts := [Recover] + ([Instruct(Steer)] + rest);
    SteerAfterRecovery(CrashNow(s), recovered, rest);
  }

  lemma SteerAfterRecovery(crashed: State, recovered: State, rest: seq<Action>)
    requires Step(crashed, Recover) == recovered && recovered.up && recovered.pc == Free && recovered.task == Running
    requires Quiet(rest)
    ensures var acts := [Recover] + ([Instruct(Steer)] + rest);
      && NoEarlySteer(crashed, acts) && NoOrphan(crashed, acts)
      && Run(crashed, acts) == Run(Step(recovered, Instruct(Steer)), rest)
  {
    var after := [Instruct(Steer)] + rest;
    assert after[1..] == rest && ([Recover] + after)[1..] == after;
    RunStep(crashed, Recover, after);
    RunStep(recovered, Instruct(Steer), rest);
    QuietIsGuarded(Step(recovered, Instruct(Steer)), rest);
  }

  lemma NextSteerOverlaps(s: State) returns (acts: seq<Action>)
    requires s.up && s.pc == Free && s.task == Running && s.active >= 1 && NoFinal(s.outbox)
    requires s.turn !in s.live && s.turn + 1 !in s.live
    ensures Quiet(acts)
    ensures Run(Step(s, Instruct(Steer)), acts).live == s.live + {s.turn + 1}
  {
    var asked := StartInstruction(s, Steer);
    var bumped := WorkInstruct(asked, false, 0);
    SteerBegins(s);
    var done := SteerCompletes(bumped);
    RunStep(asked, Go, Kills + Launch);
    acts := [Go] + (Kills + Launch);
  }

  lemma SteerBegins(s: State)
    requires s.up && s.pc == Free && s.task == Running && s.active >= 1
    ensures var asked := StartInstruction(s, Steer); var bumped := WorkInstruct(asked, false, 0);
      && Step(s, Instruct(Steer)) == asked && asked.pc.SteerBump? && Step(asked, Go) == bumped
      && bumped.up && bumped.pc.SteerMark? && bumped.outbox == s.outbox && bumped.live == s.live
      && bumped.turn == s.turn + 1 && bumped.pc.oldTurn == s.turn
  {}

  /** A crash can lead to two live scopes exactly when it orphans the scope that a steer was about to kill. */
  lemma CrashSafeExactly(s: State)
    requires Scoped(s)
    ensures OrphaningCrash(s, Crash) <==>
      exists acts ::
        && NoEarlySteer(Step(s, Crash), acts) && NoOrphan(Step(s, Crash), acts)
        && |Run(Step(s, Crash), acts).live| >= 2
  {
    if OrphaningCrash(s, Crash) {
      var acts := OrphanOverlaps(s);
      assert |{s.pc.oldTurn, s.pc.oldTurn + 2}| == 2;
    } else {
      ScopedStep(s, Crash);
      forall acts | NoEarlySteer(Step(s, Crash), acts) && NoOrphan(Step(s, Crash), acts)
        ensures |Run(Step(s, Crash), acts).live| <= 1
      {
        OneScopeLive(Step(s, Crash), acts);
      }
    }
  }
}
