/** Who takes an open task further, and exactly when nobody does. */
module TaskTurnOwners {
  import opened TaskTurns
  import opened TaskTurnSafety
  import opened TaskTurnScopes
  import opened TaskTurnMonitors

  /** A finalizer that has chosen the row the task is working on. */
  predicate Continues(s: State) {
    s.turn >= 1 && s.turn - 1 in s.gaps && s.gaps[s.turn - 1].next == s.active != 0
  }

  predicate Holds(pc: Pc) {
    pc.SteerBump? || MidSteer(pc) || Launches(pc) || Ends(pc)
  }

  predicate Owned(s: State) {
    Holds(s.pc) || s.run != NoRun || s.turn in s.monitors || Continues(s)
  }

  /** An open task of a running worker has an owner; a steer that nobody completes is not mistaken for a turn. */
  predicate Attended(s: State) {
    && (s.up && Open(s.task) ==> Owned(s))
    && (s.up && s.task == Steering ==> MidSteer(s.pc) || Launches(s.pc))
    && (!s.up && s.task == Steering ==> Unlaunched(s))
  }

  ghost predicate Minded(s: State) {
    Scoped(s) && Attended(s) && MonitorsFit(s)
  }

  /** tmux refuses a launch that is not the first. */
  predicate FailedLaunch(s: State, a: Action) {
    a.Work? && !a.ok && s.up && s.pc.Spawn? && s.pc.origin != ByRunTask
  }

  /** A crash between the start of a steer's process and the row that says so. */
  predicate HangingCrash(s: State, a: Action) {
    a == Crash && s.pc.SetRow? && s.task == Steering && (s.turn in s.live || s.turn in s.exits)
  }

  lemma MindedWork(s: State, a: Action)
    requires Minded(s) && a.Work? && !FailedLaunch(s, a)
    ensures Attended(Step(s, a))
  {
    if s.up && s.pc != Free {
      if Launches(s.pc) {
        MindedLaunch(s, a.ok);
      } else if Cancels(s.pc) {
        MindedCancel(s, a.wrote, a.rc);
      } else if Ends(s.pc) {
        MindedEnd(s);
      } else {
        MindedInstruct(s, a.wrote, a.rc);
      }
    }
  }

  lemma MindedLaunch(s: State, ok: bool)
    requires Minded(s) && s.up && Launches(s.pc) && (s.pc.Spawn? && !ok ==> s.pc.origin == ByRunTask)
    ensures Attended(WorkLaunch(s, ok))
  {
  }

  lemma MindedCancel(s: State, wrote: bool, rc: int)
    requires Minded(s) && s.up && Cancels(s.pc)
    ensures Attended(WorkCancel(s, wrote, rc))
  {
  }

  lemma MindedEnd(s: State)
    requires Minded(s) && s.up && Ends(s.pc)
    ensures Attended(WorkEnd(s))
  {
  }

  lemma MindedInstruct(s: State, wrote: bool, rc: int)
    requires Minded(s) && s.up && (s.pc.QueuedEvent? || s.pc.SteerBump? || MidSteer(s.pc))
    ensures Attended(WorkInstruct(s, wrote, rc))
  {
  }

  lemma MindedRequest(s: State, a: Action)
    requires Minded(s) && !EarlySteer(s, a)
    requires a.Instruct? || a.Cancel? || a.RunBegin? || a.RunLock? || a.RunFail?
    ensures Attended(Step(s, a))
  {
  }

  lemma MindedMonitor(s: State, a: Action)
    requires Minded(s)
    requires a.Finalize? || a.Lost? || a.MonitorQuit? || a.GapTell? || a.GapLaunch?
    ensures Attended(Step(s, a))
  {
  }

  lemma MindedWorld(s: State, a: Action)
    requires Minded(s) && !OrphaningCrash(s, a) && !HangingCrash(s, a)
    requires a.Submit? || a.Ack? || a.Exit? || a.Vanish? || a.Crash? || a.Recover?
    ensures Attended(Step(s, a))
  {
  }

  lemma MindedStep(s: State, a: Action)
    requires Minded(s)
    requires !EarlySteer(s, a) && !OrphaningCrash(s, a) && !FailedLaunch(s, a) && !HangingCrash(s, a)
    ensures Minded(Step(s, a))
  {
    ScopedStep(s, a);
    MonitorsStep(s, a);
    match a {
      case Work(_, _, _) => MindedWork(s, a);
      case Finalize(_) => MindedMonitor(s, a);
      case Lost(_) => MindedMonitor(s, a);
      case MonitorQuit(_) => MindedMonitor(s, a);
      case GapTell(_) => MindedMonitor(s, a);
      case GapLaunch(_) => MindedMonitor(s, a);
      case Submit(_, _) => MindedWorld(s, a);
      case Ack(_) => MindedWorld(s, a);
      case Exit(_, _) => MindedWorld(s, a);
      case Vanish(_) => MindedWorld(s, a);
      case Crash => MindedWorld(s, a);
      case Recover => MindedWorld(s, a);
      case _ => MindedRequest(s, a);
    }
  }

  // ------------------------------------------------------------------ Over whole runs

  predicate Mishap(s: State, a: Action) {
    EarlySteer(s, a) || OrphaningCrash(s, a) || FailedLaunch(s, a) || HangingCrash(s, a)
  }

  predicate NoMishap(s: State, acts: seq<Action>)
    decreases |acts|
  {
    acts == [] || (!Mishap(s, acts[0]) && NoMishap(Step(s, acts[0]), acts[1..]))
  }

  lemma {:induction false} MindedRun(s: State, acts: seq<Action>)
    requires Minded(s) && NoMishap(s, acts)
    ensures Minded(Run(s, acts))
    decreases |acts|
  {
    if acts != [] {
      MindedStep(s, acts[0]);
      MindedRun(Step(s, acts[0]), acts[1..]);
    }
  }

  lemma InitIsMinded()
    ensures Minded(Init)
  {
    InitIsScoped();
  }

  /** While the worker runs, an open task is in the hands of the lock holder, the first launch, the monitor of its turn
      or the finalizer that chose its row, through all crashes and recoveries. */
  lemma AlwaysOwned(acts: seq<Action>)
    requires NoMishap(Init, acts)
    ensures var s := Run(Init, acts); s.up && Open(s.task) ==> Owned(s)
  {
    InitIsMinded();
    MindedRun(Init, acts);
  }

  // ------------------------------------------------------------------ Neglected tasks

  /** Open, and nobody is left to do anything about it. */
  predicate Neglected(s: State) {
    && s.up && Open(s.task) && !Owned(s) && (s.pc.Free? || s.pc.QueuedEvent?)
    && forall t :: t in s.gaps ==> t + 1 != s.turn
  }

  lemma NeglectedStep(s: State, a: Action)
    requires Neglected(s) && !a.Cancel? && !a.Crash? && a != Instruct(Steer)
    ensures Neglected(Step(s, a)) && Step(s, a).task == s.task && Step(s, a).live <= s.live
  {
  }

  /** Appends change nothing about that: until a steer, a cancellation or a restart the task stays as it is, and nothing
      is launched for it. */
  lemma {:induction false} NeglectedStays(s: State, acts: seq<Action>)
    requires Neglected(s) && forall a :: a in acts ==> !a.Cancel? && !a.Crash? && a != Instruct(Steer)
    ensures Neglected(Run(s, acts)) && Run(s, acts).task == s.task && Run(s, acts).live <= s.live
    decreases |acts|
  {
    if acts != [] {
      NeglectedStep(s, acts[0]);
      NeglectedStays(Step(s, acts[0]), acts[1..]);
    }
  }

  lemma FailedLaunchNeglects(s: State, a: Action)
    requires Minded(s) && FailedLaunch(s, a)
    ensures Neglected(Step(s, a))
  {
  }

  lemma HangingCrashRecovers(s: State)
    requires Minded(s) && HangingCrash(s, Crash)
    ensures var exited := ExitTurn(CrashNow(s), s.turn, 0); var recovered := RecoverNow(exited);
      && !exited.up && recovered.pc == Free && recovered.run == NoRun
      && Neglected(StartFinalize(recovered, s.turn))
  {
    var exited := ExitTurn(CrashNow(s), s.turn, 0);
    assert exited.turn in exited.exits && exited.task == Steering;
  }

  lemma HangingCrashNeglects(s: State) returns (acts: seq<Action>)
    requires Minded(s) && HangingCrash(s, Crash)
    ensures NoMishap(Step(s, Crash), acts) && Neglected(Run(Step(s, Crash), acts))
  {
    HangingCrashRecovers(s);
    var crashed := CrashNow(s);
    var exited := ExitTurn(crashed, s.turn, 0);
    var rest := FinalizeAfter(exited, s.turn);
    acts := [Exit(s.turn, 0)] + rest;
    ThenRun(crashed, Exit(s.turn, 0), rest);
  }

  lemma FinalizeAfter(exited: State, turn: nat) returns (acts: seq<Action>)
    requires !exited.up && RecoverNow(exited).pc == Free && RecoverNow(exited).run == NoRun
    ensures NoMishap(exited, acts) && Run(exited, acts) == StartFinalize(RecoverNow(exited), turn)
  {
    var recovered := RecoverNow(exited);
    ThenRun(recovered, Finalize(turn), []);
    ThenRun(exited, Recover, [Finalize(turn)] + []);
    acts := [Recover] + ([Finalize(turn)] + []);
  }

  lemma ThenRun(s: State, a: Action, rest: seq<Action>)
    requires !Mishap(s, a) && NoMishap(Step(s, a), rest)
    ensures Run(s, [a] + rest) == Run(Step(s, a), rest) && NoMishap(s, [a] + rest)
  {
    assert ([a] + rest)[1..] == rest;
  }

  /** This run, without a further mishap, ends with the task in nobody's hands. */
  predicate EndsNeglected(s: State, acts: seq<Action>) {
    NoMishap(s, acts) && Neglected(Run(s, acts))
  }

  /** A step can leave a task to nobody exactly when it is the failed launch of a steer or a continuation, or a crash
      between the start of a steer's process and the row that says so. */
  lemma NeglectExactly(s: State, a: Action)
    requires Minded(s) && !EarlySteer(s, a) && !OrphaningCrash(s, a)
    ensures FailedLaunch(s, a) || HangingCrash(s, a) <==> exists acts :: EndsNeglected(Step(s, a), acts)
  {
    if FailedLaunch(s, a) {
      FailedLaunchNeglects(s, a);
      assert EndsNeglected(Step(s, a), []);
    } else if HangingCrash(s, a) {
      var acts := HangingCrashNeglects(s);
      assert EndsNeglected(Step(s, a), acts);
    } else {
      MindedStep(s, a);
      forall acts | NoMishap(Step(s, a), acts) ensures !EndsNeglected(Step(s, a), acts) {
        MindedRun(Step(s, a), acts);
      }
    }
  }
}
