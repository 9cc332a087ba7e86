/** When a task that has ended has no process left. */
module TaskTurnEndings {
  import opened TaskTurns
  import opened TaskTurnSafety
  import opened TaskTurnScopes
  import opened TaskTurnMonitors

  /** Whatever reports the end of the task comes after the end of its process, and a stopped worker has recorded the
      session of the process it left running. */
  predicate Settled(s: State) {
    && (s.task.Terminal() || s.pc.CancelMark? || s.pc.CancelCommit? || s.pc.LostMark? || s.pc.LostCommit? ==>
          s.live == {})
    && (!s.up && Open(s.task) ==> forall t :: t in s.live ==> t == if s.session != 0 then s.session else s.turn)
  }

  ghost predicate Tidy(s: State) {
    Scoped(s) && MonitorsFit(s) && Settled(s)
  }

  /** A crash that leaves a process running whose session is not the one recorded in the row. */
  predicate StrayCrash(s: State, a: Action) {
    a == Crash && s.pc.SetRow? && s.turn in s.live && s.session != 0 && s.session != s.turn
  }

  lemma SettleWork(s: State, a: Action)
    requires Tidy(s) && a.Work?
    ensures Settled(Step(s, a))
  {
    if s.up && s.pc != Free {
      if Launches(s.pc) {
        assert Settled(WorkLaunch(s, a.ok));
      } else if Cancels(s.pc) {
        assert Settled(WorkCancel(s, a.wrote, a.rc));
      } else if Ends(s.pc) {
        assert Settled(WorkEnd(s));
      } else {
        SettleInstruct(s, a.wrote, a.rc);
      }
    }
  }

  lemma SettleInstruct(s: State, wrote: bool, rc: int)
    requires Tidy(s) && s.up && (s.pc.QueuedEvent? || s.pc.SteerBump? || MidSteer(s.pc))
    ensures Settled(WorkInstruct(s, wrote, rc))
  {
  }

  lemma SettleRequest(s: State, a: Action)
    requires Tidy(s) && !EarlySteer(s, a)
    requires a.Instruct? || a.Cancel? || a.RunBegin? || a.RunLock? || a.RunFail?
    ensures Settled(Step(s, a))
  {
  }

  lemma SettleMonitor(s: State, a: Action)
    requires Tidy(s)
    requires a.Finalize? || a.Lost? || a.MonitorQuit? || a.GapTell? || a.GapLaunch?
    ensures Settled(Step(s, a))
  {
  }

  lemma SettleWorld(s: State, a: Action)
    requires Tidy(s) && !OrphaningCrash(s, a) && !StrayCrash(s, a)
    requires a.Submit? || a.Ack? || a.Exit? || a.Vanish? || a.Crash? || a.Recover?
    ensures Settled(Step(s, a))
  {
  }

  lemma TidyStep(s: State, a: Action)
    requires Tidy(s) && !EarlySteer(s, a) && !OrphaningCrash(s, a) && !StrayCrash(s, a)
    ensures Tidy(Step(s, a))
  {
    ScopedStep(s, a);
    MonitorsStep(s, a);
    if a.Work? {
      SettleWork(s, a);
    } else if a.Instruct? || a.Cancel? || a.RunBegin? || a.RunLock? || a.RunFail? {
      SettleRequest(s, a);
    } else if a.Finalize? || a.Lost? || a.MonitorQuit? || a.GapTell? || a.GapLaunch? {
      SettleMonitor(s, a);
    } else {
      SettleWorld(s, a);
    }
  }

  predicate NoStray(s: State, acts: seq<Action>)
    decreases |acts|
  {
    acts == [] || (!StrayCrash(s, acts[0]) && NoStray(Step(s, acts[0]), acts[1..]))
  }

  predicate Guarded(s: State, acts: seq<Action>) {
    NoEarlySteer(s, acts) && NoOrphan(s, acts) && NoStray(s, acts)
  }

  lemma {:induction false} TidyRun(s: State, acts: seq<Action>)
    requires Tidy(s) && Guarded(s, acts)
    ensures Tidy(Run(s, acts))
    decreases |acts|
  {
    if acts != [] {
      TidyStep(s, acts[0]);
      TidyRun(Step(s, acts[0]), acts[1..]);
    }
  }

  lemma EndedMeansDead(acts: seq<Action>)
    requires Guarded(Init, acts)
    ensures Run(Init, acts).task.Terminal() ==> Run(Init, acts).live == {}
  {
    InitIsScoped();
    TidyRun(Init, acts);
  }

  /** Ended, and a process of it goes on. */
  predicate EndsAlive(s: State, acts: seq<Action>) {
    Guarded(s, acts) && Run(s, acts).task.Terminal() && Run(s, acts).live != {}
  }

  /** A step can lead to an ended task with a live process exactly when it is such a crash: recovery looks for the
      session in the row, does not find it, and fails the task. */
  lemma StrayExactly(s: State, a: Action)
    requires Tidy(s) && !EarlySteer(s, a) && !OrphaningCrash(s, a)
    ensures StrayCrash(s, a) <==> exists acts :: EndsAlive(Step(s, a), acts)
  {
    if StrayCrash(s, a) {
      StrayFails(s);
      assert EndsAlive(Step(s, a), [Recover]);
    } else {
      TidyStep(s, a);
      forall acts | Guarded(Step(s, a), acts) ensures !EndsAlive(Step(s, a), acts) {
        TidyRun(Step(s, a), acts);
      }
    }
  }

  lemma StrayFails(s: State)
    requires Tidy(s) && StrayCrash(s, Crash)
    ensures EndsAlive(CrashNow(s), [Recover])
  {
    var t := RecoverNow(CrashNow(s));
    assert [Recover][1..] == [] && t.task == Failed && t.live == s.live;
  }
}
