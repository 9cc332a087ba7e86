/** Monitors come with the turn they watch and know its session: a turn has no monitor before it runs, the session of a
    monitor is the one recorded in the row. The lemmas are used to show who takes a task further (TaskTurnOwners) and
    what is left when it has ended (TaskTurnEndings). */
module TaskTurnMonitors {
  import opened TaskTurns
  import opened TaskTurnSafety
  import opened TaskTurnScopes

  predicate MonitorsFit(s: State) {
    && (forall t :: t in s.monitors ==> t <= s.turn)
    && (MidSteer(s.pc) || Launches(s.pc) ==> s.turn !in s.monitors)
    && (forall t :: t in s.gaps && t + 1 == s.turn ==> s.turn !in s.monitors)
    && (s.pc.SetInstr? || s.pc.TellStarted? ==> s.session == s.turn)
    && (s.turn in s.monitors && Open(s.task) ==> s.monitors[s.turn].session == s.session)
  }

  lemma MonitorsStep(s: State, a: Action)
    requires Scoped(s) && MonitorsFit(s) && !EarlySteer(s, a)
    ensures MonitorsFit(Step(s, a))
  {
    if a.Work? {
      MonitorsWork(s, a);
    } else if a.Finalize? || a.Lost? || a.MonitorQuit? || a.GapTell? || a.GapLaunch? {
      MonitorsWatch(s, a);
    }
  }

  lemma MonitorsWork(s: State, a: Action)
    requires Scoped(s) && MonitorsFit(s) && a.Work?
    ensures MonitorsFit(Step(s, a))
  {
    if s.up && s.pc != Free {
      if Launches(s.pc) {
        MonitorsLaunch(s, a.ok);
      } else if Ends(s.pc) {
        MonitorsEnd(s);
      } else if !Cancels(s.pc) {
        MonitorsInstruct(s, a.wrote, a.rc);
      } else {
        assert MonitorsFit(WorkCancel(s, a.wrote, a.rc));
      }
    }
  }

  lemma MonitorsLaunch(s: State, ok: bool)
    requires Scoped(s) && MonitorsFit(s) && s.up && Launches(s.pc)
    ensures MonitorsFit(WorkLaunch(s, ok))
  {
  }

  lemma MonitorsEnd(s: State)
    requires Scoped(s) && MonitorsFit(s) && s.up && Ends(s.pc)
    ensures MonitorsFit(WorkEnd(s))
  {
  }

  lemma MonitorsInstruct(s: State, wrote: bool, rc: int)
    requires Scoped(s) && MonitorsFit(s) && s.up && (s.pc.QueuedEvent? || s.pc.SteerBump? || MidSteer(s.pc))
    ensures MonitorsFit(WorkInstruct(s, wrote, rc))
  {
  }

  lemma MonitorsWatch(s: State, a: Action)
    requires Scoped(s) && MonitorsFit(s)
    requires a.Finalize? || a.Lost? || a.MonitorQuit? || a.GapTell? || a.GapLaunch?
    ensures MonitorsFit(Step(s, a))
  {
  }
}
