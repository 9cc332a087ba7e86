/** Instructions over whole runs: launched once, in order, and all of them. */
module TaskTurnLaunches {
  import opened TaskTurns
  import opened TaskTurnSafety
  import opened TaskTurnScopes
  import opened TaskTurnQueue

  /** No crash, and every launch succeeds. */
  predicate Smooth(acts: seq<Action>) {
    forall a :: a in acts ==> !a.Crash? && (a.Work? ==> a.ok)
  }

  lemma {:induction false} AccountedRun(s: State, acts: seq<Action>)
    requires Accounted(s) && Smooth(acts) && NoEarlySteer(s, acts)
    ensures Accounted(Run(s, acts))
    decreases |acts|
  {
    if acts != [] {
      assert acts[0] in acts && forall a :: a in acts[1..] ==> a in acts;
      AccountedStep(s, acts[0]);
      AccountedRun(Step(s, acts[0]), acts[1..]);
    }
  }

  lemma InitIsAccounted()
    ensures Accounted(Init)
  {
    InitIsScoped();
  }

  /** Each accepted instruction is launched at most once, and appends launch in sequence order,
      also across the gap in which the finalizer has chosen one and does not hold the lock. */
  lemma LaunchedOnceInOrder(acts: seq<Action>)
    requires Smooth(acts) && NoEarlySteer(Init, acts)
    ensures var s := Run(Init, acts); var log := Log(s.outbox);
      && (forall i, j :: 0 <= i < j < |log| ==> log[i] != log[j])
      && (forall i, j :: 0 <= i < j < |log| && !Steers(s.instrs, log[i]) && !Steers(s.instrs, log[j])
            ==> log[i] < log[j])
      && (forall k :: k in log ==> In(s.instrs, k) && s.instrs[k - 1].state != Queued)
  {
    InitIsAccounted();
    AccountedRun(Init, acts);
  }

  /** A task completes only when every accepted instruction has been launched exactly once. */
  lemma CompletedLosesNothing(acts: seq<Action>)
    requires Smooth(acts) && NoEarlySteer(Init, acts) && Run(Init, acts).task == Completed
    ensures var s := Run(Init, acts); var log := Log(s.outbox);
      && (forall k: nat :: 1 <= k <= |s.instrs| ==>
           k in log && (s.instrs[k - 1].state == Done || s.instrs[k - 1].state == Superseded))
      && (forall i, j :: 0 <= i < j < |log| ==> log[i] != log[j])
  {
    InitIsAccounted();
    AccountedRun(Init, acts);
    var s := Run(Init, acts);
    var log := Log(s.outbox);
    forall k: nat | 1 <= k <= |s.instrs|
      ensures k in log && (s.instrs[k - 1].state == Done || s.instrs[k - 1].state == Superseded)
    {
      assert In(s.instrs, k) && Begun(s.instrs, k);
    }
  }
}
