/** What in a workflow must not run beside what: the states in which the runner may complete a step on a dependency that
    is not completed, and what every step from another state keeps.

    The runner may yet complete a step that is in its gather, or that no cycle and no halting row keeps it from getting
    to; a row that a retry is going to reset does not halt it for good. A row is doubtful if a cancellation will mark
    it, if the runner holds it completed and it is not, or if a retry will reset it behind the runner's back: because
    the runner holds it completed already, or will while the retry waits for a child task. A state is risky when a step
    of the first kind depends on a row of the second. No step of the runner, of a child task or of a sweep under way
    makes a state risky, only what begins a sweep beside a runner or a runner beside a sweep. */
module WorkflowRisk {
  import opened WorkflowGraph
  import opened WorkflowRows
  import opened WorkflowRuns
  import opened WorkflowDrive

  // ------------------------------------------------------------------ Risky states

  // Rows at which the runner would not get through its next round.
  function Halts(rows: Rows, r: Runner): set<Id> {
    match r
    case Spawned(_) => set h | h in rows && Halting(rows[h])
    case Going(_, todo, active, _, _, _) => set h | h in todo - active && h in rows && Halting(rows[h])
    case _ => {}
  }

  // The runner begins no further round: it has ended, a step of it failed, or a row halts it that no retry will reset.
  predicate Barred(rows: Rows, r: Runner, left: set<Id>) {
    r.NoRunner? || r.Ending? || (r.Going? && r.broken != {}) || !(Halts(rows, r) <= left)
  }

  // Steps the runner has still to get to.
  predicate Ahead(r: Runner, y: Id) {
    r.Spawned? || (r.Going? && y in r.todo - r.active)
  }

  predicate OpenStep(r: Runner, y: Id) {
    r.Going? && y in Open(r)
  }

  /** The runner may yet complete `y`: it is in its gather, or no cycle and no row keeps it from getting there. */
  ghost predicate Coming(p: Plan, rows: Rows, r: Runner, left: set<Id>, y: Id) {
    OpenStep(r, y) || (!Barred(rows, r, left) && !Doomed(p.deps, y) && Ahead(r, y))
  }

  // What the runner holds completed.
  function Held(r: Runner): set<Id> {
    if r.Going? then r.results + r.good else {}
  }

  // While the retry waits now, the runner can get through its rounds.
  predicate PassesNow(rows: Rows, r: Runner, s: Sweep) {
    PauseOf(s).At? && Halts(rows, r) == {}
  }

  // It can while the retry waits later, all halting rows being reset before.
  predicate PassesLater(rows: Rows, r: Runner, s: Sweep, kids: set<Id>) {
    exists j :: j in Live(s, kids) && j !in Halts(rows, r) && PauseOf(s) != At(j)
  }

  /** The retry may reset row `d` after the runner has come to hold it completed, and before it has done with `y`: it
      holds it already; or it completes it while the retry waits, as a step of its gather or in a later round. A runner
      that has not begun must not find `y` completed. */
  predicate Overwritten(rows: Rows, r: Runner, s: Sweep, kids: set<Id>, y: Id, d: Id) {
    && d in Left(s)
    && (|| d in Held(r)
        || (OpenStep(r, d) && (PauseOf(s).At? || Live(s, kids) != {}))
        || (Ahead(r, d) && PassesNow(rows, r, s) && !(r.Spawned? && Completes(rows, y)))
        || (Ahead(r, d) && PassesLater(rows, r, s, kids) && d !in Halts(rows, r) && PauseOf(s) != At(d)))
  }

  /** Row `d` may end up not completed although the runner counts on it: a cancellation will mark it, a retry will reset
      it, or the runner holds it completed and it is not. */
  predicate Doubtful(rows: Rows, r: Runner, s: Sweep, kids: set<Id>, marks: set<Id>, y: Id, d: Id) {
    || d in marks
    || Overwritten(rows, r, s, kids, y, d)
    || (d in Held(r) && d in rows && rows[d] != Completed)
  }

  ghost predicate Waits(p: Plan, rows: Rows, r: Runner, s: Sweep, kids: set<Id>, marks: set<Id>, y: Id, d: Id) {
    && y in p.deps && d in p.deps[y] && Coming(p, rows, r, Left(s), y)
    && Doubtful(rows, r, s, kids, marks, y, d)
  }

  /** A step the runner may yet complete depends on a doubtful row. */
  ghost predicate Risky(p: Plan, rows: Rows, r: Runner, s: Sweep, kids: set<Id>, marks: set<Id>) {
    exists y, d :: Waits(p, rows, r, s, kids, marks, y, d)
  }

  ghost predicate WaitsNow(p: Plan, w: World, y: Id, d: Id) {
    Waits(p, w.rows, w.runner, w.retry, w.kids, w.cancel.marks, y, d)
  }

  ghost predicate RiskyNow(p: Plan, w: World) {
    Risky(p, w.rows, w.runner, w.retry, w.kids, w.cancel.marks)
  }

  // ------------------------------------------------------------------ The invariant

  // The step's dependencies are completed, and no sweep will overwrite them.
  predicate Stands(g: Graph, w: World, x: Id) {
    HasDeps(g, w.rows, x) && g[x] !! Left(w.retry) + w.cancel.marks
  }

  /** Every completed step stands, except those a retry still has to reset. */
  predicate FoundedNow(p: Plan, w: World) {
    forall x {:trigger Stands(p.deps, w, x)} ::
      x in w.rows && w.rows[x].Completed? && x !in Left(w.retry) ==> Stands(p.deps, w, x)
  }

  // What the runner has still to complete is not completed, and what has ended in it is not running.
  predicate Unheld(w: World) {
    w.runner.Going? ==>
      && (forall x :: x in w.runner.todo - w.runner.good && x in w.rows ==> w.rows[x] != Completed)
      && (forall x :: x in w.runner.results + w.runner.good + w.runner.broken && x in w.rows ==> !w.rows[x].Running?)
  }

  ghost predicate Settled(p: Plan, w: World) {
    Shaped(p, w) && NoneDoomed(p, w) && FoundedNow(p, w) && Unheld(w)
  }

  // What begins a sweep beside a runner or a runner beside a sweep leaves no risk.
  ghost predicate Guarded(p: Plan, w: World, a: Action) {
    a.Retry? || a.Resume? || a.Snapshot? || (a.RetryDone? && w.runner.NoRunner?) ==> !RiskyNow(p, Step(p, w, a))
  }

  predicate Unguarded(w: World, a: Action) {
    !(a.Retry? || a.Resume? || a.Snapshot? || (a.RetryDone? && w.runner.NoRunner?))
  }

  lemma RiskOfBind(p: Plan, w: World, x: Id, y: Id, d: Id)
    requires Settled(p, w) && Yields(w) && WaitsNow(p, Step(p, w, Bind(x)), y, d)
    ensures WaitsNow(p, w, y, d)
  {
  }

  lemma RiskOfStart(p: Plan, w: World, a: Action, y: Id, d: Id)
    requires Settled(p, w) && Yields(w) && (a.Start? || a.Track?)
    requires WaitsNow(p, Step(p, w, a), y, d)
    ensures WaitsNow(p, w, y, d)
  {
  }

  lemma RiskOfFinish(p: Plan, w: World, x: Id, ok: bool, y: Id, d: Id)
    requires Settled(p, w) && Yields(w) && WaitsNow(p, Step(p, w, Finish(x, ok)), y, d)
    ensures WaitsNow(p, w, y, d)
  {
  }

  lemma RiskOfGather(p: Plan, w: World, a: Action, y: Id, d: Id)
    requires Settled(p, w) && Yields(w) && (a.Gathered? || a.GatherFailed?) && WaitsNow(p, Step(p, w, a), y, d)
    ensures WaitsNow(p, w, y, d)
  {
  }

  lemma RiskOfRound(p: Plan, w: World, y: Id, d: Id)
    requires Settled(p, w) && Yields(w) && WaitsNow(p, Step(p, w, Round), y, d)
    ensures WaitsNow(p, w, y, d)
  {
    NoneDoomedStep(p, w, Round);
  }

  // With no sweep under way, only a row the runner wrongly holds completed is doubtful.
  lemma NothingDoubtful(p: Plan, w: World)
    requires w.retry.Idle? && w.cancel.marks == {}
    requires forall d :: d in Held(w.runner) && d in w.rows ==> w.rows[d] == Completed
    ensures !RiskyNow(p, w)
  {
  }

  // A halting row anywhere keeps a beginning runner from its first round.
  lemma HaltsFirstRound(rows: Rows)
    ensures var todo := rows.Keys - InState(rows, Completed);
      forall h :: h in rows && Halting(rows[h]) ==>
        AnyIn(rows, todo, {Failed, Interrupted}) || AnyIn(rows, todo, {Cancelled})
  {
    var todo := rows.Keys - InState(rows, Completed);
    forall h | h in rows && Halting(rows[h])
      ensures AnyIn(rows, todo, {Failed, Interrupted}) || AnyIn(rows, todo, {Cancelled}) {
      assert h in todo && (rows[h] in {Failed, Interrupted} || rows[h] in {Cancelled});
    }
  }

  lemma RiskOfBegin(p: Plan, w: World, y: Id, d: Id)
    requires Settled(p, w) && Yields(w) && WaitsNow(p, Step(p, w, Begin), y, d)
    ensures WaitsNow(p, w, y, d)
  {
    NoneDoomedStep(p, w, Begin);
    if w.runner.Spawned? {
      var after := Step(p, w, Begin);
      HaltsFirstRound(w.rows);
      assert Halts(w.rows, w.runner) == {};
      assert after.runner.Going? && after.runner.good == {} && !Doomed(p.deps, y);
      assert Coming(p, w.rows, w.runner, Left(w.retry), y);
      assert Doubtful(w.rows, w.runner, w.retry, w.kids, w.cancel.marks, y, d);
    }
  }

  lemma RiskOfReset(p: Plan, w: World, x: Id, y: Id, d: Id)
    requires Settled(p, w) && w.up && WaitsNow(p, Step(p, w, ResetRow(x)), y, d)
    ensures WaitsNow(p, w, y, d)
  {
    var after := Step(p, w, ResetRow(x));
    if after != w {
      assert Halts(w.rows, w.runner) <= Halts(after.rows, after.runner) + {x};
    }
  }

  lemma RiskOfRetry(p: Plan, w: World, a: Action, y: Id, d: Id)
    requires Settled(p, w) && w.up && OfRetry(a) && !a.ResetRow? && Unguarded(w, a)
    requires WaitsNow(p, Step(p, w, a), y, d)
    ensures WaitsNow(p, w, y, d)
  {
  }

  lemma RiskOfSweep(p: Plan, w: World, now: set<Id>, at: Pause, y: Id, d: Id)
    requires Settled(p, w) && Yields(w) && WaitsNow(p, Step(p, w, Sweeping(now, at)), y, d)
    ensures WaitsNow(p, w, y, d)
  {
  }

  lemma RiskOfRest(p: Plan, w: World, a: Action, y: Id, d: Id)
    requires Settled(p, w) && WaitsNow(p, Step(p, w, a), y, d) && Unguarded(w, a)
    requires !w.up || !(OfRunner(a) || OfRetry(a) || a.Sweeping?)
    ensures WaitsNow(p, w, y, d)
  {
  }

  lemma NoNewRisk(p: Plan, w: World, a: Action, y: Id, d: Id)
    requires Settled(p, w) && WaitsNow(p, Step(p, w, a), y, d) && Unguarded(w, a)
    ensures WaitsNow(p, w, y, d)
  {
    if !w.up || !(OfRunner(a) || OfRetry(a) || a.Sweeping?) {
      RiskOfRest(p, w, a, y, d);
    } else if a.ResetRow? {
      RiskOfReset(p, w, a.x, y, d);
    } else if OfRetry(a) {
      RiskOfRetry(p, w, a, y, d);
    } else if Yields(w) {
      if a.Begin? {
        RiskOfBegin(p, w, y, d);
      } else if a.Round? {
        RiskOfRound(p, w, y, d);
      } else if a.Gathered? || a.GatherFailed? {
        RiskOfGather(p, w, a, y, d);
      } else if a.Finish? {
        RiskOfFinish(p, w, a.x, a.ok, y, d);
      } else if a.Sweeping? {
        RiskOfSweep(p, w, a.now, a.at, y, d);
      } else if a.Bind? {
        RiskOfBind(p, w, a.x, y, d);
      } else {
        RiskOfStart(p, w, a, y, d);
      }
    }
  }

  lemma StaysSafe(p: Plan, w: World, a: Action)
    requires Settled(p, w) && !RiskyNow(p, w) && Guarded(p, w, a)
    ensures !RiskyNow(p, Step(p, w, a))
  {
    var after := Step(p, w, a);
    if RiskyNow(p, after) {
      var y, d :| Waits(p, after.rows, after.runner, after.retry, after.kids, after.cancel.marks, y, d);
      assert WaitsNow(p, after, y, d);
      NoNewRisk(p, w, a, y, d);
    }
  }

  // ------------------------------------------------------------------ What safe states keep

  /** What the runner completes has completed dependencies that no sweep will touch. */
  lemma FinishStands(p: Plan, w: World, x: Id)
    requires Settled(p, w) && !RiskyNow(p, w) && w.runner.Going? && x in w.runner.begun && x in Open(w.runner)
    ensures Stands(p.deps, w, x)
  {
    forall d | d in p.deps[x] ensures d in w.rows && w.rows[d] == Completed && d !in Left(w.retry) + w.cancel.marks {
      assert !WaitsNow(p, w, x, d);
    }
  }

  // What writes rows on behalf of a retry or a cancellation.
  predicate Sweeps(a: Action) {
    a.ResetRow? || a.Snapshot? || a.Sweeping? || a.SweepCrash?
  }

  // What may end a retry before its last row.
  predicate Cuts(a: Action) {
    a.Crash? || a.SweepCrash? || a.Drop?
  }

  /** Every completed step has completed dependencies, and no cancellation will mark one of them. */
  predicate Solid(p: Plan, w: World) {
    forall x {:trigger HasDeps(p.deps, w.rows, x)} ::
      x in w.rows && w.rows[x].Completed? ==> HasDeps(p.deps, w.rows, x) && p.deps[x] !! w.cancel.marks
  }

  // No completed row is written, and what becomes completed was a step of the gather.
  predicate WorksOn(w: World, after: World) {
    && after.rows.Keys == w.rows.Keys && after.retry == w.retry && after.cancel == w.cancel
    && forall x :: x in w.rows && after.rows[x] != w.rows[x] ==>
         w.rows[x] != Completed && (after.rows[x] == Completed ==> OpenStep(w.runner, x) && x in w.runner.begun)
  }

  lemma StartWorks(p: Plan, w: World, a: Action)
    requires Settled(p, w) && Yields(w) && (a.Start? || a.Track? || a.Bind?)
    ensures WorksOn(w, Step(p, w, a))
  {
  }

  lemma FinishWorks(p: Plan, w: World, x: Id, ok: bool)
    requires Settled(p, w) && Yields(w)
    ensures WorksOn(w, Step(p, w, Finish(x, ok)))
  {
  }

  lemma RunnerWorks(p: Plan, w: World, a: Action)
    requires Settled(p, w) && w.up && OfRunner(a)
    ensures WorksOn(w, Step(p, w, a))
  {
    if Yields(w) && (a.Start? || a.Track? || a.Bind?) {
      StartWorks(p, w, a);
    } else if Yields(w) && a.Finish? {
      FinishWorks(p, w, a.x, a.ok);
    }
  }

  // Completed dependencies stay completed unless a sweep overwrites them.
  lemma StandsStill(p: Plan, w: World, a: Action, x: Id)
    requires Settled(p, w) && HasDeps(p.deps, w.rows, x) && !(w.up && Sweeps(a))
    ensures HasDeps(p.deps, Step(p, w, a).rows, x)
  {
    if w.up && OfRunner(a) {
      RunnerWorks(p, w, a);
    }
  }

  lemma FoundedWorks(p: Plan, w: World, after: World)
    requires Settled(p, w) && !RiskyNow(p, w) && WorksOn(w, after)
    ensures FoundedNow(p, after)
    ensures Solid(p, w) ==> Solid(p, after)
  {
    forall x | x in after.rows && after.rows[x].Completed?
      ensures x !in Left(w.retry) ==> Stands(p.deps, after, x)
      ensures Solid(p, w) ==> HasDeps(p.deps, after.rows, x) && p.deps[x] !! w.cancel.marks {
      if !w.rows[x].Completed? {
        FinishStands(p, w, x);
      }
      assert x !in Left(w.retry) || !w.rows[x].Completed? ==> Stands(p.deps, w, x);
      assert Solid(p, w) ==> HasDeps(p.deps, w.rows, x);
    }
  }

  lemma FoundedWork(p: Plan, w: World, a: Action)
    requires Settled(p, w) && !RiskyNow(p, w) && w.up && OfRunner(a)
    ensures FoundedNow(p, Step(p, w, a))
    ensures Solid(p, w) ==> Solid(p, Step(p, w, a))
  {
    RunnerWorks(p, w, a);
    FoundedWorks(p, w, Step(p, w, a));
  }

  lemma FoundedReset(p: Plan, w: World, a: Action)
    requires Settled(p, w) && w.up && a.ResetRow?
    ensures FoundedNow(p, Step(p, w, a))
  {
    var after := Step(p, w, a);
    forall x | x in after.rows && after.rows[x].Completed? && x !in Left(after.retry)
      ensures Stands(p.deps, after, x) {
      assert x !in Left(w.retry) && Stands(p.deps, w, x);
    }
  }

  // Rows are marked that are not completed, or that the cancellation was to mark; the rows to mark are unfinished ones.
  predicate Marks(w: World, after: World) {
    && after.rows.Keys == w.rows.Keys && after.retry == w.retry
    && after.cancel.marks <= w.cancel.marks + Unfinished(w.rows)
    && forall x :: x in w.rows && after.rows[x] != w.rows[x] ==>
         after.rows[x] == Cancelled && x in w.cancel.marks + Unfinished(w.rows)
  }

  lemma SnapshotMarks(w: World, now: set<Id>, at: Pause)
    requires now <= Unfinished(w.rows)
    ensures Marks(w, SnapshotStep(w, now, at))
  {
  }

  lemma SweepMarks(w: World, now: set<Id>, at: Pause)
    requires now <= w.cancel.marks
    ensures Marks(w, SweepStep(w, now, at))
  {
  }

  lemma CancelMarks(p: Plan, w: World, a: Action)
    requires Settled(p, w) && w.up && (a.Snapshot? || a.Sweeping?)
    ensures Marks(w, Step(p, w, a))
  {
    if a.Snapshot? {
      if MaySnapshot(w, a.now, a.at) {
        SnapshotMarks(w, a.now, a.at);
      }
    } else if a.now <= w.cancel.marks {
      SweepMarks(w, a.now, a.at);
    }
  }

  lemma FoundedSweep(p: Plan, w: World, after: World)
    requires Settled(p, w) && Marks(w, after)
    ensures FoundedNow(p, after)
    ensures Solid(p, w) ==> Solid(p, after)
  {
    forall x | x in after.rows && after.rows[x].Completed?
      ensures x !in Left(w.retry) ==> Stands(p.deps, after, x)
      ensures Solid(p, w) ==> HasDeps(p.deps, after.rows, x) && p.deps[x] !! after.cancel.marks {
      assert w.rows[x].Completed?;
      assert x !in Left(w.retry) ==> Stands(p.deps, w, x);
      assert Solid(p, w) ==> HasDeps(p.deps, w.rows, x);
    }
  }

  lemma FoundedRetry(p: Plan, w: World, target: Id)
    requires Settled(p, w)
    ensures FoundedNow(p, Step(p, w, Retry(target)))
    ensures Solid(p, w) ==> Solid(p, Step(p, w, Retry(target)))
  {
    var after := Step(p, w, Retry(target));
    assert after.rows == w.rows && after.cancel == w.cancel;
    forall x | x in after.rows && after.rows[x].Completed?
      ensures Solid(p, w) ==> HasDeps(p.deps, after.rows, x) && p.deps[x] !! after.cancel.marks {
      assert Solid(p, w) ==> HasDeps(p.deps, w.rows, x);
    }
    if after.retry != w.retry {
      forall x | x in w.rows && w.rows[x].Completed? && x !in after.retry.left ensures Stands(p.deps, after, x) {
        assert Stands(p.deps, w, x);
        forall d | d in p.deps[x] && d in after.retry.left ensures false {
          DownstreamClosed(p.deps, target, after.retry.left, x, d);
        }
      }
    } else {
      assert after == w;
    }
  }

  // A crash, or the end of a retry by an exception.
  lemma FoundedCut(p: Plan, w: World, a: Action)
    requires Settled(p, w) && Solid(p, w) && Cuts(a)
    ensures FoundedNow(p, Step(p, w, a)) && Solid(p, Step(p, w, a))
  {
    var after := Step(p, w, a);
    forall x | x in after.rows && after.rows[x].Completed?
      ensures Stands(p.deps, after, x) || (x in Left(after.retry) && after == w)
      ensures HasDeps(p.deps, after.rows, x) && p.deps[x] !! after.cancel.marks {
      assert HasDeps(p.deps, w.rows, x);
    }
  }

  lemma FoundedRest(p: Plan, w: World, a: Action)
    requires Settled(p, w) && !(w.up && OfRunner(a)) && !(w.up && Sweeps(a)) && !Cuts(a) && !a.Retry?
    ensures FoundedNow(p, Step(p, w, a))
    ensures Solid(p, w) ==> Solid(p, Step(p, w, a))
  {
    var after := Step(p, w, a);
    forall x | x in after.rows && after.rows[x].Completed?
      ensures x !in Left(after.retry) ==> Stands(p.deps, after, x)
      ensures Solid(p, w) ==> HasDeps(p.deps, after.rows, x) && p.deps[x] !! after.cancel.marks {
      assert x !in Left(w.retry) ==> Stands(p.deps, w, x);
      if HasDeps(p.deps, w.rows, x) {
        StandsStill(p, w, a, x);
      }
    }
  }

  lemma UnheldStart(p: Plan, w: World, a: Action)
    requires Shaped(p, w) && Unheld(w) && Yields(w) && (a.Start? || a.Track? || a.Bind?)
    ensures Unheld(Step(p, w, a))
  {
  }

  lemma UnheldWork(p: Plan, w: World, a: Action)
    requires Shaped(p, w) && Unheld(w) && Yields(w) && (a.Begin? || a.Round? || a.Finish?)
    ensures Unheld(Step(p, w, a))
  {
  }

  lemma UnheldEnd(p: Plan, w: World, a: Action)
    requires Shaped(p, w) && Unheld(w) && Yields(w) && (a.Gathered? || a.GatherFailed?)
    ensures Unheld(Step(p, w, a))
  {
  }

  lemma UnheldRest(p: Plan, w: World, after: World)
    requires Shaped(p, w) && Unheld(w) && Withdraws(w, after)
    ensures Unheld(after)
  {
  }

  lemma UnheldStep(p: Plan, w: World, a: Action)
    requires Shaped(p, w) && Unheld(w)
    ensures Unheld(Step(p, w, a))
  {
    if !OfRunner(a) {
      OthersWithdraw(p, w, a);
      UnheldRest(p, w, Step(p, w, a));
    } else if Yields(w) {
      if a.Start? || a.Track? || a.Bind? {
        UnheldStart(p, w, a);
      } else if a.Gathered? || a.GatherFailed? {
        UnheldEnd(p, w, a);
      } else {
        UnheldWork(p, w, a);
      }
    }
  }

  lemma {:induction false} UnheldRun(p: Plan, w: World, actions: seq<Action>)
    requires Shaped(p, w) && Unheld(w)
    ensures Unheld(Run(p, w, actions))
    decreases |actions|
  {
    if actions != [] {
      ShapedStep(p, w, actions[0]);
      UnheldStep(p, w, actions[0]);
      UnheldRun(p, Step(p, w, actions[0]), actions[1..]);
    }
  }

  lemma FoundedStep(p: Plan, w: World, a: Action)
    requires Settled(p, w) && !RiskyNow(p, w)
    requires Cuts(a) ==> Solid(p, w)
    ensures FoundedNow(p, Step(p, w, a))
    ensures Solid(p, w) && !a.ResetRow? ==> Solid(p, Step(p, w, a))
  {
    if Cuts(a) {
      FoundedCut(p, w, a);
    } else if w.up && OfRunner(a) {
      FoundedWork(p, w, a);
    } else if w.up && a.ResetRow? {
      FoundedReset(p, w, a);
    } else if w.up && (a.Snapshot? || a.Sweeping?) {
      CancelMarks(p, w, a);
      FoundedSweep(p, w, Step(p, w, a));
    } else if a.Retry? {
      FoundedRetry(p, w, a.x);
    } else {
      FoundedRest(p, w, a);
    }
  }

  lemma SettledStep(p: Plan, w: World, a: Action)
    requires Settled(p, w) && !RiskyNow(p, w)
    requires Cuts(a) ==> Solid(p, w)
    ensures Settled(p, Step(p, w, a))
    ensures Solid(p, w) && !a.ResetRow? ==> Solid(p, Step(p, w, a))
  {
    ShapedStep(p, w, a);
    NoneDoomedStep(p, w, a);
    UnheldStep(p, w, a);
    FoundedStep(p, w, a);
  }
}
