/** When a completed step has only completed dependencies, and exactly what breaks that. */
module WorkflowFoundation {
  import opened WorkflowGraph
  import opened WorkflowRows
  import opened WorkflowRuns
  import opened WorkflowDrive
  import opened WorkflowRisk

  // ------------------------------------------------------------------ Runs in which crashes may fall anywhere

  /** No other completed step that depends on `x` is still to be reset. */
  predicate Foremost(g: Graph, w: World, x: Id) {
    forall z :: z in Left(w.retry) && z != x && z in g && x in g[z] ==> !Completes(w.rows, z)
  }

  // No risk begins, and a retry resets completed dependents first.
  ghost predicate Careful(p: Plan, w: World, a: Action) {
    Guarded(p, w, a) && (a.ResetRow? && a.x in Left(w.retry) ==> Foremost(p.deps, w, a.x))
  }

  lemma SolidReset(p: Plan, w: World, x: Id)
    requires Settled(p, w) && Solid(p, w) && w.up && (x in Left(w.retry) ==> Foremost(p.deps, w, x))
    ensures Solid(p, Step(p, w, ResetRow(x)))
  {
    var after := Step(p, w, ResetRow(x));
    forall z | z in after.rows && after.rows[z].Completed?
      ensures HasDeps(p.deps, after.rows, z) && p.deps[z] !! after.cancel.marks {
      assert HasDeps(p.deps, w.rows, z) && Completes(w.rows, z);
      assert z !in Left(w.retry) ==> Stands(p.deps, w, z);
    }
  }

  ghost predicate Sure(p: Plan, w: World) {
    Settled(p, w) && !RiskyNow(p, w) && Solid(p, w)
  }

  lemma SureStep(p: Plan, w: World, a: Action)
    requires Sure(p, w) && Careful(p, w, a)
    ensures Sure(p, Step(p, w, a))
  {
    SettledStep(p, w, a);
    StaysSafe(p, w, a);
    if a.ResetRow? && w.up {
      SolidReset(p, w, a.x);
    }
  }

  ghost predicate CarefulRun(p: Plan, w: World, actions: seq<Action>)
    decreases |actions|
  {
    actions == [] || (Careful(p, w, actions[0]) && CarefulRun(p, Step(p, w, actions[0]), actions[1..]))
  }

  lemma {:induction false} SureRun(p: Plan, w: World, actions: seq<Action>)
    requires Sure(p, w) && CarefulRun(p, w, actions)
    ensures Sure(p, Run(p, w, actions))
    decreases |actions|
  {
    if actions != [] {
      SureStep(p, w, actions[0]);
      SureRun(p, Step(p, w, actions[0]), actions[1..]);
    }
  }

  /** Through any interleaving of runner, child tasks, crashes at any point, recovery, cancellation, resume and retry, a
      completed step has only completed dependencies: at every moment, inside a retry too, and when a retry is ended by
      a child task that could not be cancelled. */
  lemma CompletedHasCompletedDependencies(p: Plan, actions: seq<Action>)
    requires Known(p.deps) && CarefulRun(p, Init(p), actions)
    ensures Founded(p.deps, Run(p, Init(p), actions).rows)
  {
    SureRun(p, Init(p), actions);
  }

  /** The order is needed: when a retry resets a row, a crash right behind it leaves completed steps on completed
      dependencies exactly when no other completed dependent is left to reset. */
  lemma ResetSurvivesCrashExactly(p: Plan, w: World, x: Id)
    requires Sure(p, w) && w.up && Busy(w) && x in w.retry.left && !Waited(w, x)
    ensures Founded(p.deps, Run(p, w, [ResetRow(x), Crash]).rows) <==> Foremost(p.deps, w, x)
  {
    var next := Step(p, w, ResetRow(x));
    RunCons(p, w, ResetRow(x), [Crash]);
    RunOne(p, next, Crash);
    if Foremost(p.deps, w, x) {
      SolidReset(p, w, x);
    } else {
      var z :| z in Left(w.retry) && z != x && z in p.deps && x in p.deps[z] && Completes(w.rows, z);
      assert next.rows[z].Completed? && !HasDeps(p.deps, next.rows, z);
    }
  }

  // From here on, completed steps have completed dependencies whatever careful run follows.
  ghost predicate StaysFounded(p: Plan, w: World) {
    forall actions {:trigger CarefulRun(p, w, actions)} ::
      CarefulRun(p, w, actions) ==> Founded(p.deps, Run(p, w, actions).rows)
  }

  lemma StaysFoundedExactly(p: Plan, w: World)
    requires Founded(p.deps, w.rows) ==> Sure(p, w)
    ensures StaysFounded(p, w) <==> Founded(p.deps, w.rows)
  {
    if Founded(p.deps, w.rows) {
      forall actions | CarefulRun(p, w, actions) ensures Founded(p.deps, Run(p, w, actions).rows) {
        SureRun(p, w, actions);
      }
    } else {
      assert CarefulRun(p, w, []) && Run(p, w, []) == w;
    }
  }

  // A retry that ends behind its first k rows.
  function CutRetry(target: Id, order: seq<Id>, live: set<Id>, k: nat, end: Action): seq<Action>
    requires k <= |order|
  {
    [Retry(target)] + (Resets(order[..k], live) + [end])
  }

  lemma CutRetryRuns(p: Plan, w: World, target: Id, order: seq<Id>, k: nat, end: Action)
    requires Shaped(p, w) && w.up && w.retry.Idle? && target in w.rows
    requires Lists(order, DownstreamOf(p.deps, target)) && k <= |order|
    ensures var begun := Step(p, w, Retry(target));
      && Run(p, begun, Resets(order[..k], w.kids)) == ResetSome(begun, First(order, k))
      && Run(p, w, CutRetry(target, order, w.kids, k, end)) == Step(p, ResetSome(begun, First(order, k)), end)
  {
    var begun := Step(p, w, Retry(target));
    RunCons(p, w, Retry(target), Resets(order[..k], w.kids) + [end]);
    RunConcat(p, begun, Resets(order[..k], w.kids), [end]);
    forall x | x in First(order, k) ensures x in order[..k] {
      var i :| 0 <= i < k && order[i] == x;
      assert order[..k][i] == x;
    }
    ResetsSome(p, begun, order[..k], First(order, k), w.kids);
    RunOne(p, ResetSome(begun, First(order, k)), end);
  }

  lemma CrashedIsSure(p: Plan, w: World, begun: World, reset: set<Id>)
    requires Sure(p, w) && begun == w.(retry := begun.retry, ops := begun.ops) && begun.retry.Over?
    requires Founded(p.deps, ResetRows(w.rows, reset))
    ensures Sure(p, CrashStep(ResetSome(begun, reset)))
  {
    var crashed := CrashStep(ResetSome(begun, reset));
    forall x | x in crashed.rows && crashed.rows[x].Completed? ensures Stands(p.deps, crashed, x) {
      assert HasDeps(p.deps, crashed.rows, x);
    }
  }

  /** Over the order in which a retry resets its rows: it survives a crash behind its first k rows, whatever careful run
      follows, exactly when no completed dependent is left above one of them. */
  lemma CrashedRetryExactly(p: Plan, w: World, target: Id, order: seq<Id>, k: nat)
    requires Sure(p, w) && w.up && w.retry.Idle? && target in w.rows
    requires Lists(order, DownstreamOf(p.deps, target)) && k <= |order|
    ensures StaysFounded(p, Run(p, w, CutRetry(target, order, w.kids, k, Crash))) <==>
      ClosedAt(p.deps, w.rows, order, k)
  {
    ResetsFoundedExactly(p, w, target, order, k);
    CutRetryRuns(p, w, target, order, k, Crash);
    var begun := Step(p, w, Retry(target));
    var reset := First(order, k);
    var crashed := CrashStep(ResetSome(begun, reset));
    if Founded(p.deps, crashed.rows) {
      CrashedIsSure(p, w, begun, reset);
    }
    StaysFoundedExactly(p, crashed);
  }

  /** It survives a crash behind any of them exactly when each completed dependent stands before its dependency. */
  lemma CrashedAnywhereExactly(p: Plan, w: World, target: Id, order: seq<Id>)
    requires Sure(p, w) && w.up && w.retry.Idle? && target in w.rows
    requires Lists(order, DownstreamOf(p.deps, target))
    ensures (forall k :: 0 <= k <= |order| ==>
              StaysFounded(p, Run(p, w, CutRetry(target, order, w.kids, k, Crash)))) <==>
      DependentsFirst(p.deps, w.rows, order)
  {
    forall k | 0 <= k <= |order|
      ensures StaysFounded(p, Run(p, w, CutRetry(target, order, w.kids, k, Crash))) <==>
        ClosedAt(p.deps, w.rows, order, k) {
      CrashedRetryExactly(p, w, target, order, k);
    }
    if !DependentsFirst(p.deps, w.rows, order) {
      var i, j :| 0 <= i < j < |order| && order[j] in p.deps && order[i] in p.deps[order[j]]
        && Completes(w.rows, order[j]);
      assert !ClosedAt(p.deps, w.rows, order, j);
    }
  }

  /** The same without a crash: at a row with a live child task that cannot be cancelled, the retry ends with an
      exception behind its first k rows, in a process that goes on. */
  lemma DroppedRetryExactly(p: Plan, w: World, target: Id, order: seq<Id>, k: nat)
    requires Sure(p, w) && w.up && w.retry.Idle? && target in w.rows && Guarded(p, w, Retry(target))
    requires Lists(order, DownstreamOf(p.deps, target)) && k < |order| && order[k] in w.kids
    ensures StaysFounded(p, Run(p, w, CutRetry(target, order, w.kids, k, Drop(order[k])))) <==>
      ClosedAt(p.deps, w.rows, order, k)
  {
    var begun := Step(p, w, Retry(target));
    ResetsFoundedExactly(p, w, target, order, k);
    CutRetryRuns(p, w, target, order, k, Drop(order[k]));
    BegunIsSettled(p, w, target, order, k);
    DroppedIsSure(p, begun, First(order, k), order[k]);
    StaysFoundedExactly(p, ResetSome(begun, First(order, k)).(retry := Idle));
  }

  lemma ResetsFoundedExactly(p: Plan, w: World, target: Id, order: seq<Id>, k: nat)
    requires Sure(p, w) && Lists(order, DownstreamOf(p.deps, target)) && k <= |order|
    ensures Founded(p.deps, ResetRows(w.rows, First(order, k))) <==> ClosedAt(p.deps, w.rows, order, k)
  {
    assert Founded(p.deps, w.rows);
    PrefixFoundedExactly(p.deps, w.rows, target, DownstreamOf(p.deps, target), order, k);
  }

  lemma BegunIsSettled(p: Plan, w: World, target: Id, order: seq<Id>, k: nat)
    requires Sure(p, w) && w.up && w.retry.Idle? && target in w.rows && Guarded(p, w, Retry(target))
    requires Lists(order, DownstreamOf(p.deps, target)) && k < |order| && order[k] in w.kids
    ensures var begun := Step(p, w, Retry(target)); var left := ResetSome(begun, First(order, k));
      && Sure(p, begun) && Settled(p, left) && !RiskyNow(p, left)
      && begun.up && Busy(begun) && Waited(begun, order[k]) && order[k] !in First(order, k)
  {
    var begun := Step(p, w, Retry(target));
    CutRetryRuns(p, w, target, order, k, Crash);
    SureStep(p, w, Retry(target));
    SettledResets(p, begun, order[..k], w.kids);
  }

  lemma DroppedIsSure(p: Plan, begun: World, reset: set<Id>, x: Id)
    requires Sure(p, begun) && begun.up && Busy(begun) && Waited(begun, x) && x !in reset
    requires Settled(p, ResetSome(begun, reset)) && !RiskyNow(p, ResetSome(begun, reset))
    ensures var dropped := Step(p, ResetSome(begun, reset), Drop(x));
      && dropped == ResetSome(begun, reset).(retry := Idle)
      && (Founded(p.deps, ResetRows(begun.rows, reset)) ==> Sure(p, dropped))
  {
    var left := ResetSome(begun, reset);
    if Founded(p.deps, left.rows) {
      SolidResets(p, begun, reset);
      SureStep(p, left, Drop(x));
    }
  }

  lemma SolidResets(p: Plan, w: World, reset: set<Id>)
    requires Solid(p, w) && w.retry.Over? && Founded(p.deps, ResetRows(w.rows, reset))
    ensures Solid(p, ResetSome(w, reset))
  {
    var after := ResetSome(w, reset);
    forall x | x in after.rows && after.rows[x].Completed?
      ensures HasDeps(p.deps, after.rows, x) && p.deps[x] !! after.cancel.marks {
      assert HasDeps(p.deps, w.rows, x) && HasDeps(p.deps, ResetRows(w.rows, reset), x);
    }
  }

  lemma {:induction false} SettledRun(p: Plan, w: World, actions: seq<Action>)
    requires Settled(p, w) && !RiskyNow(p, w) && Quiet(actions)
    ensures Settled(p, Run(p, w, actions)) && !RiskyNow(p, Run(p, w, actions))
    decreases |actions|
  {
    if actions != [] {
      SettledStep(p, w, actions[0]);
      StaysSafe(p, w, actions[0]);
      SettledRun(p, Step(p, w, actions[0]), actions[1..]);
    }
  }

  lemma SettledResets(p: Plan, w: World, order: seq<Id>, live: set<Id>)
    requires Settled(p, w) && !RiskyNow(p, w)
    ensures Settled(p, Run(p, w, Resets(order, live))) && !RiskyNow(p, Run(p, w, Resets(order, live)))
  {
    ResetsAreQuiet(order, live);
    SettledRun(p, w, Resets(order, live));
  }

  // ------------------------------------------------------------------ Every risk can come true

  // Nothing risky begins, and nothing cuts a retry short.
  ghost predicate Calm(p: Plan, w: World, a: Action) {
    Guarded(p, w, a) && (Cuts(a) ==> w.retry.Idle?)
  }

  ghost predicate CalmRun(p: Plan, w: World, actions: seq<Action>)
    decreases |actions|
  {
    actions == [] || (Calm(p, w, actions[0]) && CalmRun(p, Step(p, w, actions[0]), actions[1..]))
  }

  lemma IdleIsSolid(p: Plan, w: World)
    requires Settled(p, w) && w.retry.Idle?
    ensures Solid(p, w) && Founded(p.deps, w.rows)
  {
    forall x | x in w.rows && w.rows[x].Completed?
      ensures HasDeps(p.deps, w.rows, x) && p.deps[x] !! w.cancel.marks {
      assert Stands(p.deps, w, x);
    }
  }

  lemma {:induction false} CalmKeeps(p: Plan, w: World, actions: seq<Action>)
    requires Settled(p, w) && !RiskyNow(p, w) && CalmRun(p, w, actions)
    ensures Settled(p, Run(p, w, actions))
    decreases |actions|
  {
    if actions != [] {
      var a := actions[0];
      if w.retry.Idle? {
        IdleIsSolid(p, w);
      }
      SettledStep(p, w, a);
      StaysSafe(p, w, a);
      CalmKeeps(p, Step(p, w, a), actions[1..]);
    }
  }

  lemma {:induction false} QuietIsCalm(p: Plan, w: World, actions: seq<Action>)
    requires Quiet(actions)
    ensures CalmRun(p, w, actions)
    decreases |actions|
  {
    if actions != [] {
      QuietIsCalm(p, Step(p, w, actions[0]), actions[1..]);
    }
  }

  lemma {:induction false} CalmConcat(p: Plan, w: World, s: seq<Action>, t: seq<Action>)
    requires CalmRun(p, w, s) && CalmRun(p, Run(p, w, s), t)
    ensures CalmRun(p, w, s + t) && Run(p, w, s + t) == Run(p, Run(p, w, s), t)
    decreases |s|
  {
    if s == [] {
      assert s + t == t;
    } else {
      assert (s + t)[0] == s[0] && (s + t)[1..] == s[1..] + t;
      CalmConcat(p, Step(p, w, s[0]), s[1..], t);
    }
  }

  // The retry under way, if any, runs to its end beside the live runner.
  lemma EndRetry(p: Plan, w: World) returns (actions: seq<Action>)
    requires Shaped(p, w) && w.up && !w.runner.NoRunner?
    ensures CalmRun(p, w, actions)
    ensures var after := Run(p, w, actions);
      && after == w.(rows := ResetRows(w.rows, Left(w.retry)), kids := w.kids - Left(w.retry), state := after.state,
                     retry := Idle)
      && Shaped(p, after)
  {
    actions := [];
    assert ResetRows(w.rows, {}) == w.rows && w.kids - {} == w.kids;
    if w.retry.Over? {
      var first := GoOnThrough(p, w, w.retry.left);
      QuietIsCalm(p, w, first);
      var next := Run(p, w, first);
      assert WaitingRow(w.retry) + w.retry.left == w.retry.left && next.retry.left == {};
      RunOne(p, next, RetryDone);
      assert CalmRun(p, next, [RetryDone]);
      CalmConcat(p, w, first, [RetryDone]);
      actions := first + [RetryDone];
    }
    ShapedRun(p, w, actions);
  }

  // Completed on a dependency that is not, with no retry under way.
  predicate Broken(g: Graph, w: World) {
    w.retry.Idle? && !Founded(g, w.rows)
  }

  lemma MarkRest(p: Plan, w: World, d: Id) returns (actions: seq<Action>)
    requires Shaped(p, w) && Yields(w) && d in w.rows
    ensures CalmRun(p, w, actions)
    ensures var after := Run(p, w, actions);
      && Shaped(p, after) && after.runner == w.runner && after.retry == w.retry && after.up
      && after.rows.Keys == w.rows.Keys
      && (forall x :: x in w.rows && after.rows[x] == Completed ==> w.rows[x] == Completed)
      && (d in w.cancel.marks ==> after.rows[d] == Cancelled)
  {
    actions := [];
    if d in w.cancel.marks {
      actions := [Sweeping(w.cancel.marks, NoPause)];
      RunOne(p, w, actions[0]);
    }
    QuietIsCalm(p, w, actions);
    ShapedRun(p, w, actions);
  }

  /** A step of the gather completes on a row that was, or now is, overwritten. */
  lemma Strike(p: Plan, w: World, y: Id, d: Id) returns (actions: seq<Action>)
    requires Shaped(p, w) && w.up && OpenStep(w.runner, y) && w.rows[y] != Completed
    requires d in p.deps[y] && (d in Left(w.retry) || d in w.cancel.marks || w.rows[d] != Completed)
    ensures CalmRun(p, w, actions) && Broken(p.deps, Run(p, w, actions))
  {
    var first := EndRetry(p, w);
    var reset := Run(p, w, first);
    var mark := MarkRest(p, reset, d);
    var marked := Run(p, reset, mark);
    CalmConcat(p, w, first, mark);
    assert marked.rows[d] != Completed && marked.rows[y] != Completed;
    var last := FinishOne(p, marked, y, {});
    QuietIsCalm(p, marked, last);
    CalmConcat(p, w, first + mark, last);
    actions := first + mark + last;
    var after := Run(p, marked, last);
    assert after.rows[y].Completed? && !HasDeps(p.deps, after.rows, y);
  }

  // Ahead in a runner that no row holds up for good.
  ghost predicate GetsTo(p: Plan, w: World, y: Id) {
    && Shaped(p, w) && Unheld(w) && w.up && w.runner.Going? && y in w.runner.todo - w.runner.active
    && !Barred(w.rows, w.runner, Left(w.retry)) && !Doomed(p.deps, y)
  }

  /** A later step completes on a row that a cancellation will mark, or that the runner holds completed and that is not,
      or will not be. */
  lemma Overtake(p: Plan, w: World, y: Id, d: Id) returns (actions: seq<Action>)
    requires GetsTo(p, w, y) && d in p.deps[y]
    requires d in w.cancel.marks || (d in Held(w.runner) && (d in Left(w.retry) || w.rows[d] != Completed))
    ensures CalmRun(p, w, actions) && Broken(p.deps, Run(p, w, actions))
  {
    var first := EndRetry(p, w);
    var next := Run(p, w, first);
    assert Clear(next);
    var way := Drive(p, next, y);
    var there := Run(p, next, way);
    QuietIsCalm(p, next, way);
    CalmConcat(p, w, first, way);
    var last := Strike(p, there, y, d);
    CalmConcat(p, w, first + way, last);
    actions := first + way + last;
  }

  /** The runner completes a row of its gather while the retry waits, before it is reset. */
  lemma FinishInPause(p: Plan, w: World, y: Id, d: Id) returns (actions: seq<Action>)
    requires GetsTo(p, w, y) && Yields(w) && d in p.deps[y] && d in Left(w.retry) && OpenStep(w.runner, d)
    ensures CalmRun(p, w, actions) && Broken(p.deps, Run(p, w, actions))
  {
    var first := FinishOne(p, w, d, {});
    var next := Run(p, w, first);
    ShapedRun(p, w, first);
    QuietIsCalm(p, w, first);
    assert Halts(next.rows, next.runner) == Halts(w.rows, w.runner);
    var rest := Overtake(p, next, y, d);
    CalmConcat(p, w, first, rest);
    actions := first + rest;
  }

  /** It goes through its rounds while the retry waits. */
  lemma DriveInPause(p: Plan, w: World, y: Id, d: Id) returns (actions: seq<Action>)
    requires GetsTo(p, w, y) && Yields(w) && d in p.deps[y] && d in Left(w.retry)
    requires Halts(w.rows, w.runner) == {}
    ensures CalmRun(p, w, actions) && Broken(p.deps, Run(p, w, actions))
  {
    assert forall h :: h in w.runner.todo - w.runner.active && Halting(w.rows[h]) ==> h in Halts(w.rows, w.runner);
    assert Clear(w);
    var way := Drive(p, w, y);
    QuietIsCalm(p, w, way);
    var last := Strike(p, Run(p, w, way), y, d);
    CalmConcat(p, w, way, last);
    actions := way + last;
  }

  lemma PassLater(p: Plan, w: World, y: Id, d: Id) returns (actions: seq<Action>)
    requires GetsTo(p, w, y) && d in p.deps[y] && d in Left(w.retry) && d !in Halts(w.rows, w.runner)
    requires PauseOf(w.retry) != At(d) && PassesLater(w.rows, w.runner, w.retry, w.kids)
    ensures CalmRun(p, w, actions) && Broken(p.deps, Run(p, w, actions))
  {
    var j :| j in Live(w.retry, w.kids) && j !in Halts(w.rows, w.runner) && PauseOf(w.retry) != At(j);
    var first := ParkBehind(p, w, Halts(w.rows, w.runner), j);
    QuietIsCalm(p, w, first);
    var next := Run(p, w, first);
    assert Halts(next.rows, next.runner) == {};
    var rest := DriveInPause(p, next, y, d);
    CalmConcat(p, w, first, rest);
    actions := first + rest;
  }

  lemma PassOpen(p: Plan, w: World, y: Id, d: Id) returns (actions: seq<Action>)
    requires GetsTo(p, w, y) && d in p.deps[y] && d in Left(w.retry) && OpenStep(w.runner, d)
    requires PauseOf(w.retry).At? || Live(w.retry, w.kids) != {}
    ensures CalmRun(p, w, actions) && Broken(p.deps, Run(p, w, actions))
  {
    if Busy(w) {
      var j :| j in Live(w.retry, w.kids);
      ParkAt(p, w, j);
      QuietIsCalm(p, w, [Park(j)]);
      ShapedRun(p, w, [Park(j)]);
      var rest := FinishInPause(p, Run(p, w, [Park(j)]), y, d);
      CalmConcat(p, w, [Park(j)], rest);
      actions := [Park(j)] + rest;
    } else {
      actions := FinishInPause(p, w, y, d);
    }
  }

  lemma BreakGoing(p: Plan, w: World, y: Id, d: Id) returns (actions: seq<Action>)
    requires Shaped(p, w) && Unheld(w) && w.up && w.runner.Going? && WaitsNow(p, w, y, d)
    ensures CalmRun(p, w, actions) && Broken(p.deps, Run(p, w, actions))
  {
    if OpenStep(w.runner, y) {
      actions := Strike(p, w, y, d);
    } else if d in w.cancel.marks || d in Held(w.runner) {
      actions := Overtake(p, w, y, d);
    } else if OpenStep(w.runner, d) {
      actions := PassOpen(p, w, y, d);
    } else if PassesNow(w.rows, w.runner, w.retry) {
      actions := DriveInPause(p, w, y, d);
    } else {
      actions := PassLater(p, w, y, d);
    }
  }

  // ------------------------------------------------------------------ A runner that has not begun

  /** It begins while row `d` is still to be overwritten. */
  lemma BeginBreaks(p: Plan, w: World, y: Id, d: Id) returns (actions: seq<Action>)
    requires Shaped(p, w) && Yields(w) && w.runner.Spawned? && forall h :: h in w.rows ==> !Halting(w.rows[h])
    requires y in w.rows && !Completes(w.rows, y) && !Doomed(p.deps, y) && d in p.deps[y]
    requires d in w.cancel.marks || d in Left(w.retry)
    ensures CalmRun(p, w, actions) && Broken(p.deps, Run(p, w, actions))
  {
    BeginGoes(p, w, y);
    RunOne(p, w, Begin);
    QuietIsCalm(p, w, [Begin]);
    ShapedRun(p, w, [Begin]);
    BegunWaits(p, w, y, d);
    var rest := BreakGoing(p, Step(p, w, Begin), y, d);
    CalmConcat(p, w, [Begin], rest);
    actions := [Begin] + rest;
  }

  lemma BegunWaits(p: Plan, w: World, y: Id, d: Id)
    requires Shaped(p, w) && Yields(w) && w.runner.Spawned? && forall h :: h in w.rows ==> !Halting(w.rows[h])
    requires y in w.rows && !Completes(w.rows, y) && !Doomed(p.deps, y) && d in p.deps[y]
    requires d in w.cancel.marks || d in Left(w.retry)
    ensures var begun := Step(p, w, Begin); begun.runner.Going? && Unheld(begun) && WaitsNow(p, begun, y, d)
  {
    BeginGoes(p, w, y);
    var begun := Step(p, w, Begin);
    assert Halts(begun.rows, begun.runner) == {};
  }

  lemma NoSelfWait(p: Plan, y: Id)
    requires Known(p.deps) && y in p.deps && y in p.deps[y]
    ensures Doomed(p.deps, y)
  {
    assert Link(p.deps, [y, y], 0);
    assert Joins(p.deps, [y, y], y, y);
    ReachesSelf(p.deps, y);
  }

  lemma BreakMarked(p: Plan, w: World, y: Id, d: Id) returns (actions: seq<Action>)
    requires Settled(p, w) && w.up && w.runner.Spawned? && WaitsNow(p, w, y, d) && d in w.cancel.marks
    ensures CalmRun(p, w, actions) && Broken(p.deps, Run(p, w, actions))
  {
    var first := EndRetry(p, w);
    var next := Run(p, w, first);
    assert Completes(w.rows, y) ==> Stands(p.deps, w, y) || y in Left(w.retry);
    assert forall h :: h in w.rows && Halting(w.rows[h]) ==> h in Halts(w.rows, w.runner);
    var rest := BeginBreaks(p, next, y, d);
    CalmConcat(p, w, first, rest);
    actions := first + rest;
  }

  // What the retry resets before it waits: all that halts the runner, and the step.
  function ResetBefore(rows: Rows, r: Runner, y: Id): set<Id> {
    Halts(rows, r) + (if Completes(rows, y) then {y} else {})
  }

  lemma ReadyToBegin(p: Plan, w: World, y: Id, d: Id, reset: set<Id>)
    requires Settled(p, w) && w.up && w.runner.Spawned? && WaitsNow(p, w, y, d) && w.retry.Over?
    requires ResetBefore(w.rows, w.runner, y) <= reset
    ensures var rows := ResetRows(w.rows, reset);
      !Completes(rows, y) && forall h :: h in rows ==> !Halting(rows[h])
  {
    assert forall h :: h in w.rows && Halting(w.rows[h]) ==> h in Halts(w.rows, w.runner);
  }

  lemma BreakLater(p: Plan, w: World, y: Id, d: Id) returns (actions: seq<Action>)
    requires Settled(p, w) && w.up && w.runner.Spawned? && WaitsNow(p, w, y, d) && d in Left(w.retry)
    requires d !in Halts(w.rows, w.runner) && PauseOf(w.retry) != At(d)
    requires PassesLater(w.rows, w.runner, w.retry, w.kids)
    ensures CalmRun(p, w, actions) && Broken(p.deps, Run(p, w, actions))
  {
    if d == y {
      NoSelfWait(p, y);
    }
    var j :| j in Live(w.retry, w.kids) && j !in Halts(w.rows, w.runner) && PauseOf(w.retry) != At(j);
    assert Completes(w.rows, y) ==> Stands(p.deps, w, y) || y in Left(w.retry);
    var some := ResetBefore(w.rows, w.runner, y);
    var first := ParkBehind(p, w, some, j);
    QuietIsCalm(p, w, first);
    ReadyToBegin(p, w, y, d, WaitingRow(w.retry) + some);
    var rest := BeginBreaks(p, Run(p, w, first), y, d);
    CalmConcat(p, w, first, rest);
    actions := first + rest;
  }

  lemma BreakSpawned(p: Plan, w: World, y: Id, d: Id) returns (actions: seq<Action>)
    requires Settled(p, w) && w.up && w.runner.Spawned? && WaitsNow(p, w, y, d)
    ensures CalmRun(p, w, actions) && Broken(p.deps, Run(p, w, actions))
  {
    if d in w.cancel.marks {
      actions := BreakMarked(p, w, y, d);
    } else if PassesNow(w.rows, w.runner, w.retry) && !Completes(w.rows, y) {
      assert forall h :: h in w.rows && Halting(w.rows[h]) ==> h in Halts(w.rows, w.runner);
      actions := BeginBreaks(p, w, y, d);
    } else {
      actions := BreakLater(p, w, y, d);
    }
  }

  /** Some run, in which no further risk begins and nothing cuts a retry short, leaves a completed step on a dependency
      that is not completed. */
  ghost predicate Breakable(p: Plan, w: World) {
    exists actions {:trigger CalmRun(p, w, actions)} ::
      CalmRun(p, w, actions) && Broken(p.deps, Run(p, w, actions))
  }

  /** The risk is exactly what breaks "a completed step has only completed dependencies". */
  lemma RiskExactly(p: Plan, w: World)
    requires Settled(p, w) && w.up
    ensures RiskyNow(p, w) <==> Breakable(p, w)
  {
    if RiskyNow(p, w) {
      var y, d :| Waits(p, w.rows, w.runner, w.retry, w.kids, w.cancel.marks, y, d);
      assert WaitsNow(p, w, y, d);
      if w.runner.Going? {
        var actions := BreakGoing(p, w, y, d);
      } else {
        var actions := BreakSpawned(p, w, y, d);
      }
    } else {
      forall actions | CalmRun(p, w, actions) ensures !Broken(p.deps, Run(p, w, actions)) {
        CalmKeeps(p, w, actions);
        if Run(p, w, actions).retry.Idle? {
          IdleIsSolid(p, Run(p, w, actions));
        }
      }
    }
  }

  /** A retry that does not wait for a live runner, in terms of the rows, the runner and the child tasks at the call:
      some run after it leaves a completed step on a dependency that is not, exactly when it is risky. */
  lemma RetryBesideRunnerExactly(p: Plan, w: World, target: Id)
    requires Settled(p, w) && Yields(w) && w.retry.Idle? && target in w.rows
    ensures Breakable(p, Step(p, w, Retry(target))) <==>
      Risky(p, w.rows, w.runner, Over(DownstreamOf(p.deps, target), w.kids, NoPause), w.kids, w.cancel.marks)
  {
    var next := Step(p, w, Retry(target));
    ShapedStep(p, w, Retry(target));
    NoneDoomedStep(p, w, Retry(target));
    FoundedRetry(p, w, target);
    RiskExactly(p, next);
  }

  /** A retry of rows without live child tasks is one step: it is risky only for what the runner holds completed, and
      not for a runner that has not begun. */
  lemma RetryWithoutChildren(p: Plan, w: World, target: Id)
    requires Settled(p, w) && w.cancel.marks == {} && DownstreamOf(p.deps, target) * w.kids == {}
    ensures var reset := DownstreamOf(p.deps, target);
      Risky(p, w.rows, w.runner, Over(reset, w.kids, NoPause), w.kids, {}) <==>
        exists y, d :: y in p.deps && d in p.deps[y] && Coming(p, w.rows, w.runner, reset, y)
          && d in Held(w.runner) && (d in reset || (d in w.rows && w.rows[d] != Completed))
  {
    var reset := DownstreamOf(p.deps, target);
    var s := Over(reset, w.kids, NoPause);
    assert Live(s, w.kids) == {};
    if Risky(p, w.rows, w.runner, s, w.kids, {}) {
      var y, d :| Waits(p, w.rows, w.runner, s, w.kids, {}, y, d);
      assert d in Held(w.runner);
    }
    forall y, d | y in p.deps && d in p.deps[y] && Coming(p, w.rows, w.runner, reset, y)
      && d in Held(w.runner) && (d in reset || (d in w.rows && w.rows[d] != Completed))
      ensures Risky(p, w.rows, w.runner, s, w.kids, {}) {
      assert Waits(p, w.rows, w.runner, s, w.kids, {}, y, d);
    }
  }

  // ------------------------------------------------------------------ Witness: a crash inside a retry

  // Two steps, the second depends on the first, and both are completed.
  const TWO := Plan(map["1" := {}, "2" := {"1"}], {})
  const BOTH := World(map["1" := Completed, "2" := Completed], FlowCompleted, NoRunner, Idle, NONE, {}, true,
                      map["1" := 0, "2" := 0], 1)

  lemma BothIsSure()
    ensures Sure(TWO, BOTH)
  {
    FinishedStaysSound(TWO.deps, {}, "1");
    FinishedStaysSound(TWO.deps, {"1"}, "2");
  }

  lemma FirstResetOnly()
    ensures Run(TWO, BOTH, [Retry("1"), ResetRow("1")]) ==
      BOTH.(rows := map["1" := Pending, "2" := Completed], retry := Over({"2"}, {}, NoPause), ops := 2)
  {
    DownstreamIs(TWO.deps, "1", {"1", "2"});
    var w1 := BOTH.(retry := Over({"1", "2"}, {}, NoPause), ops := 2);
    assert Step(TWO, BOTH, Retry("1")) == w1;
    assert w1.rows["1" := Pending] == map["1" := Pending, "2" := Completed] && {"1", "2"} - {"1"} == {"2"};
    assert w1.kids - {"1"} == {} && w1.retry.may - {"1"} == {};
    RunCons(TWO, BOTH, Retry("1"), [ResetRow("1")]);
    RunOne(TWO, w1, ResetRow("1"));
  }

  /** A retry of the first step resets it before its dependent, and a crash falls between the two: the workflow counts
      as completed, so recovery leaves it alone, with a completed step above a pending one. */
  lemma CrashedRetryLeavesGap()
    ensures Sure(TWO, BOTH)
    ensures var w := Run(TWO, BOTH, [Retry("1"), ResetRow("1")] + [Crash, Recover]);
      w.rows == map["1" := Pending, "2" := Completed] && w.state.FlowCompleted? && w.up && w.runner.NoRunner?
  {
    BothIsSure();
    FirstResetOnly();
    var w2 := Run(TWO, BOTH, [Retry("1"), ResetRow("1")]);
    RunConcat(TWO, BOTH, [Retry("1"), ResetRow("1")], [Crash, Recover]);
    RunCons(TWO, w2, Crash, [Recover]);
    RunOne(TWO, Step(TWO, w2, Crash), Recover);
  }

  // ------------------------------------------------------------------ Witness: a child task that cannot be cancelled

  // Two steps depend on the first; the last one failed by its time limit, and its child task is still running.
  const FORK := Plan(map["1" := {}, "2" := {"1"}, "3" := {"1"}], {})
  const TIMED_OUT := World(map["1" := Completed, "2" := Completed, "3" := Failed], FlowFailed, NoRunner, Idle, NONE,
                           {"3"}, true, map["1" := 0, "2" := 0, "3" := 0], 1)

  lemma TimedOutIsSure()
    ensures Sure(FORK, TIMED_OUT)
  {
    FinishedStaysSound(FORK.deps, {}, "1");
    FinishedStaysSound(FORK.deps, {"1"}, "2");
  }

  /** A retry of the first step resets it, and then cannot cancel the child task of the last one: it ends there with an
      exception, with a completed step above a pending one, and nothing goes on. */
  lemma RaisedRetryLeavesGap()
    ensures Sure(FORK, TIMED_OUT)
    ensures var w := Run(FORK, TIMED_OUT, [Retry("1"), ResetRow("1"), Drop("3")]);
      && w.rows == map["1" := Pending, "2" := Completed, "3" := Failed] && w.state.FlowFailed?
      && w.up && w.runner.NoRunner? && w.retry.Idle?
  {
    TimedOutIsSure();
    DownstreamIs(FORK.deps, "1", {"1", "2", "3"});
    var w1 := TIMED_OUT.(retry := Over({"1", "2", "3"}, {"3"}, NoPause), ops := 2);
    assert Step(FORK, TIMED_OUT, Retry("1")) == w1;
    var w2 := Step(FORK, w1, ResetRow("1"));
    assert w2.rows == map["1" := Pending, "2" := Completed, "3" := Failed] && Waited(w2, "3");
    RunCons(FORK, TIMED_OUT, Retry("1"), [ResetRow("1"), Drop("3")]);
    RunCons(FORK, w1, ResetRow("1"), [Drop("3")]);
    RunOne(FORK, w2, Drop("3"));
  }

  // ------------------------------------------------------------------ Witness: a retry beside a runner

  // Steps 1 and 4 are completed and 2 is running; 3 waits for 1 and 2.
  const FOUR := Plan(map["1" := {}, "2" := {"4"}, "3" := {"1", "2"}, "4" := {}], {})

  function Half(two: RowState, three: RowState, runner: Runner): World {
    World(map["1" := Completed, "2" := two, "3" := three, "4" := Completed], FlowRunning, runner, Idle, NONE, {}, true,
          map["1" := 0, "2" := 0, "3" := 0, "4" := 0], 1)
  }

  const HALF := Half(Running, Pending, Going({"1", "4"}, {"2", "3"}, {"2"}, {"2"}, {}, {}))

  const DONE := Going({"1", "4"}, {"2", "3"}, {"2"}, {"2"}, {"2"}, {})

  lemma HalfIsShaped()
    ensures Shaped(FOUR, HALF) && NoneDoomed(FOUR, HALF)
  {
    FinishedStaysSound(FOUR.deps, {}, "1");
    FinishedStaysSound(FOUR.deps, {}, "4");
    FinishedStaysSound(FOUR.deps, {"4"}, "2");
  }

  lemma HalfIsSure()
    ensures Sure(FOUR, HALF)
  {
    HalfIsShaped();
    NothingDoubtful(FOUR, HALF);
  }

  // Rows and runner after the retry and behind it.
  function After(two: RowState, three: RowState, state: FlowState, runner: Runner): World {
    World(map["1" := Pending, "2" := two, "3" := three, "4" := Completed], state, runner, Idle, NONE, {}, true,
          map["1" := 0, "2" := 0, "3" := 0, "4" := 0], 2)
  }

  lemma SameRows(before: Rows, after: Rows, reset: set<Id>, rows: Rows)
    requires after.Keys == before.Keys == rows.Keys
    requires forall x :: x in before ==> after[x] == if x in reset then Pending else before[x]
    requires forall x :: x in before ==> rows[x] == if x in reset then Pending else before[x]
    ensures after == rows
  {
  }

  lemma RetriesFirst()
    ensures Run(FOUR, HALF, RetryActions("1", ["3", "1"], {})) == After(Running, Pending, FlowRecovering, HALF.runner)
  {
    DownstreamIs(FOUR.deps, "1", {"1", "3"});
    assert Lists(["3", "1"], {"1", "3"});
    HalfIsSure();
    RetryResetsDownstream(FOUR, HALF, "1", ["3", "1"]);
    var after := Run(FOUR, HALF, RetryActions("1", ["3", "1"], HALF.kids));
    SameRows(HALF.rows, after.rows, {"1", "3"}, After(Running, Pending, FlowRecovering, HALF.runner).rows);
    assert HALF.kids == HALF.kids - {"1", "3"} == {};
  }

  lemma SecondFinishes()
    ensures Step(FOUR, After(Running, Pending, FlowRecovering, HALF.runner), Finish("2", true)) ==
      After(Completed, Pending, FlowRecovering, DONE)
  {
    var w0 := After(Running, Pending, FlowRecovering, HALF.runner);
    assert w0.rows["2" := Completed] == After(Completed, Pending, FlowRecovering, HALF.runner).rows;
    assert HALF.runner.good + {"2"} == {"2"} && w0.kids - {"2"} == {};
  }

  lemma SecondGathered()
    ensures Run(FOUR, After(Completed, Pending, FlowRecovering, DONE), [Gathered, Round]) ==
      After(Completed, Pending, FlowRecovering, Going({"1", "2", "4"}, {"3"}, {"3"}, {}, {}, {}))
  {
    var w1 := After(Completed, Pending, FlowRecovering, DONE);
    var w2 := After(Completed, Pending, FlowRecovering, Going({"1", "2", "4"}, {"3"}, {}, {}, {}, {}));
    assert {"1", "4"} + {"2"} == {"1", "2", "4"} && {"2", "3"} - {"2"} == {"3"};
    assert Step(FOUR, w1, Gathered) == w2;
    assert ReadyOf(FOUR, w2.runner) == {"3"};
    RunCons(FOUR, w1, Gathered, [Round]);
    RunOne(FOUR, w2, Round);
  }

  lemma SecondEnds()
    ensures Run(FOUR, After(Running, Pending, FlowRecovering, HALF.runner), [Finish("2", true), Gathered, Round]) ==
      After(Completed, Pending, FlowRecovering, Going({"1", "2", "4"}, {"3"}, {"3"}, {}, {}, {}))
  {
    SecondFinishes();
    SecondGathered();
    RunCons(FOUR, After(Running, Pending, FlowRecovering, HALF.runner), Finish("2", true), [Gathered, Round]);
  }

  const READY := Going({"1", "2", "4"}, {"3"}, {"3"}, {}, {}, {})

  lemma ThirdRuns()
    ensures Run(FOUR, After(Completed, Pending, FlowRecovering, READY), [Start("3"), Finish("3", true)]) ==
      After(Completed, Completed, FlowRecovering, Going({"1", "2", "4"}, {"3"}, {"3"}, {"3"}, {"3"}, {}))
  {
    var w0 := After(Completed, Pending, FlowRecovering, READY);
    var w1 := After(Completed, Running, FlowRecovering, Going({"1", "2", "4"}, {"3"}, {"3"}, {"3"}, {}, {}));
    assert w0.rows["3" := Running] == w1.rows && {} + {"3"} == {"3"};
    assert Step(FOUR, w0, Start("3")) == w1;
    RunCons(FOUR, w0, Start("3"), [Finish("3", true)]);
    RunOne(FOUR, w1, Finish("3", true));
    assert w1.rows["3" := Completed] == After(Completed, Completed, FlowRecovering, READY).rows;
    assert w1.kids - {"3"} == {};
  }

  lemma ThirdGathered()
    ensures Run(FOUR, After(Completed, Completed, FlowRecovering,
                            Going({"1", "2", "4"}, {"3"}, {"3"}, {"3"}, {"3"}, {})), [Gathered, Round]) ==
      After(Completed, Completed, FlowCompleted, NoRunner)
  {
    var w2 := After(Completed, Completed, FlowRecovering, Going({"1", "2", "4"}, {"3"}, {"3"}, {"3"}, {"3"}, {}));
    var w3 := Step(FOUR, w2, Gathered);
    assert w3.runner.todo == {};
    RunCons(FOUR, w2, Gathered, [Round]);
    RunOne(FOUR, w3, Round);
  }

  lemma ThirdEnds()
    ensures Run(FOUR, After(Completed, Pending, FlowRecovering, READY),
                [Start("3"), Finish("3", true)] + [Gathered, Round]) ==
      After(Completed, Completed, FlowCompleted, NoRunner)
  {
    ThirdRuns();
    ThirdGathered();
    RunConcat(FOUR, After(Completed, Pending, FlowRecovering, READY), [Start("3"), Finish("3", true)],
              [Gathered, Round]);
  }

  /** A retry beside a runner that holds the retried step completed: step 3 completes on that belief, step 1 is never
      run again, and the workflow counts as completed. The order of the resets is the careful one. */
  lemma StaleResultsComplete()
    ensures Sure(FOUR, HALF)
    ensures var w := Run(FOUR, HALF, RetryActions("1", ["3", "1"], {}) +
                         ([Finish("2", true), Gathered, Round] +
                          ([Start("3"), Finish("3", true)] + [Gathered, Round])));
      && w.rows == map["1" := Pending, "2" := Completed, "3" := Completed, "4" := Completed]
      && w.state.FlowCompleted? && w.runner.NoRunner?
  {
    HalfIsSure();
    RetriesFirst();
    SecondEnds();
    ThirdEnds();
    var second := [Finish("2", true), Gathered, Round];
    var third := [Start("3"), Finish("3", true)] + [Gathered, Round];
    RunConcat(FOUR, HALF, RetryActions("1", ["3", "1"], {}), second + third);
    RunConcat(FOUR, Run(FOUR, HALF, RetryActions("1", ["3", "1"], {})), second, third);
  }
}
