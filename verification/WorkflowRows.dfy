/** Stored workflow and step states (workbot/orchestration/manager.py) and what each operation does to all rows. */
module WorkflowRows {
  import opened WorkflowGraph

  datatype RowState = Pending | Running | Completed | Failed | Interrupted | Cancelled

  datatype FlowState =
    | FlowCreated | FlowRunning | FlowRecovering | FlowBlocked | FlowCancelling
    | FlowCompleted | FlowFailed | FlowCancelled
  {
    predicate Terminal() {
      FlowCompleted? || FlowFailed? || FlowCancelled?
    }
  }

  type Rows = map<Id, RowState>

  function InState(rows: Rows, state: RowState): set<Id> {
    set x | x in rows && rows[x] == state
  }

  // Rows an operator has to deal with before a runner goes on.
  predicate Halting(state: RowState) {
    state.Failed? || state.Interrupted? || state.Cancelled?
  }

  function Update(rows: Rows, which: set<Id>, state: RowState): Rows {
    map x | x in rows :: if x in which then state else rows[x]
  }

  function ResetRows(rows: Rows, which: set<Id>): Rows {
    Update(rows, which, Pending)
  }

  // Windows steps found running at a restart.
  function FoundRunning(rows: Rows, windows: set<Id>): set<Id> {
    InState(rows, Running) * windows
  }

  // The rows a cancellation marks.
  function Unfinished(rows: Rows): set<Id> {
    rows.Keys - InState(rows, Completed) - InState(rows, Failed)
  }

  predicate HasDeps(g: Graph, rows: Rows, x: Id) {
    x in g && forall d :: d in g[x] ==> d in rows && rows[d] == Completed
  }

  /** A completed step has only completed dependencies. */
  predicate Founded(g: Graph, rows: Rows) {
    forall x {:trigger HasDeps(g, rows, x)} :: x in rows && rows[x] == Completed ==> HasDeps(g, rows, x)
  }

  /** No completed step lies on or depends on a cycle. */
  ghost predicate Sound(g: Graph, rows: Rows) {
    forall x {:trigger Doomed(g, x)} :: x in rows && rows[x] == Completed ==> !Doomed(g, x)
  }

  /** Resetting a step with all its dependents keeps the foundation of what stays completed. */
  lemma ResetKeepsFounded(g: Graph, rows: Rows, target: Id, reset: set<Id>)
    requires Founded(g, rows) && rows.Keys == g.Keys && IsDownstream(g, target, reset)
    ensures Founded(g, ResetRows(rows, reset))
  {
    var after := ResetRows(rows, reset);
    forall x | x in after && after[x] == Completed ensures HasDeps(g, after, x) {
      assert HasDeps(g, rows, x);
      forall d | d in g[x] ensures after[d] == Completed {
        if d in reset {
          DownstreamClosed(g, target, reset, x, d);
        }
      }
    }
  }

  // ------------------------------------------------------------------ Resetting one row at a time

  function First(order: seq<Id>, k: nat): set<Id>
    requires k <= |order|
  {
    set i | 0 <= i < k :: order[i]
  }

  /** `reset`, listed without repetition. */
  predicate Lists(order: seq<Id>, reset: set<Id>) {
    && (forall i :: 0 <= i < |order| ==> order[i] in reset)
    && (forall x :: x in reset ==> x in order)
    && (forall i, j :: 0 <= i < j < |order| ==> order[i] != order[j])
  }

  predicate Completes(rows: Rows, x: Id) {
    x in rows && rows[x] == Completed
  }

  /** A completed dependent stands before its dependency. */
  predicate DependentsFirst(g: Graph, rows: Rows, order: seq<Id>) {
    forall i, j :: 0 <= i < j < |order| && order[j] in g && order[i] in g[order[j]] ==> !Completes(rows, order[j])
  }

  /** No completed dependent among the later rows has a dependency among the first k. */
  predicate ClosedAt(g: Graph, rows: Rows, order: seq<Id>, k: nat) {
    forall i, j :: 0 <= i < k <= j < |order| && order[j] in g && order[i] in g[order[j]] ==> !Completes(rows, order[j])
  }

  /** A retry resets its rows one by one. What it leaves behind its first k rows is founded exactly when no completed
      dependent is left above one of them. */
  lemma PrefixFoundedExactly(g: Graph, rows: Rows, target: Id, reset: set<Id>, order: seq<Id>, k: nat)
    requires Known(g) && Founded(g, rows) && rows.Keys == g.Keys
    requires IsDownstream(g, target, reset) && Lists(order, reset) && k <= |order|
    ensures Founded(g, ResetRows(rows, First(order, k))) <==> ClosedAt(g, rows, order, k)
  {
    var after := ResetRows(rows, First(order, k));
    if ClosedAt(g, rows, order, k) {
      forall x | x in after && after[x] == Completed ensures HasDeps(g, after, x) {
        assert HasDeps(g, rows, x) && x !in First(order, k);
        forall d | d in g[x] && d in reset ensures x in reset {
          DownstreamClosed(g, target, reset, x, d);
        }
        if x in reset {
          var j :| 0 <= j < |order| && order[j] == x;
          assert k <= j;
        }
      }
    } else {
      var i, j :| 0 <= i < k <= j < |order| && order[j] in g && order[i] in g[order[j]] && Completes(rows, order[j]);
      assert order[i] in First(order, k) && order[j] !in First(order, k);
      assert after[order[i]] == Pending && after[order[j]] == Completed;
      assert !HasDeps(g, after, order[j]);
    }
  }

  /** Every prefix (where a crash can stop it) is founded exactly when each completed dependent is reset before its
      dependency. */
  lemma PrefixesFoundedExactly(g: Graph, rows: Rows, target: Id, reset: set<Id>, order: seq<Id>)
    requires Known(g) && Founded(g, rows) && rows.Keys == g.Keys
    requires IsDownstream(g, target, reset) && Lists(order, reset)
    ensures (forall k :: 0 <= k <= |order| ==> Founded(g, ResetRows(rows, First(order, k)))) <==>
      DependentsFirst(g, rows, order)
  {
    forall k | 0 <= k <= |order|
      ensures Founded(g, ResetRows(rows, First(order, k))) <==> ClosedAt(g, rows, order, k) {
      PrefixFoundedExactly(g, rows, target, reset, order, k);
    }
    if !DependentsFirst(g, rows, order) {
      var i, j :| 0 <= i < j < |order| && order[j] in g && order[i] in g[order[j]] && Completes(rows, order[j]);
      assert !ClosedAt(g, rows, order, j);
    }
  }
}
