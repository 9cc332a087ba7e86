/** The durable outbound queue of one conversation is a plain FIFO queue. */
module OutboxFifo {
  import opened Outbox

  /** Everything accepted during a run, in order. */
  function Inputs(s: State, acts: seq<Action>): seq<string>
    decreases |acts|
  {
    if acts == [] then [] else Input(s, acts[0]) + Inputs(Step(s, acts[0]), acts[1..])
  }

  /** Every run of senders, retries, failures, cancellations, crashes and restarts is a run of a FIFO queue:
      what came out is a prefix of what went in, in the order in which it went in. */
  lemma {:induction false} OutboxIsFifo(s: State, acts: seq<Action>)
    requires Queued(s)
    ensures var t := Run(s, acts);
      && Queued(t)
      && Abs(t).all == Abs(s).all + Inputs(s, acts)
      && Abs(s).out <= Abs(t).out <= |Abs(t).all|
    decreases |acts|
  {
    if acts == [] {
      assert Abs(s).all + [] == Abs(s).all;
    } else {
      var s1 := Step(s, acts[0]);
      FifoStep(s, acts[0]);
      OutboxIsFifo(s1, acts[1..]);
      Regroup(Abs(s).all, Input(s, acts[0]), Inputs(s1, acts[1..]));
    }
  }

  /** From the empty queue, and row by row: the rows are what was accepted, in that order; creation stamps increase; a
      row that is sending or delivered has only delivered rows before it. */
  lemma RowsAreFifo(acts: seq<Action>)
    ensures var rows := Run(Empty, acts).rows;
      && Texts(rows) == Inputs(Empty, acts)
      && (forall i, j :: 0 <= i < j < |rows| ==> rows[i].ms < rows[j].ms)
      && (forall i, j :: 0 <= i < j < |rows| && rows[j].state != Pending ==> rows[i].state == Delivered)
  {
    OutboxIsFifo(Empty, acts);
    var rows := Run(Empty, acts).rows;
    assert Abs(Empty).all == [];
    forall i, j | 0 <= i < j < |rows| ensures rows[i].ms < rows[j].ms {
      assert Earlier(rows, i, j);
    }
  }

  lemma FifoStep(s: State, a: Action)
    requires Queued(s)
    ensures var t := Step(s, a);
      && Queued(t)
      && Abs(t).all == Abs(s).all + Input(s, a)
      && Abs(s).out <= Abs(t).out <= |Abs(t).all|
  {
    QueuedStep(s, a);
    assert Abs(s).all + [] == Abs(s).all;
  }

  lemma Regroup(a: seq<string>, b: seq<string>, c: seq<string>)
    ensures (a + b) + c == a + (b + c)
  {
  }
}
