/** The durable outbound queue of one conversation (workbot/main.py: _send_text, _attempt_outbound, _outbound_loop).

    Direct senders and the retry loop share a per-conversation lock; `holder` is the next step of whoever
    owns it.  The loop chooses its row before it takes the lock, so its choice can be stale.  Every action
    is total and a run is any sequence of actions. */
module Outbox {

  datatype RowState = Pending | Sending | Delivered

  datatype Row = Row(text: string, ms: int, state: RowState, attempts: nat)

  // A message in the chat history; `row` is the outbox row it was sent for, -1 for anybody else's.
  datatype Post = Post(text: string, at: int, row: int)

  // `end` is where the direct sender's batch ends; 0 marks the retry loop.
  datatype Holder =
    | Free
    | Claim(i: nat, end: nat)
    | Verify(i: nat, end: nat)
    | Transmit(i: nat, end: nat)
    | Recheck(i: nat, end: nat)
    | Settle(i: nat, end: nat, ok: bool)

  datatype State = State(up: bool, rows: seq<Row>, history: seq<Post>, holder: Holder, loop: int)

  datatype SendResult = Accepted | Transient | Refused

  datatype Action =
    | Send(texts: seq<string>, now: int)
    | Pick | LoopLock
    | Advance                                        // claim or settle
    | Ask(answered: bool, found: bool)               // history query; not answered: it raised
    | Wire(result: SendResult, posted: bool, at: int)
    | Abort                                          // CancelledError inside the attempt
    | Foreign(text: string, at: int)
    | Crash | Restart

  // ------------------------------------------------------------------ Rows

  // Number of leading delivered rows.
  function Head(rows: seq<Row>): (d: nat)
    ensures d <= |rows|
    ensures forall k :: 0 <= k < d ==> rows[k].state == Delivered
    ensures d < |rows| ==> rows[d].state != Delivered
  {
    if rows == [] || rows[0].state != Delivered then 0
    else
      var d := Head(rows[1..]);
      assert forall k :: 1 <= k < 1 + d ==> rows[k] == rows[1..][k - 1];
      1 + d
  }

  function LastMs(rows: seq<Row>): (m: int)
    ensures forall k :: 0 <= k < |rows| ==> rows[k].ms <= m
  {
    if rows == [] then 0
    else
      var m := LastMs(rows[..|rows| - 1]);
      assert forall k :: 0 <= k < |rows| - 1 ==> rows[k] == rows[..|rows| - 1][k];
      if rows[|rows| - 1].ms > m then rows[|rows| - 1].ms else m
  }

  function Base(rows: seq<Row>, now: int): int {
    if now > LastMs(rows) + 1 then now else LastMs(rows) + 1
  }

  function Fresh(texts: seq<string>, base: int): seq<Row> {
    seq(|texts|, k requires 0 <= k < |texts| => Row(texts[k], base + k, Pending, 0))
  }

  function SetState(rows: seq<Row>, i: nat, state: RowState): seq<Row>
    requires i < |rows|
  {
    rows[i := rows[i].(state := state)]
  }

  function Requeue(rows: seq<Row>): seq<Row> {
    seq(|rows|, k requires 0 <= k < |rows| => if rows[k].state == Sending then rows[k].(state := Pending) else rows[k])
  }

  // ------------------------------------------------------------------ Steps

  // _send_text: persist every part, and start sending only when nothing older is undelivered.
  function Enqueue(s: State, texts: seq<string>, now: int): State {
    if !s.up || s.holder != Free || texts == [] then s
    else
      var older := Head(s.rows) < |s.rows|;
      var rows := s.rows + Fresh(texts, Base(s.rows, now));
      s.(rows := rows, holder := if older then Free else Claim(|s.rows|, |rows|))
  }

  // The loop's query: the oldest undelivered row, if it is pending (and due).
  function PickRow(s: State): State {
    var d := Head(s.rows);
    if s.up && s.loop == -1 && d < |s.rows| && s.rows[d].state == Pending then s.(loop := d) else s
  }

  function TakeTurn(s: State): State {
    if s.up && s.loop >= 0 && s.holder == Free then s.(loop := -1, holder := Claim(s.loop, 0)) else s
  }

  // After row i: the next row of the batch, or the lock is released.
  function Onward(i: nat, end: nat): Holder {
    if i + 1 < end then Claim(i + 1, end) else Free
  }

  // The compare-and-set claim, and the update that ends an attempt.
  function AdvanceHolder(s: State): State {
    if !s.up then s else
    match s.holder
    case Claim(i, end) =>
      if i >= |s.rows| || s.rows[i].state != Pending then s.(holder := Free)
      else s.(rows := SetState(s.rows, i, Sending), holder := if end == 0 then Verify(i, end) else Transmit(i, end))
    case Settle(i, end, ok) =>
      if i >= |s.rows| then s.(holder := Free)
      else if ok then
        s.(rows := if s.rows[i].state == Sending then SetState(s.rows, i, Delivered) else s.rows,
           holder := Onward(i, end))
      else s.(rows := s.rows[i := s.rows[i].(state := Pending, attempts := s.rows[i].attempts + 1)], holder := Free)
    case _ => s
  }

  function AskHistory(s: State, answered: bool, found: bool): State {
    if !s.up then s else
    match s.holder
    case Verify(i, end) =>
      s.(holder :=
        if !answered then Settle(i, end, false) else if found then Settle(i, end, true) else Transmit(i, end))
    case Recheck(i, end) => s.(holder := Settle(i, end, answered && found))
    case _ => s
  }

  function WireSend(s: State, result: SendResult, posted: bool, at: int): State {
    if !s.up || !s.holder.Transmit? || s.holder.i >= |s.rows| then s
    else
      var i, end := s.holder.i, s.holder.end;
      s.(history := if posted then s.history + [Post(s.rows[i].text, at, i)] else s.history,
         holder := match result
                   case Accepted => Settle(i, end, true)
                   case Transient => Recheck(i, end)
                   case Refused => Settle(i, end, false))
  }

  function AbortAttempt(s: State): State {
    if s.up && (s.holder.Verify? || s.holder.Transmit? || s.holder.Recheck?) then s.(holder := Free) else s
  }

  function Step(s: State, a: Action): State {
    match a
    case Send(texts, now) => Enqueue(s, texts, now)
    case Pick => PickRow(s)
    case LoopLock => TakeTurn(s)
    case Advance => AdvanceHolder(s)
    case Ask(answered, found) => AskHistory(s, answered, found)
    case Wire(result, posted, at) => WireSend(s, result, posted, at)
    case Abort => AbortAttempt(s)
    case Foreign(text, at) => s.(history := s.history + [Post(text, at, -1)])
    case Crash => s.(up := false, holder := Free, loop := -1)
    case Restart => if s.up then s else s.(up := true, rows := Requeue(s.rows))
  }

  function Run(s: State, acts: seq<Action>): State
    decreases |acts|
  {
    if acts == [] then s else Run(Step(s, acts[0]), acts[1..])
  }

  const Empty := State(true, [], [], Free, -1)

  // ------------------------------------------------------------------ FIFO

  predicate Earlier(rows: seq<Row>, i: nat, j: nat)
    requires i < j < |rows|
  {
    rows[i].ms < rows[j].ms
  }

  /** Stamps strictly increase, delivered rows are a prefix, and only the first undelivered row can be sending. */
  predicate Fifo(rows: seq<Row>) {
    && (forall i, j {:trigger Earlier(rows, i, j)} :: 0 <= i < j < |rows| ==> Earlier(rows, i, j))
    && (forall k :: Head(rows) < k < |rows| ==> rows[k].state == Pending)
  }

  predicate HolderFits(s: State) {
    var d := Head(s.rows);
    && -1 <= s.loop <= d
    && (!s.up ==> s.holder == Free)
    && match s.holder
       case Free => true
       case Claim(i, end) =>
         && (end == 0 ==> i <= d)
         && (end != 0 ==> i == d < end == |s.rows| && s.rows[d].state == Pending)
       case Verify(i, end) => i == d < |s.rows| && s.rows[d].state == Sending && end == 0
       case Transmit(i, end) => i == d < |s.rows| && s.rows[d].state == Sending && (end == 0 || end == |s.rows|)
       case Recheck(i, end) => i == d < |s.rows| && s.rows[d].state == Sending && (end == 0 || end == |s.rows|)
       case Settle(i, end, _) => i == d < |s.rows| && s.rows[d].state == Sending && (end == 0 || end == |s.rows|)
  }

  predicate Queued(s: State) {
    Fifo(s.rows) && HolderFits(s)
  }

  // ------------------------------------------------------------------ Refinement of a plain FIFO

  /** The queue a caller sees: everything ever enqueued, and how much of it has come out. */
  datatype Queue = Queue(all: seq<string>, out: nat)

  function Texts(rows: seq<Row>): seq<string> {
    seq(|rows|, k requires 0 <= k < |rows| => rows[k].text)
  }

  function Abs(s: State): Queue {
    Queue(Texts(s.rows), Head(s.rows))
  }

  /** Put a batch at the back, take one from the front, or do nothing. */
  predicate QueueStep(q: Queue, r: Queue, batch: seq<string>) {
    || (r.all == q.all + batch && r.out == q.out)
    || (batch == [] && r.all == q.all && r.out == q.out + 1 <= |q.all|)
  }

  lemma StampsKept(rows: seq<Row>, after: seq<Row>)
    requires |after| == |rows| && forall k :: 0 <= k < |rows| ==> after[k].ms == rows[k].ms
    requires forall i, j {:trigger Earlier(rows, i, j)} :: 0 <= i < j < |rows| ==> Earlier(rows, i, j)
    ensures forall i, j {:trigger Earlier(after, i, j)} :: 0 <= i < j < |after| ==> Earlier(after, i, j)
  {
    forall i, j | 0 <= i < j < |after| ensures Earlier(after, i, j) {
      assert Earlier(rows, i, j);
    }
  }

  lemma HeadUnique(rows: seq<Row>, d: nat)
    requires d <= |rows| && (forall k :: 0 <= k < d ==> rows[k].state == Delivered)
    requires d < |rows| ==> rows[d].state != Delivered
    ensures Head(rows) == d
  {
  }

  /** What a step puts in: the batch of an accepted _send_text. */
  function Input(s: State, a: Action): seq<string> {
    if a.Send? && s.up && s.holder == Free then a.texts else []
  }

  lemma SendKeeps(s: State, texts: seq<string>, now: int)
    requires Queued(s)
    ensures Queued(Enqueue(s, texts, now))
    ensures QueueStep(Abs(s), Abs(Enqueue(s, texts, now)), Input(s, Send(texts, now)))
  {
    var t := Enqueue(s, texts, now);
    if t != s {
      HeadUnique(t.rows, Head(s.rows));
      forall i, j | 0 <= i < j < |t.rows| ensures Earlier(t.rows, i, j) {
        assert j < |s.rows| ==> Earlier(s.rows, i, j);
      }
    }
    assert Texts(t.rows) == Texts(s.rows) + Input(s, Send(texts, now));
  }

  lemma ClaimKeeps(s: State)
    requires Queued(s) && s.holder.Claim?
    ensures Queued(AdvanceHolder(s)) && QueueStep(Abs(s), Abs(AdvanceHolder(s)), [])
  {
    var t := AdvanceHolder(s);
    StampsKept(s.rows, t.rows);
    HeadUnique(t.rows, Head(s.rows));
    assert Texts(t.rows) == Texts(s.rows) == Texts(s.rows) + [];
  }

  lemma SettleKeeps(s: State)
    requires Queued(s) && s.holder.Settle?
    ensures Queued(AdvanceHolder(s)) && QueueStep(Abs(s), Abs(AdvanceHolder(s)), [])
  {
    var t := AdvanceHolder(s);
    StampsKept(s.rows, t.rows);
    HeadUnique(t.rows, if s.holder.ok then Head(s.rows) + 1 else Head(s.rows));
    assert Texts(t.rows) == Texts(s.rows) == Texts(s.rows) + [];
  }

  lemma HeadAfterAdvance(s: State)
    requires Queued(s)
    ensures Head(AdvanceHolder(s).rows) == Head(s.rows) + (if s.holder.Settle? && s.holder.ok then 1 else 0)
  {
    var t := AdvanceHolder(s);
    if s.holder.Settle? {
      HeadUnique(t.rows, if s.holder.ok then Head(s.rows) + 1 else Head(s.rows));
    } else if s.holder.Claim? {
      HeadUnique(t.rows, Head(s.rows));
    }
  }

  lemma RestartKeeps(s: State)
    requires Queued(s)
    ensures Queued(Step(s, Restart)) && QueueStep(Abs(s), Abs(Step(s, Restart)), [])
  {
    var t := Step(s, Restart);
    StampsKept(s.rows, t.rows);
    HeadUnique(t.rows, Head(s.rows));
    assert Texts(t.rows) == Texts(s.rows) == Texts(s.rows) + [];
  }

  lemma WireKeeps(s: State, result: SendResult, posted: bool, at: int)
    requires Queued(s)
    ensures Queued(WireSend(s, result, posted, at)) && WireSend(s, result, posted, at).rows == s.rows
  {
  }

  lemma AskKeeps(s: State, answered: bool, found: bool)
    requires Queued(s)
    ensures Queued(AskHistory(s, answered, found)) && AskHistory(s, answered, found).rows == s.rows
  {
  }

  lemma LoopKeeps(s: State, a: Action)
    requires Queued(s) && (a.Pick? || a.LoopLock? || a.Abort? || a.Foreign? || a.Crash?)
    ensures Queued(Step(s, a)) && Step(s, a).rows == s.rows
  {
  }

  lemma OtherKeeps(s: State, a: Action)
    requires Queued(s) && !a.Send? && !a.Restart? && (a.Advance? ==> !s.holder.Claim? && !s.holder.Settle?)
    ensures Queued(Step(s, a)) && QueueStep(Abs(s), Abs(Step(s, a)), [])
  {
    if a.Wire? {
      WireKeeps(s, a.result, a.posted, a.at);
    } else if a.Ask? {
      AskKeeps(s, a.answered, a.found);
    } else if !a.Advance? {
      LoopKeeps(s, a);
    }
    assert Step(s, a).rows == s.rows;
    assert Texts(s.rows) == Texts(s.rows) + [];
  }

  lemma QueuedStep(s: State, a: Action)
    requires Queued(s)
    ensures Queued(Step(s, a)) && QueueStep(Abs(s), Abs(Step(s, a)), Input(s, a))
  {
    if a.Send? {
      SendKeeps(s, a.texts, a.now);
    } else if a.Restart? {
      RestartKeeps(s);
    } else if a.Advance? && s.holder.Claim? {
      ClaimKeeps(s);
    } else if a.Advance? && s.holder.Settle? {
      SettleKeeps(s);
    } else {
      OtherKeeps(s, a);
    }
  }
}
