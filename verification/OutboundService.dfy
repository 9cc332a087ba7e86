/** The senders of one conversation in the source's own form: an object that updates its rows in place.
    What the adapter answers during an attempt is an oracle. */
module OutboundService {
  import opened Outbox

  // Answers an attempt may meet: the check before sending, the send, and the check after a transient error.
  datatype Outcome = Outcome(
    answered: bool, found: bool,
    result: SendResult, posted: bool, at: int,
    reAnswered: bool, reFound: bool)

  /** What the adapter does between the claim and the outcome, as the chain of its steps. */
  function Exchange(s: State, o: Outcome): State {
    var s2 := if s.holder.Verify? then AskHistory(s, o.answered, o.found) else s;
    var s3 := if s2.holder.Transmit? then WireSend(s2, o.result, o.posted, o.at) else s2;
    if s3.holder.Recheck? then AskHistory(s3, o.reAnswered, o.reFound) else s3
  }

  /** One uninterrupted attempt. */
  function Attempt(s: State, o: Outcome): State {
    var s1 := Exchange(AdvanceHolder(s), o);
    if s1.holder.Settle? then AdvanceHolder(s1) else s1
  }

  /** A direct sender going through its batch. */
  function Batch(s: State, outcomes: seq<Outcome>): State
    decreases |outcomes|
  {
    if outcomes == [] || !s.holder.Claim? then s else Batch(Attempt(s, outcomes[0]), outcomes[1..])
  }

  lemma {:induction false} BatchMore(s: State, outcomes: seq<Outcome>, n: nat)
    requires n < |outcomes|
    ensures Batch(s, outcomes[..n + 1]) ==
      if Batch(s, outcomes[..n]).holder.Claim? then Attempt(Batch(s, outcomes[..n]), outcomes[n])
      else Batch(s, outcomes[..n])
    decreases n
  {
    if n == 0 {
      assert outcomes[..1][1..] == [];
    } else if s.holder.Claim? {
      var rest := outcomes[1..];
      assert outcomes[..n + 1][1..] == rest[..n] && outcomes[..n][1..] == rest[..n - 1];
      BatchMore(Attempt(s, outcomes[0]), rest, n - 1);
    }
  }

  lemma {:induction false} BatchStops(s: State, outcomes: seq<Outcome>, n: nat)
    requires n <= |outcomes| && !Batch(s, outcomes[..n]).holder.Claim?
    ensures Batch(s, outcomes) == Batch(s, outcomes[..n])
    decreases n
  {
    if n > 0 && s.holder.Claim? {
      assert outcomes[..n][1..] == outcomes[1..][..n - 1];
      BatchStops(Attempt(s, outcomes[0]), outcomes[1..], n - 1);
    }
  }

  lemma BatchNext(s: State, outcomes: seq<Outcome>, n: nat, current: State)
    requires n < |outcomes| && current == Batch(s, outcomes[..n]) && current.holder.Claim?
    ensures Attempt(current, outcomes[n]) == Batch(s, outcomes[..n + 1])
  {
    BatchMore(s, outcomes, n);
  }

  // ------------------------------------------------------------------ When an attempt delivers

  /** The message goes out at once, or after an answered check that did not find it. */
  predicate Sends(verify: bool, o: Outcome) {
    !verify || (o.answered && !o.found)
  }

  /** The row counts as delivered: the check before sending found it, or it was sent and accepted, or it was sent, met a
      transient error and an answered check found it. */
  predicate Delivers(verify: bool, o: Outcome) {
    || (verify && o.answered && o.found)
    || (Sends(verify, o) && o.result == Accepted)
    || (Sends(verify, o) && o.result == Transient && o.reAnswered && o.reFound)
  }

  /** The rows and the history after an attempt on row i: delivered, or pending with one more failed attempt. */
  predicate Attempted(rows: seq<Row>, history: seq<Post>, i: nat, verify: bool, o: Outcome,
                      after: seq<Row>, posts: seq<Post>)
    requires i < |rows|
  {
    && |after| == |rows| && after[..i] == rows[..i] && after[i + 1..] == rows[i + 1..]
    && after[i].text == rows[i].text && after[i].ms == rows[i].ms
    && after[i].state == (if Delivers(verify, o) then Delivered else Pending)
    && after[i].attempts == (if Delivers(verify, o) then rows[i].attempts else rows[i].attempts + 1)
    && posts == if Sends(verify, o) && o.posted then history + [Post(rows[i].text, o.at, i)] else history
  }

  /** What the adapter answers decides alone. */
  lemma AttemptOutcome(s: State, o: Outcome)
    requires s.up && s.holder.Claim? && s.holder.i < |s.rows| && s.rows[s.holder.i].state == Pending
    ensures var t := Attempt(s, o); var i, end := s.holder.i, s.holder.end;
      && Attempted(s.rows, s.history, i, end == 0, o, t.rows, t.history)
      && t == s.(rows := t.rows, history := t.history,
                 holder := if Delivers(end == 0, o) && i + 1 < end then Claim(i + 1, end) else Free)
  {
    var i, end := s.holder.i, s.holder.end;
    var s1 := AdvanceHolder(s);
    var ok := Delivers(end == 0, o);
    assert s1.holder == if end == 0 then Verify(i, end) else Transmit(i, end);
    ExchangeOutcome(s1, o);
    var s2 := Exchange(s1, o);
    assert s2.rows[i].state == Sending;
  }

  lemma ExchangeOutcome(s: State, o: Outcome)
    requires s.up && (s.holder.Verify? || s.holder.Transmit?) && s.holder.i < |s.rows|
    ensures var i, end, verify := s.holder.i, s.holder.end, s.holder.Verify?;
      Exchange(s, o) == s.(holder := Settle(i, end, Delivers(verify, o)),
        history := if Sends(verify, o) && o.posted then s.history + [Post(s.rows[i].text, o.at, i)] else s.history)
  {
  }

  // Parts of a batch that are delivered: those before the first that fails.
  function Leading(outcomes: seq<Outcome>): (n: nat)
    ensures n <= |outcomes| && (forall k :: 0 <= k < n ==> Delivers(false, outcomes[k]))
    ensures n < |outcomes| ==> !Delivers(false, outcomes[n])
  {
    if outcomes == [] || !Delivers(false, outcomes[0]) then 0 else 1 + Leading(outcomes[1..])
  }

  /** From row `first` on, n rows are delivered, the next one has failed once more, and all others are as before. */
  predicate DeliveredUpTo(rows: seq<Row>, first: nat, n: nat, after: seq<Row>) {
    && |after| == |rows|
    && forall k :: 0 <= k < |rows| ==>
         && after[k].text == rows[k].text && after[k].ms == rows[k].ms
         && after[k].state == (if first <= k < first + n then Delivered else rows[k].state)
         && after[k].attempts == if k == first + n then rows[k].attempts + 1 else rows[k].attempts
  }

  lemma OtherRowsKept(rows: seq<Row>, history: seq<Post>, i: nat, o: Outcome, mid: seq<Row>, posts: seq<Post>)
    requires i < |rows| && Attempted(rows, history, i, false, o, mid, posts)
    ensures forall k :: 0 <= k < |rows| && k != i ==> mid[k] == rows[k]
  {
    forall k | 0 <= k < |rows| && k != i ensures mid[k] == rows[k] {
      assert k < i ==> mid[k] == mid[..i][k] && rows[k] == rows[..i][k];
      assert k > i ==> mid[k] == mid[i + 1..][k - i - 1] && rows[k] == rows[i + 1..][k - i - 1];
    }
  }

  /** A batch goes out part by part up to the first failure. */
  lemma {:induction false} BatchOutcome(s: State, first: nat, outcomes: seq<Outcome>)
    requires outcomes != [] && s.up && s.holder == Claim(first, |s.rows|) && first + |outcomes| == |s.rows|
    requires forall k :: first <= k < |s.rows| ==> s.rows[k].state == Pending
    ensures var t := Batch(s, outcomes);
      t.up && t.holder == Free && DeliveredUpTo(s.rows, first, Leading(outcomes), t.rows)
    decreases |outcomes|
  {
    var t := Attempt(s, outcomes[0]);
    AttemptOutcome(s, outcomes[0]);
    OtherRowsKept(s.rows, s.history, first, outcomes[0], t.rows, t.history);
    assert Batch(s, outcomes) == Batch(t, outcomes[1..]);
    if t.holder.Claim? {
      BatchOutcome(t, first + 1, outcomes[1..]);
    }
  }

  class Conversation {
    var rows: seq<Row>
    var history: seq<Post>

    function At(holder: Holder): State
      reads this
    {
      State(true, rows, history, holder, -1)
    }

    // A new process over the stored rows: interrupted sends are queued again.
    constructor Startup(stored: seq<Row>, history: seq<Post>)
      ensures At(Free) == Step(State(false, stored, history, Free, -1), Restart)
      ensures |rows| == |stored| && forall k :: 0 <= k < |rows| ==>
        rows[k] == if stored[k].state == Sending then stored[k].(state := Pending) else stored[k]
    {
      this.rows := Requeue(stored);
      this.history := history;
    }

    // welink.py _send_text_locked; returns whether the message counts as delivered.
    method SendMessage(i: nat, verify: bool, o: Outcome) returns (ok: bool)
      requires i < |rows|
      modifies this`history
      ensures forall end: nat ::
        At(Settle(i, end, ok)) == Exchange(old(At(if verify then Verify(i, end) else Transmit(i, end))), o)
      ensures ok <==> Delivers(verify, o)
      ensures history ==
        if Sends(verify, o) && o.posted then old(history) + [Post(rows[i].text, o.at, i)] else old(history)
    {
      if verify {
        if !o.answered {
          return false;
        }
        if o.found {
          return true;
        }
      }
      if o.posted {
        history := history + [Post(rows[i].text, o.at, i)];
      }
      match o.result {
        case Accepted => return true;
        case Refused => return false;
        case Transient => return o.reAnswered && o.reFound;
      }
    }

    // _attempt_outbound; end == 0 for the retry loop, which verifies first.
    method AttemptOutbound(i: nat, end: nat, o: Outcome) returns (delivered: bool)
      requires i < |rows|
      modifies this
      ensures At(if delivered then Onward(i, end) else Free) == Attempt(old(At(Claim(i, end))), o)
      ensures |rows| == old(|rows|)
      ensures old(rows)[i].state == Pending ==>
        && (delivered <==> Delivers(end == 0, o))
        && Attempted(old(rows), old(history), i, end == 0, o, rows, history)
      ensures old(rows)[i].state != Pending ==> !delivered && rows == old(rows) && history == old(history)
    {
      if rows[i].state != Pending {
        return false;
      }
      rows := SetState(rows, i, Sending);
      delivered := SendMessage(i, end == 0, o);
      if delivered {
        if rows[i].state == Sending {
          rows := SetState(rows, i, Delivered);
        }
      } else {
        rows := rows[i := rows[i].(state := Pending, attempts := rows[i].attempts + 1)];
      }
    }

    // _send_text
    method SendText(texts: seq<string>, now: int, outcomes: seq<Outcome>)
      requires texts != [] && |outcomes| == |texts|
      modifies this
      ensures At(Free) == Batch(Enqueue(old(At(Free)), texts, now), outcomes)
      ensures |rows| == old(|rows|) + |texts| && forall k :: 0 <= k < |texts| ==> rows[old(|rows|) + k].text == texts[k]
      ensures forall k :: old(|rows|) <= k < |rows| ==> rows[k].ms >= now + k - old(|rows|)
      ensures (exists k :: 0 <= k < old(|rows|) && old(rows)[k].state != Delivered) ==>
        rows[..old(|rows|)] == old(rows) && forall k :: old(|rows|) <= k < |rows| ==> rows[k].state == Pending
      ensures (forall k :: 0 <= k < old(|rows|) ==> old(rows)[k].state == Delivered) ==>
        DeliveredUpTo(old(rows) + Fresh(texts, Base(old(rows), now)), old(|rows|), Leading(outcomes), rows)
    {
      var older := Head(rows) < |rows|;
      var first := |rows|;
      rows := rows + Fresh(texts, Base(rows, now));
      if older {
        return;
      }
      assert At(Claim(first, |rows|)) == Enqueue(old(At(Free)), texts, now);
      BatchOutcome(At(Claim(first, |rows|)), first, outcomes);
      SendBatch(first, outcomes);
    }

    method SendNext(first: nat, n: nat, outcomes: seq<Outcome>, ghost s: State) returns (going: bool)
      requires n < |outcomes| && first + |outcomes| == |rows|
      requires At(Claim(first + n, |rows|)) == Batch(s, outcomes[..n])
      modifies this
      ensures |rows| == old(|rows|)
      ensures At(if going then Onward(first + n, |rows|) else Free) == Batch(s, outcomes[..n + 1])
    {
      BatchNext(s, outcomes, n, At(Claim(first + n, |rows|)));
      going := AttemptOutbound(first + n, |rows|, outcomes[n]);
    }

    method SendBatch(first: nat, outcomes: seq<Outcome>)
      requires outcomes != [] && first + |outcomes| == |rows|
      modifies this
      ensures At(Free) == Batch(old(At(Claim(first, |rows|))), outcomes)
    {
      var end := |rows|;
      ghost var holder := Claim(first, end);
      ghost var s := At(holder);
      var n, going := 0, true;
      while n < |outcomes| && going
        invariant n <= |outcomes| && |rows| == end
        invariant At(holder) == Batch(s, outcomes[..n])
        invariant holder == if going && first + n < end then Claim(first + n, end) else Free
      {
        going := SendNext(first, n, outcomes, s);
        holder := if going then Onward(first + n, end) else Free;
        n := n + 1;
      }
      BatchStops(s, outcomes, n);
    }

    // One round of _outbound_loop with nothing else running.
    method RetryOldest(o: Outcome)
      modifies this
      ensures var s := TakeTurn(PickRow(old(At(Free))));
        At(Free) == if s.holder.Claim? then Attempt(s, o) else s
      ensures var d := Head(old(rows));
        if d < |old(rows)| && old(rows)[d].state == Pending
        then Attempted(old(rows), old(history), d, true, o, rows, history)
        else rows == old(rows) && history == old(history)
    {
      var d := Head(rows);
      if d < |rows| && rows[d].state == Pending {
        var delivered := AttemptOutbound(d, 0, o);
      }
    }
  }

  // ------------------------------------------------------------------ What the source promises of them

  lemma ExchangeKeeps(s: State, o: Outcome)
    requires Queued(s)
    ensures Queued(Exchange(s, o)) && Exchange(s, o).rows == s.rows
  {
    AskKeeps(s, o.answered, o.found);
    var s2 := if s.holder.Verify? then AskHistory(s, o.answered, o.found) else s;
    WireKeeps(s2, o.result, o.posted, o.at);
    var s3 := if s2.holder.Transmit? then WireSend(s2, o.result, o.posted, o.at) else s2;
    AskKeeps(s3, o.reAnswered, o.reFound);
  }

  lemma AdvanceKeeps(s: State)
    requires Queued(s)
    ensures var t := AdvanceHolder(s);
      && Queued(t) && Texts(t.rows) == Texts(s.rows)
      && Head(t.rows) == if s.up && s.holder.Settle? && s.holder.ok then Head(s.rows) + 1 else Head(s.rows)
  {
    QueuedStep(s, Advance);
    HeadAfterAdvance(s);
    assert Texts(AdvanceHolder(s).rows) == Texts(s.rows);
  }

  lemma AttemptKeeps(s: State, o: Outcome)
    requires Queued(s) && s.holder.Claim?
    ensures Queued(Attempt(s, o)) && Head(s.rows) <= Head(Attempt(s, o).rows) <= Head(s.rows) + 1
    ensures Texts(Attempt(s, o).rows) == Texts(s.rows)
  {
    AdvanceKeeps(s);
    ExchangeKeeps(AdvanceHolder(s), o);
    AdvanceKeeps(Exchange(AdvanceHolder(s), o));
  }

  /** A batch leaves a FIFO behind: its parts go out in order, and the first that fails keeps the rest waiting. */
  lemma {:induction false} BatchKeeps(s: State, outcomes: seq<Outcome>)
    requires Queued(s)
    ensures Queued(Batch(s, outcomes)) && Texts(Batch(s, outcomes).rows) == Texts(s.rows)
    ensures Head(s.rows) <= Head(Batch(s, outcomes).rows) <= Head(s.rows) + |outcomes|
    decreases |outcomes|
  {
    if outcomes != [] && s.holder.Claim? {
      AttemptKeeps(s, outcomes[0]);
      BatchKeeps(Attempt(s, outcomes[0]), outcomes[1..]);
    }
  }
}
