/** What a delivered row means, and when a conversation can still make progress. */
module OutboxDelivery {
  import opened Outbox

  // ------------------------------------------------------------------ Progress

  predicate NoCrash(acts: seq<Action>) {
    forall a :: a in acts ==> !a.Crash?
  }

  /** A cancelled attempt has left the first undelivered row in 'sending', and nobody owns it. */
  predicate Stuck(s: State) {
    && Queued(s) && s.up
    && Head(s.rows) < |s.rows| && s.rows[Head(s.rows)].state == Sending
    && (s.holder == Free || s.holder.Claim?)
  }

  lemma StuckStep(s: State, a: Action)
    requires Stuck(s) && !a.Crash?
    ensures Stuck(Step(s, a)) && Head(Step(s, a).rows) == Head(s.rows)
  {
    QueuedStep(s, a);
    if a.Send? {
      HeadUnique(Step(s, a).rows, Head(s.rows));
    }
  }

  lemma {:induction false} StuckForever(s: State, acts: seq<Action>)
    requires Stuck(s) && NoCrash(acts)
    ensures Head(Run(s, acts).rows) == Head(s.rows)
    decreases |acts|
  {
    if acts != [] {
      assert acts[0] in acts && forall a :: a in acts[1..] ==> a in acts;
      StuckStep(s, acts[0]);
      StuckForever(Step(s, acts[0]), acts[1..]);
    }
  }

  lemma RunCons(s: State, a: Action, rest: seq<Action>)
    ensures Run(s, [a] + rest) == Run(Step(s, a), rest)
  {}

  lemma LoopSettles(s: State, at: int)
    requires Queued(s) && s.up && s.holder == Claim(Head(s.rows), 0)
    requires Head(s.rows) < |s.rows| && s.rows[Head(s.rows)].state == Pending
    ensures var sent := WireSend(AskHistory(AdvanceHolder(s), true, false), Accepted, true, at);
      Head(AdvanceHolder(sent).rows) == Head(s.rows) + 1
  {
    var d := Head(s.rows);
    var claimed := AdvanceHolder(s);
    HeadUnique(claimed.rows, d);
    HeadUnique(AdvanceHolder(WireSend(AskHistory(claimed, true, false), Accepted, true, at)).rows, d + 1);
  }

  /** The loop, holding the lock for the first undelivered row, delivers it when history is silent and the send
      succeeds. */
  lemma LoopDelivers(s: State) returns (acts: seq<Action>)
    requires Queued(s) && s.up && s.holder == Claim(Head(s.rows), 0)
    requires Head(s.rows) < |s.rows| && s.rows[Head(s.rows)].state == Pending
    ensures NoCrash(acts) && Head(Run(s, acts).rows) == Head(s.rows) + 1
  {
    var d := Head(s.rows);
    var claimed := AdvanceHolder(s);
    var asked := AskHistory(claimed, true, false);
    var sent := WireSend(asked, Accepted, true, s.rows[d].ms);
    LoopSettles(s, s.rows[d].ms);
    RunCons(sent, Advance, []);
    RunCons(asked, Wire(Accepted, true, s.rows[d].ms), [Advance] + []);
    RunCons(claimed, Ask(true, false), [Wire(Accepted, true, s.rows[d].ms)] + ([Advance] + []));
    acts := [Advance] + ([Ask(true, false)] + ([Wire(Accepted, true, s.rows[d].ms)] + ([Advance] + [])));
    RunCons(s, Advance, [Ask(true, false)] + ([Wire(Accepted, true, s.rows[d].ms)] + ([Advance] + [])));
  }

  /** An idle conversation with a pending head can deliver it, whatever row the loop had chosen before. */
  lemma IdleDelivers(s: State) returns (acts: seq<Action>)
    requires Queued(s) && s.up && s.holder == Free
    requires Head(s.rows) < |s.rows| && s.rows[Head(s.rows)].state == Pending
    ensures NoCrash(acts) && Head(Run(s, acts).rows) == Head(s.rows) + 1
    decreases if s.loop == -1 then 1 else if s.loop == Head(s.rows) then 0 else 2
  {
    if s.loop == Head(s.rows) {
      var rest := LoopDelivers(TakeTurn(s));
      RunCons(s, LoopLock, rest);
      acts := [LoopLock] + rest;
    } else if s.loop == -1 {
      var rest := IdleDelivers(PickRow(s));
      RunCons(s, Pick, rest);
      acts := [Pick] + rest;
    } else {
      var taken := TakeTurn(s);
      var rest := IdleDelivers(AdvanceHolder(taken));
      RunCons(taken, Advance, rest);
      RunCons(s, LoopLock, [Advance] + rest);
      acts := [LoopLock] + ([Advance] + rest);
    }
  }

  /** An idle conversation can make progress without a restart exactly when its first undelivered row was not
      left in 'sending'. */
  lemma ProgressExactly(s: State)
    requires Queued(s) && s.up && s.holder == Free && Head(s.rows) < |s.rows|
    ensures s.rows[Head(s.rows)].state == Pending <==>
      exists acts :: NoCrash(acts) && Head(Run(s, acts).rows) > Head(s.rows)
  {
    if s.rows[Head(s.rows)].state == Pending {
      var acts := IdleDelivers(s);
    } else {
      forall acts | NoCrash(acts) ensures Head(Run(s, acts).rows) == Head(s.rows) {
        StuckForever(s, acts);
      }
    }
  }

  /** A step leaves a row so exactly when it is a cancellation inside an attempt. */
  lemma SticksExactly(s: State, a: Action)
    requires Queued(s) && s.up && !Stuck(s) && !a.Crash?
    ensures Stuck(Step(s, a)) <==> a.Abort? && (s.holder.Verify? || s.holder.Transmit? || s.holder.Recheck?)
  {
    QueuedStep(s, a);
    if a.Advance? {
      HeadAfterAdvance(s);
    } else if a.Send? {
      HeadUnique(Step(s, a).rows, Head(s.rows));
    }
  }

  /** While somebody holds the lock, neither another sender nor the loop gets it: it goes on with the same batch, at the
      same row or the next, or comes free. */
  lemma LockIsKept(s: State, a: Action)
    requires Queued(s) && s.holder != Free
    ensures var h := Step(s, a).holder;
      h == Free || (h.end == s.holder.end && s.holder.i <= h.i <= s.holder.i + 1)
    ensures (a.Send? || a.LoopLock? || a.Pick?) ==> Step(s, a) == s.(loop := Step(s, a).loop)
  {
  }

  /** A row that is not pending any more, when the loop that has picked it gets the lock, is left alone. */
  lemma StalePickLeft(s: State)
    requires s.up && s.holder.Claim? && (s.holder.i >= |s.rows| || s.rows[s.holder.i].state != Pending)
    ensures Step(s, Advance) == s.(holder := Free)
  {
  }

  /** Behind a crash and a restart every row that was being sent is pending, no other has changed, and nobody has the
      lock. */
  lemma RestartRequeues(s: State)
    ensures var t := Run(s, [Crash] + ([Restart] + []));
      && t == State(true, t.rows, s.history, Free, -1) && |t.rows| == |s.rows|
      && forall k :: 0 <= k < |s.rows| ==>
           t.rows[k] == if s.rows[k].state == Sending then s.rows[k].(state := Pending) else s.rows[k]
  {
    RunCons(s, Crash, [Restart] + []);
    RunCons(Step(s, Crash), Restart, []);
  }

  /** Startup re-queues such a row. */
  lemma RestartUnsticks(s: State)
    requires Queued(s) && s.up && Head(s.rows) < |s.rows|
    ensures var t := Step(Step(s, Crash), Restart);
      Head(t.rows) == Head(s.rows) && t.rows[Head(t.rows)].state == Pending && t.holder == Free && Queued(t)
  {
    OtherKeeps(s, Crash);
    RestartKeeps(Step(s, Crash));
    HeadUnique(Step(Step(s, Crash), Restart).rows, Head(s.rows));
  }

  // ------------------------------------------------------------------ Physical sends

  function Copies(history: seq<Post>, i: nat): nat {
    if history == [] then 0
    else Copies(history[..|history| - 1], i) + if history[|history| - 1].row == i then 1 else 0
  }

  lemma CopiesAppend(history: seq<Post>, p: Post, i: nat)
    ensures Copies(history + [p], i) == Copies(history, i) + if p.row == i then 1 else 0
  {}

  lemma {:induction false} CopiesPresent(history: seq<Post>, i: nat)
    ensures Copies(history, i) > 0 <==> exists k :: 0 <= k < |history| && history[k].row == i
    decreases |history|
  {
    if history != [] {
      var rest := history[..|history| - 1];
      CopiesPresent(rest, i);
      assert forall k :: 0 <= k < |rest| ==> rest[k] == history[k];
    }
  }

  /** What _history_contains looks for: equal text, at most ten seconds before the row was created. */
  predicate Matches(p: Post, row: Row) {
    p.text == row.text && p.at >= row.ms - 10000
  }

  predicate Seen(history: seq<Post>, row: Row) {
    exists k :: 0 <= k < |history| && Matches(history[k], row)
  }

  /** The environment tells the truth: an answered history query reports what is there, an accepted send has
      been posted, and a post is not stamped before its row's cutoff. */
  predicate Honest(s: State, a: Action) {
    match a
    case Ask(answered, found) =>
      answered && (s.holder.Verify? || s.holder.Recheck?) && s.holder.i < |s.rows| ==>
        (found <==> Seen(s.history, s.rows[s.holder.i]))
    case Wire(result, posted, at) =>
      s.holder.Transmit? && s.holder.i < |s.rows| ==>
        (result == Accepted ==> posted) && (posted ==> at >= s.rows[s.holder.i].ms - 10000)
    case _ => true
  }

  predicate HonestRun(s: State, acts: seq<Action>)
    decreases |acts|
  {
    acts == [] || (Honest(s, acts[0]) && HonestRun(Step(s, acts[0]), acts[1..]))
  }

  predicate OfItsRow(s: State, k: nat)
    requires k < |s.history|
  {
    var p := s.history[k];
    p.row >= 0 ==> p.row < |s.rows| && Matches(p, s.rows[p.row])
  }

  predicate PostsMatch(s: State) {
    forall k {:trigger OfItsRow(s, k)} :: 0 <= k < |s.history| ==> OfItsRow(s, k)
  }

  /** Every copy is of its row; a row not reached yet, or about to be sent, has none. */
  ghost predicate Sent(s: State) {
    && Queued(s)
    && PostsMatch(s)
    && (forall i: nat :: Copies(s.history, i) <= 1)
    && (forall i: nat :: Head(s.rows) < i ==> Copies(s.history, i) == 0)
    && (s.holder.Claim? && s.holder.end != 0 ==> Copies(s.history, s.holder.i) == 0)
    && (s.holder.Transmit? ==> Copies(s.history, s.holder.i) == 0)
  }

  lemma PostsStep(s: State, a: Action)
    requires PostsMatch(s) && Honest(s, a)
    ensures PostsMatch(Step(s, a))
  {
    var t := Step(s, a);
    forall k | 0 <= k < |t.history| ensures OfItsRow(t, k) {
      if k < |s.history| {
        assert OfItsRow(s, k);
      }
    }
  }

  lemma SentWire(s: State, result: SendResult, posted: bool, at: int)
    requires Sent(s) && Honest(s, Wire(result, posted, at))
    ensures Sent(WireSend(s, result, posted, at))
  {
    var t := WireSend(s, result, posted, at);
    QueuedStep(s, Wire(result, posted, at));
    PostsStep(s, Wire(result, posted, at));
    if t.history != s.history {
      forall i: nat { CopiesAppend(s.history, t.history[|s.history|], i); }
    }
  }

  lemma SentForeign(s: State, text: string, at: int)
    requires Sent(s)
    ensures Sent(Step(s, Foreign(text, at)))
  {
    QueuedStep(s, Foreign(text, at));
    PostsStep(s, Foreign(text, at));
    forall i: nat { CopiesAppend(s.history, Post(text, at, -1), i); }
  }

  lemma SentAsk(s: State, answered: bool, found: bool)
    requires Sent(s) && Honest(s, Ask(answered, found))
    ensures Sent(AskHistory(s, answered, found))
  {
    QueuedStep(s, Ask(answered, found));
    PostsStep(s, Ask(answered, found));
    if s.up && s.holder.Verify? {
      NoCopyUnseen(s, s.holder.i);
    }
  }

  /** A row with a copy in the history is found there. */
  lemma NoCopyUnseen(s: State, i: nat)
    requires PostsMatch(s) && i < |s.rows|
    ensures Copies(s.history, i) > 0 ==> Seen(s.history, s.rows[i])
  {
    CopiesPresent(s.history, i);
    if Copies(s.history, i) > 0 {
      var k :| 0 <= k < |s.history| && s.history[k].row == i;
      assert OfItsRow(s, k);
    }
  }

  lemma NoCopyBeyond(s: State)
    requires PostsMatch(s)
    ensures Copies(s.history, |s.rows|) == 0
  {
    CopiesPresent(s.history, |s.rows|);
    forall k | 0 <= k < |s.history| ensures s.history[k].row != |s.rows| {
      assert OfItsRow(s, k);
    }
  }

  lemma SentSend(s: State, texts: seq<string>, now: int)
    requires Sent(s)
    ensures Sent(Enqueue(s, texts, now))
  {
    var t := Enqueue(s, texts, now);
    QueuedStep(s, Send(texts, now));
    PostsStep(s, Send(texts, now));
    if t != s {
      HeadUnique(t.rows, Head(s.rows));
      NoCopyBeyond(s);
    }
  }

  lemma SentAdvance(s: State)
    requires Sent(s)
    ensures Sent(AdvanceHolder(s))
  {
    QueuedStep(s, Advance);
    PostsStep(s, Advance);
    HeadAfterAdvance(s);
  }

  lemma SentStep(s: State, a: Action)
    requires Sent(s) && Honest(s, a)
    ensures Sent(Step(s, a))
  {
    if a.Wire? {
      SentWire(s, a.result, a.posted, a.at);
    } else if a.Foreign? {
      SentForeign(s, a.text, a.at);
    } else if a.Ask? {
      SentAsk(s, a.answered, a.found);
    } else if a.Send? {
      SentSend(s, a.texts, a.now);
    } else if a.Advance? {
      SentAdvance(s);
    } else {
      SentOther(s, a);
    }
  }

  lemma SentOther(s: State, a: Action)
    requires Sent(s) && !a.Wire? && !a.Foreign? && !a.Ask? && !a.Send? && !a.Advance?
    ensures Sent(Step(s, a)) && Head(Step(s, a).rows) == Head(s.rows)
  {
    QueuedStep(s, a);
    PostsStep(s, a);
    if a.Restart? {
      HeadUnique(Step(s, a).rows, Head(s.rows));
    }
  }

  /** Verify-before-resend: over any run, crashes included, no row is physically sent twice. */
  lemma {:induction false} SentAtMostOnce(s: State, acts: seq<Action>)
    requires Sent(s) && HonestRun(s, acts)
    ensures Sent(Run(s, acts))
    ensures forall i: nat :: Copies(Run(s, acts).history, i) <= 1
    decreases |acts|
  {
    if acts != [] {
      SentStep(s, acts[0]);
      SentAtMostOnce(Step(s, acts[0]), acts[1..]);
    }
  }

  lemma EmptyIsGenuine()
    ensures Genuine(Empty)
  {
  }

  /** The same from the empty queue, with restarts: whatever fails, no row is physically sent twice. */
  lemma NothingSentTwice(acts: seq<Action>, i: nat)
    requires HonestRun(Empty, acts)
    ensures Copies(Run(Empty, acts).history, i) <= 1
  {
    EmptyIsGenuine();
    SentAtMostOnce(Empty, acts);
  }

  // ------------------------------------------------------------------ Delivered means sent

  /** No other message in the history would answer for row i. */
  predicate Alone(s: State, i: nat)
    requires i < |s.rows|
  {
    forall k :: 0 <= k < |s.history| && Matches(s.history[k], s.rows[i]) ==> s.history[k].row == i
  }

  predicate AskedAlone(s: State, a: Action) {
    a.Ask? && (s.holder.Verify? || s.holder.Recheck?) && s.holder.i < |s.rows| ==> Alone(s, s.holder.i)
  }

  predicate AloneRun(s: State, acts: seq<Action>)
    decreases |acts|
  {
    acts == [] || (AskedAlone(s, acts[0]) && AloneRun(Step(s, acts[0]), acts[1..]))
  }

  ghost predicate Genuine(s: State) {
    && Sent(s)
    && (forall i: nat :: i < Head(s.rows) ==> Copies(s.history, i) == 1)
    && (s.holder.Settle? && s.holder.ok ==> Copies(s.history, s.holder.i) == 1)
  }

  lemma GenuineWire(s: State, result: SendResult, posted: bool, at: int)
    requires Genuine(s) && Honest(s, Wire(result, posted, at))
    ensures Genuine(WireSend(s, result, posted, at))
  {
    var t := WireSend(s, result, posted, at);
    SentWire(s, result, posted, at);
    if t.history != s.history {
      forall i: nat { CopiesAppend(s.history, t.history[|s.history|], i); }
    }
  }

  lemma GenuineAsk(s: State, answered: bool, found: bool)
    requires Genuine(s) && Honest(s, Ask(answered, found)) && AskedAlone(s, Ask(answered, found))
    ensures Genuine(AskHistory(s, answered, found))
  {
    SentAsk(s, answered, found);
    if s.up && (s.holder.Verify? || s.holder.Recheck?) {
      CopiesPresent(s.history, s.holder.i);
    }
  }

  lemma GenuineAdvance(s: State)
    requires Genuine(s)
    ensures Genuine(AdvanceHolder(s))
  {
    SentAdvance(s);
    HeadAfterAdvance(s);
  }

  lemma GenuineSend(s: State, texts: seq<string>, now: int)
    requires Genuine(s)
    ensures Genuine(Enqueue(s, texts, now))
  {
    SentSend(s, texts, now);
    HeadUnique(Enqueue(s, texts, now).rows, Head(s.rows));
  }

  lemma GenuineForeign(s: State, text: string, at: int)
    requires Genuine(s)
    ensures Genuine(Step(s, Foreign(text, at)))
  {
    SentForeign(s, text, at);
    forall i: nat { CopiesAppend(s.history, Post(text, at, -1), i); }
  }

  lemma GenuineStep(s: State, a: Action)
    requires Genuine(s) && Honest(s, a) && AskedAlone(s, a)
    ensures Genuine(Step(s, a))
  {
    if a.Wire? {
      GenuineWire(s, a.result, a.posted, a.at);
    } else if a.Ask? {
      GenuineAsk(s, a.answered, a.found);
    } else if a.Advance? {
      GenuineAdvance(s);
    } else if a.Foreign? {
      GenuineForeign(s, a.text, a.at);
    } else if a.Send? {
      GenuineSend(s, a.texts, a.now);
    } else {
      SentOther(s, a);
    }
  }

  /** When no other message can answer for a row that is being verified, every delivered row was sent, exactly once. */
  lemma {:induction false} DeliveredMeansSent(s: State, acts: seq<Action>)
    requires Genuine(s) && HonestRun(s, acts) && AloneRun(s, acts)
    ensures Genuine(Run(s, acts))
    ensures forall i: nat :: i < Head(Run(s, acts).rows) ==> Copies(Run(s, acts).history, i) == 1
    decreases |acts|
  {
    if acts != [] {
      GenuineStep(s, acts[0]);
      DeliveredMeansSent(Step(s, acts[0]), acts[1..]);
    }
  }

  /** From the empty queue: a delivered row was sent exactly once. */
  lemma DeliveredWasSent(acts: seq<Action>, i: nat)
    requires HonestRun(Empty, acts) && AloneRun(Empty, acts)
    ensures var t := Run(Empty, acts);
      i < |t.rows| && t.rows[i].state == Delivered ==> Copies(t.history, i) == 1
  {
    EmptyIsGenuine();
    DeliveredMeansSent(Empty, acts);
  }

  /** An unsent row whose history check is answered is marked delivered all the same exactly when some other
      message in the history matches it. */
  lemma UnsentDeliveryExactly(s: State, found: bool)
    requires Sent(s) && s.up && (s.holder.Verify? || s.holder.Recheck?)
    requires Copies(s.history, s.holder.i) == 0 && Honest(s, Ask(true, found))
    ensures var t := AdvanceHolder(AskHistory(s, true, found));
      var i := s.holder.i;
      (t.rows[i].state == Delivered && Copies(t.history, i) == 0) <==> !Alone(s, i)
  {
    CopiesPresent(s.history, s.holder.i);
  }

  lemma HonestCons(s: State, a: Action, rest: seq<Action>, end: State)
    requires Honest(s, a) && HonestRun(Step(s, a), rest) && Run(Step(s, a), rest) == end
    ensures HonestRun(s, [a] + rest) && Run(s, [a] + rest) == end
  {}

  const Part := Row("ok", 1, Pending, 0)
  const Twin := Row("ok", 2, Pending, 0)
  const Retried := Part.(attempts := 1)
  const Copy := Post("ok", 1, 0)
  const FirstDone := State(true, [Retried.(state := Delivered), Twin], [Copy], Free, -1)
  const BothDone := FirstDone.(rows := [Retried.(state := Delivered), Twin.(state := Delivered)])

  lemma TwinTaken() returns (acts: seq<Action>)
    ensures HonestRun(FirstDone, acts) && Run(FirstDone, acts) == BothDone
  {
    HeadUnique(FirstDone.rows, 1);
    var s11 := FirstDone.(loop := 1);
    var s12 := FirstDone.(holder := Claim(1, 0));
    var s13 := FirstDone.(rows := SetState(FirstDone.rows, 1, Sending), holder := Verify(1, 0));
    var s14 := s13.(holder := Settle(1, 0, true));
    assert Matches(s13.history[0], s13.rows[1]);
    assert SetState(s14.rows, 1, Delivered) == BothDone.rows;
    acts := [];
    HonestCons(s14, Advance, acts, BothDone);
    acts := [Advance] + acts;
    HonestCons(s13, Ask(true, true), acts, BothDone);
    acts := [Ask(true, true)] + acts;
    HonestCons(s12, Advance, acts, BothDone);
    acts := [Advance] + acts;
    HonestCons(s11, LoopLock, acts, BothDone);
    acts := [LoopLock] + acts;
    HonestCons(FirstDone, Pick, acts, BothDone);
    acts := [Pick] + acts;
  }

  lemma PartRetried(rest: seq<Action>) returns (acts: seq<Action>)
    requires HonestRun(FirstDone, rest) && Run(FirstDone, rest) == BothDone
    ensures var s4 := State(true, [Retried, Twin], [], Free, -1);
      HonestRun(s4, acts) && Run(s4, acts) == BothDone
  {
    var s4 := State(true, [Retried, Twin], [], Free, -1);
    var s5 := s4.(loop := 0);
    var s6 := s4.(holder := Claim(0, 0));
    var s7 := s4.(rows := SetState(s4.rows, 0, Sending), holder := Verify(0, 0));
    var s8 := s7.(holder := Transmit(0, 0));
    var s9 := s7.(holder := Settle(0, 0, true), history := [Copy]);
    HeadUnique(s4.rows, 0);
    assert SetState(s9.rows, 0, Delivered) == FirstDone.rows;
    assert s8.history + [Copy] == [Copy];
    acts := rest;
    HonestCons(s9, Advance, acts, BothDone);
    acts := [Advance] + acts;
    HonestCons(s8, Wire(Accepted, true, 1), acts, BothDone);
    acts := [Wire(Accepted, true, 1)] + acts;
    HonestCons(s7, Ask(true, false), acts, BothDone);
    acts := [Ask(true, false)] + acts;
    HonestCons(s6, Advance, acts, BothDone);
    acts := [Advance] + acts;
    HonestCons(s5, LoopLock, acts, BothDone);
    acts := [LoopLock] + acts;
    HonestCons(s4, Pick, acts, BothDone);
    acts := [Pick] + acts;
  }

  lemma FirstSteps()
    ensures var s1 := State(true, [Part, Twin], [], Claim(0, 2), -1);
      var s2 := s1.(rows := SetState(s1.rows, 0, Sending), holder := Transmit(0, 2));
      var s3 := s2.(holder := Settle(0, 2, false));
      && Step(Empty, Send(["ok", "ok"], 0)) == s1 && Step(s1, Advance) == s2
      && Step(s2, Wire(Refused, false, 0)) == s3 && Step(s3, Advance) == State(true, [Retried, Twin], [], Free, -1)
  {}

  /** Two equal parts of one reply: the first send fails unposted, the loop sends the first part, and the
      second is taken for delivered without ever being sent. */
  lemma EqualPartsLoseOne() returns (acts: seq<Action>)
    ensures HonestRun(Empty, acts)
    ensures var end := Run(Empty, acts);
      Head(end.rows) == |end.rows| == 2 && Copies(end.history, 0) == 1 && Copies(end.history, 1) == 0
  {
    var s1 := State(true, [Part, Twin], [], Claim(0, 2), -1);
    var s2 := s1.(rows := SetState(s1.rows, 0, Sending), holder := Transmit(0, 2));
    var s3 := s2.(holder := Settle(0, 2, false));
    var s4 := State(true, [Retried, Twin], [], Free, -1);
    FirstSteps();
    acts := TwinTaken();
    acts := PartRetried(acts);
    HonestCons(s3, Advance, acts, BothDone);
    acts := [Advance] + acts;
    HonestCons(s2, Wire(Refused, false, 0), acts, BothDone);
    acts := [Wire(Refused, false, 0)] + acts;
    HonestCons(s1, Advance, acts, BothDone);
    acts := [Advance] + acts;
    HonestCons(Empty, Send(["ok", "ok"], 0), acts, BothDone);
    acts := [Send(["ok", "ok"], 0)] + acts;
  }

}
