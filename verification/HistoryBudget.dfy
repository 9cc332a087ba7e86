/** The in-process twin of the limiter (workbot/im/welink.py), with its cooldowns. */
module HistoryBudget {
  import opened RateBudget

  datatype History = History(times: seq<real>, nextAt: real, limitedUntil: real)

  // A history query asks for a slot, runs, and consumes the slot when it is done; Failed is a query whose command
  // failed, so that no slot is consumed; Limited is a rejection by the server; Busy a refusal by the shared budget.
  datatype Event =
    | Query(asked: real, done: real)
    | Failed(now: real)
    | Limited(now: real, cooldown: real)
    | Busy(now: real, wait: real)
  {
    function Begin(): real {
      if Query? then asked else now
    }

    function End(): real {
      if Query? then done else now
    }
  }

  const FRESH := History([], 0.0, 0.0)

  predicate Available(h: History, now: real, p: Params) {
    && now >= h.limitedUntil && now >= h.nextAt
    && |Recent(h.times, now, p.window)| < p.limit
  }

  function Consume(h: History, now: real, p: Params): History {
    History(Recent(h.times, now, p.window) + [now], now + p.spacing, h.limitedUntil)
  }

  function Cooldown(h: History, now: real, seconds: real): History {
    var until := MaxReal(h.limitedUntil, now + seconds);
    History(h.times, MaxReal(h.nextAt, until), until)
  }

  function Step(h: History, e: Event, p: Params): History {
    match e
    case Query(asked, done) =>
      var pruned := h.(times := Recent(h.times, asked, p.window));
      if Available(h, asked, p) then Consume(pruned, done, p) else pruned
    case Failed(now) => h.(times := Recent(h.times, now, p.window))
    case Limited(now, cooldown) => Cooldown(h, now, cooldown)
    case Busy(now, wait) => h.(nextAt := MaxReal(h.nextAt, now + wait))
  }

  function Run(events: seq<Event>, p: Params): History {
    if events == [] then FRESH else Step(Run(events[..|events| - 1], p), events[|events| - 1], p)
  }

  // Times at which queries consumed a slot.
  function Consumed(events: seq<Event>, p: Params): seq<real> {
    if events == [] then []
    else
      var n := |events| - 1;
      var e := events[n];
      if e.Query? && Available(Run(events[..n], p), e.asked, p) then Consumed(events[..n], p) + [e.done]
      else Consumed(events[..n], p)
  }

  ghost predicate Ordered(events: seq<Event>) {
    && (forall i :: 0 <= i < |events| ==> 0.0 <= events[i].Begin() <= events[i].End())
    && (forall i, j :: 0 <= i < j < |events| ==> events[i].End() <= events[j].Begin())
  }

  /** `times` holds all consumed times of the window before `t`, and maybe older ones. */
  predicate Covers(times: seq<real>, g: seq<real>, t: real, window: real) {
    && |times| <= |g| && times == g[|g| - |times|..]
    && forall i :: 0 <= i < |g| - |times| ==> t - g[i] >= window
  }

  lemma CoversRecent(times: seq<real>, g: seq<real>, t: real, now: real, window: real) returns (k: nat)
    requires Sorted(g) && Covers(times, g, t, window) && t <= now
    ensures Covers(Recent(times, now, window), g, now, window)
    ensures k == |g| - |Recent(times, now, window)| && Fits(g, now, window, k)
  {
    var skip := |g| - |times|;
    var r := RecentIsSuffix(times, now, window);
    k := skip + r;
    forall i | 0 <= i < k ensures now - g[i] >= window {
      if i >= skip {
        assert times[i - skip] == g[i];
      }
    }
    forall i | k <= i < |g| ensures now - g[i] < window {
      assert times[i - skip] == g[i];
    }
  }

  ghost predicate Paced(h: History, g: seq<real>, t: real, p: Params) {
    && Sorted(g) && Windowed(g, p) && Spaced(g, p.spacing)
    && (forall i :: 0 <= i < |g| ==> g[i] <= t)
    && Covers(h.times, g, t, p.window)
    && (g != [] ==> h.nextAt >= g[|g| - 1] + p.spacing)
  }

  lemma ConsumeFacts(h: History, g: seq<real>, t: real, asked: real, done: real, p: Params) returns (n: nat)
    requires p.Valid() && Paced(h, g, t, p) && t <= asked <= done && Available(h, asked, p)
    ensures var times := Recent(Recent(h.times, asked, p.window), done, p.window);
      Fits(g, done, p.window, n) && n == |g| - |times| && Covers(times, g, done, p.window)
    ensures |g| - n < p.limit && (g != [] ==> g[|g| - 1] + p.spacing <= done)
  {
    var k := CoversRecent(h.times, g, t, asked, p.window);
    n := CoversRecent(Recent(h.times, asked, p.window), g, asked, done, p.window);
    FitsLater(g, asked, done, p.window, k, n);
  }

  lemma PacedAppend(g: seq<real>, times: seq<real>, t: real, done: real, p: Params, until: real, n: nat)
    requires p.Valid() && Sorted(g) && Windowed(g, p) && Spaced(g, p.spacing)
    requires t <= done && forall i :: 0 <= i < |g| ==> g[i] <= t
    requires Fits(g, done, p.window, n) && n == |g| - |times| && Covers(times, g, done, p.window)
    requires |g| - n < p.limit && (g != [] ==> g[|g| - 1] + p.spacing <= done)
    ensures Paced(History(times + [done], done + p.spacing, until), g + [done], done, p)
  {
    SpacedExtends(g, done, p, n);
  }

  lemma ConsumeKeeps(h: History, g: seq<real>, t: real, asked: real, done: real, p: Params)
    requires p.Valid() && Paced(h, g, t, p) && t <= asked <= done && Available(h, asked, p)
    ensures Paced(Step(h, Query(asked, done), p), g + [done], done, p)
  {
    var n := ConsumeFacts(h, g, t, asked, done, p);
    PacedAppend(g, Recent(Recent(h.times, asked, p.window), done, p.window), t, done, p, h.limitedUntil, n);
  }

  lemma FitsLater(g: seq<real>, t: real, now: real, window: real, k: nat, n: nat)
    requires Fits(g, t, window, k) && Fits(g, now, window, n) && t <= now
    ensures k <= n
  {
    assert n < |g| ==> now - g[n] < window;
  }

  lemma OtherKeeps(h: History, g: seq<real>, t: real, e: Event, p: Params)
    requires Paced(h, g, t, p) && t <= e.Begin() <= e.End()
    requires e.Query? ==> !Available(h, e.asked, p)
    ensures Paced(Step(h, e, p), g, e.End(), p)
  {
    if e.Query? || e.Failed? {
      var k := CoversRecent(h.times, g, t, e.Begin(), p.window);
    }
  }

  lemma SpacedExtends(g: seq<real>, now: real, p: Params, k: nat)
    requires p.Valid() && Sorted(g) && Windowed(g, p) && Spaced(g, p.spacing)
    requires Fits(g, now, p.window, k) && |g| - k < p.limit
    requires g != [] ==> g[|g| - 1] + p.spacing <= now
    ensures Sorted(g + [now]) && Windowed(g + [now], p) && Spaced(g + [now], p.spacing)
  {
    if g != [] {
      assert forall i :: 0 <= i < |g| ==> g[i] <= g[|g| - 1];
    }
    Extends(g, now, p, k, p.spacing);
  }

  lemma EventKeeps(h: History, g: seq<real>, t: real, e: Event, p: Params)
    requires p.Valid() && Paced(h, g, t, p) && t <= e.Begin() <= e.End()
    ensures Paced(Step(h, e, p), if e.Query? && Available(h, e.asked, p) then g + [e.done] else g, e.End(), p)
  {
    if e.Query? && Available(h, e.asked, p) {
      ConsumeKeeps(h, g, t, e.asked, e.done, p);
    } else {
      OtherKeeps(h, g, t, e, p);
    }
  }

  function ClockOf(events: seq<Event>): real {
    if events == [] then 0.0 else events[|events| - 1].End()
  }

  lemma {:induction false} RunPaces(events: seq<Event>, p: Params)
    requires p.Valid() && Ordered(events)
    ensures Paced(Run(events, p), Consumed(events, p), ClockOf(events), p)
    decreases |events|
  {
    if events != [] {
      var n := |events| - 1;
      RunPaces(events[..n], p);
      assert ClockOf(events[..n]) <= events[n].Begin() <= events[n].End();
      EventKeeps(Run(events[..n], p), Consumed(events[..n], p), ClockOf(events[..n]), events[n], p);
    }
  }

  /** In every run, with any mix of failures, cooldowns and refusals, every half-open window holds at most `limit`
      queries, and queries are a full spacing apart. */
  lemma QueriesAreLimited(events: seq<Event>, p: Params)
    requires p.Valid() && Ordered(events)
    ensures Sorted(Consumed(events, p)) && Windowed(Consumed(events, p), p) && Spaced(Consumed(events, p), p.spacing)
  {
    RunPaces(events, p);
  }

  function Instant(calls: seq<real>): (events: seq<Event>)
    ensures |events| == |calls| && forall i :: 0 <= i < |calls| ==> events[i] == Query(calls[i], calls[i])
  {
    seq(|calls|, i requires 0 <= i < |calls| => Query(calls[i], calls[i]))
  }

  ghost predicate Monotonic(calls: seq<real>) {
    Sorted(calls) && forall i :: 0 <= i < |calls| ==> calls[i] >= 0.0
  }

  /** Both limiters hold the same times, and the deadline is a spacing after the last of them. */
  ghost predicate SameState(h: History, g: seq<real>, entries: seq<real>, p: Params) {
    && h.limitedUntil == 0.0 && h.times == entries
    && h.nextAt == if g == [] then 0.0 else g[|g| - 1] + p.spacing
  }

  lemma {:induction false} InStep(calls: seq<real>, p: Params)
    requires p.Valid() && p.spacing <= p.window && Monotonic(calls)
    ensures Consumed(Instant(calls), p) == Granted(calls, p)
    ensures SameState(Run(Instant(calls), p), Granted(calls, p), Entries(calls, p), p)
    decreases |calls|
  {
    if calls != [] {
      var n := |calls| - 1;
      InStep(calls[..n], p);
      assert calls[..n] + [calls[n]] == calls;
      SameDecision(calls[..n], calls[n], p);
      PrunedTwice(calls[..n], calls[n], p);
      InstantNext(calls, p);
    }
  }

  lemma InstantNext(calls: seq<real>, p: Params)
    requires calls != []
    ensures var n := |calls| - 1; var h := Run(Instant(calls[..n]), p);
      && Run(Instant(calls), p) == Step(h, Query(calls[n], calls[n]), p)
      && Consumed(Instant(calls), p) ==
        if Available(h, calls[n], p) then Consumed(Instant(calls[..n]), p) + [calls[n]]
        else Consumed(Instant(calls[..n]), p)
  {
    assert Instant(calls)[..|calls| - 1] == Instant(calls[..|calls| - 1]);
  }

  lemma PrunedTwice(before: seq<real>, now: real, p: Params)
    requires p.Valid()
    ensures var entries := Entries(before, p);
      Recent(Recent(entries, now, p.window), now, p.window) == Recent(entries, now, p.window)
  {
    if before != [] {
      RunKeeps(before, p);
      var k := RecentIsSuffix(Granted(before, p), Latest(before), p.window);
      RecentTwice(Entries(before, p), now, now, p.window);
    }
  }

  lemma SameDecision(before: seq<real>, now: real, p: Params)
    requires p.Valid() && p.spacing <= p.window && Monotonic(before + [now])
    requires SameState(Run(Instant(before), p), Granted(before, p), Entries(before, p), p)
    ensures Available(Run(Instant(before), p), now, p) == Grants(Entries(before, p), now, p)
  {
    assert (before + [now])[|before|] == now;
    assert forall i :: 0 <= i < |before| ==> before[i] == (before + [now])[i];
    if before != [] {
      RunKeeps(before, p);
      LatestIsLast(before);
      DeadlineDecides(Granted(before, p), Entries(before, p), Latest(before), now, p);
    }
  }

  lemma DeadlineDecides(g: seq<real>, entries: seq<real>, t: real, now: real, p: Params)
    requires p.Valid() && p.spacing <= p.window && Kept(g, entries, t, p) && 0.0 <= now && t <= now
    ensures Grants(entries, now, p) <==>
      |Recent(entries, now, p.window)| < p.limit && (g != [] ==> now >= g[|g| - 1] + p.spacing)
  {
    RecentTwice(g, t, now, p.window);
    var k := RecentIsSuffix(g, now, p.window);
    GrantsWhen(g, now, p, k);
    assert Grants(entries, now, p) == Grants(g, now, p);
  }

  lemma {:induction false} LatestIsLast(calls: seq<real>)
    requires Sorted(calls) && calls != []
    ensures Latest(calls) == calls[|calls| - 1]
    decreases |calls|
  {
    if |calls| > 1 {
      LatestIsLast(calls[..|calls| - 1]);
    }
  }

  /** The two limiters agree on every run of calls on a monotonic clock exactly when the spacing is within the
      window. */
  lemma TwinsAgreeExactly(p: Params)
    requires p.Valid()
    ensures p.spacing <= p.window <==>
      forall calls :: Monotonic(calls) ==> Consumed(Instant(calls), p) == Granted(calls, p)
  {
    if p.spacing <= p.window {
      forall calls | Monotonic(calls) ensures Consumed(Instant(calls), p) == Granted(calls, p) {
        InStep(calls, p);
      }
    } else {
      TwoGrants(p);
      assert Monotonic([0.0, p.window]);
    }
  }

  class Budget {
    const limits: Params
    var times: seq<real>
    var nextAt: real
    var limitedUntil: real

    constructor (limits: Params)
      requires limits.Valid()
      ensures this.limits == limits && Value() == FRESH && Valid()
    {
      this.limits := limits;
      times, nextAt, limitedUntil := [], 0.0, 0.0;
    }

    ghost predicate Valid()
      reads this
    {
      limits.Valid() && Sorted(times)
    }

    ghost function Value(): History
      reads this
    {
      History(times, nextAt, limitedUntil)
    }

    method Prune(now: real)
      requires Valid()
      modifies this`times
      ensures Valid() && times == Recent(old(times), now, limits.window)
    {
      var cutoff := now - limits.window;
      while times != [] && times[0] <= cutoff
        invariant Sorted(times)
        invariant Recent(times, now, limits.window) == Recent(old(times), now, limits.window)
      {
        times := times[1..];
      }
      RecentAll(times, now, limits.window);
    }

    method SlotAvailable(now: real) returns (free: bool)
      requires Valid()
      modifies this`times
      ensures Valid() && free == Available(old(Value()), now, limits)
      ensures Value() == old(Value()).(times := Recent(old(times), now, limits.window))
    {
      Prune(now);
      if now < limitedUntil || now < nextAt {
        return false;
      }
      return |times| < limits.limit;
    }

    method ConsumeSlot(now: real)
      requires Valid() && forall i :: 0 <= i < |times| ==> times[i] <= now
      modifies this
      ensures Valid() && Value() == Consume(old(Value()), now, limits)
    {
      Prune(now);
      var k := RecentIsSuffix(old(times), now, limits.window);
      assert forall i :: 0 <= i < |times| ==> times[i] == old(times)[k + i];
      assert Sorted(times) && forall i :: 0 <= i < |times| ==> times[i] <= now;
      times := times + [now];
      nextAt := now + limits.spacing;
    }

    method EnterCooldown(now: real, seconds: real)
      requires Valid()
      modifies this`nextAt, this`limitedUntil
      ensures Valid() && Value() == Cooldown(old(Value()), now, seconds)
      ensures limitedUntil >= now + seconds && limitedUntil >= old(limitedUntil)
      ensures nextAt >= limitedUntil && nextAt >= old(nextAt) && times == old(times)
      ensures limitedUntil == now + seconds || limitedUntil == old(limitedUntil)
      ensures nextAt == limitedUntil || nextAt == old(nextAt)
    {
      limitedUntil := MaxReal(limitedUntil, now + seconds);
      nextAt := MaxReal(nextAt, limitedUntil);
    }

    /** One history query: ask for a slot, run the command, consume the slot when it is done. */
    method RunQuery(asked: real, done: real) returns (sent: bool)
      requires Valid() && asked <= done && forall i :: 0 <= i < |times| ==> times[i] <= asked
      modifies this
      ensures Valid() && sent == Available(old(Value()), asked, limits)
      ensures Value() == Step(old(Value()), Query(asked, done), limits)
    {
      sent := SlotAvailable(asked);
      var k := RecentIsSuffix(old(times), asked, limits.window);
      if sent {
        ConsumeSlot(done);
      }
    }

    /** Time until the window frees a slot: 0 exactly when a slot is free. */
    method ResetIn(now: real) returns (wait: real)
      requires Valid()
      modifies this`times
      ensures Valid() && times == Recent(old(times), now, limits.window)
      ensures wait >= 0.0 && (wait == 0.0 <==> |times| < limits.limit)
      ensures wait > 0.0 ==> forall later :: later >= now ==>
        (Recent(times, later, limits.window) == times <==> later < now + wait)
    {
      Prune(now);
      var k := RecentIsSuffix(old(times), now, limits.window);
      if |times| < limits.limit {
        return 0.0;
      }
      wait := MaxReal(0.0, times[0] + limits.window - now);
      forall later | later >= now
        ensures Recent(times, later, limits.window) == times <==> later < now + wait
      {
        var n := RecentIsSuffix(times, later, limits.window);
      }
    }
  }
}
