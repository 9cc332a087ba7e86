/** When a history query runs, said of the events before it alone. */
module HistoryRuns {
  import opened RateBudget
  import opened HistoryBudget

  /** No cooldown that the server has demanded, and no wait that the shared budget has, is still running at time t. */
  predicate NothingForbids(events: seq<Event>, t: real) {
    && (forall i :: 0 <= i < |events| && events[i].Limited? ==> events[i].now + events[i].cooldown <= t)
    && (forall i :: 0 <= i < |events| && events[i].Busy? ==> events[i].now + events[i].wait <= t)
  }

  predicate FullSpacing(g: seq<real>, t: real, p: Params) {
    g != [] ==> g[|g| - 1] + p.spacing <= t
  }

  predicate Due(h: History, t: real) {
    h.limitedUntil <= t && h.nextAt <= t
  }

  ghost predicate DueExactly(events: seq<Event>, p: Params) {
    forall t :: ClockOf(events) <= t ==>
      (Due(Run(events, p), t) <==> NothingForbids(events, t) && FullSpacing(Consumed(events, p), t, p))
  }

  lemma ForbidsLess(events: seq<Event>, e: Event, t: real)
    ensures NothingForbids(events + [e], t) <==>
      && NothingForbids(events, t)
      && (e.Limited? ==> e.now + e.cooldown <= t) && (e.Busy? ==> e.now + e.wait <= t)
  {
    var all := events + [e];
    assert forall i :: 0 <= i < |events| ==> all[i] == events[i];
    assert all[|events|] == e;
  }

  lemma DueNext(events: seq<Event>, e: Event, p: Params)
    requires p.Valid() && DueExactly(events, p) && ClockOf(events) <= e.Begin() <= e.End()
    ensures DueExactly(events + [e], p)
  {
    var all := events + [e];
    assert all[..|all| - 1] == events;
    var h, g := Run(events, p), Consumed(events, p);
    forall t | ClockOf(all) <= t
      ensures Due(Run(all, p), t) <==> NothingForbids(all, t) && FullSpacing(Consumed(all, p), t, p) {
      ForbidsLess(events, e, t);
      assert Due(h, t) <==> NothingForbids(events, t) && FullSpacing(g, t, p);
      if e.Query? && Available(h, e.asked, p) {
        assert Due(h, e.asked) && NothingForbids(events, e.asked);
      }
    }
  }

  lemma {:induction false} DueInRuns(events: seq<Event>, p: Params)
    requires p.Valid() && Ordered(events)
    ensures DueExactly(events, p)
    decreases |events|
  {
    if events != [] {
      var n := |events| - 1;
      DueInRuns(events[..n], p);
      assert events[..n] + [events[n]] == events;
      DueNext(events[..n], events[n], p);
    }
  }

  lemma SameCount(times: seq<real>, g: seq<real>, t: real, now: real, window: real)
    requires Sorted(g) && Covers(times, g, t, window) && t <= now
    ensures |Recent(times, now, window)| == |Recent(g, now, window)|
  {
    var k := CoversRecent(times, g, t, now, window);
    var n := RecentIsSuffix(g, now, window);
    FitsLater(g, now, now, window, k, n);
    FitsLater(g, now, now, window, n, k);
  }

  /** A query runs exactly when no cooldown and no wait demanded before is still running, the last query is a full
      spacing ago, and the window before it holds fewer than `limit` queries. */
  lemma RunsExactly(events: seq<Event>, asked: real, p: Params)
    requires p.Valid() && Ordered(events) && ClockOf(events) <= asked
    ensures Available(Run(events, p), asked, p) <==>
      && NothingForbids(events, asked)
      && FullSpacing(Consumed(events, p), asked, p)
      && |Recent(Consumed(events, p), asked, p.window)| < p.limit
  {
    DueInRuns(events, p);
    RunPaces(events, p);
    SameCount(Run(events, p).times, Consumed(events, p), ClockOf(events), asked, p.window);
  }
}
