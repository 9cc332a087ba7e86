/** What every run of calls to the sliding-window limiter keeps, and what its returned wait is worth. */
module RateRuns {
  import opened RateBudget

  /** Over any run of calls at fixed parameters, whatever order their stamps reach the lock in: grants are in time
      order, every half-open window holds at most `limit` of them, and they are a gap of min(spacing, window) apart. */
  lemma GrantsAreLimited(calls: seq<real>, p: Params)
    requires p.Valid()
    ensures Sorted(Granted(calls, p)) && Windowed(Granted(calls, p), p) && Spaced(Granted(calls, p), Gap(p))
  {
    if calls != [] {
      RunKeeps(calls, p);
    }
  }

  /** The full spacing is kept exactly for spacings within the window. */
  lemma SpacingExactly(p: Params)
    requires p.Valid()
    ensures p.spacing <= p.window <==> forall calls :: Spaced(Granted(calls, p), p.spacing)
  {
    if p.spacing <= p.window {
      forall calls: seq<real> ensures Spaced(Granted(calls, p), p.spacing) {
        GrantsAreLimited(calls, p);
      }
    } else {
      TwoGrants(p);
      var g := Granted([0.0, p.window], p);
      assert !Distant(g, p.spacing, 0, 1);
    }
  }

  /** A denied call, undisturbed: the retries that are granted are exactly those from `now + wait` on, with the wait
      computed for the gap really kept. For a spacing within the window that is the returned wait itself: sufficient
      and minimal. */
  lemma WaitIsExact(entries: seq<real>, now: real, retry: real, p: Params)
    requires p.Valid() && Sorted(entries) && |entries| <= p.limit
    requires !Grants(entries, now, p) && now <= retry
    ensures Grants(Stored(entries, now, p), retry, p) <==>
      retry >= now + Wait(Recent(entries, now, p.window), now, p.(spacing := Gap(p)))
  {
    var k := RecentIsSuffix(entries, now, p.window);
    GrantsWhen(entries, now, p, k);
    var recent := entries[k..];
    assert recent != [];
    assert recent[|recent| - 1] == entries[|entries| - 1];
    assert Stored(entries, now, p) == recent;
    var n := RecentIsSuffix(recent, retry, p.window);
    GrantsWhen(recent, retry, p, n);
  }

  /** Every denied call of every run meets the conditions of WaitIsExact. */
  lemma WaitIsExactInRuns(calls: seq<real>, now: real, retry: real, p: Params)
    requires p.Valid() && p.spacing <= p.window && now <= retry
    requires !Grants(Entries(calls, p), now, p)
    ensures Grants(Stored(Entries(calls, p), now, p), retry, p) <==>
      retry >= now + Wait(Recent(Entries(calls, p), now, p.window), now, p)
  {
    if calls != [] {
      RunKeeps(calls, p);
      var k := RecentIsSuffix(Granted(calls, p), Latest(calls), p.window);
    }
    WaitIsExact(Entries(calls, p), now, retry, p);
  }
}
