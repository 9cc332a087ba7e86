/** Sliding-window rate limiting: the file-backed SharedRateBudget (workbot/tools/welink_rate.py) and its
    in-process twin, the history budget of the adapter (workbot/im/welink.py). */
module RateBudget {

  // Parameters after the source's clamping.
  datatype Params = Params(limit: nat, window: real, spacing: real) {
    predicate Valid() { limit >= 1 && window >= 1.0 && spacing >= 0.0 }
  }

  function Clamp(limit: int, window: real, spacing: real): (p: Params)
    ensures p.Valid()
  {
    Params(if limit < 1 then 1 else limit, if window < 1.0 then 1.0 else window, if spacing < 0.0 then 0.0 else spacing)
  }

  /** Parameters that need no clamping are taken as they are. */
  lemma ClampKeeps(p: Params)
    ensures Clamp(p.limit, p.window, p.spacing) == p <==> p.Valid()
  {
  }

  function MaxReal(a: real, b: real): real {
    if a >= b then a else b
  }

  // [x for x in entries if now - x < window]
  function Recent(entries: seq<real>, now: real, window: real): seq<real> {
    if entries == [] then []
    else
      var rest := Recent(entries[1..], now, window);
      if now - entries[0] < window then [entries[0]] + rest else rest
  }

  // How long a caller whose recent entries these are has to wait; 0 means it is granted.
  function Wait(recent: seq<real>, now: real, p: Params): real {
    var w := if recent != [] then MaxReal(0.0, recent[|recent| - 1] + p.spacing - now) else 0.0;
    if |recent| >= p.limit && recent != [] then MaxReal(w, recent[0] + p.window - now) else w
  }

  predicate Grants(entries: seq<real>, now: real, p: Params) {
    Wait(Recent(entries, now, p.window), now, p) <= 0.0
  }

  // The entries stored by a call.
  function Stored(entries: seq<real>, now: real, p: Params): seq<real> {
    var recent := Recent(entries, now, p.window);
    if Grants(entries, now, p) then recent + [now] else recent
  }

  // ------------------------------------------------------------------ Runs of calls on one key

  function Entries(calls: seq<real>, p: Params): seq<real> {
    if calls == [] then [] else Stored(Entries(calls[..|calls| - 1], p), calls[|calls| - 1], p)
  }

  // Times at which a call was granted.
  function Granted(calls: seq<real>, p: Params): seq<real> {
    if calls == [] then []
    else
      var before, now := calls[..|calls| - 1], calls[|calls| - 1];
      if Grants(Entries(before, p), now, p) then Granted(before, p) + [now] else Granted(before, p)
  }

  predicate Sorted(s: seq<real>) {
    forall i, j :: 0 <= i < j < |s| ==> s[i] <= s[j]
  }

  predicate Limited(times: seq<real>, p: Params, i: nat, j: nat)
    requires i <= j < |times|
  {
    times[j] - times[i] < p.window ==> j - i < p.limit
  }

  /** Any window holds at most `limit` of these times. */
  predicate Windowed(times: seq<real>, p: Params) {
    forall i, j {:trigger Limited(times, p, i, j)} :: 0 <= i <= j < |times| ==> Limited(times, p, i, j)
  }

  predicate Distant(times: seq<real>, gap: real, i: nat, j: nat)
    requires i < j < |times|
  {
    times[j] - times[i] >= gap
  }

  predicate Spaced(times: seq<real>, gap: real) {
    forall i, j {:trigger Distant(times, gap, i, j)} :: 0 <= i < j < |times| ==> Distant(times, gap, i, j)
  }

  /** One more time, late enough for the window and for the gap. */
  lemma Extends(g: seq<real>, now: real, p: Params, k: nat, gap: real)
    requires Sorted(g) && Windowed(g, p) && Spaced(g, gap) && Fits(g, now, p.window, k) && |g| - k < p.limit
    requires gap >= 0.0 && forall i :: 0 <= i < |g| ==> now - g[i] >= gap
    ensures Sorted(g + [now]) && Windowed(g + [now], p) && Spaced(g + [now], gap)
  {
    var all := g + [now];
    forall i, j | 0 <= i <= j < |all| ensures Limited(all, p, i, j) {
      if j < |g| {
        assert Limited(g, p, i, j);
      }
    }
    forall i, j | 0 <= i < j < |all| ensures Distant(all, gap, i, j) {
      if j < |g| {
        assert Distant(g, gap, i, j);
      }
    }
  }

  // The spacing a run really keeps: an entry older than the window is forgotten.
  function Gap(p: Params): real {
    if p.spacing <= p.window then p.spacing else p.window
  }

  predicate Fits(entries: seq<real>, now: real, window: real, k: nat) {
    && k <= |entries|
    && (forall i :: 0 <= i < k ==> now - entries[i] >= window)
    && (forall i :: k <= i < |entries| ==> now - entries[i] < window)
  }

  lemma RecentAll(entries: seq<real>, now: real, window: real)
    requires forall i :: 0 <= i < |entries| ==> now - entries[i] < window
    ensures Recent(entries, now, window) == entries
  {
    if entries != [] {
      RecentAll(entries[1..], now, window);
      assert entries == [entries[0]] + entries[1..];
    }
  }

  /** In time order, the recent entries are a suffix. */
  lemma {:induction false} RecentIsSuffix(entries: seq<real>, now: real, window: real) returns (k: nat)
    requires Sorted(entries)
    ensures Fits(entries, now, window, k) && Recent(entries, now, window) == entries[k..]
    decreases |entries|
  {
    if entries == [] {
      k := 0;
    } else if now - entries[0] < window {
      RecentAll(entries, now, window);
      k := 0;
    } else {
      var r := RecentIsSuffix(entries[1..], now, window);
      k := r + 1;
      assert forall i :: 1 <= i < |entries| ==> entries[i] == entries[1..][i - 1];
      assert entries[k..] == entries[1..][r..];
    }
  }

  lemma SuffixIsRecent(entries: seq<real>, now: real, window: real, k: nat)
    requires Sorted(entries) && Fits(entries, now, window, k)
    ensures Recent(entries, now, window) == entries[k..]
  {
    var n := RecentIsSuffix(entries, now, window);
    assert n < |entries| ==> now - entries[n] < window;
    assert k < |entries| ==> now - entries[k] < window;
  }

  lemma RecentTwice(entries: seq<real>, t: real, now: real, window: real)
    requires Sorted(entries) && t <= now
    ensures Recent(Recent(entries, t, window), now, window) == Recent(entries, now, window)
  {
    var k := RecentIsSuffix(entries, t, window);
    var m := RecentIsSuffix(entries[k..], now, window);
    assert forall i :: k <= i < |entries| ==> entries[i] == entries[k..][i - k];
    SuffixIsRecent(entries, now, window, k + m);
    assert entries[k..][m..] == entries[k + m..];
  }

  lemma RecentAppend(entries: seq<real>, now: real, window: real)
    requires Sorted(entries) && window > 0.0 && forall i :: 0 <= i < |entries| ==> entries[i] <= now
    ensures Recent(entries + [now], now, window) == Recent(entries, now, window) + [now]
  {
    var k := RecentIsSuffix(entries, now, window);
    SuffixIsRecent(entries + [now], now, window, k);
    assert (entries + [now])[k..] == entries[k..] + [now];
  }

  /** What a call decides, on the entries themselves. */
  lemma GrantsWhen(entries: seq<real>, now: real, p: Params, k: nat)
    requires p.Valid() && Sorted(entries) && Fits(entries, now, p.window, k)
    ensures Grants(entries, now, p) <==>
      |entries| - k < p.limit && (k < |entries| ==> entries[|entries| - 1] + p.spacing <= now)
    ensures k < |entries| ==> Recent(entries, now, p.window) == entries[k..]
  {
    SuffixIsRecent(entries, now, p.window, k);
    var recent := entries[k..];
    assert recent != [] ==> recent[0] == entries[k] && recent[|recent| - 1] == entries[|entries| - 1];
  }

  /** Nothing is granted at an earlier time any more. */
  ghost predicate Shut(entries: seq<real>, t: real, p: Params) {
    forall stale: real {:trigger Grants(entries, stale, p)} :: stale < t ==> !Grants(entries, stale, p)
  }

  /** The grants are in order, limited and spaced; the entries are the recent grants. */
  predicate Shaped(g: seq<real>, entries: seq<real>, t: real, p: Params) {
    && Sorted(g) && Windowed(g, p) && Spaced(g, Gap(p))
    && (forall i :: 0 <= i < |g| ==> g[i] <= t)
    && entries == Recent(g, t, p.window)
    && |entries| <= p.limit
  }

  /** The state a run leaves at its latest clock value. */
  ghost predicate Kept(g: seq<real>, entries: seq<real>, t: real, p: Params) {
    Shaped(g, entries, t, p) && Shut(entries, t, p)
  }

  lemma GrantExtends(g: seq<real>, now: real, p: Params, k: nat)
    requires p.Valid() && Sorted(g) && Windowed(g, p) && Spaced(g, Gap(p))
    requires Fits(g, now, p.window, k) && |g| - k < p.limit
    requires k < |g| ==> g[|g| - 1] + p.spacing <= now
    ensures Sorted(g + [now]) && Windowed(g + [now], p) && Spaced(g + [now], Gap(p))
  {
    if k < |g| {
      assert forall i :: 0 <= i < |g| ==> g[i] <= g[|g| - 1];
    }
    Extends(g, now, p, k, Gap(p));
  }

  /** A call stamped earlier than the latest one is denied and changes nothing. */
  lemma StaleCall(g: seq<real>, entries: seq<real>, t: real, now: real, p: Params)
    requires p.Valid() && Kept(g, entries, t, p) && now < t
    ensures !Grants(entries, now, p) && Stored(entries, now, p) == entries
  {
    var k := RecentIsSuffix(g, t, p.window);
    assert forall i :: 0 <= i < |entries| ==> entries[i] == g[k + i];
    RecentAll(entries, now, p.window);
  }

  /** Entries within the window that are full or too close at `now` deny every earlier call too. */
  lemma ShutBefore(after: seq<real>, now: real, p: Params)
    requires p.Valid() && Sorted(after) && after != []
    requires forall i :: 0 <= i < |after| ==> now - after[i] < p.window
    requires |after| >= p.limit || after[|after| - 1] + p.spacing >= now
    ensures Shut(after, now, p)
  {
    forall stale: real | stale < now ensures !Grants(after, stale, p) {
      assert Fits(after, stale, p.window, 0);
      GrantsWhen(after, stale, p, 0);
    }
  }

  lemma CallDecides(g: seq<real>, entries: seq<real>, t: real, now: real, p: Params) returns (k: nat)
    requires p.Valid() && Shaped(g, entries, t, p) && t <= now
    ensures Fits(g, now, p.window, k) && Recent(entries, now, p.window) == Recent(g, now, p.window) == g[k..]
    ensures Grants(entries, now, p) <==> |g| - k < p.limit && (k < |g| ==> g[|g| - 1] + p.spacing <= now)
    ensures |g| - k <= p.limit
  {
    RecentTwice(g, t, now, p.window);
    k := RecentIsSuffix(g, now, p.window);
    GrantsWhen(g, now, p, k);
    RecentLimited(g, t, now, p);
  }

  lemma SuffixAppend(g: seq<real>, k: nat, now: real)
    requires k <= |g|
    ensures (g + [now])[k..] == g[k..] + [now]
  {
  }

  lemma ShapedAppend(g: seq<real>, now: real, p: Params, k: nat)
    requires p.Valid() && Sorted(g) && Windowed(g, p) && Spaced(g, Gap(p)) && forall i :: 0 <= i < |g| ==> g[i] <= now
    requires Fits(g, now, p.window, k) && |g| - k < p.limit && (k < |g| ==> g[|g| - 1] + p.spacing <= now)
    requires Recent(g, now, p.window) == g[k..]
    ensures Shaped(g + [now], g[k..] + [now], now, p)
  {
    GrantExtends(g, now, p, k);
    RecentAppend(g, now, p.window);
  }

  lemma GrantedCall(g: seq<real>, entries: seq<real>, t: real, now: real, p: Params)
    requires p.Valid() && Shaped(g, entries, t, p) && t <= now && Grants(entries, now, p)
    ensures Kept(g + [now], Stored(entries, now, p), now, p)
  {
    var k := CallDecides(g, entries, t, now, p);
    ShapedAppend(g, now, p, k);
    ShutByLast(g, now, p, k);
  }

  lemma ShutByLast(g: seq<real>, now: real, p: Params, k: nat)
    requires p.Valid() && Fits(g, now, p.window, k) && Sorted(g + [now])
    ensures Shut(g[k..] + [now], now, p)
  {
    SuffixAppend(g, k, now);
    ShutBefore(g[k..] + [now], now, p);
  }

  lemma DeniedCall(g: seq<real>, entries: seq<real>, t: real, now: real, p: Params)
    requires p.Valid() && Shaped(g, entries, t, p) && t <= now && !Grants(entries, now, p)
    ensures Kept(g, Stored(entries, now, p), now, p)
  {
    var k := CallDecides(g, entries, t, now, p);
    assert k < |g| && g[k..][|g| - k - 1] == g[|g| - 1];
    ShutBefore(g[k..], now, p);
  }

  lemma CurrentCall(g: seq<real>, entries: seq<real>, t: real, now: real, p: Params)
    requires p.Valid() && Kept(g, entries, t, p) && t <= now
    ensures Kept(if Grants(entries, now, p) then g + [now] else g, Stored(entries, now, p), now, p)
  {
    if Grants(entries, now, p) {
      GrantedCall(g, entries, t, now, p);
    } else {
      DeniedCall(g, entries, t, now, p);
    }
  }

  lemma RecentLimited(g: seq<real>, t: real, now: real, p: Params)
    requires Sorted(g) && t <= now && |Recent(g, t, p.window)| <= p.limit
    ensures |Recent(g, now, p.window)| <= p.limit
  {
    var k := RecentIsSuffix(g, t, p.window);
    var n := RecentIsSuffix(g, now, p.window);
    assert n < |g| ==> now - g[n] < p.window;
  }

  function Latest(calls: seq<real>): real
    requires calls != []
  {
    var last := calls[|calls| - 1];
    if |calls| == 1 then last else MaxReal(Latest(calls[..|calls| - 1]), last)
  }

  /** A run of calls stamped in any order (the stamp is read before the lock is taken). */
  lemma {:induction false} RunKeeps(calls: seq<real>, p: Params)
    requires p.Valid() && calls != []
    ensures Kept(Granted(calls, p), Entries(calls, p), Latest(calls), p)
    decreases |calls|
  {
    var before, now := calls[..|calls| - 1], calls[|calls| - 1];
    if before == [] {
      FirstCall(calls, now, p);
    } else {
      RunKeeps(before, p);
      RunNext(calls, p);
      var g, entries, t := Granted(before, p), Entries(before, p), Latest(before);
      if now < t {
        StaleCall(g, entries, t, now, p);
      } else {
        CurrentCall(g, entries, t, now, p);
      }
    }
  }

  lemma RunNext(calls: seq<real>, p: Params)
    requires |calls| > 1
    ensures var before, now := calls[..|calls| - 1], calls[|calls| - 1];
      && Granted(calls, p) ==
        (if Grants(Entries(before, p), now, p) then Granted(before, p) + [now] else Granted(before, p))
      && Entries(calls, p) == Stored(Entries(before, p), now, p)
      && Latest(calls) == if Latest(before) >= now then Latest(before) else now
  {
  }

  lemma FirstCall(calls: seq<real>, now: real, p: Params)
    requires p.Valid() && calls == [now]
    ensures Granted(calls, p) == [now] && Entries(calls, p) == [now] && Kept([now], [now], now, p)
  {
    var none: seq<real> := [];
    assert calls[..0] == none && Entries(none, p) == none && Granted(none, p) == none;
    assert Grants(none, now, p) && Granted(calls, p) == none + [now] && Entries(calls, p) == none + [now];
    RecentAll([now], now, p.window);
    ShutBefore([now], now, p);
  }

  lemma TwoGrants(p: Params)
    requires p.Valid()
    requires p.spacing > p.window
    ensures Granted([0.0, p.window], p) == [0.0, p.window]
  {
    var none: seq<real> := [];
    var calls := [0.0, p.window];
    assert [0.0][..0] == none && calls[..1] == [0.0];
    assert Entries(none, p) == none && Granted(none, p) == none && Recent(none, 0.0, p.window) == none;
    assert Grants(none, 0.0, p);
    assert Granted([0.0], p) == none + [0.0] && Entries([0.0], p) == none + [0.0];
    assert Fits([0.0], p.window, p.window, 1);
    GrantsWhen([0.0], p.window, p, 1);
    assert Grants(Entries([0.0], p), p.window, p);
    assert Granted(calls, p) == [0.0] + [p.window];
  }

  /** The budget file: one entry list per key. */
  class SharedRateBudget {
    var state: map<string, seq<real>>

    constructor ()
      ensures state == map[]
    {
      state := map[];
    }

    ghost function At(key: string): seq<real>
      reads this
    {
      if key in state then state[key] else []
    }

    /** One reservation under the directory lock; every other key keeps its entries. */
    method TryReserve(key: string, now: real, limit: int, windowSeconds: real, minInterval: real)
      returns (ok: bool, wait: real, used: nat)
      modifies this
      ensures var p := Clamp(limit, windowSeconds, minInterval);
        && ok == Grants(old(At(key)), now, p)
        && wait == Wait(Recent(old(At(key)), now, p.window), now, p)
        && (ok ==> wait == 0.0) && (!ok ==> wait > 0.0)
        && state == old(state)[key := Stored(old(At(key)), now, p)]
        && used == |state[key]|
    {
      var p := Clamp(limit, windowSeconds, minInterval);
      var entries := Prune(if key in state then state[key] else [], now, p.window);
      wait := 0.0;
      if entries != [] {
        wait := MaxReal(wait, entries[|entries| - 1] + p.spacing - now);
      }
      if |entries| >= p.limit {
        wait := MaxReal(wait, entries[0] + p.window - now);
      }
      if wait > 0.0 {
        state := state[key := entries];
        return false, wait, |entries|;
      }
      entries := entries + [now];
      state := state[key := entries];
      return true, 0.0, |entries|;
    }

    static method Prune(source: seq<real>, now: real, window: real) returns (entries: seq<real>)
      ensures entries == Recent(source, now, window)
    {
      entries := [];
      var i := 0;
      while i < |source|
        invariant 0 <= i <= |source|
        invariant entries + Recent(source[i..], now, window) == Recent(source, now, window)
      {
        if now - source[i] < window {
          entries := entries + [source[i]];
        }
        i := i + 1;
      }
    }
  }
}
