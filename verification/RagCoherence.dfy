/** When searches are served, and exactly which upserts break that. */
module RagCoherence {
  import opened RagIndex

  // ------------------------------------------------------------------ Coherent is exactly what searches need

  predicate NoEmbeds(actions: seq<Action>) {
    forall i :: 0 <= i < |actions| ==> !actions[i].Embed?
  }

  /** Whatever edits, promotion, resets and crashes follow, searches are served. */
  ghost predicate StaysServed(w: World) {
    forall actions {:trigger Run(w, actions)} :: NoEmbeds(actions) ==> Serves(Run(w, actions).t)
  }

  lemma {:induction false} CoherentServes(w: World, actions: seq<Action>)
    requires Coherent(w) && NoEmbeds(actions)
    ensures Serves(Run(w, actions).t)
    decreases |actions|
  {
    if actions != [] {
      OthersKeep(w, actions[0]);
      CoherentServes(Step(w, actions[0]), actions[1..]);
    }
  }

  // What shows that a world is not coherent.
  lemma Exposed(w: World) returns (actions: seq<Action>)
    requires Ordered(w) && !Coherent(w)
    ensures NoEmbeds(actions) && !Serves(Run(w, actions).t)
  {
    if !Serves(w.t) {
      actions := [];
    } else if w.promotion.Snapshot? && !Answers(w.t, Merge(w.t.vec, w.promotion.copy)) {
      actions := [CopyToVec, Flip];
      RunCons(w, CopyToVec, [Flip]);
      RunCons(Step(w, CopyToVec), Flip, []);
      ExposedBy(w.t, Run(w, actions).t, Merge(w.t.vec, w.promotion.copy));
    } else if w.promotion.Copied? && !Answers(w.t, w.t.vec) {
      actions := [Flip];
      RunCons(w, Flip, []);
      ExposedBy(w.t, Run(w, actions).t, w.t.vec);
    } else {
      actions := ExposedByReset(w);
    }
  }

  lemma ExposedBy(t: Tables, after: Tables, table: map<Id, Hash>)
    requires !Answers(t, table)
    requires after.chunks == t.chunks && after.markers == t.markers && Active(after, after.backend) == table
    ensures !Serves(after)
  {
    var id :| id in t.chunks && Fresh(t, id) && !(id in table && table[id] == t.chunks[id].hash);
    assert Fresh(after, id);
  }

  lemma ExposedByReset(w: World) returns (actions: seq<Action>)
    requires Ordered(w) && Clearing(w) && !NoneFresh(w.t)
    ensures NoEmbeds(actions) && !Serves(Run(w, actions).t)
  {
    var id :| id in w.t.chunks && Fresh(w.t, id);
    assert !Answers(w.t, map[]);
    if w.reset.FallbackGone? {
      actions := [ResetVec];
      RunCons(w, ResetVec, []);
    } else {
      actions := if w.t.backend.Python? then [ResetFallback] else [ResetFallback, ResetVec];
      RunCons(w, ResetFallback, actions[1..]);
      assert [ResetFallback] + actions[1..] == actions;
      if w.t.backend.SqliteVec? {
        RunCons(Step(w, ResetFallback), ResetVec, []);
      }
    }
    ExposedBy(w.t, Run(w, actions).t, map[]);
  }

  lemma CoherentExactly(w: World)
    requires Ordered(w)
    ensures Coherent(w) <==> StaysServed(w)
  {
    if Coherent(w) {
      forall actions | NoEmbeds(actions) ensures Serves(Run(w, actions).t) {
        CoherentServes(w, actions);
      }
    } else {
      var actions := Exposed(w);
    }
  }

  /** Behind an upsert, every run of edits, promotion, resets and crashes goes on serving searches exactly when the
      upsert is harmless. */
  lemma UpsertKeepsExactly(w: World, handle: Backend, items: seq<Item>)
    requires Coherent(w) && DistinctIds(items) && (handle.SqliteVec? ==> w.t.backend.SqliteVec?)
    ensures StaysServed(Step(w, Embed(handle, items))) <==> Harmless(w, handle, items)
  {
    UpsertCoherent(w, handle, items);
    CoherentExactly(Step(w, Embed(handle, items)));
  }

  // ------------------------------------------------------------------ All runs

  ghost predicate HarmlessRun(w: World, actions: seq<Action>)
    decreases |actions|
  {
    actions == [] ||
    (&& (actions[0].Embed? ==> Harmless(w, actions[0].handle, actions[0].items))
     && HarmlessRun(Step(w, actions[0]), actions[1..]))
  }

  lemma {:induction false} CoherentRun(w: World, actions: seq<Action>)
    requires Coherent(w) && HarmlessRun(w, actions)
    ensures Coherent(Run(w, actions))
    decreases |actions|
  {
    if actions != [] {
      var a := actions[0];
      if !a.Embed? {
        OthersKeep(w, a);
      } else if DistinctIds(a.items) && (a.handle.SqliteVec? ==> w.t.backend.SqliteVec?) {
        UpsertCoherent(w, a.handle, a.items);
      }
      CoherentRun(Step(w, a), actions[1..]);
    }
  }

  /** In every interleaving of edits, embeddings in flight, promotion, reset and crashes: a vector hit was computed from
      the chunk's current content, every chunk is exactly one of pending or fresh, and every fresh chunk can be hit. */
  lemma HitsAreCurrent(backend: Backend, actions: seq<Action>, id: Id)
    requires HarmlessRun(Init(backend), actions)
    ensures var t := Run(Init(backend), actions).t;
      && (Hit(t, id) ==> Active(t, t.backend)[id] == t.chunks[id].hash)
      && (id in t.chunks ==> (IsPending(t, id) <==> !Fresh(t, id)))
      && (Fresh(t, id) ==> Hit(t, id))
  {
    CoherentRun(Init(backend), actions);
  }

  // ------------------------------------------------------------------ Harmful upserts

  // One chunk, its tables and the phases.
  function OneChunk(hash: Hash, markers: map<Id, Hash>, fallback: map<Id, Hash>, vec: map<Id, Hash>, backend: Backend,
                    promotion: Promotion, reset: Reset): World {
    World(Tables(map[1 := Chunk(0, 0, hash)], 2, markers, fallback, vec, backend), promotion, reset)
  }

  lemma OneStored(w: World, hash: Hash)
    requires 1 in w.t.chunks
    ensures Step(w, Embed(Python, [Item(1, hash)])) ==
      w.(t := w.t.(markers := w.t.markers[1 := hash], fallback := w.t.fallback[1 := hash]))
  {
    assert [Item(1, hash)][..0] == [] && StoreAll(w.t, Python, []) == w.t;
  }

  lemma RunTwo(w: World, a: Action, b: Action, rest: seq<Action>)
    ensures Run(w, [a, b] + rest) == Run(Step(Step(w, a), b), rest)
  {
    RunCons(w, a, [b] + rest);
    assert [a] + ([b] + rest) == [a, b] + rest;
    RunCons(Step(w, a), b, rest);
  }

  lemma OldVectorPromoted()
    ensures Run(Init(Python), [Insert(Chunk(0, 0, "old")), Embed(Python, [Item(1, "old")])] +
                              ([ReadFallback, CopyToVec] + [Flip])) ==
      OneChunk("old", map[1 := "old"], map[1 := "old"], map[1 := "old"], SqliteVec, NotPromoting, NotResetting)
  {
    var w0 := Init(Python);
    var w1 := OneChunk("old", map[], map[], map[], Python, NotPromoting, NotResetting);
    assert Step(w0, Insert(Chunk(0, 0, "old"))) == w1;
    var w2 := OneChunk("old", map[1 := "old"], map[1 := "old"], map[], Python, NotPromoting, NotResetting);
    OneStored(w1, "old");
    assert Step(w1, Embed(Python, [Item(1, "old")])) == w2;
    var w4 := OneChunk("old", map[1 := "old"], map[1 := "old"], map[1 := "old"], Python, Copied, NotResetting);
    assert Step(Step(w2, ReadFallback), CopyToVec) == w4;
    RunTwo(w0, Insert(Chunk(0, 0, "old")), Embed(Python, [Item(1, "old")]), [ReadFallback, CopyToVec] + [Flip]);
    RunTwo(w2, ReadFallback, CopyToVec, [Flip]);
    RunCons(w4, Flip, []);
  }

  /** An embedding that finishes with the old handle after a promotion: the chunk was changed meanwhile, the vector of
      the old content is still in the promoted table, and a search returns it as current. */
  lemma StaleHandleGivesStaleHit()
    ensures var w := Run(Run(Init(Python), [Insert(Chunk(0, 0, "old")), Embed(Python, [Item(1, "old")])] +
                                           ([ReadFallback, CopyToVec] + [Flip])),
                         [Change(1, "new"), Embed(Python, [Item(1, "new")])] + []);
      Hit(w.t, 1) && Active(w.t, w.t.backend)[1] == "old" && w.t.chunks[1].hash == "new"
  {
    OldVectorPromoted();
    var w5 := OneChunk("old", map[1 := "old"], map[1 := "old"], map[1 := "old"], SqliteVec, NotPromoting, NotResetting);
    var w6 := OneChunk("new", map[], map[], map[1 := "old"], SqliteVec, NotPromoting, NotResetting);
    assert Step(w5, Change(1, "new")) == w6;
    OneStored(w6, "new");
    RunTwo(w5, Change(1, "new"), Embed(Python, [Item(1, "new")]), []);
  }

  /** An embedding stored between the two steps of a reset: its marker stays and its vector goes. */
  lemma ResetLosesChunk()
    ensures var w := Run(Init(Python), [Insert(Chunk(0, 0, "text")), ResetMarkers] +
                                       ([Embed(Python, [Item(1, "text")]), ResetFallback] + [ResetVec]));
      Fresh(w.t, 1) && !Hit(w.t, 1) && w.reset.NotResetting?
  {
    var w0 := Init(Python);
    var w2 := OneChunk("text", map[], map[], map[], Python, NotPromoting, MarkersGone(Python));
    assert Step(Step(w0, Insert(Chunk(0, 0, "text"))), ResetMarkers) == w2;
    OneStored(w2, "text");
    var w4 := Step(Step(w2, Embed(Python, [Item(1, "text")])), ResetFallback);
    RunTwo(w0, Insert(Chunk(0, 0, "text")), ResetMarkers,
           [Embed(Python, [Item(1, "text")]), ResetFallback] + [ResetVec]);
    RunTwo(w2, Embed(Python, [Item(1, "text")]), ResetFallback, [ResetVec]);
    RunCons(w4, ResetVec, []);
  }

  /** An embedding stored while a promotion is copying: its vector never reaches the promoted table. */
  lemma PromotionLosesChunk()
    ensures var w := Run(Init(Python), [Insert(Chunk(0, 0, "text")), ReadFallback] +
                                       ([Embed(Python, [Item(1, "text")]), CopyToVec] + [Flip]));
      Fresh(w.t, 1) && !Hit(w.t, 1) && w.promotion.NotPromoting? && w.t.backend.SqliteVec?
  {
    var w0 := Init(Python);
    var w2 := OneChunk("text", map[], map[], map[], Python, Snapshot(map[]), NotResetting);
    assert Step(Step(w0, Insert(Chunk(0, 0, "text"))), ReadFallback) == w2;
    OneStored(w2, "text");
    var w4 := Step(Step(w2, Embed(Python, [Item(1, "text")])), CopyToVec);
    RunTwo(w0, Insert(Chunk(0, 0, "text")), ReadFallback, [Embed(Python, [Item(1, "text")]), CopyToVec] + [Flip]);
    RunTwo(w2, Embed(Python, [Item(1, "text")]), CopyToVec, [Flip]);
    RunCons(w4, Flip, []);
  }
}
