/** Replacing the chunks of a document (workbot/rag/store.py) and embedding what is pending (workbot/rag/service.py). */
module RagService {
  import opened RagIndex

  predicate SameSlot(a: Chunk, b: Chunk) {
    a.doc == b.doc && a.ordinal == b.ordinal
  }

  predicate UniqueSlots(t: Tables) {
    forall a, b {:trigger SameSlot(t.chunks[a], t.chunks[b])} ::
      a in t.chunks && b in t.chunks && SameSlot(t.chunks[a], t.chunks[b]) ==> a == b
  }

  // ------------------------------------------------------------------ What replacing means

  /** Only rows whose chunk is as before keep marker and vector. */
  function KeptRows(chunks: map<Id, Chunk>, rows: map<Id, Hash>, now: map<Id, Chunk>): map<Id, Hash> {
    map id | id in rows && id in chunks && id in now && now[id] == chunks[id] :: rows[id]
  }

  // The chunk the document's new contents leave in that row; a blank content counts as absent.
  predicate Wanted(c: Chunk, doc: nat, contents: seq<Hash>) {
    c.doc == doc && c.ordinal < |contents| && contents[c.ordinal] != "" && c.hash == contents[c.ordinal]
  }

  function Touched(before: map<Id, Chunk>, now: map<Id, Chunk>): set<Id> {
    set id | id in before.Keys + now.Keys && !(id in before && id in now && before[id] == now[id])
  }

  /** The loop over ordinals below `n` has run: rows of those ordinals have their new content under their old id, other
      old rows are as they were, and new rows have new ids. */
  predicate ReplacedTo(b: Tables, t: Tables, doc: nat, contents: seq<Hash>, n: nat)
    requires n <= |contents|
  {
    && b.next <= t.next && t.vec == b.vec && t.backend == b.backend
    && b.chunks.Keys <= t.chunks.Keys
    && (forall id :: id in b.chunks ==> t.chunks[id] == Rewritten(b.chunks[id], doc, contents, n))
    && (forall id :: id in t.chunks && id !in b.chunks ==>
          b.next <= id < t.next && t.chunks[id].ordinal < n && Wanted(t.chunks[id], doc, contents))
    && t.markers == KeptRows(b.chunks, b.markers, t.chunks)
    && t.fallback == KeptRows(b.chunks, b.fallback, t.chunks)
  }

  function Rewritten(c: Chunk, doc: nat, contents: seq<Hash>, n: nat): Chunk
    requires n <= |contents|
  {
    if c.doc == doc && c.ordinal < n && contents[c.ordinal] != "" then c.(hash := contents[c.ordinal]) else c
  }

  predicate HasSlot(t: Tables, doc: nat, ordinal: nat) {
    exists id :: id in t.chunks && t.chunks[id].doc == doc && t.chunks[id].ordinal == ordinal
  }

  predicate SlotsTo(t: Tables, doc: nat, contents: seq<Hash>, n: nat)
    requires n <= |contents|
  {
    forall o {:trigger HasSlot(t, doc, o)} :: 0 <= o < n && contents[o] != "" ==> HasSlot(t, doc, o)
  }

  function StaleRows(b: Tables, doc: nat, contents: seq<Hash>): set<Id> {
    set id | id in b.chunks && b.chunks[id].doc == doc
      && (b.chunks[id].ordinal >= |contents| || contents[b.chunks[id].ordinal] == "")
  }

  function DeleteAll(t: Tables, ids: set<Id>): Tables {
    t.(chunks := t.chunks - ids, markers := t.markers - ids, fallback := t.fallback - ids)
  }

  function PendingSet(t: Tables): set<Id> {
    set id | id in t.chunks && IsPending(t, id)
  }

  function Settled(t: Tables): World {
    World(t, NotPromoting, NotResetting)
  }

  predicate SlotAt(c: Chunk, doc: nat, ordinal: nat) {
    c.doc == doc && c.ordinal == ordinal
  }

  lemma SlotsGrow(t: Tables, after: Tables, doc: nat, contents: seq<Hash>, i: nat, id: Id)
    requires i < |contents| && SlotsTo(t, doc, contents, i) && t.chunks.Keys <= after.chunks.Keys
    requires forall x :: x in t.chunks ==> SameSlot(after.chunks[x], t.chunks[x])
    requires id in after.chunks && SlotAt(after.chunks[id], doc, i)
    ensures SlotsTo(after, doc, contents, i + 1)
  {
    assert HasSlot(after, doc, i);
    forall o | 0 <= o < i && contents[o] != "" ensures HasSlot(after, doc, o) {
      assert HasSlot(t, doc, o);
      var x :| x in t.chunks && t.chunks[x].doc == doc && t.chunks[x].ordinal == o;
      assert x in after.chunks && after.chunks[x].doc == doc && after.chunks[x].ordinal == o;
    }
  }

  lemma OneMore(b: map<Id, Chunk>, t: map<Id, Chunk>, id: Id, c: Chunk)
    requires if id in t then id in b && t[id] == b[id] && c != b[id] else id !in b
    ensures |Touched(b, t[id := c])| == |Touched(b, t)| + 1
  {
    assert id !in Touched(b, t);
    assert Touched(b, t[id := c]) == Touched(b, t) + {id};
  }

  lemma ChangeStep(b: Tables, t: Tables, doc: nat, contents: seq<Hash>, i: nat, id: Id)
    requires i < |contents| && contents[i] != "" && ReplacedTo(b, t, doc, contents, i) && UniqueSlots(b)
    requires id in b.chunks && SlotAt(b.chunks[id], doc, i) && b.chunks[id].hash != contents[i]
    ensures ReplacedTo(b, ChangeChunk(t, id, contents[i]), doc, contents, i + 1)
  {
    var c := t.chunks[id].(hash := contents[i]);
    assert t.chunks[id] == b.chunks[id];
    KeptChange(b.chunks, b.markers, t.chunks, id, c);
    KeptChange(b.chunks, b.fallback, t.chunks, id, c);
    assert forall x :: x in b.chunks && x != id ==> !SameSlot(b.chunks[x], b.chunks[id]);
  }

  lemma KeptChange(chunks: map<Id, Chunk>, rows: map<Id, Hash>, now: map<Id, Chunk>, id: Id, c: Chunk)
    requires id in chunks && chunks[id] != c
    ensures KeptRows(chunks, rows, now[id := c]) == KeptRows(chunks, rows, now) - {id}
  {}

  lemma ChangeKeeps(t: Tables, id: Id, hash: Hash)
    requires UniqueSlots(t) && Coherent(Settled(t)) && id in t.chunks
    ensures UniqueSlots(ChangeChunk(t, id, hash)) && Coherent(Settled(ChangeChunk(t, id, hash)))
  {
    OthersKeep(Settled(t), Change(id, hash));
    var after := ChangeChunk(t, id, hash);
    forall x, y | x in after.chunks && y in after.chunks && SameSlot(after.chunks[x], after.chunks[y]) ensures x == y {
      assert SameSlot(t.chunks[x], t.chunks[y]);
    }
  }

  lemma SkipStep(b: Tables, t: Tables, doc: nat, contents: seq<Hash>, i: nat, id: Id)
    requires i < |contents| && ReplacedTo(b, t, doc, contents, i) && UniqueSlots(b)
    requires id in b.chunks && SlotAt(b.chunks[id], doc, i) && b.chunks[id].hash == contents[i]
    ensures ReplacedTo(b, t, doc, contents, i + 1)
  {
    assert forall x :: x in b.chunks && x != id ==> !SameSlot(b.chunks[x], b.chunks[id]);
  }

  lemma BlankStep(b: Tables, t: Tables, doc: nat, contents: seq<Hash>, i: nat)
    requires i < |contents| && contents[i] == "" && ReplacedTo(b, t, doc, contents, i) && SlotsTo(t, doc, contents, i)
    ensures ReplacedTo(b, t, doc, contents, i + 1) && SlotsTo(t, doc, contents, i + 1)
  {}

  lemma InsertStep(b: Tables, t: Tables, doc: nat, contents: seq<Hash>, i: nat)
    requires i < |contents| && contents[i] != "" && ReplacedTo(b, t, doc, contents, i)
    requires Linked(b) && Linked(t) && forall id :: id in b.chunks ==> !SlotAt(b.chunks[id], doc, i)
    ensures ReplacedTo(b, InsertChunk(t, Chunk(doc, i, contents[i])), doc, contents, i + 1)
  {
    var after := InsertChunk(t, Chunk(doc, i, contents[i]));
    assert t.next !in t.chunks && t.next !in b.chunks;
  }

  lemma InsertKeeps(b: Tables, t: Tables, doc: nat, contents: seq<Hash>, i: nat)
    requires i < |contents| && ReplacedTo(b, t, doc, contents, i) && UniqueSlots(t) && Coherent(Settled(t))
    requires forall id :: id in b.chunks ==> !SlotAt(b.chunks[id], doc, i)
    ensures var after := InsertChunk(t, Chunk(doc, i, contents[i])); UniqueSlots(after) && Coherent(Settled(after))
  {}

  lemma StepsAreOne(b: Tables, t: Tables, doc: nat, contents: seq<Hash>, i: nat, id: Id)
    requires i <= |contents| && ReplacedTo(b, t, doc, contents, i) && id in b.chunks && b.chunks[id].ordinal == i
    ensures t.chunks[id] == b.chunks[id]
  {}

  class RagStore {
    var db: Tables

    constructor (backend: Backend)
      ensures Valid() && db == Init(backend).t
    {
      db := Init(backend).t;
    }

    ghost predicate Valid()
      reads this
    {
      Coherent(Settled(db)) && UniqueSlots(db)
    }

    /** One ordinal of a replacement. */
    method PutContent(doc: nat, contents: seq<Hash>, i: nat, before: Tables) returns (changed: nat)
      requires Valid() && i < |contents| && Linked(before) && UniqueSlots(before)
      requires ReplacedTo(before, db, doc, contents, i) && SlotsTo(db, doc, contents, i)
      modifies this
      ensures Valid() && ReplacedTo(before, db, doc, contents, i + 1) && SlotsTo(db, doc, contents, i + 1)
      ensures |Touched(before.chunks, db.chunks)| == |Touched(before.chunks, old(db).chunks)| + changed
    {
      changed := 0;
      if contents[i] == "" {
        BlankStep(before, db, doc, contents, i);
        return;
      }
      ghost var prior := db;
      if id :| id in before.chunks && SlotAt(before.chunks[id], doc, i) {
        StepsAreOne(before, db, doc, contents, i, id);
        if before.chunks[id].hash != contents[i] {
          ChangeStep(before, db, doc, contents, i, id);
          ChangeKeeps(db, id, contents[i]);
          OneMore(before.chunks, db.chunks, id, db.chunks[id].(hash := contents[i]));
          db := ChangeChunk(db, id, contents[i]);
          changed := 1;
        } else {
          SkipStep(before, db, doc, contents, i, id);
        }
        SlotsGrow(prior, db, doc, contents, i, id);
      } else {
        InsertStep(before, db, doc, contents, i);
        InsertKeeps(before, db, doc, contents, i);
        OneMore(before.chunks, db.chunks, db.next, Chunk(doc, i, contents[i]));
        db := InsertChunk(db, Chunk(doc, i, contents[i]));
        changed := 1;
        SlotsGrow(prior, db, doc, contents, i, prior.next);
      }
    }

    method FillContents(doc: nat, contents: seq<Hash>) returns (changed: nat)
      requires Valid()
      modifies this
      ensures Valid() && ReplacedTo(old(db), db, doc, contents, |contents|) && SlotsTo(db, doc, contents, |contents|)
      ensures changed == |Touched(old(db).chunks, db.chunks)|
    {
      var before := db;
      changed := 0;
      NothingReplaced(before, doc, contents);
      for i := 0 to |contents|
        invariant Valid() && ReplacedTo(before, db, doc, contents, i) && SlotsTo(db, doc, contents, i)
        invariant changed == |Touched(before.chunks, db.chunks)|
      {
        var more := PutContent(doc, contents, i, before);
        changed := changed + more;
      }
    }

    method DropRows(stale: set<Id>) returns (changed: nat)
      requires Valid()
      modifies this
      ensures Valid() && db == DeleteAll(old(db), stale) && changed == |stale|
    {
      var left := stale;
      changed := 0;
      assert DeleteAll(db, {}) == db;
      while left != {}
        invariant Valid() && left <= stale && db == DeleteAll(old(db), stale - left)
        invariant changed == |stale - left|
      {
        var id :| id in left;
        DeleteKeeps(db, id);
        DeleteOneMore(old(db), stale, left, id);
        db := DeleteChunk(db, id);
        left := left - {id};
        changed := changed + 1;
      }
      assert stale - {} == stale;
    }

    /** Give a document new chunks. Afterwards its chunks are exactly the non-blank contents at their ordinals; chunks
        of other documents stay; a row keeps marker and vector exactly when its chunk is unchanged; ids are never
        reused. The count is that of the rows changed, added or removed. */
    method ReplaceChunks(doc: nat, contents: seq<Hash>) returns (changed: nat)
      requires Valid()
      modifies this
      ensures Valid() && Replaced(old(db), db, doc, contents)
      ensures changed == |Touched(old(db).chunks, db.chunks)|
    {
      var before := db;
      var filled := FillContents(doc, contents);
      DeletedKept(before, db, doc, contents);
      DeletedTouched(before, db, doc, contents);
      SlotsSurvive(before, db, doc, contents);
      var dropped := DropRows(StaleRows(before, doc, contents));
      changed := filled + dropped;
    }

    /** Store vectors in one transaction: all or, when a chunk was deleted meanwhile, none. */
    method UpsertVectors(handle: Backend, items: seq<Item>) returns (ok: bool)
      modifies this
      ensures db == Upsert(old(db), handle, items) && ok == AllExist(old(db), items)
    {
      var begun := db;
      for i := 0 to |items|
        invariant db == StoreAll(old(db), handle, items[..i]) && db.chunks == old(db).chunks
        invariant forall j :: 0 <= j < i ==> items[j].id in old(db).chunks
      {
        if items[i].id !in db.chunks {
          db := begun;
          return false;
        }
        assert items[..i + 1][..i] == items[..i];
        db := StoreVector(db, handle, items[i]);
      }
      assert items[..|items|] == items;
      return true;
    }

    /** A batch of pending chunks with their present hashes, as many as the limit allows. */
    method PendingChunks(limit: nat) returns (items: seq<Item>)
      ensures IsBatch(db, items) && |items| == MinNat(limit, |PendingSet(db)|)
    {
      items := [];
      var left := PendingSet(db);
      while left != {} && |items| < limit
        invariant IsBatch(db, items) && IdsOf(items) !! left && left <= PendingSet(db)
        invariant |items| + |left| == |PendingSet(db)| && |items| <= limit
        decreases |left|
      {
        var id :| id in left;
        items := items + [Item(id, db.chunks[id].hash)];
        left := left - {id};
      }
    }

    /** One embedding batch; `available` when the embedding provider answers. */
    method EmbedPending(limit: nat, available: bool) returns (embedded: nat, ghost steps: seq<Action>)
      requires Valid() && limit >= 1
      modifies this
      ensures Valid() && db.chunks == old(db).chunks && db.backend == old(db).backend
      ensures embedded == if available then MinNat(limit, |PendingSet(old(db))|) else 0
      ensures |PendingSet(db)| == |PendingSet(old(db))| - embedded
      ensures OnlyEmbeds(steps) && Run(Settled(old(db)), steps) == Settled(db)
    {
      var items := PendingChunks(limit);
      if items == [] || !available {
        return 0, [];
      }
      steps := [Embed(db.backend, items)];
      EmbedIsStep(db, items);
      BatchStored(db, db.backend, items);
      BatchIsFresh(db, Upsert(db, db.backend, items), items);
      var ok := UpsertVectors(db.backend, items);
      embedded := |items|;
    }

    /** The embedding job: batches until nothing is embedded any more or the target is reached. Left alone with a
        working provider it embeds min(target, pending) chunks; without a target nothing stays pending. */
    method RunEmbedJob(all: bool, target: nat, micro: nat, available: bool)
      returns (total: nat, ghost steps: seq<Action>)
      requires Valid() && micro >= 1
      modifies this
      ensures Valid() && db.chunks == old(db).chunks
      ensures total ==
        if !available then 0 else if all then |PendingSet(old(db))| else MinNat(target, |PendingSet(old(db))|)
      ensures |PendingSet(db)| == |PendingSet(old(db))| - total
      ensures all && available ==> forall id :: id in db.chunks ==> Hit(db, id)
      ensures OnlyEmbeds(steps) && Run(Settled(old(db)), steps) == Settled(db)
    {
      total, steps := 0, [];
      var going := true;
      while going && (all || total < target)
        invariant Valid() && db.chunks == old(db).chunks
        invariant |PendingSet(db)| == |PendingSet(old(db))| - total && (!all ==> total <= target)
        invariant OnlyEmbeds(steps) && Run(Settled(old(db)), steps) == Settled(db)
        invariant !available ==> total == 0
        invariant !going ==> !available || PendingSet(db) == {}
        decreases |PendingSet(db)|, going
      {
        var n := if all then micro else MinNat(micro, target - total);
        var got, more := EmbedPending(n, available);
        RunConcat(Settled(old(db)), steps, more);
        total, steps := total + got, steps + more;
        going := got > 0;
      }
      if all && available {
        forall id | id in db.chunks ensures Hit(db, id) {
          assert id !in PendingSet(db);
        }
      }
    }
  }

  function MinNat(a: nat, b: nat): nat {
    if a <= b then a else b
  }

  // Steps of the run model that embeddings take.
  predicate OnlyEmbeds(steps: seq<Action>) {
    forall i :: 0 <= i < |steps| ==> steps[i].Embed?
  }

  /** Distinct pending chunks with their present hashes. */
  ghost predicate IsBatch(t: Tables, items: seq<Item>) {
    && DistinctIds(items)
    && forall i :: 0 <= i < |items| ==> items[i].id in PendingSet(t) && items[i].hash == t.chunks[items[i].id].hash
  }

  lemma EmbedIsStep(t: Tables, items: seq<Item>)
    requires DistinctIds(items)
    ensures Run(Settled(t), [Embed(t.backend, items)]) == Settled(Upsert(t, t.backend, items))
  {
    RunCons(Settled(t), Embed(t.backend, items), []);
  }

  lemma {:induction false} IdsCount(items: seq<Item>)
    requires DistinctIds(items)
    ensures |IdsOf(items)| == |items|
    decreases |items|
  {
    if items == [] {
      assert IdsOf(items) == {};
    } else {
      var n := |items| - 1;
      IdsCount(items[..n]);
      IdsOfLast(items);
      assert forall i :: 0 <= i < n ==> items[..n][i].id != items[n].id;
    }
  }

  /** Storing a batch keeps the index coherent. */
  lemma BatchStored(t: Tables, handle: Backend, items: seq<Item>)
    requires Coherent(Settled(t)) && UniqueSlots(t) && handle == t.backend && IsBatch(t, items)
    ensures var after := Upsert(t, handle, items);
      && AllExist(t, items) && Coherent(Settled(after)) && UniqueSlots(after)
      && after.chunks == t.chunks && after.backend == t.backend && after.markers == Written(t.markers, items)
  {
    assert forall i :: 0 <= i < |items| ==> items[i].id in PendingSet(t);
    UpsertCoherent(Settled(t), handle, items);
    StoreAllWrites(t, handle, items);
  }

  lemma BatchHashes(t: Tables, items: seq<Item>)
    requires IsBatch(t, items)
    ensures forall id :: id in IdsOf(items) ==> id in PendingSet(t) && HashOf(items, id) == t.chunks[id].hash
  {
    forall id | id in IdsOf(items) ensures id in PendingSet(t) && HashOf(items, id) == t.chunks[id].hash {
      var i :| 0 <= i < |items| && items[i].id == id;
      HashOfItem(items, i);
    }
  }

  lemma NoLongerPending(t: Tables, after: Tables, items: seq<Item>)
    requires forall id :: id in IdsOf(items) ==> id in PendingSet(t) && HashOf(items, id) == t.chunks[id].hash
    requires after.chunks == t.chunks && after.markers == Written(t.markers, items)
    ensures PendingSet(after) == PendingSet(t) - IdsOf(items)
  {}

  /** Its chunks, and no others, stop being pending. */
  lemma BatchIsFresh(t: Tables, after: Tables, items: seq<Item>)
    requires IsBatch(t, items) && after.chunks == t.chunks && after.markers == Written(t.markers, items)
    ensures PendingSet(after) == PendingSet(t) - IdsOf(items) && |PendingSet(after)| == |PendingSet(t)| - |items|
  {
    BatchHashes(t, items);
    IdsCount(items);
    NoLongerPending(t, after, items);
  }

  lemma DeleteOneMore(t: Tables, ids: set<Id>, left: set<Id>, id: Id)
    requires id in left && left <= ids
    ensures DeleteChunk(DeleteAll(t, ids - left), id) == DeleteAll(t, ids - (left - {id}))
    ensures |ids - (left - {id})| == |ids - left| + 1
  {}

  lemma NothingReplaced(b: Tables, doc: nat, contents: seq<Hash>)
    requires Linked(b)
    ensures ReplacedTo(b, b, doc, contents, 0) && SlotsTo(b, doc, contents, 0) && Touched(b.chunks, b.chunks) == {}
  {
    assert KeptRows(b.chunks, b.markers, b.chunks) == b.markers;
    assert KeptRows(b.chunks, b.fallback, b.chunks) == b.fallback;
  }

  lemma DeleteKeeps(t: Tables, id: Id)
    requires UniqueSlots(t) && Coherent(Settled(t))
    ensures UniqueSlots(DeleteChunk(t, id)) && Coherent(Settled(DeleteChunk(t, id)))
  {}

  /** What a replacement has to achieve. */
  ghost predicate Replaced(b: Tables, t: Tables, doc: nat, contents: seq<Hash>) {
    && (forall id :: id in t.chunks && t.chunks[id].doc == doc ==> Wanted(t.chunks[id], doc, contents))
    && SlotsTo(t, doc, contents, |contents|)
    && (forall id :: id in b.chunks && b.chunks[id].doc != doc ==> id in t.chunks && t.chunks[id] == b.chunks[id])
    && (forall id :: id in t.chunks && id !in b.chunks ==> b.next <= id && t.chunks[id].doc == doc)
    && (forall id :: id in t.chunks && id in b.chunks ==> SameSlot(t.chunks[id], b.chunks[id]))
    && t.markers == KeptRows(b.chunks, b.markers, t.chunks) && t.fallback == KeptRows(b.chunks, b.fallback, t.chunks)
    && t.vec == b.vec && t.backend == b.backend
  }

  lemma DeletedKept(b: Tables, t: Tables, doc: nat, contents: seq<Hash>)
    requires ReplacedTo(b, t, doc, contents, |contents|)
    ensures var after := DeleteAll(t, StaleRows(b, doc, contents));
      && after.markers == KeptRows(b.chunks, b.markers, after.chunks)
      && after.fallback == KeptRows(b.chunks, b.fallback, after.chunks)
  {}

  lemma DeletedTouched(b: Tables, t: Tables, doc: nat, contents: seq<Hash>)
    requires ReplacedTo(b, t, doc, contents, |contents|)
    ensures var stale := StaleRows(b, doc, contents);
      |Touched(b.chunks, t.chunks - stale)| == |Touched(b.chunks, t.chunks)| + |stale|
  {
    var stale := StaleRows(b, doc, contents);
    forall id | id in stale ensures id in t.chunks && t.chunks[id] == b.chunks[id] {
    }
    TouchedDelete(b.chunks, t.chunks, stale);
  }

  lemma TouchedDelete(b: map<Id, Chunk>, t: map<Id, Chunk>, ids: set<Id>)
    requires forall id :: id in ids ==> id in b && id in t && t[id] == b[id]
    ensures |Touched(b, t - ids)| == |Touched(b, t)| + |ids|
  {
    assert Touched(b, t) !! ids;
    assert Touched(b, t - ids) == Touched(b, t) + ids;
  }

  lemma SlotsSurvive(b: Tables, t: Tables, doc: nat, contents: seq<Hash>)
    requires ReplacedTo(b, t, doc, contents, |contents|) && SlotsTo(t, doc, contents, |contents|)
    ensures SlotsTo(DeleteAll(t, StaleRows(b, doc, contents)), doc, contents, |contents|)
  {
    var after := DeleteAll(t, StaleRows(b, doc, contents));
    forall o | 0 <= o < |contents| && contents[o] != "" ensures HasSlot(after, doc, o) {
      assert HasSlot(t, doc, o);
      var x :| x in t.chunks && t.chunks[x].doc == doc && t.chunks[x].ordinal == o;
      assert x in after.chunks && after.chunks[x] == t.chunks[x];
    }
  }
}
