/** The vector index of the retrieval store (workbot/rag/store.py): chunks, embedding markers and the two vector tables
    under concurrent edits, embeddings in flight, backend promotion, reset and crashes. A vector is represented by the
    hash of the content it was computed from; a hash stands for one content. */
module RagIndex {

  type Id = nat
  type Hash = string

  datatype Backend = Python | SqliteVec

  datatype Chunk = Chunk(doc: nat, ordinal: nat, hash: Hash)

  // fallback is the ordinary table deleted from with its chunk; vec the virtual table, which no edit touches.
  datatype Tables = Tables(
    chunks: map<Id, Chunk>, next: Id, markers: map<Id, Hash>, fallback: map<Id, Hash>, vec: map<Id, Hash>,
    backend: Backend)

  datatype Item = Item(id: Id, hash: Hash)

  function Active(t: Tables, backend: Backend): map<Id, Hash> {
    if backend.Python? then t.fallback else t.vec
  }

  // ------------------------------------------------------------------ Single writes

  function InsertChunk(t: Tables, c: Chunk): Tables {
    t.(chunks := t.chunks[t.next := c], next := t.next + 1)
  }

  function ChangeChunk(t: Tables, id: Id, hash: Hash): Tables
    requires id in t.chunks
  {
    t.(chunks := t.chunks[id := t.chunks[id].(hash := hash)], markers := t.markers - {id},
       fallback := t.fallback - {id})
  }

  function DeleteChunk(t: Tables, id: Id): Tables {
    t.(chunks := t.chunks - {id}, markers := t.markers - {id}, fallback := t.fallback - {id})
  }

  function StoreVector(t: Tables, handle: Backend, item: Item): Tables {
    var marked := t.(markers := t.markers[item.id := item.hash]);
    if handle.Python? then marked.(fallback := t.fallback[item.id := item.hash])
    else marked.(vec := t.vec[item.id := item.hash])
  }

  function StoreAll(t: Tables, handle: Backend, items: seq<Item>): Tables {
    if items == [] then t else StoreVector(StoreAll(t, handle, items[..|items| - 1]), handle, items[|items| - 1])
  }

  predicate AllExist(t: Tables, items: seq<Item>) {
    forall i :: 0 <= i < |items| ==> items[i].id in t.chunks
  }

  predicate DistinctIds(items: seq<Item>) {
    forall i, j :: 0 <= i < j < |items| ==> items[i].id != items[j].id
  }

  // One transaction; a chunk deleted meanwhile violates the foreign key and undoes it all.
  function Upsert(t: Tables, handle: Backend, items: seq<Item>): Tables {
    if AllExist(t, items) then StoreAll(t, handle, items) else t
  }

  // ------------------------------------------------------------------ What searches and jobs see

  predicate Fresh(t: Tables, id: Id) {
    id in t.chunks && id in t.markers && t.markers[id] == t.chunks[id].hash
  }

  predicate IsPending(t: Tables, id: Id) {
    id in t.chunks && (id !in t.markers || t.markers[id] != t.chunks[id].hash)
  }

  // A vector of the active table passes the freshness filter.
  predicate Hit(t: Tables, id: Id) {
    id in Active(t, t.backend) && Fresh(t, id)
  }

  // ------------------------------------------------------------------ Concurrent runs

  datatype Promotion = NotPromoting | Snapshot(copy: map<Id, Hash>) | Copied
  datatype Reset = NotResetting | MarkersGone(handle: Backend) | FallbackGone(handle: Backend)

  datatype World = World(t: Tables, promotion: Promotion, reset: Reset)

  datatype Action =
    | Insert(c: Chunk) | Change(id: Id, hash: Hash) | Delete(id: Id)
    | Embed(handle: Backend, items: seq<Item>)
    | ReadFallback | CopyToVec | Flip
    | ResetMarkers | ResetFallback | ResetVec
    | Crash

  function Merge(base: map<Id, Hash>, over: map<Id, Hash>): map<Id, Hash> {
    base + over
  }

  // An embedding finishes with the handle it got when it began; a SqliteVec handle exists only once that backend does.
  function Step(w: World, a: Action): World {
    match a
    case Insert(c) => w.(t := InsertChunk(w.t, c))
    case Change(id, hash) => if id in w.t.chunks then w.(t := ChangeChunk(w.t, id, hash)) else w
    case Delete(id) => w.(t := DeleteChunk(w.t, id))
    case Embed(handle, items) =>
      if (handle.SqliteVec? && w.t.backend.Python?) || !DistinctIds(items) then w
      else w.(t := Upsert(w.t, handle, items))
    case ReadFallback =>
      if w.t.backend.Python? && w.promotion.NotPromoting? then w.(promotion := Snapshot(w.t.fallback)) else w
    case CopyToVec =>
      if w.promotion.Snapshot? then w.(t := w.t.(vec := Merge(w.t.vec, w.promotion.copy)), promotion := Copied) else w
    case Flip => if w.promotion.Copied? then World(w.t.(backend := SqliteVec), NotPromoting, w.reset) else w
    case ResetMarkers =>
      if w.reset.NotResetting? then w.(t := w.t.(markers := map[]), reset := MarkersGone(w.t.backend)) else w
    case ResetFallback =>
      if w.reset.MarkersGone? then w.(t := w.t.(fallback := map[]), reset := FallbackGone(w.reset.handle)) else w
    case ResetVec =>
      if w.reset.FallbackGone? then
        World(if w.reset.handle.SqliteVec? then w.t.(vec := map[]) else w.t, w.promotion, NotResetting)
      else w
    case Crash => World(w.t, NotPromoting, NotResetting)
  }

  function Run(w: World, actions: seq<Action>): World
    decreases |actions|
  {
    if actions == [] then w else Run(Step(w, actions[0]), actions[1..])
  }

  lemma RunCons(w: World, a: Action, rest: seq<Action>)
    ensures Run(w, [a] + rest) == Run(Step(w, a), rest)
  {
    assert ([a] + rest)[1..] == rest;
  }

  lemma {:induction false} RunConcat(w: World, s: seq<Action>, t: seq<Action>)
    ensures Run(w, s + t) == Run(Run(w, s), t)
    decreases |s|
  {
    if s == [] {
      assert s + t == t;
    } else {
      assert (s + t)[0] == s[0] && (s + t)[1..] == s[1..] + t;
      RunConcat(Step(w, s[0]), s[1..], t);
    }
  }

  function Init(backend: Backend): World {
    World(Tables(map[], 1, map[], map[], map[], backend), NotPromoting, NotResetting)
  }

  predicate Linked(t: Tables) {
    && t.markers.Keys <= t.chunks.Keys && t.fallback.Keys <= t.chunks.Keys
    && forall id :: id in t.chunks ==> id < t.next
  }

  /** The table holds, for every fresh chunk, the vector of its present content. */
  predicate Answers(t: Tables, table: map<Id, Hash>) {
    forall id :: id in t.chunks && Fresh(t, id) ==> id in table && table[id] == t.chunks[id].hash
  }

  /** What a search relies on: every fresh chunk can be hit, and every hit is current. */
  predicate Serves(t: Tables) {
    Answers(t, Active(t, t.backend))
  }

  predicate NoneFresh(t: Tables) {
    forall id :: id in t.chunks ==> !Fresh(t, id)
  }

  // The reset in progress has still to clear the table that searches use.
  predicate Clearing(w: World) {
    match w.reset
    case NotResetting => false
    case MarkersGone(handle) => w.t.backend.Python? || handle.SqliteVec?
    case FallbackGone(handle) => handle.SqliteVec?
  }

  // Only a Python index is promoted, and a reset got its handle from the index.
  predicate Ordered(w: World) {
    && Linked(w.t) && (!w.promotion.NotPromoting? ==> w.t.backend.Python?)
    && (!w.reset.NotResetting? && w.reset.handle.SqliteVec? ==> w.t.backend.SqliteVec?)
  }

  /** Searches are served now, by the table a promotion is about to switch to, and behind a reset. */
  predicate Coherent(w: World) {
    && Ordered(w) && Serves(w.t)
    && (w.promotion.Snapshot? ==> Answers(w.t, Merge(w.t.vec, w.promotion.copy)))
    && (w.promotion.Copied? ==> Answers(w.t, w.t.vec))
    && (Clearing(w) ==> NoneFresh(w.t))
  }

  // The item was computed from the chunk's present content.
  predicate Current(t: Tables, item: Item) {
    item.id in t.chunks && t.chunks[item.id].hash == item.hash
  }

  predicate AgreesWith(t: Tables, table: map<Id, Hash>, items: seq<Item>) {
    forall i :: 0 <= i < |items| && Current(t, items[i]) ==>
      items[i].id in table && table[items[i].id] == items[i].hash
  }

  /** An upsert that leaves the index coherent: it writes nothing; or, as far as its items are of present content, no
      reset has still to clear the table in use, and every table it does not write but searches will use already says
      the same. */
  predicate Harmless(w: World, handle: Backend, items: seq<Item>) {
    || !AllExist(w.t, items)
    || ((Clearing(w) ==> forall i :: 0 <= i < |items| ==> !Current(w.t, items[i]))
        && (handle.Python? && w.t.backend.SqliteVec? ==> AgreesWith(w.t, w.t.vec, items))
        && (handle.Python? && w.promotion.Snapshot? ==> AgreesWith(w.t, Merge(w.t.vec, w.promotion.copy), items))
        && (handle.Python? && w.promotion.Copied? ==> AgreesWith(w.t, w.t.vec, items)))
  }

  // ------------------------------------------------------------------ Effects of an upsert

  function HashOf(items: seq<Item>, id: Id): Hash {
    if items == [] then ""
    else if items[|items| - 1].id == id then items[|items| - 1].hash
    else HashOf(items[..|items| - 1], id)
  }

  function IdsOf(items: seq<Item>): set<Id> {
    set i | 0 <= i < |items| :: items[i].id
  }

  function Written(table: map<Id, Hash>, items: seq<Item>): map<Id, Hash> {
    map id | id in table.Keys + IdsOf(items) :: if id in IdsOf(items) then HashOf(items, id) else table[id]
  }

  lemma IdsOfLast(items: seq<Item>)
    requires items != []
    ensures IdsOf(items) == IdsOf(items[..|items| - 1]) + {items[|items| - 1].id}
  {
    var n := |items| - 1;
    forall id | id in IdsOf(items) ensures id in IdsOf(items[..n]) + {items[n].id} {
      var i :| 0 <= i < |items| && items[i].id == id;
      if i < n {
        assert items[..n][i].id == id;
      }
    }
    forall id | id in IdsOf(items[..n]) ensures id in IdsOf(items) {
      var i :| 0 <= i < n && items[..n][i].id == id;
      assert items[i].id == id;
    }
  }

  lemma {:induction false} StoreAllWrites(t: Tables, handle: Backend, items: seq<Item>)
    ensures var after := StoreAll(t, handle, items);
      && after.markers == Written(t.markers, items) && after.chunks == t.chunks && after.next == t.next
      && after.backend == t.backend
      && after.fallback == (if handle.Python? then Written(t.fallback, items) else t.fallback)
      && after.vec == (if handle.Python? then t.vec else Written(t.vec, items))
    decreases |items|
  {
    if items == [] {
      assert IdsOf(items) == {};
    } else {
      StoreAllWrites(t, handle, items[..|items| - 1]);
      IdsOfLast(items);
      WrittenLast(t.markers, items);
      WrittenLast(t.fallback, items);
      WrittenLast(t.vec, items);
    }
  }

  lemma WrittenLast(table: map<Id, Hash>, items: seq<Item>)
    requires items != []
    ensures Written(table, items) ==
      Written(table, items[..|items| - 1])[items[|items| - 1].id := items[|items| - 1].hash]
  {
    IdsOfLast(items);
  }

  lemma {:induction false} HashOfItem(items: seq<Item>, i: nat)
    requires DistinctIds(items) && i < |items|
    ensures HashOf(items, items[i].id) == items[i].hash
    decreases |items|
  {
    var n := |items| - 1;
    if i < n {
      HashOfItem(items[..n], i);
    }
  }

  // Which chunks are fresh after an upsert.
  lemma FreshAfter(t: Tables, handle: Backend, items: seq<Item>, id: Id)
    ensures var after := StoreAll(t, handle, items);
      Fresh(after, id) <==> if id in IdsOf(items) then Current(t, Item(id, HashOf(items, id))) else Fresh(t, id)
  {
    StoreAllWrites(t, handle, items);
  }

  // A table the upsert does not write goes on answering exactly when it agrees.
  lemma AnswersExactly(t: Tables, handle: Backend, items: seq<Item>, table: map<Id, Hash>)
    requires DistinctIds(items) && Answers(t, table)
    ensures Answers(StoreAll(t, handle, items), table) <==> AgreesWith(t, table, items)
  {
    var after := StoreAll(t, handle, items);
    StoreAllWrites(t, handle, items);
    if AgreesWith(t, table, items) {
      forall id | Fresh(after, id) ensures id in table && table[id] == t.chunks[id].hash {
        FreshAfter(t, handle, items, id);
        if id in IdsOf(items) {
          var i :| 0 <= i < |items| && items[i].id == id;
          HashOfItem(items, i);
          assert Current(t, items[i]);
        }
      }
    } else {
      var i :| 0 <= i < |items| && Current(t, items[i])
        && !(items[i].id in table && table[items[i].id] == items[i].hash);
      HashOfItem(items, i);
      FreshAfter(t, handle, items, items[i].id);
      assert Fresh(after, items[i].id);
    }
  }

  // The table it writes does so in any case.
  lemma AnswersWritten(t: Tables, handle: Backend, items: seq<Item>, table: map<Id, Hash>)
    requires Answers(t, table)
    ensures Answers(StoreAll(t, handle, items), Written(table, items))
  {
    var after := StoreAll(t, handle, items);
    StoreAllWrites(t, handle, items);
    forall id | Fresh(after, id) ensures id in Written(table, items) && Written(table, items)[id] == t.chunks[id].hash {
      FreshAfter(t, handle, items, id);
    }
  }

  lemma NoneFreshExactly(t: Tables, handle: Backend, items: seq<Item>)
    requires DistinctIds(items) && NoneFresh(t)
    ensures NoneFresh(StoreAll(t, handle, items)) <==> forall i :: 0 <= i < |items| ==> !Current(t, items[i])
  {
    var after := StoreAll(t, handle, items);
    forall id | Fresh(after, id) ensures exists i :: 0 <= i < |items| && Current(t, items[i]) {
      FreshAfter(t, handle, items, id);
      var i :| 0 <= i < |items| && items[i].id == id;
      HashOfItem(items, i);
      assert Current(t, items[i]);
    }
    forall i | 0 <= i < |items| && Current(t, items[i]) ensures Fresh(after, items[i].id) {
      HashOfItem(items, i);
      FreshAfter(t, handle, items, items[i].id);
    }
  }

  lemma UpsertCoherent(w: World, handle: Backend, items: seq<Item>)
    requires Coherent(w) && DistinctIds(items) && (handle.SqliteVec? ==> w.t.backend.SqliteVec?)
    ensures Coherent(Step(w, Embed(handle, items))) <==> Harmless(w, handle, items)
    ensures Ordered(Step(w, Embed(handle, items)))
  {
    if AllExist(w.t, items) {
      var t := w.t;
      StoreAllWrites(t, handle, items);
      LinkedAfter(t, handle, items);
      if handle == t.backend {
        AnswersWritten(t, handle, items, Active(t, t.backend));
      } else {
        AnswersExactly(t, handle, items, t.vec);
      }
      if w.promotion.Snapshot? {
        AnswersExactly(t, handle, items, Merge(t.vec, w.promotion.copy));
      } else if w.promotion.Copied? {
        AnswersExactly(t, handle, items, t.vec);
      }
      if Clearing(w) {
        NoneFreshExactly(t, handle, items);
      }
    }
  }

  lemma LinkedAfter(t: Tables, handle: Backend, items: seq<Item>)
    requires Linked(t) && AllExist(t, items)
    ensures Linked(StoreAll(t, handle, items))
  {
    StoreAllWrites(t, handle, items);
    assert IdsOf(items) <= t.chunks.Keys;
  }

  /** Edits, promotion, reset and crashes need no care. */
  lemma OthersKeep(w: World, a: Action)
    requires Coherent(w) && !a.Embed?
    ensures Coherent(Step(w, a))
  {
  }
}
