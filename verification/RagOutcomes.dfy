/** What each operation on the vector index does when nothing comes between its transactions. */
module RagOutcomes {
  import opened RagIndex

  /** Nothing about this chunk changes: content, marker, vectors. */
  predicate SameFor(t: Tables, u: Tables, id: Id) {
    && (id in u.chunks <==> id in t.chunks) && (id in t.chunks ==> u.chunks[id] == t.chunks[id])
    && (id in u.markers <==> id in t.markers) && (id in t.markers ==> u.markers[id] == t.markers[id])
    && (id in u.fallback <==> id in t.fallback) && (id in t.fallback ==> u.fallback[id] == t.fallback[id])
    && (id in u.vec <==> id in t.vec) && (id in t.vec ==> u.vec[id] == t.vec[id])
  }

  /** A new chunk is pending under an id that was never used, and everything else stays. */
  lemma InsertOutcome(w: World, c: Chunk)
    requires Linked(w.t)
    ensures var u := Step(w, Insert(c)).t; var id := w.t.next;
      && id !in w.t.chunks && id in u.chunks && u.chunks[id] == c && IsPending(u, id) && !Hit(u, id)
      && u.next == id + 1 && u.backend == w.t.backend
      && forall other :: other != id ==> SameFor(w.t, u, other)
  {
  }

  /** A chunk whose content changes is pending, cannot be hit, and everything else stays. */
  lemma ChangeOutcome(w: World, id: Id, hash: Hash)
    requires id in w.t.chunks
    ensures var u := Step(w, Change(id, hash)).t;
      && id in u.chunks && u.chunks[id] == w.t.chunks[id].(hash := hash) && IsPending(u, id) && !Hit(u, id)
      && u.next == w.t.next && u.backend == w.t.backend
      && forall other :: other != id ==> SameFor(w.t, u, other)
  {
  }

  /** A deleted chunk takes its marker and its fallback vector with it, and everything else stays. */
  lemma DeleteOutcome(w: World, id: Id)
    ensures var u := Step(w, Delete(id)).t;
      && id !in u.chunks && id !in u.markers && id !in u.fallback
      && u.next == w.t.next && u.backend == w.t.backend
      && forall other :: other != id ==> SameFor(w.t, u, other)
  {
  }

  predicate Has(items: seq<Item>, id: Id) {
    exists i :: 0 <= i < |items| && items[i].id == id
  }

  predicate Stored(t: Tables, handle: Backend, item: Item) {
    && item.id in t.markers && t.markers[item.id] == item.hash
    && (handle.Python? ==> item.id in t.fallback && t.fallback[item.id] == item.hash)
    && (handle.SqliteVec? ==> item.id in t.vec && t.vec[item.id] == item.hash)
    && (handle == t.backend && Current(t, item) ==> Fresh(t, item.id) && Hit(t, item.id))
  }

  lemma WrittenElsewhere(table: map<Id, Hash>, items: seq<Item>, id: Id)
    requires !Has(items, id)
    ensures id in Written(table, items) <==> id in table
    ensures id in table ==> Written(table, items)[id] == table[id]
  {
    assert id !in IdsOf(items);
  }

  lemma OthersSame(t: Tables, handle: Backend, items: seq<Item>, id: Id)
    requires !Has(items, id)
    ensures SameFor(t, StoreAll(t, handle, items), id)
  {
    StoreAllWrites(t, handle, items);
    WrittenElsewhere(t.markers, items, id);
    WrittenElsewhere(t.fallback, items, id);
    WrittenElsewhere(t.vec, items, id);
  }

  lemma ItemStored(t: Tables, handle: Backend, items: seq<Item>, i: nat)
    requires DistinctIds(items) && i < |items|
    ensures Stored(StoreAll(t, handle, items), handle, items[i])
  {
    StoreAllWrites(t, handle, items);
    HashOfItem(items, i);
    assert items[i].id in IdsOf(items);
  }

  /** An upsert whose chunks all exist stores marker and vector of each and touches no other; those of present content
      can be hit if it writes the table in use. One that names a chunk that is gone stores nothing. */
  lemma EmbedOutcome(w: World, handle: Backend, items: seq<Item>)
    requires DistinctIds(items) && (handle.SqliteVec? ==> w.t.backend.SqliteVec?)
    ensures var u := Step(w, Embed(handle, items)).t;
      && ((exists i :: 0 <= i < |items| && items[i].id !in w.t.chunks) ==> u == w.t)
      && ((forall i :: 0 <= i < |items| ==> items[i].id in w.t.chunks) ==>
            && u.chunks == w.t.chunks && u.next == w.t.next && u.backend == w.t.backend
            && (forall i :: 0 <= i < |items| ==> Stored(u, handle, items[i]))
            && (forall id :: !Has(items, id) ==> SameFor(w.t, u, id)))
  {
    if AllExist(w.t, items) {
      StoreAllWrites(w.t, handle, items);
      forall i | 0 <= i < |items| ensures Stored(StoreAll(w.t, handle, items), handle, items[i]) {
        ItemStored(w.t, handle, items, i);
      }
      forall id | !Has(items, id) ensures SameFor(w.t, StoreAll(w.t, handle, items), id) {
        OthersSame(w.t, handle, items, id);
      }
    }
  }

  /** A promotion serves every vector of the fallback table from the other one; nothing that could be hit is lost. */
  lemma PromotionOutcome(w: World)
    requires w.t.backend.Python? && w.promotion.NotPromoting?
    ensures var v := Run(w, [ReadFallback] + ([CopyToVec] + ([Flip] + []))); var u := v.t;
      && v.promotion.NotPromoting? && v.reset == w.reset
      && u.backend.SqliteVec? && u == w.t.(backend := SqliteVec, vec := u.vec)
      && (forall id :: id in w.t.fallback ==> id in u.vec && u.vec[id] == w.t.fallback[id])
      && (forall id :: id !in w.t.fallback && id in w.t.vec ==> id in u.vec && u.vec[id] == w.t.vec[id])
      && (forall id :: Hit(w.t, id) ==> Hit(u, id))
  {
    var read := Step(w, ReadFallback);
    var copied := Step(read, CopyToVec);
    RunCons(w, ReadFallback, [CopyToVec] + ([Flip] + []));
    RunCons(read, CopyToVec, [Flip] + []);
    RunCons(copied, Flip, []);
  }

  /** A reset leaves every chunk where it was and pending, with no marker and no vector in use. */
  lemma ResetOutcome(w: World)
    requires w.reset.NotResetting?
    ensures var v := Run(w, [ResetMarkers] + ([ResetFallback] + ([ResetVec] + []))); var u := v.t;
      && v.reset.NotResetting? && v.promotion == w.promotion
      && u.chunks == w.t.chunks && u.next == w.t.next && u.backend == w.t.backend
      && u.markers == map[] && Active(u, u.backend) == map[]
      && forall id :: id in w.t.chunks ==> IsPending(u, id) && !Hit(u, id)
  {
    var one := Step(w, ResetMarkers);
    var two := Step(one, ResetFallback);
    RunCons(w, ResetMarkers, [ResetFallback] + ([ResetVec] + []));
    RunCons(one, ResetFallback, [ResetVec] + []);
    RunCons(two, ResetVec, []);
  }
}
