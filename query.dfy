/** Live collection queries. A snapshot is what `onSnapshot` delivers for a
    query: the documents of the collection with their ids, in the order the
    query asks for. Each list section replaces its view with
    `snapshot.docs.map(doc => ({ id: doc.id, ...doc.data() }))`. */
module Query {
  import opened Store

  /** The orderings the sections use: none (the store's own order),
      `orderBy("createdAt", "asc")` and `orderBy("createdAt", "desc")`. */
  datatype Order = StoreOrder | CreatedAtAsc | CreatedAtDesc

  type Snapshot = seq<(DocId, Doc)>

  function CreatedAt(d: Doc): Option<int>
  {
    if "createdAt" in d && d["createdAt"].Num? then Some(d["createdAt"].n) else None
  }

  /** The `id` a view item carries, when it is a string. */
  function ItemId(item: Doc): Option<DocId>
  {
    if "id" in item && item["id"].Str? then Some(item["id"].s) else None
  }

  /** `{ id: doc.id, ...doc.data() }`: the spread comes last, so a stored field
      called `id` would win over the document's id. */
  function Item(id: DocId, d: Doc): (item: Doc)
    ensures item.Keys == d.Keys + {"id"}
    ensures forall k :: k in d ==> item[k] == d[k]
    ensures "id" !in d ==> ItemId(item) == Some(id)
  {
    map["id" := Str(id)] + d
  }

  /** The view a section shows for a snapshot: one item per entry, in the
      snapshot's order, holding the entry's fields and its id. */
  function View(snap: Snapshot): (v: seq<Doc>)
    ensures |v| == |snap|
    ensures forall i :: 0 <= i < |snap| ==> v[i].Keys == snap[i].1.Keys + {"id"}
    ensures forall i, k :: 0 <= i < |snap| && k in snap[i].1 ==> v[i][k] == snap[i].1[k]
    ensures forall i :: 0 <= i < |snap| && "id" !in snap[i].1 ==> ItemId(v[i]) == Some(snap[i].0)
  {
    seq(|snap|, i requires 0 <= i < |snap| => Item(snap[i].0, snap[i].1))
  }

  /** The stored contents of a snapshot, in its order. */
  function Contents(snap: Snapshot): (ds: seq<Doc>)
    ensures |ds| == |snap|
    ensures forall i :: 0 <= i < |snap| ==> ds[i] == snap[i].1
  {
    seq(|snap|, i requires 0 <= i < |snap| => snap[i].1)
  }

  /** Records in the order a query asks for. `orderBy("createdAt", …)` only
      returns documents that carry the field, so an ordered result is one in
      which every record has its timestamp. */
  predicate Ordered(items: seq<Doc>, order: Order)
  {
    match order
    case StoreOrder => true
    case CreatedAtAsc =>
      (forall i :: 0 <= i < |items| ==> CreatedAt(items[i]).Some?) &&
      forall i, j :: 0 <= i < j < |items| ==> CreatedAt(items[i]).value <= CreatedAt(items[j]).value
    case CreatedAtDesc =>
      (forall i :: 0 <= i < |items| ==> CreatedAt(items[i]).Some?) &&
      forall i, j :: 0 <= i < j < |items| ==> CreatedAt(items[i]).value >= CreatedAt(items[j]).value
  }

  /** What the store promises of a snapshot of the collection `docs`: every
      document exactly once, with its current content, in the query's order. */
  predicate IsQueryResult(snap: Snapshot, docs: map<DocId, Doc>, order: Order)
  {
    && (forall i, j :: 0 <= i < j < |snap| ==> snap[i].0 != snap[j].0)
    && (forall i :: 0 <= i < |snap| ==> snap[i].0 in docs && docs[snap[i].0] == snap[i].1)
    && (forall id :: id in docs ==> exists i :: 0 <= i < |snap| && snap[i].0 == id)
    && Ordered(Contents(snap), order)
  }

  /** No stored document has a field of its own called `id`; the sections
      never write one. */
  predicate NoIdField(docs: map<DocId, Doc>)
  {
    forall id :: id in docs ==> "id" !in docs[id]
  }

  /** The view of a snapshot of the store: one item per stored document,
      carrying its id and its stored fields, in the query's order. */
  lemma ViewOfQuery(snap: Snapshot, docs: map<DocId, Doc>, order: Order)
    requires IsQueryResult(snap, docs, order)
    requires NoIdField(docs)
    ensures |View(snap)| == |snap|
    ensures forall i :: 0 <= i < |snap| ==> ItemId(View(snap)[i]) == Some(snap[i].0)
    ensures forall i :: 0 <= i < |snap| ==> View(snap)[i] - {"id"} == docs[snap[i].0]
    ensures forall i, j :: 0 <= i < j < |snap| ==> ItemId(View(snap)[i]) != ItemId(View(snap)[j])
    ensures forall id :: id in docs ==> exists i :: 0 <= i < |snap| && ItemId(View(snap)[i]) == Some(id)
    ensures Ordered(View(snap), order)
  {
    var v := View(snap);
    forall i | 0 <= i < |snap|
      ensures ItemId(v[i]) == Some(snap[i].0)
      ensures v[i] - {"id"} == docs[snap[i].0]
      ensures CreatedAt(v[i]) == CreatedAt(snap[i].1)
    {
      assert v[i] == Item(snap[i].0, snap[i].1);
      assert "id" !in snap[i].1;
      assert (v[i] - {"id"}).Keys == snap[i].1.Keys;
      assert CreatedAt(v[i]) == CreatedAt(Contents(snap)[i]);
    }
    forall id | id in docs
      ensures exists i :: 0 <= i < |snap| && ItemId(v[i]) == Some(id)
    {
      var i :| 0 <= i < |snap| && snap[i].0 == id;
      assert ItemId(v[i]) == Some(id);
    }
  }

  /** A sequence of distinct ids has as many distinct elements as entries. */
  lemma {:induction false} DistinctCardinality(ids: seq<DocId>)
    requires forall i, j :: 0 <= i < j < |ids| ==> ids[i] != ids[j]
    ensures |set x | x in ids| == |ids|
    decreases |ids|
  {
    if ids != [] {
      var rest := ids[1..];
      DistinctCardinality(rest);
      assert (set x | x in ids) == (set x | x in rest) + {ids[0]};
      assert ids[0] !in rest by {
        forall k | 0 <= k < |rest|
          ensures rest[k] != ids[0]
        {
          assert rest[k] == ids[k + 1];
        }
      }
    }
  }

  /** A query result has exactly one entry per stored document. */
  lemma SnapshotSize(snap: Snapshot, docs: map<DocId, Doc>, order: Order)
    requires IsQueryResult(snap, docs, order)
    ensures |snap| == |docs|
  {
    var ids := seq(|snap|, i requires 0 <= i < |snap| => snap[i].0);
    DistinctCardinality(ids);
    forall x | x in ids
      ensures x in docs
    {
      var i :| 0 <= i < |ids| && ids[i] == x;
      assert snap[i].0 == x;
    }
    forall x | x in docs
      ensures x in ids
    {
      var i :| 0 <= i < |snap| && snap[i].0 == x;
      assert ids[i] == x;
    }
    assert (set x | x in ids) == docs.Keys;
  }
}
