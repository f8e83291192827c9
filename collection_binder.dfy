/** The pattern the list sections (skills, experience, projects) share: the
    view is replaced by every snapshot of a live query, a field is saved with
    `updateDoc(doc(collection, id), { [key]: value })` and nothing local, and a
    document is deleted only after the owner confirms. */
module CollectionBinder {
  import opened Store
  import opened Query

  /** The collection after a section's `handleSave(id, key, value)`. */
  function SaveField(docs: map<DocId, Doc>, id: DocId, key: Field, value: string): (r: map<DocId, Doc>)
    ensures r.Keys == docs.Keys
    ensures forall other :: other in docs && other != id ==> r[other] == docs[other]
    ensures id in docs ==> r[id].Keys == docs[id].Keys + {key}
    ensures id in docs ==> r[id][key] == Str(value)
    ensures id in docs ==> forall f :: f in docs[id] && f != key ==> r[id][f] == docs[id][f]
  {
    Updated(docs, id, map[key := Str(value)])
  }

  /** The collection after `if (confirm(…)) await deleteDoc(…)`. */
  function DeleteIf(docs: map<DocId, Doc>, id: DocId, confirmed: bool): (r: map<DocId, Doc>)
    ensures r.Keys == if confirmed then docs.Keys - {id} else docs.Keys
    ensures forall k :: k in r ==> r[k] == docs[k]
  {
    if confirmed then docs - {id} else docs
  }

  /** Every stored record carries a numeric `createdAt`. */
  predicate Timestamped(docs: map<DocId, Doc>)
  {
    forall id :: id in docs ==> CreatedAt(docs[id]).Some?
  }

  /** A query ordered by `createdAt` that covers the whole collection can only
      exist when every record is timestamped; a record without the field
      would be missing from the view. */
  lemma OrderedQueryNeedsTimestamps(snap: Snapshot, docs: map<DocId, Doc>, order: Order)
    requires IsQueryResult(snap, docs, order)
    requires order != StoreOrder
    ensures Timestamped(docs)
  {
    forall id | id in docs
      ensures CreatedAt(docs[id]).Some?
    {
      var i :| 0 <= i < |snap| && snap[i].0 == id;
      assert Contents(snap)[i] == docs[id];
    }
  }

  /** Saving any field other than `id` keeps records free of an `id` field
      of their own, and saving any field other than `createdAt` keeps them
      timestamped; deleting keeps both. */
  lemma SaveKeepsShape(docs: map<DocId, Doc>, id: DocId, key: Field, value: string)
    ensures NoIdField(docs) && key != "id" ==> NoIdField(SaveField(docs, id, key, value))
    ensures Timestamped(docs) && key != "createdAt" ==> Timestamped(SaveField(docs, id, key, value))
  {
    var r := SaveField(docs, id, key, value);
    if Timestamped(docs) && key != "createdAt" {
      forall other | other in r
        ensures CreatedAt(r[other]).Some?
      {
        assert CreatedAt(docs[other]).Some?;
        if other == id {
          assert r[id]["createdAt"] == docs[id]["createdAt"];
        }
      }
    }
  }

  lemma DeleteKeepsShape(docs: map<DocId, Doc>, id: DocId, confirmed: bool)
    ensures NoIdField(docs) ==> NoIdField(DeleteIf(docs, id, confirmed))
    ensures Timestamped(docs) ==> Timestamped(DeleteIf(docs, id, confirmed))
  {
  }

  /** A saved field reaches the view: in any snapshot taken after the save,
      the item carrying the document's id shows the new value. */
  lemma SavedFieldInView(docs: map<DocId, Doc>, id: DocId, key: Field, value: string,
                         snap: Snapshot, order: Order)
    requires id in docs && key != "id" && NoIdField(docs)
    requires IsQueryResult(snap, SaveField(docs, id, key, value), order)
    ensures exists i :: 0 <= i < |View(snap)| && ItemId(View(snap)[i]) == Some(id) && View(snap)[i][key] == Str(value)
  {
    var after := SaveField(docs, id, key, value);
    SaveKeepsShape(docs, id, key, value);
    ViewOfQuery(snap, after, order);
    var i :| 0 <= i < |snap| && ItemId(View(snap)[i]) == Some(id);
    assert snap[i].0 == id;
    assert View(snap)[i] == Item(id, after[id]);
  }

  /** A deletion that was confirmed removes the item from every later view;
      one that was cancelled leaves it there. */
  lemma DeletedItemLeavesView(docs: map<DocId, Doc>, id: DocId, confirmed: bool,
                              snap: Snapshot, order: Order)
    requires id in docs && NoIdField(docs)
    requires IsQueryResult(snap, DeleteIf(docs, id, confirmed), order)
    ensures confirmed <==> forall i :: 0 <= i < |View(snap)| ==> ItemId(View(snap)[i]) != Some(id)
  {
    var after := DeleteIf(docs, id, confirmed);
    DeleteKeepsShape(docs, id, confirmed);
    ViewOfQuery(snap, after, order);
    if confirmed {
      forall i | 0 <= i < |View(snap)|
        ensures ItemId(View(snap)[i]) != Some(id)
      {
        assert snap[i].0 in after;
      }
    } else {
      var i :| 0 <= i < |snap| && ItemId(View(snap)[i]) == Some(id);
    }
  }
}
