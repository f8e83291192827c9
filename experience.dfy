/** The experience timeline (`Experience.tsx`), bound to the collection
    `experience` ordered by `createdAt` descending, newest first. */
module Experience {
  import opened Store
  import opened Query
  import opened CollectionBinder

  /** The record `handleAdd` writes, at clock time `now`. */
  function NewExperience(now: int): (d: Doc)
    ensures "id" !in d && CreatedAt(d) == Some(now)
  {
    map["year" := Str("2026"), "title" := Str("Нова посада"),
        "desc" := Str("Опис обов'язків..."), "createdAt" := Num(now)]
  }

  /** A record added at a later time than every stored one comes first in
      the next view. */
  lemma NewestFirst(docs: map<DocId, Doc>, id: DocId, now: int, snap: Snapshot)
    requires NoIdField(docs) && id !in docs
    requires forall other :: other in docs && CreatedAt(docs[other]).Some? ==> CreatedAt(docs[other]).value < now
    requires IsQueryResult(snap, docs[id := NewExperience(now)], CreatedAtDesc)
    ensures |View(snap)| > 0 && ItemId(View(snap)[0]) == Some(id)
  {
    var after := docs[id := NewExperience(now)];
    ViewOfQuery(snap, after, CreatedAtDesc);
    assert id in after;
    var i :| 0 <= i < |snap| && ItemId(View(snap)[i]) == Some(id);
    assert snap[i].0 == id;
    assert CreatedAt(Contents(snap)[i]) == Some(now);
    assert CreatedAt(Contents(snap)[0]).value >= now;
    assert snap[0].0 !in docs;
  }

  class ExperienceSection {
    /** The collection `experience`. */
    const store: Collection
    var items: seq<Doc>
    /** Whether the `onSnapshot` subscription is live. */
    var subscribed: bool

    constructor (store: Collection)
      ensures this.store == store && items == [] && subscribed
    {
      this.store := store;
      items := [];
      subscribed := true;
    }

    /** A snapshot of the descending `createdAt` query replaces the view. */
    method OnSnapshot(snap: Snapshot)
      modifies this
      ensures items == if old(subscribed) then View(snap) else old(items)
      ensures subscribed == old(subscribed)
    {
      if subscribed {
        items := View(snap);
      }
    }

    method Unmount()
      modifies this
      ensures !subscribed && items == old(items)
    {
      subscribed := false;
    }

    /** `handleAdd` at clock time `now`. */
    method Add(now: int) returns (id: DocId)
      requires store.Valid()
      modifies store
      ensures store.Valid()
      ensures id !in old(store.docs)
      ensures store.docs == old(store.docs)[id := NewExperience(now)]
    {
      id := store.Add(NewExperience(now));
    }

    /** `handleSave(id, key, value)`; it rejects when the document is gone. */
    method Save(id: DocId, key: Field, value: string) returns (ok: bool)
      requires store.Valid()
      modifies store
      ensures store.Valid()
      ensures ok <==> id in old(store.docs)
      ensures store.docs == SaveField(old(store.docs), id, key, value)
    {
      ok := store.Update(id, map[key := Str(value)]);
    }

    /** `handleDelete(id)`, with the owner's answer to `confirm`. */
    method Delete(id: DocId, confirmed: bool)
      requires store.Valid()
      modifies store
      ensures store.Valid()
      ensures store.docs == DeleteIf(old(store.docs), id, confirmed)
    {
      if confirmed {
        store.Delete(id);
      }
    }
  }
}
