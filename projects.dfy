/** The projects section (`Projects.tsx`): the collection `projects` in the
    store's own order, one card per project, and a section title that lives
    only in the page. */
module Projects {
  import opened Store
  import opened Query
  import ProjectCard
  import Tags

  /** The record `handleAddProject` writes. It has no `createdAt`. */
  function NewProject(): (d: Doc)
    ensures "id" !in d && CreatedAt(d) == None
    ensures ProjectCard.Gallery(ProjectCard.InitialProject(d)) == [""]
  {
    map["title" := Str("Новий Проект"), "description" := Str("Опис проекту..."),
        "tags" := Strs(["Tech"]), "imageUrl" := Str(""), "link" := Str("#"),
        "githubLink" := Str("#")]
  }

  const DefaultTitle: string := "Мої Проекти"

  /** The cards a view renders: one per project, keyed by `project.id`. */
  function Cards(view: seq<Doc>): (cards: seq<(Option<DocId>, Doc)>)
    ensures |cards| == |view|
    ensures forall i :: 0 <= i < |view| ==> cards[i] == (ItemId(view[i]), view[i])
  {
    seq(|view|, i requires 0 <= i < |view| => (ItemId(view[i]), view[i]))
  }

  /** For a snapshot of the store there is exactly one card per stored
      project, the keys are distinct, and the card keyed by a project's id
      shows that project's stored fields. */
  lemma OneCardPerProject(snap: Snapshot, docs: map<DocId, Doc>)
    requires IsQueryResult(snap, docs, StoreOrder)
    requires NoIdField(docs)
    ensures |Cards(View(snap))| == |docs|
    ensures forall i, j :: 0 <= i < j < |snap| ==> Cards(View(snap))[i].0 != Cards(View(snap))[j].0
    ensures forall id :: id in docs ==>
              exists i :: 0 <= i < |snap| && Cards(View(snap))[i] == (Some(id), Query.Item(id, docs[id]))
  {
    SnapshotSize(snap, docs, StoreOrder);
    ViewOfQuery(snap, docs, StoreOrder);
    var cards := Cards(View(snap));
    forall id | id in docs
      ensures exists i :: 0 <= i < |snap| && cards[i] == (Some(id), Query.Item(id, docs[id]))
    {
      var i :| 0 <= i < |snap| && snap[i].0 == id;
      assert View(snap)[i] == Query.Item(id, docs[id]);
      assert cards[i] == (Some(id), Query.Item(id, docs[id]));
    }
  }

  class ProjectsSection {
    /** The collection `projects`. */
    const store: Collection
    var projects: seq<Doc>
    var sectionTitle: string
    /** Whether the `onSnapshot` subscription is live. */
    var subscribed: bool

    constructor (store: Collection)
      ensures this.store == store && projects == [] && sectionTitle == DefaultTitle && subscribed
    {
      this.store := store;
      projects := [];
      sectionTitle := DefaultTitle;
      subscribed := true;
    }

    /** A snapshot of the unordered query replaces the list. */
    method OnSnapshot(snap: Snapshot)
      modifies this
      ensures projects == if old(subscribed) then View(snap) else old(projects)
      ensures sectionTitle == old(sectionTitle) && subscribed == old(subscribed)
    {
      if subscribed {
        projects := View(snap);
      }
    }

    method Unmount()
      modifies this
      ensures !subscribed && projects == old(projects) && sectionTitle == old(sectionTitle)
    {
      subscribed := false;
    }

    /** `handleAddProject`. */
    method Add() returns (id: DocId)
      requires store.Valid()
      modifies store
      ensures store.Valid()
      ensures id !in old(store.docs)
      ensures store.docs == old(store.docs)[id := NewProject()]
    {
      id := store.Add(NewProject());
    }

    /** The title editor's `onSave` is `setSectionTitle`: the new title is
        local to the page and the store is not touched. */
    method SetSectionTitle(title: string)
      modifies this
      ensures sectionTitle == title
      ensures projects == old(projects) && subscribed == old(subscribed)
      ensures store.docs == old(store.docs)
    {
      sectionTitle := title;
    }

    /** The cards currently rendered. */
    function RenderedCards(): (cards: seq<(Option<DocId>, Doc)>)
      reads this
      ensures |cards| == |projects|
      ensures forall i :: 0 <= i < |cards| ==> cards[i].1 == projects[i]
    {
      Cards(projects)
    }
  }
}
