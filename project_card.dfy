/** One project card (`ProjectCard.tsx`): a local copy of the project record,
    a modal with an image slider over the project's gallery, and handlers that
    edit fields, the gallery and the image-fit mode. The pure part (the gallery
    derivation, the slide arithmetic, the fit flip and each handler's effect on
    the card's state) is written as functions; the component is a class whose
    handlers are proved to follow them and to write the store as the source does. */
module ProjectCard {
  import opened Store
  import Tags

  // ---------------------------------------------------------------------
  // Reading the local project record

  /** `project.galleryUrls`; an absent value (or one that is not a list of
      strings) reads as unset, like the empty list. */
  function GalleryUrls(p: Doc): seq<string>
  {
    if "galleryUrls" in p && p["galleryUrls"].Strs? then p["galleryUrls"].items else []
  }

  function ImageUrl(p: Doc): string
  {
    if "imageUrl" in p && p["imageUrl"].Str? then p["imageUrl"].s else ""
  }

  /** `project.id`, the id of the project's document in the store. */
  function ProjectId(p: Doc): DocId
  {
    if "id" in p && p["id"].Str? then p["id"].s else ""
  }

  /** The effective gallery: the gallery URLs when there are any, otherwise
      the single primary image. */
  function Gallery(p: Doc): (g: seq<string>)
    ensures |g| >= 1
    ensures GalleryUrls(p) != [] ==> g == GalleryUrls(p)
    ensures GalleryUrls(p) == [] ==> g == [ImageUrl(p)]
  {
    if |GalleryUrls(p)| > 0 then GalleryUrls(p) else [ImageUrl(p)]
  }

  // ---------------------------------------------------------------------
  // Slide arithmetic

  /** `prev === gallery.length - 1 ? 0 : prev + 1`. */
  function NextSlide(i: nat, n: nat): (r: nat)
    requires i < n
    ensures r < n && r == (i + 1) % n
  {
    if i == n - 1 then 0 else i + 1
  }

  /** `prev === 0 ? gallery.length - 1 : prev - 1`. */
  function PrevSlide(i: nat, n: nat): (r: nat)
    requires i < n
    ensures r < n && r == (i - 1 + n) % n
  {
    if i == 0 then ModBelow(n - 1, n); n - 1
    else ModAbove(i - 1 + n, n); i - 1
  }

  lemma ModBelow(x: int, n: int)
    requires 0 <= x < n
    ensures x % n == x
  {
  }

  lemma ModAbove(x: int, n: int)
    requires 0 < n <= x < 2 * n
    ensures x % n == x - n
  {
    assert x == 1 * n + (x - n);
  }

  lemma PrevUndoesNext(i: nat, n: nat)
    requires i < n
    ensures PrevSlide(NextSlide(i, n), n) == i
    ensures NextSlide(PrevSlide(i, n), n) == i
  {
  }

  /** In a gallery of three, next from the last slide is the first and prev
      from the first is the last. */
  lemma CyclingThree()
    ensures NextSlide(2, 3) == 0 && PrevSlide(0, 3) == 2
  {
  }

  /** `currentGallery.splice(index, 1)`: removes the entry at `index`; an index
      past the end removes nothing. */
  function Removed(urls: seq<string>, index: nat): seq<string>
  {
    if index < |urls| then urls[..index] + urls[index + 1..] else urls
  }

  lemma RemovedExactlyOne(urls: seq<string>, index: nat)
    requires index < |urls|
    ensures |Removed(urls, index)| == |urls| - 1
    ensures forall j :: 0 <= j < index ==> Removed(urls, index)[j] == urls[j]
    ensures forall j :: index <= j < |urls| - 1 ==> Removed(urls, index)[j] == urls[j + 1]
  {
  }

  // ---------------------------------------------------------------------
  // Image fit

  /** JavaScript truthiness of a stored value, for `value || default`. */
  predicate Truthy(v: Value)
  {
    match v
    case Str(s) => s != ""
    case Strs(_) => true
    case Num(n) => n != 0
  }

  /** `project.imageFit === "contain" ? "cover" : "contain"`. */
  function FlipFit(fit: Value): (r: Value)
    ensures r == Str("cover") || r == Str("contain")
    ensures r != fit || (fit != Str("cover") && fit != Str("contain"))
  {
    if fit == Str("contain") then Str("cover") else Str("contain")
  }

  /** Two flips give the fit back exactly when it is one of the two modes. */
  lemma FlipFitTwice(fit: Value)
    ensures FlipFit(FlipFit(fit)) == fit <==> fit == Str("cover") || fit == Str("contain")
  {
  }

  /** The local copy made from the props: `{...data, imageFit: data.imageFit || "cover"}`. */
  function InitialProject(data: Doc): (p: Doc)
    ensures p.Keys == data.Keys + {"imageFit"}
    ensures forall k :: k in data && k != "imageFit" ==> p[k] == data[k]
    ensures "imageFit" !in data ==> p["imageFit"] == Str("cover")
    ensures "imageFit" in data && !Truthy(data["imageFit"]) ==> p["imageFit"] == Str("cover")
    ensures "imageFit" in data && Truthy(data["imageFit"]) ==> p["imageFit"] == data["imageFit"]
  {
    data["imageFit" := if "imageFit" in data && Truthy(data["imageFit"]) then data["imageFit"] else Str("cover")]
  }

  // ---------------------------------------------------------------------
  // Tags

  /** `project.tags`; a value that is not a list reads as no tags. */
  function TagList(p: Doc): seq<string>
  {
    if "tags" in p && p["tags"].Strs? then p["tags"].items else []
  }

  /** The text the tag editor starts from: `project.tags.join(", ")`. */
  function TagsText(p: Doc): string
  {
    Tags.ShowTags(TagList(p))
  }

  // ---------------------------------------------------------------------
  // The card's state and the effect of each handler on it

  datatype CardState = CardState(project: Doc, isOpen: bool, slide: nat)

  /** The slider index points into the effective gallery. */
  predicate SlideInRange(s: CardState)
  {
    s.slide < |Gallery(s.project)|
  }

  function Initial(data: Doc): CardState
  {
    CardState(InitialProject(data), false, 0)
  }

  /** `handleSave(key, value)` on the local copy. */
  function SaveOf(s: CardState, key: Field, value: Value): CardState
  {
    s.(project := s.project[key := value])
  }

  /** `toggleModal`: opening resets the slider to the first slide. */
  function ToggleModalOf(s: CardState): CardState
  {
    if s.isOpen then s.(isOpen := false) else s.(isOpen := true, slide := 0)
  }

  function NextOf(s: CardState): CardState
    requires SlideInRange(s)
  {
    s.(slide := NextSlide(s.slide, |Gallery(s.project)|))
  }

  function PrevOf(s: CardState): CardState
    requires SlideInRange(s)
  {
    s.(slide := PrevSlide(s.slide, |Gallery(s.project)|))
  }

  /** A click on the dot of slide `i`. */
  function SelectOf(s: CardState, i: nat): CardState
  {
    s.(slide := i)
  }

  /** `handleAddSlide`: the effective gallery with an empty slot appended is
      saved, and the slider moves to the new slot. */
  function AddSlideOf(s: CardState): CardState
  {
    var g := Gallery(s.project) + [""];
    SaveOf(s, "galleryUrls", Strs(g)).(slide := |g| - 1)
  }

  /** `handleUpdateSlide(url, index)`: a copy of the effective gallery with
      entry `index` replaced is saved. */
  function UpdateSlideOf(s: CardState, url: string, index: nat): CardState
    requires index < |Gallery(s.project)|
  {
    SaveOf(s, "galleryUrls", Strs(Gallery(s.project)[index := url]))
  }

  /** `handleDeleteSlide(index)`: unless confirmed nothing happens; otherwise
      the stored gallery (not the fallback) without entry `index` is saved and
      a slider index that is now past the end moves to the last slide. */
  function DeleteSlideOf(s: CardState, confirmed: bool, index: nat): CardState
  {
    if !confirmed then s
    else
      var g := Removed(GalleryUrls(s.project), index);
      var saved := SaveOf(s, "galleryUrls", Strs(g));
      if s.slide >= |g| then saved.(slide := if |g| > 0 then |g| - 1 else 0) else saved
  }

  /** `toggleImageFit`. */
  function ToggleFitOf(s: CardState): CardState
    requires "imageFit" in s.project
  {
    SaveOf(s, "imageFit", FlipFit(s.project["imageFit"]))
  }

  /** The tag editor's `onSave(text)`: the text split on commas, each piece
      trimmed, saved as the tag list. */
  function SaveTagsOf(s: CardState, text: string): CardState
  {
    SaveOf(s, "tags", Strs(Tags.ParseTags(text)))
  }

  // ---------------------------------------------------------------------
  // What the handlers promise

  /** Saving a field sets that field and no other; the slider is untouched. */
  lemma SaveSetsOneField(s: CardState, key: Field, value: Value)
    ensures SaveOf(s, key, value).project[key] == value
    ensures forall k :: k in s.project && k != key ==> SaveOf(s, key, value).project[k] == s.project[k]
    ensures SaveOf(s, key, value).project.Keys == s.project.Keys + {key}
    ensures SaveOf(s, key, value).slide == s.slide && SaveOf(s, key, value).isOpen == s.isOpen
  {
  }

  /** A save of any field but the gallery keeps the slider in range. */
  lemma SaveKeepsSlideInRange(s: CardState, key: Field, value: Value)
    requires SlideInRange(s)
    requires key != "galleryUrls"
    ensures SlideInRange(SaveOf(s, key, value))
  {
    assert GalleryUrls(SaveOf(s, key, value).project) == GalleryUrls(s.project);
  }

  lemma ToggleModalKeepsSlideInRange(s: CardState)
    requires SlideInRange(s)
    ensures SlideInRange(ToggleModalOf(s))
    ensures !s.isOpen ==> ToggleModalOf(s).slide == 0
  {
  }

  /** The slider starts in range. */
  lemma InitialSlideInRange(data: Doc)
    ensures SlideInRange(Initial(data))
  {
  }

  /** Adding a slide saves a gallery one longer whose prefix is the old
      effective gallery and whose new last entry is empty, and shows that
      last entry. */
  lemma AddSlideAppends(s: CardState)
    ensures GalleryUrls(AddSlideOf(s).project) == Gallery(s.project) + [""]
    ensures Gallery(AddSlideOf(s).project) == Gallery(s.project) + [""]
    ensures AddSlideOf(s).slide == |Gallery(s.project)|
    ensures SlideInRange(AddSlideOf(s))
  {
    var g := Gallery(s.project) + [""];
    assert GalleryUrls(AddSlideOf(s).project) == g;
  }

  /** Updating slide `index` replaces that entry only: the length and every
      other entry of the effective gallery stay. */
  lemma UpdateSlideReplacesOne(s: CardState, url: string, index: nat)
    requires SlideInRange(s)
    requires index < |Gallery(s.project)|
    ensures |Gallery(UpdateSlideOf(s, url, index).project)| == |Gallery(s.project)|
    ensures Gallery(UpdateSlideOf(s, url, index).project)[index] == url
    ensures forall j :: 0 <= j < |Gallery(s.project)| && j != index ==>
              Gallery(UpdateSlideOf(s, url, index).project)[j] == Gallery(s.project)[j]
    ensures UpdateSlideOf(s, url, index).slide == s.slide
    ensures SlideInRange(UpdateSlideOf(s, url, index))
  {
    var g := Gallery(s.project)[index := url];
    assert GalleryUrls(UpdateSlideOf(s, url, index).project) == g;
  }

  /** Deleting a slide without confirmation changes nothing; with it, the saved
      gallery lacks exactly entry `index` and the slider stays in range: it is
      clamped to the last slide when it fell off the end and kept otherwise. */
  lemma DeleteSlideRemovesOne(s: CardState, confirmed: bool, index: nat)
    requires SlideInRange(s)
    ensures !confirmed ==> DeleteSlideOf(s, confirmed, index) == s
    ensures confirmed ==> GalleryUrls(DeleteSlideOf(s, confirmed, index).project) == Removed(GalleryUrls(s.project), index)
    ensures confirmed && s.slide < |Removed(GalleryUrls(s.project), index)| ==>
              DeleteSlideOf(s, confirmed, index).slide == s.slide
    ensures confirmed && s.slide >= |Removed(GalleryUrls(s.project), index)| ==>
              DeleteSlideOf(s, confirmed, index).slide == if |Removed(GalleryUrls(s.project), index)| > 0 then |Removed(GalleryUrls(s.project), index)| - 1 else 0
    ensures SlideInRange(DeleteSlideOf(s, confirmed, index))
  {
    if confirmed {
      var g := Removed(GalleryUrls(s.project), index);
      var after := DeleteSlideOf(s, confirmed, index);
      assert GalleryUrls(after.project) == g;
      assert |Gallery(after.project)| == if |g| > 0 then |g| else 1;
    }
  }

  /** Toggling the fit twice restores a fit of "cover" or "contain". */
  lemma ToggleFitTwice(s: CardState)
    requires "imageFit" in s.project
    requires s.project["imageFit"] == Str("cover") || s.project["imageFit"] == Str("contain")
    ensures ToggleFitOf(ToggleFitOf(s)) == s
  {
    assert ToggleFitOf(ToggleFitOf(s)).project == s.project;
  }

  /** Saving tags stores one tag per comma-separated piece, none with a
      comma or edge whitespace, and leaves the slider alone. */
  lemma SaveTagsNormalises(s: CardState, text: string)
    requires SlideInRange(s)
    ensures |TagList(SaveTagsOf(s, text).project)| == Tags.CommaCount(text) + 1
    ensures forall i :: 0 <= i < |TagList(SaveTagsOf(s, text).project)| ==>
              ',' !in TagList(SaveTagsOf(s, text).project)[i] && Tags.Trimmed(TagList(SaveTagsOf(s, text).project)[i])
    ensures SlideInRange(SaveTagsOf(s, text))
  {
    Tags.ParseTagsCount(text);
    Tags.ParseTagsClean(text);
    SaveKeepsSlideInRange(s, "tags", Strs(Tags.ParseTags(text)));
  }

  /** Committing the editor's text unchanged leaves a card whose tags are a
      non-empty list of comma-free, trimmed tags exactly as it was. */
  lemma ResavingShownTagsKeepsCard(s: CardState)
    requires "tags" in s.project && s.project["tags"].Strs?
    requires |TagList(s.project)| >= 1
    requires forall i :: 0 <= i < |TagList(s.project)| ==>
               ',' !in TagList(s.project)[i] && Tags.Trimmed(TagList(s.project)[i])
    ensures SaveTagsOf(s, TagsText(s.project)) == s
  {
    Tags.ShowParseRoundTrip(TagList(s.project));
    assert SaveTagsOf(s, TagsText(s.project)).project == s.project;
  }

  // ---------------------------------------------------------------------
  // The component

  class Card {
    /** The `projects` collection. */
    const store: Collection
    var project: Doc
    var isOpen: bool
    var currentSlide: nat

    ghost function State(): CardState
      reads this
    {
      CardState(project, isOpen, currentSlide)
    }

    ghost predicate Valid()
      reads this, store
    {
      store.Valid() && SlideInRange(State()) && "imageFit" in project
    }

    /** Mounting with props `data`; later props never reach the local copy. */
    constructor (data: Doc, store: Collection)
      requires store.Valid()
      ensures Valid()
      ensures this.store == store
      ensures State() == Initial(data)
    {
      this.store := store;
      project := InitialProject(data);
      isOpen := false;
      currentSlide := 0;
    }

    /** `handleSave(key, value)`: the local copy first, then `updateDoc` of
        just `{key: value}`; a failed write (here: a missing document) is only
        logged and the local change stays. */
    method Save(key: Field, value: Value) returns (ok: bool)
      requires Valid()
      modifies this, store
      ensures State() == SaveOf(old(State()), key, value)
      ensures store.Valid()
      ensures ok <==> ProjectId(old(project)) in old(store.docs)
      ensures store.docs == Updated(old(store.docs), ProjectId(old(project)), map[key := value])
      ensures "imageFit" in project
      ensures key != "galleryUrls" ==> Valid()
    {
      var id := ProjectId(project);
      project := project[key := value];
      ok := store.Update(id, map[key := value]);
      if key != "galleryUrls" {
        SaveKeepsSlideInRange(old(State()), key, value);
      }
    }

    /** `handleDelete`: deletes the project's document only when confirmed. */
    method Delete(confirmed: bool)
      requires Valid()
      modifies store
      ensures Valid()
      ensures store.docs == if confirmed then old(store.docs) - {ProjectId(project)} else old(store.docs)
    {
      if confirmed {
        store.Delete(ProjectId(project));
      }
    }

    method ToggleModal()
      requires Valid()
      modifies this
      ensures Valid()
      ensures State() == ToggleModalOf(old(State()))
    {
      if !isOpen {
        currentSlide := 0;
      }
      isOpen := !isOpen;
    }

    method Next()
      requires Valid()
      modifies this
      ensures Valid()
      ensures State() == NextOf(old(State()))
    {
      var n := |Gallery(project)|;
      currentSlide := if currentSlide == n - 1 then 0 else currentSlide + 1;
    }

    method Prev()
      requires Valid()
      modifies this
      ensures Valid()
      ensures State() == PrevOf(old(State()))
    {
      var n := |Gallery(project)|;
      currentSlide := if currentSlide == 0 then n - 1 else currentSlide - 1;
    }

    /** A click on a dot; one dot is drawn per entry of the effective gallery. */
    method Select(i: nat)
      requires Valid()
      requires i < |Gallery(project)|
      modifies this
      ensures Valid()
      ensures State() == SelectOf(old(State()), i)
    {
      currentSlide := i;
    }

    method AddSlide()
      requires Valid()
      modifies this, store
      ensures Valid()
      ensures State() == AddSlideOf(old(State()))
      ensures store.docs == Updated(old(store.docs), ProjectId(old(project)),
                                    map["galleryUrls" := Strs(old(Gallery(project)) + [""])])
    {
      var newGallery := Gallery(project) + [""];
      var _ := Save("galleryUrls", Strs(newGallery));
      currentSlide := |newGallery| - 1;
      AddSlideAppends(old(State()));
    }

    /** The uploader of the current slide reports `url` for slide `index`. */
    method UpdateSlide(url: string, index: nat)
      requires Valid()
      requires index < |Gallery(project)|
      modifies this, store
      ensures Valid()
      ensures State() == UpdateSlideOf(old(State()), url, index)
      ensures store.docs == Updated(old(store.docs), ProjectId(old(project)),
                                    map["galleryUrls" := Strs(old(Gallery(project))[index := url])])
    {
      var currentGallery := Gallery(project);
      currentGallery := currentGallery[index := url];
      var _ := Save("galleryUrls", Strs(currentGallery));
      UpdateSlideReplacesOne(old(State()), url, index);
    }

    method DeleteSlide(confirmed: bool, index: nat)
      requires Valid()
      modifies this, store
      ensures Valid()
      ensures State() == DeleteSlideOf(old(State()), confirmed, index)
      ensures store.docs == if !confirmed then old(store.docs)
                            else Updated(old(store.docs), ProjectId(old(project)),
                                         map["galleryUrls" := Strs(Removed(old(GalleryUrls(project)), index))])
    {
      if !confirmed {
        return;
      }
      var currentGallery := GalleryUrls(project);
      if index < |currentGallery| {
        currentGallery := currentGallery[..index] + currentGallery[index + 1..];
      }
      var _ := Save("galleryUrls", Strs(currentGallery));
      if currentSlide >= |currentGallery| {
        currentSlide := if |currentGallery| > 0 then |currentGallery| - 1 else 0;
      }
      DeleteSlideRemovesOne(old(State()), confirmed, index);
    }

    /** The tag editor's `onSave(text)`. */
    method SaveTags(text: string)
      requires Valid()
      modifies this, store
      ensures Valid()
      ensures State() == SaveTagsOf(old(State()), text)
      ensures store.docs == Updated(old(store.docs), ProjectId(old(project)),
                                    map["tags" := Strs(Tags.ParseTags(text))])
    {
      var _ := Save("tags", Strs(Tags.ParseTags(text)));
    }

    method ToggleImageFit()
      requires Valid()
      modifies this, store
      ensures Valid()
      ensures State() == ToggleFitOf(old(State()))
      ensures store.docs == Updated(old(store.docs), ProjectId(old(project)),
                                    map["imageFit" := FlipFit(old(project)["imageFit"])])
    {
      var newFit := if project["imageFit"] == Str("contain") then Str("cover") else Str("contain");
      var _ := Save("imageFit", newFit);
    }
  }
}
