# Portfolio content editor — a Dafny model

The system is a single-page portfolio site. Its owner edits the page in place
once signed in. Each section is bound to a document store: a contact footer
and a hero block each show one document, while the skills, experience and
projects lists each show a live, ordered query over one collection. Edits go
straight to the store. An edit-in-place text control is the editing primitive,
and an identity provider decides whether the page is in edit mode.

This project models the sequential logic of those components and proves what
each handler promises:

- **Store** is an abstract in-memory version of the document store, with five
  operations:
  - `updateDoc` overlays fields and rejects a missing document.
  - `setDoc` with merge is an upsert overlay.
  - `addDoc` creates a document under a fresh id.
  - `deleteDoc` removes a document.
  - One document at a fixed path can be bound on its own.
- **Query**: a snapshot is a sequence of `(id, record)` pairs.
  - `IsQueryResult` states what the store promises of a snapshot: every
    document once, with its current contents, in the query's order.
  - `View` is `snapshot.docs.map(doc => ({ id: doc.id, ...doc.data() }))`.
- **ProjectCard**: the card's local record, its gallery slider, and the handlers
  for fields, gallery, image fit and tags.
  - Each handler is a pure step function on `CardState`.
  - The `Card` class's methods are proved to follow those step functions and to
    write the store as the component does.
  - The class invariant keeps the slider inside the effective gallery, which is
    never empty.
- **Tags**: JavaScript's `split(",")`, `trim()` and `join(", ")` as the tag
  editor uses them, with a proved round trip.
- **EditableText**: the text buffer, its resync from the prop, keystrokes, the
  commit on focus loss, and the choice of control.
- **ContentBinder**, **Hero** and **Footer** cover the two single-document
  sections. Each starts from default contents, replaces them with each snapshot
  of a document that exists, and saves optimistically before a merge write of
  the whole local record.
- **CollectionBinder**, **Skills**, **Experience** and **Projects** cover the
  three list sections:
  - Adding a record uses fixed defaults.
  - Saving writes one field by id.
  - Deleting needs confirmation.
  - The view is replaced by each snapshot: skills by `createdAt` ascending,
    experience descending, projects in store order.
  - Skills also has an icon picker and an icon fallback.
- **Auth** models the provider's `user` and `loading`, its callback, logout and
  the render gate.

The model follows the code, including where the code behaves in ways a reader
might not expect:
- A save in `Footer.tsx` and `Hero.tsx` sends the whole local record with
  merge, not only the edited field. `ContentBinder.StaleFieldReverted` shows
  the effect: a stored field that changed since the last snapshot goes back to
  the stale local value.
- `EditableText.tsx:26-28` copies a new prop value into the buffer even while
  the field has focus. `EditableText.PropChangeDiscardsTyping` shows that a
  snapshot arriving mid-edit discards what was typed.
- `Projects.tsx:24-31` adds a project without `createdAt`. `Projects.NewProject`
  states this; the projects query has no ordering, so the project still shows.

Clock readings (`Date.now()`), `confirm()` answers, keystrokes and focus loss,
identity callbacks, whether a store write is delivered, and the snapshots the
store pushes are all parameters of the operations.

## Model

| member | source | states |
|---|---|---|
| Store.Overlay | src/components/ui/ProjectCard.tsx:42 | `updateDoc` on an existing record: the named fields get the patch's values and every other field is kept |
| Store.Updated | src/components/sections/Skills.tsx:53 | an update changes only the addressed document, and only when it exists; every other document is untouched |
| Store.Merge | src/components/layout/Footer.tsx:44 | merge write: the written fields take the new values, stored fields not written are preserved, and a missing document is created |
| Store.MergeIdempotent | src/components/sections/Hero.tsx:30 | writing the same record twice with merge leaves the document as one write left it |
| Store.Decimal | src/components/sections/Skills.tsx:43 | an automatic id is a non-empty string |
| Store.DecimalInjective | src/components/sections/Skills.tsx:43 | distinct counters give distinct automatic ids |
| Store.Collection.constructor | src/components/sections/Projects.tsx:16 | an empty collection, with its id-freshness invariant |
| Store.Collection.Add | src/components/sections/Experience.tsx:31 | `addDoc`: the new id was not in use, the new document has exactly the given fields, other documents are untouched |
| Store.Collection.Update | src/components/sections/Skills.tsx:65 | `updateDoc`: it succeeds exactly when the document exists, and the collection becomes `Updated` |
| Store.Collection.Delete | src/components/sections/Skills.tsx:59 | `deleteDoc`: the document is gone and nothing else changes; a missing id is not an error |
| Store.Document.constructor | src/components/sections/Hero.tsx:21 | a document at a fixed path, possibly missing |
| Store.Document.SetMerge | src/components/layout/Footer.tsx:44 | `setDoc` with merge: the document exists afterwards and holds `Merge(old, fields)` |
| Query.Item | src/components/sections/Skills.tsx:36 | the item holds every stored field and an `id`; the store id shows through unless the record has its own `id` field, which wins |
| Query.Contents | src/components/sections/Projects.tsx:18 | the records of a snapshot, in snapshot order |
| Query.View | src/components/sections/Skills.tsx:36 | one item per snapshot entry in snapshot order, each holding the entry's fields plus `id`; an entry without its own `id` field shows its store id |
| Query.ViewOfQuery | src/components/sections/Skills.tsx:34-36 | the view of a query result has one item per stored document; each item carries its store id and, apart from `id`, exactly the stored fields; ids are distinct; the items are in the query's order |
| Query.DistinctCardinality | src/components/sections/Projects.tsx:18 | distinct ids in a snapshot count once each |
| Query.SnapshotSize | src/components/sections/Projects.tsx:16-18 | a query result has exactly as many entries as the collection has documents |
| ProjectCard.Gallery | src/components/ui/ProjectCard.tsx:59-61 | the effective gallery is the stored URLs when there are any, otherwise `[imageUrl]`; it is never empty |
| ProjectCard.NextSlide | src/components/ui/ProjectCard.tsx:63-66 | next slide is `(i + 1) mod n` and lies in `[0, n)` |
| ProjectCard.PrevSlide | src/components/ui/ProjectCard.tsx:68-71 | previous slide is `(i - 1 + n) mod n` and lies in `[0, n)` |
| ProjectCard.PrevUndoesNext | src/components/ui/ProjectCard.tsx:63-71 | prev undoes next and next undoes prev |
| ProjectCard.CyclingThree | src/components/ui/ProjectCard.tsx:63-71 | with three slides, next from slide 2 is 0 and prev from slide 0 is 2 |
| ProjectCard.RemovedExactlyOne | src/components/ui/ProjectCard.tsx:96-97 | `splice(index, 1)` with an index in range removes exactly that entry and keeps the rest in order |
| ProjectCard.FlipFit | src/components/ui/ProjectCard.tsx:108 | the flip yields "cover" or "contain" and always changes a fit that is one of those |
| ProjectCard.FlipFitTwice | src/components/ui/ProjectCard.tsx:106-110 | two flips restore the fit exactly when it is "cover" or "contain" |
| ProjectCard.InitialProject | src/components/ui/ProjectCard.tsx:31-34 | the local copy has every prop field plus `imageFit`; other fields are copied unchanged; an absent or falsy `imageFit` becomes "cover" and a truthy one is kept |
| ProjectCard.SaveSetsOneField | src/components/ui/ProjectCard.tsx:38-40 | a save sets the named local field and leaves every other field and the slider unchanged |
| ProjectCard.SaveKeepsSlideInRange | src/components/ui/ProjectCard.tsx:38-40 | a save of any field but the gallery keeps the slider inside the effective gallery |
| ProjectCard.ToggleModalKeepsSlideInRange | src/components/ui/ProjectCard.tsx:51-55 | opening the modal resets the slider to 0; toggling keeps it in range |
| ProjectCard.InitialSlideInRange | src/components/ui/ProjectCard.tsx:31-36 | the slider starts inside the effective gallery |
| ProjectCard.AddSlideAppends | src/components/ui/ProjectCard.tsx:73-82 | the saved gallery is the old effective gallery plus one empty slot, and the slider shows the new last slot |
| ProjectCard.UpdateSlideReplacesOne | src/components/ui/ProjectCard.tsx:84-91 | updating slide k keeps the length, sets entry k and leaves every other entry and the slider unchanged |
| ProjectCard.DeleteSlideRemovesOne | src/components/ui/ProjectCard.tsx:93-103 | without confirmation nothing changes; with it, the stored gallery loses exactly entry k, and a slider past the new end moves to `max(0, len - 1)` while one inside stays |
| ProjectCard.ToggleFitTwice | src/components/ui/ProjectCard.tsx:106-110 | toggling the fit twice restores the card when the fit is "cover" or "contain" |
| ProjectCard.SaveTagsNormalises | src/components/ui/ProjectCard.tsx:155 | saving tags stores comma count + 1 tags, none with a comma or edge whitespace |
| ProjectCard.ResavingShownTagsKeepsCard | src/components/ui/ProjectCard.tsx:153-155 | committing the shown `join(", ")` of non-empty, comma-free, trimmed tags leaves the card unchanged |
| ProjectCard.Card.constructor | src/components/ui/ProjectCard.tsx:31-36 | the card starts closed, at slide 0, with the local copy made from the props |
| ProjectCard.Card.Save | src/components/ui/ProjectCard.tsx:38-44 | the local field is set first; the store gets only `{key: value}` on the project's document; a failed write does not roll back |
| ProjectCard.Card.Delete | src/components/ui/ProjectCard.tsx:46-49 | the project's document is deleted only when confirmed |
| ProjectCard.Card.ToggleModal | src/components/ui/ProjectCard.tsx:51-55 | follows `ToggleModalOf` and keeps the card invariant |
| ProjectCard.Card.Next | src/components/ui/ProjectCard.tsx:63-66 | follows `NextOf` and keeps the slider in range |
| ProjectCard.Card.Prev | src/components/ui/ProjectCard.tsx:68-71 | follows `PrevOf` and keeps the slider in range |
| ProjectCard.Card.Select | src/components/ui/ProjectCard.tsx:266-269 | a dot click selects that slide, which is in range |
| ProjectCard.Card.AddSlide | src/components/ui/ProjectCard.tsx:73-82 | follows `AddSlideOf`, keeps the invariant, and writes the extended gallery |
| ProjectCard.Card.UpdateSlide | src/components/ui/ProjectCard.tsx:84-91 | follows `UpdateSlideOf`, keeps the invariant, and writes a copy of the gallery with entry k replaced |
| ProjectCard.Card.DeleteSlide | src/components/ui/ProjectCard.tsx:93-103 | follows `DeleteSlideOf`, keeps the invariant, and writes only when confirmed |
| ProjectCard.Card.SaveTags | src/components/ui/ProjectCard.tsx:155 | follows `SaveTagsOf` and writes the parsed tag list |
| ProjectCard.Card.ToggleImageFit | src/components/ui/ProjectCard.tsx:106-110 | follows `ToggleFitOf` and writes the flipped fit |
| Tags.Split | src/components/ui/ProjectCard.tsx:155 | `split(",")` always yields at least one piece |
| Tags.TrimStart | src/components/ui/ProjectCard.tsx:155 | a suffix of the input with no leading whitespace; everything dropped is whitespace |
| Tags.TrimEnd | src/components/ui/ProjectCard.tsx:155 | a prefix of the input with no trailing whitespace; everything dropped is whitespace |
| Tags.Leading | src/components/ui/ProjectCard.tsx:155 | the length of the leading whitespace is at most the input's length |
| Tags.Trim | src/components/ui/ProjectCard.tsx:155 | the result is trimmed and is the slice of the input after its leading whitespace; everything dropped at either end is whitespace |
| Tags.Join | src/components/ui/ProjectCard.tsx:153 | every character of the joined text comes from the separator or from one of the tags |
| Tags.ShowTags | src/components/ui/ProjectCard.tsx:153 | every character of the shown text other than the comma and blank of `", "` comes from one of the tags |
| Tags.ParseTags | src/components/ui/ProjectCard.tsx:155 | saving any text yields at least one tag |
| Tags.ShownCommaCount | src/components/ui/ProjectCard.tsx:153-155 | the shown text of n comma-free tags has n - 1 commas, so saving it back yields n tags |
| Tags.SplitCount | src/components/ui/ProjectCard.tsx:155 | the number of pieces is the number of commas plus one |
| Tags.SplitNoComma | src/components/ui/ProjectCard.tsx:155 | no piece contains a comma |
| Tags.SplitJoin | src/components/ui/ProjectCard.tsx:155 | joining the pieces with commas gives the input back |
| Tags.SplitCommaFree | src/components/ui/ProjectCard.tsx:155 | a comma-free text is one piece |
| Tags.SplitAtComma | src/components/ui/ProjectCard.tsx:155 | the first comma ends the first piece |
| Tags.TrimIsTrimmed | src/components/ui/ProjectCard.tsx:155 | `trim` leaves no whitespace at either end |
| Tags.TrimFixpoint | src/components/ui/ProjectCard.tsx:155 | `trim` leaves a string unchanged exactly when it is already trimmed |
| Tags.TrimKeepsCommaFree | src/components/ui/ProjectCard.tsx:155 | `trim` adds no comma |
| Tags.TrimAfterBlank | src/components/ui/ProjectCard.tsx:153-155 | the blank that `join(", ")` adds is trimmed away |
| Tags.ParseTagsCount | src/components/ui/ProjectCard.tsx:155 | the number of tags saved is the comma count plus one |
| Tags.ParseTagsClean | src/components/ui/ProjectCard.tsx:155 | no saved tag has a comma or edge whitespace |
| Tags.ParseTagsPieces | src/components/ui/ProjectCard.tsx:155 | each saved tag is the trimmed text between two commas of the input |
| Tags.SplitShown | src/components/ui/ProjectCard.tsx:153 | the shown text of comma-free tags splits into the first tag and each later tag behind one blank |
| Tags.ShowParseRoundTrip | src/components/ui/ProjectCard.tsx:153-155 | re-saving the shown text of non-empty, comma-free, trimmed tags gives the same list |
| Tags.ParseShowParse | src/components/ui/ProjectCard.tsx:153-155 | saving, showing and saving again stores the same tags as saving once |
| Tags.EmptyListBecomesOneTag | src/components/ui/ProjectCard.tsx:153-155 | an empty tag list is shown as "" and saved back as one empty tag |
| EditableText.Render | src/components/admin/EditableText.tsx:30-64 | the control shows the buffer; a span outside edit mode, a textarea when editing a multiline field, an input otherwise |
| EditableText.InteractiveOnlyWhenEditing | src/components/admin/EditableText.tsx:30-64 | change and blur handlers exist exactly in edit mode |
| EditableText.MountedCommitsProp | src/components/admin/EditableText.tsx:24 | a fresh editor committed at once saves the prop value |
| EditableText.CommitSavesTyped | src/components/admin/EditableText.tsx:40-41 | in edit mode focus loss saves the last text typed, verbatim |
| EditableText.PropChangeDiscardsTyping | src/components/admin/EditableText.tsx:26-28 | a prop change before focus loss replaces what was typed; a render with the same prop keeps it |
| EditableText.SavedValueEchoes | src/components/admin/EditableText.tsx:26-28 | when the saved text comes back as the new prop, the buffer holds it and the effect has seen it |
| EditableText.VisitorNeverSaves | src/components/admin/EditableText.tsx:64 | outside edit mode no run of keystrokes changes the buffer and focus loss saves nothing |
| EditableText.TypeAllKeepsLast | src/components/admin/EditableText.tsx:40 | in edit mode a run of keystrokes leaves the last text in the buffer and the prop as it was |
| EditableText.TextEditor.constructor | src/components/admin/EditableText.tsx:24 | the buffer starts equal to `initialValue` |
| EditableText.TextEditor.ReceiveProps | src/components/admin/EditableText.tsx:26-28 | follows `ReceivePropsOf`: a changed prop overwrites the buffer, whatever was typed; an unchanged prop keeps it |
| EditableText.TextEditor.Change | src/components/admin/EditableText.tsx:40 | follows `ChangeOf`: a keystroke changes only the buffer and saves nothing |
| EditableText.TextEditor.Blur | src/components/admin/EditableText.tsx:41 | follows `BlurOf`: focus loss in edit mode saves the buffer verbatim, once; outside edit mode nothing is saved, and the buffer is unchanged |
| EditableText.TextEditor.View | src/components/admin/EditableText.tsx:64 | the rendered control shows the buffer and is interactive exactly in edit mode |
| ContentBinder.WithField | src/components/layout/Footer.tsx:41 | `{...data, [key]: value}` sets that field and keeps every other one |
| ContentBinder.AfterSnapshot | src/components/layout/Footer.tsx:31-35 | a snapshot of an existing document replaces the data wholesale; a missing document leaves it |
| ContentBinder.SaveStoresLocalRecord | src/components/layout/Footer.tsx:40-44 | after a delivered save the stored document holds the edited value, agrees with every local field, and keeps stored fields the local record does not name |
| ContentBinder.StaleFieldReverted | src/components/sections/Hero.tsx:28-30 | the whole-record write returns a remotely changed field to its stale local value, where a write of the edited field alone would keep it |
| Hero.HeroSection.constructor | src/components/sections/Hero.tsx:10-18 | before any snapshot the data equals the defaults, with an empty `imageUrl` |
| Hero.HeroSection.OnSnapshot | src/components/sections/Hero.tsx:20-23 | an existing document replaces the data; a missing one changes nothing |
| Hero.HeroSection.Save | src/components/sections/Hero.tsx:27-30 | the local field changes first; a delivered write merges the whole new record; an undelivered one leaves the local change in place |
| Hero.HeroSection.Unmount | src/components/sections/Hero.tsx:24 | the subscription is released and the data kept |
| Footer.ContactFooter.constructor | src/components/layout/Footer.tsx:18-27 | before any snapshot the data equals the defaults |
| Footer.ContactFooter.OnSnapshot | src/components/layout/Footer.tsx:30-35 | an existing document replaces the data; a missing one changes nothing |
| Footer.ContactFooter.Save | src/components/layout/Footer.tsx:40-48 | the local field changes first; a delivered write merges the whole new record; a failure is logged and the local value stays |
| Footer.ContactFooter.Unmount | src/components/layout/Footer.tsx:36 | the subscription is released and the data kept |
| CollectionBinder.SaveField | src/components/sections/Experience.tsx:40-42 | a section's save changes only the named field of the addressed record; nothing else in the collection changes |
| CollectionBinder.DeleteIf | src/components/sections/Experience.tsx:45-49 | a confirmed delete removes exactly that record; a cancelled one removes nothing |
| CollectionBinder.OrderedQueryNeedsTimestamps | src/components/sections/Experience.tsx:22 | a `createdAt`-ordered result covering the collection implies every record has a numeric `createdAt` |
| CollectionBinder.SaveKeepsShape | src/components/sections/Skills.tsx:52-54 | saving a field other than `id` adds no own `id` field; saving one other than `createdAt` keeps records timestamped |
| CollectionBinder.DeleteKeepsShape | src/components/sections/Skills.tsx:57-61 | deleting keeps both of those record shapes |
| CollectionBinder.SavedFieldInView | src/components/sections/Skills.tsx:34-36 | after a save, the next view's item carrying the document's id shows the new value |
| CollectionBinder.DeletedItemLeavesView | src/components/sections/Experience.tsx:45-49 | the next view lacks the item exactly when the deletion was confirmed |
| Skills.IconFor | src/components/sections/Skills.tsx:86 | a known icon name gives its icon; any other name falls back to `Code` |
| Skills.IconKeysMatchIcons | src/components/sections/Skills.tsx:14-18 | the picker offers twelve distinct names, one per icon, and each picked name shows that icon |
| Skills.ItemIcon | src/components/sections/Skills.tsx:86 | a string `iconName` is looked up; a missing or numeric one shows `Code` |
| Skills.NewSkill | src/components/sections/Skills.tsx:43-48 | the added record has the clock's `createdAt`, no own `id`, and shows the `Code` icon |
| Skills.ClickedIcon | src/components/sections/Skills.tsx:97 | in admin mode a click opens that card's picker unless it is open, and then closes it; otherwise nothing changes |
| Skills.AtMostOnePicker | src/components/sections/Skills.tsx:104 | at most one picker is open |
| Skills.ClickTogglesPicker | src/components/sections/Skills.tsx:97-104 | a click toggles that card's picker, closes every other one, and a second click undoes the first |
| Skills.NoPickerForVisitors | src/components/sections/Skills.tsx:104 | outside admin mode no picker is shown |
| Skills.SkillsSection.constructor | src/components/sections/Skills.tsx:29-30 | no items, no picker open, subscribed |
| Skills.ViewOldestFirst | src/components/sections/Skills.tsx:34-36 | the view of a `createdAt`-ascending result lists every stored skill exactly once, with its id, every item timestamped and oldest first |
| Skills.SkillsSection.OnSnapshot | src/components/sections/Skills.tsx:35-36 | a snapshot replaces the view wholesale; `Skills.ViewOldestFirst` gives the view's order |
| Skills.SkillsSection.Unmount | src/components/sections/Skills.tsx:38 | the subscription is released |
| Skills.SkillsSection.Add | src/components/sections/Skills.tsx:42-49 | one new record with the defaults under a fresh id; existing records untouched |
| Skills.SkillsSection.Save | src/components/sections/Skills.tsx:52-54 | only the named field of that record changes, and nothing local |
| Skills.SkillsSection.Delete | src/components/sections/Skills.tsx:57-61 | the record is removed only when confirmed |
| Skills.SkillsSection.ChangeIcon | src/components/sections/Skills.tsx:64-67 | only `iconName` of that record changes; the picker closes once the write succeeds |
| Skills.SkillsSection.ClickIcon | src/components/sections/Skills.tsx:97 | the click follows `ClickedIcon` |
| Skills.SkillsSection.PickerOpen | src/components/sections/Skills.tsx:104 | a shown picker is in admin mode and no other card shows one |
| Experience.NewExperience | src/components/sections/Experience.tsx:31-36 | the added record has the clock's `createdAt` and no own `id` |
| Experience.NewestFirst | src/components/sections/Experience.tsx:21-24 | a record added later than every stored one is first in the next view |
| Experience.ExperienceSection.constructor | src/components/sections/Experience.tsx:18 | no items, subscribed |
| Experience.ExperienceSection.OnSnapshot | src/components/sections/Experience.tsx:23-24 | a snapshot replaces the view wholesale |
| Experience.ExperienceSection.Unmount | src/components/sections/Experience.tsx:26 | the subscription is released |
| Experience.ExperienceSection.Add | src/components/sections/Experience.tsx:30-37 | one new record with the defaults under a fresh id; existing records untouched |
| Experience.ExperienceSection.Save | src/components/sections/Experience.tsx:40-42 | only the named field of that record changes |
| Experience.ExperienceSection.Delete | src/components/sections/Experience.tsx:45-49 | the record is removed only when confirmed |
| Projects.NewProject | src/components/sections/Projects.tsx:24-31 | the added project has no `createdAt` and no own `id`, and its card's gallery is the single empty image |
| Projects.Cards | src/components/sections/Projects.tsx:59-61 | one card per item, keyed by the item's id |
| Projects.OneCardPerProject | src/components/sections/Projects.tsx:59-61 | for a snapshot, one card per stored project, with distinct keys, and the card keyed by an id shows that project |
| Projects.ProjectsSection.constructor | src/components/sections/Projects.tsx:12-13 | no projects and the default section title |
| Projects.ProjectsSection.OnSnapshot | src/components/sections/Projects.tsx:16-18 | a snapshot replaces the list wholesale, in store order |
| Projects.ProjectsSection.Unmount | src/components/sections/Projects.tsx:20 | the subscription is released |
| Projects.ProjectsSection.Add | src/components/sections/Projects.tsx:23-32 | one new project with the defaults under a fresh id |
| Projects.ProjectsSection.SetSectionTitle | src/components/sections/Projects.tsx:42 | the section title changes locally and the store does not |
| Projects.ProjectsSection.RenderedCards | src/components/sections/Projects.tsx:59-61 | one card per project in the list, in order |
| Auth.ReplaySettles | src/context/AuthContext.tsx:30-33 | after at least one callback the provider holds the last reported user and is not loading |
| Auth.LoadingNeverReturns | src/context/AuthContext.tsx:30-33 | once loading is over it never comes back |
| Auth.LoadingMeansNoCallbackYet | src/context/AuthContext.tsx:25-33 | from the initial state, loading holds exactly until the first callback, and no user or children are shown while it holds |
| Auth.IdentityService.SignOut | src/context/AuthContext.tsx:39 | the identity service has no current user |
| Auth.AuthProvider.constructor | src/context/AuthContext.tsx:14-18 | the provider starts like the context default: no user, loading |
| Auth.AuthProvider.OnAuthStateChanged | src/context/AuthContext.tsx:30-33 | a callback sets the user to the reported one and ends loading |
| Auth.AuthProvider.Logout | src/context/AuthContext.tsx:38-40 | logout signs out at the service; the provider's state is unchanged until the callback |
| Auth.AuthProvider.Unmount | src/context/AuthContext.tsx:35 | the subscription is released |
| Auth.AuthProvider.ShowsChildren | src/context/AuthContext.tsx:44 | children are rendered exactly when loading is over |

## Left out

- The image upload (a Cloudinary request through a drop zone) is network I/O and a foreign library. An uploaded URL reaches the model as the `url` argument of `ProjectCard.Card.UpdateSlide`, or as the value of a save.
- Sign-in with credentials happens inside the identity service, and routing is plumbing. The identity service appears only as the callback it delivers and the sign-out it receives.
- Decoration and animation are not modelled: particles, smooth scrolling, background blobs, CSS classes and markup.
- DOM side effects are not modelled: `body.style.overflow`, portals, `scrollIntoView` and `stopPropagation`.
- Nothing models the page composition. Edit mode there is `!!user` (`Auth.EditMode`), and the model passes it as the `isEditing`/`isAdmin` parameter.
- Async interleaving, concurrent writes and real-time delivery to other clients are not modelled. Each handler is one atomic step, and a snapshot is an input that `IsQueryResult` relates to the store.
- Store.Collection.Add: the store invents a random 20-character id; the model derives the id from a counter and proves only what the code relies on, that the id is fresh.
- Query.IsQueryResult: a snapshot must cover every document. The store's `orderBy` would instead silently drop documents without `createdAt`. `CollectionBinder.OrderedQueryNeedsTimestamps` proves that a `createdAt`-ordered result covering the collection implies every record is timestamped. `CollectionBinder.SaveKeepsShape` and `CollectionBinder.DeleteKeepsShape` show that saving a field other than `createdAt`, or deleting, keeps every record timestamped.
- ProjectCard.Card.UpdateSlide requires the index to be inside the gallery. JavaScript would grow the array with holes for a larger index, but the only caller passes the current slide, which the card invariant keeps in range.
- ProjectCard.GalleryUrls reads a `galleryUrls` value that is not a list of strings as unset. ProjectCard.TagList reads a missing `tags` as no tags; the component would throw on `undefined.join`.
- ProjectCard.ProjectId reads a missing `project.id` as the empty id, which names no document, so the write is rejected and logged.
- ProjectCard.Card.Save models a rejected `updateDoc` only for a missing document. Permission and network failures behave the same way (logged, no rollback) and are not distinguished.
- Skills.ItemIcon does not model `ICON_MAP` keys inherited from the object prototype (`"toString"` and the like), which would look up a non-icon.
- A rejected write in Hero is an unhandled rejection in the component; the model records only that the local change stays.
- Hero.HeroSection.Save and Footer.ContactFooter.Save take the store's verdict as the `delivered` parameter; a write that fails is not retried or rolled back.
