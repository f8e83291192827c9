/** The skills section (`Skills.tsx`), bound to the collection `skills_list`
    ordered by `createdAt` ascending, with a per-card icon picker. */
module Skills {
  import opened Store
  import opened Query
  import opened CollectionBinder
  import Tags

  datatype Icon = Layout | Smartphone | Database | Code | Terminal | Cpu
                | Globe | Layers | Zap | PenTool | Server | Box

  /** The keys of `ICON_MAP`, in declaration order: the picker's choices. */
  const IconKeys: seq<string> := ["Layout", "Smartphone", "Database", "Code", "Terminal", "Cpu",
                                  "Globe", "Layers", "Zap", "PenTool", "Server", "Box"]

  /** The name an icon is stored under. */
  function KeyOf(icon: Icon): string
  {
    match icon
    case Layout => "Layout"
    case Smartphone => "Smartphone"
    case Database => "Database"
    case Code => "Code"
    case Terminal => "Terminal"
    case Cpu => "Cpu"
    case Globe => "Globe"
    case Layers => "Layers"
    case Zap => "Zap"
    case PenTool => "PenTool"
    case Server => "Server"
    case Box => "Box"
  }

  /** `ICON_MAP[name] || Code`: a known name gives its icon, any other name
      the `Code` icon. */
  function IconFor(name: string): (icon: Icon)
    ensures name in IconKeys ==> KeyOf(icon) == name
    ensures name !in IconKeys ==> icon == Code
  {
    if name == "Layout" then Layout
    else if name == "Smartphone" then Smartphone
    else if name == "Database" then Database
    else if name == "Code" then Code
    else if name == "Terminal" then Terminal
    else if name == "Cpu" then Cpu
    else if name == "Globe" then Globe
    else if name == "Layers" then Layers
    else if name == "Zap" then Zap
    else if name == "PenTool" then PenTool
    else if name == "Server" then Server
    else if name == "Box" then Box
    else Code
  }

  /** The picker offers twelve distinct names, one per icon, and picking a
      name shows exactly that icon. */
  lemma IconKeysMatchIcons()
    ensures |IconKeys| == 12
    ensures forall i, j :: 0 <= i < j < |IconKeys| ==> IconKeys[i] != IconKeys[j]
    ensures forall icon: Icon :: KeyOf(icon) in IconKeys && IconFor(KeyOf(icon)) == icon
    ensures forall i :: 0 <= i < |IconKeys| ==> KeyOf(IconFor(IconKeys[i])) == IconKeys[i]
  {
  }

  /** The icon a card shows for its item. The property key is the field's
      string form: a list converts to its comma-joined entries, and a number
      or a missing field can never name an icon. */
  function ItemIcon(item: Doc): (icon: Icon)
    ensures "iconName" in item && item["iconName"].Str? ==> icon == IconFor(item["iconName"].s)
    ensures "iconName" !in item || item["iconName"].Num? ==> icon == Code
  {
    if "iconName" !in item then Code
    else match item["iconName"]
      case Str(s) => IconFor(s)
      case Strs(xs) => IconFor(Tags.Join(xs, ","))
      case Num(_) => Code
  }

  /** The record `handleAdd` writes, at clock time `now`. */
  function NewSkill(now: int): (d: Doc)
    ensures "id" !in d && CreatedAt(d) == Some(now)
    ensures ItemIcon(d) == Code
  {
    map["title" := Str("Нова навичка"), "desc" := Str("Опис навички..."),
        "iconName" := Str("Code"), "createdAt" := Num(now)]
  }

  // ---------------------------------------------------------------------
  // The icon picker. `isEditingIcon` names the one card whose picker is
  // open; a card shows it only in admin mode.

  predicate PickerShown(editing: Option<DocId>, isAdmin: bool, id: DocId)
  {
    isAdmin && editing == Some(id)
  }

  /** A click on the icon of card `id`. */
  function ClickedIcon(editing: Option<DocId>, isAdmin: bool, id: DocId): (r: Option<DocId>)
    ensures !isAdmin ==> r == editing
    ensures isAdmin ==> (r == Some(id) <==> editing != Some(id))
    ensures isAdmin ==> (r == None <==> editing == Some(id))
  {
    if !isAdmin then editing else if editing == Some(id) then None else Some(id)
  }

  /** At most one picker is open. */
  lemma AtMostOnePicker(editing: Option<DocId>, isAdmin: bool, a: DocId, b: DocId)
    requires PickerShown(editing, isAdmin, a) && PickerShown(editing, isAdmin, b)
    ensures a == b
  {
  }

  /** In admin mode a click on a card's icon toggles that card's picker and
      closes every other one; a second click closes it again. */
  lemma ClickTogglesPicker(editing: Option<DocId>, id: DocId, other: DocId)
    requires other != id
    ensures PickerShown(ClickedIcon(editing, true, id), true, id) <==> !PickerShown(editing, true, id)
    ensures !PickerShown(ClickedIcon(editing, true, id), true, other)
    ensures ClickedIcon(ClickedIcon(editing, true, id), true, id) == if editing == Some(id) then Some(id) else None
  {
  }

  /** Outside admin mode no picker is ever shown. */
  lemma NoPickerForVisitors(editing: Option<DocId>, id: DocId)
    ensures !PickerShown(editing, false, id)
  {
  }

  /** The view of a snapshot of `skills_list` lists every stored skill once,
      with its id, oldest first. */
  lemma ViewOldestFirst(snap: Snapshot, docs: map<DocId, Doc>)
    requires IsQueryResult(snap, docs, CreatedAtAsc) && NoIdField(docs)
    ensures |View(snap)| == |docs|
    ensures forall id :: id in docs ==> exists i :: 0 <= i < |View(snap)| && ItemId(View(snap)[i]) == Some(id)
    ensures forall i, j :: 0 <= i < j < |View(snap)| ==> ItemId(View(snap)[i]) != ItemId(View(snap)[j])
    ensures forall i :: 0 <= i < |View(snap)| ==> CreatedAt(View(snap)[i]).Some?
    ensures forall i, j :: 0 <= i < j < |View(snap)| ==> CreatedAt(View(snap)[i]).value <= CreatedAt(View(snap)[j]).value
  {
    SnapshotSize(snap, docs, CreatedAtAsc);
    ViewOfQuery(snap, docs, CreatedAtAsc);
  }

  class SkillsSection {
    /** The collection `skills_list`. */
    const store: Collection
    var items: seq<Doc>
    var isEditingIcon: Option<DocId>
    /** Whether the `onSnapshot` subscription is live. */
    var subscribed: bool

    constructor (store: Collection)
      ensures this.store == store && items == [] && isEditingIcon == None && subscribed
    {
      this.store := store;
      items := [];
      isEditingIcon := None;
      subscribed := true;
    }

    /** A snapshot of the ascending `createdAt` query replaces the view. */
    method OnSnapshot(snap: Snapshot)
      modifies this
      ensures items == if old(subscribed) then View(snap) else old(items)
      ensures isEditingIcon == old(isEditingIcon) && subscribed == old(subscribed)
    {
      if subscribed {
        items := View(snap);
      }
    }

    method Unmount()
      modifies this
      ensures !subscribed && items == old(items) && isEditingIcon == old(isEditingIcon)
    {
      subscribed := false;
    }

    /** `handleAdd` at clock time `now`: one new record with the defaults;
        the view changes only with the next snapshot. */
    method Add(now: int) returns (id: DocId)
      requires store.Valid()
      modifies store
      ensures store.Valid()
      ensures id !in old(store.docs)
      ensures store.docs == old(store.docs)[id := NewSkill(now)]
    {
      id := store.Add(NewSkill(now));
    }

    /** `handleSave(id, key, value)`; it rejects when the document is gone. */
    method Save(id: DocId, key: Field, value: string) returns (ok: bool)
      requires store.Valid()
      modifies store
      ensures store.Valid()
      ensures ok <==> id in old(store.docs)
      ensures store.docs == SaveField(old(store.docs), id, key, value)
    {
      ok := store.Update(id, map[key := Str(value)]);
    }

    /** `handleDelete(id)`, with the owner's answer to `confirm`. */
    method Delete(id: DocId, confirmed: bool)
      requires store.Valid()
      modifies store
      ensures store.Valid()
      ensures store.docs == DeleteIf(old(store.docs), id, confirmed)
    {
      if confirmed {
        store.Delete(id);
      }
    }

    /** `handleChangeIcon(id, name)`: the picker closes only once the
        write has succeeded; a rejected write leaves it open. */
    method ChangeIcon(id: DocId, name: string) returns (ok: bool)
      requires store.Valid()
      modifies this, store
      ensures store.Valid()
      ensures ok <==> id in old(store.docs)
      ensures store.docs == SaveField(old(store.docs), id, "iconName", name)
      ensures isEditingIcon == if ok then None else old(isEditingIcon)
      ensures items == old(items) && subscribed == old(subscribed)
    {
      ok := store.Update(id, map["iconName" := Str(name)]);
      if ok {
        isEditingIcon := None;
      }
    }

    /** A click on the icon of card `id`. */
    method ClickIcon(isAdmin: bool, id: DocId)
      modifies this
      ensures isEditingIcon == ClickedIcon(old(isEditingIcon), isAdmin, id)
      ensures items == old(items) && subscribed == old(subscribed)
    {
      if isAdmin {
        isEditingIcon := if isEditingIcon == Some(id) then None else Some(id);
      }
    }

    /** Whether card `id` shows its picker. */
    function PickerOpen(isAdmin: bool, id: DocId): (open: bool)
      reads this
      ensures open ==> isAdmin
      ensures open ==> forall other :: other != id ==> !PickerShown(isEditingIcon, isAdmin, other)
    {
      PickerShown(isEditingIcon, isAdmin, id)
    }
  }
}
