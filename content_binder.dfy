/** The pattern the single-document sections (hero, contact footer) share:
    start from default content, replace the local record wholesale with every
    snapshot of the document that exists, and save a field by overwriting it
    locally first and then writing the WHOLE new local record with merge. */
module ContentBinder {
  import opened Store

  /** `{ ...data, [key]: value }`. */
  function WithField(data: Doc, key: Field, value: string): (r: Doc)
    ensures r.Keys == data.Keys + {key}
    ensures r[key] == Str(value)
    ensures forall k :: k in data && k != key ==> r[k] == data[k]
  {
    data[key := Str(value)]
  }

  /** The local record after a snapshot: a document that exists replaces it,
      a missing one leaves it as it was. */
  function AfterSnapshot(data: Doc, snap: Option<Doc>): (r: Doc)
    ensures snap.Some? ==> r == snap.value
    ensures snap.None? ==> r == data
  {
    match snap
    case Some(d) => d
    case None => data
  }

  /** After a save reaches the store, the stored document holds the edited
      field, agrees with the local record on every field that record has,
      and keeps the stored fields the local record does not name. */
  lemma SaveStoresLocalRecord(data: Doc, stored: Option<Doc>, key: Field, value: string)
    ensures Merge(stored, WithField(data, key, value))[key] == Str(value)
    ensures forall k :: k in data ==> k in Merge(stored, WithField(data, key, value))
    ensures forall k :: k in data && k != key ==> Merge(stored, WithField(data, key, value))[k] == data[k]
    ensures forall k :: k in FieldsOf(stored) && k !in data && k != key ==>
              Merge(stored, WithField(data, key, value))[k] == FieldsOf(stored)[k]
  {
  }

  /** Because the whole local record is written, a field that changed in the
      store since the last snapshot reached this client goes back to the
      stale local value; a write of the edited field alone would have kept it. */
  lemma StaleFieldReverted(data: Doc, stored: Doc, key: Field, value: string, other: Field)
    requires other in data && other in stored && other != key
    requires stored[other] != data[other]
    ensures Merge(Some(stored), WithField(data, key, value))[other] == data[other]
    ensures Merge(Some(stored), WithField(data, key, value))[other] != stored[other]
    ensures Overlay(stored, map[key := Str(value)])[other] == stored[other]
  {
  }
}
