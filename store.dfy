/** An abstract, in-memory Firestore carrying only the semantics the portfolio
    relies on: documents are flat maps from field names to values, `updateDoc`
    overwrites the fields it names, `setDoc(…, {merge: true})` overlays fields and
    keeps the rest (creating the document when it is missing), `addDoc` creates a
    document under a fresh id and `deleteDoc` removes one. Every operation is one
    atomic step. */
module Store {

  datatype Option<T> = None | Some(value: T)

  /** A field value as the site stores it: a string, a list of strings (tags,
      gallery URLs) or a number (the `createdAt` timestamp). */
  datatype Value = Str(s: string) | Strs(items: seq<string>) | Num(n: int)

  type Field = string
  type DocId = string
  type Doc = map<Field, Value>

  /** The stored fields of an optional document; a missing document has none. */
  function FieldsOf(stored: Option<Doc>): Doc
  {
    match stored
    case Some(d) => d
    case None => map[]
  }

  /** The effect of `updateDoc(ref, patch)` on an existing document: every
      field of the patch is overwritten, every other field is kept. */
  function Overlay(d: Doc, patch: Doc): (r: Doc)
    ensures r.Keys == d.Keys + patch.Keys
    ensures forall k :: k in patch ==> r[k] == patch[k]
    ensures forall k :: k in d && k !in patch ==> r[k] == d[k]
  {
    d + patch
  }

  /** A collection after `updateDoc(doc(collection, id), patch)`: only the
      document `id` changes, and only when it exists. */
  function Updated(docs: map<DocId, Doc>, id: DocId, patch: Doc): (r: map<DocId, Doc>)
    ensures r.Keys == docs.Keys
    ensures forall other :: other in docs && other != id ==> r[other] == docs[other]
    ensures id in docs ==> r[id] == Overlay(docs[id], patch)
  {
    if id in docs then docs[id := Overlay(docs[id], patch)] else docs
  }

  /** The effect of `setDoc(ref, fields, {merge: true})`: an upsert. The fields
      named are written, the stored fields not named are preserved, and a
      missing document is created with exactly the fields named. */
  function Merge(stored: Option<Doc>, fields: Doc): (r: Doc)
    ensures r.Keys == FieldsOf(stored).Keys + fields.Keys
    ensures forall k :: k in fields ==> r[k] == fields[k]
    ensures forall k :: k in FieldsOf(stored) && k !in fields ==> r[k] == FieldsOf(stored)[k]
  {
    Overlay(FieldsOf(stored), fields)
  }

  /** Writing the same fields twice with merge leaves the document as one
      write left it: the other stored fields are not disturbed. */
  lemma MergeIdempotent(stored: Option<Doc>, fields: Doc)
    ensures Merge(Some(Merge(stored, fields)), fields) == Merge(stored, fields)
  {
    var once := Merge(stored, fields);
    var twice := Merge(Some(once), fields);
    assert twice.Keys == once.Keys;
    assert forall k :: k in twice ==> twice[k] == once[k];
  }

  // ---------------------------------------------------------------------
  // Automatic document ids. Firestore invents a random 20-character id; the
  // model derives it from a counter instead, written in decimal, and proves
  // that an id it hands out is never one already in use.

  function DigitChar(d: nat): char
    requires d < 10
  {
    ('0' as int + d) as char
  }

  function Decimal(n: nat): (s: string)
    ensures |s| >= 1
    decreases n
  {
    if n < 10 then [DigitChar(n)] else Decimal(n / 10) + [DigitChar(n % 10)]
  }

  /** Distinct counters give distinct ids. */
  lemma {:induction false} DecimalInjective(a: nat, b: nat)
    requires a != b
    ensures Decimal(a) != Decimal(b)
    decreases a + b
  {
    if a < 10 && b < 10 {
      assert Decimal(a)[0] == DigitChar(a) && Decimal(b)[0] == DigitChar(b);
    } else if a < 10 || b < 10 {
      assert |Decimal(a)| != |Decimal(b)| by {
        if a >= 10 { assert |Decimal(a)| == |Decimal(a / 10)| + 1; }
        if b >= 10 { assert |Decimal(b)| == |Decimal(b / 10)| + 1; }
      }
    } else {
      var sa, sb := Decimal(a), Decimal(b);
      assert sa == Decimal(a / 10) + [DigitChar(a % 10)];
      assert sb == Decimal(b / 10) + [DigitChar(b % 10)];
      if a % 10 != b % 10 {
        assert sa[|sa| - 1] != sb[|sb| - 1];
      } else {
        DecimalInjective(a / 10, b / 10);
        assert sa[..|sa| - 1] == Decimal(a / 10);
        assert sb[..|sb| - 1] == Decimal(b / 10);
      }
    }
  }

  /** One Firestore collection: its documents by id. */
  class Collection {
    var docs: map<DocId, Doc>
    /** The counter from which the next automatic id is made. */
    var nextId: nat

    /** No id the counter has yet to hand out is in use. */
    ghost predicate Valid()
      reads this
    {
      forall k: nat :: nextId <= k ==> Decimal(k) !in docs
    }

    constructor ()
      ensures Valid() && docs == map[]
    {
      docs := map[];
      nextId := 0;
    }

    /** `addDoc(collection, fields)`: a new document under a fresh id; the
        existing documents are untouched. */
    method Add(fields: Doc) returns (id: DocId)
      requires Valid()
      modifies this
      ensures Valid()
      ensures id !in old(docs)
      ensures docs == old(docs)[id := fields]
    {
      id := Decimal(nextId);
      docs := docs[id := fields];
      nextId := nextId + 1;
      forall k: nat | nextId <= k
        ensures Decimal(k) !in docs
      {
        DecimalInjective(k, nextId - 1);
      }
    }

    /** `updateDoc(doc(collection, id), patch)`: rejects (ok is false) when the
        document does not exist, and then changes nothing. */
    method Update(id: DocId, patch: Doc) returns (ok: bool)
      requires Valid()
      modifies this
      ensures Valid()
      ensures ok <==> id in old(docs)
      ensures docs == Updated(old(docs), id, patch)
    {
      ok := id in docs;
      if ok {
        docs := docs[id := Overlay(docs[id], patch)];
      }
    }

    /** `deleteDoc(doc(collection, id))`: removes the document; deleting a
        missing document succeeds and changes nothing. */
    method Delete(id: DocId)
      requires Valid()
      modifies this
      ensures Valid()
      ensures docs == old(docs) - {id}
    {
      docs := docs - {id};
    }
  }

  /** One document at a fixed path (`content/hero`, `content/contact`); it may
      not exist yet. */
  class Document {
    var data: Option<Doc>

    constructor (initial: Option<Doc>)
      ensures data == initial
    {
      data := initial;
    }

    /** `setDoc(ref, fields, {merge: true})`. */
    method SetMerge(fields: Doc)
      modifies this
      ensures data == Some(Merge(old(data), fields))
    {
      data := Some(Merge(data, fields));
    }
  }
}
