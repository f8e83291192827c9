/** The contact footer (`Footer.tsx`), bound to the document `content/contact`. */
module Footer {
  import opened Store
  import opened ContentBinder

  /** `DEFAULT_DATA`: shown until the first snapshot of an existing document. */
  const DefaultData: Doc := map[
    "email" := Str("email@example.com"),
    "telegram" := Str("https://t.me/username"),
    "linkedin" := Str("https://linkedin.com/in/username"),
    "github" := Str("https://github.com/username"),
    "copyright" := Str("© 2026 Всі права захищено")
  ]

  class ContactFooter {
    /** The document `content/contact`. */
    const doc: Document
    var data: Doc
    /** Whether the `onSnapshot` subscription is live. */
    var subscribed: bool

    /** Mount: default content, subscribed. */
    constructor (doc: Document)
      ensures this.doc == doc && subscribed
      ensures data == DefaultData
    {
      this.doc := doc;
      data := DefaultData;
      subscribed := true;
    }

    /** A snapshot of `content/contact`; `None` when the document does not exist. */
    method OnSnapshot(snap: Option<Doc>)
      modifies this
      ensures data == if old(subscribed) then AfterSnapshot(old(data), snap) else old(data)
      ensures subscribed == old(subscribed)
    {
      if subscribed && snap.Some? {
        data := snap.value;
      }
    }

    /** `handleSave(key, value)`: the local record is updated before the
        write; then `setDoc(…, newData, {merge: true})`. `delivered` says
        whether the store accepted the write; a rejection is caught and
        logged, and the local value stays. */
    method Save(key: Field, value: string, delivered: bool) returns (logged: bool)
      modifies this, doc
      ensures data == WithField(old(data), key, value)
      ensures doc.data == if delivered then Some(Merge(old(doc.data), data)) else old(doc.data)
      ensures logged <==> !delivered
      ensures subscribed == old(subscribed)
    {
      var newData := data[key := Str(value)];
      data := newData;
      if delivered {
        doc.SetMerge(newData);
        logged := false;
      } else {
        logged := true;
      }
    }

    /** Unmount releases the subscription; the content stays as it was. */
    method Unmount()
      modifies this
      ensures !subscribed && data == old(data)
    {
      subscribed := false;
    }
  }
}
