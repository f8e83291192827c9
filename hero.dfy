/** The hero section (`Hero.tsx`), bound to the document `content/hero`. */
module Hero {
  import opened Store
  import opened ContentBinder

  /** `DEFAULT_DATA`: shown until the first snapshot of an existing document. */
  const DefaultData: Doc := map[
    "title" := Str("Full-Stack Developer"),
    "subtitle" := Str("Створюю цифрові рішення"),
    "description" := Str("Я розробляю сучасні веб-додатки, фокусуючись на швидкості, дизайні та зручності користування."),
    "imageUrl" := Str("")
  ]

  class HeroSection {
    /** The document `content/hero`. */
    const doc: Document
    var data: Doc
    /** Whether the `onSnapshot` subscription is live. */
    var subscribed: bool

    /** Mount: default content, subscribed. */
    constructor (doc: Document)
      ensures this.doc == doc && subscribed
      ensures data == DefaultData && data["imageUrl"] == Str("")
    {
      this.doc := doc;
      data := DefaultData;
      subscribed := true;
    }

    /** A snapshot of `content/hero`; `None` when the document does not exist. */
    method OnSnapshot(snap: Option<Doc>)
      modifies this
      ensures data == if old(subscribed) then AfterSnapshot(old(data), snap) else old(data)
      ensures subscribed == old(subscribed)
    {
      if subscribed && snap.Some? {
        data := snap.value;
      }
    }

    /** `handleSave(key, value)`: the local record is updated before the
        write; then `setDoc(…, newData, {merge: true})`. `delivered` says
        whether the store accepted the write; a rejection is not caught here
        and nothing undoes the local change. */
    method Save(key: Field, value: string, delivered: bool)
      modifies this, doc
      ensures data == WithField(old(data), key, value)
      ensures doc.data == if delivered then Some(Merge(old(doc.data), data)) else old(doc.data)
      ensures subscribed == old(subscribed)
    {
      var newData := data[key := Str(value)];
      data := newData;
      if delivered {
        doc.SetMerge(newData);
      }
    }

    /** Unmount releases the subscription; the content stays as it was. */
    method Unmount()
      modifies this
      ensures !subscribed && data == old(data)
    {
      subscribed := false;
    }
  }
}
