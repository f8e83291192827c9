/** The edit-in-place primitive (`EditableText.tsx`). It keeps one text
    buffer, initialised from the `initialValue` prop and overwritten whenever
    that prop changes; keystrokes edit only the buffer, and losing focus hands
    the buffer, verbatim, to `onSave`. The edit-mode flag `isEditing` is a prop
    of every render, so it is an input of each step here. */
module EditableText {
  import opened Store

  /** What a render produces: static text, a single-line input or a textarea,
      each showing the buffer. */
  datatype Control = Span(text: string) | Input(text: string) | TextArea(text: string)

  /** The render: outside edit mode a span; in edit mode a textarea when
      `multiline` is set and an input otherwise. */
  function Render(buffer: string, isEditing: bool, multiline: bool): (c: Control)
    ensures c.text == buffer
    ensures c.Span? <==> !isEditing
    ensures c.TextArea? <==> isEditing && multiline
    ensures c.Input? <==> isEditing && !multiline
  {
    if !isEditing then Span(buffer)
    else if multiline then TextArea(buffer)
    else Input(buffer)
  }

  /** Only the input and the textarea have change and blur handlers. */
  predicate Interactive(c: Control)
  {
    c.Input? || c.TextArea?
  }

  lemma InteractiveOnlyWhenEditing(buffer: string, isEditing: bool, multiline: bool)
    ensures Interactive(Render(buffer, isEditing, multiline)) <==> isEditing
  {
  }

  // ---------------------------------------------------------------------
  // The editor's state and the effect of each event on it

  /** The buffer and the prop value the resync effect last saw. */
  datatype EditorState = EditorState(value: string, initialValue: string)

  function Mounted(initialValue: string): EditorState
  {
    EditorState(initialValue, initialValue)
  }

  /** A render with prop `newValue`: the effect runs only when the prop changed. */
  function ReceivePropsOf(s: EditorState, newValue: string): EditorState
  {
    EditorState(if newValue != s.initialValue then newValue else s.value, newValue)
  }

  function ChangeOf(s: EditorState, isEditing: bool, text: string): EditorState
  {
    if isEditing then s.(value := text) else s
  }

  /** What focus loss hands to `onSave`, if anything. */
  function BlurOf(s: EditorState, isEditing: bool): Option<string>
  {
    if isEditing then Some(s.value) else None
  }

  /** The buffer starts as the prop, and committing straight away saves it. */
  lemma MountedCommitsProp(initialValue: string)
    ensures BlurOf(Mounted(initialValue), true) == Some(initialValue)
  {
  }

  /** In edit mode, what was typed last is what focus loss saves, verbatim. */
  lemma CommitSavesTyped(s: EditorState, first: string, last: string)
    ensures BlurOf(ChangeOf(ChangeOf(s, true, first), true, last), true) == Some(last)
  {
  }

  /** A prop that changes before focus loss discards what was typed: the
      new prop value is saved instead. A render with the same prop keeps it. */
  lemma PropChangeDiscardsTyping(s: EditorState, typed: string, newValue: string)
    ensures newValue != s.initialValue ==>
              BlurOf(ReceivePropsOf(ChangeOf(s, true, typed), newValue), true) == Some(newValue)
    ensures BlurOf(ReceivePropsOf(ChangeOf(s, true, typed), s.initialValue), true) == Some(typed)
  {
  }

  /** The save after a committed edit echoes back through the prop: the
      buffer then holds what was saved, whatever it held before. */
  lemma SavedValueEchoes(s: EditorState, typed: string)
    requires typed != s.initialValue
    ensures ReceivePropsOf(ChangeOf(s, true, typed), typed).value == typed
    ensures ReceivePropsOf(ChangeOf(s, true, typed), typed).initialValue == typed
  {
  }

  /** A run of keystrokes. */
  function TypeAll(s: EditorState, isEditing: bool, texts: seq<string>): EditorState
    decreases |texts|
  {
    if texts == [] then s else TypeAll(ChangeOf(s, isEditing, texts[0]), isEditing, texts[1..])
  }

  /** Outside edit mode no sequence of keystrokes and focus losses saves
      anything or changes the buffer. */
  lemma {:induction false} VisitorNeverSaves(s: EditorState, texts: seq<string>)
    ensures BlurOf(s, false) == None
    ensures TypeAll(s, false, texts) == s
    decreases |texts|
  {
    if texts != [] {
      VisitorNeverSaves(ChangeOf(s, false, texts[0]), texts[1..]);
    }
  }

  /** In edit mode a run of keystrokes leaves the last one in the buffer and
      the prop untouched. */
  lemma {:induction false} TypeAllKeepsLast(s: EditorState, texts: seq<string>)
    requires texts != []
    ensures TypeAll(s, true, texts) == EditorState(texts[|texts| - 1], s.initialValue)
    decreases |texts|
  {
    if |texts| > 1 {
      TypeAllKeepsLast(ChangeOf(s, true, texts[0]), texts[1..]);
    }
  }

  class TextEditor {
    /** The buffer (`value`). */
    var value: string
    /** The `initialValue` prop as the resync effect last saw it. */
    var initialValue: string
    const multiline: bool

    function State(): EditorState
      reads this
    {
      EditorState(value, initialValue)
    }

    constructor (initialValue: string, multiline: bool)
      ensures State() == Mounted(initialValue)
      ensures value == initialValue && this.multiline == multiline
    {
      value := initialValue;
      this.initialValue := initialValue;
      this.multiline := multiline;
    }

    /** A render with prop `newValue`. When the prop changed, the effect
        `setValue(initialValue)` overwrites the buffer, whatever was typed;
        when it did not, the effect does not run and the buffer is kept. */
    method ReceiveProps(newValue: string)
      modifies this
      ensures State() == ReceivePropsOf(old(State()), newValue)
      ensures value == if newValue != old(initialValue) then newValue else old(value)
    {
      if newValue != initialValue {
        value := newValue;
      }
      initialValue := newValue;
    }

    /** A keystroke (`onChange`): only the buffer changes, and nothing is
        saved. Without edit mode there is no control to type into. */
    method Change(isEditing: bool, text: string)
      modifies this
      ensures State() == ChangeOf(old(State()), isEditing, text)
      ensures value == if isEditing then text else old(value)
    {
      if isEditing {
        value := text;
      }
    }

    /** Focus loss (`onBlur`): in edit mode `onSave` is called once with the
        buffer as it is, without trimming or validation; outside edit mode
        there is no control and nothing is saved. */
    method Blur(isEditing: bool) returns (saved: Option<string>)
      ensures saved == BlurOf(State(), isEditing)
      ensures saved == if isEditing then Some(value) else None
    {
      if isEditing {
        saved := Some(value);
      } else {
        saved := None;
      }
    }

    function View(isEditing: bool): (c: Control)
      reads this
      ensures c.text == value
      ensures Interactive(c) <==> isEditing
    {
      Render(value, isEditing, multiline)
    }
  }
}
