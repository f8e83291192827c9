/** How a project card edits its tags: the list is shown as `tags.join(", ")`
    and a committed text is saved as `text.split(",").map(t => t.trim())`.
    `Split`, `Trim` and `Join` follow JavaScript's `String.prototype.split`
    (with a one-character separator), `String.prototype.trim` and
    `Array.prototype.join`. */
module Tags {

  /** The characters JavaScript's `trim` removes: the WhiteSpace and
      LineTerminator code points of ECMAScript (every Zs space separator
      included). */
  predicate IsJsWhitespace(c: char)
  {
    || c == '\t' || c == '\n' || c == '\U{000B}' || c == '\U{000C}' || c == '\r'
    || c == ' ' || c == '\U{00A0}' || c == '\U{1680}'
    || ('\U{2000}' <= c <= '\U{200A}')
    || c == '\U{2028}' || c == '\U{2029}' || c == '\U{202F}' || c == '\U{205F}'
    || c == '\U{3000}' || c == '\U{FEFF}'
  }

  function CommaCount(s: string): nat
  {
    if s == [] then 0 else (if s[0] == ',' then 1 else 0) + CommaCount(s[1..])
  }

  /** `s.split(",")`: the pieces between commas, in order; never empty. */
  function Split(s: string): (pieces: seq<string>)
    ensures |pieces| >= 1
  {
    if s == [] then [""]
    else if s[0] == ',' then [""] + Split(s[1..])
    else
      var rest := Split(s[1..]);
      [[s[0]] + rest[0]] + rest[1..]
  }

  function TrimStart(s: string): (r: string)
    ensures |r| <= |s| && r == s[|s| - |r|..]
    ensures r == [] || !IsJsWhitespace(r[0])
    ensures forall i :: 0 <= i < |s| - |r| ==> IsJsWhitespace(s[i])
  {
    if s != [] && IsJsWhitespace(s[0]) then TrimStart(s[1..]) else s
  }

  function TrimEnd(s: string): (r: string)
    ensures |r| <= |s| && r == s[..|r|]
    ensures r == [] || !IsJsWhitespace(r[|r| - 1])
    ensures forall i :: |r| <= i < |s| ==> IsJsWhitespace(s[i])
  {
    if s != [] && IsJsWhitespace(s[|s| - 1]) then TrimEnd(s[..|s| - 1]) else s
  }

  /** The length of the leading whitespace of `s`. */
  function Leading(s: string): (n: nat)
    ensures n <= |s|
  {
    |s| - |TrimStart(s)|
  }

  /** `s.trim()`: what lies between the leading and the trailing whitespace. */
  function Trim(s: string): (r: string)
    ensures Trimmed(r)
    ensures Leading(s) + |r| <= |s| && r == s[Leading(s)..Leading(s) + |r|]
    ensures forall i :: 0 <= i < Leading(s) ==> IsJsWhitespace(s[i])
    ensures forall i :: Leading(s) + |r| <= i < |s| ==> IsJsWhitespace(s[i])
  {
    var t := TrimStart(s);
    var r := TrimEnd(t);
    assert r != [] ==> r[0] == t[0];
    assert forall i :: Leading(s) + |r| <= i < |s| ==> s[i] == t[i - Leading(s)];
    r
  }

  /** No whitespace at either end. */
  predicate Trimmed(t: string)
  {
    t == [] || (!IsJsWhitespace(t[0]) && !IsJsWhitespace(t[|t| - 1]))
  }

  /** `tags.join(sep)`: every character comes from a tag or a separator. */
  function Join(tags: seq<string>, sep: string): (r: string)
    ensures forall c :: c in r ==> c in sep || exists i :: 0 <= i < |tags| && c in tags[i]
  {
    if |tags| == 0 then ""
    else if |tags| == 1 then tags[0]
    else tags[0] + sep + Join(tags[1..], sep)
  }

  /** What saving the text `s` stores as the project's tags: never an empty
      list, even for an empty text. */
  function ParseTags(s: string): (tags: seq<string>)
    ensures |tags| >= 1
  {
    var pieces := Split(s);
    seq(|pieces|, i requires 0 <= i < |pieces| => Trim(pieces[i]))
  }

  /** The tags shown in the editor for a list of tags: besides the tags'
      own characters only commas and blanks. */
  function ShowTags(tags: seq<string>): (shown: string)
    ensures forall c :: c in shown && c != ',' && c != ' ' ==> exists i :: 0 <= i < |tags| && c in tags[i]
  {
    Join(tags, ", ")
  }

  // ---------------------------------------------------------------------
  // Split

  lemma {:induction false} SplitCount(s: string)
    ensures |Split(s)| == CommaCount(s) + 1
  {
    if s != [] { SplitCount(s[1..]); }
  }

  lemma {:induction false} SplitNoComma(s: string)
    ensures forall i :: 0 <= i < |Split(s)| ==> ',' !in Split(s)[i]
  {
    if s != [] {
      SplitNoComma(s[1..]);
      if s[0] != ',' {
        var rest := Split(s[1..]);
        assert ',' !in rest[0];
        assert ',' !in [s[0]] + rest[0];
      }
    }
  }

  /** Concatenating the pieces with commas between them gives `s` back. */
  lemma {:induction false} SplitJoin(s: string)
    ensures Join(Split(s), ",") == s
  {
    if s != [] {
      var rest := Split(s[1..]);
      SplitJoin(s[1..]);
      if s[0] == ',' {
        assert Split(s) == [""] + rest;
        assert (Split(s))[1..] == rest;
      } else {
        var head := [s[0]] + rest[0];
        assert Split(s) == [head] + rest[1..];
        if |rest| == 1 {
          assert Join(Split(s), ",") == head;
          assert [s[0]] + Join(rest, ",") == s;
        } else {
          assert Split(s)[1..] == rest[1..];
          assert Join(rest, ",") == rest[0] + "," + Join(rest[1..], ",");
          assert Join(Split(s), ",") == head + "," + Join(rest[1..], ",");
          assert [s[0]] + Join(rest, ",") == s;
        }
      }
    }
  }

  /** A comma-free string is one piece. */
  lemma {:induction false} SplitCommaFree(a: string)
    requires ',' !in a
    ensures Split(a) == [a]
  {
    if a != [] {
      SplitCommaFree(a[1..]);
      assert [a[0]] + a[1..] == a;
    }
  }

  /** The first comma ends the first piece. */
  lemma {:induction false} SplitAtComma(a: string, b: string)
    requires ',' !in a
    ensures Split(a + [','] + b) == [a] + Split(b)
  {
    if a == [] {
      assert a + [','] + b == [','] + b;
      assert ([','] + b)[1..] == b;
    } else {
      var s := a + [','] + b;
      assert s[0] == a[0] && s[1..] == a[1..] + [','] + b;
      SplitAtComma(a[1..], b);
      assert [a[0]] + a[1..] == a;
    }
  }

  /** A character other than a comma joins the first piece. */
  lemma SplitCons(c: char, s: string)
    requires c != ','
    ensures Split([c] + s) == [[c] + Split(s)[0]] + Split(s)[1..]
  {
    assert ([c] + s)[0] == c && ([c] + s)[1..] == s;
  }

  // ---------------------------------------------------------------------
  // Trim

  lemma TrimIsTrimmed(s: string)
    ensures Trimmed(Trim(s))
  {
    var t := TrimStart(s);
    var r := TrimEnd(t);
    assert r != [] ==> r[0] == t[0];
  }

  /** A string is left as it is by `trim` exactly when it is trimmed. */
  lemma TrimFixpoint(t: string)
    ensures Trim(t) == t <==> Trimmed(t)
  {
    TrimIsTrimmed(t);
    if Trimmed(t) {
      assert TrimStart(t) == t;
      assert TrimEnd(t) == t;
    }
  }

  /** `trim` removes no comma and adds none. */
  lemma TrimKeepsCommaFree(s: string)
    requires ',' !in s
    ensures ',' !in Trim(s)
  {
    var t := TrimStart(s);
    assert forall i :: 0 <= i < |t| ==> t[i] == s[|s| - |t| + i];
    var r := TrimEnd(t);
    assert forall i :: 0 <= i < |r| ==> r[i] == t[i];
  }

  /** The blank that `join(", ")` puts after each comma is trimmed away. */
  lemma TrimAfterBlank(t: string)
    requires Trimmed(t)
    ensures Trim(" " + t) == t
  {
    assert (" " + t)[1..] == t;
    assert TrimStart(" " + t) == TrimStart(t) == t;
    assert TrimEnd(t) == t;
  }

  // ---------------------------------------------------------------------
  // What a save stores

  /** One tag per piece: the number of tags is the number of commas plus one. */
  lemma ParseTagsCount(s: string)
    ensures |ParseTags(s)| == CommaCount(s) + 1
  {
    SplitCount(s);
  }

  /** No saved tag holds a comma or has whitespace at either end. */
  lemma ParseTagsClean(s: string)
    ensures forall i :: 0 <= i < |ParseTags(s)| ==> ',' !in ParseTags(s)[i] && Trimmed(ParseTags(s)[i])
  {
    var pieces := Split(s);
    SplitNoComma(s);
    forall i | 0 <= i < |pieces|
      ensures ',' !in Trim(pieces[i]) && Trimmed(Trim(pieces[i]))
    {
      TrimKeepsCommaFree(pieces[i]);
      TrimIsTrimmed(pieces[i]);
    }
  }

  /** Each saved tag is the trimmed text between two commas of the input. */
  lemma ParseTagsPieces(s: string)
    ensures Join(Split(s), ",") == s
    ensures |ParseTags(s)| == |Split(s)|
    ensures forall i :: 0 <= i < |Split(s)| ==> ParseTags(s)[i] == Trim(Split(s)[i])
  {
    SplitJoin(s);
  }

  /** The pieces of the text shown for a list of comma-free tags: the first
      tag, then each later tag behind the blank of the separator. */
  lemma {:induction false} SplitShown(tags: seq<string>)
    requires |tags| >= 1
    requires forall i :: 0 <= i < |tags| ==> ',' !in tags[i]
    ensures |Split(ShowTags(tags))| == |tags|
    ensures Split(ShowTags(tags))[0] == tags[0]
    ensures forall i :: 1 <= i < |tags| ==> Split(ShowTags(tags))[i] == " " + tags[i]
  {
    if |tags| == 1 {
      SplitCommaFree(tags[0]);
    } else {
      var rest := tags[1..];
      var j := ShowTags(rest);
      assert ShowTags(tags) == tags[0] + [','] + ([' '] + j);
      SplitAtComma(tags[0], [' '] + j);
      SplitCons(' ', j);
      SplitShown(rest);
      var r := Split(j);
      var p := Split(ShowTags(tags));
      assert p == [tags[0]] + ([[' '] + r[0]] + r[1..]);
      forall i | 1 <= i < |tags|
        ensures p[i] == " " + tags[i]
      {
        if i > 1 { assert p[i] == r[i - 1] && rest[i - 1] == tags[i]; }
      }
    }
  }

  /** The shown text of comma-free tags has one comma fewer than tags, so
      saving it back gives one tag per shown tag. */
  lemma ShownCommaCount(tags: seq<string>)
    requires |tags| >= 1
    requires forall i :: 0 <= i < |tags| ==> ',' !in tags[i]
    ensures CommaCount(ShowTags(tags)) == |tags| - 1
    ensures |ParseTags(ShowTags(tags))| == |tags|
  {
    SplitShown(tags);
    SplitCount(ShowTags(tags));
  }

  /** Re-saving the shown text of a non-empty list of comma-free, trimmed
      tags stores the same list. */
  lemma ShowParseRoundTrip(tags: seq<string>)
    requires |tags| >= 1
    requires forall i :: 0 <= i < |tags| ==> ',' !in tags[i] && Trimmed(tags[i])
    ensures ParseTags(ShowTags(tags)) == tags
  {
    var shown := ShowTags(tags);
    SplitShown(tags);
    var pieces := Split(shown);
    var parsed := ParseTags(shown);
    assert |parsed| == |pieces| == |tags|;
    forall i | 0 <= i < |tags|
      ensures parsed[i] == tags[i]
    {
      assert parsed[i] == Trim(pieces[i]);
      if i == 0 {
        TrimFixpoint(tags[0]);
      } else {
        assert pieces[i] == " " + tags[i];
        TrimAfterBlank(tags[i]);
      }
    }
  }

  /** Normalisation is idempotent: whatever was typed, committing the text
      that is shown afterwards stores the same tags again. */
  lemma ParseShowParse(s: string)
    ensures ParseTags(ShowTags(ParseTags(s))) == ParseTags(s)
  {
    ParseTagsClean(s);
    ShowParseRoundTrip(ParseTags(s));
  }

  /** The empty list is the one list the editor cannot keep: it is shown as
      "" and saved back as one empty tag. */
  lemma EmptyListBecomesOneTag()
    ensures ParseTags(ShowTags([])) == [""]
  {
    assert Split("") == [""];
  }
}
