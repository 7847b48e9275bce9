/** How a tag's name attribute is read: words between white space, either quote, escapes
    undone. */
module ToolCallTags {
  import opened Strings
  import opened ToolCall
  import opened ToolCallRoundTrip
  import opened Utf8Laws

  // ---- white space ----

  /** The code points with the property White_Space (PropList of the Unicode Character
      Database). */
  predicate White(c: nat) {
    || 9 <= c <= 13 || c == 32 || c == 0x85 || c == 0xA0 || c == 0x1680 || 0x2000 <= c <= 0x200A
    || c == 0x2028 || c == 0x2029 || c == 0x202F || c == 0x205F || c == 0x3000
  }

  /** The length is that of the white-space character at the head, if there is one. */
  lemma SpaceIsWhite(s: Str)
    ensures SpaceLen(s) > 0 <==> exists c :: Scalar(c) && White(c) && Encode(c) <= s
    ensures forall c :: Scalar(c) && White(c) && Encode(c) <= s ==> SpaceLen(s) == |Encode(c)|
  {
    if SpaceLen(s) > 0 {
      var c := WhiteAt(s);
      assert Scalar(c);
    }
    forall c | Scalar(c) && White(c) && Encode(c) <= s ensures SpaceLen(s) == |Encode(c)| {
      WhiteLen(s, c);
    }
  }

  lemma WhiteAt(s: Str) returns (c: nat)
    requires SpaceLen(s) > 0
    ensures Scalar(c) && White(c) && Encode(c) <= s
  {
    var b := if |s| > 1 then s[1] as int else 0;
    var d := if |s| > 2 then s[2] as int else 0;
    var a := s[0] as int;
    c := if a < 0x80 then a
         else if a == 0xC2 then b
         else if a == 0xE1 then 0x1680
         else if a == 0xE3 then 0x3000
         else if b == 0x81 then 0x205F
         else 0x2000 + d - 0x80;
    var e := Encode(c);
    assert |e| <= |s| && forall i :: 0 <= i < |e| ==> e[i] == s[i];
  }

  lemma WhiteLen(s: Str, c: nat)
    requires Scalar(c) && White(c) && Encode(c) <= s
    ensures SpaceLen(s) == |Encode(c)|
  {
    var e := Encode(c);
    assert forall i :: 0 <= i < |e| ==> s[i] == e[i];
    if 0x2000 <= c < 0x2040 {
      assert e[0] as int == 0xE2 && e[1] as int == 0x80 && e[2] as int == 0x80 + c % 64;
    }
  }

  /** Words, each behind a space. */
  function Spaced(words: seq<Str>): Str {
    if words == [] then [] else " " + (words[0] + Spaced(words[1..]))
  }

  ghost predicate Words(words: seq<Str>) {
    forall w :: w in words ==> w != [] && NoSpace(w)
  }

  lemma {:induction false} WordsRead(words: seq<Str>)
    requires Words(words)
    ensures SplitWhitespace(Spaced(words)) == words
  {
    if words != [] {
      hide SpaceLen, WordLen;
      var w, tail := words[0], Spaced(words[1..]);
      assert words == [w] + words[1..];
      WordsRead(words[1..]);
      LeadingSpace(" " + (w + tail));
      assert (" " + (w + tail))[1..] == w + tail;
      WordThen(w, tail);
      assert (w + tail)[|w|..] == tail && (w + tail)[..|w|] == w;
      assert w[0..] == w;
      SpaceBefore(w, tail);
    }
  }

  lemma {:induction false} WordThen(w: Str, tail: Str)
    requires NoSpace(w) && (tail == [] || tail[0] == ' ')
    ensures WordLen(w + tail) == |w|
    decreases |w|
  {
    if w == [] {
      assert w + tail == tail;
    } else {
      hide SpaceLen;
      forall i | 0 <= i <= |w| - 1 ensures SpaceLen(w[1..][i..]) == 0 {
        assert w[1..][i..] == w[i + 1..];
      }
      WordThen(w[1..], tail);
      assert (w + tail)[1..] == w[1..] + tail;
      assert w[0..] == w;
      SpaceBefore(w, tail);
    }
  }

  /** A space does not complete a character. */
  lemma SpaceBefore(w: Str, tail: Str)
    requires w != [] && SpaceLen(w) == 0 && (tail == [] || tail[0] == ' ')
    ensures SpaceLen(w + tail) == 0
  {
  }

  // ---- the name attribute ----

  ghost predicate NamePart(part: Str, v: Str, quote: char) {
    (quote == '\"' || quote == '\'') && part == "name=" + [quote] + v + [quote]
  }

  /** The first quoted name attribute is the one that counts. */
  lemma {:induction false} FirstName(parts: seq<Str>, i: nat, v: Str, quote: char)
    requires i < |parts| && NamePart(parts[i], v, quote)
    requires forall j, u, q :: 0 <= j < i ==> !NamePart(parts[j], u, q)
    ensures AttrIn(parts) == Some(DecodeAttr(v))
    decreases i
  {
    hide DecodeAttr;
    if i == 0 {
      var part := parts[0];
      assert |part| == 7 + |v| && part[6..|part| - 1] == v && part[5] == quote;
      if quote == '\"' {
        assert "name=\"" <= part;
      } else {
        assert "name='" <= part && part[5] != "name=\""[5];
      }
    } else {
      NotNamed(parts[0]);
      assert parts[1..][i - 1] == parts[i];
      FirstName(parts[1..], i - 1, v, quote);
    }
  }

  lemma NotNamed(part: Str)
    requires forall u, q :: !NamePart(part, u, q)
    ensures Unquote(part, "name=\"", '\"').None? && Unquote(part, "name='", '\'').None?
  {
    if |part| > 6 {
      var v := part[6..|part| - 1];
      if "name=\"" <= part && part[|part| - 1] == '\"' {
        assert part == "name=" + ['\"'] + v + ['\"'];
        assert NamePart(part, v, '\"');
        assert false;
      }
      if "name='" <= part && part[|part| - 1] == '\'' {
        assert part == "name=" + ['\''] + v + ['\''];
        assert NamePart(part, v, '\'');
        assert false;
      }
    }
  }

  lemma {:induction false} NoName(parts: seq<Str>)
    requires forall j, u, q :: 0 <= j < |parts| ==> !NamePart(parts[j], u, q)
    ensures AttrIn(parts) == None
  {
    hide DecodeAttr;
    if parts != [] {
      NotNamed(parts[0]);
      forall j, u, q | 0 <= j < |parts| - 1 ensures !NamePart(parts[1..][j], u, q) {
        assert parts[1..][j] == parts[j + 1];
      }
      NoName(parts[1..]);
    }
  }

  // ---- escapes ----

  function EscapeByte(c: char, lt: bool, gt: bool, quot: bool): (e: Str)
    ensures e != []
  {
    if c == '&' then "&amp;"
    else if c == '<' && lt then "&lt;"
    else if c == '>' && gt then "&gt;"
    else if c == '\"' && quot then "&quot;"
    else [c]
  }

  /** Which of '<', '>' and '"' are escaped beside '&'. */
  function EscapeSome(v: Str, lt: bool, gt: bool, quot: bool): Str {
    if v == [] then [] else EscapeByte(v[0], lt, gt, quot) + EscapeSome(v[1..], lt, gt, quot)
  }

  function Escape(v: Str): Str {
    EscapeSome(v, true, true, true)
  }

  lemma ReplaceStep(s: Str, pat: Str, sub: Str)
    requires s != [] && pat != [] && !(pat <= s)
    ensures Replace(s, pat, sub) == [s[0]] + Replace(s[1..], pat, sub)
  {
  }

  lemma ReplaceHit(s: Str, pat: Str, sub: Str)
    requires pat != []
    ensures Replace(pat + s, pat, sub) == sub + Replace(s, pat, sub)
  {
    assert (pat + s)[|pat|..] == s && pat <= pat + s;
  }

  /** No '&' in `t`, so nothing is found that begins there. */
  lemma {:induction false} ReplacePlain(t: Str, s: Str, pat: Str, sub: Str)
    requires pat != [] && pat[0] == '&' && '&' !in t
    ensures Replace(t + s, pat, sub) == t + Replace(s, pat, sub)
  {
    if t == [] {
      assert t + s == s;
    } else {
      ReplaceStep(t + s, pat, sub);
      assert (t + s)[1..] == t[1..] + s;
      ReplacePlain(t[1..], s, pat, sub);
    }
  }

  /** An escape other than `pat` stays as it is. */
  lemma ReplaceOther(e: Str, s: Str, pat: Str, sub: Str)
    requires |pat| >= 2 && pat[0] == '&' && |e| >= 2 && e[1] != pat[1] && '&' !in e[1..]
    ensures Replace(e + s, pat, sub) == e + Replace(s, pat, sub)
  {
    assert (e + s)[1] == e[1];
    ReplaceStep(e + s, pat, sub);
    assert (e + s)[1..] == e[1..] + s;
    ReplacePlain(e[1..], s, pat, sub);
    assert e == [e[0]] + e[1..];
  }

  lemma {:induction false} UndoLt(v: Str)
    ensures Replace(EscapeSome(v, true, true, true), "&lt;", "<") == EscapeSome(v, false, true, true)
  {
    if v != [] {
      hide Replace;
      UndoLt(v[1..]);
      var e, s := EscapeByte(v[0], true, true, true), EscapeSome(v[1..], true, true, true);
      if v[0] == '<' {
        ReplaceHit(s, "&lt;", "<");
      } else if |e| > 1 {
        ReplaceOther(e, s, "&lt;", "<");
      } else {
        ReplacePlain(e, s, "&lt;", "<");
      }
    } else {
      assert Replace([], "&lt;", "<") == [];
    }
  }

  lemma {:induction false} UndoGt(v: Str)
    ensures Replace(EscapeSome(v, false, true, true), "&gt;", ">") == EscapeSome(v, false, false, true)
  {
    if v != [] {
      hide Replace;
      UndoGt(v[1..]);
      var e, s := EscapeByte(v[0], false, true, true), EscapeSome(v[1..], false, true, true);
      if v[0] == '>' {
        ReplaceHit(s, "&gt;", ">");
      } else if |e| > 1 {
        ReplaceOther(e, s, "&gt;", ">");
      } else {
        ReplacePlain(e, s, "&gt;", ">");
      }
    } else {
      assert Replace([], "&gt;", ">") == [];
    }
  }

  lemma {:induction false} UndoQuot(v: Str)
    ensures Replace(EscapeSome(v, false, false, true), "&quot;", "\"") == EscapeSome(v, false, false, false)
  {
    if v != [] {
      hide Replace;
      UndoQuot(v[1..]);
      var e, s := EscapeByte(v[0], false, false, true), EscapeSome(v[1..], false, false, true);
      if v[0] == '\"' {
        ReplaceHit(s, "&quot;", "\"");
      } else if |e| > 1 {
        ReplaceOther(e, s, "&quot;", "\"");
      } else {
        ReplacePlain(e, s, "&quot;", "\"");
      }
    } else {
      assert Replace([], "&quot;", "\"") == [];
    }
  }

  lemma {:induction false} UndoAmp(v: Str)
    ensures Replace(EscapeSome(v, false, false, false), "&amp;", "&") == v
  {
    if v != [] {
      hide Replace;
      UndoAmp(v[1..]);
      var e, s := EscapeByte(v[0], false, false, false), EscapeSome(v[1..], false, false, false);
      if v[0] == '&' {
        ReplaceHit(s, "&amp;", "&");
      } else {
        ReplacePlain(e, s, "&amp;", "&");
      }
    } else {
      assert Replace([], "&amp;", "&") == [];
    }
  }

  /** The order of the replacements undoes the escapes, whatever the text. */
  lemma DecodeUndoes(v: Str)
    ensures DecodeAttr(Escape(v)) == v
  {
    hide Replace, EscapeSome;
    UndoLt(v);
    UndoGt(v);
    UndoQuot(v);
    UndoAmp(v);
  }

  // ---- a tag with its attributes ----

  lemma {:induction false} EscapeFacts(v: Str)
    ensures '>' !in Escape(v)
    ensures Escape(v) != [] && Escape(v)[0] as int >= 0x80 ==>
              v != [] && v[0] == Escape(v)[0] && Escape(v)[1..] == Escape(v[1..])
  {
    if v != [] {
      EscapeFacts(v[1..]);
    }
  }

  /** Escaping makes no white space. */
  lemma {:induction false} EscapeNoSpace(v: Str)
    requires NoSpace(v)
    ensures NoSpace(Escape(v))
  {
    if v != [] {
      var e, s := EscapeByte(v[0], true, true, true), Escape(v[1..]);
      hide SpaceLen, EscapeByte, EscapeSome;
      TailNoSpace(v);
      EscapeNoSpace(v[1..]);
      forall i | 0 <= i <= |e + s| ensures SpaceLen((e + s)[i..]) == 0 {
        if i >= |e| {
          assert (e + s)[i..] == s[i - |e|..];
          assert SpaceLen(s[i - |e|..]) == 0;
        } else {
          assert (e + s)[i..] == e[i..] + s;
          assert SpaceLen(v[0..]) == 0 && v[0..] == v;
          EscapeHead(v, i);
        }
      }
    }
  }

  lemma EscapeHead(v: Str, i: nat)
    requires v != [] && SpaceLen(v) == 0 && i < |EscapeByte(v[0], true, true, true)|
    ensures SpaceLen(EscapeByte(v[0], true, true, true)[i..] + Escape(v[1..])) == 0
  {
    var e, s := EscapeByte(v[0], true, true, true), Escape(v[1..]);
    if e == [v[0]] {
      EscapeFacts(v[1..]);
      if |v| > 1 {
        EscapeFacts(v[1..][1..]);
      }
      hide EscapeByte, EscapeSome;
      assert e[i..] + s == [v[0]] + s;
    } else {
      assert (e[i..] + s)[0] == e[i];
    }
  }

  lemma TailNoSpace(v: Str)
    requires NoSpace(v) && v != []
    ensures NoSpace(v[1..])
  {
    forall i | 0 <= i <= |v| - 1 ensures SpaceLen(v[1..][i..]) == 0 {
      assert v[1..][i..] == v[i + 1..];
    }
  }

  lemma NamePartNoSpace(v: Str, quote: char)
    requires NoSpace(v) && (quote == '\"' || quote == '\'')
    ensures NoSpace("name=" + [quote] + v + [quote])
  {
    var s := "name=" + [quote] + v + [quote];
    forall i | 0 <= i <= |s| ensures SpaceLen(s[i..]) == 0 {
      if i < 6 {
        assert s[i..][0] == ("name=" + [quote])[i];
      } else if i < 6 + |v| {
        assert s[i..] == v[i - 6..] + [quote];
        assert SpaceLen(v[i - 6..]) == 0;
      } else if i == 6 + |v| {
        assert s[i..] == [quote];
      } else {
        assert s[i..] == [];
      }
    }
  }

  lemma {:induction false} SpacedNoEnd(words: seq<Str>)
    requires forall w :: w in words ==> '>' !in w
    ensures '>' !in Spaced(words)
  {
    if words != [] {
      assert forall w :: w in words[1..] ==> w in words;
      assert words[0] in words;
      SpacedNoEnd(words[1..]);
    }
  }

  lemma TagBody(tag: Str, body: Str, rest: Str)
    requires '>' !in tag && '>' !in body
    ensures
      TagLead(tag + (body + (">" + rest)), tag)
      == match AttrIn(SplitWhitespace(body)) case Some(n) => Whole(n, rest) case None => Other
  {
    hide AttrIn, SplitWhitespace;
    var b := tag + (body + (">" + rest));
    FindCharIs(b, '>', |tag| + |body|);
    assert b[|tag|..|tag| + |body|] == body && b[|tag| + |body| + 1..] == rest;
  }

  /** Any name without white space, escaped, in either quote, among any other attributes,
      is read back; a tag without one is no opener. */
  lemma AnyTagRead(tag: Str, words: seq<Str>, i: nat, name: Str, quote: char, rest: Str)
    requires '>' !in tag && Words(words) && forall w :: w in words ==> '>' !in w
    requires i < |words| ==>
      NamePart(words[i], Escape(name), quote) && forall j, u, q :: 0 <= j < i ==> !NamePart(words[j], u, q)
    requires i >= |words| ==> forall j, u, q :: 0 <= j < |words| ==> !NamePart(words[j], u, q)
    ensures
      TagLead(tag + (Spaced(words) + (">" + rest)), tag) == if i < |words| then Whole(name, rest) else Other
  {
    hide AttrIn, SplitWhitespace, DecodeAttr, NamePart, Escape, Words, Spaced, TagLead;
    SpacedNoEnd(words);
    TagBody(tag, Spaced(words), rest);
    WordsRead(words);
    if i < |words| {
      FirstName(words, i, Escape(name), quote);
      DecodeUndoes(name);
    } else {
      NoName(words);
    }
  }

  /** The words a template may write: `name` itself is one of them. */
  lemma NameIsWord(name: Str, quote: char)
    requires NoSpace(name) && (quote == '\"' || quote == '\'')
    ensures
      var part := "name=" + [quote] + Escape(name) + [quote];
      NamePart(part, Escape(name), quote) && Words([part]) && '>' !in part
  {
    hide Escape;
    EscapeNoSpace(name);
    EscapeFacts(name);
    NamePartNoSpace(Escape(name), quote);
  }
}
