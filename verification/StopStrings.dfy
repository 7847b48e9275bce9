/** The stop-string machine of rust/minicpm-generation/src/stop.rs. */
module StopStrings {
  import opened Strings
  import Utf8

  /** `text` is all text fed while not stopped; `matched` the byte offset of the stop string. */
  datatype Stop = Stop(text: Str, matched: Option<nat>, stopped: bool)

  const Fresh := Stop([], None, false)

  ghost predicate Hit(text: Str, pats: seq<Str>, i: nat) {
    exists p :: p in pats && OccursAt(text, p, i)
  }

  /** Smallest offset at or after `from` where some stop string occurs. */
  function FirstMatch(text: Str, pats: seq<Str>, from: nat): (r: Option<nat>)
    ensures r.Some? ==> from <= r.value <= |text| && Hit(text, pats, r.value)
    ensures r.Some? ==> forall j :: from <= j < r.value ==> !Hit(text, pats, j)
    ensures r.None? ==> forall j :: from <= j ==> !Hit(text, pats, j)
  {
    if pats == [] then None
    else
      var rest := FirstMatch(text, pats[..|pats| - 1], from);
      var last := FindFrom(text, pats[|pats| - 1], from);
      assert pats == pats[..|pats| - 1] + [pats[|pats| - 1]];
      assert forall j :: Hit(text, pats, j) <==>
                         Hit(text, pats[..|pats| - 1], j) || OccursAt(text, pats[|pats| - 1], j);
      if last.Some? && (rest.None? || last.value < rest.value) then last else rest
  }

  lemma NoPatterns(text: Str, pats: seq<Str>, from: nat)
    requires pats == []
    ensures FirstMatch(text, pats, from) == None
  {
  }

  lemma OneMorePattern(text: Str, pats: seq<Str>, i: nat, from: nat)
    requires i < |pats|
    ensures
      var rest, last := FirstMatch(text, pats[..i], from), FindFrom(text, pats[i], from);
      FirstMatch(text, pats[..i + 1], from) == if last.Some?
          && (rest.None? || last.value < rest.value) then last else rest
  {
    hide FindFrom;
    assert pats[..i + 1][..i] == pats[..i];
  }

  /** The length of the longest stop string, 0 if there is none. */
  function MaxLen(pats: seq<Str>): (n: nat)
    ensures forall p :: p in pats ==> |p| <= n
    ensures n > 0 ==> exists p :: p in pats && |p| == n
  {
    if pats == [] then 0
    else
      var rest := MaxLen(pats[1..]);
      if |pats[0]| > rest then |pats[0]| else rest
  }

  function Minus(a: nat, b: nat): nat {
    if a >= b then a - b else 0
  }

  function PushText(s: Stop, pats: seq<Str>, fragment: Str): Stop {
    if s.stopped || fragment == [] then s
    else
      var text := s.text + fragment;
      var m := FirstMatch(text, pats, Minus(|s.text|, MaxLen(pats)));
      if m.Some? then Stop(text, m, true) else s.(text := text)
  }

  function PushAll(s: Stop, pats: seq<Str>, fragments: seq<Str>): Stop
    decreases |fragments|
  {
    if fragments == [] then s
    else PushText(PushAll(s, pats, fragments[..|fragments| - 1]), pats, fragments[|fragments| - 1])
  }

  /** Bytes that may be shown now. */
  function SafeLen(s: Stop, pats: seq<Str>): nat {
    match s.matched
    case Some(start) => start
    case None => FloorCharBoundary(s.text, Minus(|s.text|, Minus(MaxLen(pats), 1)))
  }

  /** The last character boundary at which none of the bytes held back could be missed:
      too few are left for a whole stop string. */
  ghost predicate LongestSafe(text: Str, pats: seq<Str>, n: nat) {
    && n <= |text| && IsCharBoundary(text, n)
    && (n > 0 ==> forall p :: p in pats ==> n + |p| <= |text| + 1)
    && forall j :: n < j <= |text| && IsCharBoundary(text, j) ==> exists p :: p in pats && j + |p| > |text| + 1
  }

  lemma SafeIsLongest(text: Str, pats: seq<Str>)
    ensures LongestSafe(text, pats, FloorCharBoundary(text, Minus(|text|, Minus(MaxLen(pats), 1))))
  {
  }

  function Finish(s: Stop, pats: seq<Str>): Stop {
    if s.matched.Some? then s
    else
      var m := FirstMatch(s.text, pats, 0);
      if m.Some? then s.(matched := m, stopped := true) else s
  }

  function FinalLen(s: Stop, pats: seq<Str>): nat {
    var f := Finish(s, pats);
    if f.matched.Some? then f.matched.value else |f.text|
  }

  /** Bytes visible to the client after streaming `fragments` and finishing. */
  function Cut(pats: seq<Str>, fragments: seq<Str>): nat {
    FinalLen(PushAll(Fresh, pats, fragments), pats)
  }

  /** The same for the whole text at once: everything before the first stop string. */
  function Visible(pats: seq<Str>, text: Str): nat {
    var m := FirstMatch(text, pats, 0);
    if m.Some? then m.value else |text|
  }

  // ---- the object ----

  datatype StopHit = TokenHit(id: int) | StringHit(start: nat)

  class StopState {
    const stopTokenIds: seq<int>
    const stopStrings: seq<Str>
    const maxPatternLen: nat
    var text: Str
    var matched: Option<nat>
    var stopped: bool

    ghost predicate Valid()
      reads this
    {
      maxPatternLen == MaxLen(stopStrings) && (matched.Some? ==> matched.value <= |text|)
    }

    ghost function View(): Stop
      reads this
    {
      Stop(text, matched, stopped)
    }

    constructor (ids: seq<int>, strings: seq<Str>)
      ensures Valid() && View() == Fresh && stopTokenIds == ids && stopStrings == strings
    {
      stopTokenIds, stopStrings := ids, strings;
      maxPatternLen := MaxLen(strings);
      text, matched, stopped := [], None, false;
    }

    method CheckToken(id: int) returns (hit: Option<StopHit>)
      requires Valid()
      modifies this`stopped
      ensures Valid()
      ensures hit == if old(stopped) || id in stopTokenIds then Some(TokenHit(id)) else None
      ensures stopped == (old(stopped) || id in stopTokenIds)
    {
      if stopped {
        return Some(TokenHit(id));
      }
      if id in stopTokenIds {
        stopped := true;
        return Some(TokenHit(id));
      }
      return None;
    }

    method FindMatch(from: nat) returns (best: Option<nat>)
      requires Valid() && from <= |text|
      ensures best == FirstMatch(text, stopStrings, from)
    {
      hide FindFrom, FirstMatch;
      best := None;
      NoPatterns(text, stopStrings[..0], from);
      for i := 0 to |stopStrings|
        invariant best == FirstMatch(text, stopStrings[..i], from)
      {
        var found := FindFrom(text, stopStrings[i], from);
        OneMorePattern(text, stopStrings, i, from);
        if found.Some? && (best.None? || found.value < best.value) {
          best := found;
        }
      }
      assert stopStrings[..|stopStrings|] == stopStrings;
    }

    method Push(fragment: Str) returns (hit: Option<StopHit>)
      requires Valid()
      modifies this
      ensures Valid() && View() == PushText(old(View()), stopStrings, fragment)
      ensures hit == if matched.Some? then Some(StringHit(matched.value)) else None
    {
      if !stopped && fragment != [] {
        var searchFrom := Minus(|text|, maxPatternLen);
        text := text + fragment;
        var start := FindMatch(searchFrom);
        if start.Some? {
          matched := start;
          stopped := true;
        }
      }
      hit := if matched.Some? then Some(StringHit(matched.value)) else None;
    }

    /** Up to the stop string once there is one; until then up to the last character
        boundary that leaves one byte less than the longest stop string behind it. */
    method SafeLength() returns (len: nat)
      requires Valid()
      ensures len == SafeLen(View(), stopStrings)
      ensures matched.Some? ==> len == matched.value
      ensures matched.None? ==> LongestSafe(text, stopStrings, len)
    {
      if matched.Some? {
        return matched.value;
      }
      var holdback := Minus(maxPatternLen, 1);
      len := Minus(|text|, holdback);
      ghost var from := len;
      SafeIsLongest(text, stopStrings);
      while !IsCharBoundary(text, len)
        invariant len <= from <= |text|
        invariant FloorCharBoundary(text, len) == FloorCharBoundary(text, from)
        decreases len
      {
        len := len - 1;
      }
    }

    method FinishText() returns (len: nat)
      requires Valid()
      modifies this`matched, this`stopped
      ensures Valid() && View() == Finish(old(View()), stopStrings)
      ensures len == FinalLen(old(View()), stopStrings)
    {
      if matched.Some? {
        return matched.value;
      }
      var start := FindMatch(0);
      if start.Some? {
        matched := start;
        stopped := true;
        return start.value;
      }
      len := |text|;
    }
  }

  // ---- the search window misses nothing ----

  /** What the machine knows after text `t`: nothing matched and no stop string is in
      `t`, or the match is the first one of some prefix of `t`. */
  ghost predicate Inv(s: Stop, pats: seq<Str>, t: Str) {
    match s.matched
    case None => !s.stopped && s.text == t && (t == [] || forall i: nat :: !Hit(t, pats, i))
    case Some(m) => s.stopped && s.text <= t && FirstMatch(s.text, pats, 0) == Some(m)
  }

  lemma HitExtends(t: Str, x: Str, pats: seq<Str>, i: nat)
    ensures Hit(t, pats, i) ==> Hit(t + x, pats, i)
  {
    if Hit(t, pats, i) {
      var p :| p in pats && OccursAt(t, p, i);
      assert (t + x)[i..i + |p|] == t[i..i + |p|];
    }
  }

  lemma OccursPrefix(t: Str, x: Str, p: Str, i: nat)
    requires i + |p| <= |t|
    ensures OccursAt(t + x, p, i) <==> OccursAt(t, p, i)
  {
    assert (t + x)[i..i + |p|] == t[i..i + |p|];
  }

  /** A stop string completed by `x` begins inside the last `MaxLen` bytes. */
  lemma NewHit(t: Str, x: Str, pats: seq<Str>, i: nat)
    requires Hit(t + x, pats, i) && !Hit(t, pats, i)
    ensures i + MaxLen(pats) > |t|
  {
    var p :| p in pats && OccursAt(t + x, p, i);
    assert !OccursAt(t, p, i);
    if i + |p| <= |t| {
      OccursPrefix(t, x, p, i);
    }
  }

  lemma FirstIs(text: Str, pats: seq<Str>, a: nat, b: nat)
    requires a <= b && forall i :: a <= i < b ==> !Hit(text, pats, i)
    ensures FirstMatch(text, pats, a) == FirstMatch(text, pats, b)
  {
  }

  lemma PushKeeps(s: Stop, pats: seq<Str>, t: Str, fragment: Str)
    requires Inv(s, pats, t)
    ensures Inv(PushText(s, pats, fragment), pats, t + fragment)
  {
    if !s.stopped && fragment != [] {
      var text, from := t + fragment, Minus(|t|, MaxLen(pats));
      forall i | 0 <= i < from ensures !Hit(text, pats, i) {
        if Hit(text, pats, i) {
          NewHit(t, fragment, pats, i);
        }
      }
      FirstIs(text, pats, 0, from);
    } else {
      assert fragment == [] ==> t + fragment == t;
    }
  }

  lemma {:induction false} PushAllKeeps(pats: seq<Str>, fragments: seq<Str>)
    ensures Inv(PushAll(Fresh, pats, fragments), pats, Concat(fragments))
    decreases |fragments|
  {
    if fragments != [] {
      var front, last := fragments[..|fragments| - 1], fragments[|fragments| - 1];
      PushAllKeeps(pats, front);
      assert fragments == front + [last];
      ConcatAppend(front, [last]);
      assert Concat([last]) == last + Concat([]) == last by {
        assert [last][1..] == [];
      }
      PushKeeps(PushAll(Fresh, pats, front), pats, Concat(front), last);
    }
  }

  /** The closing rescan finds nothing new (it can only find the empty stop string in the empty text). */
  lemma RescanChangesNothing(pats: seq<Str>, fragments: seq<Str>)
    ensures
      var s := PushAll(Fresh, pats, fragments);
      FinalLen(s, pats) == if s.matched.Some? then s.matched.value else |s.text|
  {
    PushAllKeeps(pats, fragments);
  }

  // ---- nothing of a stop string is ever shown ----

  /** A `str` never starts in the middle of a character. */
  ghost predicate StartsOnBoundary(fragment: Str) {
    fragment == [] || !IsContinuation(fragment[0])
  }

  lemma SafeStep(pats: seq<Str>, s: Stop, t: Str, fragment: Str)
    requires Inv(s, pats, t) && StartsOnBoundary(fragment)
    ensures SafeLen(s, pats) <= SafeLen(PushText(s, pats, fragment), pats)
  {
    hide FirstMatch;
    var u := PushText(s, pats, fragment);
    if !s.stopped && fragment != [] {
      var n := SafeLen(s, pats);
      if u.matched.Some? {
        if t != [] {
          NewHit(t, fragment, pats, u.matched.value);
        }
      } else {
        assert IsCharBoundary(u.text, n);
      }
    }
  }

  /** What may be shown only grows, and never past the final cut: no byte of the
      matched stop string, and no byte after it, is ever released. */
  lemma {:induction false} NothingLeaks(pats: seq<Str>, fragments: seq<Str>, i: nat, j: nat)
    requires i <= j <= |fragments|
    requires forall f :: f in fragments ==> StartsOnBoundary(f)
    ensures SafeLen(PushAll(Fresh, pats, fragments[..i]), pats) <= SafeLen(PushAll(Fresh, pats, fragments[..j]), pats)
    ensures SafeLen(PushAll(Fresh, pats, fragments[..j]), pats) <= Cut(pats, fragments)
    decreases |fragments| - i, |fragments| - j
  {
    hide FirstMatch, SafeLen;
    if i < j {
      SafeOne(pats, fragments, i);
      NothingLeaks(pats, fragments, i + 1, j);
    } else if j < |fragments| {
      SafeOne(pats, fragments, j);
      NothingLeaks(pats, fragments, j + 1, j + 1);
    } else {
      assert fragments[..j] == fragments;
      RescanChangesNothing(pats, fragments);
      SafeAtEnd(pats, PushAll(Fresh, pats, fragments));
    }
  }

  lemma SafeAtEnd(pats: seq<Str>, s: Stop)
    ensures SafeLen(s, pats) <= if s.matched.Some? then s.matched.value else |s.text|
  {
  }

  lemma SafeOne(pats: seq<Str>, fragments: seq<Str>, i: nat)
    requires i < |fragments| && StartsOnBoundary(fragments[i])
    ensures SafeLen(PushAll(Fresh, pats, fragments[..i]),
              pats) <= SafeLen(PushAll(Fresh, pats, fragments[..i + 1]), pats)
  {
    assert fragments[..i + 1][..i] == fragments[..i];
    PushAllKeeps(pats, fragments[..i]);
    SafeStep(pats, PushAll(Fresh, pats, fragments[..i]), Concat(fragments[..i]), fragments[i]);
  }

  // ---- when the cut does not depend on how the text was split ----

  /** In no proper prefix of a stop string does another stop string come first
      at a later offset. */
  ghost predicate Steady(pats: seq<Str>) {
    forall q, k: nat :: q in pats && k < |q| ==> !LateMatch(q[..k], pats)
  }

  ghost predicate LateMatch(t: Str, pats: seq<Str>) {
    var m := FirstMatch(t, pats, 0);
    m.Some? && m.value > 0
  }

  lemma SteadyMatch(pats: seq<Str>, t: Str, w: Str)
    requires Steady(pats) && t <= w && FirstMatch(t, pats, 0).Some?
    ensures FirstMatch(w, pats, 0) == FirstMatch(t, pats, 0)
  {
    hide FirstMatch, Hit, LateMatch;
    var m := FirstMatch(t, pats, 0).value;
    var x := w[|t|..];
    assert w == t + x;
    HitExtends(t, x, pats, m);
    var n := FirstMatch(w, pats, 0).value;
    if n < m {
      var q := CutPattern(pats, t, x, n);
      SteadyEarlier(pats, t, n, m);
    }
  }

  /** A stop string that starts in `t` and ends in `x` shows a proper prefix in `t`. */
  lemma CutPattern(pats: seq<Str>, t: Str, x: Str, n: nat) returns (q: Str)
    requires Hit(t + x, pats, n) && !Hit(t, pats, n) && n <= |t|
    ensures q in pats && |t| - n < |q| && q[..|t| - n] == t[n..]
  {
    q :| q in pats && OccursAt(t + x, q, n);
    assert !OccursAt(t, q, n);
    if n + |q| <= |t| {
      OccursPrefix(t, x, q, n);
    }
    var k := |t| - n;
    assert (t + x)[n..n + |q|][..k] == t[n..];
  }

  /** A match at `m` inside `t[n..]` that is not at its head contradicts steadiness there. */
  lemma SteadyEarlier(pats: seq<Str>, t: Str, n: nat, m: nat)
    requires n < m && FirstMatch(t, pats, 0) == Some(m)
    ensures LateMatch(t[n..], pats)
  {
    var u := t[n..];
    forall j: nat, p | p in pats
      ensures OccursAt(u, p, j) <==> OccursAt(t, p, n + j)
    {
      if j + |p| <= |u| {
        assert u[j..j + |p|] == t[n + j..n + j + |p|];
      }
    }
    var p :| p in pats && OccursAt(t, p, m);
    assert OccursAt(u, p, m - n);
    assert Hit(u, pats, m - n);
    assert !Hit(t, pats, n);
    forall r | r in pats ensures !OccursAt(u, r, 0) {
      assert OccursAt(u, r, 0) <==> OccursAt(t, r, n + 0);
    }
  }

  lemma SteadyCut(pats: seq<Str>, fragments: seq<Str>)
    requires Steady(pats)
    ensures Cut(pats, fragments) == Visible(pats, Concat(fragments))
  {
    PushAllKeeps(pats, fragments);
    var s, w := PushAll(Fresh, pats, fragments), Concat(fragments);
    if s.matched.Some? {
      SteadyMatch(pats, s.text, w);
    }
  }

  lemma UnsteadyCut(pats: seq<Str>, q: Str, k: nat)
    requires q in pats && k < |q| && LateMatch(q[..k], pats)
    ensures Cut(pats, [q[..k], q[k..]]) != Visible(pats, Concat([q[..k], q[k..]]))
  {
    var f, g := q[..k], q[k..];
    assert [f, g][1..] == [g] && [g][1..] == [];
    assert Concat([g]) == g + [] && f + g == q;
    assert Concat([f, g]) == q;
    assert q[0..0 + |q|] == q;
    assert OccursAt(q, q, 0);
    assert Hit(q, pats, 0);
    assert Visible(pats, q) == 0;
    assert [] + f == f;
    assert [f, g][..1] == [f] && [f][..0] == [];
    assert PushAll(Fresh, pats, []) == Fresh;
    var s := PushAll(Fresh, pats, [f]);
    assert s == PushText(Fresh, pats, f);
    assert s.matched == FirstMatch(f, pats, 0) && s.stopped;
    assert PushAll(Fresh, pats, [f, g]) == s;
  }

  /** A `str`: every lead byte is followed by the continuation bytes it announces. */
  ghost predicate WellFormed(s: Str)
    decreases |s|
  {
    || s == []
    || (var n := Utf8.Announced(s[0]);
        0 < n <= |s| && (forall i :: 1 <= i < n ==> IsContinuation(s[i])) && WellFormed(s[n..]))
  }

  lemma LeadByte(c: char)
    requires Utf8.Announced(c) > 0
    ensures !IsContinuation(c)
  {
  }

  lemma Head(s: Str)
    requires WellFormed(s) && s != []
    ensures !IsContinuation(s[0])
    ensures
      var n := Utf8.Announced(s[0]);
      0 < n <= |s| && (forall i :: 1 <= i < n ==> IsContinuation(s[i])) && WellFormed(s[n..])
  {
    LeadByte(s[0]);
  }

  lemma Shift(q: Str, n: nat, a: nat, b: nat)
    requires n <= a <= b <= |q|
    ensures q[n..][a - n..b - n] == q[a..b] && q[..b][n..] == q[n..][..b - n] && q[b..] == q[n..][b - n..]
  {
  }

  /** The first character of a `str` at position 0 of another is the other's first. */
  lemma SameHead(q: Str, p: Str)
    requires WellFormed(q) && WellFormed(p) && p != [] && OccursAt(q, p, 0)
    ensures
      var n := Utf8.Announced(q[0]);
      && 0 < n <= |p| && WellFormed(p[n..]) && OccursAt(q[n..], p[n..], 0)
  {
    Head(p);
    hide WellFormed, Utf8.Announced;
    assert q[..|p|] == p;
    assert q[0] == p[0];
    var n := Utf8.Announced(q[0]);
    Shift(q, n, n, |p|);
  }

  /** Where one `str` ends inside another, the other can be cut in two. */
  lemma {:induction false} CutsBehind(q: Str, p: Str, m: nat, e: nat)
    requires WellFormed(q) && WellFormed(p) && OccursAt(q, p, m) && (p == [] ==> m == 0) && e == m + |p|
    ensures WellFormed(q[..e]) && WellFormed(q[e..])
    decreases |q|
  {
    hide WellFormed, OccursAt;
    if p == [] {
      NoCut(q);
    } else {
      WithinBounds(q, p, m);
      Head(q);
      var n := Utf8.Announced(q[0]);
      if m == 0 {
        SameHead(q, p);
        CutsBehind(q[n..], p[n..], 0, e - n);
      } else {
        LaterHead(q, p, m, n);
        CutsBehind(q[n..], p, m - n, e - n);
      }
      Glued(q, n, e);
    }
  }

  lemma NoCut(q: Str)
    requires WellFormed(q)
    ensures WellFormed(q[..0]) && WellFormed(q[0..])
  {
    assert q[0..] == q;
  }

  lemma WithinBounds(q: Str, p: Str, m: nat)
    requires OccursAt(q, p, m)
    ensures m + |p| <= |q|
  {
  }

  lemma LaterHead(q: Str, p: Str, m: nat, n: nat)
    requires WellFormed(p) && p != [] && OccursAt(q, p, m) && m > 0 && n <= |q|
    requires forall i :: 1 <= i < n ==> IsContinuation(q[i])
    ensures n <= m && OccursAt(q[n..], p, m - n)
  {
    Head(p);
    hide WellFormed;
    assert q[m] == q[m..m + |p|][0] == p[0];
    Shift(q, n, m, m + |p|);
  }

  lemma Glued(q: Str, n: nat, e: nat)
    requires q != [] && n == Utf8.Announced(q[0]) && 0 < n <= e <= |q|
    requires forall i :: 1 <= i < n ==> IsContinuation(q[i])
    requires WellFormed(q[n..][..e - n]) && WellFormed(q[n..][e - n..])
    ensures WellFormed(q[..e]) && WellFormed(q[e..])
  {
    Shift(q, n, n, e);
    assert q[..e][0] == q[0];
  }

  lemma EmptyHits(t: Str, pats: seq<Str>)
    requires [] in pats
    ensures Hit(t, pats, 0)
  {
    var p: Str := [];
    assert p in pats && OccursAt(t, p, 0);
  }

  /** A late match in a prefix of a stop string is there right behind the matched one, and
      there the stop string can be cut. */
  lemma CutThere(pats: seq<Str>, q: Str, k: nat) returns (cut: nat)
    requires q in pats && k < |q| && LateMatch(q[..k], pats) && forall p :: p in pats ==> WellFormed(p)
    ensures cut < |q| && LateMatch(q[..cut], pats) && WellFormed(q[..cut]) && WellFormed(q[cut..])
  {
    hide FirstMatch, WellFormed;
    var t := q[..k];
    var m := FirstMatch(t, pats, 0).value;
    var p :| p in pats && OccursAt(t, p, m);
    if p == [] {
      EmptyHits(t, pats);
    }
    cut := m + |p|;
    var u := q[..cut];
    assert t == u + t[cut..];
    assert u[m..m + |p|] == t[m..m + |p|];
    assert OccursAt(u, p, m) && Hit(u, pats, m);
    forall i | 0 <= i < m ensures !Hit(u, pats, i) {
      HitExtends(u, t[cut..], pats, i);
    }
    assert q[m..m + |p|] == t[m..m + |p|];
    CutsBehind(q, p, m, cut);
  }

  /** Streaming cuts every text before its first stop string, however the text is
      split, if and only if the set of stop strings is steady; with stop strings and
      fragments that are `str`s as well. */
  lemma FragmentationExact(pats: seq<Str>)
    ensures Steady(pats) <==>
            forall fragments :: Cut(pats, fragments) == Visible(pats, Concat(fragments))
    ensures (forall p :: p in pats ==> WellFormed(p)) ==>
              (Steady(pats) <==>
               forall fragments | (forall f :: f in fragments ==> WellFormed(f)) ::
                 Cut(pats, fragments) == Visible(pats, Concat(fragments)))
  {
    hide Cut, Visible, LateMatch, WellFormed;
    if Steady(pats) {
      forall fragments ensures Cut(pats, fragments) == Visible(pats, Concat(fragments)) {
        SteadyCut(pats, fragments);
      }
    } else {
      var q, k: nat :| q in pats && k < |q| && LateMatch(q[..k], pats);
      UnsteadyCut(pats, q, k);
      if forall p :: p in pats ==> WellFormed(p) {
        var cut := CutThere(pats, q, k);
        UnsteadyCut(pats, q, cut);
        var pieces := [q[..cut], q[cut..]];
        assert forall f :: f in pieces ==> WellFormed(f);
      }
    }
  }

  /** No stop string lies strictly inside another: the usual way a set is steady. */
  ghost predicate InfixFree(pats: seq<Str>) {
    forall p, q, j: nat :: p in pats && q in pats && 0 < j && j + |p| < |q| ==> !OccursAt(q, p, j)
  }

  lemma InfixFreeIsSteady(pats: seq<Str>)
    requires InfixFree(pats)
    ensures Steady(pats)
  {
    forall q, k: nat | q in pats && k < |q|
      ensures !LateMatch(q[..k], pats)
    {
      assert q[..k] + q[k..] == q;
      forall p, m: nat | p in pats && m > 0 ensures !OccursAt(q[..k], p, m) {
        if m + |p| <= k {
          OccursPrefix(q[..k], q[k..], p, m);
        }
      }
    }
  }

  // ---- what is held back is little ----

  /** In whole UTF-8 text a character boundary is never more than three bytes away. */
  lemma {:induction false} BoundaryNear(text: Str, i: nat) returns (j: nat)
    requires WellFormed(text) && i <= |text|
    ensures j <= i <= j + 3 && IsCharBoundary(text, j)
    decreases |text|
  {
    j := 0;
    if i > 0 {
      Head(text);
      var n := Utf8.Announced(text[0]);
      if i >= n {
        j := BoundaryNear(text[n..], i - n);
        BoundaryBehind(text, n, j);
        j := n + j;
      }
    }
  }

  lemma BoundaryBehind(text: Str, n: nat, j: nat)
    requires n <= |text| && IsCharBoundary(text[n..], j) && WellFormed(text[n..])
    ensures IsCharBoundary(text, n + j)
  {
    if j == 0 && n < |text| {
      Head(text[n..]);
    }
  }

  /** Without a match, what may be shown of `text`, a part of whole UTF-8 text, falls short
      of it by less than the longest stop string and at most three bytes; without stop
      strings nothing is held back. */
  lemma LittleHeldBack(whole: Str, text: Str, pats: seq<Str>, n: nat, longest: nat)
    requires WellFormed(whole) && text <= whole && LongestSafe(text, pats, n)
    requires forall p :: p in pats ==> |p| <= longest
    ensures |text| <= n + (if longest == 0 then 0 else longest - 1 + 3)
  {
    if longest == 0 {
      assert IsCharBoundary(text, |text|);
    } else if |text| > longest - 1 {
      var i := |text| - (longest - 1);
      var j := BoundaryNear(whole, i);
      assert IsCharBoundary(text, j);
    }
  }
}
