/** Byte strings. Each `char` stands for one byte of UTF-8 text, so that byte
    offsets in the modelled code are plain sequence offsets. */
module Strings {

  type Str = seq<char>

  datatype Option<+T> = None | Some(value: T)

  /** Index of the first `c` in `s`, or `|s|` when there is none. */
  function FindChar(s: Str, c: char): (i: nat)
    ensures i <= |s|
    ensures i < |s| ==> s[i] == c
    ensures forall j :: 0 <= j < i ==> s[j] != c
  {
    if s == [] || s[0] == c then 0 else 1 + FindChar(s[1..], c)
  }

  predicate OccursAt(s: Str, pat: Str, i: nat) {
    i + |pat| <= |s| && s[i..i + |pat|] == pat
  }

  /** Offset of the first occurrence of `pat` in `s` at or after `from`. */
  function FindFrom(s: Str, pat: Str, from: nat): (r: Option<nat>)
    ensures r.Some? ==> from <= r.value && OccursAt(s, pat, r.value)
    ensures r.Some? ==> forall j :: from <= j < r.value ==> !OccursAt(s, pat, j)
    ensures r.None? ==> forall j :: from <= j ==> !OccursAt(s, pat, j)
    decreases |s| - from
  {
    if from + |pat| > |s| then None
    else if OccursAt(s, pat, from) then Some(from)
    else FindFrom(s, pat, from + 1)
  }

  function Find(s: Str, pat: Str): (r: Option<nat>)
    ensures r.Some? ==> OccursAt(s, pat, r.value)
    ensures r.Some? ==> forall j :: 0 <= j < r.value ==> !OccursAt(s, pat, j)
    ensures r.None? ==> forall j :: 0 <= j ==> !OccursAt(s, pat, j)
  {
    FindFrom(s, pat, 0)
  }

  function Concat(parts: seq<Str>): Str {
    if parts == [] then [] else parts[0] + Concat(parts[1..])
  }

  /** Bytes 0x80..0xBF continue a UTF-8 sequence. */
  predicate IsContinuation(c: char) {
    0x80 <= c as int < 0xC0
  }

  predicate IsCharBoundary(s: Str, i: nat) {
    i == 0 || i == |s| || (i < |s| && !IsContinuation(s[i]))
  }

  /** Largest char boundary at or below `i`. */
  function FloorCharBoundary(s: Str, i: nat): (r: nat)
    requires i <= |s|
    ensures r <= i && IsCharBoundary(s, r)
    ensures forall j :: r < j <= i ==> !IsCharBoundary(s, j)
  {
    if IsCharBoundary(s, i) then i else FloorCharBoundary(s, i - 1)
  }

  lemma FindCharIs(s: Str, c: char, i: nat)
    requires i <= |s|
    requires i < |s| ==> s[i] == c
    requires forall j :: 0 <= j < i ==> s[j] != c
    ensures FindChar(s, c) == i
  {
  }

  lemma FindIs(s: Str, pat: Str, i: nat)
    requires OccursAt(s, pat, i)
    requires forall j :: 0 <= j < i ==> !OccursAt(s, pat, j)
    ensures Find(s, pat) == Some(i)
  {
  }

  lemma {:induction false} ConcatAppend(a: seq<Str>, b: seq<Str>)
    ensures Concat(a + b) == Concat(a) + Concat(b)
  {
    if a == [] {
      assert a + b == b;
    } else {
      assert (a + b)[1..] == a[1..] + b;
      ConcatAppend(a[1..], b);
    }
  }
}
