/** What lossy decoding means, apart from how it is computed: UTF-8 as the encoding of
    scalar values (tables 3-6 and 3-7 and definition D93b of section 3.9 of the Unicode
    Standard). */
module Utf8Laws {
  import opened Strings
  import opened Utf8

  /** A code point that is not a surrogate. */
  predicate Scalar(c: nat) {
    c < 0x11_0000 && !(0xD800 <= c < 0xE000)
  }

  function Byte(n: nat): char
    requires n < 256
  {
    n as char
  }

  function Encode(c: nat): (e: Str)
    requires Scalar(c)
    ensures e != []
  {
    if c < 0x80 then [Byte(c)]
    else if c < 0x800 then [Byte(0xC0 + c / 64), Byte(0x80 + c % 64)]
    else if c < 0x1_0000 then [Byte(0xE0 + c / 4096), Byte(0x80 + c / 64 % 64), Byte(0x80 + c % 64)]
    else [Byte(0xF0 + c / 26_2144), Byte(0x80 + c / 4096 % 64), Byte(0x80 + c / 64 % 64), Byte(0x80 + c % 64)]
  }

  ghost predicate Scalars(cs: seq<nat>) {
    forall i :: 0 <= i < |cs| ==> Scalar(cs[i])
  }

  /** Well-formed text: the encoding of these characters. */
  function Encoded(cs: seq<nat>): Str
    requires Scalars(cs)
  {
    if cs == [] then [] else Encode(cs[0]) + Encoded(cs[1..])
  }

  /** The beginning of some character. */
  ghost predicate Initial(p: Str) {
    exists c :: Scalar(c) && p <= Encode(c)
  }

  /** No character begins here, and `bad` is all that could still have become one, or the
      single byte that could not. */
  ghost predicate Maximal(bad: Str, rest: Str) {
    && bad != []
    && (forall c :: Scalar(c) ==> !(Encode(c) <= bad + rest))
    && (|bad| == 1 || Initial(bad))
    && forall n :: |bad| < n <= |bad + rest| ==> !Initial((bad + rest)[..n])
  }

  // ---- the byte table is the encoding of scalar values ----

  /** `p` goes by the table of lead and continuation bytes as far as it goes. */
  ghost predicate Fits(p: Str) {
    p == [] || (|p| <= Announced(p[0]) && forall j :: 1 <= j < |p| ==> Follows(p[0], j, p[j]))
  }

  lemma EncodeFits(c: nat)
    requires Scalar(c)
    ensures Fits(Encode(c)) && |Encode(c)| == Announced(Encode(c)[0])
  {
    if c < 0x800 {
    } else if c < 0x1_0000 {
      ThreeBytes(c);
    } else {
      FourBytes(c);
    }
  }

  lemma ThreeBytes(c: nat)
    requires 0x800 <= c < 0x1_0000 && Scalar(c)
    ensures c / 4096 < 16 && (c / 4096 == 0 ==> c / 64 % 64 >= 32) && (c / 4096 == 13 ==> c / 64 % 64 < 32)
  {
    assert c / 64 / 64 == c / 4096;
  }

  lemma FourBytes(c: nat)
    requires 0x1_0000 <= c < 0x11_0000
    ensures c / 26_2144 <= 4 && (c / 26_2144 == 0 ==> c / 4096 % 64 >= 16) && (c / 26_2144 == 4 ==> c / 4096 % 64 < 16)
  {
    assert c / 4096 / 64 == c / 26_2144;
  }

  /** A complete sequence of the table is a character. */
  lemma FitsEncodes(s: Str) returns (c: nat)
    requires s != [] && Fits(s) && |s| == Announced(s[0])
    ensures Scalar(c) && Encode(c) == s
  {
    var a := s[0] as int;
    if |s| == 1 {
      c := a;
    } else if |s| == 2 {
      assert Follows(s[0], 1, s[1]);
      c := (a - 0xC0) * 64 + (s[1] as int - 0x80);
    } else if |s| == 3 {
      assert Follows(s[0], 1, s[1]) && Follows(s[0], 2, s[2]);
      c := Three(a, s[1] as int, s[2] as int);
    } else {
      assert Follows(s[0], 1, s[1]) && Follows(s[0], 2, s[2]) && Follows(s[0], 3, s[3]);
      c := Four(a, s[1] as int, s[2] as int, s[3] as int);
    }
  }

  lemma Three(a: nat, b: nat, d: nat) returns (c: nat)
    requires 0xE0 <= a <= 0xEF && 0x80 <= b < 0xC0 && 0x80 <= d < 0xC0
    requires (a == 0xE0 ==> b >= 0xA0) && (a == 0xED ==> b < 0xA0)
    ensures 0x800 <= c < 0x1_0000 && Scalar(c)
    ensures a == 0xE0 + c / 4096 && b == 0x80 + c / 64 % 64 && d == 0x80 + c % 64
  {
    c := (a - 0xE0) * 4096 + (b - 0x80) * 64 + (d - 0x80);
    assert c / 64 == (a - 0xE0) * 64 + (b - 0x80);
  }

  lemma Four(a: nat, b: nat, d: nat, e: nat) returns (c: nat)
    requires 0xF0 <= a <= 0xF4 && 0x80 <= b < 0xC0 && 0x80 <= d < 0xC0 && 0x80 <= e < 0xC0
    requires (a == 0xF0 ==> b >= 0x90) && (a == 0xF4 ==> b < 0x90)
    ensures 0x1_0000 <= c < 0x11_0000
    ensures a == 0xF0 + c / 26_2144 && b == 0x80 + c / 4096 % 64 && d == 0x80 + c / 64 % 64 && e == 0x80 + c % 64
  {
    c := (a - 0xF0) * 26_2144 + (b - 0x80) * 4096 + (d - 0x80) * 64 + (e - 0x80);
    assert c / 64 == (a - 0xF0) * 4096 + (b - 0x80) * 64 + (d - 0x80);
    assert c / 4096 == (a - 0xF0) * 64 + (b - 0x80);
  }

  /** Some byte that may stand there. */
  function Filler(lead: char, i: nat): char {
    if i == 1 && lead as int == 0xE0 then Byte(0xA0)
    else if i == 1 && lead as int == 0xF0 then Byte(0x90)
    else Byte(0x80)
  }

  lemma {:induction false} FitsInitial(p: Str)
    requires Fits(p)
    ensures Initial(p)
    decreases if p == [] then 5 else Announced(p[0]) - |p|
  {
    if p == [] {
      assert p <= Encode(0);
    } else if |p| == Announced(p[0]) {
      var c := FitsEncodes(p);
    } else {
      var longer := p + [Filler(p[0], |p|)];
      FitsInitial(longer);
      var c :| Scalar(c) && longer <= Encode(c);
      assert p <= Encode(c);
    }
  }

  lemma InitialFits(p: Str)
    ensures Initial(p) ==> Fits(p)
  {
    hide Encode, Follows, Announced;
    if c :| Scalar(c) && p <= Encode(c) {
      EncodeFits(c);
    }
  }

  // ---- what the first chunk is ----

  lemma FittingFits(b: Str)
    requires b != [] && Announced(b[0]) > 0
    ensures Fits(b[..Fitting(b, 1)])
  {
  }

  /** A character at the head is taken as it is. */
  lemma CharacterFirst(c: nat, rest: Str)
    requires Scalar(c)
    ensures FirstChunk(Encode(c) + rest) == Chunk(|Encode(c)|, Encode(c), false)
  {
    hide Encode, Follows, Announced;
    EncodeFits(c);
    var b := Encode(c) + rest;
    assert forall j :: 0 <= j < |Encode(c)| ==> b[j] == Encode(c)[j];
    assert b[..|Encode(c)|] == Encode(c);
    var n := Fitting(b, 1);
  }

  /** A maximal subpart at the head becomes one U+FFFD. */
  lemma SubpartFirst(bad: Str, rest: Str)
    requires Maximal(bad, rest)
    ensures FirstChunk(bad + rest).len == |bad| && FirstChunk(bad + rest).out == REPLACEMENT
  {
    hide Encode, Follows, Announced;
    var b := bad + rest;
    assert b[..|bad|] == bad && forall j :: 0 <= j < |bad| ==> b[j] == bad[j];
    if |bad| > 1 {
      InitialFits(bad);
    }
    if Announced(b[0]) > 0 {
      var n := Fitting(b, 1);
      FittingFits(b);
      if n == Announced(b[0]) {
        var c := FitsEncodes(b[..n]);
      }
      FitsInitial(b[..n]);
    }
  }

  // ---- results ----

  /** Well-formed text is not changed. */
  lemma {:induction false} DecodeValid(cs: seq<nat>, rest: Str)
    requires Scalars(cs)
    ensures Decode(Encoded(cs) + rest) == Encoded(cs) + Decode(rest)
    decreases |cs|
  {
    hide FirstChunk, Encode;
    if cs == [] {
      assert [] + rest == rest;
    } else {
      var e, more := Encode(cs[0]), Encoded(cs[1..]);
      var b := e + (more + rest);
      assert Encoded(cs) + rest == b;
      CharacterFirst(cs[0], more + rest);
      Unfold(b);
      assert b[|e|..] == more + rest;
      DecodeValid(cs[1..], rest);
      Regroup(e, more, Decode(rest));
    }
  }

  /** Each maximal ill-formed subpart becomes one U+FFFD, and decoding goes on behind it. */
  lemma DecodeReplaces(cs: seq<nat>, bad: Str, rest: Str)
    requires Scalars(cs) && Maximal(bad, rest)
    ensures Decode(Encoded(cs) + (bad + rest)) == Encoded(cs) + (REPLACEMENT + Decode(rest))
  {
    hide FirstChunk, Encode, Encoded, Maximal;
    DecodeValid(cs, bad + rest);
    SubpartFirst(bad, rest);
    assert bad != [] by { SomeBad(bad, rest); }
    Unfold(bad + rest);
    assert (bad + rest)[|bad|..] == rest;
  }

  lemma SomeBad(bad: Str, rest: Str)
    requires Maximal(bad, rest)
    ensures bad != []
  {
  }

  /** Whatever the bytes, a character or a maximal ill-formed subpart is at their head:
      the two laws above say all there is to say. */
  lemma HeadOrSubpart(b: Str) returns (n: nat)
    requires b != []
    ensures 0 < n <= |b|
    ensures (exists c :: Scalar(c) && Encode(c) == b[..n]) || Maximal(b[..n], b[n..])
  {
    hide Encode, Follows, Announced, Initial, Maximal;
    n := FirstChunk(b).len;
    assert b[..n] + b[n..] == b;
    if n == Announced(b[0]) {
      FittingFits(b);
      var c := FitsEncodes(b[..n]);
    } else {
      IllFormedHead(b, n);
    }
  }

  lemma TakenWhole(c: nat, b: Str)
    requires Scalar(c)
    ensures Encode(c) <= b ==> b != [] && FirstChunk(b).len == Announced(b[0])
  {
    hide Encode, Follows, Announced, FirstChunk;
    if Encode(c) <= b {
      EncodeFits(c);
      CharacterFirst(c, b[|Encode(c)|..]);
      assert Encode(c) + b[|Encode(c)|..] == b;
    }
  }

  lemma IllFormedHead(b: Str, n: nat)
    requires b != [] && n == FirstChunk(b).len && n != Announced(b[0])
    ensures Maximal(b[..n], b[n..])
  {
    hide Encode, Follows, Announced, Initial;
    assert b[..n] + b[n..] == b;
    forall c | Scalar(c) ensures !(Encode(c) <= b) {
      TakenWhole(c, b);
    }
    if n > 1 {
      FittingFits(b);
      FitsInitial(b[..n]);
    }
    forall m | n < m <= |b| ensures !Initial(b[..m]) {
      NoLonger(b, n, m);
    }
  }

  lemma NoLonger(b: Str, n: nat, m: nat)
    requires b != [] && n == FirstChunk(b).len && n != Announced(b[0]) && n < m <= |b|
    ensures !Initial(b[..m])
  {
    hide Encode, Follows, Announced, Initial;
    InitialFits(b[..m]);
    assert Announced(b[0]) > 0 ==> !Follows(b[0], n, b[n]) && b[..m][n] == b[n];
  }

  /** Decoded text is well-formed. */
  lemma {:induction false} DecodeIsValid(b: Str) returns (cs: seq<nat>)
    ensures Scalars(cs) && Decode(b) == Encoded(cs)
    decreases |b|
  {
    hide FirstChunk, Encode, Maximal;
    cs := [];
    if b != [] {
      var n := HeadOrSubpart(b);
      var head, rest := b[..n], b[n..];
      assert head + rest == b;
      var more := DecodeIsValid(rest);
      if c :| Scalar(c) && Encode(c) == head {
        CharacterFirst(c, rest);
        cs := [c] + more;
      } else {
        SubpartFirst(head, rest);
        ReplacementIs();
        cs := [0xFFFD] + more;
      }
      Unfold(b);
      assert cs[1..] == more;
    }
  }

  lemma ReplacementIs()
    ensures Scalar(0xFFFD) && Encode(0xFFFD) == REPLACEMENT
  {
  }
}
