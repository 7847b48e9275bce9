/** Lossy UTF-8 decoding: ill-formed input becomes U+FFFD, one per maximal
    subpart (section 3.9 of the Unicode Standard). Output is UTF-8 bytes again. */
module Utf8 {
  import opened Strings

  const REPLACEMENT: Str := [0xEF as char, 0xBF as char, 0xBD as char]

  /** Length of the sequence a lead byte announces, 0 if it announces none. */
  function Announced(lead: char): nat {
    var c := lead as int;
    if c < 0x80 then 1
    else if 0xC2 <= c <= 0xDF then 2
    else if 0xE0 <= c <= 0xEF then 3
    else if 0xF0 <= c <= 0xF4 then 4
    else 0
  }

  /** Which byte may stand at position `i` of a sequence with this lead byte. */
  predicate Follows(lead: char, i: nat, c: char) {
    if i == 1 && lead as int == 0xE0 then 0xA0 <= c as int < 0xC0
    else if i == 1 && lead as int == 0xED then 0x80 <= c as int < 0xA0
    else if i == 1 && lead as int == 0xF0 then 0x90 <= c as int < 0xC0
    else if i == 1 && lead as int == 0xF4 then 0x80 <= c as int < 0x90
    else IsContinuation(c)
  }

  /** How many bytes at the head of `b` fit one sequence, given that `i` do. */
  function Fitting(b: Str, i: nat): (n: nat)
    requires b != [] && 0 < i <= |b| && i <= Announced(b[0])
    ensures i <= n <= |b| && n <= Announced(b[0])
    ensures forall j :: i <= j < n ==> Follows(b[0], j, b[j])
    ensures n < |b| && n < Announced(b[0]) ==> !Follows(b[0], n, b[n])
    decreases |b| - i
  {
    if i == Announced(b[0]) || i == |b| || !Follows(b[0], i, b[i]) then i else Fitting(b, i + 1)
  }

  /** The first sequence or maximal subpart of `b`: its length, what it decodes to,
      and whether it is a sequence that more input could still complete. */
  datatype Chunk = Chunk(len: nat, out: Str, open: bool)

  function FirstChunk(b: Str): (c: Chunk)
    requires b != []
    ensures 0 < c.len <= |b| && (c.open ==> c.len == |b|)
    ensures c.out != [] && !IsContinuation(c.out[0])
    ensures c.open ==> c.out == REPLACEMENT
  {
    if Announced(b[0]) == 0 then Chunk(1, REPLACEMENT, false)
    else
      var n := Fitting(b, 1);
      if n == Announced(b[0]) then Chunk(n, b[..n], false) else Chunk(n, REPLACEMENT, n == |b|)
  }

  function Decode(b: Str): Str
    decreases |b|
  {
    if b == [] then [] else FirstChunk(b).out + Decode(b[FirstChunk(b).len..])
  }

  /** The part of the decoding that later input cannot change. */
  function Settled(b: Str): Str
    decreases |b|
  {
    if b == [] || FirstChunk(b).open then []
    else FirstChunk(b).out + Settled(b[FirstChunk(b).len..])
  }

  /** Bytes of an unfinished sequence at the end of `b`. */
  function Unfinished(b: Str): Str
    decreases |b|
  {
    if b == [] || FirstChunk(b).open then b else Unfinished(b[FirstChunk(b).len..])
  }

  lemma ChunkStable(b: Str, x: Str)
    requires b != [] && !FirstChunk(b).open
    ensures FirstChunk(b + x) == FirstChunk(b)
  {
    if Announced(b[0]) > 0 {
      FittingStable(b, x, 1);
      assert (b + x)[..Fitting(b, 1)] == b[..Fitting(b, 1)];
    }
  }

  lemma {:induction false} FittingStable(b: Str, x: Str, i: nat)
    requires b != [] && 0 < i <= |b| && i <= Announced(b[0])
    ensures Fitting(b, i) < |b| || Fitting(b, i) == Announced(b[0]) ==> Fitting(b + x, i) == Fitting(b, i)
    decreases |b| - i
  {
    if !(i == Announced(b[0]) || i == |b| || !Follows(b[0], i, b[i])) {
      FittingStable(b, x, i + 1);
    }
  }

  lemma Unfold(b: Str)
    requires b != []
    ensures
      var c := FirstChunk(b);
      && Decode(b) == c.out + Decode(b[c.len..])
      && (c.open ==> Settled(b) == [] && Unfinished(b) == b)
      && (!c.open ==> Settled(b) == c.out + Settled(b[c.len..]) && Unfinished(b) == Unfinished(b[c.len..]))
  {
    hide FirstChunk;
  }

  lemma NothingSettled(b: Str, x: Str)
    requires b == [] || FirstChunk(b).open
    ensures Decode(b + x) == Settled(b) + Decode(Unfinished(b) + x)
    ensures Settled(b + x) == Settled(b) + Settled(Unfinished(b) + x)
  {
    hide FirstChunk, Decode;
    assert Settled(b) == [] && Unfinished(b) == b;
  }

  lemma Regroup(a: Str, b: Str, c: Str)
    ensures a + (b + c) == (a + b) + c
  {
  }

  /** Later input only continues the settled part. */
  lemma {:induction false} DecodeContinues(b: Str, x: Str)
    ensures Decode(b + x) == Settled(b) + Decode(Unfinished(b) + x)
    ensures Settled(b + x) == Settled(b) + Settled(Unfinished(b) + x)
    decreases |b|
  {
    hide *;
    if b == [] || FirstChunk(b).open {
      NothingSettled(b, x);
    } else {
      Unfold(b);
      var c := FirstChunk(b);
      var rest := b[c.len..];
      ChunkStable(b, x);
      Unfold(b + x);
      assert (b + x)[c.len..] == rest + x;
      DecodeContinues(rest, x);
      Regroup(c.out, Settled(rest), Decode(Unfinished(b) + x));
      Regroup(c.out, Settled(rest), Settled(Unfinished(b) + x));
    }
  }

  /** An unfinished sequence shows as a single U+FFFD at the end. */
  lemma {:induction false} DecodeSplit(b: Str)
    ensures Decode(b) == Settled(b) + (if Unfinished(b) == [] then [] else REPLACEMENT)
    decreases |b|
  {
    if b != [] {
      var c := FirstChunk(b);
      if c.open {
        assert b[c.len..] == [];
      } else {
        DecodeSplit(b[c.len..]);
      }
    }
  }

  lemma DecodeSome(b: Str)
    requires b != []
    ensures Decode(b) != []
  {
  }

  lemma DecodeHead(b: Str)
    ensures Decode(b) != [] ==> !IsContinuation(Decode(b)[0])
  {
  }

  lemma SettledGrows(b: Str, x: Str)
    ensures Settled(b) <= Settled(b + x) && Settled(b) <= Decode(b + x)
  {
    DecodeContinues(b, x);
  }

  /** The settled part ends on a character boundary of every continuation. */
  lemma SettledBoundary(b: Str, x: Str)
    ensures Settled(b) <= Decode(b + x) && IsCharBoundary(Decode(b + x), |Settled(b)|)
  {
    DecodeContinues(b, x);
    DecodeHead(Unfinished(b) + x);
  }
}
