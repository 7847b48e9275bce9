/** The incremental detokenizer of rust/minicpm-generation/src/stream_decode.rs. */
module StreamDecode {
  import opened Strings
  import opened Utf8

  /** Decode callback: `None` is a backend error. */
  type DecodeFn = seq<int> -> Option<Str>

  /** `Failed`, or the newly emittable text (`None` while it is held back). */
  datatype Delta = Failed | Ok(text: Option<Str>)

  datatype Decoder = Decoder(ids: seq<int>, emitted: nat, tailWithheld: bool)

  const Start := Decoder([], 0, false)

  predicate EndsInReplacement(text: Str) {
    |text| >= 3 && text[|text| - 3..] == REPLACEMENT
  }

  /** Last char boundary at or below `end`, but not below `low`. */
  function BackToBoundary(text: Str, low: nat, end: nat): (r: nat)
    requires end <= |text|
    ensures r <= end && (low <= end ==> low <= r)
    ensures r > low ==> IsCharBoundary(text, r)
    ensures IsCharBoundary(text, end) ==> r == end
  {
    if end > low && !IsCharBoundary(text, end) then BackToBoundary(text, low, end - 1) else end
  }

  function DeltaEnd(d: Decoder, text: Str): (r: nat)
    ensures r <= |text|
  {
    var end := if d.tailWithheld then if |text| >= 3 then |text| - 3 else 0 else |text|;
    BackToBoundary(text, d.emitted, end)
  }

  function TakeDelta(d: Decoder, text: Str): (Decoder, Delta) {
    var end := DeltaEnd(d, text);
    if end <= d.emitted then (d, Ok(None))
    else (d.(emitted := end), Ok(Some(text[d.emitted..end])))
  }

  function Push(d: Decoder, id: int, decode: DecodeFn): (Decoder, Delta) {
    var e := d.(ids := d.ids + [id]);
    match decode(e.ids)
    case None => (e, Failed)
    case Some(text) => TakeDelta(e.(tailWithheld := EndsInReplacement(text)), text)
  }

  function Finish(d: Decoder, decode: DecodeFn): (Decoder, Delta) {
    match decode(d.ids)
    case None => (d, Failed)
    case Some(text) => TakeDelta(d.(tailWithheld := false), text)
  }

  class StreamDecoder {
    var ids: seq<int>
    var emitted: nat
    var tailWithheld: bool

    ghost function View(): Decoder
      reads this
    {
      Decoder(ids, emitted, tailWithheld)
    }

    constructor ()
      ensures View() == Start
    {
      ids, emitted, tailWithheld := [], 0, false;
    }

    method PushToken(id: int, decode: DecodeFn) returns (delta: Delta)
      modifies this
      ensures (View(), delta) == Push(old(View()), id, decode)
    {
      ids := ids + [id];
      var text := decode(ids);
      if text.None? {
        return Failed;
      }
      tailWithheld := EndsInReplacement(text.value);
      delta := TakeNew(text.value);
    }

    method FinishText(decode: DecodeFn) returns (delta: Delta)
      modifies this
      ensures (View(), delta) == Finish(old(View()), decode)
    {
      var text := decode(ids);
      if text.None? {
        return Failed;
      }
      tailWithheld := false;
      delta := TakeNew(text.value);
    }

    method TakeNew(text: Str) returns (delta: Delta)
      modifies this`emitted
      ensures (View(), delta) == TakeDelta(old(View()), text)
    {
      var end := |text|;
      if tailWithheld {
        end := if |text| >= 3 then |text| - 3 else 0;
      }
      ghost var from := end;
      while end > emitted && !IsCharBoundary(text, end)
        invariant 0 <= end <= from <= |text|
        invariant BackToBoundary(text, emitted, end) == BackToBoundary(text, emitted, from)
      {
        end := end - 1;
      }
      if end <= emitted {
        return Ok(None);
      }
      delta := Ok(Some(text[emitted..end]));
      emitted := end;
    }
  }

  // ---- a byte-level vocabulary with lossy decoding ----

  type Vocab = int -> Str

  function Bytes(vocab: Vocab, ids: seq<int>): Str {
    if ids == [] then [] else Bytes(vocab, ids[..|ids| - 1]) + vocab(ids[|ids| - 1])
  }

  function Text(vocab: Vocab, ids: seq<int>): Str {
    Decode(Bytes(vocab, ids))
  }

  /** The backend: all tokens' bytes, decoded at once. */
  function Lossy(vocab: Vocab): (decode: DecodeFn)
    ensures forall ids :: decode(ids) == Some(Text(vocab, ids))
  {
    (ids: seq<int>) => Some(Text(vocab, ids))
  }

  function Piece(d: Delta): Str {
    if d.Ok? && d.text.Some? then d.text.value else []
  }

  /** Decoder after pushing all of `ids`, and the pieces it gave out. */
  function PushAll(vocab: Vocab, ids: seq<int>): (Decoder, seq<Str>) {
    if ids == [] then (Start, [])
    else
      var (d, pieces) := PushAll(vocab, ids[..|ids| - 1]);
      var (e, delta) := Push(d, ids[|ids| - 1], Lossy(vocab));
      (e, pieces + [Piece(delta)])
  }

  /** Everything streamed for `ids`, the final flush included. */
  function Streamed(vocab: Vocab, ids: seq<int>): seq<Str> {
    var (d, pieces) := PushAll(vocab, ids);
    pieces + [Piece(Finish(d, Lossy(vocab)).1)]
  }

  /** What has been given out is settled text ending on a char boundary: all of it,
      or all but a trailing U+FFFD. */
  ghost predicate Inv(vocab: Vocab, ids: seq<int>, d: Decoder, out: Str) {
    var text := Text(vocab, ids);
    && d.ids == ids && d.emitted == |out|
    && out <= Settled(Bytes(vocab, ids)) && IsCharBoundary(text, |out|)
    && (out == text || (EndsInReplacement(text) && out == text[..|text| - 3]))
  }

  lemma ConcatSnoc(pieces: seq<Str>, last: Str)
    ensures Concat(pieces + [last]) == Concat(pieces) + last
  {
    ConcatAppend(pieces, [last]);
    assert [last][1..] == [];
    assert Concat([last]) == last + Concat([]) == last;
  }

  lemma ReplacementBoundary(text: Str)
    requires EndsInReplacement(text)
    ensures IsCharBoundary(text, |text| - 3)
    ensures !IsCharBoundary(text, |text| - 2) && !IsCharBoundary(text, |text| - 1)
  {
    assert forall i :: 0 <= i < 3 ==> text[|text| - 3 + i] == text[|text| - 3..][i] == REPLACEMENT[i];
  }

  lemma SettledText(vocab: Vocab, ids: seq<int>)
    ensures
      var s, text := Settled(Bytes(vocab, ids)), Text(vocab, ids);
      && s <= text && IsCharBoundary(text, |s|)
      && (s == text || (EndsInReplacement(text) && s == text[..|text| - 3]))
  {
    var b := Bytes(vocab, ids);
    assert b + [] == b;
    SettledBoundary(b, []);
    DecodeSplit(b);
    if Unfinished(b) != [] {
      assert Text(vocab, ids)[|Settled(b)|..] == REPLACEMENT;
    }
  }

  lemma EndOfDelta(d: Decoder, text: Str)
    requires d.tailWithheld == EndsInReplacement(text)
    ensures DeltaEnd(d, text) == (if d.tailWithheld then |text| - 3 else |text|)
    ensures IsCharBoundary(text, DeltaEnd(d, text))
    ensures d.tailWithheld ==>
              |text| >= 3 && !IsCharBoundary(text, |text| - 2) && !IsCharBoundary(text, |text| - 1)
  {
    hide BackToBoundary;
    if d.tailWithheld {
      ReplacementBoundary(text);
    }
  }

  /** Taking the delta keeps the invariant. */
  lemma TakeKeeps(vocab: Vocab, ids: seq<int>, d: Decoder, out: Str)
    requires d.ids == ids && d.emitted == |out| && out <= Settled(Bytes(vocab, ids))
    requires IsCharBoundary(Text(vocab, ids), |out|)
    requires d.tailWithheld == EndsInReplacement(Text(vocab, ids))
    ensures
      var (e, delta) := TakeDelta(d, Text(vocab, ids));
      Inv(vocab, ids, e, out + Piece(delta))
  {
    hide Decode, Settled, Unfinished, Bytes, DeltaEnd, EndsInReplacement, IsCharBoundary, Text;
    var text, s := Text(vocab, ids), Settled(Bytes(vocab, ids));
    SettledText(vocab, ids);
    EndOfDelta(d, text);
    var end := DeltaEnd(d, text);
    assert out == text[..|out|];
    if end > d.emitted {
      assert out + text[d.emitted..end] == text[..end];
      assert s == text[..|s|];
    } else {
      assert out + [] == out;
    }
  }

  lemma BoundaryStays(vocab: Vocab, ids: seq<int>, id: int, out: Str)
    requires out <= Settled(Bytes(vocab, ids)) && IsCharBoundary(Text(vocab, ids), |out|)
    ensures out <= Settled(Bytes(vocab, ids + [id])) && IsCharBoundary(Text(vocab, ids + [id]), |out|)
  {
    hide Decode, Settled, Unfinished;
    var b := Bytes(vocab, ids);
    assert (ids + [id])[..|ids|] == ids;
    SettledText(vocab, ids);
    SettledGrows(b, vocab(id));
    SettledBoundary(b, vocab(id));
  }

  lemma {:induction false} PushKeeps(vocab: Vocab, ids: seq<int>)
    ensures var (d, pieces) := PushAll(vocab, ids); Inv(vocab, ids, d, Concat(pieces))
    decreases |ids|
  {
    hide Decode, Settled, TakeDelta;
    if ids == [] {
      assert Decode([]) == [] by { DecodeSplit([]); SettledNone(); }
    } else {
      var front, id := ids[..|ids| - 1], ids[|ids| - 1];
      PushKeeps(vocab, front);
      var (d, pieces) := PushAll(vocab, front);
      assert front + [id] == ids;
      BoundaryStays(vocab, front, id, Concat(pieces));
      var e := d.(ids := ids, tailWithheld := EndsInReplacement(Text(vocab, ids)));
      TakeKeeps(vocab, ids, e, Concat(pieces));
      var (f, delta) := Push(d, id, Lossy(vocab));
      assert (f, delta) == TakeDelta(e, Text(vocab, ids));
      ConcatSnoc(pieces, Piece(delta));
    }
  }

  lemma SettledNone()
    ensures Settled([]) == [] && Unfinished([]) == []
  {
  }

  lemma FlushRest(d: Decoder, text: Str)
    requires d.emitted <= |text| && !d.tailWithheld
    ensures Piece(TakeDelta(d, text).1) == text[d.emitted..]
  {
    assert IsCharBoundary(text, |text|);
  }

  /** Streaming gives out exactly the decoding of all bytes, however they are split
      into tokens. */
  lemma StreamedIsDecoded(vocab: Vocab, ids: seq<int>)
    ensures Concat(Streamed(vocab, ids)) == Text(vocab, ids)
  {
    hide Decode, Settled, Unfinished, Bytes, PushAll, TakeDelta;
    PushKeeps(vocab, ids);
    var (d, pieces) := PushAll(vocab, ids);
    var text, out := Text(vocab, ids), Concat(pieces);
    FlushRest(d.(tailWithheld := false), text);
    ConcatSnoc(pieces, text[|out|..]);
    assert out == text[..|out|];
  }

  /** Before the flush, what was streamed is a prefix that no later token can change,
      and at most one U+FFFD is held back. */
  lemma StreamedSoFar(vocab: Vocab, ids: seq<int>, more: seq<int>)
    ensures
      var out, text := Concat(PushAll(vocab, ids).1), Text(vocab, ids);
      && (text == out || text == out + REPLACEMENT)
      && out <= Text(vocab, ids + more)
      && IsCharBoundary(text, |out|)
  {
    hide Decode, Settled, Unfinished, PushAll, Bytes;
    PushKeeps(vocab, ids);
    var out, text := Concat(PushAll(vocab, ids).1), Text(vocab, ids);
    BytesAppend(vocab, ids, more);
    SettledGrows(Bytes(vocab, ids), Bytes(vocab, more));
    if out != text {
      assert text == text[..|text| - 3] + text[|text| - 3..];
    }
  }

  /** Something is held back exactly while the text ends in U+FFFD. */
  lemma {:induction false} HeldBack(vocab: Vocab, ids: seq<int>)
    ensures
      var out, text := Concat(PushAll(vocab, ids).1), Text(vocab, ids);
      if EndsInReplacement(text) then |text| >= 3 && out == text[..|text| - 3] else out == text
    decreases |ids|
  {
    hide Decode, Settled, Unfinished, TakeDelta, Bytes, IsCharBoundary, Push, Text;
    PushKeeps(vocab, ids);
    var out, text := Concat(PushAll(vocab, ids).1), Text(vocab, ids);
    if EndsInReplacement(text) && out == text {
      if ids == [] {
        NoText(vocab);
      } else {
        var front, id := ids[..|ids| - 1], ids[|ids| - 1];
        HeldBack(vocab, front);
        assert front + [id] == ids;
        NotAllOut(vocab, front, id);
      }
    }
  }

  lemma NoText(vocab: Vocab)
    ensures Text(vocab, []) == [] && !EndsInReplacement([])
  {
  }

  /** A push never gives out a trailing U+FFFD. */
  lemma NotAllOut(vocab: Vocab, front: seq<int>, id: int)
    requires
      var out, text := Concat(PushAll(vocab, front).1), Text(vocab, front);
      if EndsInReplacement(text) then |text| >= 3 && out == text[..|text| - 3] else out == text
    requires EndsInReplacement(Text(vocab, front + [id]))
    ensures Concat(PushAll(vocab, front + [id]).1) != Text(vocab, front + [id])
  {
    hide Decode, Settled, Unfinished, TakeDelta, Bytes, EndsInReplacement, IsCharBoundary, PushAll, Push;
    var b, x := Bytes(vocab, front), vocab(id);
    var out, text := Concat(PushAll(vocab, front).1), Text(vocab, front + [id]);
    PushKeeps(vocab, front);
    assert Bytes(vocab, front + [id]) == b + x by { OneMore(vocab, front, id); }
    DecodeContinues(b, x);
    SettledText(vocab, front);
    ReplacementBoundary(text);
    var (d, pieces) := PushAll(vocab, front);
    var e := d.(ids := front + [id], tailWithheld := true);
    LastPiece(vocab, front, id);
    EndOfDelta(e, text);
    WithheldPiece(e, text);
    if x == [] {
      assert b + x == b;
    }
    if out == text {
      assert Decode(Unfinished(b) + x) == [] by {
        assert |out| <= |Settled(b)|;
      }
      if Unfinished(b) + x != [] {
        DecodeSome(Unfinished(b) + x);
      }
    }
  }

  lemma OneMore(vocab: Vocab, front: seq<int>, id: int)
    ensures Bytes(vocab, front + [id]) == Bytes(vocab, front) + vocab(id)
  {
    assert (front + [id])[..|front|] == front;
  }

  lemma LastPiece(vocab: Vocab, front: seq<int>, id: int)
    ensures
      var (d, pieces) := PushAll(vocab, front);
      var text := Text(vocab, front + [id]);
      var e := d.(ids := d.ids + [id], tailWithheld := EndsInReplacement(text));
      Concat(PushAll(vocab, front + [id]).1) == Concat(pieces) + Piece(TakeDelta(e, text).1)
  {
    hide TakeDelta, EndsInReplacement, Text;
    assert (front + [id])[..|front|] == front;
    var (d, pieces) := PushAll(vocab, front);
    PushIds(vocab, front);
    assert d.ids + [id] == front + [id];
    ConcatSnoc(pieces, Piece(Push(d, id, Lossy(vocab)).1));
  }

  lemma PushIds(vocab: Vocab, ids: seq<int>)
    ensures PushAll(vocab, ids).0.ids == ids
  {
    hide Inv;
    PushKeeps(vocab, ids);
    InvIds(vocab, ids, PushAll(vocab, ids).0, Concat(PushAll(vocab, ids).1));
  }

  lemma InvIds(vocab: Vocab, ids: seq<int>, d: Decoder, out: Str)
    requires Inv(vocab, ids, d, out)
    ensures d.ids == ids
  {
  }

  lemma WithheldPiece(e: Decoder, text: Str)
    requires e.tailWithheld && |text| >= 3 && DeltaEnd(e, text) == |text| - 3
    ensures Piece(TakeDelta(e, text).1) == if |text| - 3 <= e.emitted then [] else text[e.emitted..|text| - 3]
  {
  }

  lemma {:induction false} BytesAppend(vocab: Vocab, a: seq<int>, b: seq<int>)
    ensures Bytes(vocab, a + b) == Bytes(vocab, a) + Bytes(vocab, b)
    decreases |b|
  {
    if b == [] {
      assert a + b == a;
    } else {
      var front := b[..|b| - 1];
      assert (a + b)[..|a + b| - 1] == a + front;
      BytesAppend(vocab, a, front);
    }
  }
}
