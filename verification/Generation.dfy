/** `run_generation` of rust/minicpm-server/src/chat.rs: the token stream becomes
    text, the text is cut at stop strings, and what may be shown is fed to the
    tool-call parser. */
module Generation {
  import opened Strings
  import opened Events
  import Utf8
  import UL = Utf8Laws
  import SD = StreamDecode
  import SS = StopStrings
  import TC = ToolCall
  import TP = ToolCallParser
  import TF = ToolCallFragments
  import TX = ToolCallExact

  datatype GenResult = GenResult(
    chunks: seq<Str>,
    content: Str,
    calls: seq<TC.Call>,
    reason: FinishReason,
    completionTokens: nat,
    error: bool,
    clientGone: bool)

  /** Content tokens: those before the first eos token or terminal event. */
  function Ids(events: seq<GenEvent>): seq<Token> {
    if events == [] || !events[0].Token? || IsEos(events[0].id) then []
    else [events[0].id] + Ids(events[1..])
  }

  /** The event that ends the stream, if any. */
  function Ending(events: seq<GenEvent>): Option<GenEvent> {
    if events == [] then None
    else if !events[0].Token? || IsEos(events[0].id) then Some(events[0])
    else Ending(events[1..])
  }

  /** Text a client sees: the decoded stream up to the stop string. */
  function ClientText(vocab: SD.Vocab, stops: seq<Str>, ids: seq<Token>): Str {
    SD.Text(vocab, ids)[..CutOf(vocab, stops, ids)]
  }

  function CutOf(vocab: SD.Vocab, stops: seq<Str>, ids: seq<Token>): (n: nat)
    ensures n <= |SD.Text(vocab, ids)|
  {
    CutBounded(stops, SD.Streamed(vocab, ids));
    SD.StreamedIsDecoded(vocab, ids);
    SS.Cut(stops, SD.Streamed(vocab, ids))
  }

  lemma CutBounded(stops: seq<Str>, pieces: seq<Str>)
    ensures SS.Cut(stops, pieces) <= |Concat(pieces)|
  {
    SS.PushAllKeeps(stops, pieces);
  }

  /** With a steady set of stop strings the client's text depends on the bytes alone. */
  lemma ClientTextOfBytes(vocab: SD.Vocab, stops: seq<Str>, ids: seq<Token>)
    requires SS.Steady(stops)
    ensures
      var text := SD.Text(vocab, ids);
      ClientText(vocab, stops, ids) == text[..SS.Visible(stops, text)]
  {
    SD.StreamedIsDecoded(vocab, ids);
    SS.SteadyCut(stops, SD.Streamed(vocab, ids));
  }

  // ---- facts about the streamed pieces ----

  lemma {:induction false} PiecesPrefix(vocab: SD.Vocab, ids: seq<Token>, all: seq<Token>)
    requires ids <= all
    ensures
      var p, q := SD.PushAll(vocab, ids).1, SD.PushAll(vocab, all).1;
      |p| == |ids| && |q| == |all| && p == q[..|ids|]
    decreases |all|
  {
    hide SD.Push;
    if all == [] {
    } else if ids == all {
      PiecesPrefix(vocab, all[..|all| - 1], all[..|all| - 1]);
      var q := SD.PushAll(vocab, all).1;
      assert q[..|all|] == q;
    } else {
      var front := all[..|all| - 1];
      assert ids <= front;
      PiecesPrefix(vocab, ids, front);
    }
  }

  lemma PieceOnBoundary(vocab: SD.Vocab, ids: seq<Token>, id: Token)
    ensures
      var d := SD.PushAll(vocab, ids).0;
      SS.StartsOnBoundary(SD.Piece(SD.Push(d, id, SD.Lossy(vocab)).1))
  {
    hide Utf8.Decode, Utf8.Settled, SD.Bytes, SD.PushAll, SD.DeltaEnd;
    SD.PushKeeps(vocab, ids);
    var (d, pieces) := SD.PushAll(vocab, ids);
    SD.BoundaryStays(vocab, ids, id, Concat(pieces));
    var text := SD.Text(vocab, ids + [id]);
    var e := d.(ids := d.ids + [id], tailWithheld := SD.EndsInReplacement(text));
    assert SD.Push(d, id, SD.Lossy(vocab)) == SD.TakeDelta(e, text);
    Utf8.DecodeHead(SD.Bytes(vocab, ids + [id]));
    assert IsCharBoundary(text, d.emitted);
  }

  lemma FlushOnBoundary(vocab: SD.Vocab, ids: seq<Token>)
    ensures
      var d := SD.PushAll(vocab, ids).0;
      SS.StartsOnBoundary(SD.Piece(SD.Finish(d, SD.Lossy(vocab)).1))
  {
    hide Utf8.Decode, Utf8.Settled, SD.Bytes, SD.PushAll, SD.DeltaEnd;
    SD.PushKeeps(vocab, ids);
    Utf8.DecodeHead(SD.Bytes(vocab, ids));
  }

  lemma {:induction false} PiecesOnBoundary(vocab: SD.Vocab, ids: seq<Token>)
    ensures forall f :: f in SD.PushAll(vocab, ids).1 ==> SS.StartsOnBoundary(f)
    decreases |ids|
  {
    hide SD.Push;
    if ids != [] {
      PiecesOnBoundary(vocab, ids[..|ids| - 1]);
      PieceOnBoundary(vocab, ids[..|ids| - 1], ids[|ids| - 1]);
    }
  }

  /** The stop machine after the pieces of `ids`. */
  ghost function Stopped(vocab: SD.Vocab, stops: seq<Str>, ids: seq<Token>): SS.Stop {
    SS.PushAll(SS.Fresh, stops, SD.PushAll(vocab, ids).1)
  }

  /** The stop machine after the flush as well. */
  ghost function Flushed(vocab: SD.Vocab, stops: seq<Str>, ids: seq<Token>): SS.Stop {
    SS.PushAll(SS.Fresh, stops, SD.Streamed(vocab, ids))
  }

  lemma StoppedNext(vocab: SD.Vocab, stops: seq<Str>, ids: seq<Token>, id: Token)
    ensures
      var (d, pieces) := SD.PushAll(vocab, ids);
      var (e, delta) := SD.Push(d, id, SD.Lossy(vocab));
      && SD.PushAll(vocab, ids + [id]) == (e, pieces + [SD.Piece(delta)])
      && Stopped(vocab, stops, ids + [id]) == SS.PushText(Stopped(vocab, stops, ids), stops, SD.Piece(delta))
      && SS.SafeLen(Stopped(vocab, stops, ids), stops) <= SS.SafeLen(Stopped(vocab, stops, ids + [id]), stops)
  {
    hide SD.Push, SS.PushText, SS.SafeLen;
    assert (ids + [id])[..|ids|] == ids;
    var (d, pieces) := SD.PushAll(vocab, ids);
    var piece := SD.Piece(SD.Push(d, id, SD.Lossy(vocab)).1);
    assert (pieces + [piece])[..|pieces|] == pieces;
    PieceOnBoundary(vocab, ids, id);
    SS.PushAllKeeps(stops, pieces);
    SS.SafeStep(stops, Stopped(vocab, stops, ids), Concat(pieces), piece);
  }

  lemma FlushedNext(vocab: SD.Vocab, stops: seq<Str>, ids: seq<Token>)
    ensures
      var d := SD.PushAll(vocab, ids).0;
      var piece := SD.Piece(SD.Finish(d, SD.Lossy(vocab)).1);
      && Flushed(vocab, stops, ids) == SS.PushText(Stopped(vocab, stops, ids), stops, piece)
      && SS.SafeLen(Stopped(vocab, stops, ids), stops) <= CutOf(vocab, stops, ids)
      && CutOf(vocab, stops, ids) == SS.FinalLen(Flushed(vocab, stops, ids), stops)
  {
    hide SD.Finish, SD.PushAll, SS.PushText, SS.SafeLen, SS.FinalLen;
    var (d, pieces) := SD.PushAll(vocab, ids);
    var all := SD.Streamed(vocab, ids);
    assert all[..|pieces|] == pieces && all[..|all|] == all;
    PiecesOnBoundary(vocab, ids);
    FlushOnBoundary(vocab, ids);
    SS.NothingLeaks(stops, all, |pieces|, |all|);
  }

  lemma StartStopped(vocab: SD.Vocab, stops: seq<Str>)
    ensures SD.PushAll(vocab, []) == (SD.Start, []) && Stopped(vocab, stops, []) == SS.Fresh
    ensures SS.SafeLen(SS.Fresh, stops) == 0
  {
  }

  lemma SafeWithin(vocab: SD.Vocab, stops: seq<Str>, ids: seq<Token>)
    ensures SS.SafeLen(Stopped(vocab, stops, ids), stops) <= |Stopped(vocab, stops, ids).text|
  {
    SS.PushAllKeeps(stops, SD.PushAll(vocab, ids).1);
  }

  /** What may be shown after part of the stream is part of what is shown in the end. */
  lemma ShownIsPrefix(vocab: SD.Vocab, stops: seq<Str>, ids: seq<Token>, all: seq<Token>)
    requires ids <= all
    ensures
      var s := Stopped(vocab, stops, ids);
      var n := SS.SafeLen(s, stops);
      n <= |s.text| && s.text[..n] <= ClientText(vocab, stops, all)
  {
    hide SD.PushAll, SS.SafeLen, SD.Finish, SS.Cut;
    var p, q, r := SD.PushAll(vocab, ids).1, SD.PushAll(vocab, all).1, SD.Streamed(vocab, all);
    PiecesPrefix(vocab, ids, all);
    assert r[..|ids|] == p && r == p + r[|ids|..];
    PiecesOnBoundary(vocab, all);
    FlushOnBoundary(vocab, all);
    SS.NothingLeaks(stops, r, |ids|, |r|);
    SS.NothingLeaks(stops, r, |ids|, |ids|);
    SafeWithin(vocab, stops, ids);
    SS.PushAllKeeps(stops, p);
    ConcatAppend(p, r[|ids|..]);
    SD.StreamedIsDecoded(vocab, all);
    assert Stopped(vocab, stops, ids).text <= SD.Text(vocab, all);
  }

  /** After a stop string matched, the rest of the stream changes nothing. */
  lemma {:induction false} MatchedStays(vocab: SD.Vocab, stops: seq<Str>, ids: seq<Token>, all: seq<Token>)
    requires ids <= all && Stopped(vocab, stops, ids).matched.Some?
    ensures Stopped(vocab, stops, all) == Stopped(vocab, stops, ids)
    ensures Flushed(vocab, stops, all) == Stopped(vocab, stops, ids)
    decreases |all|
  {
    hide SD.Push, SD.PushAll, SD.Finish;
    SS.PushAllKeeps(stops, SD.PushAll(vocab, ids).1);
    if ids != all {
      var front := all[..|all| - 1];
      MatchedStays(vocab, stops, ids, front);
      assert front + [all[|all| - 1]] == all;
      StoppedNext(vocab, stops, front, all[|all| - 1]);
    }
    FlushedNext(vocab, stops, all);
  }

  // ---- the loop ----

  /** Everything `run_generation` keeps between events, tied to the tokens taken so far. */
  ghost predicate Tied(
      vocab: SD.Vocab, stops: seq<Str>, ids: seq<Token>,
      decoder: SD.Decoder, stop: SS.Stop, emitted: nat, chunks: seq<Str>)
  {
    var s := Stopped(vocab, stops, ids);
    && decoder == SD.PushAll(vocab, ids).0
    && stop == s
    && emitted == SS.SafeLen(s, stops) <= |s.text|
    && Concat(chunks) == s.text[..emitted]
  }

  /** A chunk that takes what is shown from `emitted` to `safe` keeps every byte once, in order. */
  lemma ChunkAppends(chunks: seq<Str>, text: Str, longer: Str, emitted: nat, safe: nat)
    requires emitted <= safe <= |longer| && emitted <= |text| && text <= longer
    requires Concat(chunks) == text[..emitted]
    ensures Concat(chunks + [longer[emitted..safe]]) == longer[..safe]
    ensures emitted == safe ==> Concat(chunks) == longer[..safe]
  {
    SD.ConcatSnoc(chunks, longer[emitted..safe]);
    assert text[..emitted] == longer[..emitted];
  }

  lemma StoppedTextGrows(vocab: SD.Vocab, stops: seq<Str>, ids: seq<Token>, id: Token)
    ensures Stopped(vocab, stops, ids).text <= Stopped(vocab, stops, ids + [id]).text
  {
    hide SD.Push;
    StoppedNext(vocab, stops, ids, id);
  }

  lemma ParsedNext(chunks: seq<Str>, chunk: Str)
    ensures
      var r := TC.Pushes(TC.Init, chunks);
      var s := TC.Push(r.p, chunk);
      TC.Pushes(TC.Init, chunks + [chunk]) == TC.Result(s.p, r.events + s.events)
  {
    PushesSnoc(TC.Init, chunks, chunk);
  }

  lemma {:induction false} PushesSnoc(p: TC.Parser, chunks: seq<Str>, chunk: Str)
    ensures
      var r := TC.Pushes(p, chunks);
      var s := TC.Push(r.p, chunk);
      TC.Pushes(p, chunks + [chunk]) == TC.Result(s.p, r.events + s.events)
    decreases |chunks|
  {
    hide TC.Push;
    if chunks == [] {
      assert chunks + [chunk] == [chunk] && [chunk][1..] == [];
      var s := TC.Push(p, chunk);
      assert TC.Pushes(s.p, []) == TC.Result(s.p, []);
      assert s.events + [] == s.events && [] + s.events == s.events;
    } else {
      assert (chunks + [chunk])[1..] == chunks[1..] + [chunk];
      var a := TC.Push(p, chunks[0]);
      PushesSnoc(a.p, chunks[1..], chunk);
      var r := TC.Pushes(a.p, chunks[1..]);
      var s := TC.Push(r.p, chunk);
      assert a.events + (r.events + s.events) == (a.events + r.events) + s.events;
    }
  }

  class Pipeline {
    const vocab: SD.Vocab
    const stops: seq<Str>
    const stopState: SS.StopState
    const decoder: SD.StreamDecoder
    const parser: TP.ToolCallParser
    var emitted: nat
    var chunks: seq<Str>
    ghost var said: seq<TC.Event>

    /** The three components are distinct objects, and the parser has been fed the chunks. */
    ghost predicate Valid()
      reads this, stopState, decoder, parser
    {
      && stopState.Valid() && stopState.stopStrings == stops && stopState.stopTokenIds == EOS_IDS
      && parser.Valid()
      && TC.Result(parser.View(), said) == TC.Pushes(TC.Init, chunks)
    }

    ghost predicate TiedTo(ids: seq<Token>)
      reads this, stopState, decoder
    {
      Tied(vocab, stops, ids, decoder.View(), stopState.View(), emitted, chunks)
    }

    constructor (vocab: SD.Vocab, stops: seq<Str>)
      ensures Valid() && TiedTo([]) && stopState.matched.None? && !stopState.stopped
      ensures fresh(stopState) && fresh(decoder) && fresh(parser)
      ensures this.vocab == vocab && this.stops == stops && chunks == [] && decoder.ids == []
    {
      this.vocab, this.stops := vocab, stops;
      stopState := new SS.StopState(EOS_IDS, stops);
      decoder := new SD.StreamDecoder();
      parser := new TP.ToolCallParser();
      emitted, chunks, said := 0, [], [];
      new;
      StartStopped(vocab, stops);
    }

    /** Hands the next stretch of visible text to the tool-call parser. */
    method Forward(chunk: Str)
      requires Valid()
      modifies this, parser
      ensures Valid() && chunks == old(chunks) + [chunk] && emitted == old(emitted)
    {
      hide TC.Push, TC.Pushes;
      var events := parser.Push(chunk);
      ParsedNext(chunks, chunk);
      said := said + events;
      chunks := chunks + [chunk];
    }

    /** One content token: decode, match stop strings, forward what became safe. */
    method TakeToken(id: Token, broken: bool, ghost ids: seq<Token>) returns (error: bool, hit: bool)
      requires Valid() && TiedTo(ids) && stopState.matched.None?
      modifies this, stopState, decoder, parser
      ensures Valid() && error == broken
      ensures !error ==> TiedTo(ids + [id])
      ensures hit == (!error && stopState.matched.Some?)
      ensures error ==> stopState.View() == old(stopState.View()) && chunks == old(chunks) && emitted == old(emitted)
      ensures emitted >= old(emitted) && |chunks| == |old(chunks)| + if emitted > old(emitted) then 1 else 0
      ensures decoder.ids == old(decoder.ids) + [id]
    {
      hide SS.PushText, SS.SafeLen, SS.LongestSafe, SD.PushAll, Concat, TC.Pushes, Stopped;
      var decode := (window: seq<int>) => if broken then None else Some(SD.Text(vocab, window));
      SD.PushKeeps(vocab, ids);
      StoppedNext(vocab, stops, ids, id);
      StoppedTextGrows(vocab, stops, ids, id);
      SafeWithin(vocab, stops, ids + [id]);
      var delta := decoder.PushToken(id, decode);
      if delta.Failed? {
        PushFails(old(decoder.View()), id, decode);
        return true, false;
      }
      ghost var d := old(decoder.View());
      SamePush(vocab, d, id, decode);
      if delta.text.None? {
        NoPiece(stopState.View(), stops);
      }
      hit := false;
      if delta.text.Some? {
        var stopHit := stopState.Push(delta.text.value);
        var safe := stopState.SafeLength();
        ghost var before := old(stopState.View()).text;
        ChunkAppends(chunks, before, stopState.text, emitted, safe);
        if safe > emitted {
          var chunk := stopState.text[emitted..safe];
          Forward(chunk);
          emitted := safe;
        }
        hit := stopHit.Some?;
      }
      error := false;
    }

    /** State at the last event; after an eos token the stop machine is closed without a match. */
    ghost predicate AtEnd(ids: seq<Token>, eos: bool)
      reads this, stopState, decoder
    {
      && (eos ==> stopState.stopped && stopState.matched.None?)
      && Tied(vocab, stops, ids, decoder.View(),
              stopState.View().(stopped := stopState.stopped && !eos), emitted, chunks)
    }

    /** Final flush of the decoder into the stop machine, which ignores it when closed. */
    method FlushDecoder(broken: bool, ghost ids: seq<Token>, ghost eos: bool) returns (error: bool)
      requires Valid() && AtEnd(ids, eos)
      modifies stopState, decoder
      ensures Valid() && error == broken && decoder.ids == old(decoder.ids)
      ensures error ==> stopState.View() == old(stopState.View())
      ensures !error ==> stopState.View() == if eos then old(stopState.View()) else Flushed(vocab, stops, ids)
    {
      hide SS.PushText, SS.SafeLen, SD.PushAll, SD.Streamed, Concat, TC.Pushes, Stopped, Flushed;
      var decode := (window: seq<int>) => if broken then None else Some(SD.Text(vocab, window));
      SD.PushKeeps(vocab, ids);
      FlushedNext(vocab, stops, ids);
      var delta := decoder.FinishText(decode);
      FinishFails(old(decoder.View()), decode);
      if delta.Failed? {
        return true;
      }
      SameFinish(vocab, old(decoder.View()), decode);
      if delta.text.Some? {
        PushWhenStopped(stopState.View(), stops, delta.text.value);
        var ignored := stopState.Push(delta.text.value);
      } else {
        NoPiece(stopState.View(), stops);
      }
      error := false;
    }

    /** After the last event: everything held back is released up to the final cut. */
    method Flush(broken: bool, ghost ids: seq<Token>, ghost eos: bool) returns (error: bool)
      requires Valid() && AtEnd(ids, eos)
      modifies this, stopState, decoder, parser
      ensures Valid() && error == broken && decoder.ids == old(decoder.ids)
      ensures !error && !eos ==> Concat(chunks) == ClientText(vocab, stops, ids)
      ensures !error && eos ==> Concat(chunks) == Concat(SD.PushAll(vocab, ids).1)
      ensures !error ==> emitted <= |stopState.text| && stopState.text[..emitted] == Concat(chunks)
      ensures error ==> chunks == old(chunks) && emitted == old(emitted) && stopState.text == old(stopState.text)
      ensures !error && eos ==> emitted == |Concat(SD.PushAll(vocab, ids).1)|
      ensures !error && !eos ==> emitted == CutOf(vocab, stops, ids)
      ensures emitted >= old(emitted) && |chunks| == |old(chunks)| + if emitted > old(emitted) then 1 else 0
    {
      hide SS.SafeLen, SS.Finish, SS.FinalLen, SD.PushAll, SD.Streamed, Concat, TC.Pushes, Stopped, Flushed;
      ghost var s := Stopped(vocab, stops, ids);
      FlushShape(vocab, stops, ids, eos);
      error := FlushDecoder(broken, ids, eos);
      if !error {
        var end := stopState.FinishText();
        ChunkAppends(chunks, s.text, stopState.text, emitted, end);
        if end > emitted {
          var chunk := stopState.text[emitted..end];
          Forward(chunk);
          emitted := end;
        }
      }
    }
  }

  lemma TextOnlyGrows(s: SS.Stop, stops: seq<Str>, fragment: Str)
    ensures s.text <= SS.PushText(s, stops, fragment).text
  {
  }

  lemma FinalWithin(s: SS.Stop, stops: seq<Str>, t: Str)
    requires SS.Inv(s, stops, t)
    ensures SS.FinalLen(s, stops) <= |s.text| && s.text <= t && SS.Finish(s, stops).text == s.text
    ensures s.matched.None? ==>
              && s.text == t
              && SS.FinalLen(s.(stopped := true), stops) == |t|
              && SS.Finish(s.(stopped := true), stops).text == t
  {
  }

  /** Where the flush leaves the stop machine. */
  lemma FlushShape(vocab: SD.Vocab, stops: seq<Str>, ids: seq<Token>, eos: bool)
    requires eos ==> Stopped(vocab, stops, ids).matched.None?
    ensures
      var s, f := Stopped(vocab, stops, ids), Flushed(vocab, stops, ids);
      && s.text <= f.text && f.text <= SD.Text(vocab, ids)
      && SS.SafeLen(s, stops) <= CutOf(vocab, stops, ids) == SS.FinalLen(f, stops) <= |f.text|
      && SS.Finish(f, stops).text == f.text
      && SS.SafeLen(s, stops) <= |s.text|
      && (eos ==>
          && s.text == Concat(SD.PushAll(vocab, ids).1)
          && SS.FinalLen(s.(stopped := true), stops) == |s.text|
          && SS.Finish(s.(stopped := true), stops).text == s.text)
  {
    hide *;
    InvsOf(vocab, stops, ids);
    var s, f := Stopped(vocab, stops, ids), Flushed(vocab, stops, ids);
    var pieces := SD.PushAll(vocab, ids).1;
    FinalWithin(s, stops, Concat(pieces));
    FinalWithin(f, stops, Concat(SD.Streamed(vocab, ids)));
    SD.StreamedIsDecoded(vocab, ids);
    FlushedNext(vocab, stops, ids);
    TextOnlyGrows(s, stops, SD.Piece(SD.Finish(SD.PushAll(vocab, ids).0, SD.Lossy(vocab)).1));
    SafeWithin(vocab, stops, ids);
  }

  lemma InvsOf(vocab: SD.Vocab, stops: seq<Str>, ids: seq<Token>)
    ensures SS.Inv(Stopped(vocab, stops, ids), stops, Concat(SD.PushAll(vocab, ids).1))
    ensures SS.Inv(Flushed(vocab, stops, ids), stops, Concat(SD.Streamed(vocab, ids)))
  {
    SS.PushAllKeeps(stops, SD.PushAll(vocab, ids).1);
    SS.PushAllKeeps(stops, SD.Streamed(vocab, ids));
  }

  lemma PushWhenStopped(s: SS.Stop, stops: seq<Str>, fragment: Str)
    ensures s.stopped ==> SS.PushText(s, stops, fragment) == s
  {
  }

  lemma FinishFails(d: SD.Decoder, decode: SD.DecodeFn)
    ensures SD.Finish(d, decode).1.Failed? <==> decode(d.ids).None?
    ensures SD.Finish(d, decode).0.ids == d.ids
  {
  }

  lemma SameFinish(vocab: SD.Vocab, d: SD.Decoder, decode: SD.DecodeFn)
    requires decode(d.ids) == Some(SD.Text(vocab, d.ids))
    ensures SD.Finish(d, decode) == SD.Finish(d, SD.Lossy(vocab))
  {
  }

  lemma PushFails(d: SD.Decoder, id: Token, decode: SD.DecodeFn)
    ensures SD.Push(d, id, decode).1.Failed? <==> decode(d.ids + [id]).None?
    ensures SD.Push(d, id, decode).0.ids == d.ids + [id]
  {
  }

  lemma SamePush(vocab: SD.Vocab, d: SD.Decoder, id: Token, decode: SD.DecodeFn)
    requires decode(d.ids + [id]) == Some(SD.Text(vocab, d.ids + [id]))
    ensures SD.Push(d, id, decode) == SD.Push(d, id, SD.Lossy(vocab))
  {
  }

  lemma NoPiece(s: SS.Stop, stops: seq<Str>)
    ensures SS.PushText(s, stops, []) == s
  {
  }

  predicate EndsWithEos(events: seq<GenEvent>) {
    Ending(events).Some? && Ending(events).value.Token?
  }

  predicate EndsWithFailure(events: seq<GenEvent>) {
    Ending(events).Some? && Ending(events).value.Failed?
  }

  /** A stop string was found while tokens were still arriving. */
  ghost predicate HitBeforeEnd(vocab: SD.Vocab, stops: seq<Str>, ids: seq<Token>) {
    Stopped(vocab, stops, ids).matched.Some?
  }

  ghost function ReasonOf(vocab: SD.Vocab, stops: seq<Str>, events: seq<GenEvent>): FinishReason {
    var end := Ending(events);
    if HitBeforeEnd(vocab, stops, Ids(events)) || EndsWithEos(events) then Stop
    else if end.Some? && end.value.Done? then end.value.reason
    else Cancelled
  }

  /** Why the event loop ended. */
  datatype Exit =
    | EventsClosed | EosToken | StopHit | DoneEvent(reason: FinishReason) | FailedEvent | DecodeError | ClientGone

  /** What is shown, when the decoder may have failed. */
  ghost predicate Shown(vocab: SD.Vocab, stops: seq<Str>, ids: seq<Token>, emitted: nat, text: Str, chunks: seq<Str>) {
    var s := Stopped(vocab, stops, ids);
    text == s.text && emitted == SS.SafeLen(s, stops) <= |text| && Concat(chunks) == text[..emitted]
  }

  // ---- what a run comes to, from its inputs alone ----

  /** Bytes that may be shown after `ids`. */
  ghost function Safe(vocab: SD.Vocab, stops: seq<Str>, ids: seq<Token>): nat {
    SS.SafeLen(Stopped(vocab, stops, ids), stops)
  }

  ghost function SafeText(vocab: SD.Vocab, stops: seq<Str>, ids: seq<Token>): Str {
    SafeWithin(vocab, stops, ids);
    Stopped(vocab, stops, ids).text[..Safe(vocab, stops, ids)]
  }

  /** Chunks handed on for `ids`: one for each token that lets more be shown. */
  ghost function Sent(vocab: SD.Vocab, stops: seq<Str>, ids: seq<Token>): nat {
    if ids == [] then 0
    else
      var front := ids[..|ids| - 1];
      Sent(vocab, stops, front) + if Safe(vocab, stops, ids) > Safe(vocab, stops, front) then 1 else 0
  }

  /** The client does not take what the last token of `ids` lets be shown. */
  ghost predicate Refused(vocab: SD.Vocab, stops: seq<Str>, ids: seq<Token>, accept: nat -> bool)
    requires ids != []
  {
    && Safe(vocab, stops, ids) > Safe(vocab, stops, ids[..|ids| - 1])
    && !accept(Sent(vocab, stops, ids))
  }

  /** The loop goes on behind the last token of `ids`: it was decoded, its text taken, and
      no stop string is complete. */
  ghost predicate Passes(vocab: SD.Vocab, stops: seq<Str>, ids: seq<Token>, broken: nat -> bool, accept: nat -> bool)
    requires ids != []
  {
    && !broken(|ids| - 1)
    && !Refused(vocab, stops, ids, accept)
    && Stopped(vocab, stops, ids).matched.None?
  }

  /** The loop goes on behind exactly the first `n` content tokens. */
  ghost predicate LoopEnd(vocab: SD.Vocab, stops: seq<Str>, ids: seq<Token>, broken: nat -> bool, accept: nat -> bool,
                          n: nat)
  {
    && n <= |ids|
    && (forall j :: 0 < j <= n ==> Passes(vocab, stops, ids[..j], broken, accept))
    && (n < |ids| ==> !Passes(vocab, stops, ids[..n + 1], broken, accept))
  }

  /** How the exit relates to the events and the tokens `taken` before it. */
  ghost predicate ExitMatches(vocab: SD.Vocab, stops: seq<Str>, exit: Exit, events: seq<GenEvent>, taken: seq<Token>,
                              broken: nat -> bool, accept: nat -> bool, n: nat)
  {
    var ids := Ids(events);
    && LoopEnd(vocab, stops, ids, broken, accept, n)
    && (if n == |ids| then taken == ids
        else if broken(n) then taken == ids[..n] else taken == ids[..n + 1])
    && exit ==
       if n < |ids| then
         if broken(n) then DecodeError
         else if Refused(vocab, stops, ids[..n + 1], accept) then ClientGone
         else StopHit
       else
         match Ending(events)
         case None => EventsClosed
         case Some(Token(_)) => EosToken
         case Some(Done(why, _)) => DoneEvent(why)
         case Some(Failed(_)) => FailedEvent
  }

  lemma IdsStep(events: seq<GenEvent>, i: nat)
    requires i < |events|
    ensures
      var e := events[i];
      && (e.Token? && !IsEos(e.id) ==>
           Ids(events[i..]) == [e.id] + Ids(events[i + 1..]) && Ending(events[i..]) == Ending(events[i + 1..]))
      && (!(e.Token? && !IsEos(e.id)) ==> Ids(events[i..]) == [] && Ending(events[i..]) == Some(e))
  {
    assert events[i..][0] == events[i] && events[i..][1..] == events[i + 1..];
  }

  ghost predicate Running(pl: Pipeline, taken: seq<Token>)
    reads pl, pl.stopState, pl.decoder, pl.parser
  {
    && pl.Valid() && pl.TiedTo(taken) && pl.stopState.matched.None? && !pl.stopState.stopped
    && |pl.chunks| == Sent(pl.vocab, pl.stops, taken) && pl.decoder.ids == taken
  }

  ghost predicate AfterLoop(pl: Pipeline, exit: Exit, taken: seq<Token>)
    reads pl, pl.stopState, pl.decoder, pl.parser
  {
    && pl.Valid()
    && Shown(pl.vocab, pl.stops, taken, pl.emitted, pl.stopState.text, pl.chunks)
    && pl.stopState.matched == Stopped(pl.vocab, pl.stops, taken).matched
    && (exit != DecodeError ==> pl.AtEnd(taken, exit == EosToken))
    && |pl.chunks| == Sent(pl.vocab, pl.stops, taken)
    && |pl.decoder.ids| == |taken| + if exit == DecodeError then 1 else 0
  }

  /** One token event; `None` keeps the loop going. */
  method TakeTokenEvent(pl: Pipeline, id: Token, broken: bool, accept: nat -> bool, ghost taken: seq<Token>)
    returns (exit: Option<Exit>)
    requires Running(pl, taken)
    modifies pl, pl.stopState, pl.decoder, pl.parser
    ensures exit == None ==> !IsEos(id) && !broken && Running(pl, taken + [id])
    ensures exit == None ==> !Refused(pl.vocab, pl.stops, taken + [id], accept)
    ensures exit.Some? ==>
              AfterLoop(pl, exit.value,
                        if exit.value == EosToken || exit.value == DecodeError then taken else taken + [id])
    ensures exit.Some? ==>
      match exit.value
      case EosToken => IsEos(id) && pl.stopState.matched.None?
      case DecodeError => !IsEos(id) && broken && pl.stopState.matched.None?
      case ClientGone => !IsEos(id) && !broken && Refused(pl.vocab, pl.stops, taken + [id], accept)
      case StopHit =>
        && !IsEos(id) && !broken && pl.stopState.matched.Some?
        && !Refused(pl.vocab, pl.stops, taken + [id], accept)
      case _ => false
  {
    hide TC.Pushes, Tied, Shown, Stopped;
    SentNext(pl.vocab, pl.stops, taken, id);
    TiedShows(pl.vocab, pl.stops, taken, pl.decoder.View(), pl.stopState.View(), pl.emitted, pl.chunks);
    var stopToken := pl.stopState.CheckToken(id);
    if stopToken.Some? {
      return Some(EosToken);
    }
    var sent := |pl.chunks|;
    var error, hit := pl.TakeToken(id, broken, taken);
    if error {
      return Some(DecodeError);
    }
    TiedShows(pl.vocab, pl.stops, taken + [id], pl.decoder.View(), pl.stopState.View(), pl.emitted, pl.chunks);
    if |pl.chunks| > sent && !accept(|pl.chunks|) {
      return Some(ClientGone);
    }
    if hit {
      return Some(StopHit);
    }
    exit := None;
  }

  /** The loop before event `i`. */
  ghost predicate Before(events: seq<GenEvent>, i: nat, taken: seq<Token>, vocab: SD.Vocab, stops: seq<Str>,
                         broken: nat -> bool, accept: nat -> bool)
  {
    && i <= |events|
    && taken + Ids(events[i..]) == Ids(events) && Ending(events[i..]) == Ending(events)
    && forall j :: 0 < j <= |taken| ==> Passes(vocab, stops, taken[..j], broken, accept)
  }

  /** One event; `None` keeps the loop going. `calls` counts the decode calls so far. */
  method TakeEvent(pl: Pipeline, events: seq<GenEvent>, i: nat, calls: nat, broken: nat -> bool, accept: nat -> bool,
                   ghost taken: seq<Token>)
    returns (exit: Option<Exit>, ghost taken2: seq<Token>)
    requires Running(pl, taken) && Before(events, i, taken, pl.vocab, pl.stops, broken, accept)
    requires i < |events| && calls == |taken|
    modifies pl, pl.stopState, pl.decoder, pl.parser
    ensures exit == None ==>
              && Running(pl, taken2) && Before(events, i + 1, taken2, pl.vocab, pl.stops, broken, accept)
              && |taken2| == calls + 1
    ensures exit.Some? ==>
              && AfterLoop(pl, exit.value, taken2)
              && ExitMatches(pl.vocab, pl.stops, exit.value, events, taken2, broken, accept, |taken|)
              && |taken2| == calls + if exit.value == ClientGone || exit.value == StopHit then 1 else 0
  {
    hide TC.Pushes, Tied, Shown, Stopped, Ids, Ending, Refused, Sent, LoopEnd, Running;
    var event := events[i];
    IdsStep(events, i);
    taken2 := taken;
    LoopEndsHere(pl.vocab, pl.stops, Ids(events), taken, broken, accept);
    if event.Token? {
      exit := TakeTokenEvent(pl, event.id, broken(calls), accept, taken);
      TakenNext(taken, event.id, Ids(events[i + 1..]), Ids(events));
      if exit.None? || exit.value == ClientGone || exit.value == StopHit {
        taken2 := taken + [event.id];
      }
      if exit.None? {
        RunningFacts(pl, taken2);
        PassesNext(pl.vocab, pl.stops, taken, event.id, broken, accept);
      }
    } else {
      RunningFacts(pl, taken);
      exit := Some(if event.Done? then DoneEvent(event.reason) else FailedEvent);
      TakenNext(taken, 0, [], Ids(events));
    }
  }

  lemma RunningFacts(pl: Pipeline, taken: seq<Token>)
    requires Running(pl, taken)
    ensures Stopped(pl.vocab, pl.stops, taken).matched.None?
    ensures forall exit :: exit != EosToken && exit != DecodeError ==> AfterLoop(pl, exit, taken)
  {
    hide Tied, Shown, Stopped, Sent, TC.Pushes;
    TiedShows(pl.vocab, pl.stops, taken, pl.decoder.View(), pl.stopState.View(), pl.emitted, pl.chunks);
  }

  /** The event loop. */
  method Consume(pl: Pipeline, events: seq<GenEvent>, broken: nat -> bool, accept: nat -> bool)
    returns (exit: Exit, calls: nat, ghost taken: seq<Token>, ghost n: nat)
    requires Running(pl, [])
    modifies pl, pl.stopState, pl.decoder, pl.parser
    ensures AfterLoop(pl, exit, taken) && calls == |taken|
    ensures ExitMatches(pl.vocab, pl.stops, exit, events, taken, broken, accept, n)
  {
    hide Ids, Ending, Passes, Running, AfterLoop, LoopEnd;
    taken := [];
    calls := 0;
    var i := 0;
    assert events[0..] == events;
    while i < |events|
      invariant Running(pl, taken) && calls == |taken|
      invariant Before(events, i, taken, pl.vocab, pl.stops, broken, accept)
    {
      n := calls;
      var stop;
      stop, taken := TakeEvent(pl, events, i, calls, broken, accept, taken);
      i := i + 1;
      calls := calls + if stop.None? || stop.value == ClientGone || stop.value == StopHit then 1 else 0;
      if stop.Some? {
        return stop.value, calls, taken, n;
      }
    }
    n := calls;
    LoopEndsHere(pl.vocab, pl.stops, Ids(events), taken, broken, accept);
    NoEvents();
    assert events[i..] == [];
    RunningFacts(pl, taken);
    TakenNext(taken, 0, [], Ids(events));
    exit := EventsClosed;
  }

  lemma SentNext(vocab: SD.Vocab, stops: seq<Str>, ids: seq<Token>, id: Token)
    ensures
      var more := ids + [id];
      && more[..|more| - 1] == ids
      && Sent(vocab, stops, more) ==
         Sent(vocab, stops, ids) + if Safe(vocab, stops, more) > Safe(vocab, stops, ids) then 1 else 0
  {
    hide Safe;
    assert (ids + [id])[..|ids|] == ids;
  }

  lemma TakenNext(taken: seq<Token>, id: Token, rest: seq<Token>, all: seq<Token>)
    ensures
      && (taken + ([id] + rest) == all ==>
          && (taken + [id]) + rest == all && |taken| < |all|
          && all[..|taken|] == taken && all[..|taken| + 1] == taken + [id])
      && (taken + [] == all ==> taken == all)
  {
    assert taken + ([id] + rest) == (taken + [id]) + rest;
    if taken + ([id] + rest) == all {
      assert all[..|taken|] == taken;
      assert all[..|taken| + 1] == taken + [id];
    }
  }

  lemma LoopEndsHere(vocab: SD.Vocab, stops: seq<Str>, ids: seq<Token>, taken: seq<Token>, broken: nat -> bool,
                     accept: nat -> bool)
    requires forall j :: 0 < j <= |taken| ==> Passes(vocab, stops, taken[..j], broken, accept)
    ensures taken == ids ==> LoopEnd(vocab, stops, ids, broken, accept, |taken|)
    ensures taken <= ids && |taken| < |ids| && !Passes(vocab, stops, ids[..|taken| + 1], broken, accept) ==>
              LoopEnd(vocab, stops, ids, broken, accept, |taken|)
  {
    hide Passes;
    if taken <= ids {
      forall j | 0 < j <= |taken| ensures Passes(vocab, stops, ids[..j], broken, accept) {
        assert ids[..j] == taken[..j];
      }
    }
  }

  lemma PassesNext(vocab: SD.Vocab, stops: seq<Str>, taken: seq<Token>, id: Token, broken: nat -> bool,
                   accept: nat -> bool)
    requires forall j :: 0 < j <= |taken| ==> Passes(vocab, stops, taken[..j], broken, accept)
    requires Passes(vocab, stops, taken + [id], broken, accept)
    ensures forall j :: 0 < j <= |taken| + 1 ==> Passes(vocab, stops, (taken + [id])[..j], broken, accept)
  {
    hide Passes;
    forall j | 0 < j <= |taken| + 1 ensures Passes(vocab, stops, (taken + [id])[..j], broken, accept) {
      if j <= |taken| {
        assert (taken + [id])[..j] == taken[..j];
      } else {
        assert (taken + [id])[..j] == taken + [id];
      }
    }
  }

  lemma TiedShows(vocab: SD.Vocab, stops: seq<Str>, ids: seq<Token>,
                  decoder: SD.Decoder, stop: SS.Stop, emitted: nat, chunks: seq<Str>)
    requires Tied(vocab, stops, ids, decoder, stop, emitted, chunks)
    ensures Shown(vocab, stops, ids, emitted, stop.text, chunks) && emitted == Safe(vocab, stops, ids)
    ensures stop == Stopped(vocab, stops, ids) && stop.stopped == stop.matched.Some?
  {
    hide SD.PushAll, Concat, SS.SafeLen;
    SS.PushAllKeeps(stops, SD.PushAll(vocab, ids).1);
  }

  lemma NoEvents()
    ensures Ids([]) == [] && Ending([]) == None
  {
  }

  lemma ClientTextWhenMatched(vocab: SD.Vocab, stops: seq<Str>, ids: seq<Token>, all: seq<Token>)
    requires ids <= all && Stopped(vocab, stops, ids).matched.Some?
    ensures ClientText(vocab, stops, all) == ClientText(vocab, stops, ids)
    ensures HitBeforeEnd(vocab, stops, all)
  {
    hide SD.PushAll, SD.Streamed, Concat, SS.Cut;
    MatchedStays(vocab, stops, ids, all);
    MatchedStays(vocab, stops, ids, ids);
    FlushShape(vocab, stops, ids, false);
    FlushShape(vocab, stops, all, false);
    var s, n := Stopped(vocab, stops, ids), CutOf(vocab, stops, ids);
    assert ClientText(vocab, stops, ids) == s.text[..n];
    assert ClientText(vocab, stops, all) == s.text[..n];
  }

  /** The tokens decoded in a loop that goes on behind `n` of them. */
  function Fed(ids: seq<Token>, broken: nat -> bool, n: nat): seq<Token>
    requires n <= |ids|
  {
    if n < |ids| && !broken(n) then ids[..n + 1] else ids[..n]
  }

  /** The loop ended in a failure: of a decode call, or the one the events report. */
  ghost predicate LoopFails(events: seq<GenEvent>, broken: nat -> bool, n: nat) {
    if n < |Ids(events)| then broken(n) else EndsWithFailure(events)
  }

  /** The loop ended because the client did not take a chunk. */
  ghost predicate LoopRefused(vocab: SD.Vocab, stops: seq<Str>, events: seq<GenEvent>, broken: nat -> bool,
                              accept: nat -> bool, n: nat)
  {
    n < |Ids(events)| && !broken(n) && Refused(vocab, stops, Ids(events)[..n + 1], accept)
  }

  /** What the final flush shows. */
  ghost function FlushedText(vocab: SD.Vocab, stops: seq<Str>, events: seq<GenEvent>, broken: nat -> bool, n: nat): Str
    requires n <= |Ids(events)|
  {
    var fed := Fed(Ids(events), broken, n);
    if n == |Ids(events)|
        && EndsWithEos(events) then Concat(SD.PushAll(vocab, fed).1) else ClientText(vocab, stops, fed)
  }

  /** The whole outcome of a run whose loop goes on behind exactly the first `n` tokens,
      where `broken(k)` says that the k-th decode call fails and `accept(k)` that the client
      takes the k-th chunk. After a loop that neither failed nor lost its client there is a
      final flush, a decode call of its own, which may fail, and may make a last chunk. */
  ghost predicate Outcome(vocab: SD.Vocab, stops: seq<Str>, events: seq<GenEvent>, broken: nat -> bool,
                          accept: nat -> bool, n: nat, r: GenResult, said: seq<TC.Event>)
    requires n <= |Ids(events)|
  {
    var ids, fed := Ids(events), Fed(Ids(events), broken, n);
    var fails, refused := LoopFails(events, broken, n), LoopRefused(vocab, stops, events, broken, accept, n);
    var flushes := !fails && !refused;
    var done := flushes && !broken(|fed|);
    var last := done && |r.content| > Safe(vocab, stops, fed);
    && (r.error <==> fails || (flushes && broken(|fed|)))
    && r.completionTokens == (if n < |ids| then n + 1 else n)
    && r.reason == (if r.error then Error
                    else if n < |ids| then if refused then Cancelled else Stop
                    else
                      match Ending(events)
                      case Some(Token(_)) => Stop
                      case Some(Done(why, _)) => why
                      case _ => Cancelled)
    && r.content == (if done then FlushedText(vocab, stops, events, broken, n)
                     else SafeText(vocab, stops, fed))
    && |r.chunks| == Sent(vocab, stops, fed) + (if last then 1 else 0)
    && (r.clientGone <==> refused || (last && !accept(|r.chunks|)))
    && Concat(r.chunks) == r.content
    && (if done && !r.clientGone
        then r.calls == TC.Parsed(r.chunks).p.calls && TC.Flat(said) == TC.Parsed(r.chunks).atoms
        else r.calls == TC.Pushes(TC.Init, r.chunks).p.calls && said == TC.Pushes(TC.Init, r.chunks).events)
  }

  /** What the final flush leaves after a loop that ended with `exit`, having decoded `fed`. */
  ghost predicate Flushes(vocab: SD.Vocab, stops: seq<Str>, exit: Exit, fed: seq<Token>, broken: nat -> bool,
                          accept: nat -> bool, failed: bool, gone: bool, chunks: seq<Str>, content: Str)
  {
    var flushes := exit != FailedEvent && exit != DecodeError && exit != ClientGone;
    var done := flushes && !broken(|fed|);
    var last := done && |content| > Safe(vocab, stops, fed);
    && (failed <==> exit == FailedEvent || exit == DecodeError || (flushes && broken(|fed|)))
    && content == (if !done then SafeText(vocab, stops, fed)
                   else if exit == EosToken then Concat(SD.PushAll(vocab, fed).1) else ClientText(vocab, stops, fed))
    && |chunks| == Sent(vocab, stops, fed) + (if last then 1 else 0)
    && (gone <==> exit == ClientGone || (last && !accept(|chunks|)))
    && Concat(chunks) == content
  }

  /** The final flush, unless the loop failed or lost its client. */
  method Conclude(pl: Pipeline, exit: Exit, calls: nat, broken: nat -> bool, accept: nat -> bool,
      ghost taken: seq<Token>)
    returns (failed: bool, gone: bool, ghost said: seq<TC.Event>)
    requires AfterLoop(pl, exit, taken) && calls == |taken|
    modifies pl, pl.stopState, pl.decoder, pl.parser
    ensures pl.emitted <= |pl.stopState.text| && pl.decoder.ids == old(pl.decoder.ids)
    ensures Flushes(pl.vocab, pl.stops, exit, taken, broken, accept, failed, gone, pl.chunks,
                    pl.stopState.text[..pl.emitted])
    ensures !failed && !gone ==>
              pl.parser.calls == TC.Parsed(pl.chunks).p.calls && TC.Flat(said) == TC.Parsed(pl.chunks).atoms
    ensures failed || gone ==>
              && pl.parser.calls == TC.Pushes(TC.Init, pl.chunks).p.calls
              && said == TC.Pushes(TC.Init, pl.chunks).events
  {
    hide TC.Pushes, TC.Finish, TC.Flat, Tied, Stopped, SD.PushAll, Concat, Sent, ClientText, CutOf;
    failed := exit == FailedEvent || exit == DecodeError;
    gone := exit == ClientGone;
    said := pl.said;
    if !failed && !gone {
      var sent := |pl.chunks|;
      failed := pl.Flush(broken(calls), taken, exit == EosToken);
      gone := |pl.chunks| > sent && !accept(|pl.chunks|);
      said := pl.said;
      if !failed && !gone {
        var events := pl.parser.Finish();
        said := said + events;
      }
    }
  }

  lemma FlushesOutcome(vocab: SD.Vocab, stops: seq<Str>, events: seq<GenEvent>, broken: nat -> bool,
                       accept: nat -> bool, n: nat, exit: Exit, taken: seq<Token>, r: GenResult, said: seq<TC.Event>)
    requires ExitMatches(vocab, stops, exit, events, taken, broken, accept, n)
    requires Flushes(vocab, stops, exit, taken, broken, accept, r.error, r.clientGone, r.chunks, r.content)
    requires r.completionTokens == |taken| + if exit == DecodeError then 1 else 0
    requires r.reason == ReasonAt(exit, r.error)
    requires if !r.error && !r.clientGone
             then r.calls == TC.Parsed(r.chunks).p.calls && TC.Flat(said) == TC.Parsed(r.chunks).atoms
             else r.calls == TC.Pushes(TC.Init, r.chunks).p.calls && said == TC.Pushes(TC.Init, r.chunks).events
    ensures LoopEnd(vocab, stops, Ids(events), broken, accept, n)
    ensures n <= |Ids(events)| && Outcome(vocab, stops, events, broken, accept, n, r, said)
  {
    hide TC.Pushes, TC.Parsed, TC.Flat, SD.PushAll, Concat, Sent, Refused, Ids, Ending, ClientText, SafeText, Safe,
         LoopEnd;
    assert n <= |Ids(events)| by { LoopEndWithin(vocab, stops, Ids(events), broken, accept, n); }
    var ids := Ids(events);
    assert ids[..|ids|] == ids;
    assert Fed(ids, broken, n) == taken;
  }

  lemma LoopEndWithin(vocab: SD.Vocab, stops: seq<Str>, ids: seq<Token>, broken: nat -> bool, accept: nat -> bool,
      n: nat)
    requires LoopEnd(vocab, stops, ids, broken, accept, n)
    ensures n <= |ids|
  {
  }

  function ReasonAt(exit: Exit, failed: bool): FinishReason {
    if failed then Error
    else match exit
      case EosToken => Stop
      case StopHit => Stop
      case DoneEvent(why) => why
      case _ => Cancelled
  }

  method RunGeneration(vocab: SD.Vocab, stops: seq<Str>, events: seq<GenEvent>,
                       broken: nat -> bool, accept: nat -> bool)
    returns (r: GenResult, ghost said: seq<TC.Event>, ghost n: nat)
    ensures LoopEnd(vocab, stops, Ids(events), broken, accept, n)
    ensures Outcome(vocab, stops, events, broken, accept, n, r, said)
    // whatever happens, what was shown is the start of the client's text
    ensures r.content == Concat(r.chunks)
    ensures !EndsWithEos(events) ==> r.content <= ClientText(vocab, stops, Ids(events))
    // with a live client and no failure it is all of it, each byte once and in order,
    // and the parser ends as for any cut of that text
    ensures (forall k :: !broken(k) && accept(k)) && !EndsWithFailure(events) ==>
              && !r.error && !r.clientGone
              && r.reason == ReasonOf(vocab, stops, events)
              && r.calls == TC.Parsed(r.chunks).p.calls && TC.Flat(said) == TC.Parsed(r.chunks).atoms
              && r.content == ContentOf(vocab, stops, events)
              && (!HitBeforeEnd(vocab, stops, Ids(events)) ==> r.completionTokens == |Ids(events)|)
  {
    hide TC.Pushes, TC.Finish, TC.Flat, Tied, Stopped, SD.PushAll, Concat, ClientText, Ids, Ending;
    hide LoopEnd, Outcome, Flushes, ExitMatches, Shown, Sent;
    var pl := new Pipeline(vocab, stops);
    var exit, calls;
    ghost var taken;
    assert Sent(vocab, stops, []) == 0 by { NothingSent(vocab, stops); }
    exit, calls, taken, n := Consume(pl, events, broken, accept);
    var failed, gone;
    failed, gone, said := Conclude(pl, exit, calls, broken, accept, taken);
    r := GenResult(pl.chunks, pl.stopState.text[..pl.emitted], pl.parser.calls, ReasonAt(exit, failed),
                   |pl.decoder.ids|, failed, gone);
    FlushesOutcome(vocab, stops, events, broken, accept, n, exit, taken, r, said);
    OutcomeMeans(vocab, stops, events, broken, accept, n, r, said);
    if (forall k :: !broken(k) && accept(k)) && !EndsWithFailure(events) {
      Undisturbed(vocab, stops, events, broken, accept, n, r, said);
    }
  }

  lemma NothingSent(vocab: SD.Vocab, stops: seq<Str>)
    ensures Sent(vocab, stops, []) == 0
  {
  }

  /** Where the loop ended before its last token without a failure, a stop string is
      complete; where it took all tokens, none is. */
  lemma WhereItEnds(vocab: SD.Vocab, stops: seq<Str>, ids: seq<Token>, broken: nat -> bool, accept: nat -> bool, n: nat)
    requires LoopEnd(vocab, stops, ids, broken, accept, n)
    ensures n <= |ids|
    ensures
      var fed := Fed(ids, broken, n);
      && fed <= ids
      && (n < |ids| && !broken(n) && !Refused(vocab, stops, ids[..n + 1], accept) ==>
            Stopped(vocab, stops, fed).matched.Some?)
      && (n == |ids| ==> fed == ids && Stopped(vocab, stops, ids).matched.None?)
  {
    hide Refused, Stopped;
    assert ids[..|ids|] == ids;
    if n == |ids| {
      assert ids != [] ==> Passes(vocab, stops, ids[..n], broken, accept);
      if ids == [] {
        NothingStopped(vocab, stops);
      }
    }
  }

  lemma NothingStopped(vocab: SD.Vocab, stops: seq<Str>)
    ensures Stopped(vocab, stops, []).matched.None?
  {
    StartStopped(vocab, stops);
  }

  /** What follows for the client. */
  lemma OutcomeMeans(vocab: SD.Vocab, stops: seq<Str>, events: seq<GenEvent>, broken: nat -> bool,
                     accept: nat -> bool, n: nat, r: GenResult, said: seq<TC.Event>)
    requires LoopEnd(vocab, stops, Ids(events), broken, accept, n)
    requires Outcome(vocab, stops, events, broken, accept, n, r, said)
    ensures r.content == Concat(r.chunks)
    ensures !EndsWithEos(events) ==> r.content <= ClientText(vocab, stops, Ids(events))
    ensures r.error ==> r.reason == Error
    ensures r.reason == Error ==>
              r.error || (n == |Ids(events)| && Ending(events).Some? && Ending(events).value.Done?
                          && Ending(events).value.reason == Error)
  {
    hide TC.Pushes, TC.Parsed, TC.Flat, SD.PushAll, Concat, Sent, Ids, Ending, ClientText, LoopEnd, Refused, Stopped;
    var ids := Ids(events);
    WhereItEnds(vocab, stops, ids, broken, accept, n);
    var fed := Fed(ids, broken, n);
    SafeIsPrefix(vocab, stops, fed, ids);
    if Stopped(vocab, stops, fed).matched.Some? {
      ClientTextWhenMatched(vocab, stops, fed, ids);
    }
    hide Fed, Safe, SafeText;
  }

  lemma SafeIsPrefix(vocab: SD.Vocab, stops: seq<Str>, ids: seq<Token>, all: seq<Token>)
    requires ids <= all
    ensures SafeText(vocab, stops, ids) <= ClientText(vocab, stops, all)
  {
    hide Stopped, ClientText, SS.SafeLen;
    ShownIsPrefix(vocab, stops, ids, all);
  }

  lemma Undisturbed(vocab: SD.Vocab, stops: seq<Str>, events: seq<GenEvent>, broken: nat -> bool,
                    accept: nat -> bool, n: nat, r: GenResult, said: seq<TC.Event>)
    requires LoopEnd(vocab, stops, Ids(events), broken, accept, n)
    requires Outcome(vocab, stops, events, broken, accept, n, r, said)
    requires (forall k :: !broken(k) && accept(k)) && !EndsWithFailure(events)
    ensures !r.error && !r.clientGone && r.reason == ReasonOf(vocab, stops, events)
    ensures r.calls == TC.Parsed(r.chunks).p.calls && TC.Flat(said) == TC.Parsed(r.chunks).atoms
    ensures r.content == ContentOf(vocab, stops, events)
    ensures !HitBeforeEnd(vocab, stops, Ids(events)) ==> r.completionTokens == |Ids(events)|
  {
    hide TC.Pushes, TC.Parsed, TC.Flat, SD.PushAll, Concat, Sent, Ids, Ending, ClientText, LoopEnd, Stopped, Safe,
         SafeText;
    var ids := Ids(events);
    WhereItEnds(vocab, stops, ids, broken, accept, n);
    var fed := Fed(ids, broken, n);
    if n < |ids| {
      ClientTextWhenMatched(vocab, stops, fed, ids);
    }
  }

  // ---- little is held back while streaming ----

  lemma {:induction false} EncodedWhole(cs: seq<nat>)
    requires UL.Scalars(cs)
    ensures SS.WellFormed(UL.Encoded(cs))
    decreases |cs|
  {
    hide SS.WellFormed, UL.Encode;
    if cs == [] {
      EmptyWhole();
    } else {
      EncodedWhole(cs[1..]);
      WholeNext(cs[0], UL.Encoded(cs[1..]));
    }
  }

  lemma EmptyWhole()
    ensures SS.WellFormed([])
  {
  }

  lemma WholeNext(c: nat, rest: Str)
    requires UL.Scalar(c) && SS.WellFormed(rest)
    ensures SS.WellFormed(UL.Encode(c) + rest)
  {
    hide UL.Encode;
    UL.EncodeFits(c);
    var e := UL.Encode(c);
    assert (e + rest)[|e|..] == rest;
    assert forall j :: 0 <= j < |e| ==> (e + rest)[j] == e[j];
  }

  /** As long as no stop string is complete, what the client may be shown falls short of
      the decoded text by less than the longest stop string and a character, and by a
      U+FFFD at its end; without stop strings by that alone. */
  lemma ShownSoon(vocab: SD.Vocab, stops: seq<Str>, ids: seq<Token>, longest: nat)
    requires Stopped(vocab, stops, ids).matched.None? && forall p :: p in stops ==> |p| <= longest
    ensures
      var text := SD.Text(vocab, ids);
      |text| <= Safe(vocab, stops, ids) + (if longest == 0 then 0 else longest - 1 + 3)
                + (if SD.EndsInReplacement(text) then 3 else 0)
  {
    hide SD.PushAll, SS.WellFormed, SD.EndsInReplacement, Concat, SD.Bytes, Utf8.Decode;
    InvsOf(vocab, stops, ids);
    SD.HeldBack(vocab, ids);
    var text, out := SD.Text(vocab, ids), Stopped(vocab, stops, ids).text;
    assert out <= text;
    var cs := UL.DecodeIsValid(SD.Bytes(vocab, ids));
    EncodedWhole(cs);
    SS.SafeIsLongest(out, stops);
    SS.LittleHeldBack(text, out, stops, Safe(vocab, stops, ids), longest);
  }

  /** What the client is shown when all goes well. */
  ghost function ContentOf(vocab: SD.Vocab, stops: seq<Str>, events: seq<GenEvent>): Str {
    if EndsWithEos(events) && !HitBeforeEnd(vocab, stops, Ids(events))
    then Concat(SD.PushAll(vocab, Ids(events)).1)
    else ClientText(vocab, stops, Ids(events))
  }

  /** When an eos token ends the stream, the flush is ignored and a withheld U+FFFD is
      lost. The client then sees its whole text exactly if the decoded text does not end
      in U+FFFD, or a stop string occurs before that character, or the first one starts
      right at it. */
  lemma EosKeepsText(vocab: SD.Vocab, stops: seq<Str>, events: seq<GenEvent>)
    requires EndsWithEos(events)
    ensures
      var text := SD.Text(vocab, Ids(events));
      ContentOf(vocab, stops, events) == ClientText(vocab, stops, Ids(events)) <==>
        || !SD.EndsInReplacement(text)
        || SS.FirstMatch(text[..|text| - 3], stops, 0).Some?
        || SS.FirstMatch(text, stops, 0) == Some(|text| - 3)
  {
    hide SD.PushAll, SD.Streamed, Concat, SD.Finish, SD.Text, SS.Cut, Ids, Ending, SS.FirstMatch, Stopped,
         SD.EndsInReplacement;
    var ids := Ids(events);
    var text := SD.Text(vocab, ids);
    SD.HeldBack(vocab, ids);
    InvsOf(vocab, stops, ids);
    if !SD.EndsInReplacement(text) {
      if !HitBeforeEnd(vocab, stops, ids) {
        NothingWithheld(vocab, stops, ids);
      }
    } else if HitBeforeEnd(vocab, stops, ids) {
      HitIsBefore(stops, Stopped(vocab, stops, ids), text[..|text| - 3]);
    } else {
      LateCut(vocab, stops, ids);
    }
  }

  lemma HitIsBefore(stops: seq<Str>, s: SS.Stop, out: Str)
    requires SS.Inv(s, stops, out) && s.matched.Some?
    ensures SS.FirstMatch(out, stops, 0).Some?
  {
    hide SS.FirstMatch;
    var m := s.matched.value;
    assert s.text + out[|s.text|..] == out;
    SS.HitExtends(s.text, out[|s.text|..], stops, m);
  }

  /** Without a match before the end, the cut falls at the withheld character exactly if
      the first stop string of the whole text starts there. */
  lemma LateCut(vocab: SD.Vocab, stops: seq<Str>, ids: seq<Token>)
    requires !HitBeforeEnd(vocab, stops, ids) && SD.EndsInReplacement(SD.Text(vocab, ids))
    ensures
      var out, text := Concat(SD.PushAll(vocab, ids).1), SD.Text(vocab, ids);
      out == ClientText(vocab, stops, ids) <==>
        SS.FirstMatch(text[..|text| - 3], stops, 0).Some? || SS.FirstMatch(text, stops, 0) == Some(|text| - 3)
  {
    hide SD.PushAll, SD.Streamed, Concat, SD.Finish, SS.Cut, SS.FirstMatch, SD.Bytes, Utf8.Decode;
    SD.HeldBack(vocab, ids);
    SD.StreamedIsDecoded(vocab, ids);
    InvsOf(vocab, stops, ids);
    FlushedNext(vocab, stops, ids);
    var out, text := Concat(SD.PushAll(vocab, ids).1), SD.Text(vocab, ids);
    assert CutOf(vocab, stops, ids) == SS.FinalLen(Flushed(vocab, stops, ids), stops);
    TextWhenFlushed(vocab, stops, ids);
    FirstCut(stops, Flushed(vocab, stops, ids), text);
    NoneBefore(stops, Stopped(vocab, stops, ids), out, text);
    assert out == text[..|text| - 3];
  }

  lemma TextWhenFlushed(vocab: SD.Vocab, stops: seq<Str>, ids: seq<Token>)
    requires !HitBeforeEnd(vocab, stops, ids) && SD.EndsInReplacement(SD.Text(vocab, ids))
    ensures Flushed(vocab, stops, ids).text == SD.Text(vocab, ids)
  {
    hide SD.PushAll, SD.Streamed, Concat, SD.Finish, SS.Cut, SS.FirstMatch, SD.Bytes, Utf8.Decode, SD.TakeDelta;
    SD.HeldBack(vocab, ids);
    SD.PushKeeps(vocab, ids);
    InvsOf(vocab, stops, ids);
    FlushedNext(vocab, stops, ids);
    var d, text := SD.PushAll(vocab, ids).0, SD.Text(vocab, ids);
    FinishRest(vocab, d, text);
  }

  lemma FinishRest(vocab: SD.Vocab, d: SD.Decoder, text: Str)
    requires text == SD.Text(vocab, d.ids) && d.emitted <= |text|
    ensures SD.Piece(SD.Finish(d, SD.Lossy(vocab)).1) == text[d.emitted..]
  {
    hide SD.Text;
    SD.FlushRest(d.(tailWithheld := false), text);
  }

  /** The final cut of a machine that was fed all of `text` is the first stop string. */
  lemma FirstCut(stops: seq<Str>, f: SS.Stop, text: Str)
    requires SS.Inv(f, stops, text) && text != []
    requires f.text == text
    ensures SS.FinalLen(f, stops) == SS.Visible(stops, text)
  {
    hide SS.FirstMatch;
  }

  lemma NoneBefore(stops: seq<Str>, s: SS.Stop, out: Str, text: Str)
    requires SS.Inv(s, stops, out) && s.matched.None? && out <= text
    ensures SS.FirstMatch(out, stops, 0).Some? ==> SS.FirstMatch(text, stops, 0) == Some(|out|)
  {
    hide SS.FirstMatch;
    var m := SS.FirstMatch(out, stops, 0);
    if m.Some? {
      assert out == [];
      assert out + text == text;
      SS.HitExtends(out, text, stops, m.value);
      assert SS.Hit(text, stops, 0);
    }
  }

  lemma NothingWithheld(vocab: SD.Vocab, stops: seq<Str>, ids: seq<Token>)
    requires !HitBeforeEnd(vocab, stops, ids) && Concat(SD.PushAll(vocab, ids).1) == SD.Text(vocab, ids)
    ensures CutOf(vocab, stops, ids) == |SD.Text(vocab, ids)|
  {
    hide SD.PushAll, SD.Text, SD.Bytes, SS.Cut;
    SD.PushKeeps(vocab, ids);
    var d := SD.PushAll(vocab, ids).0;
    SD.FlushRest(d.(tailWithheld := false), SD.Text(vocab, ids));
    FlushedNext(vocab, stops, ids);
    NoPiece(Stopped(vocab, stops, ids), stops);
    SS.PushAllKeeps(stops, SD.PushAll(vocab, ids).1);
    SS.RescanChangesNothing(stops, SD.PushAll(vocab, ids).1);
  }

  lemma LoneByte(vocab: SD.Vocab)
    requires vocab(0) == [0xFF as char]
    ensures SD.Text(vocab, [0]) == Utf8.REPLACEMENT
  {
    assert [0][..0] == [];
    var b := SD.Bytes(vocab, [0]);
    assert b == [0xFF as char] && b[1..] == [];
    assert Utf8.Decode([]) == [];
  }

  lemma LonePieces(vocab: SD.Vocab)
    requires SD.Text(vocab, [0]) == Utf8.REPLACEMENT
    ensures SD.PushAll(vocab, [0]).1 == [[]]
  {
    hide SD.Text;
    var text := SD.Text(vocab, [0]);
    assert text[0..] == Utf8.REPLACEMENT;
    assert SD.EndsInReplacement(text);
    assert [0][..0] == [];
    assert SD.PushAll(vocab, []) == (SD.Start, []);
    var none: seq<Token> := [];
    assert none + [0] == [0];
    assert SD.Lossy(vocab)(none + [0]) == Some(text);
  }

  /** A lone ill-formed byte before an eos token is not shown at all. */
  method EosLosesTail(vocab: SD.Vocab) returns (content: Str)
    requires vocab(0) == [0xFF as char]
    ensures content == [] && ClientText(vocab, [], [0]) == Utf8.REPLACEMENT
  {
    var events := [GenEvent.Token(0), GenEvent.Token(EOS_IDS[0])];
    IdsStep(events, 0);
    IdsStep(events, 1);
    assert events[0..] == events;
    LostTail(vocab);
    hide ClientText, SD.PushAll, Ids, Ending, Concat, Utf8.Decode;
    var r;
    ghost var said, n;
    r, said, n := RunGeneration(vocab, [], events, (k: nat) => false, (k: nat) => true);
    content := r.content;
  }

  lemma LostTail(vocab: SD.Vocab)
    requires vocab(0) == [0xFF as char]
    ensures !HitBeforeEnd(vocab, [], [0])
    ensures Concat(SD.PushAll(vocab, [0]).1) == [] && ClientText(vocab, [], [0]) == Utf8.REPLACEMENT
  {
    hide SD.PushAll, SD.Text, SD.Streamed, SS.Cut, SS.PushAll;
    LoneByte(vocab);
    LonePieces(vocab);
    var none: seq<Str> := [];
    SD.ConcatSnoc(none, []);
    assert none + [[]] == [[]];
    SD.StreamedIsDecoded(vocab, [0]);
    NoStops(SD.Streamed(vocab, [0]));
    NoStops(SD.PushAll(vocab, [0]).1);
  }

  lemma NoStops(pieces: seq<Str>)
    ensures SS.Cut([], pieces) == |Concat(pieces)|
    ensures SS.PushAll(SS.Fresh, [], pieces).matched.None?
  {
    SS.PushAllKeeps([], pieces);
  }

  /** The client's text, the tool calls and everything the parser said depend only on
      the bytes generated, not on how they were split into tokens or into chunks. */
  lemma TokenizationIndependence(
      vocab: SD.Vocab, ids: seq<Token>, chunks: seq<Str>,
      vocab': SD.Vocab, ids': seq<Token>, chunks': seq<Str>, stops: seq<Str>)
    requires SD.Bytes(vocab, ids) == SD.Bytes(vocab', ids') && SS.Steady(stops)
    requires Concat(chunks) == ClientText(vocab, stops, ids) && Concat(chunks') == ClientText(vocab', stops, ids')
    requires TC.OpenersAtSegmentStart(TC.Fed(TC.Init, ClientText(vocab, stops, ids)))
    ensures ClientText(vocab', stops, ids') == ClientText(vocab, stops, ids)
    ensures TC.Parsed(chunks) == TC.Parsed(chunks') == TC.ParsedWhole(ClientText(vocab, stops, ids))
  {
    hide TC.Parsed, TC.OpenersAtSegmentStart, ClientText, Concat;
    ClientTextOfBytes(vocab, stops, ids);
    ClientTextOfBytes(vocab', stops, ids');
    TX.FragmentationIndependence(chunks);
    TX.FragmentationIndependence(chunks');
  }
}
