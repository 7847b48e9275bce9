/** What a text means to the tool-call parser, byte by byte: text, calls, and what is said
    of them. Text is every byte outside call blocks; a block runs from a complete
    `<function ...>` tag to its closing tag, or to the end. */
module ToolCallMeaning {
  import opened Strings
  import opened ToolCall
  import opened ToolCallFragments
  import opened ToolCallExact
  import opened ToolCallCuts

  datatype Meaning = Meaning(atoms: seq<Atom>, calls: seq<Call>)

  function Say(atoms: seq<Atom>, m: Meaning): Meaning {
    Meaning(atoms + m.atoms, m.calls)
  }

  /** A call is complete, and the rest means `m`. */
  function Ends(c: Call, m: Meaning): Meaning {
    Meaning([End(c)] + m.atoms, [c] + m.calls)
  }

  const Nothing := Meaning([], [])

  function Outside(y: Str, id: nat): Meaning
    decreases |y|
  {
    LeadRest(y, FN_OPEN);
    if y == [] then Nothing
    else
      match TagLead(y, FN_OPEN)
      case Whole(name, rest) => Say([Start(name)], Inside(rest, id, name, []))
      case _ => Say([TextByte(y[0])], Outside(y[1..], id))
  }

  /** Inside call `id`; what is neither a parameter nor the closing tag is dropped. */
  function Inside(y: Str, id: nat, name: Str, params: seq<(Str, Str)>): Meaning
    decreases |y|
  {
    LeadRest(y, PARAM_OPEN);
    if y == [] then Ends(Call(id, name, params), Nothing)
    else if FN_CLOSE <= y then Ends(Call(id, name, params), Outside(y[|FN_CLOSE|..], id + 1))
    else
      match TagLead(y, PARAM_OPEN)
      case Whole(param, rest) => Given(Read(AtStart, rest), id, name, params, param, [])
      case _ => Inside(y[1..], id, name, params)
  }

  /** A parameter whose value so far is `v` goes on as read. */
  function Given(r: Reading, id: nat, name: Str, params: seq<(Str, Str)>, param: Str, v: Str): Meaning
    decreases if r.rest.Some? then |r.rest.value| + 1 else 0
  {
    var all := params + [(param, v + r.value)];
    Say(ValueBytes(param, r.value),
        match r.rest
        case None => Ends(Call(id, name, all), Nothing)
        case Some(rest) => Inside(rest, id, name, all))
  }

  /** What the rest of the buffer means to the parser as it stands. */
  function MeaningOf(p: Parser): Meaning {
    match p.mode
    case Text => Outside(p.buf, |p.calls|)
    case Function => Inside(p.buf, |p.calls|, p.name, p.params)
    case _ => Given(Read(PlaceOf(p), p.buf), |p.calls|, p.name, p.params, p.paramName, p.paramValue)
  }

  // ---- plain bytes ----

  lemma {:induction false} PlainOutside(t: Str, y: Str, id: nat)
    requires '<' !in t
    ensures Outside(t + y, id) == Say(TextBytes(t), Outside(y, id))
    decreases |t|
  {
    hide TagLead, Inside;
    if t == [] {
      assert t + y == y;
      assert TextBytes(t) == [];
    } else {
      assert (t + y)[0] == t[0] && (t + y)[1..] == t[1..] + y;
      NoTagThere(t + y);
      PlainOutside(t[1..], y, id);
      assert TextBytes(t) == [TextByte(t[0])] + TextBytes(t[1..]);
    }
  }

  lemma NoTagThere(y: Str)
    requires y != [] && y[0] != '<'
    ensures TagLead(y, FN_OPEN).Other? && TagLead(y, PARAM_OPEN).Other? && !(FN_CLOSE <= y)
  {
  }

  lemma {:induction false} PlainInside(t: Str, y: Str, id: nat, name: Str, params: seq<(Str, Str)>)
    requires '<' !in t
    ensures Inside(t + y, id, name, params) == Inside(y, id, name, params)
    decreases |t|
  {
    if t == [] {
      assert t + y == y;
    } else {
      assert (t + y)[0] == t[0] && (t + y)[1..] == t[1..] + y;
      NoTagThere(t + y);
      PlainInside(t[1..], y, id, name, params);
    }
  }

  /** Without a '>' no tag is complete. */
  lemma {:induction false} NoTagEnds(y: Str, id: nat, name: Str, params: seq<(Str, Str)>)
    requires '>' !in y
    ensures Outside(y, id) == Meaning(TextBytes(y), [])
    ensures Inside(y, id, name, params) == Ends(Call(id, name, params), Nothing)
    decreases |y|
  {
    if y != [] {
      NoneComplete(y);
      NoTagEnds(y[1..], id, name, params);
      assert TextBytes(y) == [TextByte(y[0])] + TextBytes(y[1..]);
    }
  }

  lemma NoneComplete(y: Str)
    requires '>' !in y
    ensures !TagLead(y, FN_OPEN).Whole? && !TagLead(y, PARAM_OPEN).Whole? && !(FN_CLOSE <= y)
  {
    assert FN_CLOSE[|FN_CLOSE| - 1] == '>';
  }

  lemma HeldHasNoEnd(y: Str)
    ensures TagLead(y, FN_OPEN).Hold? ==> '>' !in y
    ensures TagLead(y, PARAM_OPEN).Hold? ==> '>' !in y
    ensures LiteralLead(y, FN_CLOSE).Hold? ==> '>' !in y
  {
  }

  // ---- one pass ----

  /** What is said in a pass and what is left mean what the buffer meant. */
  ghost predicate Kept(p: Parser) {
    KeptBy(p, Step(p))
  }

  /** Between calls there are no parameters. */
  ghost predicate Clean(p: Parser) {
    p.mode == Text ==> p.params == []
  }

  ghost predicate KeptBy(p: Parser, o: Outcome) {
    var m := MeaningOf(p);
    Clean(o.p) &&
    if o.more then
      m.atoms == Flat(o.events) + MeaningOf(o.p).atoms && p.calls + m.calls == o.p.calls + MeaningOf(o.p).calls
    else
      m.atoms == Flat(o.events) + Flat(Finish(o.p).events) && p.calls + m.calls == Finish(o.p).p.calls
  }

  lemma TextNothing(p: Parser)
    requires Clean(p) && p.mode == Text && p.buf == []
    ensures Kept(p)
  {
    FlatOne(TextEvent([]));
    assert TextBytes([]) == [];
  }

  /** Plain text to the end of the buffer. */
  lemma TextPlain(p: Parser)
    requires Clean(p) && p.mode == Text && p.buf != [] && FindChar(p.buf, '<') == |p.buf|
    ensures Kept(p)
  {
    hide TagLead, StepFunction, StepParam, StepCdata, Consumes, FindChar;
    assert Step(p) == Outcome(p.(buf := []), [TextEvent(p.buf)], true);
    assert p.buf + [] == p.buf && '<' !in p.buf;
    PlainOutside(p.buf, [], |p.calls|);
    FlatOne(TextEvent(p.buf));
  }

  /** What stands at a '<' in text. */
  lemma TagKept(p: Parser)
    requires Clean(p) && p.mode == Text && p.buf != [] && p.buf[0] == '<'
    ensures KeptBy(p, TextAtTag(p))
  {
    hide TagLead, Consumes, Flat;
    NothingFlat();
    match TagLead(p.buf, FN_OPEN)
    case Whole(name, rest) => FlatStart(name);
    case Hold =>
      HeldHasNoEnd(p.buf);
      NoTagEnds(p.buf, |p.calls|, [], []);
      FlatOne(TextEvent(p.buf));
    case Other =>
      FlatOne(TextEvent("<"));
      assert TextBytes("<") == [TextByte('<')];
  }

  /** Plain text, and what stands at the '<' behind it. */
  lemma TextTag(p: Parser, i: nat)
    requires Clean(p) && p.mode == Text && i == FindChar(p.buf, '<') < |p.buf|
    ensures Kept(p)
  {
    hide StepFunction, StepParam, StepCdata, Consumes, FindChar, Flat, TextAtTag, Outside;
    var t, y := p.buf[..i], p.buf[i..];
    assert p.buf == t + y && '<' !in t;
    PlainOutside(t, y, |p.calls|);
    var said: seq<Event> := if i > 0 then [TextEvent(t)] else [];
    SaidText(t, said);
    var q := p.(buf := y);
    TagKept(q);
    var o := TextAtTag(q);
    assert Step(p) == Outcome(o.p, said + o.events, o.more);
    FlatAppend(said, o.events);
    var rest := if o.more then MeaningOf(o.p).atoms else Flat(Finish(o.p).events);
    hide MeaningOf, Finish;
    AtomsAssoc(TextBytes(t), Flat(o.events), rest);
  }

  lemma SaidText(t: Str, said: seq<Event>)
    requires said == if |t| > 0 then [TextEvent(t)] else []
    ensures Flat(said) == TextBytes(t)
  {
    NothingFlat();
    FlatOne(TextEvent(t));
    if t == [] {
      assert TextBytes(t) == [];
    }
  }

  lemma NothingFlat()
    ensures Flat([]) == []
  {
  }

  lemma FlatStart(name: Str)
    ensures Flat([CallStart(name)]) == [Start(name)]
  {
    FlatOne(CallStart(name));
  }

  lemma FlatEnd(c: Call)
    ensures Flat([CallEnd(c)]) == [End(c)]
  {
    FlatOne(CallEnd(c));
  }

  lemma FunctionKept(p: Parser)
    requires p.mode == Function
    ensures Kept(p)
  {
    hide TagLead, StepText, StepParam, StepCdata, Consumes, FindChar, Flat;
    var i := FindChar(p.buf, '<');
    NothingFlat();
    FlatEnd(Call(|p.calls|, p.name, p.params));
    if i == |p.buf| {
      assert p.buf + [] == p.buf && '<' !in p.buf;
      PlainInside(p.buf, [], |p.calls|, p.name, p.params);
    } else if i > 0 {
      assert p.buf == p.buf[..i] + p.buf[i..];
      PlainInside(p.buf[..i], p.buf[i..], |p.calls|, p.name, p.params);
    } else if LiteralLead(p.buf, FN_CLOSE).Whole? {
    } else if TagLead(p.buf, PARAM_OPEN).Whole? {
    } else if TagLead(p.buf, PARAM_OPEN).Hold? || LiteralLead(p.buf, FN_CLOSE).Hold? {
      HeldHasNoEnd(p.buf);
      NoTagEnds(p.buf, |p.calls|, p.name, p.params);
    } else {
    }
  }

  /** A pass over parameter bytes that takes `t` into the value. */
  lemma ValueKept(p: Parser, t: Str)
    requires (p.mode == Param || p.mode == Cdata) && Step(p).more && Flat(Step(p).events) == ValueBytes(p.paramName, t)
    requires Step(p).p == EmitValue(p, t).(mode := Step(p).p.mode, buf := Step(p).p.buf)
    requires Step(p).p.mode == Param || Step(p).p.mode == Cdata
    requires Read(PlaceOf(p), p.buf) == Put(t, Read(PlaceOf(Step(p).p), Step(p).p.buf))
    ensures Kept(p)
  {
    hide Step, Read, Inside, Flat;
    var q := Step(p).p;
    var r := Read(PlaceOf(q), q.buf);
    ValueBytesAppend(p.paramName, t, r.value);
    Associates(p.paramValue, t, r.value);
    hide ValueBytes;
    match r.rest
    case None =>
      AtomsAssoc(ValueBytes(p.paramName, t), ValueBytes(p.paramName, r.value),
                 [End(Call(|p.calls|, p.name, p.params + [(p.paramName, p.paramValue + (t + r.value))]))]);
    case Some(rest) =>
      AtomsAssoc(ValueBytes(p.paramName, t), ValueBytes(p.paramName, r.value),
                 Inside(rest, |p.calls|, p.name, p.params + [(p.paramName, p.paramValue + (t + r.value))]).atoms);
  }

  /** The last pass in a parameter: what is left in the buffer is part of the value. */
  lemma LastKept(p: Parser, t: Str)
    requires (p.mode == Param || p.mode == Cdata) && !Step(p).more && Flat(Step(p).events) == ValueBytes(p.paramName, t)
    requires var q := Step(p).p; q == EmitValue(p, t).(buf := q.buf) && t + q.buf == p.buf
    requires Read(PlaceOf(p), p.buf) == Reading(p.buf, None)
    ensures Kept(p)
  {
    hide Step, Read, Inside, Flat;
    var q := Step(p).p;
    Associates(p.paramValue, t, q.buf);
    FinishedValue(q);
    ValueBytesAppend(p.paramName, t, q.buf);
    hide ValueBytes;
    AtomsAssoc(ValueBytes(p.paramName, t), ValueBytes(p.paramName, q.buf),
               [End(Call(|p.calls|, p.name, p.params + [(p.paramName, p.paramValue + p.buf)]))]);
  }

  /** What finishing in a parameter says. */
  lemma FinishedValue(q: Parser)
    requires q.mode == Param || q.mode == Cdata
    ensures
      var c := Call(|q.calls|, q.name, q.params + [(q.paramName, q.paramValue + q.buf)]);
      && Finish(q).p.calls == q.calls + [c] && Clean(q)
      && Flat(Finish(q).events) == ValueBytes(q.paramName, q.buf) + [End(c)]
  {
    hide Flat;
    var c := Call(|q.calls|, q.name, q.params + [(q.paramName, q.paramValue + q.buf)]);
    var es := if q.buf != [] then [ParamValue(q.paramName, q.buf)] else [];
    SaidValueBytes(q.paramName, q.buf, es);
    assert Finish(q).events == es + [CallEnd(c)];
    FlatAppend(es, [CallEnd(c)]);
    FlatEnd(c);
  }

  lemma SaidValueBytes(param: Str, t: Str, said: seq<Event>)
    requires said == if |t| > 0 then [ParamValue(param, t)] else []
    ensures Flat(said) == ValueBytes(param, t)
  {
    NothingFlat();
    FlatOne(ParamValue(param, t));
    if t == [] {
      assert ValueBytes(param, t) == [];
    }
  }

  lemma CdataKept(p: Parser)
    requires p.mode == Cdata
    ensures Kept(p)
  {
    hide Kept, Read, Flat, Find;
    var r := Find(p.buf, CDATA_CLOSE);
    if r.Some? {
      SectionEnds(p, r.value);
      SectionEndSays(p, r.value);
      ValueKept(p, p.buf[..r.value]);
    } else {
      var cut := CdataWaits(p);
      ReadCdata(p);
      CdataSays(p, cut);
      assert p.buf[..cut] + p.buf[cut..] == p.buf;
      LastKept(p, p.buf[..cut]);
    }
  }

  lemma SectionEndSays(p: Parser, n: nat)
    requires p.mode == Cdata && Find(p.buf, CDATA_CLOSE) == Some(n)
    ensures Flat(Step(p).events) == ValueBytes(p.paramName, p.buf[..n])
  {
    hide Consumes, StepText, StepFunction, StepParam, Flat;
    FlatOne(ParamValue(p.paramName, p.buf[..n]));
  }

  lemma CdataSays(p: Parser, cut: nat)
    requires p.mode == Cdata && Find(p.buf, CDATA_CLOSE).None? && cut <= |p.buf|
    requires Step(p).p == p.(buf := p.buf[cut..], paramValue := p.paramValue + p.buf[..cut])
    ensures Flat(Step(p).events) == ValueBytes(p.paramName, p.buf[..cut])
  {
    hide Consumes, StepText, StepFunction, StepParam, Flat, FloorCharBoundary, Find;
    var n := CdataCut(p.buf);
    assert |Step(p).p.buf| == |p.buf| - cut && |Step(p).p.buf| == |p.buf| - n;
    SaidValueBytes(p.paramName, p.buf[..cut], Step(p).events);
  }

  lemma ParamKept(p: Parser)
    requires p.mode == Param
    ensures Kept(p)
  {
    hide Kept, Read, Flat, LiteralLead, FindChar;
    var lead := LiteralLead(p.buf, CDATA_OPEN);
    if lead.Whole? {
      SectionOpens(p);
      OpenerSays(p);
      ValueKept(p, []);
    } else if lead.Hold? {
      OneTagEach();
      HoldIsPrefix(p.buf, CDATA_OPEN);
      HeldIsRaw(AtStart, p.buf, CDATA_OPEN);
      OpenerSays(p);
      assert p.paramValue + [] == p.paramValue && [] + p.buf == p.buf;
      LastKept(p, []);
    } else {
      PlainValueKept(p);
    }
  }

  lemma HoldIsPrefix(y: Str, lit: Str)
    requires LiteralLead(y, lit).Hold?
    ensures ViablePrefix(y, lit)
  {
  }

  lemma OpenerSays(p: Parser)
    requires p.mode == Param && !LiteralLead(p.buf, CDATA_OPEN).Other?
    ensures Flat(Step(p).events) == ValueBytes(p.paramName, [])
    ensures LiteralLead(p.buf, CDATA_OPEN).Hold? ==> Step(p) == Outcome(p, [], false)
  {
    hide Consumes, StepText, StepFunction, StepCdata;
    assert ValueBytes(p.paramName, []) == [];
  }

  lemma PlainValueKept(p: Parser)
    requires p.mode == Param && LiteralLead(p.buf, CDATA_OPEN).Other?
    ensures Kept(p)
  {
    hide Kept, Read, Flat, LiteralLead, FindChar;
    var i := FindChar(p.buf, '<');
    ValueStep(p);
    ValueSays(p);
    NoOpener(p.buf);
    if i == |p.buf| {
      AllRaw(AtStart, p.buf);
      NothingRead(AtStart);
      assert p.buf + [] == p.buf;
      ValueKept(p, p.buf);
    } else {
      ReadAtTag(p.buf, i);
      match LiteralLead(p.buf[i..], PARAM_CLOSE)
      case Whole(_, _) => CloseKept(p, p.buf[..i]);
      case Hold => LastKept(p, p.buf[..i]);
      case Other => ValueKept(p, p.buf[..i] + "<");
    }
  }

  /** What a pass over plain parameter bytes says. */
  lemma ValueSays(p: Parser)
    requires p.mode == Param && LiteralLead(p.buf, CDATA_OPEN).Other?
    ensures
      var i := FindChar(p.buf, '<');
      var t := p.buf[..i];
      Flat(Step(p).events) ==
      ValueBytes(p.paramName, if i < |p.buf| && LiteralLead(p.buf[i..], PARAM_CLOSE).Other? then t + "<" else t)
  {
    hide Consumes, StepText, StepFunction, StepCdata, FindChar, LiteralLead, Flat;
    var i := FindChar(p.buf, '<');
    var t := p.buf[..i];
    var said: seq<Event> := if i > 0 then [ParamValue(p.paramName, t)] else [];
    SaidValueBytes(p.paramName, t, said);
    FlatOne(ParamValue(p.paramName, p.buf));
    FlatOne(ParamValue(p.paramName, "<"));
    FlatAppend(said, [ParamValue(p.paramName, "<")]);
    ValueBytesAppend(p.paramName, t, "<");
    assert said + [] == said;
  }

  lemma CloseKept(p: Parser, t: Str)
    requires p.mode == Param && Step(p).more && Flat(Step(p).events) == ValueBytes(p.paramName, t)
    requires Step(p).p == CloseParam(EmitValue(p, t).(buf := Step(p).p.buf))
    requires Read(AtStart, p.buf) == Reading(t, Some(Step(p).p.buf))
    ensures Kept(p)
  {
    hide Step, Read, Inside, Flat;
  }

  // ---- results ----

  lemma StepKept(p: Parser)
    requires Clean(p)
    ensures Kept(p)
  {
    hide Kept, Step, FindChar;
    match p.mode
    case Text =>
      var i := FindChar(p.buf, '<');
      if p.buf == [] {
        TextNothing(p);
      } else if i == |p.buf| {
        TextPlain(p);
      } else {
        TextTag(p, i);
      }
    case Function => FunctionKept(p);
    case Param => ParamKept(p);
    case Cdata => CdataKept(p);
  }

  /** The finished parser says and makes of its buffer what the bytes mean. */
  lemma {:induction false} FinalMeans(p: Parser)
    requires Clean(p)
    ensures Final(p).atoms == MeaningOf(p).atoms && Final(p).p.calls == p.calls + MeaningOf(p).calls
    decreases |p.buf|
  {
    hide Step, MeaningOf, Final, Flat, Finish, Clean;
    StepKept(p);
    var o := Step(p);
    if o.more {
      FinalMore(p);
      FinalMeans(o.p);
    } else {
      FinalRest(p);
    }
  }

  /** However a text is cut, if no CDATA opener stands in mid-segment: the client is told
      exactly what the text means, every byte outside call blocks, once and in order, and
      every call; nothing is dropped at the end. */
  lemma ParsedIsMeaning(w: Str, fragments: seq<Str>)
    requires OpenersAtSegmentStart(Fed(Init, w)) && Concat(fragments) == w
    ensures Parsed(fragments).atoms == Outside(w, 0).atoms && Parsed(fragments).p.calls == Outside(w, 0).calls
  {
    hide Step, Run, Finish, Flat, OpenersAtSegmentStart, Outside, Parsed;
    assert Fed(Init, w).buf == w;
    FragmentationIndependence(fragments);
    WholeFinal(w);
    FinalMeans(Fed(Init, w));
  }

  lemma WholeFinal(w: Str)
    ensures ParsedWhole(w) == Final(Fed(Init, w))
  {
    hide Run, Finish, Flat;
    assert [w][1..] == [];
    assert Pushes(Run(Fed(Init, w)).p, []) == Result(Run(Fed(Init, w)).p, []);
    assert Run(Fed(Init, w)).events + [] == Run(Fed(Init, w)).events;
  }

  /** No complete `<function ...>` tag begins anywhere. */
  ghost predicate NoCall(w: Str) {
    forall i :: 0 <= i < |w| ==> !TagLead(w[i..], FN_OPEN).Whole?
  }

  lemma {:induction false} NoCallMeans(w: Str, id: nat)
    requires NoCall(w)
    ensures Outside(w, id) == Meaning(TextBytes(w), [])
    decreases |w|
  {
    hide TagLead;
    if w != [] {
      assert w[0..] == w;
      forall i | 0 <= i < |w[1..]| ensures !TagLead(w[1..][i..], FN_OPEN).Whole? {
        assert w[1..][i..] == w[i + 1..];
      }
      NoCallMeans(w[1..], id);
      assert TextBytes(w) == [TextByte(w[0])] + TextBytes(w[1..]);
    } else {
      assert TextBytes(w) == [];
    }
  }

  /** Text without a complete call tag comes out as it went in, for every cutting, half
      tags at its end included. */
  lemma TextIsKept(w: Str, fragments: seq<Str>)
    requires NoCall(w) && Concat(fragments) == w
    ensures Parsed(fragments).atoms == TextBytes(w) && Parsed(fragments).p.calls == []
  {
    hide Step, Run, Finish, Flat, OpenersAtSegmentStart, Outside, Parsed;
    assert Fed(Init, w).buf == w;
    NoCallNoOpener(Fed(Init, w));
    ParsedIsMeaning(w, fragments);
    NoCallMeans(w, 0);
  }

  lemma {:induction false} NoCallNoOpener(p: Parser)
    requires p.mode == Text && NoCall(p.buf)
    ensures OpenersAtSegmentStart(p)
    decreases |p.buf|
  {
    hide Step, NoCall;
    TextStays(p);
    if Step(p).more {
      NoCallNoOpener(Step(p).p);
    }
  }

  lemma TextStays(p: Parser)
    requires p.mode == Text && NoCall(p.buf)
    ensures Step(p).p.mode == Text && NoCall(Step(p).p.buf) && (Step(p).more ==> |Step(p).p.buf| < |p.buf|)
  {
    hide TagLead, FindChar;
    var q := Step(p).p;
    var c := |p.buf| - |q.buf|;
    assert q.buf == p.buf[c..];
    forall i | 0 <= i < |q.buf| ensures !TagLead(q.buf[i..], FN_OPEN).Whole? {
      assert q.buf[i..] == p.buf[c + i..];
    }
  }

  // ---- nothing waits that is decided ----

  /** The beginning of a tag that is not complete. */
  predicate HalfTag(y: Str, tag: Str) {
    '>' !in y && (y <= tag || tag <= y)
  }

  /** What a parser may sit on: half a tag, half a literal, or the last bytes of a CDATA
      section, where the next byte could still matter. */
  ghost predicate Undecided(p: Parser) {
    p.buf == [] ||
    match p.mode
    case Text => p.buf[0] == '<' && HalfTag(p.buf, FN_OPEN)
    case Function => p.buf[0] == '<' && (HalfTag(p.buf, FN_CLOSE) || HalfTag(p.buf, PARAM_OPEN))
    case Param => p.buf < CDATA_OPEN || p.buf < PARAM_CLOSE
    case Cdata =>
      && (forall i :: 0 <= i ==> !OccursAt(p.buf, CDATA_CLOSE, i))
      && (forall j :: 0 < j && j + |CDATA_CLOSE| - 1 <= |p.buf| ==> !IsCharBoundary(p.buf, j))
  }

  lemma StopsUndecided(p: Parser)
    requires !Step(p).more
    ensures Undecided(Step(p).p)
  {
    match p.mode
    case Text => TextStops(p);
    case Function => FunctionStops(p);
    case Param => ParamStops(p);
    case Cdata => CdataStops(p);
  }

  lemma TextStops(p: Parser)
    requires p.mode == Text && !StepText(p).more
    ensures Undecided(StepText(p).p)
  {
    if p.buf != [] {
      HeldHasNoEnd(p.buf[FindChar(p.buf, '<')..]);
    }
  }

  lemma FunctionStops(p: Parser)
    requires p.mode == Function && !StepFunction(p).more
    ensures Undecided(StepFunction(p).p)
  {
    HeldHasNoEnd(p.buf);
  }

  lemma ParamStops(p: Parser)
    requires p.mode == Param && !StepParam(p).more
    ensures Undecided(StepParam(p).p)
  {
    hide LiteralLead, FindChar, StepValue, Consumes;
    LiteralHeld(p.buf, CDATA_OPEN);
    if LiteralLead(p.buf, CDATA_OPEN).Other? {
      if p.buf == [] { EmptyHeld(CDATA_OPEN); }
      ValueStops(p);
    }
  }

  lemma ValueStops(p: Parser)
    requires p.mode == Param && p.buf != [] && !StepValue(p).more
    ensures StepValue(p).p.mode == Param && StepValue(p).p.buf < PARAM_CLOSE
  {
    hide LiteralLead, FindChar, Consumes;
    LiteralHeld(p.buf[FindChar(p.buf, '<')..], PARAM_CLOSE);
  }

  lemma LiteralHeld(y: Str, lit: Str)
    ensures LiteralLead(y, lit).Hold? ==> y < lit
  {
  }

  lemma EmptyHeld(lit: Str)
    requires lit != []
    ensures LiteralLead([], lit).Hold?
  {
  }

  lemma CdataStops(p: Parser)
    requires p.mode == Cdata && !StepCdata(p).more
    ensures Undecided(StepCdata(p).p)
  {
    var cut := CdataCut(p.buf);
    var rest := p.buf[cut..];
    assert StepCdata(p).p.buf == rest;
    NoCloseBehind(p.buf, cut);
    NoBoundaryBehind(p.buf);
  }

  lemma NoCloseBehind(y: Str, cut: nat)
    requires cut <= |y| && forall i :: 0 <= i ==> !OccursAt(y, CDATA_CLOSE, i)
    ensures forall i :: 0 <= i ==> !OccursAt(y[cut..], CDATA_CLOSE, i)
  {
    var n := |CDATA_CLOSE|;
    forall i | 0 <= i ensures !OccursAt(y[cut..], CDATA_CLOSE, i) {
      assert !OccursAt(y, CDATA_CLOSE, cut + i);
      if i + n <= |y[cut..]| {
        assert y[cut..][i..i + n] == y[cut + i..cut + i + n];
      }
    }
  }

  lemma NoBoundaryBehind(y: Str)
    ensures
      var rest := y[CdataCut(y)..];
      forall j :: 0 < j && j + |CDATA_CLOSE| - 1 <= |rest| ==> !IsCharBoundary(rest, j)
  {
    var cut := CdataCut(y);
    var rest := y[cut..];
    forall j | 0 < j && j + |CDATA_CLOSE| - 1 <= |rest| ensures !IsCharBoundary(rest, j) {
      assert !IsCharBoundary(y, cut + j);
      assert rest[j] == y[cut + j];
    }
  }

  /** After every push the parser has said all that later bytes cannot change. */
  lemma {:induction false} NothingWaits(p: Parser)
    ensures Undecided(Run(p).p)
    decreases |p.buf|
  {
    hide Undecided, Step;
    if Step(p).more {
      NothingWaits(Step(p).p);
    } else {
      StopsUndecided(p);
    }
  }
}
