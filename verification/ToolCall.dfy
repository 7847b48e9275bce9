/** The streaming tool-call parser of rust/minicpm-generation/src/tool_call.rs,
    as a transition function on parser values. */
module ToolCall {
  import opened Strings

  const FN_OPEN: Str := "<function"
  const FN_CLOSE: Str := "</function>"
  const PARAM_OPEN: Str := "<param"
  const PARAM_CLOSE: Str := "</param>"
  const CDATA_OPEN: Str := "<![CDATA["
  const CDATA_CLOSE: Str := "]]>"

  datatype Mode = Text | Function | Param | Cdata

  /** `params` are the pairs the JSON `arguments` object is built from. */
  datatype Call = Call(id: nat, name: Str, params: seq<(Str, Str)>)

  datatype Event =
    | TextEvent(text: Str)
    | CallStart(name: Str)
    | ParamValue(param: Str, value: Str)
    | CallEnd(call: Call)

  datatype Parser = Parser(
    mode: Mode, buf: Str,
    name: Str, params: seq<(Str, Str)>,
    paramName: Str, paramValue: Str,
    calls: seq<Call>)

  const Init := Parser(Text, [], [], [], [], [], [])

  /** New parser, events emitted, and whether another pass may make progress. */
  datatype Outcome = Outcome(p: Parser, events: seq<Event>, more: bool)

  // ---- tags ----

  predicate ViablePrefix(buf: Str, lit: Str) {
    |buf| < |lit| && buf <= lit
  }

  /** Byte length of the Unicode White_Space character at the head of `s`, 0 if none. */
  function SpaceLen(s: Str): (n: nat)
    ensures n <= |s|
  {
    if s == [] then 0
    else
      var a := s[0] as int;
      var b := if |s| > 1 then s[1] as int else 0;
      var c := if |s| > 2 then s[2] as int else 0;
      if 9 <= a <= 13 || a == 32 then 1
      else if a == 0xC2 && (b == 0x85 || b == 0xA0) then 2
      else if a == 0xE1 && b == 0x9A && c == 0x80 then 3
      else if a == 0xE2 && b == 0x80 && (0x80 <= c <= 0x8A || c == 0xA8 || c == 0xA9 || c == 0xAF) then 3
      else if a == 0xE2 && b == 0x81 && c == 0x9F then 3
      else if a == 0xE3 && b == 0x80 && c == 0x80 then 3
      else 0
  }

  function WordLen(s: Str): (n: nat)
    ensures n <= |s|
    ensures s != [] && SpaceLen(s) == 0 ==> n > 0
  {
    if s == [] || SpaceLen(s) > 0 then 0 else 1 + WordLen(s[1..])
  }

  function SplitWhitespace(s: Str): seq<Str>
    decreases |s|
  {
    if s == [] then []
    else if SpaceLen(s) > 0 then SplitWhitespace(s[SpaceLen(s)..])
    else [s[..WordLen(s)]] + SplitWhitespace(s[WordLen(s)..])
  }

  /** Leftmost non-overlapping replacement. */
  function Replace(s: Str, pat: Str, sub: Str): Str
    requires pat != []
    decreases |s|
  {
    if |s| < |pat| then s
    else if pat <= s then sub + Replace(s[|pat|..], pat, sub)
    else [s[0]] + Replace(s[1..], pat, sub)
  }

  function DecodeAttr(v: Str): Str {
    Replace(Replace(Replace(Replace(v, "&lt;", "<"), "&gt;", ">"), "&quot;", "\""), "&amp;", "&")
  }

  /** `part` with the attribute opener `open` and the closing `quote` taken off. */
  function Unquote(part: Str, open: Str, quote: char): Option<Str> {
    if open <= part && |part| > |open| && part[|part| - 1] == quote
    then Some(part[|open|..|part| - 1]) else None
  }

  function AttrIn(parts: seq<Str>): Option<Str> {
    if parts == [] then None
    else
      var q := if "name=\"" <= parts[0] then Unquote(parts[0], "name=\"", '\"')
               else Unquote(parts[0], "name='", '\'');
      if q.Some? then Some(DecodeAttr(q.value)) else AttrIn(parts[1..])
  }

  /** The name attribute of the complete tag at the head of `buf`. */
  function ParseTag(buf: Str, tag: Str): Option<Str>
    requires tag <= buf
  {
    var close := FindChar(buf, '>');
    if |tag| <= close < |buf| then AttrIn(SplitWhitespace(buf[|tag|..close])) else None
  }

  predicate TagComplete(buf: Str) {
    FindChar(buf, '>') < |buf|
  }

  /** Rest of `buf` after the tag at its head. */
  function AfterTag(buf: Str): Str
    requires TagComplete(buf)
  {
    buf[FindChar(buf, '>') + 1..]
  }

  /** What the bytes at a '<' are: still undecided, ordinary, or a complete opener. */
  datatype Lead = Hold | Other | Whole(name: Str, rest: Str)

  function TagLead(buf: Str, tag: Str): Lead {
    if tag <= buf then
      if !TagComplete(buf) then Hold
      else match ParseTag(buf, tag)
        case Some(name) => Whole(name, AfterTag(buf))
        case None => Other
    else if ViablePrefix(buf, tag) then Hold
    else Other
  }

  function LiteralLead(buf: Str, lit: Str): Lead {
    if lit <= buf then Whole(lit, buf[|lit|..])
    else if ViablePrefix(buf, lit) then Hold
    else Other
  }

  lemma LeadRest(buf: Str, tag: Str)
    ensures TagLead(buf, tag).Whole? ==>
              var rest := TagLead(buf, tag).rest; |rest| < |buf| && rest == buf[|buf| - |rest|..]
    ensures LiteralLead(buf, tag).Whole? && tag != [] ==>
              var rest := LiteralLead(buf, tag).rest; |rest| < |buf| && rest == buf[|buf| - |rest|..]
  {
  }

  // ---- one processing pass ----

  /** A pass takes bytes off the front of the buffer, at least one if it reports progress. */
  ghost predicate Consumes(p: Parser, o: Outcome) {
    && |o.p.buf| <= |p.buf|
    && (o.more ==> |o.p.buf| < |p.buf|)
    && o.p.buf == p.buf[|p.buf| - |o.p.buf|..]
  }

  /** A '<' in ordinary text: a call opens, or the '<' is literal, or more text decides. */
  function TextAtTag(p: Parser): (o: Outcome)
    requires p.buf != []
    ensures Consumes(p, o)
  {
    LeadRest(p.buf, FN_OPEN);
    match TagLead(p.buf, FN_OPEN)
    case Whole(name, rest) => Outcome(p.(mode := Function, name := name, buf := rest), [CallStart(name)], true)
    case Hold => Outcome(p, [], false)
    case Other => Outcome(p.(buf := p.buf[1..]), [TextEvent("<")], true)
  }

  function StepText(p: Parser): (o: Outcome)
    ensures Consumes(p, o)
  {
    var i := FindChar(p.buf, '<');
    if p.buf == [] then Outcome(p, [], false)
    else if i == |p.buf| then Outcome(p.(buf := []), [TextEvent(p.buf)], true)
    else
      var said := if i > 0 then [TextEvent(p.buf[..i])] else [];
      var o := TextAtTag(p.(buf := p.buf[i..]));
      Outcome(o.p, said + o.events, o.more)
  }

  function CloseFunction(p: Parser): Outcome {
    var call := Call(|p.calls|, p.name, p.params);
    Outcome(p.(mode := Text, name := [], params := [], calls := p.calls + [call]), [CallEnd(call)], true)
  }

  function CloseParam(p: Parser): Parser {
    p.(mode := Function, params := p.params + [(p.paramName, p.paramValue)], paramName := [], paramValue := [])
  }

  function EmitValue(p: Parser, text: Str): Parser {
    p.(paramValue := p.paramValue + text)
  }

  function StepFunction(p: Parser): (o: Outcome)
    ensures Consumes(p, o)
  {
    var i := FindChar(p.buf, '<');
    if i == |p.buf| then Outcome(p.(buf := []), [], false)
    else if i > 0 then Outcome(p.(buf := p.buf[i..]), [], true)
    else
      var close := LiteralLead(p.buf, FN_CLOSE);
      var open := TagLead(p.buf, PARAM_OPEN);
      LeadRest(p.buf, FN_CLOSE);
      LeadRest(p.buf, PARAM_OPEN);
      if close.Whole? then CloseFunction(p.(buf := close.rest))
      else if open.Whole? then
        Outcome(p.(mode := Param, paramName := open.name, paramValue := [], buf := open.rest), [], true)
      else if open.Hold? || close.Hold? then Outcome(p, [], false)
      else Outcome(p.(buf := p.buf[1..]), [], true)
  }

  /** A '<' in plain parameter text: the parameter closes, or the '<' is data. */
  function ValueAtTag(p: Parser): (o: Outcome)
    requires p.buf != []
    ensures Consumes(p, o)
  {
    LeadRest(p.buf, PARAM_CLOSE);
    match LiteralLead(p.buf, PARAM_CLOSE)
    case Whole(_, rest) => Outcome(CloseParam(p.(buf := rest)), [], true)
    case Hold => Outcome(p, [], false)
    case Other => Outcome(EmitValue(p.(buf := p.buf[1..]), "<"), [ParamValue(p.paramName, "<")], true)
  }

  /** Plain parameter bytes up to the next '<', and what stands there. */
  function StepValue(p: Parser): (o: Outcome)
    requires p.buf != []
    ensures Consumes(p, o)
  {
    var i := FindChar(p.buf, '<');
    if i == |p.buf| then Outcome(EmitValue(p.(buf := []), p.buf), [ParamValue(p.paramName, p.buf)], true)
    else
      var said := if i > 0 then [ParamValue(p.paramName, p.buf[..i])] else [];
      var o := ValueAtTag(EmitValue(p.(buf := p.buf[i..]), p.buf[..i]));
      Outcome(o.p, said + o.events, o.more)
  }

  function StepParam(p: Parser): (o: Outcome)
    ensures Consumes(p, o)
  {
    LeadRest(p.buf, CDATA_OPEN);
    match LiteralLead(p.buf, CDATA_OPEN)
    case Whole(_, rest) => Outcome(p.(mode := Cdata, buf := rest), [], true)
    case Hold => Outcome(p, [], false)
    case Other => StepValue(p)
  }

  /** How much of an unterminated CDATA section may be released. */
  function CdataCut(buf: Str): (cut: nat)
    ensures cut <= |buf|
    ensures cut > 0 ==> cut + 2 <= |buf|
  {
    if |buf| > |CDATA_CLOSE| - 1 then FloorCharBoundary(buf, |buf| - (|CDATA_CLOSE| - 1)) else 0
  }

  function StepCdata(p: Parser): (o: Outcome)
    ensures Consumes(p, o)
  {
    var r := Find(p.buf, CDATA_CLOSE);
    if r.Some? then
      Outcome(EmitValue(p.(mode := Param, buf := p.buf[r.value + |CDATA_CLOSE|..]), p.buf[..r.value]),
              [ParamValue(p.paramName, p.buf[..r.value])], true)
    else
      var cut := CdataCut(p.buf);
      if cut > 0 then
        Outcome(EmitValue(p.(buf := p.buf[cut..]), p.buf[..cut]), [ParamValue(p.paramName, p.buf[..cut])], false)
      else Outcome(p, [], false)
  }

  function Step(p: Parser): (o: Outcome)
    ensures Consumes(p, o)
  {
    match p.mode
    case Text => StepText(p)
    case Function => StepFunction(p)
    case Param => StepParam(p)
    case Cdata => StepCdata(p)
  }

  datatype Result = Result(p: Parser, events: seq<Event>)

  /** Passes until no more progress is possible. */
  function Run(p: Parser): Result
    decreases |p.buf|
  {
    var o := Step(p);
    if o.more then
      var r := Run(o.p);
      Result(r.p, o.events + r.events)
    else Result(o.p, o.events)
  }

  function Fed(p: Parser, fragment: Str): Parser {
    p.(buf := p.buf + fragment)
  }

  function Push(p: Parser, fragment: Str): Result {
    Run(Fed(p, fragment))
  }

  function Finish(p: Parser): Result {
    var q := p.(buf := []);
    match p.mode
    case Text => Result(q, [TextEvent(p.buf)])
    case Function =>
      var o := CloseFunction(q);
      Result(o.p, o.events)
    case _ =>
      var es := if p.buf != [] then [ParamValue(p.paramName, p.buf)] else [];
      var o := CloseFunction(CloseParam(EmitValue(q, p.buf)));
      Result(o.p, es + o.events)
  }

  function Pushes(p: Parser, fragments: seq<Str>): Result
    decreases |fragments|
  {
    if fragments == [] then Result(p, [])
    else
      var r := Push(p, fragments[0]);
      var s := Pushes(r.p, fragments[1..]);
      Result(s.p, r.events + s.events)
  }

  // ---- what a client can tell apart ----

  /** Events with chunk boundaries erased. */
  datatype Atom =
    | TextByte(c: char)
    | Start(name: Str)
    | ValueByte(param: Str, c: char)
    | End(call: Call)

  function TextBytes(t: Str): seq<Atom> {
    seq(|t|, i requires 0 <= i < |t| => TextByte(t[i]))
  }

  function ValueBytes(param: Str, t: Str): seq<Atom> {
    seq(|t|, i requires 0 <= i < |t| => ValueByte(param, t[i]))
  }

  function Atoms(e: Event): seq<Atom> {
    match e
    case TextEvent(t) => TextBytes(t)
    case CallStart(name) => [Start(name)]
    case ParamValue(param, v) => ValueBytes(param, v)
    case CallEnd(call) => [End(call)]
  }

  function Flat(events: seq<Event>): seq<Atom> {
    if events == [] then [] else Atoms(events[0]) + Flat(events[1..])
  }

  /** The parser at rest after `finish`, and everything it said. */
  datatype Verdict = Verdict(p: Parser, atoms: seq<Atom>)

  function Parsed(fragments: seq<Str>): Verdict {
    var r := Pushes(Init, fragments);
    var f := Finish(r.p);
    Verdict(f.p, Flat(r.events + f.events))
  }

  /** Parse of the whole text in one push. */
  function ParsedWhole(text: Str): Verdict {
    Parsed([text])
  }

  /** Runs what is in the buffer, then finishes. */
  function Final(p: Parser): Verdict {
    var r := Run(p);
    var f := Finish(r.p);
    Verdict(f.p, Flat(r.events + f.events))
  }

  // ---- where the parser's answer depends on chunk boundaries ----

  /** Parameter text with a CDATA opener directly after plain bytes. */
  predicate PlainThenOpener(p: Parser) {
    var i := FindChar(p.buf, '<');
    p.mode == Param && 0 < i && CDATA_OPEN <= p.buf[i..]
  }

  /** No pass over the buffered text meets a CDATA opener in mid-segment. */
  predicate OpenersAtSegmentStart(p: Parser)
    decreases |p.buf|
  {
    !PlainThenOpener(p) && (Step(p).more ==> OpenersAtSegmentStart(Step(p).p))
  }
}
