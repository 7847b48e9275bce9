/** Tool calls as the chat template writes them, read back by the parser. */
module ToolCallRoundTrip {
  import opened Strings
  import opened ToolCall
  import opened ToolCallFragments
  import opened ToolCallExact

  datatype Item = Say(text: Str) | Invoke(name: Str, params: seq<(Str, Str)>)

  // ---- what the template prints ----

  function PrintTag(tag: Str, name: Str): Str {
    tag + " name=\"" + name + "\">"
  }

  predicate NeedsCdata(v: Str) {
    '<' in v || '&' in v || '\n' in v
  }

  function PrintValue(v: Str): Str {
    if NeedsCdata(v) then CDATA_OPEN + v + CDATA_CLOSE else v
  }

  function PrintParams(params: seq<(Str, Str)>): Str {
    if params == [] then []
    else
      PrintTag(PARAM_OPEN, params[0].0) + (PrintValue(params[0].1) + (PARAM_CLOSE + PrintParams(params[1..])))
  }

  function PrintItem(item: Item): Str {
    match item
    case Say(t) => t
    case Invoke(name, params) => PrintTag(FN_OPEN, name) + (PrintParams(params) + FN_CLOSE)
  }

  function Print(items: seq<Item>): Str {
    if items == [] then [] else PrintItem(items[0]) + Print(items[1..])
  }

  // ---- what the client should see ----

  function ParamAtoms(params: seq<(Str, Str)>): seq<Atom> {
    if params == [] then [] else ValueBytes(params[0].0, params[0].1) + ParamAtoms(params[1..])
  }

  /** Atoms of the items when `n` calls came before them. */
  function ItemAtoms(items: seq<Item>, n: nat): seq<Atom> {
    if items == [] then []
    else match items[0]
      case Say(t) => TextBytes(t) + ItemAtoms(items[1..], n)
      case Invoke(name, params) =>
        ([Start(name)] + (ParamAtoms(params) + [End(Call(n, name, params))])) + ItemAtoms(items[1..], n + 1)
  }

  function ItemCalls(items: seq<Item>, n: nat): seq<Call> {
    if items == [] then []
    else match items[0]
      case Say(_) => ItemCalls(items[1..], n)
      case Invoke(name, params) => [Call(n, name, params)] + ItemCalls(items[1..], n + 1)
  }

  // ---- what may be printed ----

  ghost predicate NoSpace(s: Str) {
    forall i :: 0 <= i <= |s| ==> SpaceLen(s[i..]) == 0
  }

  ghost predicate Lacks(s: Str, pat: Str) {
    forall i :: 0 <= i ==> !OccursAt(s, pat, i)
  }

  ghost predicate PrintableName(n: Str) {
    && NoSpace(n) && '>' !in n
    && Lacks(n, "&lt;") && Lacks(n, "&gt;") && Lacks(n, "&quot;") && Lacks(n, "&amp;")
  }

  ghost predicate PrintableParams(params: seq<(Str, Str)>) {
    forall q :: q in params ==> PrintableName(q.0) && (NeedsCdata(q.1) ==> Lacks(q.1, CDATA_CLOSE))
  }

  ghost predicate Printable(items: seq<Item>) {
    forall item :: item in items ==>
      match item
      case Say(t) => '<' !in t
      case Invoke(name, params) => PrintableName(name) && PrintableParams(params)
  }

  // ---- reading one tag ----

  lemma {:induction false} ReplaceNone(s: Str, pat: Str, sub: Str)
    requires pat != [] && Lacks(s, pat)
    ensures Replace(s, pat, sub) == s
    decreases |s|
  {
    if |s| >= |pat| {
      assert !OccursAt(s, pat, 0);
      assert s[0..0 + |pat|] == s[..|pat|];
      forall i | 0 <= i ensures !OccursAt(s[1..], pat, i) {
        assert !OccursAt(s, pat, i + 1);
        if i + |pat| <= |s| - 1 {
          assert s[1..][i..i + |pat|] == s[i + 1..i + 1 + |pat|];
        }
      }
      ReplaceNone(s[1..], pat, sub);
    }
  }

  lemma NameDecodes(n: Str)
    requires PrintableName(n)
    ensures DecodeAttr(n) == n
  {
    ReplaceNone(n, "&lt;", "<");
    ReplaceNone(n, "&gt;", ">");
    ReplaceNone(n, "&quot;", "\"");
    ReplaceNone(n, "&amp;", "&");
  }

  lemma {:induction false} OneWord(s: Str)
    requires NoSpace(s)
    ensures WordLen(s) == |s|
    ensures s != [] ==> SplitWhitespace(s) == [s]
    decreases |s|
  {
    if s != [] {
      assert s[0..] == s;
      forall i | 0 <= i <= |s| - 1 ensures SpaceLen(s[1..][i..]) == 0 {
        assert s[1..][i..] == s[i + 1..];
      }
      OneWord(s[1..]);
      assert s[..|s|] == s && s[|s|..] == [];
      assert SplitWhitespace([]) == [];
    }
  }

  lemma QuotedNoSpace(n: Str)
    requires NoSpace(n)
    ensures NoSpace("name=\"" + n + "\"")
  {
    var s := "name=\"" + n + "\"";
    forall i | 0 <= i <= |s| ensures SpaceLen(s[i..]) == 0 {
      if i < 6 {
        assert s[i..][0] == "name=\""[i];
      } else if i < 6 + |n| {
        assert s[i..] == n[i - 6..] + "\"";
        assert SpaceLen(n[i - 6..]) == 0;
      } else if i == 6 + |n| {
        assert s[i..] == "\"";
      } else {
        assert s[i..] == [];
      }
    }
  }

  lemma AttrRead(n: Str)
    requires PrintableName(n)
    ensures AttrIn(SplitWhitespace(" name=\"" + n + "\"")) == Some(n)
  {
    hide DecodeAttr, WordLen, SpaceLen;
    var s := "name=\"" + n + "\"";
    var body := " name=\"" + n + "\"";
    assert body[1..] == s;
    LeadingSpace(body);
    QuotedNoSpace(n);
    OneWord(s);
    assert SplitWhitespace(body) == [s];
    assert s[6..|s| - 1] == n;
    assert "name=\"" <= s;
    NameDecodes(n);
  }

  lemma LeadingSpace(s: Str)
    requires s != [] && s[0] == ' '
    ensures SpaceLen(s) == 1
  {
  }

  lemma TagRead(tag: Str, n: Str, rest: Str)
    requires PrintableName(n) && '>' !in tag
    ensures TagLead(PrintTag(tag, n) + rest, tag) == Whole(n, rest)
  {
    hide AttrIn, SplitWhitespace;
    var body := " name=\"" + n + "\"";
    var b := PrintTag(tag, n) + rest;
    assert b == tag + (body + (">" + rest));
    assert '>' !in body;
    FindCharIs(b, '>', |tag| + |body|);
    assert b[|tag|..|tag| + |body|] == body;
    assert b[|tag| + |body| + 1..] == rest;
    AttrRead(n);
  }

  // ---- reading item by item ----

  ghost function Tell(atoms: seq<Atom>, v: Verdict): Verdict {
    Verdict(v.p, atoms + v.atoms)
  }

  /** From `p` the parser says `atoms` and then behaves as from `q`. */
  ghost predicate Reads(p: Parser, atoms: seq<Atom>, q: Parser) {
    && Final(p) == Tell(atoms, Final(q))
    && (OpenersAtSegmentStart(q) ==> OpenersAtSegmentStart(p))
  }

  lemma ReadsThen(p: Parser, a: seq<Atom>, q: Parser, b: seq<Atom>, r: Parser)
    requires Reads(p, a, q) && Reads(q, b, r)
    ensures Reads(p, a + b, r)
  {
    hide Final, OpenersAtSegmentStart;
    AtomsAssoc(a, b, Final(r).atoms);
  }

  lemma ReadsMore(p: Parser)
    requires Step(p).more && !PlainThenOpener(p)
    ensures Reads(p, Flat(Step(p).events), Step(p).p)
  {
    hide Step, Final, Flat;
    FinalMore(p);
  }

  lemma ReadsText(p: Parser, t: Str, rest: Str)
    requires p.mode == Text && '<' !in t
    ensures Reads(p.(buf := t + rest), TextBytes(t), p.(buf := rest))
  {
    hide Final, Flat, Step, TextBytes, OpenersAtSegmentStart;
    var whole, later, q := p.(buf := t + rest), p.(buf := rest), p.(buf := t);
    if t == [] {
      assert t + rest == rest;
      TextBytesNone(t);
      assert [] + Final(later).atoms == Final(later).atoms;
    } else if rest == [] {
      assert t + rest == t;
      PlainTextStep(whole);
      ReadsMore(whole);
      FlatOne(TextEvent(t));
    } else {
      FindCharIs(t, '<', |t|);
      JoinText(whole, t, rest);
      assert whole.(buf := rest) == later;
      FlatOne(TextEvent(t));
      SameNext(whole, later, [TextEvent(t)]);
      if OpenersAtSegmentStart(later) {
        FreshBack(whole, later);
      }
    }
  }

  lemma PlainTextStep(p: Parser)
    requires p.mode == Text && p.buf != [] && '<' !in p.buf
    ensures Step(p) == Outcome(p.(buf := []), [TextEvent(p.buf)], true)
  {
    FindCharIs(p.buf, '<', |p.buf|);
  }

  lemma FreshBack(p: Parser, q: Parser)
    requires !PlainThenOpener(p) && OpenersAtSegmentStart(q)
    requires Step(p).more ==> Step(q).more && Step(p).p == Step(q).p
    ensures OpenersAtSegmentStart(p)
  {
    hide Step;
  }

  lemma CloseFirst(rest: Str)
    ensures FindChar(PARAM_CLOSE + rest, '<') == 0
    ensures LiteralLead(PARAM_CLOSE + rest, CDATA_OPEN).Other?
    ensures LiteralLead(PARAM_CLOSE + rest, PARAM_CLOSE) == Whole(PARAM_CLOSE, rest)
    ensures !(CDATA_OPEN <= PARAM_CLOSE + rest)
  {
    var b := PARAM_CLOSE + rest;
    OpenerBytes();
    assert b[0] == PARAM_CLOSE[0] && b[1] == PARAM_CLOSE[1];
    assert b[|PARAM_CLOSE|..] == rest;
  }

  lemma ReadsValue(p: Parser, v: Str, rest: Str)
    requires p.mode == Param && '<' !in v
    ensures Reads(p.(buf := v + (PARAM_CLOSE + rest)), ValueBytes(p.paramName, v), AfterValue(p, v, PARAM_CLOSE + rest))
  {
    hide Final, Flat, Step, ValueBytes, StepValue, OpenersAtSegmentStart, LiteralLead;
    var x := PARAM_CLOSE + rest;
    var whole, later := p.(buf := v + x), AfterValue(p, v, x);
    CloseFirst(rest);
    if v == [] {
      assert v + x == x;
      assert p.paramValue + v == p.paramValue;
      ValueBytesNone(p.paramName, v);
      assert [] + Final(later).atoms == Final(later).atoms;
    } else {
      FindCharIs(v, '<', |v|);
      assert AfterValue(whole, v, x) == later;
      StepOfPlain(whole, v, x);
      assert x[0..] == x;
      StepAtClose(later);
      JoinValue(whole, v, x);
      FlatOne(ParamValue(p.paramName, v));
      SameNext(whole, later, [ParamValue(p.paramName, v)]);
      if OpenersAtSegmentStart(later) {
        FreshBack(whole, later);
      }
    }
  }

  lemma StepAtClose(p: Parser)
    requires p.mode == Param && LiteralLead(p.buf, CDATA_OPEN).Other?
    ensures Step(p) == StepValue(p)
  {
    hide LiteralLead, StepValue;
  }

  lemma ReadsClose(p: Parser, rest: Str)
    requires p.mode == Param
    ensures Reads(p.(buf := PARAM_CLOSE + rest), [], CloseParam(p.(buf := rest)))
  {
    hide Final, LiteralLead, Consumes, OpenersAtSegmentStart;
    var q := p.(buf := PARAM_CLOSE + rest);
    CloseFirst(rest);
    assert q.buf[0..] == q.buf;
    assert p.paramValue + q.buf[..0] == p.paramValue;
    assert Step(q) == Outcome(CloseParam(p.(buf := rest)), [], true);
    assert !PlainThenOpener(q);
    ReadsMore(q);
    FlatNone();
  }

  lemma ReadsCdata(p: Parser, v: Str, rest: Str)
    requires p.mode == Param && Lacks(v, CDATA_CLOSE)
    ensures Reads(p.(buf := (CDATA_OPEN + v + CDATA_CLOSE) + rest), ValueBytes(p.paramName, v), AfterValue(p, v, rest))
  {
    hide Final, Flat, Find, ValueBytes, OpenersAtSegmentStart, LiteralLead, StepText, StepFunction, StepValue, Consumes;
    var whole := p.(buf := (CDATA_OPEN + v + CDATA_CLOSE) + rest);
    var inside := p.(mode := Cdata, buf := v + (CDATA_CLOSE + rest));
    assert whole.buf == CDATA_OPEN + inside.buf;
    OpenerLead(inside.buf);
    assert Step(whole) == Outcome(inside, [], true);
    CdataEnd(v, rest);
    assert inside.buf[..|v|] == v && inside.buf[|v| + 3..] == rest;
    assert Step(inside) == Outcome(AfterValue(p, v, rest), [ParamValue(p.paramName, v)], true);
    ReadsMore(whole);
    ReadsMore(inside);
    FlatNone();
    FlatOne(ParamValue(p.paramName, v));
    ReadsThen(whole, [], inside, ValueBytes(p.paramName, v), AfterValue(p, v, rest));
    assert [] + ValueBytes(p.paramName, v) == ValueBytes(p.paramName, v);
  }

  lemma OpenerLead(x: Str)
    ensures LiteralLead(CDATA_OPEN + x, CDATA_OPEN) == Whole(CDATA_OPEN, x)
    ensures FindChar(CDATA_OPEN + x, '<') == 0
  {
    OpenerFirst(CDATA_OPEN + x);
    assert (CDATA_OPEN + x)[|CDATA_OPEN|..] == x;
  }

  lemma CdataEnd(v: Str, rest: Str)
    requires Lacks(v, CDATA_CLOSE)
    ensures Find(v + (CDATA_CLOSE + rest), CDATA_CLOSE) == Some(|v|)
  {
    var s := v + (CDATA_CLOSE + rest);
    assert CDATA_CLOSE[0] == ']' && CDATA_CLOSE[1] == ']' && CDATA_CLOSE[2] == '>';
    assert s[|v|..|v| + 3] == CDATA_CLOSE;
    forall j | 0 <= j < |v| ensures !OccursAt(s, CDATA_CLOSE, j) {
      assert !OccursAt(v, CDATA_CLOSE, j);
      if j + 3 <= |v| {
        assert s[j..j + 3] == v[j..j + 3];
      } else {
        assert s[j..j + 3][2] == s[j + 2] == CDATA_CLOSE[j + 2 - |v|];
      }
    }
    FindIs(s, CDATA_CLOSE, |v|);
  }

  /** A parser between the parameters of a call. */
  ghost predicate Between(p: Parser) {
    p.mode == Function && p.paramName == [] && p.paramValue == []
  }

  lemma ReadsParam(p: Parser, n: Str, v: Str, rest: Str)
    requires Between(p) && PrintableName(n) && (NeedsCdata(v) ==> Lacks(v, CDATA_CLOSE))
    ensures Reads(p.(buf := PrintTag(PARAM_OPEN, n) + (PrintValue(v) + (PARAM_CLOSE + rest))),
                  ValueBytes(n, v), p.(params := p.params + [(n, v)], buf := rest))
  {
    hide Final, Flat, Step, ValueBytes, OpenersAtSegmentStart, Lacks, PrintTag, Reads;
    var tail := PrintValue(v) + (PARAM_CLOSE + rest);
    var q := p.(mode := Param, paramName := n, paramValue := []);
    var end := p.(params := p.params + [(n, v)], buf := rest);
    ParamTagStep(p.(buf := PrintTag(PARAM_OPEN, n) + tail), n, tail);
    ReadsMore(p.(buf := PrintTag(PARAM_OPEN, n) + tail));
    FlatNone();
    var r := AfterValue(q, v, PARAM_CLOSE + rest);
    if NeedsCdata(v) {
      ReadsCdata(q, v, PARAM_CLOSE + rest);
    } else {
      ReadsValue(q, v, rest);
    }
    assert [] + v == v;
    ReadsClose(r, rest);
    assert CloseParam(r.(buf := rest)) == end;
    ReadsThen(q.(buf := tail), ValueBytes(n, v), r, [], end);
    ReadsThen(p.(buf := PrintTag(PARAM_OPEN, n) + tail), [], q.(buf := tail), ValueBytes(n, v) + [], end);
    assert [] + (ValueBytes(n, v) + []) == ValueBytes(n, v);
  }

  lemma ParamTagStep(p: Parser, n: Str, tail: Str)
    requires Between(p) && PrintableName(n) && p.buf == PrintTag(PARAM_OPEN, n) + tail
    ensures Step(p) == Outcome(p.(mode := Param, paramName := n, paramValue := [], buf := tail), [], true)
    ensures !PlainThenOpener(p)
  {
    hide TagLead, LiteralLead, PrintableName, StepText, StepParam, StepCdata, Consumes;
    TagRead(PARAM_OPEN, n, tail);
    assert p.buf[0] == PARAM_OPEN[0];
    FindCharIs(p.buf, '<', 0);
    OneTag(p.buf);
  }

  lemma ReadsParams(p: Parser, params: seq<(Str, Str)>, rest: Str)
    requires Between(p) && PrintableParams(params)
    ensures Reads(p.(buf := PrintParams(params) + rest), ParamAtoms(params),
                  p.(params := p.params + params, buf := rest))
    decreases |params|
  {
    hide Final, PrintableName, ValueBytes, OpenersAtSegmentStart, Lacks, PrintTag, PrintValue, Reads;
    var whole := p.(buf := PrintParams(params) + rest);
    var end := p.(params := p.params + params, buf := rest);
    if params == [] {
      assert [] + rest == rest && p.params + [] == p.params;
      ReadsSelf(end);
    } else {
      var (n, v) := params[0];
      var more := PrintParams(params[1..]) + rest;
      assert whole.buf == PrintTag(PARAM_OPEN, n) + (PrintValue(v) + (PARAM_CLOSE + more));
      ReadsParam(p, n, v, more);
      var q := p.(params := p.params + [(n, v)]);
      ReadsParams(q, params[1..], rest);
      assert (p.params + [params[0]]) + params[1..] == p.params + params;
      ReadsThen(whole, ValueBytes(n, v), q.(buf := more), ParamAtoms(params[1..]), end);
    }
  }

  lemma ReadsSelf(p: Parser)
    ensures Reads(p, [], p)
  {
    hide Final;
    assert [] + Final(p).atoms == Final(p).atoms;
  }

  /** A parser outside any call. */
  ghost predicate Outside(p: Parser) {
    p == Init.(buf := p.buf, calls := p.calls)
  }

  lemma FunctionTagStep(p: Parser, n: Str, tail: Str)
    requires Outside(p) && PrintableName(n) && p.buf == PrintTag(FN_OPEN, n) + tail
    ensures Step(p) == Outcome(p.(mode := Function, name := n, buf := tail), [CallStart(n)], true)
  {
    hide TagLead, PrintableName, StepFunction, StepParam, StepCdata, Consumes;
    TagRead(FN_OPEN, n, tail);
    assert p.buf[0] == FN_OPEN[0];
    FindCharIs(p.buf, '<', 0);
    assert p.buf[0..] == p.buf;
  }

  lemma FunctionCloseStep(p: Parser, rest: Str)
    requires p.mode == Function && p.buf == FN_CLOSE + rest
    ensures Step(p) == CloseFunction(p.(buf := rest))
    ensures !PlainThenOpener(p)
  {
    hide TagLead, StepText, StepParam, StepCdata, Consumes;
    assert p.buf[0] == FN_CLOSE[0];
    FindCharIs(p.buf, '<', 0);
    assert p.buf[|FN_CLOSE|..] == rest;
  }

  lemma ReadsInvoke(p: Parser, name: Str, params: seq<(Str, Str)>, rest: Str)
    requires Outside(p) && PrintableName(name) && PrintableParams(params)
    ensures
      var call := Call(|p.calls|, name, params);
      Reads(p.(buf := PrintTag(FN_OPEN, name) + (PrintParams(params) + (FN_CLOSE + rest))),
            [Start(name)] + (ParamAtoms(params) + [End(call)]),
            p.(calls := p.calls + [call], buf := rest))
  {
    hide Final, Step, PrintableName, PrintableParams, OpenersAtSegmentStart, PrintTag, PrintParams, ParamAtoms, Reads;
    var tail := PrintParams(params) + (FN_CLOSE + rest);
    var whole := p.(buf := PrintTag(FN_OPEN, name) + tail);
    var call := Call(|p.calls|, name, params);
    var open := p.(mode := Function, name := name);
    var full := open.(params := params, buf := FN_CLOSE + rest);
    var end := p.(calls := p.calls + [call], buf := rest);
    FunctionTagStep(whole, name, tail);
    ReadsMore(whole);
    FlatOne(CallStart(name));
    ReadsParams(open, params, FN_CLOSE + rest);
    assert [] + params == params;
    FunctionCloseStep(full, rest);
    ReadsMore(full);
    FlatOne(CallEnd(call));
    assert CloseFunction(full.(buf := rest)).p == end;
    ReadsThen(open.(buf := tail), ParamAtoms(params), full, [End(call)], end);
    ReadsThen(whole, [Start(name)], open.(buf := tail), ParamAtoms(params) + [End(call)], end);
  }

  lemma ReadsSay(p: Parser, t: Str, more: Str, atoms: seq<Atom>, end: Parser)
    requires Outside(p) && '<' !in t && Reads(p.(buf := more), atoms, end)
    ensures Reads(p.(buf := t + more), TextBytes(t) + atoms, end)
  {
    hide Reads, TextBytes;
    ReadsText(p, t, more);
    ReadsThen(p.(buf := t + more), TextBytes(t), p.(buf := more), atoms, end);
  }

  lemma ReadsCall(p: Parser, name: Str, params: seq<(Str, Str)>, more: Str, atoms: seq<Atom>, end: Parser)
    requires Outside(p) && PrintableName(name) && PrintableParams(params)
    requires Reads(p.(calls := p.calls + [Call(|p.calls|, name, params)], buf := more), atoms, end)
    ensures
      Reads(p.(buf := PrintItem(Invoke(name, params)) + more),
            ([Start(name)] + (ParamAtoms(params) + [End(Call(|p.calls|, name, params))])) + atoms, end)
  {
    hide Reads, PrintTag, PrintParams, ParamAtoms, PrintableName, PrintableParams;
    var whole := PrintTag(FN_OPEN, name) + (PrintParams(params) + (FN_CLOSE + more));
    assert PrintItem(Invoke(name, params)) + more == whole;
    ReadsInvoke(p, name, params, more);
    var call := Call(|p.calls|, name, params);
    ReadsThen(p.(buf := whole), [Start(name)] + (ParamAtoms(params) + [End(call)]),
              p.(calls := p.calls + [call], buf := more), atoms, end);
  }

  lemma ReadsItems(p: Parser, items: seq<Item>)
    requires Outside(p) && Printable(items)
    ensures Reads(p.(buf := Print(items)), ItemAtoms(items, |p.calls|),
                  p.(calls := p.calls + ItemCalls(items, |p.calls|), buf := []))
    decreases |items|
  {
    hide PrintableName, PrintableParams, PrintItem, Reads, TextBytes, ParamAtoms;
    var n := |p.calls|;
    var end := p.(calls := p.calls + ItemCalls(items, n), buf := []);
    if items == [] {
      assert p.calls + [] == p.calls;
      ReadsSelf(end);
    } else {
      var more := Print(items[1..]);
      assert items[0] in items;
      assert forall item :: item in items[1..] ==> item in items;
      match items[0]
      case Say(t) =>
        ReadsItems(p, items[1..]);
        SayPrints(t);
        ReadsSay(p, t, more, ItemAtoms(items[1..], n), end);
      case Invoke(name, params) =>
        var call := Call(n, name, params);
        var q := p.(calls := p.calls + [call]);
        ReadsItems(q, items[1..]);
        assert (p.calls + [call]) + ItemCalls(items[1..], n + 1) == p.calls + ([call] + ItemCalls(items[1..], n + 1));
        ReadsCall(p, name, params, more, ItemAtoms(items[1..], n + 1), end);
    }
  }

  lemma SayPrints(t: Str)
    ensures PrintItem(Say(t)) == t
  {
  }

  lemma FinalAtRest(p: Parser)
    requires Outside(p) && p.buf == []
    ensures Final(p) == Verdict(p, []) && OpenersAtSegmentStart(p)
  {
    hide StepFunction, StepParam, StepCdata, Consumes, Run, Flat;
    assert Step(p) == Outcome(p, [], false);
    FinalRest(p);
    SaidNone(Finished(p));
    FlatOne(TextEvent([]));
  }

  /** Texts and calls printed the way the chat template prints them are read back
      exactly: same text, same calls with the same parameters in the same order,
      and in the same sequence, however the printed text is cut into fragments. */
  lemma PrintThenParse(items: seq<Item>, fragments: seq<Str>)
    requires Printable(items) && Concat(fragments) == Print(items)
    ensures Parsed(fragments) == Verdict(Init.(calls := ItemCalls(items, 0)), ItemAtoms(items, 0))
  {
    hide Run, Step, Finish, Flat, Pushes, OpenersAtSegmentStart, Printable, ItemAtoms, ItemCalls, Final;
    var w := Print(items);
    var p := Fed(Init, w);
    assert p.buf == w;
    assert p == Init.(buf := w);
    ReadsItems(Init, items);
    var end := Init.(calls := [] + ItemCalls(items, 0), buf := []);
    assert [] + ItemCalls(items, 0) == ItemCalls(items, 0);
    FinalAtRest(end);
    assert ItemAtoms(items, 0) + [] == ItemAtoms(items, 0);
    FragmentationIndependence(fragments);
    WholeIsFinal(w);
  }

  lemma WholeIsFinal(w: Str)
    ensures ParsedWhole(w) == Final(Fed(Init, w))
  {
    hide Run, Finish, Flat;
    assert [w][1..] == [];
    var r := Run(Fed(Init, w));
    assert Pushes(r.p, []) == Result(r.p, []);
    assert r.events + [] == r.events;
    assert Pushes(Init, [w]) == r;
  }
}
