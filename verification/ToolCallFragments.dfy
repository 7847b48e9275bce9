/** The parser's verdict does not depend on how the text was cut into
    fragments, exactly when every CDATA opener stands at the start of a
    segment of its parameter value. */
module ToolCallFragments {
  import opened Strings
  import opened ToolCall

  ghost function Said(events: seq<Event>, v: Verdict): Verdict {
    Verdict(v.p, Flat(events) + v.atoms)
  }

  lemma {:induction false} FlatAppend(a: seq<Event>, b: seq<Event>)
    ensures Flat(a + b) == Flat(a) + Flat(b)
  {
    if a == [] {
      assert a + b == b;
    } else {
      assert (a + b)[1..] == a[1..] + b;
      FlatAppend(a[1..], b);
    }
  }

  lemma FlatOne(e: Event)
    ensures Flat([e]) == Atoms(e)
    ensures e.TextEvent? ==> Flat([e]) == TextBytes(e.text)
    ensures e.ParamValue? ==> Flat([e]) == ValueBytes(e.param, e.value)
  {
    assert [e][1..] == [];
  }

  /** One pass that makes progress says its events first. */
  lemma FinalMore(p: Parser)
    requires Step(p).more
    ensures Final(p) == Said(Step(p).events, Final(Step(p).p))
  {
    var o := Step(p);
    var r := Run(o.p);
    var f := Finish(r.p);
    assert (o.events + r.events) + f.events == o.events + (r.events + f.events);
    FlatAppend(o.events, r.events + f.events);
  }

  ghost function Finished(p: Parser): Verdict {
    Verdict(Finish(p).p, Flat(Finish(p).events))
  }

  lemma FinalRest(p: Parser)
    requires !Step(p).more
    ensures Final(p) == Said(Step(p).events, Finished(Step(p).p))
  {
    FlatAppend(Step(p).events, Finish(Step(p).p).events);
  }

  /** Two parsers whose next passes meet differ only by what was said so far. */
  lemma SameNext(p: Parser, q: Parser, es: seq<Event>)
    requires Step(p).p == Step(q).p && Step(p).more == Step(q).more
    requires Flat(Step(p).events) == Flat(es) + Flat(Step(q).events)
    ensures Final(p) == Said(es, Final(q))
  {
    hide Step, Run, Finish, Final, Flat;
    if Step(p).more {
      FinalMore(p);
      FinalMore(q);
    } else {
      FinalRest(p);
      FinalRest(q);
    }
  }

  lemma PrefixExtend(b: Str, x: Str, lit: Str)
    ensures lit <= b ==> lit <= b + x
    ensures !(lit <= b) && !ViablePrefix(b, lit) ==> !(lit <= b + x) && !ViablePrefix(b + x, lit)
  {
    if lit <= b + x && |b| >= |lit| {
      assert (b + x)[..|lit|] == b[..|lit|];
    }
    if lit <= b + x && |b| < |lit| {
      assert b == (b + x)[..|b|] == lit[..|b|];
    }
    if b + x <= lit {
      assert b == (b + x)[..|b|] == lit[..|b|];
    }
  }

  lemma FindCharExtend(b: Str, x: Str, c: char)
    ensures FindChar(b, c) < |b| ==> FindChar(b + x, c) == FindChar(b, c)
    ensures FindChar(b, c) == |b| ==> FindChar(b + x, c) == |b| + FindChar(x, c)
  {
    if FindChar(b, c) < |b| {
      FindCharIs(b + x, c, FindChar(b, c));
    } else {
      FindCharIs(b + x, c, |b| + FindChar(x, c));
    }
  }

  lemma TagExtend(b: Str, x: Str, tag: Str)
    requires tag <= b && TagComplete(b)
    ensures tag <= b + x && TagComplete(b + x)
    ensures ParseTag(b + x, tag) == ParseTag(b, tag)
    ensures AfterTag(b + x) == AfterTag(b) + x
  {
    PrefixExtend(b, x, tag);
    FindCharExtend(b, x, '>');
    var close := FindChar(b, '>');
    if |tag| <= close {
      assert (b + x)[|tag|..close] == b[|tag|..close];
    }
  }

  function Longer(l: Lead, x: Str): Lead {
    if l.Whole? then l.(rest := l.rest + x) else l
  }

  /** Once decided, a lead stays decided. */
  lemma LeadExtend(b: Str, x: Str, tag: Str)
    ensures !TagLead(b, tag).Hold? ==> TagLead(b + x, tag) == Longer(TagLead(b, tag), x)
    ensures !LiteralLead(b, tag).Hold? ==> LiteralLead(b + x, tag) == Longer(LiteralLead(b, tag), x)
  {
    hide ParseTag, AfterTag;
    PrefixExtend(b, x, tag);
    if tag <= b {
      assert (b + x)[|tag|..] == b[|tag|..] + x;
      if TagComplete(b) {
        TagExtend(b, x, tag);
      }
    }
  }

  lemma TextBytesAppend(a: Str, b: Str)
    ensures TextBytes(a + b) == TextBytes(a) + TextBytes(b)
  {
  }

  lemma ValueBytesAppend(n: Str, a: Str, b: Str)
    ensures ValueBytes(n, a + b) == ValueBytes(n, a) + ValueBytes(n, b)
  {
  }

  ghost predicate Stable(p: Parser, x: Str) {
    Step(Fed(p, x)) == Outcome(Fed(Step(p).p, x), Step(p).events, true)
  }

  // ---- a pass that makes progress is not changed by later text ----

  lemma StableText(p: Parser, x: Str)
    requires p.mode == Text && Step(p).more && FindChar(p.buf, '<') < |p.buf|
    ensures Stable(p, x)
  {
    hide TagLead;
    var i := FindChar(p.buf, '<');
    var b := p.buf[i..];
    FindCharExtend(p.buf, x, '<');
    assert (p.buf + x)[i..] == b + x;
    assert (p.buf + x)[..i] == p.buf[..i];
    assert (b + x)[1..] == b[1..] + x;
    LeadExtend(b, x, FN_OPEN);
  }

  lemma OneTag(b: Str)
    ensures TagLead(b, PARAM_OPEN).Whole? ==> LiteralLead(b, FN_CLOSE).Other?
  {
    if PARAM_OPEN <= b {
      assert b[1] == 'p' && FN_CLOSE[1] == '/';
    }
  }

  lemma StableFunction(p: Parser, x: Str)
    requires p.mode == Function && Step(p).more
    ensures Stable(p, x)
  {
    hide TagLead, LiteralLead;
    var i := FindChar(p.buf, '<');
    FindCharExtend(p.buf, x, '<');
    if i > 0 {
      assert (p.buf + x)[i..] == p.buf[i..] + x;
    } else {
      LeadExtend(p.buf, x, FN_CLOSE);
      LeadExtend(p.buf, x, PARAM_OPEN);
      OneTag(p.buf);
      assert (p.buf + x)[1..] == p.buf[1..] + x;
    }
  }

  lemma StableValue(p: Parser, x: Str)
    requires p.buf != [] && StepValue(p).more && FindChar(p.buf, '<') < |p.buf|
    ensures StepValue(Fed(p, x)) == Outcome(Fed(StepValue(p).p, x), StepValue(p).events, true)
  {
    hide LiteralLead, Consumes, FindChar;
    var i := FindChar(p.buf, '<');
    var b := p.buf[i..];
    FindCharExtend(p.buf, x, '<');
    assert (p.buf + x)[i..] == b + x;
    assert (p.buf + x)[..i] == p.buf[..i];
    LeadExtend(b, x, PARAM_CLOSE);
    assert (b + x)[1..] == b[1..] + x;
  }

  lemma StableParam(p: Parser, x: Str)
    requires p.mode == Param && Step(p).more && FindChar(p.buf, '<') < |p.buf|
    ensures Stable(p, x)
  {
    hide LiteralLead, StepValue;
    LeadExtend(p.buf, x, CDATA_OPEN);
    if LiteralLead(p.buf, CDATA_OPEN).Other? {
      StableValue(p, x);
    }
  }

  lemma FindExtend(b: Str, x: Str, pat: Str)
    ensures Find(b, pat).Some? ==> Find(b + x, pat) == Find(b, pat)
  {
    var r := Find(b, pat);
    if r.Some? {
      assert (b + x)[r.value..r.value + |pat|] == b[r.value..r.value + |pat|];
      forall j | 0 <= j < r.value ensures !OccursAt(b + x, pat, j) {
        assert !OccursAt(b, pat, j);
        assert (b + x)[j..j + |pat|] == b[j..j + |pat|];
      }
      FindIs(b + x, pat, r.value);
    }
  }

  lemma StableCdata(p: Parser, x: Str)
    requires p.mode == Cdata && Step(p).more
    ensures Stable(p, x)
  {
    FindExtend(p.buf, x, CDATA_CLOSE);
    var i := Find(p.buf, CDATA_CLOSE).value;
    assert (p.buf + x)[i + |CDATA_CLOSE|..] == p.buf[i + |CDATA_CLOSE|..] + x;
    assert (p.buf + x)[..i] == p.buf[..i];
  }

  /** A pass over a buffer that still holds a '<', or in Function or Cdata mode,
      does the same whatever follows. */
  lemma StepStable(p: Parser, x: Str)
    requires Step(p).more
    requires p.mode == Text || p.mode == Param ==> FindChar(p.buf, '<') < |p.buf|
    ensures Stable(p, x)
  {
    match p.mode
    case Text => StableText(p, x);
    case Function => StableFunction(p, x);
    case Param => StableParam(p, x);
    case Cdata => StableCdata(p, x);
  }

  // ---- passes that stop early, and what later text makes of them ----

  ghost predicate SplitText(p: Parser, t: Str, x: Str) {
    p.mode == Text && p.buf == t + x && t != [] && x != [] && FindChar(t, '<') == |t|
  }

  /** What follows the plain text at the head of `x`. */
  ghost function TextTail(p: Parser, x: Str): seq<Event> {
    var k := FindChar(x, '<');
    if k < |x| then TextAtTag(p.(buf := x[k..])).events else []
  }

  lemma TextStepAtTag(p: Parser)
    requires p.mode == Text && FindChar(p.buf, '<') < |p.buf|
    ensures
      var i := FindChar(p.buf, '<');
      var o := TextAtTag(p.(buf := p.buf[i..]));
      Step(p) == Outcome(o.p, (if i > 0 then [TextEvent(p.buf[..i])] else []) + o.events, o.more)
  {
    hide TextAtTag, StepFunction, StepParam, StepCdata, Consumes, FindChar;
  }

  lemma TextStepPlain(p: Parser)
    requires p.mode == Text && p.buf != [] && FindChar(p.buf, '<') == |p.buf|
    ensures Step(p) == Outcome(p.(buf := []), [TextEvent(p.buf)], true)
  {
    hide TextAtTag, StepFunction, StepParam, StepCdata, Consumes, FindChar;
  }

  lemma TextStepNone(p: Parser)
    requires p.mode == Text && p.buf == []
    ensures Step(p) == Outcome(p, [], false)
  {
  }

  /** Plain text before `x` joins the plain text at the head of `x` and changes nothing else. */
  lemma JoinTextStep(p: Parser, t: Str, x: Str)
    requires SplitText(p, t, x)
    ensures
      var k, o, o' := FindChar(x, '<'), Step(p), Step(p.(buf := x));
      && o.p == o'.p && o.more == o'.more
      && o.events == [TextEvent(t + x[..k])] + TextTail(p, x)
      && o'.events == (if k > 0 then [TextEvent(x[..k])] else []) + TextTail(p, x)
  {
    hide TextAtTag, Step, FindChar;
    var k := FindChar(x, '<');
    FindCharExtend(t, x, '<');
    if k < |x| {
      TextStepAtTag(p);
      TextStepAtTag(p.(buf := x));
      assert t + x[..k] == p.buf[..|t| + k];
      assert p.buf[|t| + k..] == x[k..];
      assert p.(buf := x).(buf := x[k..]) == p.(buf := x[k..]);
    } else {
      TextStepPlain(p);
      TextStepPlain(p.(buf := x));
      assert x[..k] == x;
    }
  }

  /** Text before a '<': said at once or together with what follows, it reads the same. */
  lemma JoinText(p: Parser, t: Str, x: Str)
    requires SplitText(p, t, x)
    ensures Step(p).p == Step(p.(buf := x)).p && Step(p).more == Step(p.(buf := x)).more
    ensures Flat(Step(p).events) == TextBytes(t) + Flat(Step(p.(buf := x)).events)
  {
    hide Step, Flat, TextBytes, FindChar, Atoms, TextTail;
    JoinTextStep(p, t, x);
    var k := FindChar(x, '<');
    var tail := TextTail(p, x);
    FlatText(t + x[..k], tail);
    FlatText(x[..k], tail);
    TextBytesAppend(t, x[..k]);
    AtomsAssoc(TextBytes(t), TextBytes(x[..k]), Flat(tail));
    if k == 0 {
      assert [] + tail == tail;
      TextBytesNone(x[..k]);
      assert [] + Flat(tail) == Flat(tail);
    }
  }

  lemma FlatText(t: Str, tail: seq<Event>)
    ensures Flat([TextEvent(t)] + tail) == TextBytes(t) + Flat(tail)
  {
    FlatAppend([TextEvent(t)], tail);
    FlatOne(TextEvent(t));
  }

  lemma AtomsAssoc(a: seq<Atom>, b: seq<Atom>, c: seq<Atom>)
    ensures (a + b) + c == a + (b + c)
  {
  }

  lemma TextBytesNone(t: Str)
    ensures t == [] ==> TextBytes(t) == []
  {
  }

  /** A pass that waits at a '<' starts again at that '<'. */
  lemma WaitText(p: Parser, x: Str)
    requires p.mode == Text && !Step(p).more && p.buf != []
    ensures
      var whole, later := Fed(p, x), Fed(Step(p).p, x);
      && Step(whole).p == Step(later).p && Step(whole).more == Step(later).more
      && Step(whole).events == Step(p).events + Step(later).events
      && later.mode == Text
  {
    hide TagLead, StepFunction, StepParam, StepCdata, Consumes;
    var i := FindChar(p.buf, '<');
    var b := p.buf[i..];
    FindCharExtend(p.buf, x, '<');
    assert (p.buf + x)[i..] == b + x;
    assert (p.buf + x)[..i] == p.buf[..i];
    FindCharIs(b + x, '<', 0);
    assert (b + x)[0..] == b + x;
  }

  lemma PauseText(p: Parser, x: Str)
    requires p.mode == Text && (!Step(p).more || FindChar(p.buf, '<') == |p.buf|)
    ensures Final(Fed(p, x)) == Said(Step(p).events, Final(Fed(Step(p).p, x)))
  {
    hide Step, Run, Finish, Final, Flat, FindChar;
    var o := Step(p);
    var whole, later := Fed(p, x), Fed(o.p, x);
    FlatNone();
    if p.buf == [] {
      TextStepNone(p);
      assert whole == later;
    } else if x == [] && o.more {
      assert whole == p && later == o.p;
      FinalMore(p);
    } else if o.more {
      TextStepPlain(p);
      assert later.buf == x;
      assert later == whole.(buf := x);
      JoinText(whole, p.buf, x);
      FlatOne(TextEvent(p.buf));
      SameNext(whole, later, o.events);
    } else {
      WaitText(p, x);
      FlatAppend(o.events, Step(later).events);
      SameNext(whole, later, o.events);
    }
  }

  lemma FlatNone()
    ensures Flat([]) == []
  {
  }

  lemma FreshSameNext(p: Parser, q: Parser)
    requires OpenersAtSegmentStart(p) && !PlainThenOpener(q)
    requires Step(q).more ==> Step(p).more && Step(p).p == Step(q).p
    ensures OpenersAtSegmentStart(q)
  {
  }

  lemma PauseTextFresh(p: Parser, x: Str)
    requires p.mode == Text && (!Step(p).more || FindChar(p.buf, '<') == |p.buf|)
    requires OpenersAtSegmentStart(Fed(p, x))
    ensures OpenersAtSegmentStart(Fed(Step(p).p, x))
  {
    hide TextAtTag, StepFunction, StepParam, StepCdata, Consumes, OpenersAtSegmentStart;
    var o := Step(p);
    var whole, later := Fed(p, x), Fed(o.p, x);
    if p.buf == [] {
      assert whole == later;
    } else if x == [] && o.more {
      assert Step(later) == Outcome(later, [], false);
      FreshSameNext(whole, later);
    } else if o.more {
      assert later == whole.(buf := x);
      JoinText(whole, p.buf, x);
      FreshSameNext(whole, later);
    } else {
      WaitText(p, x);
      FreshSameNext(whole, later);
    }
  }

  lemma FunctionPlain(p: Parser)
    requires p.mode == Function
    ensures
      var i := FindChar(p.buf, '<');
      && (i == |p.buf| ==> Step(p) == Outcome(p.(buf := []), [], false))
      && (0 < i < |p.buf| ==> Step(p) == Outcome(p.(buf := p.buf[i..]), [], true))
      && (!Step(p).more && i < |p.buf| ==> Step(p) == Outcome(p, [], false))
  {
    hide TagLead, LiteralLead, StepText, StepParam, StepCdata, Consumes, FindChar;
  }

  lemma SkipThenTag(p: Parser, x: Str)
    requires p.mode == Function && p.buf != [] && FindChar(p.buf, '<') == |p.buf|
    ensures
      var whole, later := Fed(p, x), p.(buf := x);
      && (x != [] && FindChar(x, '<') == 0 ==> Step(whole) == Outcome(later, [], true))
      && (x == [] || FindChar(x, '<') > 0 ==> Step(whole) == Step(later))
  {
    hide Step, FindChar;
    var whole, later, k := p.(buf := p.buf + x), p.(buf := x), FindChar(x, '<');
    assert Fed(p, x) == whole;
    hide Fed;
    FindCharExtend(p.buf, x, '<');
    FunctionPlain(whole);
    if k < |x| {
      assert whole.buf[|p.buf| + k..] == x[k..];
    }
    if k > 0 || x == [] {
      FunctionPlain(later);
    } else {
      assert x[0..] == x;
    }
  }

  lemma PauseFunctionStep(p: Parser, x: Str)
    requires p.mode == Function && !Step(p).more
    ensures
      var whole, later := Fed(p, x), Fed(Step(p).p, x);
      && Step(p).events == [] && later.mode == Function
      && (later == whole || Step(whole) == Outcome(later, [], true) || Step(whole) == Step(later))
  {
    hide Step, FindChar;
    FunctionPlain(p);
    if FindChar(p.buf, '<') == |p.buf| && p.buf != [] {
      SkipThenTag(p, x);
      assert [] + x == x;
    }
  }

  lemma PauseFunction(p: Parser, x: Str)
    requires p.mode == Function && !Step(p).more
    ensures Final(Fed(p, x)) == Said(Step(p).events, Final(Fed(Step(p).p, x)))
    ensures OpenersAtSegmentStart(Fed(p, x)) ==> OpenersAtSegmentStart(Fed(Step(p).p, x))
  {
    hide Run, Finish, Final, Flat, Step, OpenersAtSegmentStart;
    var whole, later := Fed(p, x), Fed(Step(p).p, x);
    PauseFunctionStep(p, x);
    SaidNone(Final(later));
    if Step(whole) == Outcome(later, [], true) {
      FinalMore(whole);
      FreshUnfold(whole);
    } else if whole != later {
      FlatAppend([], Step(later).events);
      assert [] + Step(later).events == Step(later).events;
      SameNext(whole, later, []);
      if OpenersAtSegmentStart(whole) {
        FreshSameNext(whole, later);
      }
    }
  }

  lemma FreshUnfold(p: Parser)
    requires Step(p).more
    ensures OpenersAtSegmentStart(p) ==> OpenersAtSegmentStart(Step(p).p)
  {
  }

  // ---- parameter values ----

  lemma FlatValue(n: Str, t: Str, tail: seq<Event>)
    ensures Flat([ParamValue(n, t)] + tail) == ValueBytes(n, t) + Flat(tail)
  {
    FlatAppend([ParamValue(n, t)], tail);
    FlatOne(ParamValue(n, t));
  }

  lemma ValueBytesNone(n: Str, t: Str)
    ensures t == [] ==> ValueBytes(n, t) == []
  {
  }

  /** Values said in two parts. */
  lemma SaidValue(n: Str, a: Str, b: Str, v: Verdict)
    ensures Said([ParamValue(n, a + b)], v) == Said([ParamValue(n, a)], Said([ParamValue(n, b)], v))
    ensures a == [] ==> Said([ParamValue(n, a)], v) == v
  {
    FlatOne(ParamValue(n, a + b));
    FlatOne(ParamValue(n, a));
    FlatOne(ParamValue(n, b));
    ValueBytesAppend(n, a, b);
    AtomsAssoc(ValueBytes(n, a), ValueBytes(n, b), v.atoms);
    ValueBytesNone(n, a);
    assert [] + v.atoms == v.atoms;
  }

  lemma SaidTwice(a: seq<Event>, b: seq<Event>, v: Verdict)
    ensures Said(a + b, v) == Said(a, Said(b, v))
  {
    FlatAppend(a, b);
    AtomsAssoc(Flat(a), Flat(b), v.atoms);
  }

  lemma SaidNone(v: Verdict)
    ensures Said([], v) == v
  {
    FlatNone();
    assert [] + v.atoms == v.atoms;
  }

  ghost function Released(p: Parser): Parser {
    EmitValue(p, p.buf).(buf := [])
  }

  /** `finish` inside a parameter releases what is held back. */
  lemma FinishedValue(p: Parser)
    requires p.mode == Param || p.mode == Cdata
    ensures Finished(p) == Said([ParamValue(p.paramName, p.buf)], Finished(Released(p)))
  {
    hide Flat, Atoms;
    var o := CloseFunction(CloseParam(Released(p)));
    assert Released(p).paramValue + [] == Released(p).paramValue;
    assert CloseParam(EmitValue(p.(buf := []), p.buf)) == CloseParam(Released(p));
    assert [] + o.events == o.events;
    assert Finish(Released(p)) == Result(o.p, o.events);
    if p.buf != [] {
      FlatAppend([ParamValue(p.paramName, p.buf)], o.events);
    } else {
      SaidValue(p.paramName, p.buf, [], Finished(Released(p)));
    }
  }

  ghost predicate SplitValue(p: Parser, t: Str, x: Str) {
    p.mode == Param && p.buf == t + x && t != [] && x != [] && FindChar(t, '<') == |t|
  }

  ghost function AfterValue(p: Parser, t: Str, x: Str): Parser {
    EmitValue(p, t).(buf := x)
  }

  ghost function ValueTail(p: Parser, t: Str, x: Str): seq<Event> {
    var k := FindChar(x, '<');
    if k < |x| then ValueAtTag(EmitValue(p, t + x[..k]).(buf := x[k..])).events else []
  }

  lemma PlainIsNoOpener(t: Str, x: Str)
    requires t != [] && t[0] != '<'
    ensures LiteralLead(t + x, CDATA_OPEN).Other?
  {
    assert (t + x)[0] == t[0];
    assert CDATA_OPEN[0] == '<';
  }

  lemma JoinValueStep(p: Parser, t: Str, x: Str)
    requires SplitValue(p, t, x)
    ensures
      var k, o, o' := FindChar(x, '<'), StepValue(p), StepValue(AfterValue(p, t, x));
      && o.p == o'.p && o.more == o'.more
      && o.events == [ParamValue(p.paramName, t + x[..k])] + ValueTail(p, t, x)
      && o'.events == (if k > 0 then [ParamValue(p.paramName, x[..k])] else []) + ValueTail(p, t, x)
  {
    hide ValueAtTag, FindChar, Consumes;
    var k := FindChar(x, '<');
    FindCharExtend(t, x, '<');
    assert (p.paramValue + t) + x[..k] == p.paramValue + (t + x[..k]);
    if k < |x| {
      assert t + x[..k] == p.buf[..|t| + k];
      assert p.buf[|t| + k..] == x[k..];
      assert EmitValue(AfterValue(p, t, x).(buf := x[k..]), x[..k]) == EmitValue(p, t + x[..k]).(buf := x[k..]);
      assert EmitValue(p.(buf := x[k..]), t + x[..k]) == EmitValue(p, t + x[..k]).(buf := x[k..]);
    } else {
      assert x[..k] == x;
    }
  }

  lemma JoinValue(p: Parser, t: Str, x: Str)
    requires SplitValue(p, t, x)
    ensures
      var o, o' := StepValue(p), StepValue(AfterValue(p, t, x));
      && o.p == o'.p && o.more == o'.more
      && Flat(o.events) == Flat([ParamValue(p.paramName, t)]) + Flat(o'.events)
  {
    hide StepValue, Flat, ValueBytes, FindChar, Atoms, ValueTail;
    JoinValueStep(p, t, x);
    var n, k, tail := p.paramName, FindChar(x, '<'), ValueTail(p, t, x);
    FlatValue(n, t + x[..k], tail);
    FlatValue(n, x[..k], tail);
    FlatValue(n, t, []);
    assert [ParamValue(n, t)] + [] == [ParamValue(n, t)];
    FlatNone();
    assert ValueBytes(n, t) + [] == ValueBytes(n, t);
    ValueBytesAppend(n, t, x[..k]);
    AtomsAssoc(ValueBytes(n, t), ValueBytes(n, x[..k]), Flat(tail));
    if k == 0 {
      assert [] + tail == tail;
      ValueBytesNone(n, x[..k]);
      assert [] + Flat(tail) == Flat(tail);
    }
  }

  lemma StepOfPlain(p: Parser, t: Str, x: Str)
    requires SplitValue(p, t, x)
    ensures Step(p) == StepValue(p)
    ensures PlainThenOpener(p) <==> CDATA_OPEN <= x[FindChar(x, '<')..]
  {
    hide LiteralLead, StepValue;
    PlainIsNoOpener(t, x);
    FindCharExtend(t, x, '<');
    assert p.buf[|t| + FindChar(x, '<')..] == x[FindChar(x, '<')..];
  }

  lemma OpenerBytes()
    ensures CDATA_OPEN[0] == '<' && CDATA_OPEN[1] == '!'
    ensures forall j :: 1 <= j < |CDATA_OPEN| ==> CDATA_OPEN[j] != '<'
    ensures PARAM_CLOSE[0] == '<' && PARAM_CLOSE[1] == '/'
  {
  }

  lemma HeldOpener(x: Str)
    requires x != [] && LiteralLead(x, CDATA_OPEN).Hold?
    ensures x[0] == '<' && FindChar(x, '<') == 0 && FindChar(x[1..], '<') == |x| - 1
  {
    hide FindChar, LiteralLead;
    HeldPrefix(x);
    FindCharIs(x, '<', 0);
    FindCharIs(x[1..], '<', |x| - 1);
  }

  lemma HeldPrefix(x: Str)
    requires x != [] && LiteralLead(x, CDATA_OPEN).Hold?
    ensures x[0] == '<' && forall j :: 1 <= j < |x| ==> x[j] != '<'
  {
    OpenerBytes();
    assert forall j :: 0 <= j < |x| ==> x[j] == CDATA_OPEN[j];
  }

  lemma HeldIsNoClose(x: Str)
    requires x != [] && LiteralLead(x, CDATA_OPEN).Hold?
    ensures |x| == 1 ==> LiteralLead(x, PARAM_CLOSE).Hold?
    ensures |x| > 1 ==> LiteralLead(x, PARAM_CLOSE).Other?
  {
    OpenerBytes();
    assert forall j :: 0 <= j < |x| ==> x[j] == CDATA_OPEN[j];
    if |x| == 1 {
      assert x == PARAM_CLOSE[..1];
    }
  }

  /** A held-back opener prefix after plain bytes turns out to be plain bytes. */
  lemma LagStep(p: Parser, t: Str, x: Str)
    requires SplitValue(p, t, x) && LiteralLead(x, CDATA_OPEN).Hold?
    ensures
      var o, q := StepValue(p), AfterValue(p, t, x);
      && (|x| == 1 ==> o == Outcome(q, [ParamValue(p.paramName, t)], false))
      && (|x| > 1 ==> o == Outcome(EmitValue(q, "<").(buf := x[1..]),
                                   [ParamValue(p.paramName, t), ParamValue(p.paramName, "<")], true))
  {
    hide Consumes, LiteralLead, FindChar;
    HeldOpener(x);
    HeldIsNoClose(x);
    FindCharExtend(t, x, '<');
    assert p.buf[..|t|] == t && p.buf[|t|..] == x;
  }

  lemma PlainFlush(p: Parser)
    requires p.mode == Param && p.buf != [] && FindChar(p.buf, '<') == |p.buf|
    ensures Final(p) == Said([ParamValue(p.paramName, p.buf)], Finished(Released(p)))
  {
    hide Finish, Flat;
    PlainIsNoOpener(p.buf, []);
    assert p.buf + [] == p.buf;
    var q := Released(p);
    assert Step(p) == Outcome(q, [ParamValue(p.paramName, p.buf)], true);
    assert Step(q) == Outcome(q, [], false);
    FinalMore(p);
    FinalRest(q);
    SaidNone(Finished(q));
  }

  lemma Lag(p: Parser, t: Str, x: Str)
    requires SplitValue(p, t, x) && LiteralLead(x, CDATA_OPEN).Hold?
    ensures Final(p) == Said([ParamValue(p.paramName, t)], Final(AfterValue(p, t, x)))
  {
    hide Step, LiteralLead, Run, Finish, Flat, Final, Finished;
    var n, q := p.paramName, AfterValue(p, t, x);
    HoldWaits(q);
    StepOfPlain(p, t, x);
    LagStep(p, t, x);
    if |x| == 1 {
      FinalRest(q);
      FinalRest(p);
      SaidNone(Finished(q));
    } else {
      HeldOpener(x);
      LagTwo(p, q, x);
    }
  }

  lemma HoldWaits(p: Parser)
    requires p.mode == Param && LiteralLead(p.buf, CDATA_OPEN).Hold?
    ensures Step(p) == Outcome(p, [], false)
  {
  }

  lemma LagTwo(p: Parser, q: Parser, x: Str)
    requires q.mode == Param && q.buf == x && |x| > 1 && x[0] == '<' && FindChar(x[1..], '<') == |x| - 1
    requires Step(q) == Outcome(q, [], false)
    requires Step(p).more && Step(p).p == EmitValue(q, "<").(buf := x[1..])
    requires |Step(p).events| == 2 && Step(p).events[1] == ParamValue(q.paramName, "<")
    ensures Final(p) == Said([Step(p).events[0]], Final(q))
  {
    hide Step, LiteralLead, Run, Finish, Flat, Final, Finished;
    var n, r := q.paramName, Step(p).p;
    FinalMore(p);
    FinalRest(q);
    SaidNone(Finished(q));
    PlainFlush(r);
    FinishedValue(q);
    assert "<" + x[1..] == x;
    assert (q.paramValue + "<") + x[1..] == q.paramValue + ("<" + x[1..]);
    assert Released(r) == Released(q);
    SaidValue(n, "<", x[1..], Finished(Released(q)));
    assert Step(p).events == [Step(p).events[0]] + [ParamValue(n, "<")];
    SaidTwice([Step(p).events[0]], [ParamValue(n, "<")], Final(r));
  }

  /** Parameter text may be said as soon as it is plain, unless an opener follows it. */
  lemma CutValue(p: Parser, t: Str, x: Str)
    requires SplitValue(p, t, x) && !PlainThenOpener(p)
    ensures Final(p) == Said([ParamValue(p.paramName, t)], Final(AfterValue(p, t, x)))
    ensures OpenersAtSegmentStart(p) ==> OpenersAtSegmentStart(AfterValue(p, t, x))
  {
    hide StepValue, Run, Finish, Flat, Final, OpenersAtSegmentStart;
    var q := AfterValue(p, t, x);
    StepOfPlain(p, t, x);
    match LiteralLead(x, CDATA_OPEN)
    case Whole(_, _) =>
      OpenerFirst(x);
    case Hold =>
      Lag(p, t, x);
      assert Step(q) == Outcome(q, [], false);
      HoldIsFresh(q);
    case Other =>
      JoinValue(p, t, x);
      SameNext(p, q, [ParamValue(p.paramName, t)]);
      if OpenersAtSegmentStart(p) {
        FreshSameNext(p, q);
      }
  }

  lemma OpenerFirst(x: Str)
    requires CDATA_OPEN <= x
    ensures FindChar(x, '<') == 0 && CDATA_OPEN <= x[0..]
  {
    assert x[0] == CDATA_OPEN[0];
    assert x[0..] == x;
  }

  lemma HoldIsFresh(p: Parser)
    requires p.mode == Param && LiteralLead(p.buf, CDATA_OPEN).Hold?
    ensures OpenersAtSegmentStart(p)
  {
  }

  lemma PauseParam(p: Parser, x: Str)
    requires p.mode == Param && (!Step(p).more || FindChar(p.buf, '<') == |p.buf|)
    requires !PlainThenOpener(Fed(p, x))
    ensures Final(Fed(p, x)) == Said(Step(p).events, Final(Fed(Step(p).p, x)))
    ensures OpenersAtSegmentStart(Fed(p, x)) ==> OpenersAtSegmentStart(Fed(Step(p).p, x))
  {
    hide Run, Finish, Flat, Final, OpenersAtSegmentStart;
    var o, i := Step(p), FindChar(p.buf, '<');
    var whole, later := Fed(p, x), Fed(o.p, x);
    SaidNone(Final(later));
    if LiteralLead(p.buf, CDATA_OPEN).Hold? {
      assert later == whole;
    } else if i == |p.buf| && x == [] {
      assert whole == p && later == o.p;
      FinalMore(p);
      FreshUnfold(p);
    } else if i == |p.buf| {
      assert later == AfterValue(whole, p.buf, x);
      CutValue(whole, p.buf, x);
    } else {
      PauseAtTag(p, x);
      if i == 0 {
        assert later == whole;
      } else {
        CutValue(whole, p.buf[..i], p.buf[i..] + x);
      }
    }
  }

  lemma PauseAtTag(p: Parser, x: Str)
    requires p.mode == Param && !Step(p).more && LiteralLead(p.buf, CDATA_OPEN).Other?
    requires FindChar(p.buf, '<') < |p.buf|
    ensures
      var i := FindChar(p.buf, '<');
      && (i == 0 ==> Step(p) == Outcome(p, [], false))
      && (i > 0 ==>
          && SplitValue(Fed(p, x), p.buf[..i], p.buf[i..] + x)
          && Step(p).events == [ParamValue(p.paramName, p.buf[..i])]
          && Fed(Step(p).p, x) == AfterValue(Fed(p, x), p.buf[..i], p.buf[i..] + x))
  {
    hide Consumes;
    var i := FindChar(p.buf, '<');
    assert p.buf[0..] == p.buf;
    assert p.paramValue + p.buf[..0] == p.paramValue;
    assert p.buf[..i] + (p.buf[i..] + x) == p.buf + x;
    FindCharIs(p.buf[..i], '<', i);
  }

  // ---- CDATA sections ----

  ghost predicate SplitCdata(p: Parser, t: Str, x: Str) {
    && p.mode == Cdata && p.buf == t + x
    && forall j :: 0 <= j < |t| ==> !OccursAt(p.buf, CDATA_CLOSE, j)
  }

  lemma CdataHeldBack(p: Parser)
    requires p.mode == Cdata && Find(p.buf, CDATA_CLOSE).None?
    ensures
      var o, cut := Step(p), CdataCut(p.buf);
      && !o.more && o.p == EmitValue(p, p.buf[..cut]).(buf := p.buf[cut..])
      && o.events == if cut > 0 then [ParamValue(p.paramName, p.buf[..cut])] else []
  {
    hide CdataCut, Consumes, StepText, StepFunction, StepParam, Find;
    assert p.buf[0..] == p.buf && p.paramValue + p.buf[..0] == p.paramValue;
  }

  lemma CdataUnclosed(p: Parser)
    requires p.mode == Cdata && Find(p.buf, CDATA_CLOSE).None?
    ensures Final(p) == Said([ParamValue(p.paramName, p.buf)], Finished(Released(p)))
  {
    hide Step, Run, Finish, Finished, Final, Flat, CdataCut, Find;
    var o, cut := Step(p), CdataCut(p.buf);
    CdataHeldBack(p);
    FinalRest(p);
    FinishedValue(o.p);
    assert p.buf[..cut] + p.buf[cut..] == p.buf;
    assert (p.paramValue + p.buf[..cut]) + p.buf[cut..] == p.paramValue + p.buf;
    assert Released(o.p) == Released(p);
    SaidValue(p.paramName, p.buf[..cut], p.buf[cut..], Finished(Released(p)));
    SaidNone(Finished(o.p));
  }

  lemma FindShift(t: Str, x: Str, pat: Str)
    requires forall j :: 0 <= j < |t| ==> !OccursAt(t + x, pat, j)
    ensures Find(x, pat).Some? ==> Find(t + x, pat) == Some(|t| + Find(x, pat).value)
    ensures Find(x, pat).None? ==> Find(t + x, pat).None?
  {
    forall j | 0 <= j
      ensures OccursAt(t + x, pat, |t| + j) <==> OccursAt(x, pat, j)
    {
      if j + |pat| <= |x| {
        assert (t + x)[|t| + j..|t| + j + |pat|] == x[j..j + |pat|];
      }
    }
    if Find(x, pat).Some? {
      var i := Find(x, pat).value;
      forall j | 0 <= j < |t| + i ensures !OccursAt(t + x, pat, j) {
        if j >= |t| {
          assert !OccursAt(x, pat, j - |t|);
          assert OccursAt(t + x, pat, |t| + (j - |t|)) <==> OccursAt(x, pat, j - |t|);
        }
      }
      FindIs(t + x, pat, |t| + i);
    } else {
      forall j | 0 <= j ensures !OccursAt(t + x, pat, j) {
        if j >= |t| {
          assert OccursAt(t + x, pat, |t| + (j - |t|)) <==> OccursAt(x, pat, j - |t|);
        }
      }
    }
  }

  ghost function Section(x: Str): Str
    requires Find(x, CDATA_CLOSE).Some?
  {
    x[..Find(x, CDATA_CLOSE).value]
  }

  lemma CutClosed(p: Parser, t: Str, x: Str)
    requires SplitCdata(p, t, x) && Find(x, CDATA_CLOSE).Some?
    ensures
      var q := AfterValue(p, t, x);
      && Step(p).more && Step(q).more && Step(p).p == Step(q).p
      && Step(p).events == [ParamValue(p.paramName, t + Section(x))]
      && Step(q).events == [ParamValue(p.paramName, Section(x))]
  {
    hide Find, Consumes, StepText, StepFunction, StepParam;
    FindShift(t, x, CDATA_CLOSE);
    var i := Find(x, CDATA_CLOSE).value;
    assert (t + x)[..|t| + i] == t + x[..i];
    assert (t + x)[|t| + i + 3..] == x[i + 3..];
    assert (p.paramValue + t) + x[..i] == p.paramValue + (t + x[..i]);
    assert Step(p).events == [ParamValue(p.paramName, t + x[..i])];
  }

  /** CDATA content may be said as soon as it cannot belong to the closing mark. */
  lemma CutCdata(p: Parser, t: Str, x: Str)
    requires SplitCdata(p, t, x)
    ensures Final(p) == Said([ParamValue(p.paramName, t)], Final(AfterValue(p, t, x)))
  {
    hide Step, Run, Finish, Flat, Atoms, Final, Find, ValueBytes, Section, Finished;
    var n, q := p.paramName, AfterValue(p, t, x);
    if Find(x, CDATA_CLOSE).Some? {
      CutClosed(p, t, x);
      var c := Section(x);
      FlatOne(ParamValue(n, t));
      FlatOne(ParamValue(n, c));
      FlatOne(ParamValue(n, t + c));
      ValueBytesAppend(n, t, c);
      SameNext(p, q, [ParamValue(n, t)]);
    } else {
      FindShift(t, x, CDATA_CLOSE);
      CdataUnclosed(p);
      CdataUnclosed(q);
      assert (p.paramValue + t) + x == p.paramValue + (t + x);
      assert Released(p) == Released(q);
      SaidValue(n, t, x, Finished(Released(q)));
    }
  }

  lemma CutCdataFresh(p: Parser, t: Str, x: Str)
    requires SplitCdata(p, t, x) && OpenersAtSegmentStart(p)
    ensures OpenersAtSegmentStart(AfterValue(p, t, x))
  {
    hide Step, OpenersAtSegmentStart, Find;
    if Find(x, CDATA_CLOSE).Some? {
      CutClosed(p, t, x);
      FreshSameNext(p, AfterValue(p, t, x));
    } else {
      UnclosedIsFresh(AfterValue(p, t, x));
    }
  }

  lemma UnclosedIsFresh(p: Parser)
    requires p.mode == Cdata && Find(p.buf, CDATA_CLOSE).None?
    ensures OpenersAtSegmentStart(p)
  {
    hide Find;
  }

  lemma PauseCdata(p: Parser, x: Str)
    requires p.mode == Cdata && !Step(p).more
    ensures Final(Fed(p, x)) == Said(Step(p).events, Final(Fed(Step(p).p, x)))
    ensures OpenersAtSegmentStart(Fed(p, x)) ==> OpenersAtSegmentStart(Fed(Step(p).p, x))
  {
    hide Run, Finish, Flat, Final, OpenersAtSegmentStart, Find, CdataCut;
    var whole, later, cut := Fed(p, x), Fed(Step(p).p, x), CdataCut(p.buf);
    SaidNone(Final(later));
    if cut > 0 {
      assert p.buf + x == p.buf[..cut] + (p.buf[cut..] + x);
      forall j | 0 <= j < cut ensures !OccursAt(whole.buf, CDATA_CLOSE, j) {
        assert !OccursAt(p.buf, CDATA_CLOSE, j);
        assert whole.buf[j..j + 3] == p.buf[j..j + 3];
      }
      CutCdata(whole, p.buf[..cut], p.buf[cut..] + x);
      if OpenersAtSegmentStart(whole) {
        CutCdataFresh(whole, p.buf[..cut], p.buf[cut..] + x);
      }
    } else {
      assert whole == later;
    }
  }

  // ---- any number of passes ----

  /** Stopping after one pass to wait for `x` changes nothing that a client can tell. */
  lemma OnePass(p: Parser, x: Str)
    requires OpenersAtSegmentStart(Fed(p, x))
    ensures Final(Fed(p, x)) == Said(Step(p).events, Final(Fed(Step(p).p, x)))
    ensures OpenersAtSegmentStart(Fed(Step(p).p, x))
  {
    hide Step, Run, Finish, Flat, Final;
    var i := FindChar(p.buf, '<');
    if Step(p).more && (p.mode == Text || p.mode == Param ==> i < |p.buf|) {
      StepStable(p, x);
      FinalMore(Fed(p, x));
    } else {
      match p.mode
      case Text =>
        PauseText(p, x);
        PauseTextFresh(p, x);
      case Function => PauseFunction(p, x);
      case Param => PauseParam(p, x);
      case Cdata => PauseCdata(p, x);
    }
  }

  lemma {:induction false} AllPasses(p: Parser, x: Str)
    requires OpenersAtSegmentStart(Fed(p, x))
    ensures Final(Fed(p, x)) == Said(Run(p).events, Final(Fed(Run(p).p, x)))
    ensures OpenersAtSegmentStart(Fed(Run(p).p, x))
    decreases |p.buf|
  {
    hide Step, Finish, Flat, Final, OpenersAtSegmentStart;
    OnePass(p, x);
    var o := Step(p);
    if o.more {
      AllPasses(o.p, x);
      SaidTwice(o.events, Run(o.p).events, Final(Fed(Run(p).p, x)));
    }
  }
}
