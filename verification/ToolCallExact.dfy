/** Exactly when the tool-call parser's verdict is a function of the text alone. */
module ToolCallExact {
  import opened Strings
  import opened ToolCall
  import opened ToolCallFragments

  ghost function Closed(p: Parser, events: seq<Event>): Verdict {
    Verdict(Finish(p).p, Flat(events + Finish(p).events))
  }

  lemma {:induction false} PushesFinal(p: Parser, fragments: seq<Str>)
    requires fragments != [] && OpenersAtSegmentStart(Fed(p, Concat(fragments)))
    ensures
      var r := Pushes(p, fragments);
      Closed(r.p, r.events) == Final(Fed(p, Concat(fragments)))
    decreases |fragments|
  {
    hide Step, Run, Finish, Flat, OpenersAtSegmentStart;
    var f, rest := fragments[0], fragments[1..];
    if rest == [] {
      assert f + [] == f;
      assert Run(Fed(p, f)).events + [] == Run(Fed(p, f)).events;
    } else {
      var q := Fed(p, f);
      assert Fed(q, Concat(rest)) == Fed(p, Concat(fragments)) by {
        assert (p.buf + f) + Concat(rest) == p.buf + (f + Concat(rest));
      }
      AllPasses(q, Concat(rest));
      var r := Run(q);
      PushesFinal(r.p, rest);
      var s := Pushes(r.p, rest);
      SaidTwice(r.events, s.events + Finish(s.p).events, Verdict(s.p, []));
      assert (r.events + s.events) + Finish(s.p).events == r.events + (s.events + Finish(s.p).events);
      FlatAppend(r.events, s.events + Finish(s.p).events);
    }
  }

  /** However the text is cut, the finished parser and what it said are those of one push. */
  lemma FragmentationIndependence(fragments: seq<Str>)
    requires OpenersAtSegmentStart(Fed(Init, Concat(fragments)))
    ensures Parsed(fragments) == ParsedWhole(Concat(fragments))
  {
    hide Step, Run, Finish, Flat, OpenersAtSegmentStart;
    var w := Concat(fragments);
    assert Concat([w]) == w by {
      assert Concat([]) == [];
      assert [w][1..] == [];
    }
    PushesFinal(Init, [w]);
    if fragments == [] {
      EmptyText();
    } else {
      PushesFinal(Init, fragments);
    }
  }

  lemma EmptyText()
    ensures Parsed([]) == ParsedWhole([])
  {
    assert Step(Fed(Init, [])) == Outcome(Init, [], false);
    assert Run(Fed(Init, [])) == Result(Init, []);
    assert Pushes(Init, [[]]) == Result(Init, []);
  }

  // ---- where it fails ----

  lemma FreshPrefix(p: Parser, x: Str)
    requires !OpenersAtSegmentStart(p)
    ensures !OpenersAtSegmentStart(Fed(p, x))
    decreases |p.buf|
  {
    hide Step;
    var i := FindChar(p.buf, '<');
    if PlainThenOpener(p) {
      FindCharExtend(p.buf, x, '<');
      OpenerFirst(p.buf[i..]);
      assert (p.buf + x)[i..] == p.buf[i..] + x;
      PrefixExtend(p.buf[i..], x, CDATA_OPEN);
    } else {
      BadHasTag(p);
      StepStable(p, x);
      FreshPrefix(Step(p).p, x);
    }
  }

  /** Offset of the first opener that directly follows plain parameter bytes. */
  ghost function Offset(p: Parser): (k: nat)
    requires !OpenersAtSegmentStart(p)
    decreases |p.buf|
  {
    hide Step;
    if PlainThenOpener(p) then FindChar(p.buf, '<')
    else
      NotYet(p);
      |p.buf| - |Step(p).p.buf| + Offset(Step(p).p)
  }

  lemma OffsetAdds(p: Parser)
    requires !OpenersAtSegmentStart(p) && !PlainThenOpener(p)
    ensures Step(p).more && |Step(p).p.buf| < |p.buf| && !OpenersAtSegmentStart(Step(p).p)
    ensures Offset(p) == |p.buf| - |Step(p).p.buf| + Offset(Step(p).p)
  {
    hide Step;
  }

  lemma OffsetIsOpener(p: Parser)
    requires !OpenersAtSegmentStart(p)
    ensures var k := Offset(p); k + |CDATA_OPEN| <= |p.buf| && p.buf[k..k + |CDATA_OPEN|] == CDATA_OPEN
  {
    hide Offset, OpenersAtSegmentStart;
    OffsetOccurs(p, CDATA_OPEN);
  }

  lemma {:induction false} OffsetOccurs(p: Parser, open: Str)
    requires !OpenersAtSegmentStart(p) && open == CDATA_OPEN
    ensures OccursAt(p.buf, open, Offset(p))
    decreases |p.buf|
  {
    hide Step, OpenersAtSegmentStart, Offset, OccursAt, PlainThenOpener;
    if PlainThenOpener(p) {
      OpenerHere(p);
    } else {
      OffsetAdds(p);
      var q := Step(p).p;
      var c := |p.buf| - |q.buf|;
      OffsetOccurs(q, open);
      assert q.buf == p.buf[c..];
      OccursInRest(p.buf, c, Offset(q), open);
    }
  }

  lemma OpenerHere(p: Parser)
    requires PlainThenOpener(p)
    ensures !OpenersAtSegmentStart(p) && Offset(p) == FindChar(p.buf, '<')
    ensures OccursAt(p.buf, CDATA_OPEN, FindChar(p.buf, '<'))
  {
    var i := FindChar(p.buf, '<');
    assert p.buf[i..][..|CDATA_OPEN|] == CDATA_OPEN;
  }

  lemma OccursInRest(s: Str, c: nat, k: nat, pat: Str)
    requires c <= |s| && OccursAt(s[c..], pat, k)
    ensures OccursAt(s, pat, c + k)
  {
    assert s[c..][k..k + |pat|] == s[c + k..c + k + |pat|];
  }

  lemma NotYet(p: Parser)
    requires !OpenersAtSegmentStart(p) && !PlainThenOpener(p)
    ensures Step(p).more && !OpenersAtSegmentStart(Step(p).p)
  {
    hide Step;
  }

  /** The parser when it stands before that opener. */
  ghost function BadState(p: Parser): (b: Parser)
    requires !OpenersAtSegmentStart(p)
    ensures PlainThenOpener(b) && |b.buf| <= |p.buf|
    ensures Offset(p) == |p.buf| - |b.buf| + FindChar(b.buf, '<')
    decreases |p.buf|
  {
    if PlainThenOpener(p) then p else BadState(Step(p).p)
  }

  lemma BadHasTag(p: Parser)
    requires !OpenersAtSegmentStart(p)
    ensures FindChar(p.buf, '<') <= Offset(p) < |p.buf| && p.buf[Offset(p)] == '<'
  {
    OffsetIsOpener(p);
    assert p.buf[Offset(p)..][0] == CDATA_OPEN[0];
  }

  lemma TagEnd(p: Parser)
    requires p.mode == Function && Step(p).p.mode == Param
    ensures var c := |p.buf| - |Step(p).p.buf|; 0 < c && p.buf[c - 1] == '>'
  {
    hide ParseTag, LiteralLead, StepText, StepParam, StepCdata, Consumes;
    assert Step(p).p.buf == AfterTag(p.buf);
  }

  lemma OffsetNext(p: Parser)
    requires !OpenersAtSegmentStart(p) && !PlainThenOpener(p)
    ensures Step(p).more && |Step(p).p.buf| < |p.buf| && !OpenersAtSegmentStart(Step(p).p)
    ensures Offset(p) == |p.buf| - |Step(p).p.buf| + Offset(Step(p).p)
    ensures BadState(p) == BadState(Step(p).p)
  {
    hide Step;
  }

  lemma NextMode(p: Parser)
    ensures p.mode == Text ==> Step(p).p.mode == Text || Step(p).p.mode == Function
    ensures p.mode == Function ==> !Step(p).p.mode.Cdata?
  {
    hide TagLead, LiteralLead, StepParam, StepCdata, Consumes;
  }

  /** A parameter is reached only through a tag, and the tag ends in '>'. The
      first such '>' lies beyond the bytes the next pass takes, or is the last of them. */
  lemma TagBefore(p: Parser) returns (j: nat)
    requires !OpenersAtSegmentStart(p) && (p.mode == Text || p.mode == Function)
    ensures j < |p.buf| && j < Offset(p) && p.buf[j] == '>'
    ensures |p.buf| - |Step(p).p.buf| <= j + 1
    decreases |p.buf|
  {
    hide Step, Offset, BadState, OpenersAtSegmentStart;
    OffsetNext(p);
    var q := Step(p).p;
    var c := |p.buf| - |q.buf|;
    assert p.buf[c..] == q.buf;
    NextMode(p);
    if q.mode == Param {
      TagEnd(p);
      j := c - 1;
    } else {
      j := TagBefore(q);
      j := c + j;
    }
  }

  ghost function Cut(p: Parser, n: nat): Parser
    requires n <= |p.buf|
  {
    p.(buf := p.buf[..n])
  }

  ghost predicate OneTagIn(lit: Str) {
    forall j :: 1 <= j < |lit| ==> lit[j] != '<'
  }

  /** A second '<' and a '>' leave nothing to wait for. */
  lemma Decided(b: Str, k: nat, lit: Str)
    requires 0 < k < |b| && b[k] == '<' && OneTagIn(lit)
    ensures !LiteralLead(b, lit).Hold?
    ensures TagLead(b, lit).Hold? ==> '>' !in b
  {
    hide ParseTag, AfterTag;
    assert k < |lit| ==> lit[k] != b[k];
  }

  lemma TextMore(p: Parser)
    requires p.mode == Text && FindChar(p.buf, '<') < |p.buf|
    requires !TagLead(p.buf[FindChar(p.buf, '<')..], FN_OPEN).Hold?
    ensures Step(p).more
  {
    hide TagLead, StepFunction, StepParam, StepCdata, Consumes;
  }

  lemma ParamMore(p: Parser)
    requires p.mode == Param && FindChar(p.buf, '<') < |p.buf|
    requires !LiteralLead(p.buf, CDATA_OPEN).Hold?
    requires !LiteralLead(p.buf[FindChar(p.buf, '<')..], PARAM_CLOSE).Hold?
    ensures Step(p).more
  {
    hide LiteralLead, StepText, StepFunction, StepCdata, Consumes;
  }

  lemma OneTagEach()
    ensures OneTagIn(FN_OPEN)
    ensures OneTagIn(FN_CLOSE)
    ensures OneTagIn(PARAM_OPEN)
    ensures OneTagIn(PARAM_CLOSE)
    ensures OneTagIn(CDATA_OPEN)
  {
  }

  /** A pass on the way to the bad opener sees nothing past the opener's '<'. */
  lemma CutMore(p: Parser, n: nat)
    requires !OpenersAtSegmentStart(p) && !PlainThenOpener(p) && Offset(p) < n <= |p.buf|
    ensures Step(Cut(p, n)).more
  {
    hide OpenersAtSegmentStart, Offset;
    var b := p.buf[..n];
    assert b + p.buf[n..] == p.buf;
    FindCharExtend(b, p.buf[n..], '<');
    BadHasTag(p);
    OneTagEach();
    match p.mode
    case Text => CutText(p, n);
    case Function => CutFunction(p, n);
    case Param => CutParam(p, n);
    case Cdata => CutCdataMore(p, n);
  }

  lemma TagTaken(p: Parser)
    requires Step(p).more && (p.mode == Text || p.mode == Param) && FindChar(p.buf, '<') < |p.buf|
    ensures |p.buf| - |Step(p).p.buf| > FindChar(p.buf, '<')
  {
    hide TagLead, LiteralLead;
    if p.mode == Param && LiteralLead(p.buf, CDATA_OPEN).Whole? {
      TakenOpener(p);
    }
  }

  lemma TakenOpener(p: Parser)
    requires LiteralLead(p.buf, CDATA_OPEN).Whole?
    ensures FindChar(p.buf, '<') == 0
  {
    OpenerFirst(p.buf);
  }

  lemma CutText(p: Parser, n: nat)
    requires p.mode == Text && !OpenersAtSegmentStart(p) && Offset(p) < n <= |p.buf|
    ensures Step(Cut(p, n)).more
  {
    hide Step, OpenersAtSegmentStart, Offset, TagLead, FindChar;
    var b, i, k := p.buf[..n], FindChar(p.buf, '<'), Offset(p);
    assert b + p.buf[n..] == p.buf;
    FindCharExtend(b, p.buf[n..], '<');
    BadHasTag(p);
    OneTagEach();
    OffsetNext(p);
    TagTaken(p);
    assert i == FindChar(b, '<') < k;
    var t := b[i..];
    assert t[k - i] == '<';
    var j := TagBefore(p);
    assert t[j - i] == '>';
    Decided(t, k - i, FN_OPEN);
    TextMore(Cut(p, n));
  }

  lemma CutFunction(p: Parser, n: nat)
    requires p.mode == Function && !OpenersAtSegmentStart(p) && Offset(p) < n <= |p.buf|
    ensures Step(Cut(p, n)).more
  {
    hide OpenersAtSegmentStart, Offset, TagLead, LiteralLead, StepText, StepParam, StepCdata, Consumes;
    var b, k := p.buf[..n], Offset(p);
    assert b + p.buf[n..] == p.buf;
    FindCharExtend(b, p.buf[n..], '<');
    BadHasTag(p);
    OneTagEach();
    OffsetNext(p);
    assert b[k] == '<' && 0 < k;
    var j := TagBefore(p);
    assert b[j] == '>';
    Decided(b, k, FN_CLOSE);
    Decided(b, k, PARAM_OPEN);
  }

  lemma CutParam(p: Parser, n: nat)
    requires p.mode == Param && !OpenersAtSegmentStart(p) && !PlainThenOpener(p) && Offset(p) < n <= |p.buf|
    ensures Step(Cut(p, n)).more
  {
    hide Step, OpenersAtSegmentStart, Offset, LiteralLead, FindChar, PlainThenOpener;
    var b, i, k := p.buf[..n], FindChar(p.buf, '<'), Offset(p);
    assert b + p.buf[n..] == p.buf;
    FindCharExtend(b, p.buf[n..], '<');
    BadHasTag(p);
    OneTagEach();
    OffsetNext(p);
    TagTaken(p);
    assert b[k] == '<' && i < k;
    Decided(b, k, CDATA_OPEN);
    var t := b[i..];
    assert t[k - i] == '<';
    Decided(t, k - i, PARAM_CLOSE);
    ParamMore(Cut(p, n));
  }

  lemma CutCdataMore(p: Parser, n: nat)
    requires p.mode == Cdata && !OpenersAtSegmentStart(p) && Offset(p) < n <= |p.buf|
    ensures Step(Cut(p, n)).more
  {
    hide OpenersAtSegmentStart, Offset, StepText, StepFunction, StepParam, Consumes, Find;
    OffsetNext(p);
    var i := Find(p.buf, CDATA_CLOSE).value;
    assert OccursAt(p.buf, CDATA_CLOSE, i);
    assert p.buf[..n][i..i + 3] == p.buf[i..i + 3];
    assert OccursAt(p.buf[..n], CDATA_CLOSE, i);
  }

  lemma CutStep(p: Parser, n: nat)
    requires !OpenersAtSegmentStart(p) && !PlainThenOpener(p) && Offset(p) < n <= |p.buf|
    ensures
      var q := Step(p).p;
      var m := n - (|p.buf| - |q.buf|);
      && Step(Cut(p, n)).more && !OpenersAtSegmentStart(q) && Offset(q) < m <= |q.buf|
      && Step(Cut(p, n)).p == Cut(q, m)
  {
    hide Step, Offset, OpenersAtSegmentStart, PlainThenOpener;
    var c, x := Cut(p, n), p.buf[n..];
    CutMore(p, n);
    BadHasTag(p);
    OffsetAdds(p);
    assert c.buf + x == p.buf;
    assert Fed(c, x) == p;
    assert c.buf[Offset(p)] == '<';
    StepStable(c, x);
    var q, r := Step(p).p, Step(c).p;
    assert q.buf == r.buf + x;
    assert q.buf[..|r.buf|] == r.buf;
  }

  lemma BadHere(p: Parser)
    requires PlainThenOpener(p)
    ensures !OpenersAtSegmentStart(p) && BadState(p) == p && Offset(p) == FindChar(p.buf, '<')
  {
  }

  lemma RunMore(p: Parser)
    requires Step(p).more
    ensures Run(p).p == Run(Step(p).p).p
  {
  }

  lemma CutRun(p: Parser, n: nat)
    requires !OpenersAtSegmentStart(p) && Offset(p) < n <= |p.buf|
    ensures
      var b := BadState(p);
      var m := n - (|p.buf| - |b.buf|);
      FindChar(b.buf, '<') < m <= |b.buf| && Run(Cut(p, n)).p == Run(Cut(b, m)).p
    decreases |p.buf|
  {
    hide Step, Run, Offset, BadState, OpenersAtSegmentStart;
    if PlainThenOpener(p) {
      BadHere(p);
    } else {
      OffsetNext(p);
      CutStep(p, n);
      RunMore(Cut(p, n));
      CutRun(Step(p).p, n - (|p.buf| - |Step(p).p.buf|));
    }
  }

  // ---- the witness ----

  /** Split inside the opener: the '<' waits, and then opens a CDATA section. */
  lemma SplitSeesOpener(b: Parser)
    requires PlainThenOpener(b)
    ensures
      var i := FindChar(b.buf, '<');
      var r := Run(Cut(b, i + 1)).p;
      && r == AfterValue(b, b.buf[..i], "<")
      && Run(Fed(r, CDATA_OPEN[1..])).p == EmitValue(b, b.buf[..i]).(mode := Cdata, buf := [])
  {
    hide Consumes, StepText, StepFunction, Run;
    var i := FindChar(b.buf, '<');
    var t, c := b.buf[..i], Cut(b, i + 1);
    assert c.buf == t + "<";
    FindCharIs(t, '<', i);
    assert "<" == CDATA_OPEN[..1];
    assert LiteralLead("<", CDATA_OPEN).Hold?;
    LagStep(c, t, "<");
    StepOfPlain(c, t, "<");
    RunRest(c);
    var r := AfterValue(b, t, "<");
    assert Fed(r, CDATA_OPEN[1..]).buf == CDATA_OPEN;
    var s := EmitValue(b, t).(mode := Cdata, buf := []);
    assert CDATA_OPEN[|CDATA_OPEN|..] == [];
    assert Step(Fed(r, CDATA_OPEN[1..])) == Outcome(s, [], true);
    RunMore(Fed(r, CDATA_OPEN[1..]));
    RunRest(s);
  }

  lemma RunRest(p: Parser)
    requires !Step(p).more
    ensures Run(p).p == Step(p).p
  {
  }

  /** Unsplit, the same opener is plain parameter text. */
  lemma WholeSeesText(b: Parser)
    requires PlainThenOpener(b)
    ensures
      var i := FindChar(b.buf, '<');
      Run(Cut(b, i + |CDATA_OPEN|)).p == EmitValue(b, b.buf[..i] + CDATA_OPEN).(buf := [])
  {
    hide Step, Run, LiteralLead, FindChar;
    var i := FindChar(b.buf, '<');
    var t, c := b.buf[..i], Cut(b, i + |CDATA_OPEN|);
    assert c.buf == t + CDATA_OPEN by {
      assert b.buf[i..][..|CDATA_OPEN|] == CDATA_OPEN;
    }
    FindCharIs(t, '<', |t|);
    WholeStep(c, t);
    RunMore(c);
    OpenerRest();
    FlushAndStop(Step(c).p);
    assert CDATA_OPEN == "<" + CDATA_OPEN[1..];
    ThreeParts(b.paramValue, t, "<", CDATA_OPEN[1..]);
  }

  lemma ThreeParts(v: Str, t: Str, a: Str, c: Str)
    ensures ((v + t) + a) + c == v + (t + (a + c))
  {
  }

  lemma FlushAndStop(q: Parser)
    requires q.mode == Param && q.buf != [] && FindChar(q.buf, '<') == |q.buf| && LiteralLead(q.buf, CDATA_OPEN).Other?
    ensures Run(q).p == EmitValue(q, q.buf).(buf := [])
  {
    hide Consumes, StepText, StepFunction, StepCdata, Run;
    assert Step(q) == Outcome(EmitValue(q.(buf := []), q.buf), [ParamValue(q.paramName, q.buf)], true);
    RunMore(q);
    var s := Step(q).p;
    assert ViablePrefix(s.buf, CDATA_OPEN);
    RunRest(s);
  }

  lemma OpenerRest()
    ensures FindChar(CDATA_OPEN[1..], '<') == |CDATA_OPEN| - 1
    ensures LiteralLead(CDATA_OPEN[1..], CDATA_OPEN).Other?
  {
    OpenerBytes();
    assert CDATA_OPEN[1..][0] == '!';
    FindCharIs(CDATA_OPEN[1..], '<', |CDATA_OPEN| - 1);
  }

  lemma OpenerIsNoClose()
    ensures LiteralLead(CDATA_OPEN, PARAM_CLOSE).Other?
  {
    OpenerBytes();
    assert CDATA_OPEN[1] != PARAM_CLOSE[1];
  }

  lemma WholeStep(c: Parser, t: Str)
    requires c.mode == Param && c.buf == t + CDATA_OPEN && t != [] && FindChar(t, '<') == |t|
    ensures Step(c).more && Step(c).p == EmitValue(EmitValue(c, t), "<").(buf := CDATA_OPEN[1..])
  {
    hide Consumes, FindChar, LiteralLead, Step;
    StepOfPlain(c, t, CDATA_OPEN);
    OpenerFirst(CDATA_OPEN);
    OpenerIsNoClose();
    FindCharExtend(t, CDATA_OPEN, '<');
    assert c.buf[..|t|] == t && c.buf[|t|..] == CDATA_OPEN;
  }

  lemma FinishInValue(p: Parser)
    requires p.buf == [] && (p.mode == Param || p.mode == Cdata)
    ensures Finish(p).p.calls == p.calls + [Call(|p.calls|, p.name, p.params + [(p.paramName, p.paramValue)])]
  {
    assert p.paramValue + [] == p.paramValue;
  }

  lemma ValuesDiffer(p: Parser, q: Parser)
    requires p.buf == [] && q.buf == [] && (p.mode == Param || p.mode == Cdata) && (q.mode == Param || q.mode == Cdata)
    requires p.calls == q.calls && p.paramValue != q.paramValue
    requires p.params == q.params
    ensures Finish(p).p != Finish(q).p
  {
    hide Finish;
    FinishInValue(p);
    FinishInValue(q);
    assert (p.params + [(p.paramName, p.paramValue)])[|p.params|] != (q.params
        + [(q.paramName, q.paramValue)])[|p.params|];
    assert Finish(p).p.calls[|p.calls|] != Finish(q).p.calls[|p.calls|];
  }

  lemma TwoFragments(w: Str, k: nat)
    requires k + |CDATA_OPEN| <= |w| && w[k..k + |CDATA_OPEN|] == CDATA_OPEN
    ensures Concat([w[..k + 1], CDATA_OPEN[1..]]) == w[..k + |CDATA_OPEN|]
  {
    var f, g := w[..k + 1], CDATA_OPEN[1..];
    assert [f, g][1..] == [g] && [g][1..] == [];
    assert Concat([g]) == g + [];
    assert f == w[..k] + [w[k]];
    assert w[k..k + |CDATA_OPEN|] == [w[k]] + g;
    assert w[..k + |CDATA_OPEN|] == w[..k] + w[k..k + |CDATA_OPEN|];
  }

  lemma PushesOf(f: Str, g: Str)
    ensures Pushes(Init, [f]).p == Run(Fed(Init, f)).p
    ensures Pushes(Init, [f, g]).p == Run(Fed(Run(Fed(Init, f)).p, g)).p
  {
    hide Run;
    assert [f, g][1..] == [g] && [g][1..] == [] && [f][1..] == [];
    var p := Run(Fed(Init, f)).p;
    assert Pushes(p, [g]).p == Run(Fed(p, g)).p;
  }

  /** A text with a mid-segment opener has a prefix whose verdict depends on the cut. */
  lemma FragmentationDependence(w: Str) returns (fragments: seq<Str>)
    requires !OpenersAtSegmentStart(Fed(Init, w))
    ensures Concat(fragments) <= w && Parsed(fragments) != ParsedWhole(Concat(fragments))
    ensures !OpenersAtSegmentStart(Fed(Init, Concat(fragments)))
  {
    hide Step, Run, Finish, Flat, OpenersAtSegmentStart, BadState, Offset, Pushes, PlainThenOpener;
    var p := Fed(Init, w);
    assert p.buf == w;
    OffsetIsOpener(p);
    var k, b := Offset(p), BadState(p);
    var i := FindChar(b.buf, '<');
    var f, g, v := w[..k + 1], CDATA_OPEN[1..], w[..k + |CDATA_OPEN|];
    fragments := [f, g];
    TwoFragments(w, k);
    CutRun(p, k + 1);
    CutRun(p, k + |CDATA_OPEN|);
    assert Fed(Init, f) == Cut(p, k + 1) && Fed(Init, v) == Cut(p, k + |CDATA_OPEN|);
    SplitSeesOpener(b);
    WholeSeesText(b);
    PushesOf(f, g);
    PushesOf(v, []);
    BadInValue(b);
    var split, whole := Pushes(Init, fragments).p, Pushes(Init, [v]).p;
    assert |split.paramValue| < |whole.paramValue|;
    ValuesDiffer(split, whole);
    if OpenersAtSegmentStart(Fed(Init, v)) {
      hide Parsed;
      FragmentationIndependence(fragments);
    }
  }

  lemma BadInValue(b: Parser)
    requires PlainThenOpener(b)
    ensures b.mode == Param
  {
  }

  /** The streaming parser is a function of the text received so far, for every
      way of cutting it, if and only if no CDATA opener directly follows plain
      bytes of the same segment. */
  lemma FragmentationExact(w: Str)
    ensures OpenersAtSegmentStart(Fed(Init, w)) <==>
            forall fragments | Concat(fragments) <= w :: Parsed(fragments) == ParsedWhole(Concat(fragments))
  {
    hide Step, Run, Finish, Flat, OpenersAtSegmentStart, Parsed;
    if OpenersAtSegmentStart(Fed(Init, w)) {
      forall fragments | Concat(fragments) <= w
        ensures Parsed(fragments) == ParsedWhole(Concat(fragments))
      {
        var v := Concat(fragments);
        assert Fed(Fed(Init, v), w[|v|..]) == Fed(Init, w);
        if !OpenersAtSegmentStart(Fed(Init, v)) {
          FreshPrefix(Fed(Init, v), w[|v|..]);
        }
        FragmentationIndependence(fragments);
      }
    } else {
      var fragments := FragmentationDependence(w);
    }
  }
}
