/** Whose own verdict depends on the cut: exactly the texts with a CDATA opener in
    mid-segment. From such an opener on, the cut and the uncut parser never agree on the
    parameter's value again, whatever follows. */
module ToolCallCuts {
  import opened Strings
  import opened ToolCall
  import opened ToolCallFragments
  import opened ToolCallExact

  // ---- a parameter's value, byte by byte ----

  /** At the start of a segment, behind its first plain byte, or in a CDATA section. */
  datatype Place = AtStart | InPlain | InCdata

  /** The rest of a parameter's value, and what follows its closing tag, if it has one. */
  datatype Reading = Reading(value: Str, rest: Option<Str>)

  function Put(t: Str, r: Reading): Reading {
    Reading(t + r.value, r.rest)
  }

  function Read(at: Place, y: Str): (r: Reading)
    ensures r.rest.Some? ==> |r.rest.value| < |y|
    decreases |y|
  {
    if y == [] then Reading([], None)
    else if at.InCdata? then
      if CDATA_CLOSE <= y then Read(AtStart, y[|CDATA_CLOSE|..]) else Put([y[0]], Read(InCdata, y[1..]))
    else if at.AtStart? && CDATA_OPEN <= y then Read(InCdata, y[|CDATA_OPEN|..])
    else if PARAM_CLOSE <= y then Reading([], Some(y[|PARAM_CLOSE|..]))
    else Put([y[0]], Read(if y[0] == '<' then AtStart else InPlain, y[1..]))
  }

  lemma {:induction false} RawTakes(at: Place, t: Str, y: Str)
    requires !at.InCdata? && t != [] && '<' !in t
    ensures Read(at, t + y) == Put(t, Read(InPlain, y))
    decreases |t|
  {
    assert (t + y)[0] == t[0] && (t + y)[1..] == t[1..] + y;
    NoTagAt(t + y);
    if |t| == 1 {
      assert t[1..] + y == y;
    } else {
      RawTakes(InPlain, t[1..], y);
      assert t == [t[0]] + t[1..];
    }
  }

  lemma NoTagAt(y: Str)
    requires y != [] && y[0] != '<'
    ensures !(CDATA_OPEN <= y) && !(PARAM_CLOSE <= y)
  {
  }

  lemma NoSectionEnd(y: Str)
    requires y != [] && y[0] != ']'
    ensures Read(InCdata, y) == Put([y[0]], Read(InCdata, y[1..]))
  {
  }

  lemma {:induction false} CdataTakes(t: Str, y: Str)
    requires ']' !in t
    ensures Read(InCdata, t + y) == Put(t, Read(InCdata, y))
    decreases |t|
  {
    if t == [] {
      assert t + y == y;
    } else {
      assert (t + y)[0] == t[0] && (t + y)[1..] == t[1..] + y;
      NoSectionEnd(t + y);
      CdataTakes(t[1..], y);
      hide Read;
      assert t == [t[0]] + t[1..];
      Associates([t[0]], t[1..], Read(InCdata, y).value);
    }
  }

  // ---- the readings part for good ----

  /** Nothing closes the parameter within `u`, which `y` follows. */
  ghost predicate NoClose(u: Str, y: Str) {
    forall i :: 0 <= i < |u| ==> !OccursAt(u + y, PARAM_CLOSE, i)
  }

  lemma OccursThere(u: Str, y: Str, pat: Str)
    ensures OccursAt(u + y, pat, |u|) <==> pat <= y
  {
    if |pat| <= |y| {
      assert (u + y)[|u|..|u| + |pat|] == y[..|pat|];
    }
  }

  lemma NoCloseMore(u: Str, y: Str)
    requires NoClose(u, y) && y != [] && !(PARAM_CLOSE <= y)
    ensures NoClose(u + [y[0]], y[1..])
  {
    assert u + [y[0]] + y[1..] == u + y;
    OccursThere(u, y, PARAM_CLOSE);
  }

  /** Several raw bytes without a '<'. */
  lemma {:induction false} NoCloseTaken(u: Str, t: Str, y: Str)
    requires NoClose(u, t + y) && '<' !in t
    ensures NoClose(u + t, y)
    decreases |t|
  {
    if t == [] {
      assert u + t == u && t + y == y;
    } else {
      assert (t + y)[0] == t[0] && (t + y)[1..] == t[1..] + y;
      NoTagAt(t + y);
      NoCloseMore(u, t + y);
      NoCloseTaken(u + [t[0]], t[1..], y);
      assert u + [t[0]] + t[1..] == u + t;
    }
  }

  lemma NoCloseIn(u: Str, y: Str, i: nat)
    requires NoClose(u, y)
    ensures !OccursAt(u, PARAM_CLOSE, i)
  {
    if i + |PARAM_CLOSE| <= |u| {
      assert (u + y)[i..i + |PARAM_CLOSE|] == u[i..i + |PARAM_CLOSE|];
      assert !OccursAt(u + y, PARAM_CLOSE, i);
    }
  }

  /** Where one reading closes and the other takes the closing tag for data. */
  lemma ClosedAndNot(u: Str, s: Str, y: Str)
    requires NoClose(u, y) && PARAM_CLOSE <= y
    ensures u + Read(InPlain, y).value != s + Read(InCdata, y).value
  {
    var rest := y[|PARAM_CLOSE|..];
    assert y == PARAM_CLOSE + rest;
    CloseAnywhere(InPlain, y);
    assert u + [] == u;
    hide Read;
    CdataTakes(PARAM_CLOSE, rest);
    var tail := Read(InCdata, rest).value;
    NoCloseIn(u, y, |s|);
    OccursThere(s, PARAM_CLOSE + tail, PARAM_CLOSE);
  }

  lemma CloseAnywhere(a: Place, y: Str)
    requires PARAM_CLOSE <= y && !a.InCdata?
    ensures Read(a, y) == Read(InPlain, y) == Reading([], Some(y[|PARAM_CLOSE|..]))
  {
    assert PARAM_CLOSE[1] != CDATA_OPEN[1];
  }

  /** What one reading has over the other by the time it is out of step. */
  function Ahead(at: Place): nat {
    if at.InCdata? then 21 else 12
  }

  /** An opener behind plain bytes is read raw. */
  lemma OpenerRaw(rest: Str)
    ensures Read(InPlain, CDATA_OPEN + rest) == Put(CDATA_OPEN, Read(InPlain, rest))
  {
    var y, tail := CDATA_OPEN + rest, CDATA_OPEN[1..];
    OpenerOne(rest);
    hide Read;
    OpenerTail();
    RawTakes(AtStart, tail, rest);
    assert ['<'] + tail == CDATA_OPEN;
    Associates(['<'], tail, Read(InPlain, rest).value);
  }

  lemma OpenerOne(rest: Str)
    ensures !(PARAM_CLOSE <= CDATA_OPEN + rest) && (CDATA_OPEN + rest)[0] == '<'
    ensures (CDATA_OPEN + rest)[1..] == CDATA_OPEN[1..] + rest
    ensures Read(InPlain, CDATA_OPEN + rest) == Put(['<'], Read(AtStart, CDATA_OPEN[1..] + rest))
  {
    var y := CDATA_OPEN + rest;
    assert PARAM_CLOSE[1] != CDATA_OPEN[1] == y[1];
    assert y[1..] == CDATA_OPEN[1..] + rest;
  }

  lemma NoCloseOpener(u: Str, rest: Str)
    requires NoClose(u, CDATA_OPEN + rest)
    ensures NoClose(u + CDATA_OPEN, rest)
  {
    hide NoClose, Read;
    OpenerOne(rest);
    OpenerTail();
    NoCloseMore(u, CDATA_OPEN + rest);
    NoCloseTaken(u + ['<'], CDATA_OPEN[1..], rest);
    assert u + ['<'] + CDATA_OPEN[1..] == u + CDATA_OPEN;
  }

  lemma OpenerTail()
    ensures '<' !in CDATA_OPEN[1..] && CDATA_OPEN[1..] != [] && ']' !in CDATA_OPEN && '<' !in CDATA_CLOSE
  {
  }

  /** An opener in a section is data. */
  lemma OpenerInCdata(y: Str)
    requires CDATA_OPEN <= y
    ensures Read(InCdata, y) == Put(CDATA_OPEN, Read(InCdata, y[|CDATA_OPEN|..]))
    ensures Read(AtStart, y) == Read(InCdata, y[|CDATA_OPEN|..])
  {
    OpenerTail();
    assert y == CDATA_OPEN + y[|CDATA_OPEN|..];
    CdataTakes(CDATA_OPEN, y[|CDATA_OPEN|..]);
  }

  lemma Associates(u: Str, t: Str, v: Str)
    ensures u + (t + v) == (u + t) + v
  {
  }

  /** `u` was read raw throughout; `s` left out at least one section's markers: the values
      differ in length, or in a closing tag that only one of them holds. */
  lemma {:induction false} Diverge(a: Place, b: Place, y: Str, u: Str, s: Str)
    requires !a.InCdata? && (a.AtStart? ==> !b.InPlain?)
    requires |u| >= |s| + Ahead(b) && NoClose(u, y)
    ensures u + Read(a, y).value != s + Read(b, y).value
    decreases |y|
  {
    if y == [] || a == b {
    } else if b.InCdata? && PARAM_CLOSE <= y {
      CloseAnywhere(a, y);
      ClosedAndNot(u, s, y);
    } else if b.InCdata? && CDATA_CLOSE <= y {
      var rest := y[|CDATA_CLOSE|..];
      assert y == CDATA_CLOSE + rest;
      OpenerTail();
      RawTakes(a, CDATA_CLOSE, rest);
      NoCloseTaken(u, CDATA_CLOSE, rest);
      Diverge(InPlain, AtStart, rest, u + CDATA_CLOSE, s);
      Associates(u, CDATA_CLOSE, Read(InPlain, rest).value);
    } else if b.InCdata? && a.AtStart? && CDATA_OPEN <= y {
      OpenerInCdata(y);
    } else if b.AtStart? && CDATA_OPEN <= y {
      var rest := y[|CDATA_OPEN|..];
      assert y == CDATA_OPEN + rest;
      OpenerRaw(rest);
      NoCloseOpener(u, rest);
      Diverge(InPlain, InCdata, rest, u + CDATA_OPEN, s);
      Associates(u, CDATA_OPEN, Read(InPlain, rest).value);
    } else if !(PARAM_CLOSE <= y) {
      var c, rest := y[0], y[1..];
      NoCloseMore(u, y);
      var next := if c == '<' then AtStart else InPlain;
      var other := if b.InCdata? then b else next;
      Diverge(next, other, rest, u + [c], s + [c]);
      Associates(u, [c], Read(next, rest).value);
      Associates(s, [c], Read(other, rest).value);
    }
  }

  /** From the opener on: the uncut parser has read the opener and `z` raw, the cut one is
      in its section with `z`. Their values never meet again. */
  lemma {:induction false} Apart(a: Place, z: Str, y: Str)
    requires !a.InCdata? && (a.AtStart? ==> z != [] && z[|z| - 1] == '<')
    requires NoClose(CDATA_OPEN + z, y)
    ensures CDATA_OPEN + z + Read(a, y).value != z + Read(InCdata, y).value
    decreases |y|
  {
    var u := CDATA_OPEN + z;
    if y == [] {
    } else if PARAM_CLOSE <= y {
      CloseAnywhere(a, y);
      ClosedAndNot(u, z, y);
    } else if CDATA_CLOSE <= y {
      var rest := y[|CDATA_CLOSE|..];
      assert y == CDATA_CLOSE + rest;
      OpenerTail();
      RawTakes(a, CDATA_CLOSE, rest);
      NoCloseTaken(u, CDATA_CLOSE, rest);
      Diverge(InPlain, AtStart, rest, u + CDATA_CLOSE, z);
      Associates(u, CDATA_CLOSE, Read(InPlain, rest).value);
    } else if a.AtStart? && CDATA_OPEN <= y {
      OpenerInCdata(y);
      var v := Read(InCdata, y[|CDATA_OPEN|..]).value;
      Associates(z, CDATA_OPEN, v);
      Swapped(z, v);
    } else {
      var c, rest := y[0], y[1..];
      NoCloseMore(u, y);
      var next := if c == '<' then AtStart else InPlain;
      assert u + [c] == CDATA_OPEN + (z + [c]);
      Apart(next, z + [c], rest);
      Associates(u, [c], Read(next, rest).value);
      Associates(z, [c], Read(InCdata, rest).value);
    }
  }

  lemma Swapped(z: Str, v: Str)
    requires z != [] && z[|z| - 1] == '<'
    ensures CDATA_OPEN + z + v != z + CDATA_OPEN + v
  {
    var i := |CDATA_OPEN| + |z| - 1;
    assert (CDATA_OPEN + z + v)[i] == '<';
    assert (z + CDATA_OPEN + v)[i] == CDATA_OPEN[|CDATA_OPEN| - 1] == '[';
  }

  // ---- the parser reads the value ----

  function PlaceOf(p: Parser): Place
    requires p.mode == Param || p.mode == Cdata
  {
    if p.mode == Param then AtStart else InCdata
  }

  function LastCall(p: Parser): Call {
    Call(|p.calls|, p.name, p.params + [(p.paramName, p.paramValue)])
  }

  /** What the parser makes of the rest of a parameter is what the bytes read as. */
  ghost predicate ReadOut(p: Parser, r: Reading) {
    match r.rest
    case None => Finish(Run(p).p).p.calls == p.calls + [LastCall(EmitValue(p, r.value))]
    case Some(rest) => Run(p).p == Run(CloseParam(EmitValue(p, r.value).(mode := Param, buf := rest))).p
  }

  lemma {:induction false} CdataUpTo(y: Str, n: nat)
    requires n <= |y| && forall i :: 0 <= i < n ==> !OccursAt(y, CDATA_CLOSE, i)
    ensures Read(InCdata, y) == Put(y[..n], Read(InCdata, y[n..]))
    decreases n
  {
    hide Read, OccursAt;
    if n == 0 {
      assert y[0..] == y;
    } else {
      CdataOne(y);
      forall i | 0 <= i < n - 1 ensures !OccursAt(y[1..], CDATA_CLOSE, i) {
        if OccursAt(y[1..], CDATA_CLOSE, i) {
          OccursInRest(y, 1, i, CDATA_CLOSE);
        }
      }
      CdataUpTo(y[1..], n - 1);
      assert y[1..][n - 1..] == y[n..] && [y[0]] + y[1..][..n - 1] == y[..n];
      Associates([y[0]], y[1..][..n - 1], Read(InCdata, y[n..]).value);
    }
  }

  lemma CdataOne(y: Str)
    requires y != [] && !OccursAt(y, CDATA_CLOSE, 0)
    ensures Read(InCdata, y) == Put([y[0]], Read(InCdata, y[1..]))
  {
    OccursThere([], y, CDATA_CLOSE);
    assert [] + y == y;
  }

  /** An unclosed section releases a part of what it holds. */
  lemma CdataWaits(p: Parser) returns (cut: nat)
    requires p.mode == Cdata && Find(p.buf, CDATA_CLOSE).None?
    ensures cut <= |p.buf| && !Step(p).more
    ensures Step(p).p == p.(buf := p.buf[cut..], paramValue := p.paramValue + p.buf[..cut])
  {
    hide FloorCharBoundary, Find, StepText, StepFunction, StepParam;
    cut := CdataCut(p.buf);
    assert p.buf[0..] == p.buf && p.paramValue + p.buf[..0] == p.paramValue;
  }

  lemma ReadCdata(p: Parser)
    requires p.mode == Cdata && Find(p.buf, CDATA_CLOSE).None?
    ensures Read(InCdata, p.buf) == Reading(p.buf, None) && ReadOut(p, Reading(p.buf, None))
  {
    hide Step, Run, Read, Finish;
    CdataUpTo(p.buf, |p.buf|);
    hide Find;
    assert p.buf[|p.buf|..] == [] && p.buf[..|p.buf|] == p.buf;
    NothingRead(InCdata);
    var cut := CdataWaits(p);
    RunRest(p);
    assert p.buf[..cut] + p.buf[cut..] == p.buf;
    Associates(p.paramValue, p.buf[..cut], p.buf[cut..]);
    AtEnd(Step(p).p);
  }

  lemma NothingRead(at: Place)
    ensures Read(at, []) == Reading([], None)
  {
  }

  lemma AtEnd(p: Parser)
    requires p.mode == Param || p.mode == Cdata
    ensures Finish(p).p.calls == p.calls + [LastCall(EmitValue(p, p.buf))]
  {
  }

  /** All of `y` is plain. */
  lemma AllRaw(at: Place, y: Str)
    requires !at.InCdata? && '<' !in y
    ensures Read(at, y) == Reading(y, None)
  {
    if y != [] {
      RawTakes(at, y, []);
      assert y + [] == y;
      NothingRead(InPlain);
    }
  }

  /** A prefix of a tag at the very end is plain. */
  lemma HeldIsRaw(at: Place, y: Str, tag: Str)
    requires !at.InCdata? && ViablePrefix(y, tag) && OneTagIn(tag) && (tag == CDATA_OPEN || tag == PARAM_CLOSE)
    ensures Read(at, y) == Reading(y, None)
  {
    if y == [] {
      NothingRead(at);
    } else {
      NotYetWhole(y, tag);
      AllRaw(AtStart, y[1..]);
      assert [y[0]] + y[1..] == y;
    }
  }

  lemma NotYetWhole(y: Str, tag: Str)
    requires y != [] && ViablePrefix(y, tag) && OneTagIn(tag) && (tag == CDATA_OPEN || tag == PARAM_CLOSE)
    ensures !(CDATA_OPEN <= y) && !(PARAM_CLOSE <= y) && y[0] == '<' && '<' !in y[1..]
  {
    assert CDATA_OPEN[1] != PARAM_CLOSE[1];
  }

  /** A pass that takes `t` into the value. */
  lemma Onward(p: Parser, q: Parser, t: Str, r: Reading)
    requires Step(p).more && q == Step(p).p && q == EmitValue(p, t).(mode := q.mode, buf := q.buf) && ReadOut(q, r)
    ensures ReadOut(p, Put(t, r))
  {
    hide Step, Run, Finish;
    RunMore(p);
    Associates(p.paramValue, t, r.value);
  }

  /** The last pass: everything left is part of the value. */
  lemma Waiting(p: Parser, t: Str)
    requires p.mode == Param && !Step(p).more && Step(p).p == EmitValue(p, t).(buf := Step(p).p.buf)
    requires t + Step(p).p.buf == p.buf
    ensures ReadOut(p, Reading(p.buf, None))
  {
    hide Step, Run, Finish;
    RunRest(p);
    AtEnd(Step(p).p);
    Associates(p.paramValue, t, Step(p).p.buf);
  }

  /** What a '<' that opens no section reads as. */
  lemma AtTag(at: Place, y: Str)
    requires y != [] && y[0] == '<' && !at.InCdata? && (at.AtStart? ==> !(CDATA_OPEN <= y))
    ensures
      match LiteralLead(y, PARAM_CLOSE)
      case Whole(_, after) => Read(at, y) == Reading([], Some(after))
      case Hold => Read(at, y) == Reading(y, None)
      case Other => Read(at, y) == Put("<", Read(AtStart, y[1..]))
  {
    OneTagEach();
    if LiteralLead(y, PARAM_CLOSE).Hold? {
      HeldIsRaw(at, y, PARAM_CLOSE);
    }
  }

  /** Plain bytes, if any, and the '<' behind them. */
  lemma ReadAtTag(y: Str, i: nat)
    requires i < |y| && y[i] == '<' && '<' !in y[..i] && !(CDATA_OPEN <= y)
    ensures
      var t, rest := y[..i], y[i..];
      match LiteralLead(rest, PARAM_CLOSE)
      case Whole(_, after) => Read(AtStart, y) == Reading(t, Some(after))
      case Hold => Read(AtStart, y) == Reading(y, None)
      case Other => Read(AtStart, y) == Put(t + "<", Read(AtStart, rest[1..]))
  {
    hide Read, LiteralLead;
    var t, rest := y[..i], y[i..];
    var at := if i == 0 then AtStart else InPlain;
    assert t + rest == y && rest[0] == '<';
    AtTag(at, rest);
    if i > 0 {
      RawTakes(AtStart, t, rest);
    }
    assert Read(AtStart, y) == Put(t, Read(at, rest));
    match LiteralLead(rest, PARAM_CLOSE)
    case Whole(_, _) => assert t + [] == t;
    case Hold =>
    case Other => Associates(t, "<", Read(AtStart, rest[1..]).value);
  }

  /** A pass over plain parameter bytes. */
  lemma ValueStep(p: Parser)
    requires p.mode == Param && LiteralLead(p.buf, CDATA_OPEN).Other?
    ensures
      var i := FindChar(p.buf, '<');
      var t, rest := p.buf[..i], p.buf[i..];
      if i == |p.buf| then Step(p).more && Step(p).p == EmitValue(p, p.buf).(buf := [])
      else
        match LiteralLead(rest, PARAM_CLOSE)
        case Whole(_, after) => Step(p).more && Step(p).p == CloseParam(EmitValue(p, t).(buf := after))
        case Hold => !Step(p).more && Step(p).p == EmitValue(p, t).(buf := rest)
        case Other => Step(p).more && Step(p).p == EmitValue(p, t + "<").(buf := rest[1..])
  {
    hide Consumes, StepText, StepFunction, StepCdata, FindChar, LiteralLead;
    var t := p.buf[..FindChar(p.buf, '<')];
    Associates(p.paramValue, t, "<");
  }

  /** The parser reads a value as the bytes read. */
  lemma {:induction false} ReadsOut(p: Parser)
    requires p.mode == Param || p.mode == Cdata
    ensures ReadOut(p, Read(PlaceOf(p), p.buf))
    decreases |p.buf|
  {
    hide Step, Run, Read, ReadOut, FindChar, LiteralLead, Find;
    var q := Step(p).p;
    if p.mode == Cdata {
      var r := Find(p.buf, CDATA_CLOSE);
      if r.None? {
        ReadCdata(p);
      } else {
        SectionEnds(p, r.value);
        ReadsOut(q);
        Onward(p, q, p.buf[..r.value], Read(AtStart, q.buf));
      }
    } else if LiteralLead(p.buf, CDATA_OPEN).Whole? {
      SectionOpens(p);
      ReadsOut(q);
      Onward(p, q, [], Read(InCdata, q.buf));
    } else if LiteralLead(p.buf, CDATA_OPEN).Hold? {
      OpenerHeld(p);
    } else {
      var i := FindChar(p.buf, '<');
      ValueStep(p);
      NoOpener(p.buf);
      if i == |p.buf| {
        AllRaw(AtStart, p.buf);
        NothingRead(AtStart);
        assert p.buf + [] == p.buf;
        ReadsOut(q);
        Onward(p, q, p.buf, Read(AtStart, []));
      } else {
        ReadAtTag(p.buf, i);
        match LiteralLead(p.buf[i..], PARAM_CLOSE)
        case Whole(_, _) => ParamCloses(p, p.buf[..i]);
        case Hold => Waiting(p, p.buf[..i]);
        case Other =>
          ReadsOut(q);
          Onward(p, q, p.buf[..i] + "<", Read(AtStart, q.buf));
      }
    }
  }

  lemma NoOpener(y: Str)
    requires LiteralLead(y, CDATA_OPEN).Other?
    ensures !(CDATA_OPEN <= y) && y != []
  {
  }

  lemma SectionEnds(p: Parser, n: nat)
    requires p.mode == Cdata && Find(p.buf, CDATA_CLOSE) == Some(n)
    ensures
      var q := Step(p).p;
      && Step(p).more && |q.buf| < |p.buf| && q == EmitValue(p, p.buf[..n]).(mode := Param, buf := q.buf)
      && Read(InCdata, p.buf) == Put(p.buf[..n], Read(AtStart, q.buf))
  {
    hide Consumes, StepText, StepFunction, StepParam;
    CdataUpTo(p.buf, n);
    var y := p.buf[n..];
    assert CDATA_CLOSE <= y by { assert y[..|CDATA_CLOSE|] == p.buf[n..n + |CDATA_CLOSE|]; }
    assert y[|CDATA_CLOSE|..] == p.buf[n + |CDATA_CLOSE|..];
  }

  lemma SectionOpens(p: Parser)
    requires p.mode == Param && LiteralLead(p.buf, CDATA_OPEN).Whole?
    ensures
      var q := Step(p).p;
      && Step(p).more && |q.buf| < |p.buf| && q == EmitValue(p, []).(mode := Cdata, buf := q.buf)
      && Read(AtStart, p.buf) == Put([], Read(InCdata, q.buf))
  {
    hide Consumes, StepText, StepFunction, StepCdata;
    assert p.paramValue + [] == p.paramValue;
  }

  lemma OpenerHeld(p: Parser)
    requires p.mode == Param && LiteralLead(p.buf, CDATA_OPEN).Hold?
    ensures ReadOut(p, Read(AtStart, p.buf))
  {
    OneTagEach();
    HeldIsRaw(AtStart, p.buf, CDATA_OPEN);
    assert p.paramValue + [] == p.paramValue && [] + p.buf == p.buf;
    assert Step(p) == Outcome(p, [], false) by { hide Consumes, StepText, StepFunction, StepCdata; }
    hide Step, ReadOut, Read, LiteralLead;
    Waiting(p, []);
  }

  lemma ParamCloses(p: Parser, t: Str)
    requires p.mode == Param && Step(p).more && Step(p).p == CloseParam(EmitValue(p, t).(buf := Step(p).p.buf))
    ensures ReadOut(p, Reading(t, Some(Step(p).p.buf)))
  {
    hide Step, Run;
    RunMore(p);
  }

  // ---- what is said stays said ----

  /** The calls made and the parameters of the current call are kept. */
  ghost predicate Keeps(p: Parser, q: Parser) {
    && p.calls <= q.calls
    && (p.mode != Text ==>
          if |q.calls| == |p.calls| then q.mode != Text && p.params <= q.params
          else p.params <= q.calls[|p.calls|].params)
  }

  lemma KeepsOn(p: Parser, q: Parser, r: Parser)
    requires Keeps(p, q) && Keeps(q, r)
    ensures Keeps(p, r)
  {
    assert |q.calls| > |p.calls| ==> r.calls[|p.calls|] == q.calls[|p.calls|];
  }

  lemma StepKeeps(p: Parser)
    ensures Keeps(p, Step(p).p)
  {
    hide TagLead, LiteralLead, FindChar, Find, CdataCut, Consumes;
  }

  lemma {:induction false} RunKeeps(p: Parser)
    ensures Keeps(p, Run(p).p)
    decreases |p.buf|
  {
    hide Step, Keeps;
    StepKeeps(p);
    if Step(p).more {
      RunMore(p);
      RunKeeps(Step(p).p);
      KeepsOn(p, Step(p).p, Run(p).p);
    }
  }

  lemma FinishKeeps(p: Parser)
    ensures Keeps(p, Finish(p).p) && (p.mode != Text ==> |Finish(p).p.calls| > |p.calls|)
  {
  }

  /** What a reading makes of the parameter is in the final calls. */
  lemma ValueStays(p: Parser, r: Reading)
    requires ReadOut(p, r)
    ensures
      var calls := Finish(Run(p).p).p.calls;
      |calls| > |p.calls| && p.params + [(p.paramName, p.paramValue + r.value)] <= calls[|p.calls|].params
  {
    hide Run, Finish;
    if r.rest.Some? {
      var q := CloseParam(EmitValue(p, r.value).(mode := Param, buf := r.rest.value));
      RunKeeps(q);
      FinishKeeps(Run(q).p);
      KeepsOn(q, Run(q).p, Finish(Run(q).p).p);
    }
  }

  // ---- the two cuts ----

  /** From the state before a misplaced opener the uncut parser reads it raw. */
  lemma UncutReads(b: Parser, i: nat, rest: Str)
    requires PlainThenOpener(b) && i == FindChar(b.buf, '<') && rest == b.buf[i + |CDATA_OPEN|..]
    ensures Read(AtStart, b.buf) == Put(b.buf[..i] + CDATA_OPEN, Read(InPlain, rest))
  {
    var t := b.buf[..i];
    assert b.buf == t + (CDATA_OPEN + rest) by {
      assert b.buf[i..][..|CDATA_OPEN|] == CDATA_OPEN;
    }
    hide Read;
    RawTakes(AtStart, t, CDATA_OPEN + rest);
    OpenerRaw(rest);
    Associates(t, CDATA_OPEN, Read(InPlain, rest).value);
  }

  /** No closing tag begins within the opener. */
  lemma OpenerHasNoClose(rest: Str)
    ensures NoClose(CDATA_OPEN, rest)
  {
    var y := CDATA_OPEN + rest;
    OpenerTail();
    assert y[1] == CDATA_OPEN[1] != PARAM_CLOSE[1];
    forall i | 0 <= i < |CDATA_OPEN| ensures !OccursAt(y, PARAM_CLOSE, i) {
      assert i > 0 ==> y[i] == CDATA_OPEN[1..][i - 1];
      OccursHead(y, PARAM_CLOSE, i);
    }
  }

  lemma OccursHead(y: Str, pat: Str, i: nat)
    requires |pat| >= 2
    ensures OccursAt(y, pat, i) ==> y[i] == pat[0] && y[i + 1] == pat[1]
  {
    if OccursAt(y, pat, i) {
      assert y[i..i + |pat|][0] == y[i] && y[i..i + |pat|][1] == y[i + 1];
    }
  }

  /** The cut parser, its section just opened, and the uncut one end with different calls. */
  lemma CallsPart(b: Parser, i: nat)
    requires PlainThenOpener(b) && i == FindChar(b.buf, '<')
    ensures
      var s := EmitValue(b, b.buf[..i]).(mode := Cdata, buf := b.buf[i + |CDATA_OPEN|..]);
      Finish(Run(b).p).p.calls != Finish(Run(s).p).p.calls
  {
    var t, rest := b.buf[..i], b.buf[i + |CDATA_OPEN|..];
    var s := EmitValue(b, t).(mode := Cdata, buf := rest);
    assert b.mode == Param;
    UncutReads(b, i, rest);
    hide PlainThenOpener, Run, Finish, Read, ReadOut, FindChar;
    ReadsOut(b);
    ReadsOut(s);
    OpenerHasNoClose(rest);
    assert CDATA_OPEN + [] == CDATA_OPEN;
    Apart(InPlain, [], rest);
    ValueStays(b, Put(t + CDATA_OPEN, Read(InPlain, rest)));
    ValueStays(s, Read(InCdata, rest));
    Associates(t, CDATA_OPEN, Read(InPlain, rest).value);
    Associates(b.paramValue, t, CDATA_OPEN + Read(InPlain, rest).value);
    assert [] + Read(InCdata, rest).value == Read(InCdata, rest).value;
    var uncut, cut := Finish(Run(b).p).p.calls, Finish(Run(s).p).p.calls;
    PairsDiffer(b.params, b.paramName, b.paramValue + t, CDATA_OPEN + Read(InPlain, rest).value,
                Read(InCdata, rest).value, uncut[|b.calls|].params, cut[|b.calls|].params);
  }

  lemma PairsDiffer(params: seq<(Str, Str)>, name: Str, v: Str, x: Str, y: Str,
                    a: seq<(Str, Str)>, b: seq<(Str, Str)>)
    requires x != y && params + [(name, v + x)] <= a && params + [(name, v + y)] <= b
    ensures a != b
  {
    assert (v + x)[|v|..] == x && (v + y)[|v|..] == y;
    assert a[|params|] == (name, v + x) && b[|params|] == (name, v + y);
  }

  // ---- results ----

  /** Where the cut and the uncut run stand at the misplaced opener `k - 1`. */
  lemma AtTheCut(w: Str) returns (k: nat, b: Parser)
    requires !OpenersAtSegmentStart(Fed(Init, w))
    ensures k <= |w| && PlainThenOpener(b) && Run(Fed(Init, w)).p == Run(b).p
    ensures
      var i := FindChar(b.buf, '<');
      Run(Fed(Init, w[..k])).p == AfterValue(b, b.buf[..i], "<") && w[k..] == b.buf[i + 1..]
  {
    hide Step, Run, Finish, OpenersAtSegmentStart, BadState, Offset, PlainThenOpener, FindChar, AfterValue;
    var p := Fed(Init, w);
    assert p.buf == w;
    OffsetIsOpener(p);
    b := BadState(p);
    k := Offset(p) + 1;
    CutRun(p, k);
    CutRun(p, |w|);
    WholeCut(p);
    WholeCut(b);
    assert Fed(Init, w[..k]) == Cut(p, k);
    SplitSeesOpener(b);
    BadIsSuffix(p);
  }

  /** A text with a misplaced opener, cut inside that opener, gets another verdict than
      uncut, whatever follows the opener. */
  lemma CutInsideOpener(w: Str) returns (k: nat)
    requires !OpenersAtSegmentStart(Fed(Init, w))
    ensures k <= |w| && Parsed([w[..k], w[k..]]) != ParsedWhole(w)
  {
    hide Step, Run, Finish, OpenersAtSegmentStart, Parsed, PlainThenOpener, FindChar, AfterValue;
    var b;
    k, b := AtTheCut(w);
    var i := FindChar(b.buf, '<');
    SectionFollows(b, i, w[k..]);
    CallsPart(b, i);
    CallsTell(w[..k], w[k..], w);
  }

  lemma WholeCut(p: Parser)
    ensures Cut(p, |p.buf|) == p
  {
  }

  lemma CallsTell(f: Str, g: Str, w: Str)
    requires Finish(Run(Fed(Run(Fed(Init, f)).p, g)).p).p.calls != Finish(Run(Fed(Init, w)).p).p.calls
    ensures Parsed([f, g]) != ParsedWhole(w)
  {
    hide Run, Finish, Flat;
    PushesOf(f, g);
    PushesOf(w, []);
  }

  /** The rest of the text, fed to the cut parser, opens the section. */
  lemma SectionFollows(b: Parser, i: nat, rest: Str)
    requires PlainThenOpener(b) && i == FindChar(b.buf, '<') && rest == b.buf[i + 1..]
    ensures
      var r, s := AfterValue(b, b.buf[..i], "<"),
          EmitValue(b, b.buf[..i]).(mode := Cdata, buf := b.buf[i + |CDATA_OPEN|..]);
      Run(Fed(r, rest)).p == Run(s).p
  {
    var r, y := AfterValue(b, b.buf[..i], "<"), b.buf[i..];
    assert r.mode == Param && CDATA_OPEN <= y;
    assert "<" + rest == y;
    assert y[|CDATA_OPEN|..] == b.buf[i + |CDATA_OPEN|..];
    hide FindChar, Run, StepText, StepFunction, StepCdata, PlainThenOpener;
    assert Step(Fed(r, rest)).more;
    RunMore(Fed(r, rest));
  }

  lemma {:induction false} BadIsSuffix(p: Parser)
    requires !OpenersAtSegmentStart(p)
    ensures var b := BadState(p); p.buf[|p.buf| - |b.buf|..] == b.buf
    decreases |p.buf|
  {
    hide Step, Offset, OpenersAtSegmentStart, BadState, PlainThenOpener;
    if PlainThenOpener(p) {
      BadHere(p);
    } else {
      OffsetNext(p);
      var q := Step(p).p;
      BadIsSuffix(q);
      assert q.buf == p.buf[|p.buf| - |q.buf|..];
    }
  }

  /** The parser's verdict on a text is the same for every way of cutting it if and only
      if no CDATA opener directly follows plain bytes of the same segment. */
  lemma CutExact(w: Str)
    ensures OpenersAtSegmentStart(Fed(Init, w)) <==>
            forall fragments | Concat(fragments) == w :: Parsed(fragments) == ParsedWhole(w)
  {
    hide Step, Run, Finish, Flat, OpenersAtSegmentStart, Parsed;
    if OpenersAtSegmentStart(Fed(Init, w)) {
      forall fragments | Concat(fragments) == w ensures Parsed(fragments) == ParsedWhole(w) {
        FragmentationIndependence(fragments);
      }
    } else {
      var k := CutInsideOpener(w);
      TwoParts(w, k);
    }
  }

  lemma TwoParts(w: Str, k: nat)
    requires k <= |w|
    ensures Concat([w[..k], w[k..]]) == w
  {
    var f, g := w[..k], w[k..];
    assert [f, g][1..] == [g] && [g][1..] == [];
    assert Concat([g]) == g + [];
  }
}
