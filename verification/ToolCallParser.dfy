/** The parser object: every method leaves the object where the transition
    function of module ToolCall says. */
module ToolCallParser {
  import opened Strings
  import opened ToolCall

  class ToolCallParser {
    var state: Mode
    var buf: Str
    var currentName: Str
    var currentParams: seq<(Str, Str)>
    var paramName: Str
    var paramValue: Str
    var calls: seq<Call>
    var callSeq: nat

    ghost predicate Valid()
      reads this
    {
      callSeq == |calls|
    }

    ghost function View(): Parser
      reads this
    {
      Parser(state, buf, currentName, currentParams, paramName, paramValue, calls)
    }

    constructor ()
      ensures Valid() && View() == Init
    {
      state := Text;
      buf := [];
      currentName, currentParams := [], [];
      paramName, paramValue := [], [];
      calls, callSeq := [], 0;
    }

    method EmitParamValue(text: Str) returns (events: seq<Event>)
      requires Valid()
      modifies this`paramValue
      ensures View() == EmitValue(old(View()), text) && events == [ParamValue(paramName, text)]
    {
      paramValue := paramValue + text;
      events := [ParamValue(paramName, text)];
    }

    method CloseParameter()
      requires Valid()
      modifies this
      ensures Valid() && View() == CloseParam(old(View())).(mode := old(state))
    {
      currentParams := currentParams + [(paramName, paramValue)];
      paramName, paramValue := [], [];
    }

    method CloseCall() returns (events: seq<Event>)
      requires Valid()
      modifies this
      ensures Valid() && Outcome(View(), events, true) == CloseFunction(old(View()))
    {
      var call := Call(callSeq, currentName, currentParams);
      currentName, currentParams := [], [];
      callSeq := callSeq + 1;
      events := [CallEnd(call)];
      calls := calls + [call];
      state := Text;
    }

    method StepInText() returns (events: seq<Event>, more: bool)
      requires Valid() && state == Text
      modifies this
      ensures Valid() && Outcome(View(), events, more) == StepText(old(View()))
    {
      hide ParseTag, AfterTag, TextAtTag, ViablePrefix, TagComplete, FindChar, Consumes;
      events := [];
      var i := FindChar(buf, '<');
      if i == |buf| {
        if buf == [] {
          return events, false;
        }
        events := [TextEvent(buf)];
        buf := [];
        return events, true;
      }
      if i > 0 {
        events := [TextEvent(buf[..i])];
      }
      buf := buf[i..];
      ghost var p := View();
      assert StepText(old(View())) == (var o := TextAtTag(p); Outcome(o.p, events + o.events, o.more));
      TagCases(p);
      if FN_OPEN <= buf {
        if !TagComplete(buf) {
          return events, false;
        }
        var parsed := ParseTag(buf, FN_OPEN);
        if parsed.Some? {
          state := Function;
          currentName := parsed.value;
          buf := AfterTag(buf);
          events := events + [CallStart(parsed.value)];
          return events, true;
        }
      } else if ViablePrefix(buf, FN_OPEN) {
        return events, false;
      }
      buf := buf[1..];
      events := events + [TextEvent("<")];
      more := true;
    }

    method StepInFunction() returns (events: seq<Event>, more: bool)
      requires Valid() && state == Function
      modifies this
      ensures Valid() && Outcome(View(), events, more) == StepFunction(old(View()))
    {
      hide ParseTag, AfterTag;
      events := [];
      var i := FindChar(buf, '<');
      if i == |buf| {
        buf := [];
        return events, false;
      }
      if i > 0 {
        buf := buf[i..];
        return events, true;
      }
      if FN_CLOSE <= buf {
        buf := buf[|FN_CLOSE|..];
        events := CloseCall();
        return events, true;
      }
      if PARAM_OPEN <= buf {
        if !TagComplete(buf) {
          return events, false;
        }
        var parsed := ParseTag(buf, PARAM_OPEN);
        if parsed.Some? {
          state := Param;
          paramName, paramValue := parsed.value, [];
          buf := AfterTag(buf);
          return events, true;
        }
      }
      if ViablePrefix(buf, FN_CLOSE) || ViablePrefix(buf, PARAM_OPEN) {
        NoOtherTag(buf);
        return events, false;
      }
      buf := buf[1..];
      more := true;
    }

    method StepInParam() returns (events: seq<Event>, more: bool)
      requires Valid() && state == Param
      modifies this
      ensures Valid() && Outcome(View(), events, more) == StepParam(old(View()))
    {
      hide Consumes, FindChar, StepText, StepFunction, StepCdata;
      events := [];
      if CDATA_OPEN <= buf {
        state := Cdata;
        buf := buf[|CDATA_OPEN|..];
        return events, true;
      }
      if ViablePrefix(buf, CDATA_OPEN) {
        return events, false;
      }
      var i := FindChar(buf, '<');
      if i == |buf| {
        var text := buf;
        buf := [];
        events := EmitParamValue(text);
        return events, true;
      }
      assert paramValue + buf[..0] == paramValue && buf[0..] == buf;
      if i > 0 {
        var text := buf[..i];
        buf := buf[i..];
        events := EmitParamValue(text);
      }
      ghost var p := View();
      assert StepParam(old(View())) == (var o := ValueAtTag(p); Outcome(o.p, events + o.events, o.more));
      if PARAM_CLOSE <= buf {
        buf := buf[|PARAM_CLOSE|..];
        CloseParameter();
        state := Function;
        return events, true;
      }
      if ViablePrefix(buf, PARAM_CLOSE) {
        return events, false;
      }
      buf := buf[1..];
      var literal := EmitParamValue("<");
      events := events + literal;
      more := true;
    }

    method StepInCdata() returns (events: seq<Event>, more: bool)
      requires Valid() && state == Cdata
      modifies this
      ensures Valid() && Outcome(View(), events, more) == StepCdata(old(View()))
    {
      hide Consumes, Find, FloorCharBoundary;
      events := [];
      var close := Find(buf, CDATA_CLOSE);
      if close.Some? {
        var text := buf[..close.value];
        events := EmitParamValue(text);
        buf := buf[close.value + |CDATA_CLOSE|..];
        state := Param;
        return events, true;
      }
      var hold := |CDATA_CLOSE| - 1;
      if |buf| > hold {
        var cut := FloorCharBoundary(buf, |buf| - hold);
        if cut > 0 {
          var text := buf[..cut];
          buf := buf[cut..];
          events := EmitParamValue(text);
        }
      }
      more := false;
    }

    method Step() returns (events: seq<Event>, more: bool)
      requires Valid()
      modifies this
      ensures Valid() && Outcome(View(), events, more) == ToolCall.Step(old(View()))
    {
      match state
      case Text => events, more := StepInText();
      case Function => events, more := StepInFunction();
      case Param => events, more := StepInParam();
      case Cdata => events, more := StepInCdata();
    }

    /** Feeds a fragment and makes passes until none makes progress. */
    method Push(fragment: Str) returns (events: seq<Event>)
      requires Valid()
      modifies this
      ensures Valid() && Result(View(), events) == ToolCall.Push(old(View()), fragment)
    {
      hide ToolCall.Step;
      buf := buf + fragment;
      ghost var start := View();
      events := [];
      var more := true;
      while more
        invariant Valid()
        invariant more ==> Run(start) == Result(Run(View()).p, events + Run(View()).events)
        invariant !more ==> Run(start) == Result(View(), events)
        decreases if more then 1 + |buf| else 0
      {
        ghost var before, said := View(), events;
        var es, again := Step();
        events := events + es;
        more := again;
        if more {
          assert said + (es + Run(View()).events) == events + Run(View()).events;
        }
      }
    }

    /** Flushes what is held back and closes what is open. */
    method Finish() returns (events: seq<Event>)
      requires Valid()
      modifies this
      ensures Valid() && Result(View(), events) == ToolCall.Finish(old(View()))
    {
      events := [];
      var leftover := buf;
      buf := [];
      match state {
        case Text => events := [TextEvent(leftover)];
        case Function =>
        case _ =>
          if leftover != [] {
            events := EmitParamValue(leftover);
          }
          assert old(View()).paramValue + [] == old(View()).paramValue;
          CloseParameter();
          state := Function;
      }
      if state == Function {
        var close := CloseCall();
        events := events + close;
      }
      state := Text;
    }
  }

  lemma TagCases(p: Parser)
    requires p.buf != []
    ensures FN_OPEN <= p.buf && !TagComplete(p.buf) ==> TextAtTag(p) == Outcome(p, [], false)
    ensures FN_OPEN <= p.buf && TagComplete(p.buf) && ParseTag(p.buf, FN_OPEN).Some? ==>
              var name := ParseTag(p.buf, FN_OPEN).value;
              TextAtTag(p)
                  == Outcome(p.(mode := Function, name := name, buf := AfterTag(p.buf)), [CallStart(name)], true)
    ensures !(FN_OPEN <= p.buf) && ViablePrefix(p.buf, FN_OPEN) ==> TextAtTag(p) == Outcome(p, [], false)
    ensures (if FN_OPEN <= p.buf then TagComplete(p.buf)
              && ParseTag(p.buf, FN_OPEN).None? else !ViablePrefix(p.buf, FN_OPEN)) ==>
              TextAtTag(p) == Outcome(p.(buf := p.buf[1..]), [TextEvent("<")], true)
  {
    hide ParseTag, AfterTag;
  }

  lemma NoOtherTag(b: Str)
    requires ViablePrefix(b, FN_CLOSE) || ViablePrefix(b, PARAM_OPEN)
    ensures !TagLead(b, PARAM_OPEN).Whole? && !LiteralLead(b, FN_CLOSE).Whole?
  {
    assert FN_CLOSE[1] == '/' && PARAM_OPEN[1] == 'p';
    assert ViablePrefix(b, FN_CLOSE) && |b| > 1 ==> b[1] == FN_CLOSE[1];
  }
}
