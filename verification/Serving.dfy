/** From a job to its client's text: what the worker puts on a job's channel, read by
    `run_generation`. */
module Serving {
  import opened Strings
  import opened Events
  import opened Reference
  import opened SchedulerState
  import SD = StreamDecode
  import Generation
  import SchedulerResults

  /** Token events of content tokens only. */
  ghost predicate Content(events: seq<GenEvent>) {
    forall i :: 0 <= i < |events| ==> events[i].Token? && !IsEos(events[i].id)
  }

  lemma {:induction false} ContentIds(events: seq<GenEvent>, rest: seq<GenEvent>)
    requires Content(events)
    ensures |Generation.Ids(events + rest)| >= |events|
    ensures forall i :: 0 <= i < |events| ==> Generation.Ids(events + rest)[i] == events[i].id
    ensures Generation.Ids(events + rest)[|events|..] == Generation.Ids(rest)
    ensures Generation.Ending(events + rest) == Generation.Ending(rest)
    decreases |events|
  {
    hide IsEos;
    if events == [] {
      assert events + rest == rest;
    } else {
      assert (events + rest)[1..] == events[1..] + rest && (events + rest)[0] == events[0];
      ContentIds(events[1..], rest);
    }
  }

  lemma {:induction false} ShownContent(next: Net, prompt: seq<Token>, n: nat)
    requires NoEosBefore(next, prompt, n)
    ensures Content(Shown(next, prompt, n))
    ensures forall i :: 0 <= i < n ==> Shown(next, prompt, n)[i] == GenEvent.Token(Emitted(next, prompt, n)[i])
  {
    hide IsEos, TokenAt;
    if n > 0 {
      ShownContent(next, prompt, n - 1);
      assert TokenAt(next, prompt, n - 1) == Emitted(next, prompt, n)[n - 1] by { TokenIs(next, prompt, n); }
    }
  }

  lemma TokenIs(next: Net, prompt: seq<Token>, n: nat)
    requires n > 0
    ensures TokenAt(next, prompt, n - 1) == Emitted(next, prompt, n)[n - 1]
    ensures Emitted(next, prompt, n)[..n - 1] == Emitted(next, prompt, n - 1)
  {
  }

  /** The tokens of a job, and perhaps a terminal event, as `run_generation` takes them. */
  lemma Taken(next: Net, prompt: seq<Token>, n: nat, last: seq<GenEvent>)
    requires NoEosBefore(next, prompt, n) && |last| <= 1 && (last != [] ==> !last[0].Token?)
    ensures
      var events := Shown(next, prompt, n) + last;
      && Generation.Ids(events) == Emitted(next, prompt, n)
      && Generation.Ending(events) == (if last == [] then None else Some(last[0]))
      && !Generation.EndsWithEos(events)
  {
    hide IsEos, TokenAt, Shown, Emitted, NoEosBefore;
    ShownContent(next, prompt, n);
    ContentIds(Shown(next, prompt, n), last);
    assert Generation.Ids(last) == [];
    assert Generation.Ids(Shown(next, prompt, n) + last) == Emitted(next, prompt, n);
  }

  lemma NoEosLess(next: Net, prompt: seq<Token>, k: nat, n: nat)
    requires NoEosBefore(next, prompt, n) && k <= n
    ensures NoEosBefore(next, prompt, k)
  {
    hide IsEos, TokenAt;
  }

  /** Whatever befell a job, its channel never carries an eos token. */
  lemma NoEosEvent(next: Net, lg: JobLog)
    requires EndedOk(next, lg)
    ensures !Generation.EndsWithEos(lg.events)
  {
    hide IsEos, TokenAt, NoEosBefore, Shown, Generation.EndsWithEos, Limit;
    var n, prompt := lg.state.generated, lg.job.prompt;
    var terminal := TerminalOf(lg.state.finish, |prompt|, n);
    Taken(next, prompt, n, [terminal]);
    Taken(next, prompt, n, []);
    assert Shown(next, prompt, n) + [] == Shown(next, prompt, n);
    if PartOf(next, lg, n) {
      NoEosLess(next, prompt, |lg.events|, n);
      Taken(next, prompt, |lg.events|, []);
      assert Shown(next, prompt, |lg.events|) + [] == lg.events;
    } else if lg.state.finish.ByFailure? {
      var front := lg.events[..|lg.events| - 1];
      NoEosLess(next, prompt, |front|, n);
      Taken(next, prompt, |front|, [terminal]);
      assert Shown(next, prompt, |front|) + [terminal] == lg.events;
    }
  }

  /** The client of an undisturbed job sees the decoding of its sequential reference up to
      the stop string, nothing lost; and why it ended. */
  method Serve(vocab: SD.Vocab, stops: seq<Str>, next: Net, lg: JobLog) returns (r: Generation.GenResult)
    requires EndedOk(next, lg) && SchedulerResults.Undisturbed(lg)
    ensures
      var o := Sequential(next, lg.job.prompt, lg.job.config.maxNew, 0);
      && !r.error && !r.clientGone
      && r.content == Generation.ClientText(vocab, stops, o.tokens)
      && r.reason == (if Generation.HitBeforeEnd(vocab, stops, o.tokens) then Stop else o.reason)
      && (!Generation.HitBeforeEnd(vocab, stops, o.tokens) ==>
            && r.completionTokens == |o.tokens|
            && lg.events[|lg.events| - 1] == GenEvent.Done(r.reason, Usage(|lg.job.prompt|, r.completionTokens)))
  {
    ghost var o := Sequential(next, lg.job.prompt, lg.job.config.maxNew, 0);
    StreamTaken(next, lg);
    hide EndedOk, SchedulerResults.ReferenceStream, Sequential, Generation.ClientText, Generation.HitBeforeEnd;
    hide Generation.Ids, Generation.Ending, Generation.Outcome, Generation.LoopEnd;
    ghost var said, n;
    r, said, n := Generation.RunGeneration(vocab, stops, lg.events, (k: nat) => false, (k: nat) => true);
  }

  lemma StreamTaken(next: Net, lg: JobLog)
    requires EndedOk(next, lg) && SchedulerResults.Undisturbed(lg)
    ensures
      var o := Sequential(next, lg.job.prompt, lg.job.config.maxNew, 0);
      && Generation.Ids(lg.events) == o.tokens
      && Generation.Ending(lg.events) == Some(GenEvent.Done(o.reason, Usage(|lg.job.prompt|, |o.tokens|)))
      && lg.events != [] && lg.events[|lg.events| - 1] == GenEvent.Done(o.reason, Usage(|lg.job.prompt|, |o.tokens|))
  {
    hide IsEos, TokenAt, Shown, Sequential, Emitted, NoEosBefore, EndedOk;
    SchedulerResults.UndisturbedIsReference(next, lg);
    var prompt, maxNew := lg.job.prompt, lg.job.config.maxNew;
    assert NoEosBefore(next, prompt, 0) by { NoneBeforeZero(next, prompt); }
    SequentialMeaning(next, prompt, maxNew, 0);
    var o := Sequential(next, prompt, maxNew, 0);
    SchedulerResults.ShownTokens(next, prompt, |o.tokens|);
    Taken(next, prompt, |o.tokens|, [GenEvent.Done(o.reason, Usage(|prompt|, |o.tokens|))]);
  }

  lemma NoneBeforeZero(next: Net, prompt: seq<Token>)
    ensures NoEosBefore(next, prompt, 0)
  {
  }
}
