/** What the worker's invariants mean for a client, for a session and for progress. */
module SchedulerResults {
  import opened Strings
  import opened Events
  import opened Reference
  import opened EngineModel
  import opened CallGrammar
  import opened SchedulerState
  import opened SchedulerWorld
  import opened SchedulerQuantum

  function TokenEvents(tokens: seq<Token>): (r: seq<GenEvent>)
    ensures |r| == |tokens|
  {
    seq(|tokens|, i requires 0 <= i < |tokens| => GenEvent.Token(tokens[i]))
  }

  /** The events of a job that runs alone, from the sequential reference. */
  function ReferenceStream(next: Net, job: Job): seq<GenEvent> {
    var o := Sequential(next, job.prompt, job.config.maxNew, 0);
    TokenEvents(o.tokens) + [GenEvent.Done(o.reason, Usage(|job.prompt|, |o.tokens|))]
  }

  lemma {:induction false} ShownTokens(next: Net, prompt: seq<Token>, n: nat)
    ensures Shown(next, prompt, n) == TokenEvents(Emitted(next, prompt, n))
  {
    if n > 0 {
      ShownTokens(next, prompt, n - 1);
    }
  }

  lemma {:induction false} ShownPrefix(next: Net, prompt: seq<Token>, k: nat, n: nat)
    requires k <= n
    ensures Shown(next, prompt, k) <= Shown(next, prompt, n)
    decreases n - k
  {
    hide TokenAt;
    if k < n {
      ShownPrefix(next, prompt, k, n - 1);
    }
  }

  /** The reference emits at least the first `n` decisions if none of them is an eos. */
  lemma ReferenceReaches(next: Net, job: Job, n: nat)
    requires NoEosBefore(next, job.prompt, n) && n <= Limit(job.config.maxNew)
    ensures n <= |Sequential(next, job.prompt, job.config.maxNew, 0).tokens|
    ensures Shown(next, job.prompt, n) <= ReferenceStream(next, job)
  {
    hide TokenAt, Sequential, IsEos;
    SequentialMeaning(next, job.prompt, job.config.maxNew, 0);
    var o := Sequential(next, job.prompt, job.config.maxNew, 0);
    ShownTokens(next, job.prompt, |o.tokens|);
    ShownPrefix(next, job.prompt, n, |o.tokens|);
  }

  /** A settled job whose client neither cancelled nor hung up and that met no failure
      has delivered exactly its sequential reference. */
  lemma UndisturbedIsReference(next: Net, lg: JobLog)
    requires EndedOk(next, lg) && !lg.asked && !lg.closed && !lg.fault
    ensures lg.events == ReferenceStream(next, lg.job)
    ensures lg.resets == 2
  {
    hide TokenAt, Sequential, IsEos, Emitted, Shown;
    var n := lg.state.generated;
    ShownTokens(next, lg.job.prompt, n);
    match lg.state.finish
    case ByEos => SequentialStops(next, lg.job.prompt, lg.job.config.maxNew, 0, n);
    case ByLength => SequentialRunsOut(next, lg.job.prompt, lg.job.config.maxNew, 0);
    case _ =>
  }

  /** Two runs with any arrivals, batch sizes, failures, stalls and holds agree on every
      job that was left undisturbed. */
  lemma ScheduleIndependence(w1: World, w2: World, j1: JobId, j2: JobId)
    requires Ok(w1) && Ok(w2) && w1.next == w2.next
    requires j1 in w1.logs && j2 in w2.logs && w1.logs[j1].job == w2.logs[j2].job
    requires Undisturbed(w1.logs[j1]) && Undisturbed(w2.logs[j2])
    ensures w1.logs[j1].events == w2.logs[j2].events
  {
    hide PoolOk, CrewOk, EndedOk, ReferenceStream;
    UndisturbedIsReference(w1.next, w1.logs[j1]);
    UndisturbedIsReference(w2.next, w2.logs[j2]);
  }

  predicate Undisturbed(lg: JobLog) {
    lg.state.Ended? && !lg.asked && !lg.closed && !lg.fault
  }

  /** At every moment, delivered events and the withheld token together are a prefix of
      the reference and as many as `generated`. */
  lemma LivePrefix(w: World, s: SessionId)
    requires Ok(w) && s in w.crew
    ensures
      var g := w.crew[s];
      && g.job in w.logs
      && var sent := w.logs[g.job].events + (if g.pending.Some? then [GenEvent.Token(g.pending.value)] else []);
         |sent| == g.generated && sent <= ReferenceStream(w.next, w.logs[g.job].job)
  {
    var g := w.crew[s];
    assert g.session == s && g.job in w.logs && GenOk(w.next, w.st.sessions[s], w.logs[g.job], g, s in w.due) by {
      hide GenOk, PoolOk, JobsOk;
    }
    hide Ok, ReferenceStream, TokenAt;
    var job := w.logs[g.job].job;
    ReferenceReaches(w.next, job, g.generated);
    assert Shown(w.next, job.prompt, g.generated)
        == w.logs[g.job].events + (if g.pending.Some? then [GenEvent.Token(g.pending.value)] else []);
  }

  /** Whatever happens to a job, the tokens its client saw are a prefix of the
      reference's, and at most one other event came, last. */
  lemma SettledPrefix(next: Net, lg: JobLog)
    requires EndedOk(next, lg)
    ensures
      || lg.events <= ReferenceStream(next, lg.job)
      || (&& |lg.events| >= 1 && !lg.events[|lg.events| - 1].Token?
          && lg.events[..|lg.events| - 1] <= ReferenceStream(next, lg.job))
  {
    var n := lg.state.generated;
    var job := lg.job;
    ReferenceReaches(next, job, n);
    hide TokenAt, IsEos, ReferenceStream, NoEosBefore, Limit;
    forall k: nat | k <= n ensures Shown(next, job.prompt, k) <= ReferenceStream(next, job) {
      ShownPrefix(next, job.prompt, k, n);
    }
    if lg.events == Shown(next, job.prompt, n) + [TerminalOf(lg.state.finish, |job.prompt|, n)] {
      assert lg.events[..|lg.events| - 1] == Shown(next, job.prompt, n);
    }
  }

  // ---- the calls a session sees ----

  /** Each call of a session follows one of the few calls it may follow; the first is a
      reset. */
  lemma {:induction false} CallOrder(trace: seq<Call>, i: nat)
    requires Replay(trace).Some? && i < |trace|
    ensures i == 0 ==> trace[i].op == Reset
    ensures trace[i].op == Prefill ==> i > 0 && trace[i - 1] == Call(Reset, true)
    ensures trace[i].op == Decode || trace[i].op == Add ==>
              i > 0 && trace[i - 1] in {Call(Prefill, true), Call(Decode, true), Call(Add, false)}
                  + {Call(Remove, true), Call(Remove, false)}
    ensures trace[i].op == Step || trace[i].op == Remove ==>
              i > 0 && trace[i - 1] in {Call(Add, true), Call(Step, true), Call(Step, false)}
    decreases |trace|
  {
    var before := trace[..|trace| - 1];
    if i < |trace| - 1 {
      CallOrder(before, i);
      assert before[i] == trace[i] && (i > 0 ==> before[i - 1] == trace[i - 1]);
    } else if before != [] {
      assert Replay(before) == After(Replay(before[..|before| - 1]).value, before[|before| - 1]);
    }
  }

  /** Between joining the group and leaving it a session sees nothing but batch steps. */
  lemma MembersOnlyStep(trace: seq<Call>, i: nat, j: nat)
    requires Replay(trace).Some? && i < j < |trace|
    requires trace[i] == Call(Add, true) && trace[j].op != Step && trace[j].op != Remove
    ensures exists k :: i < k < j && trace[k].op == Remove
  {
    PrefixReplays(trace, j + 1);
    assert trace[..j + 1][..j] == trace[..j];
    if !exists k :: i < k < j && trace[k].op == Remove {
      GroupedUntilRemove(trace[..j], i);
    }
  }

  lemma {:induction false} PrefixReplays(trace: seq<Call>, n: nat)
    requires Replay(trace).Some? && n <= |trace|
    ensures Replay(trace[..n]).Some?
    decreases |trace|
  {
    if n == |trace| {
      assert trace[..n] == trace;
    } else {
      PrefixReplays(trace[..|trace| - 1], n);
      assert trace[..|trace| - 1][..n] == trace[..n];
    }
  }

  lemma {:induction false} GroupedUntilRemove(trace: seq<Call>, i: nat)
    requires i < |trace| && trace[i] == Call(Add, true)
    requires forall k :: i < k < |trace| ==> trace[k].op != Remove
    ensures Replay(trace).Some? ==> Replay(trace) == Some(Grouped)
    decreases |trace|
  {
    var before := trace[..|trace| - 1];
    if i < |trace| - 1 {
      GroupedUntilRemove(before, i);
    }
  }

  lemma {:induction false} AloneMeans(trace: seq<Call>, i: nat)
    requires Alone(trace) && i < |trace| && (trace[i].op == Add || trace[i].op == Step)
    ensures exists k :: i < k < |trace| && trace[k].op == Reset
    decreases |trace|
  {
    var n := |trace| - 1;
    if trace[n].op != Reset {
      AloneMeans(trace[..n], i);
      var k :| i < k < n && trace[..n][k].op == Reset;
      assert trace[k].op == Reset;
    }
  }

  /** The session of a sampled stream has seen no batch step, and no try at joining the
      group, since the reset that opened the stream's job: it moves by solo decodes alone. */
  lemma SampledStream(w: World, s: SessionId, i: nat)
    requires Ok(w) && s in w.crew && !w.crew[s].config.greedy
    requires s in w.st.sessions && i < |w.st.sessions[s].trace|
    requires w.st.sessions[s].trace[i].op == Add || w.st.sessions[s].trace[i].op == Step
    ensures w.crew[s].slot.None?
    ensures exists k :: i < k < |w.st.sessions[s].trace| && w.st.sessions[s].trace[k].op == Reset
  {
    assert w.crew[s].slot.None? && Alone(w.st.sessions[s].trace) by {
      hide PoolOk, JobsOk, Counted, Owner, NoEosBefore, Alone, Tally;
    }
    AloneMeans(w.st.sessions[s].trace, i);
  }

  /** The trace of every session is the beginning of a sequence of whole jobs, each with
      resets of its own at either end; that of an idle session is such a sequence. */
  lemma SessionTraces(w: World, s: SessionId)
    requires Ok(w) && s in w.st.sessions
    ensures exists rest :: Jobs(w.st.sessions[s].trace + rest)
    ensures s in w.idle ==> Jobs(w.st.sessions[s].trace)
  {
    var t := w.st.sessions[s].trace;
    assert Replay(t).Some? && (s in w.idle ==> Replay(t) == Some(Idle)) by {
      hide CrewOk, JobsOk, Slots, Tally;
    }
    TraceInOrder(t);
    WholeTrace(t);
  }

  /** The resets in the traces of all sessions are exactly those of the jobs' records. */
  lemma ResetsAccounted(w: World)
    requires Ok(w)
    ensures Total(Seen(w.st)) == Total(Booked(w.logs))
  {
    hide PoolOk, CrewOk, JobsOk;
  }

  /** The jobs that ever held a session. */
  ghost function Served(logs: Logs): set<JobId> {
    set j | j in logs && logs[j].resets > 0
  }

  /** When nobody is on board, the sessions have seen two resets for each job that ever
      held one, and no others. */
  lemma TwoResetsEach(w: World)
    requires Calm(w) && w.crew == map[]
    ensures Total(Seen(w.st)) == 2 * |Served(w.logs)|
  {
    ResetsAccounted(w);
    assert forall j :: j in w.logs ==> w.logs[j].resets == 0 || w.logs[j].resets == 2 by {
      hide PoolOk, CrewOk, Tally;
    }
    TotalTwos(Booked(w.logs));
    assert Served(w.logs) == Positive(Booked(w.logs));
  }

  ghost function Positive(counts: map<nat, nat>): set<nat> {
    set k | k in counts && counts[k] > 0
  }

  lemma {:induction false} TotalTwos(counts: map<nat, nat>)
    requires forall k :: k in counts ==> counts[k] == 0 || counts[k] == 2
    ensures Total(counts) == 2 * |Positive(counts)|
    decreases |counts|
  {
    if counts == map[] {
      assert Positive(counts) == {};
    } else {
      var k :| k in counts;
      var rest := counts - {k};
      Fewer(counts, k);
      TotalOut(counts, k);
      TotalTwos(rest);
      var others := Positive(rest);
      assert Positive(counts) == if counts[k] > 0 then others + {k} else others;
      assert k !in others;
      OneMore(others, k);
    }
  }

  // ---- progress ----

  datatype Moment = Moment(crew: Crew, logs: Logs)

  /** Consecutive quanta, as `Round` leaves them. */
  ghost predicate Run(run: seq<Moment>) {
    forall i :: 0 < i < |run| ==> AllServed(run[i - 1].crew, run[i].crew, run[i].logs)
  }

  /** The stream still waits for room in its channel. */
  ghost predicate Stuck(g: Gen, h: Gen) {
    g.pending.Some? && h == g.(slot := h.slot)
  }

  /** A stream whose channel has room in every quantum is settled after at most as many
      quanta as its rank: two per token, one for a withheld token, one for the hold. */
  lemma {:induction false} RoomMeansProgress(run: seq<Moment>, s: SessionId)
    requires Run(run) && run != [] && s in run[0].crew
    requires forall i :: 0 < i < |run| && s in run[i - 1].crew && s in run[i].crew ==>
               !Stuck(run[i - 1].crew[s], run[i].crew[s])
    requires forall i :: 0 <= i < |run| ==> s in run[i].crew
    requires forall i :: 0 <= i < |run| ==> run[i].crew[s].generated <= Limit(run[i].crew[s].config.maxNew)
    ensures |run| - 1 + Rank(run[|run| - 1].crew[s]) <= Rank(run[0].crew[s])
    ensures |run| <= Rank(run[0].crew[s]) + 1
    decreases |run|
  {
    if |run| > 1 {
      var before := run[..|run| - 1];
      assert forall i :: 0 <= i < |before| ==> before[i] == run[i];
      RoomMeansProgress(before, s);
      var n := |run| - 1;
      assert AllServed(run[n - 1].crew, run[n].crew, run[n].logs);
      MovedRank(run[n - 1].crew[s], run[n].crew[s]);
    }
  }
}
