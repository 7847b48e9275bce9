/** The single moves of a stream and the facts they need. */
module SchedulerMoves {
  import opened Strings
  import opened Events
  import opened Reference
  import opened EngineModel
  import opened SchedulerState
  import opened SchedulerWorld
  import opened SchedulerQuantum
  import opened SchedulerBatch

  ghost predicate SendDone(lg: JobLog, lg2: JobLog, ev: GenEvent, r: SendResult) {
    match r
    case Sent => !lg.closed && lg2 == lg.(events := lg.events + [ev])
    case Full => !lg.closed && lg2 == lg
    case Closed => lg2 == lg.(closed := true)
  }

  /** One move of stream `g`: it goes on as `h`, or it is given up. */
  ghost predicate Advanced(w: World, w2: World, g: Gen, h: Gen, r: StepResult) {
    && Ok(w2) && w2.st.group == w.st.group && g.session !in w2.due
    && h.session == g.session && h.job == g.job && h.slot == g.slot
    && (!r.Over? ==> Kept(w, w2, g, h) && OnBoard(w2, h) && Moved(g, h))
    && (r.Over? ==> Left(w, w2, g) && GivenUp(w2, h, r.finish))
  }

  /** In the middle of a move on `g`: only its session and job have been touched. */
  ghost predicate Amid(w: World, w2: World, g: Gen) {
    && Local(w, w2, g.session, g.job)
    && StateOk(w2.st) && w2.st.group == w.st.group
    && w2.idle == w.idle && w2.crew == w.crew && w2.loose == w.loose && w2.open == w.open && w2.due == w.due
  }

  lemma AmidSelf(w: World, g: Gen)
    requires StateOk(w.st)
    ensures Amid(w, w, g)
  {
    hide StateOk, ResetCount;
  }

  lemma SentAmid(w: World, w2: World, g: Gen, ev: GenEvent, r: SendResult)
    requires StateOk(w.st) && g.job in w.logs && w2 == w.(logs := w2.logs)
    requires w2.logs.Keys == w.logs.Keys && forall k :: k in w.logs && k != g.job ==> w2.logs[k] == w.logs[k]
    requires SendDone(w.logs[g.job], w2.logs[g.job], ev, r)
    ensures Amid(w, w2, g)
  {
    hide StateOk, ResetCount;
  }

  lemma SentClosed(lg: JobLog, lg2: JobLog, ev: GenEvent)
    requires SendDone(lg, lg2, ev, Closed)
    ensures lg2 == lg.(closed := true)
  {
  }

  lemma OnAdvanced(w: World, w2: World, g: Gen, h: Gen, r: StepResult)
    requires Kept(w, w2, g, h) && Ok(w2) && OnBoard(w2, h) && Moved(g, h) && h.slot == g.slot
    requires w2.st.group == w.st.group && g.session !in w2.due && !r.Over?
    ensures Advanced(w, w2, g, h, r)
  {
    hide Ok, Local, Moved;
  }

  /** One more call of the stream's own session, not a reset. */
  lemma AmidCall(w: World, w1: World, w2: World, g: Gen)
    requires Amid(w, w1, g) && StateOk(w2.st) && g.session in w1.st.sessions && g.session in w2.st.sessions
    requires w2 == w1.(st := w1.st.(sessions := w1.st.sessions[g.session := w2.st.sessions[g.session]]))
    requires ResetCount(w2.st.sessions[g.session].trace) == ResetCount(w1.st.sessions[g.session].trace)
    ensures Amid(w, w2, g)
  {
    hide StateOk, ResetCount;
  }

  lemma AmidTwice(w: World, w1: World, w2: World, g: Gen)
    requires Amid(w, w1, g) && Amid(w1, w2, g)
    ensures Amid(w, w2, g)
  {
    hide StateOk, ResetCount;
  }

  lemma StillWaits(g: Gen)
    requires g.pending.Some?
    ensures Moved(g, g)
  {
  }

  /** A move that goes on from `g` without its withheld token is a move of `g`. */
  lemma AdvancedAfter(w: World, w1: World, w2: World, g: Gen, g1: Gen, h: Gen, r: StepResult)
    requires Kept(w, w1, g, g1) && g1 == g.(pending := None) && w1.st.group == w.st.group
    requires Advanced(w1, w2, g1, h, r) && (!r.Over? ==> h.generated == g1.generated + 1)
    ensures Advanced(w, w2, g, h, r)
  {
    hide Ok, Limit, Local;
    LocalTwice(w, w1, w2, g.session, g.job);
    assert w1.crew[g.session := h] == w.crew[g.session := h];
    assert w1.crew - {g.session} == w.crew - {g.session};
  }

  lemma GoneAdvanced(w: World, w2: World, g: Gen, h: Gen, finish: Finish)
    requires Left(w, w2, g) && Ok(w2) && GivenUp(w2, h, finish) && w2.st.group == w.st.group
    requires h.session == g.session && h.job == g.job && h.slot == g.slot
    ensures Advanced(w, w2, g, h, Over(finish))
  {
    hide Ok, Local, GivenUp;
  }

  ghost predicate GivenUp(w: World, g: Gen, finish: Finish) {
    && g.session in w.loose && g.job in w.open && g.session in w.st.sessions && g.job in w.logs
    && EndOk(w.next, w.st.sessions[g.session], w.logs[g.job], g, finish)
  }

  lemma ShownMore(next: Net, lg: JobLog, g: Gen, token: Token)
    requires Counted(next, lg, g) && g.pending.None? && token == TokenAt(next, lg.job.prompt, g.generated)
    ensures lg.events + [GenEvent.Token(token)] == Shown(next, lg.job.prompt, g.generated + 1)
  {
  }

  lemma NoEosMore(next: Net, prompt: seq<Token>, n: nat)
    requires NoEosBefore(next, prompt, n) && !IsEos(TokenAt(next, prompt, n))
    ensures NoEosBefore(next, prompt, n + 1)
  {
    hide IsEos, TokenAt, Tally;
  }

  lemma FeedGoesOn(next: Net, se: Session, lg: JobLog, lg2: JobLog, g: Gen, h: Gen, token: Token, r: SendResult)
    requires GenOk(next, se, lg, g, true) && token == TokenAt(next, lg.job.prompt, g.generated) && !IsEos(token)
    requires SendDone(lg, lg2, GenEvent.Token(token), r) && r != Closed
    requires h == g.(generated := g.generated + 1, pending := if r == Full then Some(token) else g.pending)
    ensures h.pending.Some? || h.generated < Limit(h.config.maxNew) ==> GenOk(next, se, lg2, h, false)
    ensures h.pending.None? && h.generated >= Limit(h.config.maxNew) ==>
              EndOk(next, se, lg2.(state := InHand), h, ByLength)
    ensures g.pending.None? && !lg2.asked
  {
    hide TokenAt, Limit, IsEos, Shown, Tally;
    ShownMore(next, lg, g, token);
    assert NoEosBefore(next, lg.job.prompt, h.generated) by { NoEosMore(next, lg.job.prompt, g.generated); }
  }

  lemma FeedEnds(next: Net, se: Session, lg: JobLog, lg2: JobLog, g: Gen, token: Token)
    requires GenOk(next, se, lg, g, true) && token == TokenAt(next, lg.job.prompt, g.generated)
    requires lg2 == lg.(closed := true)
    ensures IsEos(token) ==> EndOk(next, se, lg.(state := InHand), g, ByEos)
    ensures !IsEos(token) ==> EndOk(next, se, lg2.(state := InHand), g.(generated := g.generated + 1), ByCancel)
    ensures !lg.asked
  {
    hide TokenAt, Limit, IsEos, Shown, Tally;
    if !IsEos(token) {
      assert NoEosBefore(next, lg.job.prompt, g.generated + 1) by { NoEosMore(next, lg.job.prompt, g.generated); }
    }
  }

  lemma AskedAmid(w: World, g: Gen)
    requires g.job in w.logs && StateOk(w.st)
    ensures Amid(w, w.(logs := w.logs[g.job := w.logs[g.job].(asked := true)]), g)
  {
    hide StateOk, Tally;
  }

  lemma HeldOk(next: Net, se: Session, lg: JobLog, g: Gen, h: Gen)
    requires GenOk(next, se, lg, g, false) && h == g.(held := true)
    ensures GenOk(next, se, lg, h, false)
  {
    hide TokenAt, Limit, NoEosBefore, Tally;
  }

  lemma WentAfterSlot(w: World, w1: World, w2: World, active: seq<Gen>, active2: seq<Gen>, g: Gen, h: Gen,
      kept: Option<Gen>)
    requires Kept(w, w1, g, h) && SameButSlot(g, h) && w1.due == w.due
    requires Went(w1, w2, active, active2, h, kept)
    ensures Went(w, w2, active, active2, g, kept)
  {
    hide Ok, Local, Moved;
    LocalTwice(w, w1, w2, g.session, g.job);
    if kept.Some? {
      SlotOnly(g, h, kept.value);
      assert w.crew[g.session := h][g.session := kept.value] == w.crew[g.session := kept.value];
    } else {
      assert w.crew[g.session := h] - {g.session} == w.crew - {g.session};
    }
  }

  lemma UnderwayWent(start: Crew, w: World, w2: World, active: seq<Gen>, active2: seq<Gen>, todo: multiset<Gen>,
      g: Gen, kept: Option<Gen>)
    requires Ok(w) && Underway(start, w.crew, w.logs, active, todo) && g in todo
    requires Went(w, w2, active, active2, g, kept)
    ensures Underway(start, w2.crew, w2.logs, active2, todo - multiset{g})
  {
    hide Underway, PoolOk, CrewOk, JobsOk, GenOk, Moved, Tally;
    UnderwayRoom(start, w.crew, w.logs, active, todo, g);
    OnBoardFacts(w, g);
    LiveFacts(w.next, w.st.sessions[g.session], w.logs[g.job], g, g.session in w.due);
    if kept.Some? {
      UnderwayKept(start, w.crew, w.logs, w2.logs, active, todo, g, kept.value);
    } else {
      UnderwayGone(start, w.crew, w.logs, w2.logs, active, todo, g);
    }
  }

  /** Settled jobs stay as they are. */
  ghost predicate SettledStay(logs: Logs, logs2: Logs) {
    forall j :: j in logs && logs[j].state.Ended? ==> j in logs2 && logs2[j] == logs[j]
  }

  lemma WentStays(w: World, w2: World, active: seq<Gen>, active2: seq<Gen>, g: Gen, kept: Option<Gen>)
    requires Ok(w) && OnBoard(w, g) && Went(w, w2, active, active2, g, kept)
    ensures SettledStay(w.logs, w2.logs) && w.raised <= w2.raised
  {
    hide Ok, GenOk, Moved;
    OnBoardFacts(w, g);
    LiveFacts(w.next, w.st.sessions[g.session], w.logs[g.job], g, g.session in w.due);
  }

  /** One stream made its move: it is back in line, or settled. */
  ghost predicate Went(w: World, w2: World, active: seq<Gen>, active2: seq<Gen>, g: Gen, kept: Option<Gen>) {
    && Ok(w2) && Local(w, w2, g.session, g.job) && w2.queue == w.queue
    && w2.loose == {} && w2.open == {} && w2.due == w.due - {g.session}
    && match kept
       case Some(h) => active2 == active + [h] && Moved(g, h) && w2.crew == w.crew[g.session := h]
       case None =>
         && active2 == active && w2.crew == w.crew - {g.session}
         && g.job in w2.logs && w2.logs[g.job].state.Ended?
  }

  lemma WentOn(w: World, w2: World, active: seq<Gen>, g: Gen, h: Gen, r: StepResult)
    requires Advanced(w, w2, g, h, r) && !r.Over? && w.loose == {} && w.open == {}
    ensures Went(w, w2, active, active + [h], g, Some(h))
  {
    hide Ok, Moved;
    assert w2.due == w.due - {g.session};
  }

  lemma WentOff(w: World, w1: World, w2: World, active: seq<Gen>, g: Gen)
    requires Left(w, w1, g) && w.loose == {} && w.open == {}
    requires Settled(w1, w2, g.session, g.job) && Ok(w2)
    ensures Went(w, w2, active, active, g, None)
  {
    hide Ok, Moved;
    assert w1.loose - {g.session} == {} && w1.open - {g.job} == {};
    LocalTwice(w, w1, w2, g.session, g.job);
  }

  lemma LeftCount(w: World, w2: World, g: Gen)
    requires Left(w, w2, g) && g.session in w.crew
    ensures |w2.crew| == |w.crew| - 1
  {
    assert w2.crew.Keys == w.crew.Keys - {g.session};
    assert |w2.crew| == |w2.crew.Keys| && |w.crew| == |w.crew.Keys|;
  }

  lemma LocalTwice(w: World, w1: World, w2: World, s: SessionId, j: JobId)
    requires Local(w, w1, s, j) && Local(w1, w2, s, j)
    ensures Local(w, w2, s, j) && w2.queue == w1.queue == w.queue
  {
  }

  ghost predicate JustTaken(lg: JobLog, resets: nat) {
    lg.state == InHand && lg.events == [] && lg.resets == resets && !lg.asked && !lg.closed && !lg.fault
  }

  /** Only session `s` and job `j`, both in hand, have been touched. */
  ghost predicate HandsOn(w: World, w2: World, s: SessionId, j: JobId) {
    && Local(w, w2, s, j) && s in w.loose && s in w.st.sessions
    && StateOk(w2.st) && w2.st.group == w.st.group && Closable(w2.st.sessions[s].phase)
    && w2.idle == w.idle && w2.crew == w.crew && w2.loose == w.loose && w2.open == w.open && w2.due == w.due
  }

  function Fresh(s: SessionId, j: JobId, job: Job): Gen {
    Gen(s, j, job.config, |job.prompt|, 0, None, None, false)
  }

  /** The session has been reset for the job and nothing else has happened. */
  ghost predicate Prepared(w: World, w2: World, s: SessionId, j: JobId) {
    && Local(w, w2, s, j) && s in w.loose && s in w.st.sessions && j in w2.logs
    && StateOk(w2.st) && w2.st.group == w.st.group
    && w2.st.sessions[s].phase == Cleared && w2.st.sessions[s].pos == 0 && Alone(w2.st.sessions[s].trace)
    && JustTaken(w2.logs[j], 1)
    && w2.idle == w.idle && w2.crew == w.crew && w2.loose == w.loose && w2.open == w.open && w2.due == w.due
  }

  lemma PreparedFacts(w: World, w2: World, s: SessionId, j: JobId)
    requires Prepared(w, w2, s, j)
    ensures StateOk(w2.st) && s in w2.st.sessions && w2.st.sessions[s].phase == Cleared && j in w2.logs
    ensures JustTaken(w2.logs[j], 1) && w2.st.group == w.st.group
  {
    hide StateOk, JustTaken;
  }

  lemma PrefilledHands(w: World, w1: World, w2: World, s: SessionId, j: JobId, ok: bool)
    requires Prepared(w, w1, s, j) && StateOk(w2.st) && w1.st.sessions[s].phase == Cleared
    requires w2 == w1.(st := w1.st.(sessions :=
                         w1.st.sessions[s := Called(w1.st.sessions[s], Op.Prefill,
                             ok).(prompt := w1.logs[j].job.prompt)]))
    ensures HandsOn(w, w2, s, j)
    ensures w2.st.sessions[s].phase == (if ok then Running else Spent) && w2.st.sessions[s].pos == 0
    ensures w2.st.sessions[s].prompt == w1.logs[j].job.prompt && Alone(w2.st.sessions[s].trace)
  {
    hide StateOk, JustTaken, Alone, ResetCount;
  }

  /** The job is on board, last in line, or settled because an engine call failed. */
  ghost predicate Started(j: JobId, s: SessionId, job: Job, logs: Logs, crew: Crew, line: seq<Gen>, line2: seq<Gen>) {
    j in logs && logs[j].job == job && match logs[j].state
    case Live(t) => t == s && s in crew && crew[s] == Fresh(s, j, job) && line2 == line + [crew[s]]
    case Ended(ByFailure(message), n) => n == 0 && line2 == line && message in {"session reset", "prefill"}
    case _ => false
  }

  /** The job at the head of the queue was too late, or could not start, or is on board. */
  ghost predicate Admitted(j: JobId, logs: Logs, logs2: Logs, crew: Crew, line: seq<Gen>, line2: seq<Gen>, late: bool) {
    && j in logs && j in logs2 && logs2[j].job == logs[j].job && SettledStay(logs, logs2)
    && match logs2[j].state
       case Live(s) => !late && s in crew && crew[s] == Fresh(s, j, logs[j].job) && line2 == line + [crew[s]]
       case Ended(ByFailure(message), n) =>
         && n == 0 && line2 == line && (message == "queue timeout" <==> late)
         && message in {"queue timeout", "create_session", "session reset", "prefill"}
       case _ => false
  }

  lemma AdmittedFailed(j: JobId, logs: Logs, logs1: Logs, logs2: Logs, crew: Crew, line: seq<Gen>, message: string,
      late: bool)
    requires j in logs && logs[j].state == Queued && logs1 == logs[j := logs[j].(state := InHand)]
    requires logs2.Keys == logs1.Keys && forall k :: k in logs2 && k != j ==> logs2[k] == logs1[k]
    requires logs2[j].state == Ended(ByFailure(message), 0) && logs2[j].job == logs[j].job
    requires message == if late then "queue timeout" else "create_session"
    ensures Admitted(j, logs, logs2, crew, line, line, late)
  {
    assert "queue timeout"[0] != "create_session"[0];
  }

  lemma AdmittedStarted(j: JobId, s: SessionId, logs: Logs, logs1: Logs, logs2: Logs, crew: Crew, line: seq<Gen>,
      line2: seq<Gen>)
    requires j in logs && logs[j].state == Queued && logs1 == logs[j := logs[j].(state := InHand)]
    requires logs2.Keys == logs1.Keys && forall k :: k in logs2 && k != j ==> logs2[k] == logs1[k]
    requires Started(j, s, logs[j].job, logs2, crew, line, line2)
    ensures Admitted(j, logs, logs2, crew, line, line2, false)
    ensures logs2[j].state != Ended(ByFailure("create_session"), 0)
  {
    assert "queue timeout"[0] != "session reset"[0] && "queue timeout"[0] != "prefill"[0];
    assert "create_session"[0] != "session reset"[0] && "create_session"[0] != "prefill"[0];
  }

  /** Nobody came on board, or one new stream did, at the end of the line. */
  ghost predicate Boarded(w: World, w2: World, active: seq<Gen>, active2: seq<Gen>) {
    || (active2 == active && w2.crew == w.crew)
    || (&& |active2| == |active| + 1 && active2[..|active|] == active
        && var g := active2[|active|];
           g.session !in w.crew && w2.crew == w.crew[g.session := g])
  }

  lemma BoardedNow(w: World, w2: World, line: seq<Gen>, line2: seq<Gen>, j: JobId, s: SessionId, job: Job)
    requires j in w2.logs && w2.logs[j].job == job && w2.logs[j].state == Live(s)
    requires line2 == line + [Fresh(s, j, job)] && s !in w.crew && w2.crew == w.crew[s := Fresh(s, j, job)]
    ensures Boarded(w, w2, line, line2) && Started(j, s, job, w2.logs, w2.crew, line, line2)
  {
  }

  lemma NotBoarded(w: World, w2: World, line: seq<Gen>, j: JobId, s: SessionId, job: Job, message: string)
    requires j in w2.logs && w2.logs[j].job == job && w2.logs[j].state == Ended(ByFailure(message), 0)
    requires w2.crew == w.crew && message in {"session reset", "prefill"}
    ensures Boarded(w, w2, line, line) && Started(j, s, job, w2.logs, w2.crew, line, line)
  {
  }

  lemma HandsFacts(w: World, w2: World, s: SessionId, j: JobId)
    requires Ok(w) && HandsOn(w, w2, s, j)
    ensures |w.idle| + |w.crew| < w.max
    ensures w2.st.group.Some? ==> |w2.st.group.value| == Slots(w.max)
  {
    hide StateOk, Slots, CrewOk, JobsOk, Rested, Local, Tally;
  }

  lemma PoolRoom(w: World)
    requires Ok(w)
    ensures |w.st.sessions| == |w.idle| + |w.loose| + |w.crew| <= w.max && 1 <= w.max
    ensures StateOk(w.st)
  {
    hide StateOk, Slots, CrewOk, JobsOk, Rested, Tally;
  }

  lemma QueueFacts(w: World)
    requires Ok(w) && w.queue != []
    ensures w.queue[0] in w.logs && w.logs[w.queue[0]].state == Queued
    ensures JustTaken(w.logs[w.queue[0]].(state := InHand), 0)
  {
    hide PoolOk, CrewOk, EndedOk, Tally;
    assert w.queue[0] in w.queue;
  }

  lemma FailedStart(next: Net, lg: JobLog, lg2: JobLog, message: string, r: SendResult, resets: nat)
    requires JustTaken(lg, resets) && resets <= 1
    requires SendDone(lg.(fault := true), lg2, Failed(message), r)
    ensures EndedOk(next, lg2.(resets := 2 * resets, state := Ended(ByFailure(message), 0)))
    ensures lg2.resets == resets && lg2.job == lg.job
  {
    var n: nat := 0;
    assert Shown(next, lg.job.prompt, n) == [];
    if r == Sent {
      assert lg2.events == [Failed(message)];
      assert lg2.events[..0] == [];
    }
  }

  lemma FreshOk(next: Net, st: State, s: SessionId, lg: JobLog, g: Gen)
    requires StateOk(st) && s in st.sessions && st.sessions[s].phase == Running
    requires st.sessions[s].prompt == lg.job.prompt && st.sessions[s].pos == 0
    requires JustTaken(lg, 1)
    requires g == Fresh(s, g.job, lg.job) && Alone(st.sessions[s].trace)
    ensures GenOk(next, st.sessions[s], lg.(state := Live(s)), g, false)
  {
    hide TokenAt, Tally;
  }

  lemma DemotedOk(next: Net, se: Session, se2: Session, lg: JobLog, g: Gen)
    requires GenOk(next, se, lg, g, false) && OutOfGroup(se, se2)
    ensures GenOk(next, se2, lg, g.(slot := None), false)
  {
    hide TokenAt, Limit, NoEosBefore, Tally;
  }

  lemma GroupLength(group: Option<seq<Option<SessionId>>>, slot: Option<nat>)
    ensures group.Some? <==> GroupWithout(group, slot).Some?
    ensures group.Some? ==> |GroupWithout(group, slot).value| == |group.value|
  {
  }

  /** What the flush of the withheld token and the terminal event leave on record. */
  lemma ClosingOk(next: Net, se: Session, lg: JobLog, lg1: JobLog, lg2: JobLog, g: Gen, finish: Finish,
                  mode: RetireMode, flushed: SendResult, sent: SendResult)
    requires EndOk(next, se, lg, g, finish)
    requires mode == Shutdown ==> finish.ByFailure?
    requires g.pending.None? ==> lg1 == lg
    requires g.pending.Some? ==>
               SendDone(lg, lg1, GenEvent.Token(g.pending.value), flushed) && (mode == Serving ==> flushed != Full)
    requires SendDone(lg1, lg2, TerminalOf(finish, g.promptTokens, g.generated), sent)
               && (mode == Serving ==> sent != Full)
    ensures EndedOk(next, lg2.(resets := lg2.resets + 1, state := Ended(finish, g.generated)))
  {
    hide TokenAt, Limit, NoEosBefore, IsEos, Shown, Tally;
    FlushedOk(next, lg, lg1, g, flushed, mode);
    if finish.ByFailure? {
      FailureCloses(next, lg, lg1, lg2, g, finish, mode, sent);
    } else if lg1.closed {
      ClosedPart(next, lg, g, finish, lg1, lg2);
    }
  }

  lemma ClosedPart(next: Net, lg: JobLog, g: Gen, finish: Finish, lg1: JobLog, lg2: JobLog)
    requires lg1.closed && lg2 == lg1
    requires Counted(next, lg, g) ==> PartOf(next, lg1, g.generated)
    requires !Counted(next, lg, g) ==>
               && finish.ByCancel? && lg1 == lg && g.generated >= 1
               && lg.events == Shown(next, lg.job.prompt, g.generated - 1)
    ensures PartOf(next, lg2.(resets := lg2.resets + 1, state := Ended(finish, g.generated)), g.generated)
  {
    hide Counted, TokenAt, Tally;
  }

  lemma FailureCloses(next: Net, lg: JobLog, lg1: JobLog, lg2: JobLog, g: Gen, finish: Finish, mode: RetireMode,
      sent: SendResult)
    requires lg.fault && Counted(next, lg, g) && finish.ByFailure? && Owner(lg, g)
               && NoEosBefore(next, lg.job.prompt, g.generated)
    requires lg1.job == lg.job && lg1.resets == lg.resets && lg1.fault && PartOf(next, lg1, g.generated)
    requires SendDone(lg1, lg2, TerminalOf(finish, g.promptTokens, g.generated), sent)
    ensures EndedOk(next, lg2.(resets := lg2.resets + 1, state := Ended(finish, g.generated)))
  {
    hide TokenAt, Limit, NoEosBefore, IsEos, Shown, Counted, Tally;
    var fin := lg2.(resets := 2, state := Ended(finish, g.generated));
    if sent == Sent {
      assert fin.events[..|fin.events| - 1] == lg1.events;
      assert fin.events[|fin.events| - 1] == TerminalOf(finish, g.promptTokens, g.generated);
    }
  }

  lemma FlushedOk(next: Net, lg: JobLog, lg1: JobLog, g: Gen, flushed: SendResult, mode: RetireMode)
    requires g.pending.None? ==> lg1 == lg
    requires g.pending.Some? ==>
               SendDone(lg, lg1, GenEvent.Token(g.pending.value), flushed) && (mode == Serving ==> flushed != Full)
    ensures lg1.job == lg.job && lg1.resets == lg.resets && lg1.asked == lg.asked && lg1.fault == lg.fault
    ensures lg.closed ==> lg1.closed
    ensures Counted(next, lg, g) ==> PartOf(next, lg1, g.generated)
    ensures Counted(next, lg, g) && !lg1.closed && mode == Serving ==>
              lg1.events == Shown(next, lg.job.prompt, g.generated)
  {
    hide TokenAt, Tally;
  }

  ghost predicate OutOfGroup(se: Session, se2: Session) {
    && se2.slot.None? && se2.phase == (if se.slot.Some? then Running else se.phase) && se2.phase != Grouped
    && se2.prompt == se.prompt && se2.pos == se.pos && ResetCount(se2.trace) == ResetCount(se.trace)
    && (Alone(se.trace) ==> Alone(se2.trace))
  }

  function GroupWithout(group: Option<seq<Option<SessionId>>>, slot: Option<nat>): Option<seq<Option<SessionId>>> {
    if group.Some? && slot.Some? && slot.value < |group.value| then Some(group.value[slot.value := None]) else group
  }

  lemma RetireFacts(w: World, g: Gen, finish: Finish)
    requires Ok(w) && GivenUp(w, g, finish)
    ensures g.session in w.loose && g.job in w.open && g.session in w.st.sessions && g.job in w.logs
    ensures w.logs[g.job].state == InHand && w.st.sessions[g.session].slot == g.slot
    ensures w.st.sessions[g.session].slot.None? ==> Closable(w.st.sessions[g.session].phase)
    ensures |w.idle| + |w.crew| < w.max && g.session !in w.crew && g.session !in w.due
    ensures g.promptTokens == |w.logs[g.job].job.prompt| && (w.logs[g.job].asked ==> g.job in w.raised)
    ensures EndOk(w.next, w.st.sessions[g.session], w.logs[g.job], g, finish)
  {
    hide CrewOk, JobsOk, Rested, Counted, NoEosBefore, Replay, Tally;
  }

  lemma SlotFacts(st: State, s: SessionId)
    requires StateOk(st) && s in st.sessions && st.sessions[s].slot.Some?
    ensures IsMember(st, st.sessions[s].slot.value) && MemberAt(st, st.sessions[s].slot.value) == s
  {
    hide SessionOk, Tally;
  }

  lemma AskedEnds(next: Net, se: Session, lg: JobLog, g: Gen)
    requires GenOk(next, se, lg, g, false)
    ensures EndOk(next, se, lg.(asked := true, state := InHand), g, ByCancel)
  {
    hide TokenAt, Limit, Shown, Tally;
  }

  lemma ResendOutcome(next: Net, se: Session, lg: JobLog, lg2: JobLog, g: Gen, r: SendResult)
    requires GenOk(next, se, lg, g, false) && g.pending.Some?
    requires SendDone(lg, lg2, GenEvent.Token(g.pending.value), r)
    ensures
      var h := g.(pending := None);
      match r
      case Sent => if h.generated >= h.config.maxNew
          then EndOk(next, se, lg2.(state := InHand), h, ByLength) else GenOk(next, se, lg2, h, false)
      case Full => GenOk(next, se, lg2, g, false)
      case Closed => EndOk(next, se, lg2.(state := InHand), h, ByCancel)
    ensures !lg2.asked
  {
    hide TokenAt, Tally;
  }

  lemma DecodeReady(next: Net, se: Session, lg: JobLog, g: Gen)
    requires GenOk(next, se, lg, g, false) && g.slot.None?
    ensures se.phase == Running && se.pos == g.generated && se.prompt == lg.job.prompt
  {
    hide TokenAt, Limit, Shown, NoEosBefore;
  }

  lemma DecodeOutcome(next: Net, se: Session, se2: Session, lg: JobLog, g: Gen, ok: bool)
    requires GenOk(next, se, lg, g, false) && g.pending.None? && g.slot.None? && se.phase == Running
    requires se2 == Called(se, Decode, ok).(pos := se.pos + if ok then 1 else 0)
    ensures ok ==> GenOk(next, se2, lg, g, true)
    ensures !ok ==> EndOk(next, se2, lg.(fault := true, state := InHand), g, ByFailure("decode_one"))
    ensures ResetCount(se2.trace) == ResetCount(se.trace)
  {
    hide TokenAt, Limit, Shown, NoEosBefore, ResetCount;
  }

  lemma PoolState(w: World)
    requires Ok(w)
    ensures StateOk(w.st) && (w.st.group.Some? ==> |w.st.group.value| == Slots(w.max))
  {
    hide StateOk, Slots, CrewOk, JobsOk, Rested, Tally;
  }

  lemma AddedOk(next: Net, se: Session, lg: JobLog, g: Gen)
    requires GenOk(next, se, lg, g, false) && g.slot.None? && g.config.greedy
    ensures se.phase == Running
    ensures GenOk(next, Called(se, Add, false), lg, g, false)
    ensures forall slot :: GenOk(next, Called(se, Add, true).(slot := Some(slot)), lg, g.(slot := Some(slot)), false)
  {
    hide TokenAt, Limit, NoEosBefore, Tally;
  }

  /** The next stream of a stepped batch may be fed. */
  lemma FeedHead(start: Crew, w: World, line: seq<Gen>, gens: seq<Gen>, tokens: seq<Token>)
    requires gens != [] && Ok(w) && Underway(start, w.crew, w.logs, line, multiset(gens))
    requires w.due == Sessions(gens) && TokensFor(w.next, w.logs, gens, tokens)
    ensures OnBoard(w, gens[0]) && gens[0].session in w.due && |line| < |w.crew|
    ensures gens[0].job in w.logs && tokens[0] == TokenAt(w.next, w.logs[gens[0].job].job.prompt, gens[0].generated)
  {
    hide Ok, TokenAt, Underway;
    UnderwayRoom(start, w.crew, w.logs, line, multiset(gens), gens[0]);
  }

  lemma FedHead(start: Crew, w: World, w2: World, line: seq<Gen>, line2: seq<Gen>, gens: seq<Gen>,
      tokens: seq<Token>, kept: Option<Gen>)
    requires gens != [] && |gens| == |tokens| && Ok(w) && Underway(start, w.crew, w.logs, line, multiset(gens))
    requires w.due == Sessions(gens) && TokensFor(w.next, w.logs, gens, tokens)
    requires Went(w, w2, line, line2, gens[0], kept)
    ensures Underway(start, w2.crew, w2.logs, line2, multiset(gens[1..]))
    ensures w2.due == Sessions(gens[1..])
    ensures TokensFor(w2.next, w2.logs, gens[1..], tokens[1..])
  {
    hide Ok, Underway, TokensFor, Roster, Moved, Local, Sessions;
    assert gens == [gens[0]] + gens[1..];
    assert multiset(gens) - multiset{gens[0]} == multiset(gens[1..]);
    UnderwayWent(start, w, w2, line, line2, multiset(gens), gens[0], kept);
    UnderwayRoster(start, w.crew, w.logs, line, gens);
    SessionsDiffer(w, line, gens);
    RestDue(gens);
    RestTokens(w, w2, line, gens, tokens);
  }

  lemma RestDue(gens: seq<Gen>)
    requires gens != [] && forall i, j :: 0 <= i < j < |gens| ==> gens[i].session != gens[j].session
    ensures Sessions(gens) - {gens[0].session} == Sessions(gens[1..])
  {
    assert gens == [gens[0]] + gens[1..];
    forall s | s in Sessions(gens[1..]) ensures s != gens[0].session {
      var k :| 0 <= k < |gens| - 1 && gens[1..][k].session == s;
      assert gens[k + 1].session == s;
    }
  }

  lemma RestTokens(w: World, w2: World, line: seq<Gen>, gens: seq<Gen>, tokens: seq<Token>)
    requires Ok(w) && gens != [] && |gens| == |tokens| && TokensFor(w.next, w.logs, gens, tokens)
    requires Roster(multiset(line) + multiset(gens), w.crew)
    requires forall j, k :: 0 <= j < k < |gens| ==> gens[j].session != gens[k].session
    requires Local(w, w2, gens[0].session, gens[0].job)
    ensures TokensFor(w2.next, w2.logs, gens[1..], tokens[1..])
  {
    hide TokenAt, Roster, PoolOk, JobsOk, CrewOk, Tally;
    var gens2, toks2 := gens[1..], tokens[1..];
    forall k | 0 <= k < |gens2|
      ensures gens2[k].job in w2.logs
                && toks2[k] == TokenAt(w2.next, w2.logs[gens2[k].job].job.prompt, gens2[k].generated)
    {
      RosterAt(w, line, gens, k + 1);
      RosterAt(w, line, gens, 0);
      assert gens[k + 1] == gens2[k] && tokens[k + 1] == toks2[k];
      OneJobEach(w.next, w.st, w.logs, w.crew, w.due, gens[k + 1].session, gens[0].session);
    }
  }

  lemma NobodyLeft(gens: seq<Gen>)
    requires gens == []
    ensures Sessions(gens) == {} && multiset(gens) == multiset{}
  {
  }

  lemma AllWant(batch0: seq<Gen>, batch: seq<Gen>)
    requires |batch| == |batch0| && forall i :: 0 <= i < |batch| ==> SameButSlot(batch0[i], batch[i])
    requires forall g :: g in batch0 ==> g.pending.None? && g.config.greedy
    ensures forall g :: g in batch ==> g.pending.None? && g.config.greedy
  {
    forall g | g in batch ensures g.pending.None? && g.config.greedy {
      var i :| 0 <= i < |batch| && batch[i] == g;
      assert batch0[i] in batch0;
    }
  }

  lemma BoardedRoster(w: World, w2: World, line: seq<Gen>, line2: seq<Gen>)
    requires Boarded(w, w2, line, line2) && Roster(multiset(line), w.crew)
    ensures Roster(multiset(line2), w2.crew) && |line2| <= |line| + 1
    ensures forall s :: s in w.crew ==> s in w2.crew && w2.crew[s] == w.crew[s]
  {
    hide Roster, Tally;
    if |line2| > |line| {
      var g := line2[|line|];
      assert line2 == line + [g];
      assert multiset(line2) == multiset(line) + multiset{g};
      RosterJoin(multiset(line), w.crew, g);
    }
  }

  lemma ShutEnds(next: Net, se: Session, lg: JobLog, g: Gen, finish: Finish)
    requires GenOk(next, se, lg, g, false) && finish == ByFailure(SHUTTING_DOWN)
    ensures EndOk(next, se, lg.(fault := true, state := InHand), g, finish)
  {
    hide TokenAt, Limit, Shown, Tally;
  }

  lemma FaultAmid(w: World, g: Gen)
    requires g.job in w.logs && StateOk(w.st)
    ensures Amid(w, w.(logs := w.logs[g.job := w.logs[g.job].(fault := true)]), g)
  {
    hide StateOk, Tally;
  }

  /** Nobody is on board and nothing is in hand. */
  lemma AllAtRest(w: World)
    requires Calm(w) && w.crew == map[]
    ensures |w.idle| == |w.st.sessions|
    ensures forall s :: s in w.st.sessions ==> s in w.idle && Rested(w.st.sessions[s])
    ensures forall j :: j in w.logs ==> w.logs[j].state.Ended? || (w.logs[j].state == Queued && j in w.queue)
    ensures forall i :: !IsMember(w.st, i)
  {
    hide EndedOk, Slots, Tally;
    forall i ensures !IsMember(w.st, i) {
      hide Calm, Tally;
      if IsMember(w.st, i) {
        MemberOnBoard(w, i);
      }
    }
  }

  lemma RosterSize(line: seq<Gen>, crew: Crew)
    requires Roster(multiset(line), crew)
    ensures |line| == |crew|
  {
  }

  /** The last jobs of a queue. */
  ghost predicate IsTail(rest: seq<JobId>, queue: seq<JobId>) {
    |rest| <= |queue| && rest == queue[|queue| - |rest|..]
  }

  lemma TailMore(rest: seq<JobId>, rest2: seq<JobId>, queue: seq<JobId>)
    requires IsTail(rest, queue) && (rest2 == rest || (rest != [] && rest2 == rest[1..]))
    ensures IsTail(rest2, queue)
  {
  }

  lemma LineFits(w: World, line: seq<Gen>)
    requires Calm(w) && Roster(multiset(line), w.crew)
    ensures |line| <= w.max
  {
    hide Ok;
    PoolRoom(w);
    RosterSize(line, w.crew);
  }

  lemma Without(gens: seq<Gen>, i: nat)
    requires i < |gens|
    ensures
      var rest := gens[..i] + gens[i + 1..];
      && |rest| == |gens| - 1 && multiset(rest) == multiset(gens) - multiset{gens[i]} && gens[i] in multiset(gens)
      && forall g :: g in rest ==> g in gens
  {
    assert gens == gens[..i] + [gens[i]] + gens[i + 1..];
  }

  lemma FewerOnBoard(start: Crew, crew: Crew)
    requires crew.Keys <= start.Keys
    ensures |crew| <= |start|
  {
    SubsetSize(crew.Keys, start.Keys);
    assert |crew| == |crew.Keys| && |start| == |start.Keys|;
  }

  /** Jobs in the queue have seen no event. */
  lemma QueuedSilent(w: World)
    requires Calm(w)
    ensures forall j :: j in w.queue ==> j in w.logs && w.logs[j].state == Queued && w.logs[j].events == []
  {
    hide PoolOk, CrewOk, EndedOk, Tally;
  }

  lemma ServedNoSlots(line: seq<Gen>)
    requires forall g :: g in line ==> g.slot.None?
    ensures NoSlots(line)
  {
  }

  lemma EmptyRoster()
    ensures Roster(multiset([]), map[])
  {
  }

  lemma RosterHead(w: World, line: seq<Gen>)
    requires line != [] && Calm(w) && Roster(multiset(line), w.crew)
    ensures OnBoard(w, line[0]) && |line[1..]| < |w.crew|
  {
    hide Calm, Tally;
    assert line[0] in multiset(line);
  }

  /** Of `start`, whoever is not on board any more was shut down; the others are untouched. */
  ghost predicate LeftOver(start: Crew, crew: Crew, logs: Logs) {
    && (forall s :: s in crew ==> s in start && start[s] == crew[s])
    && (forall s :: s in start && s !in crew ==>
          && start[s].job in logs
          && logs[start[s].job].state == Ended(ByFailure(SHUTTING_DOWN), start[s].generated))
  }

  lemma HeadGone(start: Crew, w: World, w2: World, line: seq<Gen>, g: Gen)
    requires line != [] && g == line[0] && Ok(w) && OnBoard(w, g) && Roster(multiset(line), w.crew)
    requires LeftOver(start, w.crew, w.logs)
    requires Went(w, w2, line[1..], line[1..], g, None)
    requires w2.logs[g.job].state == Ended(ByFailure(SHUTTING_DOWN), g.generated)
    ensures Roster(multiset(line[1..]), w2.crew) && LeftOver(start, w2.crew, w2.logs)
  {
    assert LeftOver(start, w2.crew, w2.logs) by {
      hide Ok, Roster, Moved, GenOk;
      OnBoardFacts(w, g);
      LiveFacts(w.next, w.st.sessions[g.session], w.logs[g.job], g, g.session in w.due);
    }
    hide Ok, Roster, LeftOver, Local;
    assert line == [g] + line[1..];
    assert multiset(line) - multiset{g} == multiset(line[1..]);
    RosterDrop(multiset(line), w.crew, g);
  }

  lemma EmptyServed(w: World, line: seq<Gen>)
    requires line == [] && Roster(multiset(line), w.crew)
    ensures w.crew == map[]
  {
    RosterNone(multiset(line), w.crew);
  }

  lemma ServedOn(crew0: Crew, start: Crew, crew: Crew, logs: Logs)
    requires forall s :: s in crew0 ==> s in start && start[s] == crew0[s]
    requires AllServed(start, crew, logs)
    ensures AllServed(crew0, crew, logs)
  {
  }
}
