/** The whole state of the worker as one value, and how single moves keep it sound. */
module SchedulerWorld {
  import opened Strings
  import opened Events
  import opened Reference
  import opened EngineModel
  import opened SchedulerState

  datatype World = World(next: Net, max: nat, st: State, idle: seq<SessionId>, queue: seq<JobId>, logs: Logs,
                         crew: Crew, loose: set<SessionId>, open: set<JobId>, due: set<SessionId>,
                         raised: set<JobId>)

  ghost predicate Ok(w: World) {
    && 1 <= w.max
    && PoolOk(w.st, w.idle, w.loose, w.crew, w.max)
    && CrewOk(w.next, w.st, w.logs, w.crew, w.due)
    && JobsOk(w.next, w.logs, w.queue, w.open, w.crew)
    && w.due <= w.crew.Keys
    && Tally(w.st, w.logs)
    && AskedOk(w.logs, w.raised)
  }

  /** A job is only taken for cancelled if its client raised the flag. */
  ghost predicate AskedOk(logs: Logs, raised: set<JobId>) {
    forall j :: j in logs && logs[j].asked ==> j in raised
  }

  /** Nothing is in the worker's hands. */
  ghost predicate Calm(w: World) {
    Ok(w) && w.loose == {} && w.open == {} && w.due == {}
  }

  /** Only session `s` and job `j` may have changed, by as many resets each. */
  ghost predicate Local(w: World, w2: World, s: SessionId, j: JobId) {
    && w2.next == w.next && w2.max == w.max && w2.queue == w.queue && w.raised <= w2.raised
    && w2.st.sessions.Keys == w.st.sessions.Keys && w2.logs.Keys == w.logs.Keys
    && (forall t :: t in w.st.sessions && t != s ==> w2.st.sessions[t] == w.st.sessions[t])
    && (forall k :: k in w.logs && k != j ==> w2.logs[k] == w.logs[k])
    && (s in w.st.sessions && j in w.logs ==> Paid(w.st.sessions[s], w2.st.sessions[s], w.logs[j], w2.logs[j]))
  }

  /** Stream `g` goes on as `h`. */
  ghost predicate Kept(w: World, w2: World, g: Gen, h: Gen) {
    && Local(w, w2, g.session, g.job)
    && h.session == g.session && h.job == g.job
    && w2.idle == w.idle && w2.crew == w.crew[g.session := h] && w2.loose == w.loose && w2.open == w.open
    && w2.due - {g.session} == w.due - {g.session}
  }

  /** Stream `g` is over; its session and job are in the worker's hands. */
  ghost predicate Left(w: World, w2: World, g: Gen) {
    && Local(w, w2, g.session, g.job)
    && w2.idle == w.idle && w2.crew == w.crew - {g.session}
    && w2.loose == w.loose + {g.session} && w2.open == w.open + {g.job}
    && w2.due == w.due - {g.session}
  }

  /** Session `s`, out of the worker's hands, rests in the pool and job `j` is settled. */
  ghost predicate Settled(w: World, w2: World, s: SessionId, j: JobId) {
    && Local(w, w2, s, j)
    && j in w2.logs && w2.logs[j].state.Ended?
    && w2.idle == w.idle + [s] && w2.loose == w.loose - {s} && w2.open == w.open - {j}
    && w2.crew == w.crew && w2.due == w.due
  }

  ghost predicate OnBoard(w: World, g: Gen) {
    g.session in w.crew && w.crew[g.session] == g
  }

  /** Twice the tokens still to come, the withheld token, the unused hold. */
  ghost function Rank(g: Gen): int {
    2 * (Limit(g.config.maxNew) - g.generated) + (if g.pending.Some? then 1 else 0) + (if g.held then 0 else 1)
  }

  /** `g` moved on to `h`: one token more, or it waits for room in its channel, or it is
      held back this once. */
  ghost predicate Moved(g: Gen, h: Gen) {
    && h == g.(generated := h.generated, pending := h.pending, slot := h.slot, held := h.held)
    && (|| (h.generated == g.generated + 1 && h.held == g.held)
        || (g.pending.Some? && h == g.(slot := h.slot))
        || (g.pending.None? && !g.held && h == g.(slot := h.slot, held := true)))
  }

  /** A move brings the stream nearer its end, unless it waits for room. */
  lemma MovedRank(g: Gen, h: Gen)
    requires Moved(g, h)
    ensures Rank(h) < Rank(g) || (g.pending.Some? && h == g.(slot := h.slot))
  {
    hide Limit;
  }

  lemma OnBoardFacts(w: World, g: Gen)
    requires Ok(w) && OnBoard(w, g)
    ensures g.session in w.st.sessions && g.job in w.logs && g.session !in w.idle && g.session !in w.loose
    ensures GenOk(w.next, w.st.sessions[g.session], w.logs[g.job], g, g.session in w.due)
  {
    hide GenOk, StateOk, JobsOk, Tally;
  }

  lemma KeptOk(w: World, w2: World, g: Gen, h: Gen)
    requires Ok(w) && OnBoard(w, g) && Kept(w, w2, g, h)
    requires StateOk(w2.st) && (w2.st.group.Some? ==> |w2.st.group.value| == Slots(w.max))
    requires g.session in w2.st.sessions && g.job in w2.logs
    requires GenOk(w.next, w2.st.sessions[g.session], w2.logs[g.job], h, g.session in w2.due)
    ensures Ok(w2) && OnBoard(w2, h)
  {
    hide PoolOk, CrewOk, JobsOk, GenOk, StateOk, Slots, Tally;
    OnBoardFacts(w, g);
    LiveFacts(w.next, w.st.sessions[g.session], w.logs[g.job], g, g.session in w.due);
    LiveFacts(w.next, w2.st.sessions[g.session], w2.logs[g.job], h, g.session in w2.due);
    KeptDue(w, w2, g, h);
    KeptPool(w, w2, g, h);
    KeptCrew(w, w2, g, h);
    KeptJobs(w, w2, g, h);
    LocalTally(w, w2, g.session, g.job);
    LocalAsked(w, w2, g.session, g.job);
  }

  lemma LocalTally(w: World, w2: World, s: SessionId, j: JobId)
    requires Tally(w.st, w.logs) && Local(w, w2, s, j) && s in w.st.sessions && j in w.logs
    ensures Tally(w2.st, w2.logs)
  {
    hide Tally, Paid;
    TallyMove(w.st, w2.st, w.logs, w2.logs, s, j);
  }

  lemma LocalAsked(w: World, w2: World, s: SessionId, j: JobId)
    requires AskedOk(w.logs, w.raised) && Local(w, w2, s, j)
    requires j in w2.logs && w2.logs[j].asked ==> j in w2.raised
    ensures AskedOk(w2.logs, w2.raised)
  {
    hide Paid;
  }

  lemma LiveFacts(next: Net, se: Session, lg: JobLog, g: Gen, due: bool)
    requires GenOk(next, se, lg, g, due)
    ensures lg.state == Live(g.session) && se.prompt == lg.job.prompt && se.slot == g.slot && !lg.asked
    ensures se.pos == if due then g.generated + 1 else g.generated
  {
    hide Counted, Owner, NoEosBefore, Tally;
  }

  lemma KeptDue(w: World, w2: World, g: Gen, h: Gen)
    requires Kept(w, w2, g, h) && OnBoard(w, g) && w.due <= w.crew.Keys
    ensures w2.due <= w2.crew.Keys
    ensures forall s :: s != g.session ==> (s in w2.due <==> s in w.due)
  {
    hide Local, Tally;
    forall s | s != g.session ensures s in w2.due <==> s in w.due {
      assert s in w2.due - {g.session} <==> s in w.due - {g.session};
    }
  }

  lemma KeptPool(w: World, w2: World, g: Gen, h: Gen)
    requires PoolOk(w.st, w.idle, w.loose, w.crew, w.max) && OnBoard(w, g) && Kept(w, w2, g, h)
    requires g.session !in w.idle
    requires StateOk(w2.st) && (w2.st.group.Some? ==> |w2.st.group.value| == Slots(w.max))
    ensures PoolOk(w2.st, w2.idle, w2.loose, w2.crew, w2.max)
  {
    hide StateOk, Rested, Slots, Tally;
    assert w2.crew.Keys == w.crew.Keys;
    PoolTouch(w.st, w2.st, w.idle, w.loose, w.crew, w2.loose, w2.crew, w.max);
  }

  lemma KeptCrew(w: World, w2: World, g: Gen, h: Gen)
    requires CrewOk(w.next, w.st, w.logs, w.crew, w.due) && OnBoard(w, g) && Kept(w, w2, g, h)
    requires forall s :: s != g.session ==> (s in w2.due <==> s in w.due)
    requires g.session in w2.st.sessions && g.job in w2.logs
    requires GenOk(w.next, w2.st.sessions[g.session], w2.logs[g.job], h, g.session in w2.due)
    ensures CrewOk(w2.next, w2.st, w2.logs, w2.crew, w2.due)
  {
    hide GenOk, Tally;
    CrewTouch(w.next, w.st, w2.st, w.logs, w2.logs, w.crew, h, w.due, w2.due);
  }

  lemma KeptJobs(w: World, w2: World, g: Gen, h: Gen)
    requires JobsOk(w.next, w.logs, w.queue, w.open, w.crew) && OnBoard(w, g) && Kept(w, w2, g, h)
    requires g.job in w.logs && w.logs[g.job].state == Live(g.session) && w2.logs[g.job].state == Live(g.session)
    ensures JobsOk(w2.next, w2.logs, w2.queue, w2.open, w2.crew)
  {
    hide EndedOk, Tally;
    JobsTouch(w.next, w.logs, w2.logs, w.queue, w.open, w2.open, w.crew, w2.crew, g.job);
  }

  lemma LeftOk(w: World, w2: World, g: Gen)
    requires Ok(w) && OnBoard(w, g) && Left(w, w2, g)
    requires StateOk(w2.st) && w2.st.group == w.st.group
    requires g.job in w2.logs && w2.logs[g.job].state == InHand
    requires w2.logs[g.job].asked ==> g.job in w2.raised
    ensures Ok(w2)
  {
    hide PoolOk, CrewOk, JobsOk, GenOk, StateOk, Slots, Tally;
    OnBoardFacts(w, g);
    LiveFacts(w.next, w.st.sessions[g.session], w.logs[g.job], g, g.session in w.due);
    LeftPool(w, w2, g);
    assert CrewOk(w2.next, w2.st, w2.logs, w2.crew, w2.due) by {
      CrewFacts(w);
      CrewLeave(w.next, w.st, w2.st, w.logs, w2.logs, w.crew, g.session, w.due, w2.due);
    }
    LeftJobs(w, w2, g);
    LocalTally(w, w2, g.session, g.job);
    LocalAsked(w, w2, g.session, g.job);
  }

  lemma CrewFacts(w: World)
    requires CrewOk(w.next, w.st, w.logs, w.crew, w.due)
    ensures forall s :: s in w.crew ==> s in w.st.sessions && w.crew[s].session == s && w.crew[s].job in w.logs
  {
    hide GenOk, Tally;
  }

  lemma LeftPool(w: World, w2: World, g: Gen)
    requires PoolOk(w.st, w.idle, w.loose, w.crew, w.max) && OnBoard(w, g) && Left(w, w2, g)
    requires g.session !in w.idle
    requires StateOk(w2.st) && w2.st.group == w.st.group
    ensures PoolOk(w2.st, w2.idle, w2.loose, w2.crew, w2.max)
  {
    hide PoolOk, StateOk, Rested, Slots, Tally;
    PoolFacts(w.st, w.idle, w.loose, w.crew, w.max);
    assert w2.loose + w2.crew.Keys == w.loose + w.crew.Keys;
    PoolTouch(w.st, w2.st, w.idle, w.loose, w.crew, w2.loose, w2.crew, w.max);
  }

  lemma LeftJobs(w: World, w2: World, g: Gen)
    requires JobsOk(w.next, w.logs, w.queue, w.open, w.crew) && OnBoard(w, g) && Left(w, w2, g)
    requires g.job in w.logs && w.logs[g.job].state == Live(g.session) && w2.logs[g.job].state == InHand
    ensures JobsOk(w2.next, w2.logs, w2.queue, w2.open, w2.crew)
  {
    hide EndedOk, Tally;
    JobsTouch(w.next, w.logs, w2.logs, w.queue, w.open, w2.open, w.crew, w2.crew, g.job);
  }

  /** The last move of a stream that left: its session comes to rest in the pool. */
  lemma SettledOk(w: World, w2: World, s: SessionId, j: JobId)
    requires Ok(w) && Settled(w, w2, s, j)
    requires s in w.loose && j in w.open && j in w.logs && w.logs[j].state == InHand
    requires StateOk(w2.st) && (w2.st.group.Some? ==> |w2.st.group.value| == Slots(w.max))
    requires s in w2.st.sessions && Rested(w2.st.sessions[s])
    requires EndedOk(w.next, w2.logs[j]) && (w2.logs[j].asked ==> j in w2.raised)
    ensures Ok(w2)
  {
    hide PoolOk, CrewOk, JobsOk, GenOk, StateOk, Slots, Rested, EndedOk, Tally;
    LooseFacts(w, s);
    SettledPool(w, w2, s, j);
    CrewFacts(w);
    CrewAside(w.next, w.st, w2.st, w.logs, w2.logs, w.crew, w.due, j);
    SettledJobs(w, w2, s, j);
    LocalTally(w, w2, s, j);
    LocalAsked(w, w2, s, j);
  }

  lemma LooseFacts(w: World, s: SessionId)
    requires PoolOk(w.st, w.idle, w.loose, w.crew, w.max) && s in w.loose
    ensures s !in w.idle && s !in w.crew && s in w.st.sessions
  {
    hide StateOk, Rested, Slots, Tally;
  }

  lemma SettledPool(w: World, w2: World, s: SessionId, j: JobId)
    requires PoolOk(w.st, w.idle, w.loose, w.crew, w.max) && Settled(w, w2, s, j)
    requires s in w.loose
    requires StateOk(w2.st) && (w2.st.group.Some? ==> |w2.st.group.value| == Slots(w.max))
    requires s in w2.st.sessions && Rested(w2.st.sessions[s])
    ensures PoolOk(w2.st, w2.idle, w2.loose, w2.crew, w2.max)
  {
    hide StateOk, Rested, Slots, Tally;
    LooseFacts(w, s);
    PoolReturn(w.st, w2.st, w.idle, w.loose, w.crew, s, w.max);
  }

  lemma SettledJobs(w: World, w2: World, s: SessionId, j: JobId)
    requires JobsOk(w.next, w.logs, w.queue, w.open, w.crew) && Settled(w, w2, s, j)
    requires j in w.logs && w.logs[j].state == InHand && EndedOk(w.next, w2.logs[j])
    ensures JobsOk(w2.next, w2.logs, w2.queue, w2.open, w2.crew)
  {
    hide EndedOk, Tally;
    JobsTouch(w.next, w.logs, w2.logs, w.queue, w.open, w2.open, w.crew, w2.crew, j);
  }

  // ---- admission ----

  /** The head of the queue is taken off and held in hand. */
  ghost predicate Dequeued(w: World, w2: World) {
    && w.queue != [] && w.queue[0] in w.logs
    && w2 == w.(queue := w.queue[1..], open := w.open + {w.queue[0]},
                logs := w.logs[w.queue[0] := w.logs[w.queue[0]].(state := InHand)])
  }

  lemma DequeuedOk(w: World, w2: World)
    requires Ok(w) && Dequeued(w, w2)
    ensures Ok(w2)
  {
    hide PoolOk, CrewOk, JobsOk, GenOk, Tally;
    DequeuedJobs(w, w2);
    CrewFacts(w);
    CrewAside(w.next, w.st, w2.st, w.logs, w2.logs, w.crew, w.due, w.queue[0]);
    TallySame(w.st, w2.st, w.logs, w2.logs);
  }

  lemma DequeuedJobs(w: World, w2: World)
    requires JobsOk(w.next, w.logs, w.queue, w.open, w.crew) && Dequeued(w, w2)
    ensures w.logs[w.queue[0]].state == Queued
    ensures JobsOk(w2.next, w2.logs, w2.queue, w2.open, w2.crew)
  {
    hide EndedOk, Tally;
    var j := w.queue[0];
    assert w.queue == [j] + w2.queue;
    assert forall k :: k in w.queue <==> k == j || k in w2.queue;
    assert j !in w2.queue;
  }

  /** A session is taken from the pool. */
  lemma TakenOk(w: World, w2: World, s: SessionId)
    requires Ok(w) && w.idle == w2.idle + [s]
    requires w2 == w.(idle := w2.idle, loose := w.loose + {s})
    ensures Ok(w2) && s in w.st.sessions && w.st.sessions[s].phase == Idle && s !in w.crew
  {
    hide CrewOk, JobsOk, StateOk, Slots, Tally;
    assert s == w.idle[|w2.idle|];
    assert s in w.idle;
    forall t | t in w2.idle ensures t in w.idle && t != s {
      var i :| 0 <= i < |w2.idle| && w2.idle[i] == t;
      assert w.idle[i] == t && w.idle[|w2.idle|] == s;
    }
    forall i, k | 0 <= i < k < |w2.idle| ensures w2.idle[i] != w2.idle[k] {
      assert w.idle[i] == w2.idle[i] && w.idle[k] == w2.idle[k];
    }
    assert forall t :: t in w.idle ==> t in w2.idle || t == s;
  }

  /** A new session joins the pool's count while there is room. */
  lemma CreatedOk(w: World, w2: World, s: SessionId, se: Session)
    requires Ok(w) && s !in w.st.sessions && |w.idle| + |w.loose| + |w.crew| < w.max
    requires w2 == w.(st := w.st.(sessions := w.st.sessions[s := se]), loose := w.loose + {s})
    requires StateOk(w2.st) && se.trace == []
    ensures Ok(w2) && s !in w.crew
  {
    hide CrewOk, JobsOk, PoolOk, StateOk, Slots, Rested, Tally;
    PoolFacts(w.st, w.idle, w.loose, w.crew, w.max);
    PoolNew(w.st, w2.st, w.idle, w.loose, w.crew, s, w.max);
    CrewFacts(w);
    CrewSame(w, w2);
    TallyNewSession(w.st, w2.st, w.logs, s, se);
  }

  lemma CrewSame(w: World, w2: World)
    requires CrewOk(w.next, w.st, w.logs, w.crew, w.due)
    requires w2.next == w.next && w2.logs == w.logs && w2.crew == w.crew && w2.due == w.due
    requires forall s :: s in w.crew ==>
               s in w2.st.sessions && s in w.st.sessions && w2.st.sessions[s] == w.st.sessions[s]
    ensures CrewOk(w2.next, w2.st, w2.logs, w2.crew, w2.due)
  {
    hide GenOk, Tally;
  }

  /** The session and the job in hand become a new stream. */
  ghost predicate Joined(w: World, w2: World, g: Gen) {
    && Local(w, w2, g.session, g.job)
    && w2.st.group == w.st.group
    && w2.idle == w.idle && w2.crew == w.crew[g.session := g]
    && w2.loose == w.loose - {g.session} && w2.open == w.open - {g.job} && w2.due == w.due
  }

  lemma JoinedOk(w: World, w2: World, g: Gen)
    requires Ok(w) && Joined(w, w2, g)
    requires g.session in w.loose && g.job in w.open && g.job in w.logs && w.logs[g.job].state == InHand
    requires StateOk(w2.st) && g.session in w2.st.sessions && g.job in w2.logs
    requires GenOk(w.next, w2.st.sessions[g.session], w2.logs[g.job], g, false)
    ensures Ok(w2) && OnBoard(w2, g)
  {
    hide PoolOk, CrewOk, JobsOk, GenOk, StateOk, Slots, Tally;
    LooseFacts(w, g.session);
    LiveFacts(w.next, w2.st.sessions[g.session], w2.logs[g.job], g, false);
    JoinedPool(w, w2, g);
    CrewFacts(w);
    CrewAside(w.next, w.st, w2.st, w.logs, w2.logs, w.crew, w.due, g.job);
    assert g.session !in w.due;
    CrewJoin(w.next, w2.st, w2.logs, w.crew, g, w.due);
    JoinedJobs(w, w2, g);
    LocalTally(w, w2, g.session, g.job);
    LocalAsked(w, w2, g.session, g.job);
  }

  lemma JoinedPool(w: World, w2: World, g: Gen)
    requires PoolOk(w.st, w.idle, w.loose, w.crew, w.max) && Joined(w, w2, g)
    requires g.session in w.loose && StateOk(w2.st)
    ensures PoolOk(w2.st, w2.idle, w2.loose, w2.crew, w2.max)
  {
    hide PoolOk, StateOk, Rested, Slots, Tally;
    LooseFacts(w, g.session);
    PoolFacts(w.st, w.idle, w.loose, w.crew, w.max);
    assert w2.loose + w2.crew.Keys == w.loose + w.crew.Keys;
    PoolTouch(w.st, w2.st, w.idle, w.loose, w.crew, w2.loose, w2.crew, w.max);
  }

  lemma JoinedJobs(w: World, w2: World, g: Gen)
    requires JobsOk(w.next, w.logs, w.queue, w.open, w.crew) && Joined(w, w2, g) && g.session !in w.crew
    requires g.job in w.logs && w.logs[g.job].state == InHand && w2.logs[g.job].state == Live(g.session)
    ensures JobsOk(w2.next, w2.logs, w2.queue, w2.open, w2.crew)
  {
    hide EndedOk, Tally;
    JobsTouch(w.next, w.logs, w2.logs, w.queue, w.open, w2.open, w.crew, w2.crew, g.job);
  }

  /** A job that never held a session is settled. */
  lemma AbandonedOk(w: World, w2: World, j: JobId)
    requires Ok(w) && j in w.open && j in w.logs && w.logs[j].state == InHand
    requires w2 == w.(logs := w2.logs, open := w.open - {j})
    requires w2.logs.Keys == w.logs.Keys && forall k :: k in w.logs && k != j ==> w2.logs[k] == w.logs[k]
    requires EndedOk(w.next, w2.logs[j]) && w2.logs[j].resets == w.logs[j].resets && !w2.logs[j].asked
    ensures Ok(w2)
  {
    hide PoolOk, GenOk, CrewOk, JobsOk, EndedOk, Tally;
    CrewFacts(w);
    CrewAside(w.next, w.st, w2.st, w.logs, w2.logs, w.crew, w.due, j);
    AbandonedJobs(w, w2, j);
    TallySame(w.st, w2.st, w.logs, w2.logs);
  }

  lemma AbandonedJobs(w: World, w2: World, j: JobId)
    requires JobsOk(w.next, w.logs, w.queue, w.open, w.crew)
    requires j in w.logs && w.logs[j].state == InHand
    requires w2 == w.(logs := w2.logs, open := w.open - {j})
    requires w2.logs.Keys == w.logs.Keys && forall k :: k in w.logs && k != j ==> w2.logs[k] == w.logs[k]
    requires EndedOk(w.next, w2.logs[j])
    ensures JobsOk(w2.next, w2.logs, w2.queue, w2.open, w2.crew)
  {
    var state := w2.logs[j].state;
    assert state.Ended?;
    hide EndedOk, Tally;
    JobsTouch(w.next, w.logs, w2.logs, w.queue, w.open, w2.open, w.crew, w2.crew, j);
  }

  /** A client hands in a job: the next free number, at the end of the queue. */
  lemma SubmittedOk(w: World, w2: World, j: JobId, job: Job)
    requires Ok(w) && j !in w.logs
    requires w2 == w.(queue := w.queue + [j], logs := w.logs[j := JobLog(job, [], false, false, false, 0, Queued)])
    ensures Ok(w2)
  {
    hide PoolOk, CrewOk, GenOk, EndedOk, Tally;
    CrewFacts(w);
    CrewAside(w.next, w.st, w2.st, w.logs, w2.logs, w.crew, w.due, j);
    assert forall k :: k in w2.queue <==> k in w.queue || k == j;
    assert j !in w.queue;
    TallyNewJob(w.st, w.logs, j, w2.logs[j]);
  }

  // ---- a full active set with a job behind it ----

  /** One session, all there may be, on its first job; a second job is queued. */
  function OneBehind(next: Net, first: Job, second: Job): World {
    var trace := [Call(Op.Reset, true), Call(Op.Prefill, true)];
    var st := State(map[0 := Session(first.prompt, 0, Running, None, trace)], None);
    var g := Gen(0, 0, first.config, |first.prompt|, 0, None, None, false);
    var logs := map[0 := JobLog(first, [], false, false, false, 1, Live(0)),
                    1 := JobLog(second, [], false, false, false, 0, Queued)];
    World(next, 1, st, [], [1], logs, map[0 := g], {}, {}, {}, {})
  }

  lemma OneBehindReplays()
    ensures
      var trace := [Call(Op.Reset, true), Call(Op.Prefill, true)];
      Replay(trace) == Some(Running) && ResetCount(trace) == 1
  {
    var trace := [Call(Op.Reset, true), Call(Op.Prefill, true)];
    assert trace[..1] == [Call(Op.Reset, true)] && trace[..1][..0] == [];
    assert Replay(trace[..1]) == Some(Cleared) && ResetCount(trace[..1]) == 1;
  }

  lemma OneBehindTally(next: Net, first: Job, second: Job)
    ensures Tally(OneBehind(next, first, second).st, OneBehind(next, first, second).logs)
  {
    hide Total, ResetCount;
    var w := OneBehind(next, first, second);
    OneBehindReplays();
    assert Seen(w.st) == map[][0 := 1];
    assert Booked(w.logs) == map[][0 := 1][1 := 0];
    TotalPut(map[], 0, 1);
    TotalPut(map[][0 := 1], 1, 0);
  }

  lemma OneBehindPool(next: Net, first: Job, second: Job)
    ensures var w := OneBehind(next, first, second); PoolOk(w.st, w.idle, w.loose, w.crew, w.max)
  {
    hide Replay;
    var w := OneBehind(next, first, second);
    OneBehindReplays();
    assert w.st.sessions.Keys == {0} && w.crew.Keys == {0};
    assert |w.st.sessions| == |w.st.sessions.Keys| && |w.crew| == |w.crew.Keys|;
  }

  lemma OneBehindCrew(next: Net, first: Job, second: Job)
    ensures
      var w := OneBehind(next, first, second);
      CrewOk(next, w.st, w.logs, w.crew, w.due) && JobsOk(next, w.logs, w.queue, w.open, w.crew)
  {
    hide IsEos, TokenAt, EndedOk;
    assert Shown(next, first.prompt, 0) == [];
  }

  /** The invariants allow it, whatever the jobs. */
  lemma OneBehindCalm(next: Net, first: Job, second: Job)
    ensures Calm(OneBehind(next, first, second))
  {
    hide PoolOk, CrewOk, JobsOk, Tally;
    OneBehindPool(next, first, second);
    OneBehindCrew(next, first, second);
    OneBehindTally(next, first, second);
  }
}
