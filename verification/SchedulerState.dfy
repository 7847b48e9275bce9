/** The scheduler worker's data, and what holds of it between any two calls. */
module SchedulerState {
  import opened Strings
  import opened Events
  import opened Reference
  import opened EngineModel

  const MAX_BATCH_SLOTS := 8
  const SHUTTING_DOWN := "scheduler shutting down"

  type JobId = nat

  datatype Job = Job(prompt: seq<Token>, config: Config)

  /** One active generation; it owns its session while it is active. */
  datatype Gen = Gen(session: SessionId, job: JobId, config: Config, promptTokens: nat,
                     generated: nat, pending: Option<Token>, slot: Option<nat>, held: bool)

  datatype Finish = ByEos | ByLength | ByCancel | ByFailure(message: string)

  datatype StepResult = Continue | Yield | Over(finish: Finish)

  datatype RetireMode = Serving | Shutdown

  datatype SendResult = Sent | Full | Closed

  /** `InHand` is a job the worker has taken off the queue or out of the active
      set and not yet settled. */
  datatype JobState = Queued | InHand | Live(session: SessionId) | Ended(finish: Finish, generated: nat)

  /** A job with everything that happened to it: the events its channel took, whether
      its client asked to cancel, whether its receiver was found dropped, whether an
      engine call failed, the queue timed out or the worker shut down under it, and
      the resets made for it. */
  datatype JobLog = JobLog(job: Job, events: seq<GenEvent>, asked: bool, closed: bool, fault: bool,
                           resets: nat, state: JobState)

  type Crew = map<SessionId, Gen>
  type Logs = map<JobId, JobLog>

  /** The token events of the first `n` decisions after `prompt`. */
  ghost function Shown(next: Net, prompt: seq<Token>, n: nat): (r: seq<GenEvent>)
    ensures |r| == n
  {
    if n == 0 then [] else Shown(next, prompt, n - 1) + [Token(TokenAt(next, prompt, n - 1))]
  }

  /** Delivered events and the withheld token together are the counted tokens. */
  ghost predicate Counted(next: Net, lg: JobLog, g: Gen) {
    && (g.pending.Some? ==> g.generated >= 1 && g.pending.value == TokenAt(next, lg.job.prompt, g.generated - 1))
    && lg.events == Shown(next, lg.job.prompt, if g.pending.Some? then g.generated - 1 else g.generated)
  }

  ghost predicate Owner(lg: JobLog, g: Gen) {
    && lg.resets == 1 && lg.job.config == g.config && g.promptTokens == |lg.job.prompt|
    && g.generated <= Limit(g.config.maxNew)
  }

  /** `due`: the engine has decided a token the stream has not been fed yet. Only greedy
      streams hold a slot or have ever tried to. */
  ghost predicate GenOk(next: Net, se: Session, lg: JobLog, g: Gen, due: bool) {
    && lg.state == Live(g.session) && !lg.asked && !lg.closed && !lg.fault
    && Owner(lg, g)
    && se.prompt == lg.job.prompt && se.slot == g.slot && (g.slot.None? ==> se.phase == Running)
    && (!g.config.greedy ==> g.slot.None? && Alone(se.trace))
    && se.pos == (if due then g.generated + 1 else g.generated)
    && NoEosBefore(next, lg.job.prompt, g.generated)
    && (g.pending.None? ==> g.generated < Limit(g.config.maxNew))
    && (due ==> g.pending.None?)
    && Counted(next, lg, g)
  }

  /** What a stream that is about to be retired brings along. */
  ghost predicate EndOk(next: Net, se: Session, lg: JobLog, g: Gen, finish: Finish) {
    && lg.state == InHand && Owner(lg, g)
    && se.slot == g.slot && (g.slot.None? ==> Closable(se.phase))
    && NoEosBefore(next, lg.job.prompt, g.generated)
    && match finish
       case ByEos =>
         && g.pending.None? && Counted(next, lg, g) && !lg.closed
         && g.generated < Limit(g.config.maxNew) && IsEos(TokenAt(next, lg.job.prompt, g.generated))
       case ByLength =>
         g.pending.None? && Counted(next, lg, g) && !lg.closed && g.generated == Limit(g.config.maxNew)
       case ByCancel =>
         if lg.closed
         then g.pending.None? && g.generated >= 1 && lg.events == Shown(next, lg.job.prompt, g.generated - 1)
         else lg.asked && Counted(next, lg, g)
       case ByFailure(message) =>
         && lg.fault && !lg.closed && Counted(next, lg, g)
         && (message == SHUTTING_DOWN || se.phase == Spent)
  }

  function TerminalOf(finish: Finish, promptTokens: nat, n: nat): GenEvent {
    match finish
    case ByEos => GenEvent.Done(Stop, Usage(promptTokens, n))
    case ByLength => GenEvent.Done(Length, Usage(promptTokens, n))
    case ByCancel => GenEvent.Done(Cancelled, Usage(promptTokens, n))
    case ByFailure(message) => Failed(message)
  }

  /** The record of a settled job. A job that never held a session was never reset
      and saw at most a failure; any other was reset twice, and what its channel took
      is a prefix of the counted tokens, all of them with the terminal event unless
      the receiver was dropped or the worker shut down. */
  ghost predicate EndedOk(next: Net, lg: JobLog) {
    && lg.state.Ended?
    && var n := lg.state.generated; var finish := lg.state.finish; var prompt := lg.job.prompt;
       var terminal := TerminalOf(finish, |prompt|, n);
    && NoEosBefore(next, prompt, n) && n <= Limit(lg.job.config.maxNew)
    && (lg.resets == 0 || lg.resets == 2)
    && (lg.resets == 0 ==> finish.ByFailure? && n == 0)
    && match finish
       case ByEos =>
         && n < Limit(lg.job.config.maxNew) && IsEos(TokenAt(next, prompt, n))
         && Delivered(next, lg, n, terminal)
       case ByLength => n == Limit(lg.job.config.maxNew) && Delivered(next, lg, n, terminal)
       case ByCancel =>
         && (lg.asked || lg.closed)
         && (if lg.closed then PartOf(next, lg, n) else Delivered(next, lg, n, terminal))
       case ByFailure(_) =>
         && lg.fault
         && (|| PartOf(next, lg, n)
             || (&& |lg.events| >= 1 && lg.events[|lg.events| - 1] == terminal
                 && PartOf(next, lg.(events := lg.events[..|lg.events| - 1]), n)))
  }

  ghost predicate Delivered(next: Net, lg: JobLog, n: nat, terminal: GenEvent) {
    || lg.events == Shown(next, lg.job.prompt, n) + [terminal]
    || (lg.closed && lg.events == Shown(next, lg.job.prompt, n))
  }

  ghost predicate PartOf(next: Net, lg: JobLog, n: nat) {
    |lg.events| <= n && lg.events == Shown(next, lg.job.prompt, |lg.events|)
  }

  predicate NoRepeats(idle: seq<SessionId>) {
    forall i, j :: 0 <= i < j < |idle| ==> idle[i] != idle[j]
  }

  ghost predicate IdleOk(st: State, idle: seq<SessionId>, loose: set<SessionId>, crew: Crew) {
    forall s :: s in idle ==> s in st.sessions && s !in loose && s !in crew && Rested(st.sessions[s])
  }

  ghost predicate NoneLost(st: State, idle: seq<SessionId>, loose: set<SessionId>, crew: Crew) {
    forall s :: s in st.sessions ==> s in idle || s in loose || s in crew
  }

  /** Every session is idle, on loan to the crew, or in the worker's hands (`loose`),
      and there are never more than `max`. */
  ghost predicate PoolOk(st: State, idle: seq<SessionId>, loose: set<SessionId>, crew: Crew, max: nat) {
    && StateOk(st)
    && NoRepeats(idle) && IdleOk(st, idle, loose, crew) && NoneLost(st, idle, loose, crew)
    && loose <= st.sessions.Keys && crew.Keys <= st.sessions.Keys && loose !! crew.Keys
    && |st.sessions| == |idle| + |loose| + |crew| <= max
    && (st.group.Some? ==> |st.group.value| == Slots(max))
  }

  function Slots(max: nat): nat {
    if max < MAX_BATCH_SLOTS then max else MAX_BATCH_SLOTS
  }

  ghost predicate CrewOk(next: Net, st: State, logs: Logs, crew: Crew, due: set<SessionId>) {
    forall s :: s in crew ==>
      && crew[s].session == s && s in st.sessions && crew[s].job in logs
      && GenOk(next, st.sessions[s], logs[crew[s].job], crew[s], s in due)
  }

  /** No job is lost: it is queued, in hand, owned by one stream, or settled. */
  ghost predicate JobOk(next: Net, lg: JobLog, j: JobId, queue: seq<JobId>, open: set<JobId>, crew: Crew) {
    match lg.state
    case Queued => lg.events == [] && lg.resets == 0 && !lg.asked && !lg.closed && !lg.fault && j in queue
    case InHand => j in open
    case Live(s) => s in crew && crew[s].job == j
    case Ended(_, _) => EndedOk(next, lg)
  }

  ghost predicate JobsOk(next: Net, logs: Logs, queue: seq<JobId>, open: set<JobId>, crew: Crew) {
    && (forall j :: j in logs ==> JobOk(next, logs[j], j, queue, open, crew))
    && (forall i, k :: 0 <= i < k < |queue| ==> queue[i] != queue[k])
    && (forall j :: j in queue ==> j in logs && logs[j].state == Queued)
  }

  // ---- every reset is some job's ----

  ghost function Total(counts: map<nat, nat>): nat
    decreases |counts|
  {
    if counts == map[] then 0
    else
      var k :| k in counts;
      assert |counts - {k}| < |counts| by { Fewer(counts, k); }
      counts[k] + Total(counts - {k})
  }

  lemma Fewer(counts: map<nat, nat>, k: nat)
    requires k in counts
    ensures |counts - {k}| < |counts|
  {
    assert (counts - {k}).Keys == counts.Keys - {k};
    assert |counts| == |counts.Keys| && |counts - {k}| == |(counts - {k}).Keys|;
  }

  /** Any entry can be taken out first. */
  lemma {:induction false} TotalOut(counts: map<nat, nat>, k: nat)
    requires k in counts
    ensures Total(counts) == counts[k] + Total(counts - {k})
    decreases |counts|
  {
    var c :| c in counts && Total(counts) == counts[c] + Total(counts - {c});
    Fewer(counts, c);
    Fewer(counts, k);
    if c != k {
      TotalOut(counts - {c}, k);
      TotalOut(counts - {k}, c);
      assert counts - {c} - {k} == counts - {k} - {c};
    }
  }

  lemma TotalPut(counts: map<nat, nat>, k: nat, n: nat)
    ensures Total(counts[k := n]) == n + Total(counts) - if k in counts then counts[k] else 0
  {
    TotalOut(counts[k := n], k);
    assert counts[k := n] - {k} == counts - {k};
    if k in counts {
      TotalOut(counts, k);
    } else {
      assert counts - {k} == counts;
    }
  }

  /** The resets each session saw, and the resets each job's record counts. */
  ghost function Seen(st: State): map<nat, nat> {
    map s | s in st.sessions :: ResetCount(st.sessions[s].trace)
  }

  ghost function Booked(logs: Logs): map<nat, nat> {
    map j | j in logs :: logs[j].resets
  }

  /** All resets in all traces are exactly those the records count. */
  ghost predicate Tally(st: State, logs: Logs) {
    Total(Seen(st)) == Total(Booked(logs))
  }

  /** As many resets of the session as of the job. */
  ghost predicate Paid(se: Session, se2: Session, lg: JobLog, lg2: JobLog) {
    ResetCount(se2.trace) - ResetCount(se.trace) == lg2.resets - lg.resets
  }

  lemma TallyMove(st: State, st2: State, logs: Logs, logs2: Logs, s: SessionId, j: JobId)
    requires Tally(st, logs) && st2.sessions.Keys == st.sessions.Keys && logs2.Keys == logs.Keys
    requires forall t :: t in st.sessions && t != s ==> st2.sessions[t] == st.sessions[t]
    requires forall k :: k in logs && k != j ==> logs2[k] == logs[k]
    requires s in st.sessions && j in logs && Paid(st.sessions[s], st2.sessions[s], logs[j], logs2[j])
    ensures Tally(st2, logs2)
  {
    hide Total, ResetCount;
    assert Seen(st2) == Seen(st)[s := ResetCount(st2.sessions[s].trace)];
    assert Booked(logs2) == Booked(logs)[j := logs2[j].resets];
    TotalPut(Seen(st), s, ResetCount(st2.sessions[s].trace));
    TotalPut(Booked(logs), j, logs2[j].resets);
  }

  /** No call was a reset and no record counted one. */
  lemma TallySame(st: State, st2: State, logs: Logs, logs2: Logs)
    requires Tally(st, logs) && st2.sessions.Keys == st.sessions.Keys && logs2.Keys == logs.Keys
    requires forall t :: t in st.sessions ==> ResetCount(st2.sessions[t].trace) == ResetCount(st.sessions[t].trace)
    requires forall k :: k in logs ==> logs2[k].resets == logs[k].resets
    ensures Tally(st2, logs2)
  {
    hide Total, ResetCount;
    assert Seen(st2) == Seen(st);
    assert Booked(logs2) == Booked(logs);
  }

  lemma TallyNewSession(st: State, st2: State, logs: Logs, s: SessionId, se: Session)
    requires Tally(st, logs) && s !in st.sessions && se.trace == [] && st2.sessions == st.sessions[s := se]
    ensures Tally(st2, logs)
  {
    hide Total;
    assert Seen(st2) == Seen(st)[s := 0];
    TotalPut(Seen(st), s, 0);
  }

  lemma TallyNewJob(st: State, logs: Logs, j: JobId, lg: JobLog)
    requires Tally(st, logs) && j !in logs && lg.resets == 0
    ensures Tally(st, logs[j := lg])
  {
    hide Total;
    assert Booked(logs[j := lg]) == Booked(logs)[j := 0];
    TotalPut(Booked(logs), j, 0);
  }

  // ---- keeping the invariants under the worker's moves ----

  lemma SameCount<T>(a: set<T>, b: set<T>, c: set<T>, d: set<T>)
    requires a !! b && c !! d && a + b == c + d
    ensures |a| + |b| == |c| + |d|
  {
    assert |a + b| == |a| + |b| && |c + d| == |c| + |d|;
  }

  lemma OneMore<T>(a: set<T>, x: T)
    requires x !in a
    ensures |a + {x}| == |a| + 1
  {
  }

  /** What the pool says of idle sessions, the group and sets of sessions. */
  lemma PoolFacts(st: State, idle: seq<SessionId>, loose: set<SessionId>, crew: Crew, max: nat)
    requires PoolOk(st, idle, loose, crew, max)
    ensures StateOk(st) && loose !! crew.Keys && (st.group.Some? ==> |st.group.value| == Slots(max))
    ensures loose <= st.sessions.Keys && crew.Keys <= st.sessions.Keys
    ensures forall s :: s in idle ==> s in st.sessions && s !in loose && s !in crew
  {
    hide StateOk, Rested, Slots;
  }

  /** A new session, in the worker's hands. */
  lemma PoolNew(st: State, st2: State, idle: seq<SessionId>, loose: set<SessionId>, crew: Crew, s: SessionId, max: nat)
    requires PoolOk(st, idle, loose, crew, max) && |idle| + |loose| + |crew| < max
    requires s !in st.sessions && st2.sessions.Keys == st.sessions.Keys + {s}
    requires forall t :: t in st.sessions ==> st2.sessions[t] == st.sessions[t]
    requires StateOk(st2) && st2.group == st.group
    ensures PoolOk(st2, idle, loose + {s}, crew, max)
  {
    hide StateOk, Rested, Slots, NoRepeats, NoneLost;
    assert IdleOk(st2, idle, loose + {s}, crew);
    hide IdleOk;
    NoneLostNew(st, st2, idle, loose, crew, s);
    OneMore(st.sessions.Keys, s);
    OneMore(loose, s);
    assert |st2.sessions| == |st2.sessions.Keys| && |st.sessions| == |st.sessions.Keys|;
  }

  lemma NoneLostNew(st: State, st2: State, idle: seq<SessionId>, loose: set<SessionId>, crew: Crew, s: SessionId)
    requires NoneLost(st, idle, loose, crew) && st2.sessions.Keys == st.sessions.Keys + {s}
    ensures NoneLost(st2, idle, loose + {s}, crew)
  {
    forall t | t in st2.sessions ensures t in idle || t in loose + {s} || t in crew {
      assert t == s || t in st.sessions;
    }
  }

  lemma PoolTouch(st: State, st2: State, idle: seq<SessionId>, loose: set<SessionId>, crew: Crew,
                  loose2: set<SessionId>, crew2: Crew, max: nat)
    requires PoolOk(st, idle, loose, crew, max)
    requires StateOk(st2) && st2.sessions.Keys == st.sessions.Keys
    requires forall s :: s in idle ==> s in st2.sessions && st2.sessions[s] == st.sessions[s]
    requires st2.group.Some? ==> |st2.group.value| == Slots(max)
    requires loose2 + crew2.Keys == loose + crew.Keys && loose2 !! crew2.Keys
    ensures PoolOk(st2, idle, loose2, crew2, max)
  {
    hide StateOk, Rested, Slots, NoRepeats, IdleOk, NoneLost;
    SameHands(st, st2, idle, loose, crew, loose2, crew2);
    SameCount(loose, crew.Keys, loose2, crew2.Keys);
    assert |crew.Keys| == |crew| && |crew2.Keys| == |crew2|;
    assert |st2.sessions| == |st2.sessions.Keys| == |st.sessions.Keys| == |st.sessions|;
  }

  lemma SameHands(st: State, st2: State, idle: seq<SessionId>, loose: set<SessionId>, crew: Crew,
                  loose2: set<SessionId>, crew2: Crew)
    requires IdleOk(st, idle, loose, crew) && NoneLost(st, idle, loose, crew)
    requires st2.sessions.Keys == st.sessions.Keys
    requires forall s :: s in idle ==> s in st2.sessions && st2.sessions[s] == st.sessions[s]
    requires loose2 + crew2.Keys == loose + crew.Keys
    ensures IdleOk(st2, idle, loose2, crew2) && NoneLost(st2, idle, loose2, crew2)
  {
    hide Rested;
    assert forall s :: s in loose2 || s in crew2 <==> s in loose + crew.Keys;
  }

  lemma PoolReturn(st: State, st2: State, idle: seq<SessionId>, loose: set<SessionId>, crew: Crew, s: SessionId,
      max: nat)
    requires PoolOk(st, idle, loose, crew, max) && s in loose
    requires StateOk(st2) && st2.sessions.Keys == st.sessions.Keys
    requires forall t :: t in st.sessions && t != s ==> st2.sessions[t] == st.sessions[t]
    requires st2.group.Some? ==> |st2.group.value| == Slots(max)
    requires s in st2.sessions && Rested(st2.sessions[s])
    ensures PoolOk(st2, idle + [s], loose - {s}, crew, max)
  {
    hide StateOk, Rested, Slots, NoneLost;
    assert s !in idle;
    assert NoRepeats(idle + [s]);
    PoolMembers(st, st2, idle, loose, crew, s);
    hide IdleOk, NoRepeats;
    assert |loose - {s}| == |loose| - 1;
    assert |st2.sessions| == |st2.sessions.Keys| == |st.sessions.Keys| == |st.sessions|;
  }

  lemma PoolMembers(st: State, st2: State, idle: seq<SessionId>, loose: set<SessionId>, crew: Crew, s: SessionId)
    requires IdleOk(st, idle, loose, crew) && NoneLost(st, idle, loose, crew)
    requires s in loose && s !in crew && st2.sessions.Keys == st.sessions.Keys
    requires forall t :: t in st.sessions && t != s ==> st2.sessions[t] == st.sessions[t]
    requires s in st2.sessions && Rested(st2.sessions[s])
    ensures IdleOk(st2, idle + [s], loose - {s}, crew) && NoneLost(st2, idle + [s], loose - {s}, crew)
  {
    hide Rested;
    forall t | t in idle + [s]
      ensures t in st2.sessions && t !in loose - {s} && t !in crew && Rested(st2.sessions[t])
    {
      if t != s { assert t in idle; }
    }
    forall t | t in st2.sessions ensures t in idle + [s] || t in loose - {s} || t in crew {
      assert t in st.sessions;
      assert t in idle ==> t in idle + [s];
    }
  }

  lemma CrewTouch(next: Net, st: State, st2: State, logs: Logs, logs2: Logs, crew: Crew, g: Gen,
      due: set<SessionId>, due2: set<SessionId>)
    requires CrewOk(next, st, logs, crew, due)
    requires g.session in crew && crew[g.session].job == g.job
    requires forall s :: s in crew && s != g.session ==>
               s in st2.sessions && st2.sessions[s] == st.sessions[s] && (s in due2 <==> s in due)
    requires forall j :: j in logs && j != g.job ==> j in logs2 && logs2[j] == logs[j]
    requires g.session in st2.sessions && g.job in logs2
    requires GenOk(next, st2.sessions[g.session], logs2[g.job], g, g.session in due2)
    ensures CrewOk(next, st2, logs2, crew[g.session := g], due2)
  {
    forall s | s in crew && s != g.session
      ensures GenOk(next, st2.sessions[s], logs2[crew[s].job], crew[s], s in due2)
    {
      OneJobEach(next, st, logs, crew, due, s, g.session);
    }
  }

  lemma OneJobEach(next: Net, st: State, logs: Logs, crew: Crew, due: set<SessionId>, s: SessionId, t: SessionId)
    requires CrewOk(next, st, logs, crew, due)
    requires s in crew && t in crew && s != t
    ensures crew[s].job != crew[t].job
  {
    hide Counted, Owner, NoEosBefore;
  }

  lemma CrewLeave(next: Net, st: State, st2: State, logs: Logs, logs2: Logs, crew: Crew, s: SessionId,
      due: set<SessionId>, due2: set<SessionId>)
    requires CrewOk(next, st, logs, crew, due)
    requires s in crew
    requires forall t :: t in crew && t != s ==>
               t in st2.sessions && st2.sessions[t] == st.sessions[t] && (t in due2 <==> t in due)
    requires forall j :: j in logs && j != crew[s].job ==> j in logs2 && logs2[j] == logs[j]
    ensures CrewOk(next, st2, logs2, crew - {s}, due2)
  {
    forall t | t in crew && t != s
      ensures GenOk(next, st2.sessions[t], logs2[crew[t].job], crew[t], t in due2)
    {
      OneJobEach(next, st, logs, crew, due, s, t);
    }
  }

  /** A change outside the crew. */
  lemma CrewAside(next: Net, st: State, st2: State, logs: Logs, logs2: Logs, crew: Crew, due: set<SessionId>, j: JobId)
    requires CrewOk(next, st, logs, crew, due)
    requires forall s :: s in crew ==> s in st2.sessions && st2.sessions[s] == st.sessions[s]
    requires forall k :: k in logs && k != j ==> k in logs2 && logs2[k] == logs[k]
    requires j in logs ==> !logs[j].state.Live?
    ensures CrewOk(next, st2, logs2, crew, due)
  {
    hide Counted, Owner, NoEosBefore;
  }

  lemma CrewJoin(next: Net, st: State, logs: Logs, crew: Crew, g: Gen, due: set<SessionId>)
    requires CrewOk(next, st, logs, crew, due)
    requires g.session !in crew && g.session in st.sessions && g.job in logs
    requires GenOk(next, st.sessions[g.session], logs[g.job], g, g.session in due)
    ensures CrewOk(next, st, logs, crew[g.session := g], due)
  {
    hide GenOk;
  }

  lemma JobsTouch(next: Net, logs: Logs, logs2: Logs, queue: seq<JobId>, open: set<JobId>, open2: set<JobId>,
      crew: Crew, crew2: Crew, j: JobId)
    requires JobsOk(next, logs, queue, open, crew)
    requires j in logs && logs[j].state != Queued && logs2.Keys == logs.Keys
    requires forall k :: k in logs && k != j ==> logs2[k] == logs[k] && (k in open ==> k in open2)
    requires forall s :: s in crew && crew[s].job != j ==> s in crew2 && crew2[s].job == crew[s].job
    requires logs2[j].state != Queued && JobOk(next, logs2[j], j, queue, open2, crew2)
    ensures JobsOk(next, logs2, queue, open2, crew2)
  {
    hide EndedOk;
  }
}
