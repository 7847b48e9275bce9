/** The worker thread that owns the engine, its sessions and the batch group. */
module Scheduler {
  import opened Strings
  import opened Events
  import opened Reference
  import opened EngineModel
  import opened SchedulerState
  import opened SchedulerWorld
  import opened SchedulerQuantum
  import opened SchedulerBatch
  import opened SchedulerMoves
  import opened SchedulerTurns

  class Worker {
    const engine: Engine
    const maxSessions: nat
    const batching: bool
    var idle: seq<SessionId>
    var active: seq<Gen>
    var queue: seq<JobId>
    var logs: Logs
    /** The jobs whose clients have raised the cancel flag; they may raise it at any time. */
    var raised: set<JobId>
    ghost var crew: Crew
    ghost var loose: set<SessionId>
    ghost var open: set<JobId>
    ghost var due: set<SessionId>

    constructor (engine: Engine, maxSessions: nat, batching: bool)
      requires 1 <= maxSessions && engine.st == State(map[], None)
      ensures this.engine == engine && this.maxSessions == maxSessions && this.batching == batching
      ensures Calm(W()) && logs == map[] && idle == [] && active == [] && queue == [] && crew == map[]
      ensures raised == {}
    {
      this.engine, this.maxSessions, this.batching := engine, maxSessions, batching;
      idle, active, queue, logs, raised := [], [], [], map[], {};
      crew, loose, open, due := map[], {}, {}, {};
    }

    ghost function W(): World
      reads this, engine
    {
      World(engine.next, maxSessions, engine.st, idle, queue, logs, crew, loose, open, due, raised)
    }

    /** Reads a job's cancel flag. */
    method Look(j: JobId) returns (cancelled: bool)
      modifies `raised
      ensures old(raised) <= raised && (cancelled <==> j in raised)
    {
      var more: set<JobId> := *;
      raised := raised + more;
      cancelled := j in raised;
    }

    method TrySend(j: JobId, ev: GenEvent) returns (r: SendResult)
      requires j in logs
      modifies `logs
      ensures logs.Keys == old(logs).Keys && forall k :: k in logs && k != j ==> logs[k] == old(logs)[k]
      ensures SendDone(old(logs)[j], logs[j], ev, r)
    {
      var full: bool, gone: bool := *, *;
      if gone || logs[j].closed {
        logs := logs[j := logs[j].(closed := true)];
        return Closed;
      }
      if full {
        return Full;
      }
      logs := logs[j := logs[j].(events := logs[j].events + [ev])];
      r := Sent;
    }

    /** Waits for room, so it only fails when the receiver is gone. */
    method BlockingSend(j: JobId, ev: GenEvent) returns (r: SendResult)
      requires j in logs
      modifies `logs
      ensures logs.Keys == old(logs).Keys && forall k :: k in logs && k != j ==> logs[k] == old(logs)[k]
      ensures r != Full && SendDone(old(logs)[j], logs[j], ev, r)
    {
      var gone: bool := *;
      if gone || logs[j].closed {
        logs := logs[j := logs[j].(closed := true)];
        r := Closed;
      } else {
        logs := logs[j := logs[j].(events := logs[j].events + [ev])];
        r := Sent;
      }
    }

    /** Gives stream `g` up: it is no longer on board, its session and job are in hand. */
    method GiveUp(ghost w: World, g: Gen, h: Gen, finish: Finish)
      requires Ok(w) && OnBoard(w, g) && Amid(w, W(), g)
      requires h.session == g.session && h.job == g.job
      requires g.session in engine.st.sessions && g.job in logs
      requires EndOk(engine.next, engine.st.sessions[g.session], logs[g.job].(state := InHand), h, finish)
      requires logs[g.job].asked ==> g.job in raised
      modifies `logs, `crew, `loose, `open, `due
      ensures Left(w, W(), g) && Ok(W()) && GivenUp(W(), h, finish)
    {
      hide EndOk, StateOk, Ok;
      logs := logs[g.job := logs[g.job].(state := InHand)];
      crew, loose, open, due := crew - {g.session}, loose + {g.session}, open + {g.job}, due - {g.session};
      assert Left(w, W(), g);
      LeftOk(w, W(), g);
    }

    /** Stream `g` stays on board as `h`; `decided` if the engine owes it a feed. */
    method GoOn(ghost w: World, g: Gen, h: Gen, ghost decided: bool)
      requires Ok(w) && OnBoard(w, g) && Amid(w, W(), g)
      requires h.session == g.session && h.job == g.job
      requires g.session in engine.st.sessions && g.job in logs
      requires GenOk(engine.next, engine.st.sessions[g.session], logs[g.job], h, decided)
      modifies `crew, `due
      ensures Kept(w, W(), g, h) && Ok(W()) && OnBoard(W(), h) && (g.session in due <==> decided)
    {
      hide GenOk, StateOk, Ok;
      PoolState(w);
      crew, due := crew[h.session := h], if decided then due + {h.session} else due - {h.session};
      assert Kept(w, W(), g, h);
      KeptOk(w, W(), g, h);
    }

    method FeedToken(g: Gen, token: Token) returns (h: Gen, r: StepResult)
      requires Ok(W()) && OnBoard(W(), g) && g.session in due
      requires g.job in logs && token == TokenAt(engine.next, logs[g.job].job.prompt, g.generated)
      modifies `logs, `crew, `loose, `open, `due
      ensures Advanced(old(W()), W(), g, h, r) && h.held == g.held && (r.Over? ==> !r.finish.ByFailure?)
      ensures !r.Over? ==> h.generated == g.generated + 1
    {
      hide GenOk, EndOk, IsEos, TokenAt, StateOk, Ok, GivenUp;
      hide Local, Advanced, Kept, Left, Amid, SendDone;
      ghost var w := W();
      OnBoardFacts(w, g);
      PoolState(w);
      h := g;
      FeedEnds(engine.next, engine.st.sessions[g.session], logs[g.job], logs[g.job].(closed := true), g, token);
      if IsEos(token) {
        AmidSelf(w, g);
        GiveUp(w, g, h, ByEos);
        GoneAdvanced(w, W(), g, h, ByEos);
        return h, Over(ByEos);
      }
      h := h.(generated := h.generated + 1);
      var sent := TrySend(h.job, GenEvent.Token(token));
      SentAmid(w, W(), g, GenEvent.Token(token), sent);
      match sent {
        case Sent =>
        case Full =>
          h := h.(pending := Some(token));
        case Closed =>
          SentClosed(w.logs[g.job], logs[g.job], GenEvent.Token(token));
          GiveUp(w, g, h, ByCancel);
          GoneAdvanced(w, W(), g, h, ByCancel);
          return h, Over(ByCancel);
      }
      FeedGoesOn(engine.next, engine.st.sessions[g.session], w.logs[g.job], logs[g.job], g, h, token, sent);
      if sent == Sent && h.generated >= h.config.maxNew {
        GiveUp(w, g, h, ByLength);
        GoneAdvanced(w, W(), g, h, ByLength);
        return h, Over(ByLength);
      }
      GoOn(w, g, h, false);
      r := if sent == Full then Yield else Continue;
      OnAdvanced(w, W(), g, h, r);
    }

    /** One solo step of a stream: cancellation first, then the withheld token, then a
        decode. */
    method Step(g: Gen) returns (h: Gen, r: StepResult)
      requires Ok(W()) && OnBoard(W(), g) && g.slot.None? && g.session !in due
      modifies `logs, `crew, `loose, `open, `due, `raised, engine`st
      ensures Advanced(old(W()), W(), g, h, r) && h.held == g.held
      ensures g.job in old(raised) ==> r == Over(ByCancel) && h == g && engine.st == old(engine.st)
      ensures r.Over? && r.finish.ByFailure? ==> r.finish.message == "decode_one"
    {
      hide GenOk, EndOk, IsEos, TokenAt, StateOk, Ok, GivenUp, Limit, Moved;
      ghost var w := W();
      OnBoardFacts(w, g);
      LiveFacts(w.next, w.st.sessions[g.session], w.logs[g.job], g, false);
      PoolState(w);
      h := g;
      var cancelled := Look(g.job);
      if cancelled {
        AskedEnds(engine.next, engine.st.sessions[g.session], logs[g.job], g);
        logs := logs[g.job := logs[g.job].(asked := true)];
        GiveUp(w, g, h, ByCancel);
        return h, Over(ByCancel);
      }
      if h.pending.Some? {
        var sent := TrySend(h.job, GenEvent.Token(h.pending.value));
        ResendOutcome(engine.next, engine.st.sessions[g.session], w.logs[g.job], logs[g.job], g, sent);
        match sent {
          case Sent =>
            h := h.(pending := None);
            if h.generated >= h.config.maxNew {
              GiveUp(w, g, h, ByLength);
              return h, Over(ByLength);
            }
          case Full =>
            GoOn(w, g, h, false);
            StillWaits(g);
            return h, Yield;
          case Closed =>
            h := h.(pending := None);
            GiveUp(w, g, h, ByCancel);
            return h, Over(ByCancel);
        }
      }
      h, r := DecodeAndFeed(w, g, h);
    }

    method DecodeFailed(ghost w: World, g: Gen, g1: Gen)
      requires Ok(w) && OnBoard(w, g) && Amid(w, W(), g) && g1 == g.(pending := None)
      requires g.session in engine.st.sessions && g.job in logs
      requires EndOk(engine.next, engine.st.sessions[g.session], logs[g.job].(fault := true, state := InHand), g1,
                 ByFailure("decode_one")) && !logs[g.job].asked
      modifies `logs, `crew, `loose, `open, `due
      ensures Advanced(w, W(), g, g1, Over(ByFailure("decode_one")))
    {
      hide EndOk, StateOk, Ok, GivenUp, Local, Advanced, Left;
      assert StateOk(engine.st) && engine.st.group == w.st.group;
      hide Amid;
      ghost var w2 := W();
      FaultAmid(w2, g);
      logs := logs[g.job := logs[g.job].(fault := true)];
      AmidTwice(w, w2, W(), g);
      GiveUp(w, g, g1, ByFailure("decode_one"));
      GoneAdvanced(w, W(), g, g1, ByFailure("decode_one"));
    }

    /** The solo decode of a stream with nothing withheld; a failure gives it up. */
    method Decode(ghost w: World, g: Gen, g1: Gen) returns (token: Option<Token>)
      requires Ok(w) && OnBoard(w, g) && Amid(w, W(), g) && W().st == w.st
      requires g1 == g.(pending := None) && g.slot.None?
      requires g.session in engine.st.sessions && g.job in logs
      requires GenOk(engine.next, engine.st.sessions[g.session], logs[g.job], g1, false)
      modifies `logs, `crew, `loose, `open, `due, engine`st
      ensures engine.st.group == old(engine.st.group)
      ensures token.None? ==> Advanced(w, W(), g, g1, Over(ByFailure("decode_one")))
      ensures token.Some? ==>
                && Ok(W()) && Kept(w, W(), g, g1) && OnBoard(W(), g1) && g.session in due
                && g.job in logs && token.value == TokenAt(engine.next, logs[g.job].job.prompt, g.generated)
    {
      hide GenOk, EndOk, IsEos, TokenAt, StateOk, Ok, GivenUp, Limit;
      hide Local, Advanced, Moved, Kept, Left, Called, Closable;
      assert StateOk(engine.st);
      hide Amid;
      LiveFacts(engine.next, engine.st.sessions[g.session], logs[g.job], g1, false);
      DecodeReady(engine.next, engine.st.sessions[g.session], logs[g.job], g1);
      ghost var w0, se := W(), engine.st.sessions[g.session];
      token := engine.DecodeOne(g.session);
      DecodeOutcome(engine.next, se, engine.st.sessions[g.session], logs[g.job], g1, token.Some?);
      AmidCall(w, w0, W(), g);
      if token.None? {
        DecodeFailed(w, g, g1);
      } else {
        GoOn(w, g, g1, true);
      }
    }

    method DecodeAndFeed(ghost w: World, g: Gen, g1: Gen) returns (h: Gen, r: StepResult)
      requires Ok(w) && OnBoard(w, g) && Amid(w, W(), g) && W().st == w.st
      requires g1 == g.(pending := None) && g.slot.None?
      requires g.session in engine.st.sessions && g.job in logs
      requires GenOk(engine.next, engine.st.sessions[g.session], logs[g.job], g1, false)
      modifies `logs, `crew, `loose, `open, `due, engine`st
      ensures Advanced(w, W(), g, h, r) && h.held == g.held
      ensures r.Over? && r.finish.ByFailure? ==> r.finish.message == "decode_one"
    {
      hide GenOk, EndOk, IsEos, TokenAt, StateOk, Ok, GivenUp, Limit;
      hide Local, Advanced, Moved, Kept, Left, Amid;
      var token := Decode(w, g, g1);
      if token.None? {
        return g1, Over(ByFailure("decode_one"));
      }
      ghost var w1 := W();
      h, r := FeedToken(g1, token.value);
      AdvancedAfter(w, w1, W(), g, g1, h, r);
    }

    /** Serving waits for room in the channel, shutting down never does. */
    method Send(j: JobId, ev: GenEvent, mode: RetireMode) returns (r: SendResult)
      requires j in logs
      modifies `logs
      ensures logs.Keys == old(logs).Keys && forall k :: k in logs && k != j ==> logs[k] == old(logs)[k]
      ensures SendDone(old(logs)[j], logs[j], ev, r) && (mode == Serving ==> r != Full)
    {
      match mode
      case Serving => r := BlockingSend(j, ev);
      case Shutdown => r := TrySend(j, ev);
    }

    /** The guard never drops a session: there is always room in the pool. */
    method ReturnSession(s: SessionId)
      requires |idle| + |active| < maxSessions
      modifies `idle
      ensures idle == old(idle) + [s]
    {
      if |idle| + |active| < maxSessions {
        idle := idle + [s];
      }
    }

    /** The reset that ends a job's use of a session, then back to the pool. */
    method RestSession(s: SessionId, j: JobId)
      requires StateOk(engine.st) && s in engine.st.sessions && Closable(engine.st.sessions[s].phase)
      requires |idle| + |active| < maxSessions && j in logs
      modifies `idle, `loose, `logs, engine`st
      ensures logs == old(logs)[j := old(logs)[j].(resets := old(logs)[j].resets + 1)]
      ensures StateOk(engine.st) && engine.st.group == old(engine.st).group
      ensures engine.st.sessions.Keys == old(engine.st).sessions.Keys
      ensures forall t :: t in engine.st.sessions && t != s ==> engine.st.sessions[t] == old(engine.st).sessions[t]
      ensures s in engine.st.sessions && Rested(engine.st.sessions[s])
      ensures s in old(engine.st).sessions
                && ResetCount(engine.st.sessions[s].trace) == ResetCount(old(engine.st).sessions[s].trace) + 1
      ensures idle == old(idle) + [s] && loose == old(loose) - {s}
    {
      hide StateOk, Called, Rested;
      var _ := engine.ResetSession(s);
      logs := logs[j := logs[j].(resets := logs[j].resets + 1)];
      ReturnSession(s);
      loose := loose - {s};
    }

    /** The withheld token and the terminal event. */
    method TellEnd(g: Gen, finish: Finish, mode: RetireMode, ghost se: Session)
      requires g.job in logs && EndOk(engine.next, se, logs[g.job], g, finish)
      requires mode == Shutdown ==> finish.ByFailure?
      modifies `logs
      ensures logs.Keys == old(logs).Keys && forall k :: k in logs && k != g.job ==> logs[k] == old(logs)[k]
      ensures logs[g.job].state == Ended(finish, g.generated) && logs[g.job].resets == old(logs)[g.job].resets
      ensures logs[g.job].asked == old(logs)[g.job].asked
      ensures EndedOk(engine.next, logs[g.job].(resets := logs[g.job].resets + 1))
    {
      hide EndOk, EndedOk;
      ghost var lg := logs[g.job];
      var flushed := Full;
      if g.pending.Some? {
        flushed := Send(g.job, GenEvent.Token(g.pending.value), mode);
      }
      ghost var lg1 := logs[g.job];
      var sent := Send(g.job, TerminalOf(finish, g.promptTokens, g.generated), mode);
      ClosingOk(engine.next, se, lg, lg1, logs[g.job], g, finish, mode, flushed, sent);
      logs := logs[g.job := logs[g.job].(state := Ended(finish, g.generated))];
    }

    method LeaveGroup(s: SessionId, slot: Option<nat>)
      requires StateOk(engine.st) && s in engine.st.sessions && engine.st.sessions[s].slot == slot
      modifies engine`st
      ensures StateOk(engine.st) && engine.st.sessions.Keys == old(engine.st).sessions.Keys
      ensures forall t :: t in engine.st.sessions && t != s ==> engine.st.sessions[t] == old(engine.st).sessions[t]
      ensures s in engine.st.sessions && OutOfGroup(old(engine.st).sessions[s], engine.st.sessions[s])
      ensures slot.None? ==> engine.st == old(engine.st)
      ensures engine.st.group == GroupWithout(old(engine.st).group, slot)
    {
      hide Replay;
      if slot.Some? {
        SlotFacts(engine.st, s);
        engine.RemoveMember(slot.value);
      }
    }

    /** Settles a stream that was given up: out of the group first, then the withheld
        token and the terminal event, then the second reset and back to the pool. */
    method Retire(g: Gen, finish: Finish, mode: RetireMode)
      requires Ok(W()) && GivenUp(W(), g, finish) && |active| <= |crew|
      requires mode == Shutdown ==> finish.ByFailure?
      modifies `logs, `idle, `loose, `open, engine`st
      ensures Ok(W()) && Settled(old(W()), W(), g.session, g.job)
      ensures g.job in logs && logs[g.job].state == Ended(finish, g.generated)
      ensures engine.st.group == GroupWithout(old(engine.st.group), g.slot)
    {
      hide EndOk, EndedOk, StateOk, Ok, SendDone, GivenUp, Slots, Replay, Called, Rested, ResetCount;
      ghost var w := W();
      PoolState(w);
      RetireFacts(w, g, finish);
      LeaveGroup(g.session, g.slot);
      TellEnd(g, finish, mode, w.st.sessions[g.session]);
      RestSession(g.session, g.job);
      open := open - {g.job};
      GroupLength(w.st.group, g.slot);
      assert Local(w, W(), g.session, g.job);
      hide Local;
      SettledOk(w, W(), g.session, g.job);
    }

    /** Out of the group before any solo call. */
    method Demote(g: Gen) returns (h: Gen)
      requires Ok(W()) && OnBoard(W(), g) && g.session !in due
      modifies `crew, engine`st
      ensures Ok(W()) && h == g.(slot := None) && OnBoard(W(), h) && Kept(old(W()), W(), g, h) && due == old(due)
      ensures engine.st.group == GroupWithout(old(engine.st.group), g.slot)
    {
      hide GenOk, StateOk, Ok, Slots;
      ghost var w := W();
      PoolState(w);
      OnBoardFacts(w, g);
      LiveFacts(w.next, w.st.sessions[g.session], w.logs[g.job], g, false);
      LeaveGroup(g.session, g.slot);
      h := g.(slot := None);
      DemotedOk(w.next, w.st.sessions[g.session], engine.st.sessions[g.session], logs[g.job], g);
      crew := crew[g.session := h];
      GroupLength(w.st.group, g.slot);
      KeptOk(w, W(), g, h);
    }

    /** A job that could not start: `Failed`, and its session, if it has one, is reset
        again and goes back to the pool. */
    method FailIntake(ghost w: World, j: JobId, session: Option<SessionId>, message: string)
      requires Ok(w) && j in w.open && j in w.logs && w.logs[j].state == InHand
      requires j in logs && JustTaken(logs[j], if session.Some? then 1 else 0)
      requires session.None? ==> logs[j].resets == w.logs[j].resets
      requires session.None? ==>
                 && W() == w.(logs := logs) && logs.Keys == w.logs.Keys
                 && forall k :: k in logs && k != j ==> logs[k] == w.logs[k]
      requires session.Some? ==> HandsOn(w, W(), session.value, j) && engine.st.sessions[session.value].phase == Spent
      requires |active| == |crew|
      modifies `logs, `idle, `loose, `open, engine`st
      ensures Ok(W()) && engine.st.group == old(engine.st.group)
      ensures logs.Keys == old(logs).Keys && forall k :: k in logs && k != j ==> logs[k] == old(logs)[k]
      ensures session.None? ==> engine.st == old(engine.st)
      ensures j in logs && logs[j].state == Ended(ByFailure(message), 0) && logs[j].job == old(logs)[j].job
      ensures logs[j].events == if logs[j].closed then [] else [GenEvent.Failed(message)]
      ensures open == w.open - {j} && loose == if session.Some? then w.loose - {session.value} else w.loose
    {
      hide EndedOk, StateOk, Ok, Slots, Rested, JustTaken, ResetCount, Closable;
      TellFailed(j, message, if session.Some? then 1 else 0);
      if session.None? {
        open := open - {j};
        AbandonedOk(w, W(), j);
      } else {
        RestFailed(w, j, session.value);
      }
    }

    method RestFailed(ghost w: World, j: JobId, s: SessionId)
      requires Ok(w) && j in w.open && j in w.logs && w.logs[j].state == InHand && HandsOn(w, W(), s, j)
      requires j in logs && logs[j].state.Ended? && EndedOk(engine.next, logs[j].(resets := 2))
      requires logs[j].resets == 1 && !logs[j].asked
      requires |active| == |crew|
      modifies `logs, `idle, `loose, `open, engine`st
      ensures Ok(W()) && engine.st.group == old(engine.st.group)
      ensures logs == old(logs)[j := old(logs)[j].(resets := 2)]
      ensures open == w.open - {j} && loose == w.loose - {s}
    {
      hide EndedOk, StateOk, Ok, Slots, Rested, ResetCount, Closable;
      HandsFacts(w, W(), s, j);
      RestSession(s, j);
      open := open - {j};
      SettledOk(w, W(), s, j);
    }

    /** Ends the record of a job that could not start; a job with a session is about to
        be reset a second time. */
    method TellFailed(j: JobId, message: string, ghost resets: nat)
      requires j in logs && JustTaken(logs[j], resets) && resets <= 1
      modifies `logs
      ensures logs.Keys == old(logs).Keys && forall k :: k in logs && k != j ==> logs[k] == old(logs)[k]
      ensures EndedOk(engine.next, logs[j].(resets := 2 * resets))
      ensures logs[j].state == Ended(ByFailure(message), 0) && logs[j].resets == resets == old(logs)[j].resets
      ensures !logs[j].asked && logs[j].job == old(logs)[j].job
      ensures logs[j].events == if logs[j].closed then [] else [GenEvent.Failed(message)]
    {
      hide EndedOk;
      ghost var lg := logs[j];
      logs := logs[j := logs[j].(fault := true)];
      var r := BlockingSend(j, Failed(message));
      FailedStart(engine.next, lg, logs[j], message, r, resets);
      logs := logs[j := logs[j].(state := Ended(ByFailure(message), 0))];
    }

    /** Takes a job off the queue and, unless it has waited too long, finds it a session,
        resets and prefills it there and then, and puts it on board. */
    method Intake(late: bool)
      requires Calm(W()) && queue != [] && |active| == |crew| < maxSessions
      modifies this, engine
      ensures Calm(W()) && queue == old(queue)[1..] && engine.st.group == old(engine.st.group)
      ensures Boarded(old(W()), W(), old(active), active)
      ensures Admitted(old(queue)[0], old(logs), logs, crew, old(active), active, late)
      ensures late ==> engine.st == old(engine.st)
      ensures logs[old(queue)[0]].state == Ended(ByFailure("create_session"), 0) ==>
                old(idle) == [] && engine.troubles == old(engine.troubles) + 1
    {
      hide EndedOk, StateOk, Ok, Slots, Rested, JustTaken, Started, Admitted;
      ghost var w := W();
      QueueFacts(w);
      var j := queue[0];
      queue, logs, open := queue[1..], logs[j := logs[j].(state := InHand)], open + {j};
      DequeuedOk(w, W());
      ghost var w1 := W();
      PoolRoom(w1);
      if late {
        FailIntake(w1, j, None, "queue timeout");
        AdmittedFailed(j, w.logs, w1.logs, logs, crew, active, "queue timeout", late);
        return;
      }
      var r := TakeSession();
      if r.None? {
        FailIntake(w1, j, None, "create_session");
        AdmittedFailed(j, w.logs, w1.logs, logs, crew, active, "create_session", late);
        return;
      }
      Start(j, r.value);
      AdmittedStarted(j, r.value, w.logs, w1.logs, logs, crew, old(active), active);
    }

    /** From the pool if it has one, newly created otherwise. */
    method TakeSession() returns (r: Option<SessionId>)
      requires Ok(W()) && loose == {} && |active| == |crew| < maxSessions
      modifies `idle, `loose, engine
      ensures Ok(W()) && engine.st.group == old(engine.st.group)
      ensures r.None? ==> W() == old(W()) && idle == [] && engine.troubles == old(engine.troubles) + 1
      ensures old(idle) != [] ==> engine.st == old(engine.st) && r.Some? && r.value in old(idle)
      ensures r.Some? ==>
                && loose == {r.value} && r.value !in crew
                && r.value in engine.st.sessions && engine.st.sessions[r.value].phase == Idle
    {
      hide StateOk, Ok, Slots, Rested;
      ghost var w := W();
      PoolRoom(w);
      if |idle| > 0 {
        var s := idle[|idle| - 1];
        idle, loose := idle[..|idle| - 1], loose + {s};
        assert w.idle == idle + [s];
        TakenOk(w, W(), s);
        return Some(s);
      }
      r := engine.CreateSession();
      if r.Some? {
        loose := loose + {r.value};
        CreatedOk(w, W(), r.value, engine.st.sessions[r.value]);
      }
    }

    method Start(j: JobId, s: SessionId)
      requires Ok(W()) && loose == {s} && open == {j} && due == {} && s !in crew
      requires s in engine.st.sessions && engine.st.sessions[s].phase == Idle
      requires j in logs && JustTaken(logs[j], 0)
      requires |active| == |crew|
      modifies this, engine`st
      ensures Calm(W()) && queue == old(queue) && engine.st.group == old(engine.st.group)
      ensures Boarded(old(W()), W(), old(active), active)
      ensures logs.Keys == old(logs).Keys && forall k :: k in logs && k != j ==> logs[k] == old(logs)[k]
      ensures Started(j, s, old(logs)[j].job, logs, crew, old(active), active)
    {
      hide EndedOk, StateOk, Ok, Slots, Rested, GenOk, ResetCount, Boarded, Started;
      ghost var w := W();
      PoolState(w);
      var ok := engine.ResetSession(s);
      logs := logs[j := logs[j].(resets := logs[j].resets + 1)];
      if !ok {
        FailIntake(w, j, Some(s), "session reset");
        NotBoarded(w, W(), active, j, s, old(logs)[j].job, "session reset");
        return;
      }
      Prefill(w, j, s);
    }

    method Prefill(ghost w: World, j: JobId, s: SessionId)
      requires Ok(w) && w.loose == {s} && w.open == {j} && w.due == {} && s !in w.crew && j in w.logs
      requires w.logs[j].state == InHand && Prepared(w, W(), s, j) && |active| == |crew|
      modifies `logs, `idle, `crew, `loose, `open, `active, engine`st
      ensures Calm(W()) && queue == old(queue) && engine.st.group == old(engine.st.group)
      ensures Boarded(w, W(), old(active), active)
      ensures logs.Keys == old(logs).Keys && forall k :: k in logs && k != j ==> logs[k] == old(logs)[k]
      ensures j in old(logs) && Started(j, s, old(logs)[j].job, logs, crew, old(active), active)
    {
      hide EndedOk, StateOk, Ok, Slots, Rested, GenOk, ResetCount, Alone, JustTaken, HandsOn, Local, Called;
      hide Boarded, Started;
      PreparedFacts(w, W(), s, j);
      ghost var w1 := W();
      var ok := engine.PrefillSession(s, logs[j].job.prompt);
      PrefilledHands(w, w1, W(), s, j, ok);
      ghost var job := logs[j].job;
      if ok {
        Board(w, j, s);
        BoardedNow(w, W(), old(active), active, j, s, job);
      } else {
        FailIntake(w, j, Some(s), "prefill");
        NotBoarded(w, W(), active, j, s, job, "prefill");
      }
    }

    /** The job starts on its prefilled session, at the end of the line. */
    method Board(ghost w: World, j: JobId, s: SessionId)
      requires Ok(w) && w.loose == {s} && w.open == {j} && w.due == {} && s !in w.crew && j in w.logs
                 && w.logs[j].state == InHand
      requires HandsOn(w, W(), s, j)
      requires s in engine.st.sessions && j in logs && JustTaken(logs[j], 1) && Alone(engine.st.sessions[s].trace)
      requires engine.st.sessions[s].phase == Running && engine.st.sessions[s].pos == 0
                 && engine.st.sessions[s].prompt == logs[j].job.prompt
      modifies `logs, `crew, `loose, `open, `active
      ensures Calm(W())
      ensures active == old(active) + [Fresh(s, j, old(logs)[j].job)] && crew == w.crew[s := active[|old(active)|]]
      ensures logs == old(logs)[j := old(logs)[j].(state := Live(s))]
    {
      hide StateOk, Ok, Slots, GenOk, JustTaken;
      var g := Gen(s, j, logs[j].job.config, |logs[j].job.prompt|, 0, None, None, false);
      FreshOk(w.next, engine.st, s, logs[j], g);
      logs := logs[j := logs[j].(state := Live(s))];
      crew, loose, open := crew[s := g], loose - {s}, open - {j};
      JoinedOk(w, W(), g);
      active := active + [g];
    }

    /** What the loop does with a stream that made its move: back in line, or retired. */
    method Settle(ghost w: World, g: Gen, h: Gen, r: StepResult, mode: RetireMode)
      requires w.loose == {} && w.open == {} && |active| < |w.crew|
      requires g.session in w.crew && Advanced(w, W(), g, h, r) && (mode == Shutdown ==> r.Over? && r.finish.ByFailure?)
      modifies `logs, `idle, `active, `loose, `open, engine`st
      ensures Went(w, W(), old(active), active, g, if r.Over? then None else Some(h))
      ensures r.Over? ==> g.job in logs && logs[g.job].state == Ended(r.finish, h.generated)
    {
      hide Ok, GivenUp, EndedOk, Moved, Local, Went, Settled;
      if r.Over? {
        ghost var w1 := W();
        LeftCount(w, w1, g);
        Retire(h, r.finish, mode);
        WentOff(w, w1, W(), active, g);
      } else {
        active := active + [h];
        WentOn(w, W(), old(active), g, h, r);
      }
    }

    /** Out of the group if need be, one solo step, back in line or retired. */
    method Advance(g: Gen) returns (ghost kept: Option<Gen>)
      requires Calm(W()) && OnBoard(W(), g) && |active| < |crew|
      modifies this, engine`st
      ensures Went(old(W()), W(), old(active), active, g, kept)
      ensures kept.Some? ==> kept.value.slot.None? && kept.value.held == g.held
      ensures g.job in old(raised) ==>
                kept.None? && g.job in logs && logs[g.job].state == Ended(ByCancel, g.generated)
    {
      hide Ok, GivenUp, Local, Moved;
      ghost var w := W();
      var h := Demote(g);
      ghost var w1 := W();
      assert |w1.crew| == |w.crew| by { assert w1.crew.Keys == w.crew.Keys; }
      var h2, r := Step(h);
      Settle(w1, h, h2, r, Serving);
      kept := if r.Over? then None else Some(h2);
      WentAfterSlot(w, w1, W(), old(active), active, g, h, kept);
    }

    /** The streams of `gens` one after the other; those of `rest` wait. */
    method AdvanceAll(gens: seq<Gen>, ghost start: Crew, ghost rest: multiset<Gen>)
      requires Calm(W()) && Underway(start, crew, logs, active, multiset(gens) + rest)
      modifies this, engine`st
      ensures Calm(W()) && queue == old(queue) && Underway(start, crew, logs, active, rest)
      ensures Turned(old(active), active, Line(gens), start, crew) && Onward(old(W()), W())
      ensures forall g :: g in active ==> g in old(active) || g.slot.None?
      ensures Heeded(gens, old(raised), logs)
    {
      hide Ok, Underway, Local, Moved, GenOk, Turned, Onward, Heeded, SettledStay;
      var i := 0;
      assert gens[0..] == gens;
      ghost var w0, line0 := W(), active;
      NobodyTurned(start, crew, active, gens);
      OnwardSelf(w0);
      NobodyHeeded(gens, w0.raised, logs);
      while i < |gens|
        invariant 0 <= i <= |gens|
        invariant Calm(W()) && queue == old(queue) && Underway(start, crew, logs, active, multiset(gens[i..]) + rest)
        invariant Turned(line0, active, Line(gens[..i]), start, crew) && Onward(w0, W())
        invariant forall g :: g in active ==> g in old(active) || g.slot.None?
        invariant Heeded(gens[..i], w0.raised, logs)
      {
        ghost var w, line := W(), active;
        assert gens[i..] == [gens[i]] + gens[i + 1..];
        assert multiset(gens[i..]) + rest - multiset{gens[i]} == multiset(gens[i + 1..]) + rest;
        UnderwayRoom(start, crew, logs, active, multiset(gens[i..]) + rest, gens[i]);
        ghost var kept := Advance(gens[i]);
        UnderwayWent(start, w, W(), line, active, multiset(gens[i..]) + rest, gens[i], kept);
        TurnedMore(start, w, W(), line0, line, active, gens, i, multiset(gens[i..]) + rest, kept);
        OnwardWent(w0, w, W(), line, active, gens[i], kept);
        HeededMore(w, W(), line, active, gens, i, w0.raised, kept);
        i := i + 1;
      }
      assert gens[..i] == gens && multiset(gens[i..]) + rest == rest;
    }

    predicate WantsBatch(g: Gen) {
      batching && engine.supportsBatch && g.pending.None? && g.config.greedy
    }

    method GoSolo(g: Gen, ghost start: Crew, ghost todo: multiset<Gen>) returns (h: Gen)
      requires Calm(W()) && Underway(start, crew, logs, [], todo) && g in todo
      modifies `crew, engine`st
      ensures Calm(W()) && h == g.(slot := None) && crew.Keys == old(crew).Keys
      ensures Underway(start, crew, logs, [], todo - multiset{g} + multiset{h})
    {
      hide Ok, Underway, Local, GroupWithout;
      ghost var crew0 := crew;
      UnderwayRoom(start, crew, logs, [], todo, g);
      h := Demote(g);
      UnderwaySlot(start, crew0, logs, [], todo, g, h);
    }

    /** Greedy streams with nothing withheld go to the batch while it has room, all
        others leave the group and go solo; both in line order. */
    method Sort() returns (solo: seq<Gen>, batch: seq<Gen>)
      requires Calm(W()) && Roster(multiset(active), crew)
      modifies `active, `crew, engine`st
      ensures Calm(W()) && active == [] && crew.Keys == old(crew).Keys
      ensures Underway(old(crew), crew, logs, [], multiset(solo) + multiset(batch))
      ensures forall g :: g in solo ==> g.slot.None?
      ensures |batch| <= Slots(maxSessions)
      ensures forall g :: g in batch ==> batching && engine.supportsBatch && g.pending.None? && g.config.greedy
      ensures |batch| < Slots(maxSessions) && batching && engine.supportsBatch ==>
                forall g :: g in solo ==> g.pending.Some? || !g.config.greedy
      ensures batch == Picked(old(active), batching && engine.supportsBatch, Slots(maxSessions))
      ensures solo == Passed(old(active), batching && engine.supportsBatch, Slots(maxSessions))
    {
      hide Ok, Underway, Roster, Slots, StateOk, GenOk, Ready, Picked, Passed, Calm;
      ghost var start, line, on := crew, active, batching && engine.supportsBatch;
      AtStart(crew, logs, multiset(active));
      solo, batch := [], [];
      NonePicked(line, on, Slots(maxSessions));
      assert multiset(line) == multiset(line[0..]) + multiset(solo) + multiset(batch) by { assert line[0..] == line; }
      for i := 0 to |active|
        invariant |active| == |line| - i && active == line[i..]
        invariant Calm(W()) && crew.Keys == start.Keys
        invariant Underway(start, crew, logs, [], multiset(line[i..]) + multiset(solo) + multiset(batch))
        invariant batch == Picked(line[..i], on, Slots(maxSessions))
                    && solo == Passed(line[..i], on, Slots(maxSessions))
      {
        var g := active[0];
        active := active[1..];
        solo, batch := Place(g, solo, batch, start, line, i);
      }
      assert line[..|line|] == line;
      assert multiset(line[|line|..]) + multiset(solo) + multiset(batch) == multiset(solo) + multiset(batch);
      PickedMeaning(line, on, Slots(maxSessions));
    }

    method Place(g: Gen, solo0: seq<Gen>, batch0: seq<Gen>, ghost start: Crew, ghost line: seq<Gen>, ghost i: nat)
      returns (solo: seq<Gen>, batch: seq<Gen>)
      requires Calm(W()) && i < |line| && g == line[i]
      requires Underway(start, crew, logs, [], multiset(line[i..]) + multiset(solo0) + multiset(batch0))
      requires batch0 == Picked(line[..i], batching && engine.supportsBatch, Slots(maxSessions))
      requires solo0 == Passed(line[..i], batching && engine.supportsBatch, Slots(maxSessions))
      modifies `crew, engine`st
      ensures Calm(W()) && crew.Keys == old(crew).Keys
      ensures Underway(start, crew, logs, [], multiset(line[i + 1..]) + multiset(solo) + multiset(batch))
      ensures batch == Picked(line[..i + 1], batching && engine.supportsBatch, Slots(maxSessions))
      ensures solo == Passed(line[..i + 1], batching && engine.supportsBatch, Slots(maxSessions))
    {
      hide Ok, Underway, Slots, GenOk, Ready, Picked, Passed, Calm;
      assert line[i..] == [g] + line[i + 1..];
      PickedMore(line, i, batching && engine.supportsBatch, Slots(maxSessions));
      Regroup(g, g.(slot := None), line[i + 1..], solo0, batch0);
      solo, batch := solo0, batch0;
      if WantsBatch(g) && |batch| < Slots(maxSessions) {
        batch := batch + [g];
      } else {
        var h := GoSolo(g, start, multiset(line[i..]) + multiset(solo0) + multiset(batch0));
        solo := solo + [h];
      }
    }

    /** A stream that is alone in its batch waits one quantum for company, once; after
        that it goes solo. */
    method HoldLone(solo0: seq<Gen>, batch0: seq<Gen>, ghost start: Crew) returns (solo: seq<Gen>, batch: seq<Gen>)
      requires Calm(W()) && active == [] && Underway(start, crew, logs, [], multiset(solo0) + multiset(batch0))
      requires (forall g :: g in solo0 ==> g.slot.None?) && forall g :: g in batch0 ==> g.pending.None?
      modifies `active, `crew, engine`st
      ensures Calm(W()) && Underway(start, crew, logs, active, multiset(solo) + multiset(batch))
      ensures crew.Keys == old(crew).Keys
      ensures forall g :: g in solo ==> g.slot.None?
      ensures batch == if |batch0| == 1 then [] else batch0
      ensures active == if |batch0| == 1 && !batch0[0].held then [batch0[0].(held := true)] else []
      ensures solo == if |batch0| == 1 && batch0[0].held then solo0 + [batch0[0].(slot := None)] else solo0
    {
      hide Ok, Underway, Local, Slots;
      solo, batch := solo0, batch0;
      if |batch| == 1 {
        var g := batch[0];
        ghost var w, todo := W(), multiset(solo0) + multiset(batch0);
        UnderwayRoom(start, crew, logs, [], todo, g);
        batch := [];
        if !g.held {
          var h := g.(held := true);
          Hold(g, h);
          active := active + [h];
          UnderwayWent(start, w, W(), [], active, todo, g, Some(h));
          assert todo - multiset{g} == multiset(solo) + multiset(batch);
        } else {
          var h := GoSolo(g, start, todo);
          solo := solo + [h];
          assert todo - multiset{g} + multiset{h} == multiset(solo) + multiset(batch);
        }
      }
    }

    ghost method Hold(g: Gen, h: Gen)
      requires Calm(W()) && OnBoard(W(), g) && g.pending.None? && !g.held && h == g.(held := true)
      modifies `crew
      ensures Went(old(W()), W(), [], [h], g, Some(h)) && Calm(W())
    {
      hide Ok, GenOk, Slots;
      ghost var w := W();
      OnBoardFacts(w, g);
      PoolState(w);
      HeldOk(w.next, w.st.sessions[g.session], w.logs[g.job], g, h);
      crew := crew[g.session := h];
      KeptOk(w, W(), g, h);
      assert [] + [h] == [h];
    }

    /** The check each batched stream gets in place of a solo step's first one. */
    method DropCancelled(batch0: seq<Gen>, ghost start: Crew) returns (batch: seq<Gen>)
      requires Calm(W()) && Underway(start, crew, logs, active, multiset(batch0))
      modifies this, engine`st
      ensures Calm(W()) && queue == old(queue) && active == old(active)
      ensures Underway(start, crew, logs, active, multiset(batch)) && Onward(old(W()), W())
      ensures |batch| <= |batch0| && (forall g :: g in batch ==> g in batch0 && g.job !in old(raised))
      ensures Line(batch) == Still(Line(batch0), crew)
      ensures Heeded(batch0, old(raised), logs)
      ensures (forall g :: g in batch0 ==> g.job !in raised) ==> batch == batch0
    {
      hide Ok, Underway, Local, Slots, GenOk, Moved, Onward, Heeded, SettledStay, Line, Still, Roster;
      batch := batch0;
      var i := 0;
      ghost var w0, looked := W(), 0;
      OnwardSelf(w0);
      NobodyHeeded(batch0, w0.raised, logs);
      NoneStill(batch[..0], crew, w0.raised, logs);
      assert batch0[..0] == batch[..0];
      while i < |batch|
        invariant 0 <= i <= |batch| && i <= looked <= |batch0| && batch[i..] == batch0[looked..]
        invariant Calm(W()) && queue == old(queue) && active == old(active)
        invariant Underway(start, crew, logs, active, multiset(batch)) && Onward(w0, W())
        invariant forall g :: g in batch ==> g in batch0
        invariant forall k :: 0 <= k < i ==> batch[k].job !in w0.raised
        invariant Line(batch[..i]) == Still(Line(batch0[..looked]), crew)
        invariant Heeded(batch0[..looked], w0.raised, logs)
        invariant (forall g :: g in batch0 ==> g.job !in raised) ==> batch == batch0 && i == looked
        decreases |batch| - i
      {
        ghost var w1 := W();
        var cancelled := Look(batch[i].job);
        LookedOn(w0, w1, W());
        var g := batch[i];
        assert batch0[looked] == g;
        ghost var w, todo, front := W(), multiset(batch), batch[..i];
        UnderwayRoom(start, crew, logs, active, todo, g);
        if cancelled {
          Without(batch, i);
          FrontDiffers(start, w, active, batch, i);
          batch := batch[..i] + batch[i + 1..];
          Cancel(g);
          UnderwayWent(start, w, W(), active, active, todo, g, None);
          DroppedOne(w0, w, W(), active, batch0, looked, front);
          assert batch[..i] == front;
        } else {
          KeptOne(w, batch0, looked, front, w0.raised);
          assert batch[..i + 1] == front + [g];
          i := i + 1;
        }
        looked := looked + 1;
      }
      assert batch[..i] == batch && batch0[..looked] == batch0;
    }

    method Cancel(g: Gen)
      requires Calm(W()) && OnBoard(W(), g) && |active| < |crew| && g.job in raised
      modifies this, engine`st
      ensures Went(old(W()), W(), active, active, g, None) && active == old(active)
      ensures g.job in logs && logs[g.job].state == Ended(ByCancel, g.generated)
    {
      hide Ok, GenOk, EndOk, EndedOk, Slots, Went, GivenUp, Local;
      ghost var w := W();
      OnBoardFacts(w, g);
      PoolState(w);
      AskedEnds(engine.next, engine.st.sessions[g.session], logs[g.job], g);
      AskedAmid(w, g);
      logs := logs[g.job := logs[g.job].(asked := true)];
      GiveUp(w, g, g, ByCancel);
      ghost var w1 := W();
      LeftCount(w, w1, g);
      Retire(g, ByCancel, Serving);
      WentOff(w, w1, W(), active, g);
    }

    method AddToGroup(g: Gen) returns (h: Gen)
      requires Calm(W()) && OnBoard(W(), g) && g.slot.None? && g.config.greedy && engine.st.group.Some?
      requires exists i :: 0 <= i < |engine.st.group.value| && engine.st.group.value[i].None?
      modifies `crew, engine`st, engine`troubles
      ensures engine.troubles == old(engine.troubles) + if h.slot.None? then 1 else 0
      ensures Calm(W()) && h == g.(slot := h.slot) && crew == old(crew)[g.session := h]
      ensures engine.st.group.Some? && |engine.st.group.value| == |old(engine.st).group.value|
    {
      hide Ok, GenOk, StateOk, Slots, Called;
      ghost var w := W();
      PoolState(w);
      OnBoardFacts(w, g);
      LiveFacts(w.next, w.st.sessions[g.session], w.logs[g.job], g, false);
      AddedOk(w.next, w.st.sessions[g.session], w.logs[g.job], g);
      var r := engine.AddMember(g.session);
      h := g.(slot := r);
      crew := crew[g.session := h];
      KeptOk(w, W(), g, h);
    }

    method AddOne(batch0: seq<Gen>, k: nat, ghost start: Crew) returns (batch: seq<Gen>)
      requires Calm(W()) && Underway(start, crew, logs, active, multiset(batch0)) && NoSlots(active)
      requires engine.st.group.Some? && |batch0| <= |engine.st.group.value|
      requires k < |batch0| && batch0[k].slot.None? && batch0[k].config.greedy
      modifies `crew, engine`st, engine`troubles
      ensures crew.Keys == old(crew).Keys
      ensures Calm(W()) && queue == old(queue) && Underway(start, crew, logs, active, multiset(batch))
      ensures engine.st.group.Some? && |engine.st.group.value| == |old(engine.st).group.value|
      ensures |batch| == |batch0| && batch == batch0[k := batch[k]] && SameButSlot(batch0[k], batch[k])
      ensures engine.troubles == old(engine.troubles) + if batch[k].slot.None? then 1 else 0
    {
      hide Ok, Underway, Local, Slots, GenOk;
      ghost var crew0, todo := crew, multiset(batch0);
      var g := batch0[k];
      UnderwayRoom(start, crew, logs, active, todo, g);
      UnderwayRoster(start, crew, logs, active, batch0);
      FreeSlot(W(), active, batch0, k);
      var h := AddToGroup(g);
      batch := batch0[k := h];
      assert multiset(batch) == todo - multiset{g} + multiset{h};
      UnderwaySlot(start, crew0, logs, active, todo, g, h);
    }

    /** Gives every stream of the batch a slot; stops at the first refusal. */
    method AddMissing(batch0: seq<Gen>, ghost start: Crew) returns (batch: seq<Gen>, failed: bool)
      requires Calm(W()) && Underway(start, crew, logs, active, multiset(batch0)) && NoSlots(active)
      requires engine.st.group.Some? && |batch0| <= |engine.st.group.value|
      requires forall g :: g in batch0 ==> g.config.greedy
      modifies `crew, engine`st, engine`troubles
      ensures Calm(W()) && queue == old(queue) && Underway(start, crew, logs, active, multiset(batch))
      ensures engine.troubles == old(engine.troubles) + if failed then 1 else 0
      ensures crew.Keys == old(crew).Keys
      ensures engine.st.group.Some? && |batch| == |batch0|
      ensures forall i :: 0 <= i < |batch| ==> SameButSlot(batch0[i], batch[i])
      ensures !failed ==> forall g :: g in batch ==> g.slot.Some?
    {
      hide Ok, Underway, Local, Slots, GenOk;
      batch, failed := batch0, false;
      var k := 0;
      while k < |batch|
        invariant 0 <= k <= |batch| == |batch0| && !failed && engine.troubles == old(engine.troubles)
        invariant crew.Keys == old(crew).Keys
        invariant Calm(W()) && queue == old(queue) && Underway(start, crew, logs, active, multiset(batch))
        invariant engine.st.group.Some? && |batch0| <= |engine.st.group.value|
        invariant forall i :: 0 <= i < |batch| ==> SameButSlot(batch0[i], batch[i])
        invariant forall i :: 0 <= i < k ==> batch[i].slot.Some?
      {
        if batch[k].slot.None? {
          assert SameButSlot(batch0[k], batch[k]);
          batch := AddOne(batch, k, start);
          if batch[k].slot.None? {
            failed := true;
            break;
          }
        }
        k := k + 1;
      }
    }

    /** One engine call for the whole batch. */
    method StepTogether(batch: seq<Gen>) returns (tokens: Option<seq<Token>>)
      requires BatchView(W(), active, batch) && 2 <= |batch|
      requires forall g :: g in batch ==> g.slot.Some? && g.pending.None? && g.config.greedy
      modifies `due, engine
      ensures engine.groupSteps == old(engine.groupSteps) + 1
      ensures engine.troubles == old(engine.troubles) + if tokens.None? then 1 else 0
      ensures Ok(W()) && due == (if tokens.Some? then Sessions(batch) else {})
      ensures tokens.Some? ==> |tokens.value| == |batch| && TokensFor(engine.next, logs, batch, tokens.value)
    {
      hide Calm, Ok, StateOk, Stepped, Slots, TokenAt, SlotsOf, Roster, NoSlots, IsMember, Distinct;
      ghost var w := W();
      var slots := seq(|batch|, i requires 0 <= i < |batch| && batch[i].slot.Some? => batch[i].slot.value);
      assert SlotsOf(slots, batch) by {
        assert |slots| == |batch| && forall i :: 0 <= i < |batch| ==> batch[i].slot == Some(slots[i]);
        AreSlotsOf(slots, batch);
      }
      SlotsFit(w, active, batch, slots);
      CalmState(w);
      var r := engine.StepGroup(slots, seq(|batch|, i requires 0 <= i < |batch| => batch[i].config));
      ghost var ok := r.Some? && |r.value| == |slots|;
      due := if ok then Sessions(batch) else {};
      BatchStepOk(w, W(), active, batch, slots, ok);
      if r.Some? && |r.value| == |batch| {
        tokens := r;
        TokensFit(w, active, batch, slots, r.value);
      } else {
        tokens := None;
      }
    }

    method FeedOne(gens: seq<Gen>, tokens: seq<Token>, ghost start: Crew) returns (ghost kept: Option<Gen>)
      requires gens != [] && |gens| == |tokens|
      requires Ok(W()) && loose == {} && open == {} && due == Sessions(gens)
      requires Underway(start, crew, logs, active, multiset(gens))
      requires TokensFor(engine.next, logs, gens, tokens)
      modifies this, engine`st
      ensures Ok(W()) && loose == {} && open == {} && queue == old(queue) && due == Sessions(gens[1..])
      ensures Underway(start, crew, logs, active, multiset(gens[1..]))
      ensures TokensFor(engine.next, logs, gens[1..], tokens[1..])
      ensures Went(old(W()), W(), old(active), active, gens[0], kept)
                && (kept.Some? ==> kept.value.held == gens[0].held)
    {
      hide Ok, Underway, Local, Slots, GenOk, Sessions, TokensFor, Advanced, Moved;
      ghost var w, line := W(), active;
      FeedHead(start, w, active, gens, tokens);
      var h, r := FeedToken(gens[0], tokens[0]);
      Settle(w, gens[0], h, r, Serving);
      kept := if r.Over? then None else Some(h);
      FedHead(start, w, W(), line, active, gens, tokens, kept);
    }

    /** After a successful step: each token to its stream, exactly as a solo step would. */
    method FeedAll(batch: seq<Gen>, tokens: seq<Token>, ghost start: Crew)
      requires Ok(W()) && loose == {} && open == {} && due == Sessions(batch)
      requires Underway(start, crew, logs, active, multiset(batch))
      requires |tokens| == |batch| && TokensFor(engine.next, logs, batch, tokens)
      modifies this, engine`st
      ensures Calm(W()) && queue == old(queue) && Underway(start, crew, logs, active, multiset{})
      ensures Turned(old(active), active, Line(batch), start, crew) && Onward(old(W()), W())
    {
      hide Ok, Underway, Local, Slots, GenOk, Sessions, TokensFor, Advanced, Moved, Turned, Onward, Went;
      var i := 0;
      ghost var w0, line0 := W(), active;
      assert batch[0..] == batch && tokens[0..] == tokens;
      NobodyTurned(start, crew, active, batch);
      OnwardSelf(w0);
      while i < |batch|
        invariant 0 <= i <= |batch|
        invariant Ok(W()) && loose == {} && open == {} && queue == old(queue) && due == Sessions(batch[i..])
        invariant Underway(start, crew, logs, active, multiset(batch[i..]))
        invariant TokensFor(engine.next, logs, batch[i..], tokens[i..])
        invariant Turned(line0, active, Line(batch[..i]), start, crew) && Onward(w0, W())
      {
        ghost var w, line := W(), active;
        assert batch[i..][0] == batch[i] && batch[i..][1..] == batch[i + 1..] && tokens[i..][1..] == tokens[i + 1..];
        FeedHead(start, w, line, batch[i..], tokens[i..]);
        ghost var kept := FeedOne(batch[i..], tokens[i..], start);
        TurnedMore(start, w, W(), line0, line, active, batch, i, multiset(batch[i..]), kept);
        OnwardWent(w0, w, W(), line, active, batch[i], kept);
        i := i + 1;
      }
      assert batch[..i] == batch;
      NobodyLeft(batch[i..]);
    }

    /** The group is made the first time two streams can share a step. */
    method MakeGroup() returns (ok: bool)
      requires Calm(W())
      modifies engine`st, engine`troubles
      ensures Calm(W()) && engine.troubles == old(engine.troubles) + if ok then 0 else 1
      ensures ok <==> engine.st.group.Some?
      ensures ok ==> |engine.st.group.value| == Slots(maxSessions)
      ensures old(engine.st).group.Some? || !ok ==> engine.st == old(engine.st)
    {
      hide Ok, StateOk, Slots;
      ghost var w := W();
      PoolState(w);
      ok := true;
      if engine.st.group.None? {
        ok := engine.CreateGroup(Slots(maxSessions));
        GroupOnlyOk(w, W());
      }
    }

    /** One step of the whole batch through the group; if any part of that is refused, all
        of them leave the group and step alone in this quantum. */
    method StepBatch(batch0: seq<Gen>, ghost start: Crew) returns (together: bool)
      requires Calm(W()) && Underway(start, crew, logs, active, multiset(batch0)) && NoSlots(active)
      requires 2 <= |batch0| <= Slots(maxSessions)
      requires forall g :: g in batch0 ==> g.pending.None? && g.config.greedy
      modifies this, engine
      ensures Calm(W()) && queue == old(queue) && Underway(start, crew, logs, active, multiset{})
      ensures Turned(old(active), active, Line(batch0), start, crew) && Onward(old(W()), W())
      ensures engine.groupSteps <= old(engine.groupSteps) + 1
      ensures together ==> engine.groupSteps == old(engine.groupSteps) + 1 && engine.troubles == old(engine.troubles)
      ensures !together ==> engine.troubles == old(engine.troubles) + 1
      ensures !together ==> forall g :: g in active ==> g in old(active) || g.slot.None?
    {
      hide Ok, Underway, Local, Slots, GenOk, Sessions, TokensFor, Moved, NoSlots, SameButSlot, Turned, Onward, Heeded;
      hide Line, Alone, Roster;
      var batch := batch0;
      var tokens: Option<seq<Token>> := None;
      ghost var w0 := W();
      var ok := MakeGroup();
      if ok {
        var failed;
        batch, failed := AddMissing(batch, start);
        AllWant(batch0, batch);
        SameLine(batch0, batch);
        if !failed {
          UnderwayRoster(start, crew, logs, active, batch);
          tokens := StepTogether(batch);
        }
      }
      together := tokens.Some?;
      ghost var w := W();
      SameHere(w0, w);
      if together {
        FeedAll(batch, tokens.value, start);
      } else {
        assert multiset(batch) + multiset{} == multiset(batch);
        AdvanceAll(batch, start, multiset{});
      }
      OnwardTwice(w0, w, W());
    }

    /** One quantum: every stream on board makes one move, and a group nobody is in is
        dropped. */
    method Quantum()
      requires Calm(W()) && Roster(multiset(active), crew)
      modifies this, engine
      ensures Calm(W()) && queue == old(queue) && Roster(multiset(active), crew)
      ensures AllServed(old(crew), crew, logs) && Onward(old(W()), W())
      ensures NoSlots(active) ==> engine.st.group.None?
      ensures
        var on, room := batching && engine.supportsBatch, Slots(maxSessions);
        && Line(active) == Still(Turns(old(active), on, room), crew)
        && (forall g :: g in active && !Steady(old(crew), g) ==> Waits(old(active), on, room))
        && HeededAll(old(crew), old(raised), crew, logs, Waits(old(active), on, room))
      ensures forall g :: g in active && !g.config.greedy ==>
                g.slot.None? && g.session in engine.st.sessions && Alone(engine.st.sessions[g.session].trace)
      ensures engine.groupSteps <= old(engine.groupSteps) + 1
      ensures engine.groupSteps > old(engine.groupSteps) ==>
                batching && engine.supportsBatch && |Ready(old(active))| >= 2
      ensures batching && engine.supportsBatch && |Ready(old(active))| >= 2 ==>
                || engine.groupSteps > old(engine.groupSteps) || engine.troubles > old(engine.troubles)
                || exists g :: g in Ready(old(active)) && g.job in raised
    {
      hide Ok, Underway, Local, Slots, GenOk, Roster, AllServed, NoSlots, Turned, Onward, Heeded, SettledStay, Moved;
      hide Ready, Picked, Passed, Still, Turns, Steady, Line, Waits, HeededAll, Alone, WantsBatch;
      ghost var w0, start, line0 := W(), crew, active;
      ghost var on, room := batching && engine.supportsBatch, Slots(maxSessions);
      LineFits(w0, line0);
      ReadyPicked(line0, on, maxSessions);
      var solo, batch := Sort();
      solo, batch := HoldLone(solo, batch, start);
      ghost var w1, line1, solo1, batch1 := W(), active, solo, batch;
      SameHere(w0, w1);
      AdvanceAll(solo, start, multiset(batch));
      ghost var w2, line2 := W(), active;
      if |batch| >= 2 { ServedNoSlots(active); }
      BatchSegment(batch, start);
      AtEnd(start, crew, logs, active);
      ghost var w3 := W();
      OnwardTwice(w0, w1, w2);
      OnwardTwice(w0, w2, w3);
      InOrder(start, line0, on, room, line1, solo1, batch1, line2, w2.crew, active, crew);
      AllHeeded(start, line0, on, room, line1, solo1, batch1, w0.raised, w1, w2, w3, active);
      DropEmptyGroup();
      SameHere(w3, W());
      OnwardTwice(w0, w3, W());
      SampledAlone(W(), active);
    }

    /** Cancelled streams are taken out; two or more of the others step together, one
        alone steps solo. */
    method BatchSegment(batch0: seq<Gen>, ghost start: Crew)
      requires Calm(W()) && Underway(start, crew, logs, active, multiset(batch0))
      requires |batch0| <= Slots(maxSessions) && (|batch0| >= 2 ==> NoSlots(active))
      requires forall g :: g in batch0 ==> g.pending.None? && g.config.greedy
      modifies this, engine
      ensures Calm(W()) && queue == old(queue) && Underway(start, crew, logs, active, multiset{})
      ensures Turned(old(active), active, Line(batch0), start, crew) && Onward(old(W()), W())
      ensures Heeded(batch0, old(raised), logs)
      ensures engine.groupSteps <= old(engine.groupSteps) + if |batch0| >= 2 then 1 else 0
      ensures |batch0| >= 2 ==>
                || engine.groupSteps > old(engine.groupSteps) || engine.troubles > old(engine.troubles)
                || exists g :: g in batch0 && g.job in raised
    {
      hide Ok, Underway, Local, Slots, GenOk, NoSlots, Turned, Onward, Heeded, SettledStay, Moved, Still, Line, Alone;
      hide Steady, Calm;
      ghost var w0, line0 := W(), active;
      var batch := batch0;
      if |batch| >= 2 {
        batch := DropCancelled(batch, start);
        ghost var w, left := W(), Line(batch);
        if |batch| >= 2 {
          var _ := StepBatch(batch, start);
        } else {
          assert multiset(batch) + multiset{} == multiset(batch);
          AdvanceAll(batch, start, multiset{});
        }
        OnwardTwice(w0, w, W());
        HeededOn(batch0, w0.raised, w, W());
        TurnedLeft(line0, active, Line(batch0), left, start, w.crew, crew);
      } else {
        assert multiset(batch) + multiset{} == multiset(batch);
        AdvanceAll(batch, start, multiset{});
      }
    }

    /** The group goes when no stream holds a slot. */
    method DropEmptyGroup()
      requires Calm(W()) && Roster(multiset(active), crew)
      modifies engine`st
      ensures Calm(W())
      ensures engine.st == if NoSlots(active) then old(engine.st).(group := None) else old(engine.st)
    {
      hide Ok, StateOk, Slots, Roster;
      ghost var w := W();
      PoolState(w);
      if engine.st.group.Some? && forall g :: g in active ==> g.slot.None? {
        NobodyIn(w, active);
        engine.DestroyGroup();
        GroupOnlyOk(w, W());
      }
    }

    /** Ends every stream on board without waiting for anyone. */
    method ShutdownActive()
      requires Calm(W()) && Roster(multiset(active), crew)
      modifies this, engine`st
      ensures Calm(W()) && queue == old(queue) && active == [] && crew == map[] && Roster(multiset(active), crew)
      ensures forall s :: s in old(crew) ==>
                && old(crew)[s].job in logs
                && logs[old(crew)[s].job].state == Ended(ByFailure(SHUTTING_DOWN), old(crew)[s].generated)
    {
      hide Ok, Roster;
      ghost var start := crew;
      while active != []
        invariant Calm(W()) && queue == old(queue) && Roster(multiset(active), crew) && LeftOver(start, crew, logs)
        decreases |active|
      {
        ShutOne(start);
      }
      RosterNone(multiset(active), crew);
    }

    method ShutOne(ghost start: Crew)
      requires Calm(W()) && active != [] && Roster(multiset(active), crew) && LeftOver(start, crew, logs)
      modifies this, engine`st
      ensures Calm(W()) && queue == old(queue) && active == old(active)[1..]
      ensures Roster(multiset(active), crew) && LeftOver(start, crew, logs)
    {
      hide Ok, Went, Roster, LeftOver;
      ghost var w := W();
      var g := active[0];
      RosterHead(w, active);
      active := active[1..];
      Shut(g);
      HeadGone(start, w, W(), old(active), g);
    }

    method Shut(g: Gen)
      requires Calm(W()) && OnBoard(W(), g) && |active| < |crew|
      modifies this, engine`st
      ensures Calm(W()) && Went(old(W()), W(), active, active, g, None) && active == old(active) && queue == old(queue)
      ensures g.job in logs && logs[g.job].state == Ended(ByFailure(SHUTTING_DOWN), g.generated)
    {
      hide Ok, GenOk, EndOk, EndedOk, Slots, GivenUp, Local, Moved;
      ghost var w := W();
      OnBoardFacts(w, g);
      PoolState(w);
      LiveFacts(engine.next, engine.st.sessions[g.session], logs[g.job], g, false);
      ShutEnds(engine.next, engine.st.sessions[g.session], logs[g.job], g, ByFailure(SHUTTING_DOWN));
      FaultAmid(w, g);
      logs := logs[g.job := logs[g.job].(fault := true)];
      GiveUp(w, g, g, ByFailure(SHUTTING_DOWN));
      ghost var w1 := W();
      LeftCount(w, w1, g);
      Retire(g, ByFailure(SHUTTING_DOWN), Shutdown);
      WentOff(w, w1, W(), active, g);
    }

    method Submit(job: Job) returns (j: JobId)
      requires Calm(W()) && Roster(multiset(active), crew)
      modifies `queue, `logs
      ensures Calm(W()) && Roster(multiset(active), crew)
      ensures j !in old(logs) && queue == old(queue) + [j] && j in logs && logs[j].job == job
      ensures logs == old(logs)[j := logs[j]]
    {
      hide Ok, Roster;
      ghost var w := W();
      j :| j !in logs by { Unbounded(logs.Keys); }
      queue, logs := queue + [j], logs[j := JobLog(job, [], false, false, false, 0, Queued)];
      SubmittedOk(w, W(), j, job);
    }

    /** One round of the worker's loop. A blocking receive only returns with a job or
        when all senders are gone; `closing` is raised before that; `late` is whether the
        job at the head of the queue has waited too long. */
    method Round(closing: bool, sendersGone: bool, late: bool) returns (exit: bool)
      requires Calm(W()) && Roster(multiset(active), crew)
      requires sendersGone ==> closing
      requires active == [] ==> queue != [] || sendersGone
      modifies this, engine
      ensures Calm(W()) && Roster(multiset(active), crew)
      ensures AllServed(old(crew), crew, logs)
      ensures exit <==>
                if old(active) == [] then old(queue) == []
                else if |old(active)| < maxSessions then old(queue) == [] && sendersGone
                else closing
      ensures exit ==> closing && active == [] && crew == map[] && queue == old(queue)
      ensures exit ==> forall s :: s in old(crew) ==>
                && old(crew)[s].job in logs
                && logs[old(crew)[s].job].state == Ended(ByFailure(SHUTTING_DOWN), old(crew)[s].generated)
      ensures |old(active)| < maxSessions && old(queue) != [] ==> Taken(old(queue)[0], logs, crew, late)
      ensures exit && |old(active)| < maxSessions ==> queue == []
      ensures closing && |old(active)| == maxSessions ==> exit
      ensures |old(active)| < maxSessions && old(queue) != [] ==> queue == old(queue)[1..]
      ensures queue == old(queue) || (old(queue) != [] && queue == old(queue)[1..])
      ensures |active| + |queue| <= |old(active)| + |old(queue)|
      ensures sendersGone && !exit ==> |queue| < |old(queue)|
    {
      hide Ok, Roster, Moved;
      ghost var w := W();
      PoolRoom(w);
      RosterSize(active, crew);
      if active == [] {
        if queue == [] {
          EmptyServed(w, active);
          return true;
        }
        TakeIn(late);
      } else if |active| < maxSessions {
        if queue != [] {
          TakeIn(late);
        } else if sendersGone {
          ShutdownActive();
          return true;
        }
      } else if closing {
        ShutdownActive();
        return true;
      }
      ghost var start, logs1 := crew, logs;
      RosterSize(active, crew);
      Quantum();
      RosterSize(active, crew);
      FewerOnBoard(start, crew);
      ServedOn(w.crew, start, crew, logs);
      if |old(active)| < maxSessions && old(queue) != [] {
        CrewNames(W());
        TakenMoved(start, crew, logs1, logs, old(queue)[0], late);
      }
      exit := false;
    }

    method TakeIn(late: bool)
      requires Calm(W()) && Roster(multiset(active), crew) && queue != [] && |active| < maxSessions
      modifies this, engine
      ensures Calm(W()) && Roster(multiset(active), crew) && queue == old(queue)[1..]
      ensures |active| <= |old(active)| + 1
      ensures forall s :: s in old(crew) ==> s in crew && crew[s] == old(crew)[s]
      ensures OnTrial(old(queue)[0], logs, crew, late)
    {
      hide Ok, Roster, Boarded;
      ghost var w, line := W(), active;
      RosterSize(active, crew);
      Intake(late);
      BoardedRoster(w, W(), line, active);
    }

    /** Once all senders are gone the worker stops within one round per queued job and
        one more: nobody is on board, the group is gone, and every session ever made is
        back in the pool between two jobs. Whoever is still queued then is left without
        any event: nobody, if the worker had room for all; everybody, if it was full; and
        never more than it lacked room for. */
    method Drain() returns (rounds: nat)
      requires Calm(W()) && Roster(multiset(active), crew)
      modifies this, engine
      ensures Calm(W()) && rounds <= |old(queue)| + 1
      ensures active == [] && crew == map[] && engine.st.group.None?
      ensures |idle| == |engine.st.sessions| <= maxSessions
      ensures forall s :: s in engine.st.sessions ==> s in idle && Rested(engine.st.sessions[s])
      ensures forall j :: j in logs ==> logs[j].state.Ended? || (logs[j].state == Queued && j in queue)
      ensures forall j :: j in queue ==> j in logs && logs[j].state == Queued && logs[j].events == []
      ensures IsTail(queue, old(queue))
      ensures |old(active)| + |old(queue)| <= maxSessions ==>
                queue == [] && forall j :: j in logs ==> logs[j].state.Ended?
      ensures |old(active)| == maxSessions ==> queue == old(queue)
      ensures queue != [] ==> |queue| <= |old(active)| + |old(queue)| - maxSessions
    {
      hide Ok, Roster, EndedOk, Rested, IsTail;
      rounds := LastRounds();
      Rest();
    }

    /** Rounds until the worker's loop ends. */
    method LastRounds() returns (rounds: nat)
      requires Calm(W()) && Roster(multiset(active), crew)
      modifies this, engine
      ensures Calm(W()) && Roster(multiset(active), crew) && active == [] && crew == map[]
      ensures rounds <= |old(queue)| + 1
      ensures IsTail(queue, old(queue))
      ensures |old(active)| == maxSessions ==> queue == old(queue)
      ensures queue != [] ==> |queue| <= |old(active)| + |old(queue)| - maxSessions
    {
      hide Ok, Roster, EndedOk, Rested, Calm;
      ghost var all, room := |active| + |queue|, maxSessions;
      var exit := false;
      rounds := 0;
      assert IsTail(queue, queue);
      hide IsTail;
      while !exit
        invariant Calm(W()) && Roster(multiset(active), crew)
        invariant exit ==> crew == map[] && active == []
        invariant rounds + |queue| <= |old(queue)| + if exit then 1 else 0
        invariant IsTail(queue, old(queue))
        invariant exit ==> queue == [] || |queue| <= all - room
        invariant !exit ==> |active| + |queue| <= all
        invariant exit && |old(active)| == room ==> queue == old(queue)
        invariant !exit && |old(active)| == room ==> active == old(active) && queue == old(queue)
        decreases !exit, |queue|
      {
        LineFits(W(), active);
        ghost var before := queue;
        var late: bool := *;
        exit := Round(true, true, late);
        TailMore(before, queue, old(queue));
        rounds := rounds + 1;
      }
    }

    /** What the worker leaves behind. */
    method Rest()
      requires Calm(W()) && Roster(multiset(active), crew) && active == [] && crew == map[]
      modifies engine`st
      ensures Calm(W()) && engine.st.group.None? && logs == old(logs) && queue == old(queue)
      ensures |idle| == |engine.st.sessions| <= maxSessions
      ensures forall s :: s in engine.st.sessions ==> s in idle && Rested(engine.st.sessions[s])
      ensures forall j :: j in logs ==> logs[j].state.Ended? || (logs[j].state == Queued && j in queue)
      ensures forall j :: j in queue ==> j in logs && logs[j].state == Queued && logs[j].events == []
    {
      hide Ok, Roster, EndedOk, Rested;
      DropEmptyGroup();
      PoolRoom(W());
      AllAtRest(W());
      QueuedSilent(W());
    }

    /** `arrivals[i]` arrive before the i-th round; `closing` may be raised while a
        sender is still there; in the end the senders go. */
    method WorkerLoop(arrivals: seq<seq<Job>>)
      requires Calm(W()) && Roster(multiset(active), crew)
      modifies this, engine
      ensures Calm(W()) && active == [] && crew == map[] && engine.st.group.None?
      ensures |idle| == |engine.st.sessions| <= maxSessions
      ensures forall s :: s in engine.st.sessions ==> s in idle && Rested(engine.st.sessions[s])
      ensures forall j :: j in logs ==> logs[j].state.Ended? || (logs[j].state == Queued && j in queue)
      ensures forall j :: j in queue ==> j in logs && logs[j].state == Queued && logs[j].events == []
    {
      hide Ok, Roster, EndedOk, Rested;
      for i := 0 to |arrivals|
        invariant Calm(W()) && Roster(multiset(active), crew)
      {
        Arrivals(arrivals[i]);
        var closing: bool, late: bool := *, *;
        if active != [] || queue != [] {
          var exit := Round(closing, false, late);
          if exit {
            Rest();
            return;
          }
        }
      }
      var _ := Drain();
    }

    method Arrivals(jobs: seq<Job>)
      requires Calm(W()) && Roster(multiset(active), crew)
      modifies `queue, `logs
      ensures Calm(W()) && Roster(multiset(active), crew)
    {
      hide Ok, Roster;
      for i := 0 to |jobs|
        invariant Calm(W()) && Roster(multiset(active), crew)
      {
        var _ := Submit(jobs[i]);
      }
    }
  }

  /** A worker for one session, two jobs, and the shutdown right after the first round: if
      the first job is still running then, the second is never heard of again. */
  method StrandedJob(next: Net, first: Job, second: Job) returns (worker: Worker, j: JobId, running: bool)
    ensures running ==>
              worker.active == [] && j in worker.logs && worker.logs[j].state == Queued && worker.logs[j].events == []
  {
    hide Ok, Roster;
    var engine := new Engine(next, false);
    worker := new Worker(engine, 1, false);
    EmptyRoster();
    var _ := worker.Submit(first);
    j := worker.Submit(second);
    var exit := worker.Round(false, false, false);
    running := |worker.active| == 1;
    if running {
      assert worker.queue == [j];
      exit := worker.Round(true, true, false);
      QueuedSilent(worker.W());
    }
  }

  /** A full worker whose senders are gone leaves the job it has queued without a word. */
  method StrandedBehind(next: Net, first: Job, second: Job) returns (worker: Worker)
    ensures worker.active == [] && worker.queue == [1] && 1 in worker.logs
    ensures worker.logs[1].state == Queued && worker.logs[1].events == []
  {
    hide Ok, Roster;
    var engine := new Engine(next, false);
    worker := new Worker(engine, 1, false);
    var w := OneBehind(next, first, second);
    engine.st := w.st;
    worker.active, worker.queue, worker.logs, worker.crew := [w.crew[0]], w.queue, w.logs, w.crew;
    OneBehindCalm(next, first, second);
    OneOnBoard(w.crew[0]);
    var _ := worker.Drain();
  }

  lemma OneOnBoard(g: Gen)
    ensures Roster(multiset([g]), map[g.session := g])
  {
  }
}
