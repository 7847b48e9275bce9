/** Whose turn it is: the order of the line through a quantum, the batch it is split into,
    and what becomes of raised cancel flags. */
module SchedulerTurns {
  import opened Strings
  import opened Events
  import opened Reference
  import opened EngineModel
  import opened SchedulerState
  import opened SchedulerWorld
  import opened SchedulerQuantum
  import opened SchedulerBatch
  import opened SchedulerMoves

  function Line(gens: seq<Gen>): seq<SessionId> {
    seq(|gens|, i requires 0 <= i < |gens| => gens[i].session)
  }

  /** Those of a line still on board. */
  ghost function Still(line: seq<SessionId>, crew: Crew): seq<SessionId> {
    if line == [] then []
    else
      var last := line[|line| - 1];
      Still(line[..|line| - 1], crew) + if last in crew then [last] else []
  }

  lemma {:induction false} StillMembers(line: seq<SessionId>, crew: Crew)
    ensures forall s :: s in Still(line, crew) <==> s in line && s in crew
  {
    if line != [] {
      var last := line[|line| - 1];
      StillMembers(line[..|line| - 1], crew);
      assert line == line[..|line| - 1] + [last];
    }
  }

  lemma StillOne(line: seq<SessionId>, s: SessionId, crew: Crew)
    ensures Still(line + [s], crew) == Still(line, crew) + if s in crew then [s] else []
  {
    assert (line + [s])[..|line|] == line;
  }

  lemma LineOne(gens: seq<Gen>, g: Gen)
    ensures Line(gens + [g]) == Line(gens) + [g.session]
  {
  }

  lemma LineJoin(a: seq<Gen>, b: seq<Gen>)
    ensures Line(a + b) == Line(a) + Line(b)
  {
  }

  /** The greedy streams with nothing withheld. */
  ghost function Ready(line: seq<Gen>): (r: seq<Gen>)
    ensures |r| <= |line|
  {
    if line == [] then []
    else
      var last := line[|line| - 1];
      Ready(line[..|line| - 1]) + if last.pending.None? && last.config.greedy then [last] else []
  }

  /** As many of them as there is room for. */
  ghost function Picked(line: seq<Gen>, on: bool, room: nat): seq<Gen> {
    var r := Ready(line);
    if !on then [] else if |r| <= room then r else r[..room]
  }

  /** All the others, out of the group. */
  ghost function Passed(line: seq<Gen>, on: bool, room: nat): seq<Gen> {
    if line == [] then []
    else
      var before, last := line[..|line| - 1], line[|line| - 1];
      Passed(before, on, room)
      + if |Picked(line, on, room)| > |Picked(before, on, room)| then [] else [last.(slot := None)]
  }

  /** The order of the moves: the solo streams and then the batch, but a stream that waits
      for company first. */
  ghost function Turns(line: seq<Gen>, on: bool, room: nat): seq<SessionId> {
    var p, q := Line(Picked(line, on, room)), Line(Passed(line, on, room));
    if Waits(line, on, room) then p + q else q + p
  }

  /** Exactly one stream could be batched, and it has not waited yet. */
  ghost predicate Waits(line: seq<Gen>, on: bool, room: nat) {
    var p := Picked(line, on, room);
    |p| == 1 && !p[0].held
  }

  lemma {:induction false} StillSame(line: seq<SessionId>, crew: Crew, crew2: Crew)
    requires forall s :: s in line ==> (s in crew <==> s in crew2)
    ensures Still(line, crew) == Still(line, crew2)
  {
    if line != [] {
      var front := line[..|line| - 1];
      assert forall s :: s in front ==> s in line;
      StillSame(front, crew, crew2);
      assert line[|line| - 1] in line;
    }
  }

  lemma {:induction false} StillJoin(a: seq<SessionId>, b: seq<SessionId>, crew: Crew)
    ensures Still(a + b, crew) == Still(a, crew) + Still(b, crew)
  {
    if b == [] {
      assert a + b == a;
    } else {
      assert (a + b)[..|a + b| - 1] == a + b[..|b| - 1];
      StillJoin(a, b[..|b| - 1], crew);
    }
  }

  lemma {:induction false} StillAll(line: seq<SessionId>, crew: Crew)
    requires forall s :: s in line ==> s in crew
    ensures Still(line, crew) == line
  {
    if line != [] {
      var front, last := line[..|line| - 1], line[|line| - 1];
      assert line == front + [last] && last in line;
      StillAll(front, crew);
      StillOne(front, last, crew);
    }
  }

  lemma {:induction false} StillTwice(line: seq<SessionId>, crew: Crew, crew2: Crew)
    requires crew2.Keys <= crew.Keys
    ensures Still(Still(line, crew), crew2) == Still(line, crew2)
  {
    if line != [] {
      var front, last := line[..|line| - 1], line[|line| - 1];
      StillTwice(front, crew, crew2);
      assert last in crew2 ==> last in crew2.Keys;
      assert Still(front, crew) + [] == Still(front, crew);
      StillOne(Still(front, crew), last, crew2);
    }
  }

  /** Time passes: settled jobs stay settled, flags stay raised, nobody comes on board. */
  ghost predicate Onward(w: World, w2: World) {
    SettledStay(w.logs, w2.logs) && w.raised <= w2.raised && w2.crew.Keys <= w.crew.Keys
  }

  lemma OnwardSelf(w: World)
    ensures Onward(w, w)
  {
  }

  lemma OnwardTwice(w: World, w1: World, w2: World)
    requires Onward(w, w1) && Onward(w1, w2)
    ensures Onward(w, w2) && w2.crew.Keys <= w1.crew.Keys <= w.crew.Keys && w.raised <= w1.raised <= w2.raised
  {
  }

  lemma OnwardWent(w0: World, w: World, w2: World, line: seq<Gen>, line2: seq<Gen>, g: Gen, kept: Option<Gen>)
    requires Onward(w0, w) && Ok(w) && OnBoard(w, g) && Went(w, w2, line, line2, g, kept)
    ensures Onward(w0, w2) && w0.raised <= w.raised
  {
    hide Ok, Moved, Local;
    WentStays(w, w2, line, line2, g, kept);
    hide SettledStay;
    assert w2.crew.Keys <= w.crew.Keys;
    assert Onward(w, w2);
    OnwardTwice(w0, w, w2);
  }

  /** A look at a flag. */
  lemma LookedOn(w0: World, w: World, w2: World)
    requires Calm(w) && Onward(w0, w) && w2 == w.(raised := w2.raised) && w.raised <= w2.raised
    ensures Calm(w2) && Onward(w0, w2) && w0.raised <= w2.raised
  {
    hide PoolOk, CrewOk, JobsOk, Tally;
  }

  /** Every stream of `gens` whose flag was raised has been cancelled as it was. */
  ghost predicate Heeded(gens: seq<Gen>, raised: set<JobId>, logs: Logs) {
    forall g :: g in gens && g.job in raised ==>
      g.job in logs && logs[g.job].state == Ended(ByCancel, g.generated)
  }

  lemma NobodyHeeded(gens: seq<Gen>, raised: set<JobId>, logs: Logs)
    ensures Heeded(gens[..0], raised, logs)
  {
  }

  lemma HeededMore(w: World, w2: World, line: seq<Gen>, line2: seq<Gen>, gens: seq<Gen>, i: nat,
      raised: set<JobId>, kept: Option<Gen>)
    requires i < |gens| && Heeded(gens[..i], raised, w.logs)
    requires Ok(w) && OnBoard(w, gens[i]) && Went(w, w2, line, line2, gens[i], kept)
    requires gens[i].job in raised ==>
               gens[i].job in w2.logs && w2.logs[gens[i].job].state == Ended(ByCancel, gens[i].generated)
    ensures Heeded(gens[..i + 1], raised, w2.logs)
  {
    hide Ok, Moved, Local;
    WentStays(w, w2, line, line2, gens[i], kept);
    HeededStay(gens[..i], raised, w.logs, w2.logs);
    assert gens[..i + 1] == gens[..i] + [gens[i]];
  }

  lemma HeededStay(gens: seq<Gen>, raised: set<JobId>, logs: Logs, logs2: Logs)
    requires Heeded(gens, raised, logs) && SettledStay(logs, logs2)
    ensures Heeded(gens, raised, logs2)
  {
  }

  /** Every stream whose flag was raised has been cancelled as it was, or is the one that
      waits for company. */
  ghost predicate HeededAll(start: Crew, raised: set<JobId>, crew: Crew, logs: Logs, waits: bool) {
    forall s :: s in start && start[s].job in raised ==>
      || (start[s].job in logs && logs[start[s].job].state == Ended(ByCancel, start[s].generated))
      || (waits && !start[s].held && s in crew && crew[s] == start[s].(held := true))
  }

  /** A job just taken off the queue is on board, unless it was late or failed to start. */
  ghost predicate OnTrial(j: JobId, logs: Logs, crew: Crew, late: bool) {
    j in logs && match logs[j].state
    case Live(s) => !late && s in crew && crew[s] == Fresh(s, j, logs[j].job)
    case Ended(ByFailure(message), n) => n == 0 && (message == "queue timeout" <==> late)
    case _ => false
  }

  /** A round later it has its first token, waits for company, or is settled. */
  ghost predicate Taken(j: JobId, logs: Logs, crew: Crew, late: bool) {
    && j in logs
    && (late ==> logs[j].state == Ended(ByFailure("queue timeout"), 0))
    && (|| logs[j].state.Ended?
        || exists s :: s in crew && crew[s].job == j && (crew[s].generated == 1 || crew[s].held))
  }

  lemma TakenMoved(start: Crew, crew: Crew, logs: Logs, logs2: Logs, j: JobId, late: bool)
    requires OnTrial(j, logs, start, late) && AllServed(start, crew, logs2) && SettledStay(logs, logs2)
    requires forall s :: s in crew ==> crew[s].job in logs2
    ensures Taken(j, logs2, crew, late)
  {
    if logs[j].state.Live? {
      var s := logs[j].state.session;
      assert s in start && start[s] == Fresh(s, j, logs[j].job);
      if s in crew {
        assert Moved(start[s], crew[s]);
      }
    }
  }

  /** Whether it has waited for company has not changed since `start`. */
  ghost predicate Steady(start: Crew, g: Gen) {
    g.session in start && g.held == start[g.session].held
  }

  /** The streams named `names` have made their moves one after the other: those still on
      board stand behind the earlier line in that order. */
  ghost predicate Turned(line0: seq<Gen>, line: seq<Gen>, names: seq<SessionId>, start: Crew, crew: Crew) {
    && |line0| <= |line| && line[..|line0|] == line0
    && Line(line[|line0|..]) == Still(names, crew)
    && forall g :: g in line[|line0|..] ==> Steady(start, g)
  }

  lemma NobodyTurned(start: Crew, crew: Crew, line: seq<Gen>, gens: seq<Gen>)
    ensures Turned(line, line, Line(gens[..0]), start, crew)
  {
  }

  /** Who has made a move is not among those still to come. */
  lemma NotYet(start: Crew, crew: Crew, logs: Logs, line: seq<Gen>, todo: multiset<Gen>, g: Gen)
    requires Underway(start, crew, logs, line, todo) && g in todo
    ensures g.session in crew && g.session !in Line(line) && SameButSlot(start[g.session], g) && g.session in start
    ensures forall s :: s in Line(line) ==> s in crew
  {
    var all := multiset(line) + todo;
    assert g in all;
    forall h | h in line ensures h.session in crew && h.session != g.session {
      assert h in all;
      assert multiset(line)[h] >= 1;
    }
  }

  lemma TurnedMore(start: Crew, w: World, w2: World, line0: seq<Gen>, line: seq<Gen>, line2: seq<Gen>, gens: seq<Gen>,
      i: nat, todo: multiset<Gen>, kept: Option<Gen>)
    requires i < |gens| && gens[i] in todo && Underway(start, w.crew, w.logs, line, todo)
    requires Turned(line0, line, Line(gens[..i]), start, w.crew)
    requires Went(w, w2, line, line2, gens[i], kept) && (kept.Some? ==> kept.value.held == gens[i].held)
    ensures Turned(line0, line2, Line(gens[..i + 1]), start, w2.crew)
  {
    hide Underway, Ok, Local;
    var g, names := gens[i], Line(gens[..i]);
    NotYet(start, w.crew, w.logs, line, todo, g);
    assert gens[..i + 1] == gens[..i] + [g];
    LineOne(gens[..i], g);
    TailNames(line, |line0|);
    StillMembers(names, w.crew);
    hide Still, Line, Steady;
    assert g.session !in names;
    StillSame(names, w.crew, w2.crew);
    StillOne(names, g.session, w2.crew);
    if kept.Some? {
      assert line2[|line0|..] == line[|line0|..] + [kept.value];
      LineOne(line[|line0|..], kept.value);
      assert Steady(start, kept.value) by { HeldAsBefore(start, g, kept.value); }
    }
  }

  lemma TailNames(line: seq<Gen>, n: nat)
    requires n <= |line|
    ensures forall s :: s in Line(line[n..]) ==> s in Line(line)
  {
    assert Line(line[n..]) == Line(line)[n..];
  }

  lemma HeldAsBefore(start: Crew, g: Gen, h: Gen)
    requires g.session in start && SameButSlot(start[g.session], g) && h.session == g.session && h.held == g.held
    ensures Steady(start, h)
  {
  }

  lemma LineDropped(names: seq<SessionId>, gens: seq<Gen>, crew: Crew, crew2: Crew, s: SessionId)
    requires Line(gens) == Still(names, crew) && s in crew && crew2.Keys == crew.Keys - {s}
    requires forall g :: g in gens ==> g.session != s
    ensures Line(gens) == Still(names + [s], crew2)
  {
    StillMembers(names, crew);
    assert s !in Line(gens);
    hide Still, Line;
    assert s !in names;
    assert forall t :: t in names ==> (t in crew <==> t in crew2.Keys);
    StillSame(names, crew, crew2);
    StillOne(names, s, crew2);
  }

  lemma LineKept(names: seq<SessionId>, gens: seq<Gen>, crew: Crew, g: Gen)
    requires Line(gens) == Still(names, crew) && g.session in crew
    ensures Line(gens + [g]) == Still(names + [g.session], crew)
  {
    StillOne(names, g.session, crew);
    LineOne(gens, g);
  }

  lemma SameLine(a: seq<Gen>, b: seq<Gen>)
    requires |a| == |b| && forall i :: 0 <= i < |a| ==> SameButSlot(a[i], b[i])
    ensures Line(a) == Line(b)
  {
  }

  lemma FrontDiffers(start: Crew, w: World, line: seq<Gen>, gens: seq<Gen>, i: nat)
    requires Underway(start, w.crew, w.logs, line, multiset(gens)) && i < |gens|
    ensures forall g :: g in gens[..i] ==> g.session != gens[i].session
  {
    UnderwayRoster(start, w.crew, w.logs, line, gens);
    SessionsDiffer(w, line, gens);
  }

  /** The stream looked at is cancelled. */
  lemma DroppedOne(w0: World, w: World, w2: World, line: seq<Gen>, gens: seq<Gen>, i: nat, front: seq<Gen>)
    requires i < |gens| && Ok(w) && OnBoard(w, gens[i]) && Went(w, w2, line, line, gens[i], None)
    requires Onward(w0, w) && Heeded(gens[..i], w0.raised, w.logs)
    requires gens[i].job in w2.logs && w2.logs[gens[i].job].state == Ended(ByCancel, gens[i].generated)
    requires Line(front) == Still(Line(gens[..i]), w.crew) && forall g :: g in front ==> g.session != gens[i].session
    ensures Onward(w0, w2) && Heeded(gens[..i + 1], w0.raised, w2.logs) && w.raised <= w2.raised
    ensures Line(front) == Still(Line(gens[..i + 1]), w2.crew)
  {
    hide Ok, Heeded, Moved;
    assert w.raised <= w2.raised;
    hide Local;
    OnwardWent(w0, w, w2, line, line, gens[i], None);
    HeededMore(w, w2, line, line, gens, i, w0.raised, None);
    hide Onward;
    assert gens[..i + 1] == gens[..i] + [gens[i]];
    LineOne(gens[..i], gens[i]);
    hide Line, Still;
    assert w2.crew.Keys == w.crew.Keys - {gens[i].session};
    LineDropped(Line(gens[..i]), front, w.crew, w2.crew, gens[i].session);
  }

  /** The stream looked at goes on. */
  lemma KeptOne(w: World, gens: seq<Gen>, i: nat, front: seq<Gen>, raised: set<JobId>)
    requires i < |gens| && OnBoard(w, gens[i]) && gens[i].job !in raised && Heeded(gens[..i], raised, w.logs)
    requires Line(front) == Still(Line(gens[..i]), w.crew)
    ensures Heeded(gens[..i + 1], raised, w.logs)
    ensures Line(front + [gens[i]]) == Still(Line(gens[..i + 1]), w.crew)
  {
    assert gens[..i + 1] == gens[..i] + [gens[i]];
    LineOne(gens[..i], gens[i]);
    LineKept(Line(gens[..i]), front, w.crew, gens[i]);
  }

  /** Slots come and go, nothing else. */
  lemma SameHere(w0: World, w: World)
    requires w.logs == w0.logs && w.raised == w0.raised && w.crew.Keys == w0.crew.Keys
    ensures Onward(w0, w)
  {
  }

  // ---- the whole quantum ----

  lemma {:induction false} ReadyInLine(line: seq<Gen>)
    ensures forall g :: g in Ready(line) ==> g in line && g.pending.None? && g.config.greedy
  {
    if line != [] {
      ReadyInLine(line[..|line| - 1]);
    }
  }

  /** Two are ready for the batch exactly if two are picked. */
  lemma ReadyPicked(line: seq<Gen>, on: bool, max: nat)
    requires |line| <= max
    ensures |Picked(line, on, Slots(max))| >= 2 <==> on && |Ready(line)| >= 2
    ensures forall g :: g in Picked(line, on, Slots(max)) ==> g in Ready(line) && g in line
  {
    ReadyInLine(line);
  }

  lemma Regroup(g: Gen, h: Gen, line: seq<Gen>, solo: seq<Gen>, batch: seq<Gen>)
    ensures
      var todo := multiset([g] + line) + multiset(solo) + multiset(batch);
      && todo == multiset(line) + multiset(solo) + multiset(batch + [g])
      && g in todo
      && todo - multiset{g} + multiset{h} == multiset(line) + multiset(solo + [h]) + multiset(batch)
  {
    assert multiset([g] + line) == multiset{g} + multiset(line);
  }

  lemma NonePicked(line: seq<Gen>, on: bool, room: nat)
    ensures Picked(line[..0], on, room) == [] == Passed(line[..0], on, room)
  {
  }

  lemma PickedMore(line: seq<Gen>, i: nat, on: bool, room: nat)
    requires i < |line|
    ensures
      var p, q, g := Picked(line[..i], on, room), Passed(line[..i], on, room), line[i];
      if on && g.pending.None? && g.config.greedy && |p| < room
      then Picked(line[..i + 1], on, room) == p + [g] && Passed(line[..i + 1], on, room) == q
      else Picked(line[..i + 1], on, room) == p && Passed(line[..i + 1], on, room) == q + [g.(slot := None)]
  {
    assert line[..i + 1][..i] == line[..i];
    var r := Ready(line[..i]);
    assert |r| > room ==> (r + [line[i]])[..room] == r[..room];
    assert |r| == room ==> (r + [line[i]])[..room] == r;
  }

  lemma {:induction false} PickedMeaning(line: seq<Gen>, on: bool, room: nat)
    ensures
      var p, q := Picked(line, on, room), Passed(line, on, room);
      && |p| <= room && (forall g :: g in p ==> on && g.pending.None? && g.config.greedy)
      && (forall g :: g in q ==> g.slot.None?)
      && (|p| < room && on ==> forall g :: g in q ==> g.pending.Some? || !g.config.greedy)
  {
    if line != [] {
      var n := |line| - 1;
      assert line[..n + 1] == line;
      PickedMeaning(line[..n], on, room);
      PickedMore(line, n, on, room);
    }
  }

  lemma NoneStill(gens: seq<Gen>, crew: Crew, raised: set<JobId>, logs: Logs)
    requires gens == []
    ensures Line(gens) == Still(Line(gens), crew) && Heeded(gens, raised, logs)
  {
  }

  /** How the line was split: who waits, who goes solo, who is batched. */
  ghost predicate Split(line0: seq<Gen>, on: bool, room: nat, line1: seq<Gen>, solo: seq<Gen>, batch: seq<Gen>) {
    var p, q := Picked(line0, on, room), Passed(line0, on, room);
    && batch == (if |p| == 1 then [] else p)
    && line1 == (if |p| == 1 && !p[0].held then [p[0].(held := true)] else [])
    && solo == (if |p| == 1 && p[0].held then q + [p[0].(slot := None)] else q)
  }

  /** Names no longer on board may be left out. */
  lemma TurnedLeft(line0: seq<Gen>, line: seq<Gen>, names: seq<SessionId>, left: seq<SessionId>, start: Crew,
      crew1: Crew, crew: Crew)
    requires Turned(line0, line, left, start, crew) && left == Still(names, crew1) && crew.Keys <= crew1.Keys
    ensures Turned(line0, line, names, start, crew)
  {
    hide Still, Line, Steady;
    StillTwice(names, crew1, crew);
  }

  lemma HeededOn(gens: seq<Gen>, raised: set<JobId>, w: World, w2: World)
    requires Heeded(gens, raised, w.logs) && Onward(w, w2)
    ensures Heeded(gens, raised, w2.logs)
  {
    hide SettledStay;
    HeededStay(gens, raised, w.logs, w2.logs);
  }

  /** Two segments of moves, one after the other. */
  lemma TwoSegments(start: Crew, line1: seq<Gen>, line2: seq<Gen>, line4: seq<Gen>, names: seq<SessionId>,
      names2: seq<SessionId>, crew2: Crew, crew4: Crew)
    requires Turned(line1, line2, names, start, crew2) && Turned(line2, line4, names2, start, crew4)
    requires crew4.Keys <= crew2.Keys && forall g :: g in line4 ==> g.session in crew4
    ensures Line(line4) == Line(line1) + (Still(names, crew4) + Still(names2, crew4))
  {
    hide Still, Steady, Line;
    var moved, last := line2[|line1|..], line4[|line2|..];
    assert line4 == line2 + last && line2 == line1 + moved;
    LineJoin(line2, last);
    LineJoin(line1, moved);
    assert forall g :: g in moved ==> g in line2 && g in line4;
    NamesIn(moved, crew4);
    StillAll(Line(moved), crew4);
    StillTwice(names, crew2, crew4);
  }

  lemma TwoSteady(start: Crew, line1: seq<Gen>, line2: seq<Gen>, line4: seq<Gen>, names: seq<SessionId>,
      left: seq<SessionId>, crew2: Crew, crew4: Crew)
    requires Turned(line1, line2, names, start, crew2) && Turned(line2, line4, left, start, crew4)
    ensures |line1| <= |line4| && line4[..|line1|] == line1 && forall g :: g in line4[|line1|..] ==> Steady(start, g)
  {
    hide Still, Steady, Line;
    assert line4[|line1|..] == line2[|line1|..] + line4[|line2|..];
  }

  /** Whoever is still on board stands in the order of the moves. */
  lemma InOrder(start: Crew, line0: seq<Gen>, on: bool, room: nat, line1: seq<Gen>, solo: seq<Gen>, batch: seq<Gen>,
      line2: seq<Gen>, crew2: Crew, line4: seq<Gen>, crew4: Crew)
    requires Split(line0, on, room, line1, solo, batch)
    requires Turned(line1, line2, Line(solo), start, crew2) && Turned(line2, line4, Line(batch), start, crew4)
    requires crew4.Keys <= crew2.Keys && Roster(multiset(line4), crew4)
    ensures Line(line4) == Still(Turns(line0, on, room), crew4)
    ensures |line1| <= |line4| && line4[..|line1|] == line1
    ensures forall g :: g in line4 && !Steady(start, g) ==> Waits(line0, on, room)
  {
    hide Steady, Picked, Passed, Still, Line, Split;
    forall g | g in line4 ensures g.session in crew4 { assert g in multiset(line4); }
    hide Roster;
    TwoSegments(start, line1, line2, line4, Line(solo), Line(batch), crew2, crew4);
    TwoSteady(start, line1, line2, line4, Line(solo), Line(batch), crew2, crew4);
    hide Turned;
    assert line4 == line1 + line4[|line1|..];
    NamesIn(line1, crew4);
    InTurn(line0, on, room, line1, solo, batch, crew4);
  }

  lemma InTurn(line0: seq<Gen>, on: bool, room: nat, line1: seq<Gen>, solo: seq<Gen>, batch: seq<Gen>, crew: Crew)
    requires Split(line0, on, room, line1, solo, batch) && forall s :: s in Line(line1) ==> s in crew
    ensures Line(line1) + (Still(Line(solo), crew) + Still(Line(batch), crew)) == Still(Turns(line0, on, room), crew)
    ensures line1 != [] ==> Waits(line0, on, room)
  {
    LineSplit(line0, on, room, line1, solo, batch);
    hide Picked, Passed, Still, Line, Split;
    StillAll(Line(line1), crew);
    var p, q := Picked(line0, on, room), Passed(line0, on, room);
    if Waits(line0, on, room) {
      StillJoin(Line(p), Line(q), crew);
      EmptyStill(Line(p), Line(q), crew);
    } else {
      StillJoin(Line(q), Line(p), crew);
      StillJoin(Line(solo), Line(batch), crew);
      NoLine();
    }
  }

  lemma NoLine()
    ensures Line([]) == []
  {
  }

  lemma EmptyStill(p: seq<SessionId>, q: seq<SessionId>, crew: Crew)
    ensures p + (Still(q, crew) + Still([], crew)) == p + Still(q, crew)
  {
  }

  lemma NamesIn(gens: seq<Gen>, crew: Crew)
    requires forall g :: g in gens ==> g.session in crew
    ensures forall s :: s in Line(gens) ==> s in crew
  {
  }

  lemma LineSplit(line0: seq<Gen>, on: bool, room: nat, line1: seq<Gen>, solo: seq<Gen>, batch: seq<Gen>)
    requires Split(line0, on, room, line1, solo, batch)
    ensures
      var p, q := Picked(line0, on, room), Passed(line0, on, room);
      && Line(line1) == (if Waits(line0, on, room) then Line(p) else [])
      && (!Waits(line0, on, room) ==> line1 == [])
      && (Waits(line0, on, room) ==> Line(solo) == Line(q) && Line(batch) == [])
      && (!Waits(line0, on, room) ==> Line(solo) + Line(batch) == Line(q) + Line(p))
  {
    hide Picked, Passed;
    var p, q := Picked(line0, on, room), Passed(line0, on, room);
    if |p| == 1 && p[0].held {
      LineOne(q, p[0].(slot := None));
      assert Line(solo) + [] == Line(solo);
    }
  }

  /** Flags raised before the quantum have been heeded. */
  lemma AllHeeded(start: Crew, line0: seq<Gen>, on: bool, room: nat, line1: seq<Gen>, solo: seq<Gen>,
      batch: seq<Gen>, raised0: set<JobId>, w1: World, w2: World, w4: World, line4: seq<Gen>)
    requires Roster(multiset(line0), start) && start.Keys == w1.crew.Keys
    requires Split(line0, on, room, line1, solo, batch)
    requires Underway(start, w1.crew, w1.logs, line1, multiset(solo) + multiset(batch))
    requires raised0 <= w1.raised <= w2.raised
    requires Heeded(solo, w1.raised, w2.logs) && Heeded(batch, w2.raised, w4.logs) && Onward(w2, w4)
    requires |line1| <= |line4| && line4[..|line1|] == line1 && Roster(multiset(line4), w4.crew)
    requires forall g :: g in Picked(line0, on, room) ==> g in line0
    ensures HeededAll(start, raised0, w4.crew, w4.logs, Waits(line0, on, room))
  {
    hide Picked, Passed, Moved;
    HeededOn(solo, w1.raised, w2, w4);
    forall s | s in start && start[s].job in raised0
      ensures
        || (start[s].job in w4.logs && w4.logs[start[s].job].state == Ended(ByCancel, start[s].generated))
        || (Waits(line0, on, room) && !start[s].held && s in w4.crew && w4.crew[s] == start[s].(held := true))
    {
      assert s in w1.crew.Keys;
      var g := w1.crew[s];
      assert g in multiset(line1) + (multiset(solo) + multiset(batch));
      if g in line1 {
        WaitingKept(start, line0, on, room, line1, solo, batch, line4, w4.crew, g);
      } else {
        assert g in multiset(solo) + multiset(batch);
        assert SameButSlot(start[s], g);
        assert g in solo || g in batch;
      }
    }
  }

  lemma WaitingKept(start: Crew, line0: seq<Gen>, on: bool, room: nat, line1: seq<Gen>, solo: seq<Gen>,
      batch: seq<Gen>, line4: seq<Gen>, crew4: Crew, g: Gen)
    requires Roster(multiset(line0), start) && Split(line0, on, room, line1, solo, batch) && g in line1
    requires |line1| <= |line4| && line4[..|line1|] == line1 && Roster(multiset(line4), crew4)
    requires forall h :: h in Picked(line0, on, room) ==> h in line0
    ensures Waits(line0, on, room) && g.session in start && !start[g.session].held
    ensures g.session in crew4 && crew4[g.session] == start[g.session].(held := true)
  {
    hide Picked, Passed;
    var p := Picked(line0, on, room)[0];
    assert p in line0;
    assert p in multiset(line0);
    assert g in line4;
    assert g in multiset(line4);
  }

  /** A sampled stream is never in the group and has not even tried. */
  lemma SampledAlone(w: World, line: seq<Gen>)
    requires Calm(w) && Roster(multiset(line), w.crew)
    ensures forall g :: g in line && !g.config.greedy ==>
              g.slot.None? && g.session in w.st.sessions && Alone(w.st.sessions[g.session].trace)
  {
    forall g | g in line && !g.config.greedy
      ensures g.slot.None? && g.session in w.st.sessions && Alone(w.st.sessions[g.session].trace)
    {
      assert g in multiset(line);
      hide Calm, Roster;
      SampledGen(w, g);
    }
  }

  lemma SampledGen(w: World, g: Gen)
    requires Calm(w) && OnBoard(w, g) && !g.config.greedy
    ensures g.slot.None? && g.session in w.st.sessions && Alone(w.st.sessions[g.session].trace)
  {
    hide Alone, Counted, NoEosBefore, Owner, PoolOk, JobsOk, Tally;
  }
}
