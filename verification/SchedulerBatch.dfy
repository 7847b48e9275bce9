/** The batch step seen from the worker: who sits in the group, and what a step does. */
module SchedulerBatch {
  import opened Strings
  import opened Events
  import opened Reference
  import opened EngineModel
  import opened SchedulerState
  import opened SchedulerWorld
  import opened SchedulerQuantum

  ghost predicate NoSlots(line: seq<Gen>) {
    forall g :: g in line ==> g.slot.None?
  }

  /** The worker's view between quantum phases: `line` has been served and is out of the
      group, `gens` is the batch. */
  ghost predicate BatchView(w: World, line: seq<Gen>, gens: seq<Gen>) {
    Calm(w) && Roster(multiset(line) + multiset(gens), w.crew) && NoSlots(line)
  }

  lemma SlotOfCrew(w: World, s: SessionId)
    requires Ok(w) && s in w.crew
    ensures s in w.st.sessions && w.crew[s].session == s && w.st.sessions[s].slot == w.crew[s].slot
    ensures w.crew[s].slot.Some? <==> w.st.sessions[s].phase == Grouped
    ensures w.crew[s].slot.Some? ==> IsMember(w.st, w.crew[s].slot.value) && MemberAt(w.st, w.crew[s].slot.value) == s
  {
    hide Counted, Owner, NoEosBefore, JobsOk, Rested, Replay, Slots, Tally;
  }

  lemma MemberOnBoard(w: World, i: nat)
    requires Calm(w) && IsMember(w.st, i)
    ensures MemberAt(w.st, i) in w.crew && w.crew[MemberAt(w.st, i)].slot == Some(i)
  {
    hide CrewOk, JobsOk, Replay, Slots, Tally;
    var s := MemberAt(w.st, i);
    assert w.st.sessions[s].slot == Some(i);
    assert w.st.sessions[s].phase == Grouped;
    assert s !in w.idle;
    SlotOfCrew(w, s);
  }

  /** Every member of the group is in the batch. */
  lemma MemberInBatch(w: World, line: seq<Gen>, gens: seq<Gen>, i: nat)
    requires BatchView(w, line, gens) && IsMember(w.st, i)
    ensures MemberAt(w.st, i) in w.crew
    ensures w.crew[MemberAt(w.st, i)] in gens && w.crew[MemberAt(w.st, i)].slot == Some(i)
  {
    hide Calm, Tally;
    MemberOnBoard(w, i);
    var g := w.crew[MemberAt(w.st, i)];
    assert g in multiset(line) + multiset(gens);
    assert g in line || g in gens;
  }

  function Sessions(gens: seq<Gen>): set<SessionId> {
    set g | g in gens :: g.session
  }

  lemma {:induction false} SessionsBound(gens: seq<Gen>)
    ensures |Sessions(gens)| <= |gens|
  {
    if gens != [] {
      SessionsBound(gens[1..]);
      assert gens == [gens[0]] + gens[1..];
      assert Sessions(gens) == {gens[0].session} + Sessions(gens[1..]);
    } else {
      assert Sessions(gens) == {};
    }
  }

  /** Members sit in different slots: as many sessions as full slots. */
  lemma {:induction false} FullSlots(table: seq<Option<SessionId>>, n: nat) returns (members: set<SessionId>)
    requires n <= |table| && forall i :: 0 <= i < n ==> table[i].Some?
    requires forall i, j :: 0 <= i < j < n ==> table[i] != table[j]
    ensures |members| == n && forall s :: s in members ==> exists i :: 0 <= i < n && table[i] == Some(s)
  {
    if n == 0 {
      members := {};
    } else {
      members := FullSlots(table, n - 1);
      var s := table[n - 1].value;
      assert s !in members;
      members := members + {s};
    }
  }

  /** A stream of the batch without a slot finds a free one. */
  lemma FreeSlot(w: World, line: seq<Gen>, gens: seq<Gen>, k: nat)
    requires BatchView(w, line, gens) && k < |gens| && gens[k].slot.None?
    requires w.st.group.Some? && |gens| <= |w.st.group.value|
    ensures exists i :: 0 <= i < |w.st.group.value| && w.st.group.value[i].None?
  {
    hide BatchView, Tally;
    if forall i :: 0 <= i < |w.st.group.value| ==> w.st.group.value[i].Some? {
      FullTable(w, line, gens, k);
    }
  }

  lemma FullTable(w: World, line: seq<Gen>, gens: seq<Gen>, k: nat)
    requires BatchView(w, line, gens) && k < |gens| && gens[k].slot.None?
    requires w.st.group.Some? && forall i :: 0 <= i < |w.st.group.value| ==> w.st.group.value[i].Some?
    ensures |w.st.group.value| < |gens|
  {
    var table := w.st.group.value;
    FullMembers(w, line, gens, k);
    hide BatchView, Tally;
    var members := FullSlots(table, |table|);
    forall s | s in members ensures s in Sessions(gens) - {gens[k].session} {
      var i :| 0 <= i < |table| && table[i] == Some(s);
      assert table[i].value == s;
    }
    SessionsBound(gens);
    SubsetSize(members, Sessions(gens) - {gens[k].session});
    assert gens[k].session in Sessions(gens);
  }

  lemma FullMembers(w: World, line: seq<Gen>, gens: seq<Gen>, k: nat)
    requires BatchView(w, line, gens) && k < |gens| && gens[k].slot.None?
    requires w.st.group.Some? && forall i :: 0 <= i < |w.st.group.value| ==> w.st.group.value[i].Some?
    ensures forall i, j :: 0 <= i < j < |w.st.group.value| ==> w.st.group.value[i] != w.st.group.value[j]
    ensures forall i :: 0 <= i < |w.st.group.value| ==> w.st.group.value[i].value in Sessions(gens) - {gens[k].session}
  {
    hide BatchView, Sessions;
    var table := w.st.group.value;
    forall i | 0 <= i < |table|
      ensures table[i].value in w.crew && w.crew[table[i].value].slot == Some(i)
      ensures table[i].value in Sessions(gens) - {gens[k].session}
    {
      FullMember(w, line, gens, k, i);
    }
  }

  lemma FullMember(w: World, line: seq<Gen>, gens: seq<Gen>, k: nat, i: nat)
    requires BatchView(w, line, gens) && k < |gens| && gens[k].slot.None? && IsMember(w.st, i)
    ensures
      var s := MemberAt(w.st, i);
      s in w.crew && w.crew[s].slot == Some(i) && s in Sessions(gens) - {gens[k].session}
  {
    hide Calm, Roster, NoSlots, Tally;
    MemberInBatch(w, line, gens, i);
    CrewNames(w);
    RosterAt(w, line, gens, k);
  }

  lemma CrewNames(w: World)
    requires Calm(w)
    ensures forall s :: s in w.crew ==> w.crew[s].session == s && w.crew[s].job in w.logs
  {
    hide GenOk, PoolOk, JobsOk, Tally;
  }

  lemma RosterAt(w: World, line: seq<Gen>, gens: seq<Gen>, k: nat)
    requires Roster(multiset(line) + multiset(gens), w.crew) && k < |gens|
    ensures gens[k].session in w.crew && w.crew[gens[k].session] == gens[k] && gens[k].session in Sessions(gens)
  {
    assert gens[k] in multiset(gens);
    assert gens[k] in multiset(line) + multiset(gens);
  }

  lemma SubsetSize(a: set<SessionId>, b: set<SessionId>)
    requires a <= b
    ensures |a| <= |b|
  {
    assert b == a + (b - a);
  }

  /** `slots` are the batch's slots in batch order, and every stream has one. */
  ghost predicate SlotsOf(slots: seq<nat>, gens: seq<Gen>) {
    |slots| == |gens| && forall i :: 0 <= i < |gens| ==> gens[i].slot == Some(slots[i])
  }

  /** The preconditions of a batch step: no slot twice, no empty slot, no member left out. */
  lemma SlotsFit(w: World, line: seq<Gen>, gens: seq<Gen>, slots: seq<nat>)
    requires BatchView(w, line, gens) && SlotsOf(slots, gens)
    ensures Distinct(slots) && forall i :: 0 <= i < |slots| ==>
              IsMember(w.st, slots[i]) && MemberAt(w.st, slots[i]) == gens[i].session
    ensures forall i :: IsMember(w.st, i) ==> i in slots
  {
    forall i | 0 <= i < |slots|
      ensures IsMember(w.st, slots[i]) && MemberAt(w.st, slots[i]) == gens[i].session
    {
      hide CrewOk, PoolOk, JobsOk, NoSlots, IsMember, Tally;
      RosterAt(w, line, gens, i);
      SlotOfCrew(w, gens[i].session);
    }
    forall i | IsMember(w.st, i) ensures i in slots {
      hide Calm, Roster, NoSlots, IsMember, Tally;
      MemberInBatch(w, line, gens, i);
      var k :| 0 <= k < |gens| && gens[k] == w.crew[MemberAt(w.st, i)];
      assert gens[k].slot == Some(slots[k]);
    }
    SessionsDiffer(w, line, gens);
  }

  lemma SessionsDiffer(w: World, line: seq<Gen>, gens: seq<Gen>)
    requires Roster(multiset(line) + multiset(gens), w.crew)
    ensures forall i, j :: 0 <= i < j < |gens| ==> gens[i].session != gens[j].session
    ensures forall g :: g in line ==> g.session !in Sessions(gens)
  {
    var all := multiset(line) + multiset(gens);
    forall i, j | 0 <= i < j < |gens| ensures gens[i].session != gens[j].session {
      RosterAt(w, line, gens, i);
      RosterAt(w, line, gens, j);
      TwiceIn(gens, i, j);
    }
    forall g | g in line ensures g.session !in Sessions(gens) {
      assert g in all;
      forall h | h in gens ensures h.session != g.session {
        assert h in all;
        assert multiset(line)[g] >= 1;
        assert multiset(gens)[h] >= 1;
      }
    }
  }

  lemma TwiceIn(gens: seq<Gen>, i: nat, j: nat)
    requires i < j < |gens|
    ensures gens[i] == gens[j] ==> multiset(gens)[gens[i]] >= 2
  {
    assert gens == gens[..i] + [gens[i]] + gens[i + 1..j] + [gens[j]] + gens[j + 1..];
  }

  lemma StepGen(next: Net, se: Session, lg: JobLog, g: Gen, slots: seq<nat>, ok: bool)
    requires GenOk(next, se, lg, g, false) && g.pending.None? && SessionOk(se)
    ensures g.slot.Some? && g.slot.value in slots ==> GenOk(next, StepOf(se, slots, ok), lg, g, ok)
    ensures g.slot.None? ==> StepOf(se, slots, ok) == se
  {
    hide Replay, NoEosBefore, TokenAt, Limit, Tally;
  }

  /** A step of the whole batch moves its members' sessions by one token and leaves all
      others alone; a failed one moves nobody. */
  lemma BatchStepOk(w: World, w2: World, line: seq<Gen>, gens: seq<Gen>, slots: seq<nat>, ok: bool)
    requires BatchView(w, line, gens) && SlotsOf(slots, gens)
    requires forall g :: g in gens ==> g.pending.None?
    requires StateOk(w2.st) && w2.st == Stepped(w.st, slots, ok)
    requires w2 == w.(st := w2.st, due := if ok then Sessions(gens) else {})
    ensures Ok(w2)
  {
    hide Tally;
    SessionsDiffer(w, line, gens);
    BatchStepPool(w, w2, slots, ok);
    BatchStepCrew(w, w2, line, gens, slots, ok);
    StepTally(w.st, w2.st, w.logs, slots, ok);
    hide GenOk, PoolOk, JobsOk, CrewOk, NoSlots, Tally;
    forall s | s in w2.due ensures s in w2.crew {
      var k :| 0 <= k < |gens| && gens[k].session == s;
      RosterAt(w, line, gens, k);
    }
  }

  lemma StepTally(st: State, st2: State, logs: Logs, slots: seq<nat>, ok: bool)
    requires Tally(st, logs) && st2 == Stepped(st, slots, ok)
    ensures Tally(st2, logs)
  {
    hide StepOf, Tally;
    TallySame(st, st2, logs, logs);
  }

  lemma BatchStepPool(w: World, w2: World, slots: seq<nat>, ok: bool)
    requires Calm(w) && StateOk(w2.st) && w2.st == Stepped(w.st, slots, ok)
    ensures PoolOk(w2.st, w.idle, w.loose, w.crew, w.max)
  {
    hide CrewOk, JobsOk, StateOk, Slots, Tally;
    PoolTouch(w.st, w2.st, w.idle, w.loose, w.crew, w.loose, w.crew, w.max);
  }

  lemma BatchStepCrew(w: World, w2: World, line: seq<Gen>, gens: seq<Gen>, slots: seq<nat>, ok: bool)
    requires BatchView(w, line, gens) && SlotsOf(slots, gens)
    requires forall g :: g in gens ==> g.pending.None?
    requires forall g :: g in line ==> g.session !in Sessions(gens)
    requires w2.st == Stepped(w.st, slots, ok)
    requires w2 == w.(st := w2.st, due := if ok then Sessions(gens) else {})
    ensures CrewOk(w2.next, w2.st, w2.logs, w2.crew, w2.due)
  {
    hide JobsOk, PoolOk, Stepped, Tally;
    forall s | s in w.crew
      ensures s in w2.st.sessions && w.crew[s].session == s && w.crew[s].job in w.logs
      ensures GenOk(w.next, w2.st.sessions[s], w.logs[w.crew[s].job], w.crew[s], s in w2.due)
    {
      BatchStepOne(w, w2.st, line, gens, slots, ok, s);
    }
  }

  lemma BatchStepOne(w: World, st2: State, line: seq<Gen>, gens: seq<Gen>, slots: seq<nat>, ok: bool, s: SessionId)
    requires BatchView(w, line, gens) && SlotsOf(slots, gens)
    requires forall g :: g in gens ==> g.pending.None?
    requires forall g :: g in line ==> g.session !in Sessions(gens)
    requires st2 == Stepped(w.st, slots, ok) && s in w.crew
    ensures s in st2.sessions && w.crew[s].session == s && w.crew[s].job in w.logs
    ensures GenOk(w.next, st2.sessions[s], w.logs[w.crew[s].job], w.crew[s], ok && s in Sessions(gens))
  {
    var g := w.crew[s];
    assert g in multiset(line) + multiset(gens);
    assert g in line || g in gens;
    assert g.session == s by { hide GenOk, PoolOk, JobsOk, Tally; }
    CrewSession(w, s);
    hide GenOk, PoolOk, JobsOk, CrewOk, StepOf, SessionOk, Roster, Tally;
    if g in gens {
      var k :| 0 <= k < |gens| && gens[k] == g;
      assert g.slot == Some(slots[k]);
      StepGen(w.next, w.st.sessions[s], w.logs[g.job], g, slots, ok);
    } else {
      assert g.slot.None?;
      StepAway(w.next, w.st.sessions[s], w.logs[g.job], g, slots, ok);
    }
  }

  lemma StepAway(next: Net, se: Session, lg: JobLog, g: Gen, slots: seq<nat>, ok: bool)
    requires GenOk(next, se, lg, g, false) && g.slot.None?
    ensures StepOf(se, slots, ok) == se
  {
    hide Replay, NoEosBefore, TokenAt, Limit, Counted, Tally;
  }

  lemma CrewSession(w: World, s: SessionId)
    requires Calm(w) && s in w.crew
    ensures s in w.st.sessions && w.crew[s].job in w.logs && SessionOk(w.st.sessions[s])
    ensures GenOk(w.next, w.st.sessions[s], w.logs[w.crew[s].job], w.crew[s], false)
  {
    hide GenOk, JobsOk, SessionOk, Rested, Slots, Tally;
  }

  lemma UnderwayRoster(start: Crew, crew: Crew, logs: Logs, line: seq<Gen>, gens: seq<Gen>)
    requires Underway(start, crew, logs, line, multiset(gens))
    ensures Roster(multiset(line) + multiset(gens), crew)
  {
  }

  lemma AreSlotsOf(slots: seq<nat>, gens: seq<Gen>)
    requires |slots| == |gens| && forall i :: 0 <= i < |gens| ==> gens[i].slot == Some(slots[i])
    ensures SlotsOf(slots, gens)
  {
  }

  lemma CalmState(w: World)
    requires Calm(w)
    ensures StateOk(w.st)
  {
    hide StateOk, Tally;
  }

  /** Each stream's token is the next decision of its own session. */
  ghost predicate TokensFor(next: Net, logs: Logs, gens: seq<Gen>, tokens: seq<Token>) {
    && |tokens| == |gens|
    && forall i :: 0 <= i < |gens| ==>
         gens[i].job in logs && tokens[i] == TokenAt(next, logs[gens[i].job].job.prompt, gens[i].generated)
  }

  lemma TokensFit(w: World, line: seq<Gen>, gens: seq<Gen>, slots: seq<nat>, tokens: seq<Token>)
    requires BatchView(w, line, gens) && |slots| == |gens| == |tokens|
    requires forall i :: 0 <= i < |slots| ==>
      && IsMember(w.st, slots[i]) && MemberAt(w.st, slots[i]) == gens[i].session && gens[i].session in w.st.sessions
      && tokens[i] == TokenAt(w.next, w.st.sessions[gens[i].session].prompt, w.st.sessions[gens[i].session].pos)
    ensures TokensFor(w.next, w.logs, gens, tokens)
  {
    hide Calm, NoSlots, Roster, TokenAt, IsMember, Tally;
    forall i | 0 <= i < |gens|
      ensures gens[i].job in w.logs && tokens[i] == TokenAt(w.next, w.logs[gens[i].job].job.prompt, gens[i].generated)
    {
      RosterAt(w, line, gens, i);
      assert IsMember(w.st, slots[i]);
      CrewSession(w, gens[i].session);
      LiveFacts(w.next, w.st.sessions[gens[i].session], w.logs[gens[i].job], gens[i], false);
    }
  }

  /** Making or dropping the group touches no session. */
  lemma GroupOnlyOk(w: World, w2: World)
    requires Calm(w) && w2 == w.(st := w2.st) && w2.st.sessions == w.st.sessions
    requires StateOk(w2.st) && (w2.st.group.Some? ==> |w2.st.group.value| == Slots(w.max))
    ensures Calm(w2)
  {
    hide StateOk, JobsOk, GenOk, Rested, Slots, Tally;
    PoolTouch(w.st, w2.st, w.idle, w.loose, w.crew, w.loose, w.crew, w.max);
    TallySame(w.st, w2.st, w.logs, w2.logs);
  }

  lemma NobodyIn(w: World, line: seq<Gen>)
    requires Calm(w) && Roster(multiset(line), w.crew) && NoSlots(line)
    ensures forall i :: !IsMember(w.st, i)
  {
    hide Calm, IsMember, Tally;
    forall i ensures !IsMember(w.st, i) {
      if IsMember(w.st, i) {
        MemberOnBoard(w, i);
      }
    }
  }
}
