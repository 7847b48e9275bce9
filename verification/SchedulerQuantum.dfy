/** Who has been served in the running quantum and who is still to come. */
module SchedulerQuantum {
  import opened Strings
  import opened Events
  import opened Reference
  import opened EngineModel
  import opened SchedulerState
  import opened SchedulerWorld

  /** `q` lists every stream on board exactly once. */
  ghost predicate Roster(q: multiset<Gen>, crew: Crew) {
    Listed(q, crew) && Named(q, crew) && |q| == |crew|
  }

  ghost predicate Listed(q: multiset<Gen>, crew: Crew) {
    forall g :: g in q ==> g.session in crew && crew[g.session] == g && q[g] == 1
  }

  ghost predicate Named(q: multiset<Gen>, crew: Crew) {
    forall s :: s in crew ==> crew[s].session == s && crew[s] in q
  }

  ghost predicate SameButSlot(g: Gen, h: Gen) {
    h == g.(slot := h.slot)
  }

  ghost predicate OthersEnded(start: Crew, crew: Crew, logs: Logs) {
    && crew.Keys <= start.Keys
    && forall s :: s in start && s !in crew ==> start[s].job in logs && logs[start[s].job].state.Ended?
  }

  ghost predicate DoneOk(start: Crew, done: seq<Gen>) {
    forall g :: g in done ==> g.session in start && Moved(start[g.session], g)
  }

  ghost predicate TodoOk(start: Crew, todo: multiset<Gen>) {
    forall g :: g in todo ==> g.session in start && SameButSlot(start[g.session], g)
  }

  /** Of the streams on board at the `start` of the quantum, those in `done` have made
      a move, those in `todo` have not, and all others are settled. */
  ghost predicate Underway(start: Crew, crew: Crew, logs: Logs, done: seq<Gen>, todo: multiset<Gen>) {
    && Roster(multiset(done) + todo, crew)
    && OthersEnded(start, crew, logs)
    && DoneOk(start, done)
    && TodoOk(start, todo)
  }

  /** Every stream of `start` is settled or has made a move. */
  ghost predicate AllServed(start: Crew, crew: Crew, logs: Logs) {
    forall s :: s in start ==>
      if s in crew then Moved(start[s], crew[s])
      else start[s].job in logs && logs[start[s].job].state.Ended?
  }

  lemma AtStart(crew: Crew, logs: Logs, q: multiset<Gen>)
    requires Roster(q, crew)
    ensures Underway(crew, crew, logs, [], q)
  {
    var none: seq<Gen> := [];
    assert multiset(none) + q == q;
  }

  lemma AtEnd(start: Crew, crew: Crew, logs: Logs, done: seq<Gen>)
    requires Underway(start, crew, logs, done, multiset{})
    ensures AllServed(start, crew, logs) && Roster(multiset(done), crew) && crew.Keys <= start.Keys
  {
    hide Moved, SameButSlot, Tally;
    assert multiset(done) + multiset{} == multiset(done);
    forall s | s in start && s in crew ensures Moved(start[s], crew[s]) {
      assert crew[s] in done;
    }
  }

  lemma NamedChange(q: multiset<Gen>, crew: Crew, g: Gen, h: Gen)
    requires Named(q, crew) && h.session == g.session
    ensures Named(q - multiset{g} + multiset{h}, crew[g.session := h])
  {
    var q2, crew2 := q - multiset{g} + multiset{h}, crew[g.session := h];
    forall s | s in crew2 ensures crew2[s].session == s && crew2[s] in q2 {
      if s != g.session {
        assert crew[s] in q && crew[s] != g;
      }
    }
  }

  lemma RosterChange(q: multiset<Gen>, crew: Crew, g: Gen, h: Gen)
    requires Roster(q, crew) && g in q && h.session == g.session
    ensures Roster(q - multiset{g} + multiset{h}, crew[g.session := h])
  {
    var q2 := q - multiset{g} + multiset{h};
    var crew2 := crew[g.session := h];
    assert |q2| == |q|;
    assert crew2.Keys == crew.Keys;
    assert |crew2| == |crew2.Keys| == |crew|;
    hide Named;
    assert h != g ==> h !in q;
    forall f | f in q2 ensures f.session in crew2 && crew2[f.session] == f && q2[f] == 1 {
      if f != h {
        assert f in q && f != g && f.session != g.session;
      }
    }
    NamedChange(q, crew, g, h);
  }

  lemma RosterDrop(q: multiset<Gen>, crew: Crew, g: Gen)
    requires Roster(q, crew) && g in q
    ensures Roster(q - multiset{g}, crew - {g.session})
  {
    var q2 := q - multiset{g};
    var crew2 := crew - {g.session};
    assert crew2.Keys == crew.Keys - {g.session};
    assert |crew2| == |crew2.Keys| == |crew| - 1;
    assert |q2| == |q| - 1;
    forall f | f in q2 ensures f.session in crew2 && crew2[f.session] == f && q2[f] == 1 {
      assert f in q; assert f != g; assert f.session != g.session;
    }
  }

  lemma UnderwayKept(start: Crew, crew: Crew, logs: Logs, logs2: Logs, done: seq<Gen>, todo: multiset<Gen>, g: Gen,
      h: Gen)
    requires Underway(start, crew, logs, done, todo) && g in todo && Moved(g, h)
    requires logs2.Keys == logs.Keys && forall k :: k in logs && k != g.job ==> logs2[k] == logs[k]
    requires g.job in logs && !logs[g.job].state.Ended?
    ensures Underway(start, crew[g.session := h], logs2, done + [h], todo - multiset{g})
  {
    assert h.session == g.session;
    assert DoneOk(start, done + [h]) by { DoneMore(start, done, todo, g, h); }
    assert TodoOk(start, todo - multiset{g}) by { hide SameButSlot, Tally; }
    hide Moved, SameButSlot, DoneOk, TodoOk, Tally;
    assert Roster(multiset(done + [h]) + (todo - multiset{g}), crew[g.session := h]) by {
      hide OthersEnded, Tally;
      assert g in multiset(done) + todo;
      RosterChange(multiset(done) + todo, crew, g, h);
      MoveOver(done, todo, g, h);
    }
    hide Roster, Tally;
    EndedStay(start, crew, crew[g.session := h], logs, logs2, g.job);
  }

  lemma DoneMore(start: Crew, done: seq<Gen>, todo: multiset<Gen>, g: Gen, h: Gen)
    requires DoneOk(start, done) && TodoOk(start, todo) && g in todo && Moved(g, h)
    ensures DoneOk(start, done + [h])
  {
    SlotOnly(start[g.session], g, h);
    assert h.session == g.session;
    hide Moved, SameButSlot, Tally;
    forall f | f in done + [h] ensures f.session in start && Moved(start[f.session], f) {
      assert f in done || f == h;
    }
  }

  lemma MoveOver(done: seq<Gen>, todo: multiset<Gen>, g: Gen, h: Gen)
    requires g in todo
    ensures multiset(done + [h]) + (todo - multiset{g}) == multiset(done) + todo - multiset{g} + multiset{h}
  {
  }

  lemma EndedStay(start: Crew, crew: Crew, crew2: Crew, logs: Logs, logs2: Logs, j: JobId)
    requires OthersEnded(start, crew, logs)
    requires logs2.Keys == logs.Keys && forall k :: k in logs && k != j ==> logs2[k] == logs[k]
    requires j in logs && (logs2[j].state.Ended? || !logs[j].state.Ended?)
    requires forall s :: s in crew && s !in crew2 && s in start ==> start[s].job == j && logs2[j].state.Ended?
    requires crew2.Keys <= start.Keys
    ensures OthersEnded(start, crew2, logs2)
  {
  }

  lemma SlotOnly(f: Gen, g: Gen, h: Gen)
    requires SameButSlot(f, g) && Moved(g, h)
    ensures Moved(f, h)
  {
    assert Rank(f) == Rank(g);
  }

  lemma UnderwayGone(start: Crew, crew: Crew, logs: Logs, logs2: Logs, done: seq<Gen>, todo: multiset<Gen>, g: Gen)
    requires Underway(start, crew, logs, done, todo) && g in todo
    requires logs2.Keys == logs.Keys && forall k :: k in logs && k != g.job ==> logs2[k] == logs[k]
    requires g.job in logs && !logs[g.job].state.Ended? && logs2[g.job].state.Ended?
    ensures Underway(start, crew - {g.session}, logs2, done, todo - multiset{g})
  {
    assert start[g.session].job == g.job;
    assert TodoOk(start, todo - multiset{g}) by { hide SameButSlot, Tally; }
    hide Moved, SameButSlot, DoneOk, TodoOk, Tally;
    hide Roster, Tally;
    RosterGone(crew, done, todo, g);
    EndedStay(start, crew, crew - {g.session}, logs, logs2, g.job);
  }

  lemma UnderwaySlot(start: Crew, crew: Crew, logs: Logs, done: seq<Gen>, todo: multiset<Gen>, g: Gen, h: Gen)
    requires Underway(start, crew, logs, done, todo) && g in todo && SameButSlot(g, h)
    ensures Underway(start, crew[g.session := h], logs, done, todo - multiset{g} + multiset{h})
  {
    hide Moved, SameButSlot, DoneOk, TodoOk, Roster, OthersEnded, Tally;
    TodoSlot(start, todo, g, h);
    RosterSlot(crew, done, todo, g, h);
    UnderwayRoom(start, crew, logs, done, todo, g);
    SameKeysEnded(start, crew, crew[g.session := h], logs);
  }

  lemma SameKeysEnded(start: Crew, crew: Crew, crew2: Crew, logs: Logs)
    requires OthersEnded(start, crew, logs) && crew2.Keys == crew.Keys
    ensures OthersEnded(start, crew2, logs)
  {
  }

  lemma TodoSlot(start: Crew, todo: multiset<Gen>, g: Gen, h: Gen)
    requires TodoOk(start, todo) && g in todo && SameButSlot(g, h)
    ensures TodoOk(start, todo - multiset{g} + multiset{h})
  {
    assert h.session == g.session;
    forall f | f in todo - multiset{g} + multiset{h}
      ensures f.session in start && SameButSlot(start[f.session], f)
    {
      assert f in todo || f == h;
    }
  }

  lemma RosterSlot(crew: Crew, done: seq<Gen>, todo: multiset<Gen>, g: Gen, h: Gen)
    requires Roster(multiset(done) + todo, crew) && g in todo && SameButSlot(g, h)
    ensures Roster(multiset(done) + (todo - multiset{g} + multiset{h}), crew[g.session := h])
  {
    assert h.session == g.session;
    hide SameButSlot, Roster, Tally;
    assert g in multiset(done) + todo;
    RosterChange(multiset(done) + todo, crew, g, h);
    assert multiset(done) + (todo - multiset{g} + multiset{h}) == multiset(done) + todo - multiset{g} + multiset{h};
  }

  lemma RosterGone(crew: Crew, done: seq<Gen>, todo: multiset<Gen>, g: Gen)
    requires Roster(multiset(done) + todo, crew) && g in todo
    ensures Roster(multiset(done) + (todo - multiset{g}), crew - {g.session})
  {
    hide Roster, Tally;
    assert g in multiset(done) + todo;
    RosterDrop(multiset(done) + todo, crew, g);
    assert multiset(done) + (todo - multiset{g}) == multiset(done) + todo - multiset{g};
  }

  lemma UnderwayRoom(start: Crew, crew: Crew, logs: Logs, done: seq<Gen>, todo: multiset<Gen>, g: Gen)
    requires Underway(start, crew, logs, done, todo) && g in todo
    ensures g.session in crew && crew[g.session] == g && |done| < |crew|
  {
    hide Moved, SameButSlot, OthersEnded, DoneOk, TodoOk, Tally;
    assert g in multiset(done) + todo;
    assert |multiset(done) + todo| == |done| + |todo|;
    assert todo == (todo - multiset{g}) + multiset{g};
    assert |todo| >= 1;
  }

  lemma RosterJoin(q: multiset<Gen>, crew: Crew, g: Gen)
    requires Roster(q, crew) && g.session !in crew
    ensures Roster(q + multiset{g}, crew[g.session := g])
  {
    JoinListed(q, crew, g);
    JoinNamed(q, crew, g);
    hide Listed, Named, Tally;
    assert crew[g.session := g].Keys == crew.Keys + {g.session};
    OneMore(crew.Keys, g.session);
  }

  lemma JoinListed(q: multiset<Gen>, crew: Crew, g: Gen)
    requires Listed(q, crew) && g.session !in crew
    ensures Listed(q + multiset{g}, crew[g.session := g])
  {
  }

  lemma JoinNamed(q: multiset<Gen>, crew: Crew, g: Gen)
    requires Named(q, crew)
    ensures Named(q + multiset{g}, crew[g.session := g])
  {
  }

  lemma RosterNone(q: multiset<Gen>, crew: Crew)
    requires Roster(q, crew) && q == multiset{}
    ensures crew == map[]
  {
    assert crew.Keys == {};
  }
}
