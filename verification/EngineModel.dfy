/** The inference engine as the scheduler uses it: sessions with a position in a
    deterministic token stream, and one batch group. Any call may fail. The
    preconditions are the checks of the native interface: a call that meets them
    is never refused. */
module EngineModel {
  import opened Strings
  import opened Events
  import opened Reference

  type SessionId = nat

  datatype Config = Config(maxNew: nat, greedy: bool)

  datatype Op = Reset | Prefill | Decode | Add | Step | Remove
  datatype Call = Call(op: Op, ok: bool)

  /** Where a session stands between two jobs (`Idle`) or within one. */
  datatype Phase = Idle | Cleared | Running | Grouped | Spent

  /** A job that may be closed. */
  predicate Closable(phase: Phase) {
    phase.Running? || phase.Spent?
  }

  /** The phase after a call, or `None` if the call is out of order. A reset opens a job
      on an idle session and closes it otherwise; a failed closing reset closes too. */
  function After(phase: Phase, call: Call): Option<Phase> {
    match call.op
    case Reset =>
      if phase.Idle? then Some(if call.ok then Cleared else Spent)
      else if Closable(phase) then Some(Idle)
      else None
    case Prefill => if phase.Cleared? then Some(if call.ok then Running else Spent) else None
    case Decode => if phase.Running? then Some(if call.ok then Running else Spent) else None
    case Add => if phase.Running? then Some(if call.ok then Grouped else Running) else None
    case Step => if phase.Grouped? then Some(Grouped) else None
    case Remove => if phase.Grouped? then Some(Running) else None
  }

  function Replay(trace: seq<Call>): Option<Phase> {
    if trace == [] then Some(Idle)
    else match Replay(trace[..|trace| - 1])
      case None => None
      case Some(phase) => After(phase, trace[|trace| - 1])
  }

  /** The resets among the calls. */
  function ResetCount(trace: seq<Call>): nat {
    if trace == [] then 0
    else ResetCount(trace[..|trace| - 1]) + if trace[|trace| - 1].op == Reset then 1 else 0
  }

  /** No batch step and no try at joining the group since the last reset. */
  predicate Alone(trace: seq<Call>) {
    trace == [] ||
    var last := trace[|trace| - 1];
    last.op == Reset || (last.op != Add && last.op != Step && Alone(trace[..|trace| - 1]))
  }

  datatype Session = Session(prompt: seq<Token>, pos: nat, phase: Phase, slot: Option<nat>, trace: seq<Call>)

  function Called(s: Session, op: Op, ok: bool): (t: Session)
    requires After(s.phase, Call(op, ok)).Some?
    ensures ResetCount(t.trace) == ResetCount(s.trace) + if op == Reset then 1 else 0
    ensures Alone(t.trace) <==> op == Reset || (op != Add && op != Step && Alone(s.trace))
  {
    assert (s.trace + [Call(op, ok)])[..|s.trace|] == s.trace;
    s.(phase := After(s.phase, Call(op, ok)).value, trace := s.trace + [Call(op, ok)])
  }

  /** `group` is the slot table of the batch group, if there is one. */
  datatype State = State(sessions: map<SessionId, Session>, group: Option<seq<Option<SessionId>>>)

  ghost predicate SessionOk(s: Session) {
    && Replay(s.trace) == Some(s.phase)
    && (s.slot.Some? <==> s.phase == Grouped)
  }

  /** A session knows its slot exactly if the group's table holds it there. */
  ghost predicate StateOk(e: State) {
    && (forall s :: s in e.sessions ==> SessionOk(e.sessions[s]))
    && (forall s :: s in e.sessions && e.sessions[s].slot.Some? ==>
          && e.group.Some? && e.sessions[s].slot.value < |e.group.value|
          && e.group.value[e.sessions[s].slot.value] == Some(s))
    && (e.group.Some? ==> forall i :: 0 <= i < |e.group.value| && e.group.value[i].Some? ==>
          && e.group.value[i].value in e.sessions
          && e.sessions[e.group.value[i].value].slot == Some(i))
  }

  lemma CalledOk(s: Session, op: Op, ok: bool)
    requires SessionOk(s) && After(s.phase, Call(op, ok)).Some?
    ensures Replay(Called(s, op, ok).trace) == Some(Called(s, op, ok).phase)
  {
    var t := s.trace + [Call(op, ok)];
    assert t[..|t| - 1] == s.trace;
  }

  /** A session at rest: every job it was used for has been closed. */
  ghost predicate Rested(s: Session) {
    s.phase == Idle
  }

  lemma SlotMeaning(e: State, s: SessionId)
    requires StateOk(e) && s in e.sessions
    ensures SessionOk(e.sessions[s])
  {
    hide SessionOk;
  }

  /** A call that leaves the slot alone keeps the protocol. */
  lemma UpdateOk(e: State, s: SessionId, se: Session)
    requires StateOk(e) && s in e.sessions
    requires SessionOk(se) && se.slot == e.sessions[s].slot
    ensures StateOk(e.(sessions := e.sessions[s := se]))
  {
    hide SessionOk;
  }

  predicate IsMember(e: State, slot: nat) {
    e.group.Some? && slot < |e.group.value| && e.group.value[slot].Some?
  }

  function MemberAt(e: State, slot: nat): SessionId
    requires IsMember(e, slot)
  {
    e.group.value[slot].value
  }

  predicate Distinct(slots: seq<nat>) {
    forall i, j :: 0 <= i < j < |slots| ==> slots[i] != slots[j]
  }

  /** One session's part in a batch step of `slots`; a failed step leaves it where it was. */
  function StepOf(s: Session, slots: seq<nat>, ok: bool): (t: Session)
    ensures ResetCount(t.trace) == ResetCount(s.trace)
  {
    if s.phase == Grouped && s.slot.Some? && s.slot.value in slots
    then Called(s, Step, ok).(pos := s.pos + if ok then 1 else 0)
    else s
  }

  function Stepped(e: State, slots: seq<nat>, ok: bool): State {
    e.(sessions := map s | s in e.sessions :: StepOf(e.sessions[s], slots, ok))
  }

  lemma SteppedOk(e: State, slots: seq<nat>, ok: bool)
    requires StateOk(e)
    ensures StateOk(Stepped(e, slots, ok))
  {
    hide Replay, StepOf, SessionOk;
    forall s | s in e.sessions
      ensures SessionOk(StepOf(e.sessions[s], slots, ok))
      ensures StepOf(e.sessions[s], slots, ok).slot == e.sessions[s].slot
    {
      StepOfOk(e.sessions[s], slots, ok);
    }
  }

  lemma StepOfOk(s: Session, slots: seq<nat>, ok: bool)
    requires SessionOk(s)
    ensures SessionOk(StepOf(s, slots, ok)) && StepOf(s, slots, ok).slot == s.slot
  {
    hide Replay;
    if s.phase == Grouped && s.slot.Some? && s.slot.value in slots {
      CalledOk(s, Step, ok);
    }
  }

  class Engine {
    const next: Net
    const supportsBatch: bool
    var st: State
    /** Sessions and groups not made, members not taken and batch steps not answered, and
        the batch steps asked for. */
    ghost var troubles: nat
    ghost var groupSteps: nat

    constructor (next: Net, supportsBatch: bool)
      ensures this.next == next && this.supportsBatch == supportsBatch
      ensures st == State(map[], None) && StateOk(st)
    {
      this.next, this.supportsBatch := next, supportsBatch;
      st, troubles, groupSteps := State(map[], None), 0, 0;
    }

    method CreateSession() returns (r: Option<SessionId>)
      requires StateOk(st)
      modifies `st, `troubles
      ensures StateOk(st) && troubles == old(troubles) + if r.None? then 1 else 0
      ensures r.None? ==> st == old(st)
      ensures r.Some? ==>
                && r.value !in old(st).sessions
                && st == old(st).(sessions := old(st).sessions[r.value := Session([], 0, Idle, None, [])])
    {
      var ok: bool := *;
      if !ok {
        troubles := troubles + 1;
        return None;
      }
      var id: SessionId :| id !in st.sessions by {
        Unbounded(st.sessions.Keys);
      }
      st := st.(sessions := st.sessions[id := Session([], 0, Idle, None, [])]);
      r := Some(id);
    }

    method ResetSession(s: SessionId) returns (ok: bool)
      requires StateOk(st) && s in st.sessions
      requires st.sessions[s].phase == Idle || Closable(st.sessions[s].phase)
      modifies `st
      ensures StateOk(st)
      ensures st == old(st).(sessions :=
                  old(st).sessions[s := Called(old(st).sessions[s], Reset, ok).(prompt := [], pos := 0)])
      ensures old(st).sessions[s].phase == Idle ==> st.sessions[s].phase == if ok then Cleared else Spent
      ensures Closable(old(st).sessions[s].phase) ==> Rested(st.sessions[s])
    {
      hide StateOk, Replay;
      ok := *;
      var t := st.sessions[s];
      SlotMeaning(st, s);
      CalledOk(t, Reset, ok);
      UpdateOk(st, s, Called(t, Reset, ok).(prompt := [], pos := 0));
      st := st.(sessions := st.sessions[s := Called(t, Reset, ok).(prompt := [], pos := 0)]);
    }

    method PrefillSession(s: SessionId, prompt: seq<Token>) returns (ok: bool)
      requires StateOk(st) && s in st.sessions
      requires st.sessions[s].phase == Cleared
      modifies `st
      ensures StateOk(st)
      ensures st == old(st).(sessions :=
                  old(st).sessions[s := Called(old(st).sessions[s], Prefill, ok).(prompt := prompt)])
    {
      hide StateOk, Replay;
      ok := *;
      var t := st.sessions[s];
      SlotMeaning(st, s);
      CalledOk(t, Prefill, ok);
      UpdateOk(st, s, Called(t, Prefill, ok).(prompt := prompt));
      st := st.(sessions := st.sessions[s := Called(t, Prefill, ok).(prompt := prompt)]);
    }

    method DecodeOne(s: SessionId) returns (r: Option<Token>)
      requires StateOk(st) && s in st.sessions
      requires st.sessions[s].phase == Running
      modifies `st
      ensures StateOk(st)
      ensures r.Some? ==> r.value == TokenAt(next, old(st).sessions[s].prompt, old(st).sessions[s].pos)
      ensures st == old(st).(sessions := old(st).sessions[s :=
                Called(old(st).sessions[s], Decode, r.Some?).
                  (pos := old(st).sessions[s].pos + if r.Some? then 1 else 0)])
    {
      hide StateOk, Replay, TokenAt;
      var ok: bool := *;
      var t := st.sessions[s];
      SlotMeaning(st, s);
      CalledOk(t, Decode, ok);
      UpdateOk(st, s, Called(t, Decode, ok).(pos := t.pos + if ok then 1 else 0));
      r := if ok then Some(TokenAt(next, t.prompt, t.pos)) else None;
      st := st.(sessions := st.sessions[s := Called(t, Decode, ok).(pos := t.pos + if ok then 1 else 0)]);
    }

    method CreateGroup(slots: nat) returns (ok: bool)
      requires StateOk(st) && st.group.None?
      modifies `st, `troubles
      ensures StateOk(st) && troubles == old(troubles) + if ok then 0 else 1
      ensures st == if ok then old(st).(group := Some(seq(slots, i => None))) else old(st)
    {
      ok := *;
      if ok {
        st := st.(group := Some(seq(slots, i => None)));
      } else {
        troubles := troubles + 1;
      }
    }

    /** Takes the lowest free slot. */
    method AddMember(s: SessionId) returns (r: Option<nat>)
      requires StateOk(st) && s in st.sessions
      requires st.group.Some? && st.sessions[s].phase == Running
      requires exists i :: 0 <= i < |st.group.value| && st.group.value[i].None?
      modifies `st, `troubles
      ensures StateOk(st) && troubles == old(troubles) + if r.None? then 1 else 0
      ensures r.None? ==> st == old(st).(sessions := old(st).sessions[s := Called(old(st).sessions[s], Add, false)])
      ensures r.Some? ==>
                && r.value < |old(st).group.value| && old(st).group.value[r.value].None?
                && (forall i :: 0 <= i < r.value ==> old(st).group.value[i].Some?)
                && st == State(old(st).sessions[s := Called(old(st).sessions[s], Add, true).(slot := r)],
                               Some(old(st).group.value[r.value := Some(s)]))
    {
      var ok: bool := *;
      var t := st.sessions[s];
      CalledOk(t, Add, ok);
      if !ok {
        st, troubles := st.(sessions := st.sessions[s := Called(t, Add, false)]), troubles + 1;
        return None;
      }
      var i := 0;
      while st.group.value[i].Some?
        invariant 0 <= i < |st.group.value|
        invariant exists k :: i <= k < |st.group.value| && st.group.value[k].None?
        invariant forall k :: 0 <= k < i ==> st.group.value[k].Some?
        decreases |st.group.value| - i
      {
        i := i + 1;
      }
      st := State(st.sessions[s := Called(t, Add, true).(slot := Some(i))], Some(st.group.value[i := Some(s)]));
      r := Some(i);
    }

    /** One batched decode of exactly the group's members, all of them greedy. */
    method StepGroup(slots: seq<nat>, configs: seq<Config>) returns (r: Option<seq<Token>>)
      requires StateOk(st)
      requires 2 <= |slots| && Distinct(slots) && forall i :: 0 <= i < |slots| ==> IsMember(st, slots[i])
      requires forall i :: IsMember(st, i) ==> i in slots
      requires |configs| == |slots| && forall i :: 0 <= i < |configs| ==> configs[i].greedy
      modifies this
      ensures StateOk(st) && groupSteps == old(groupSteps) + 1
      ensures troubles == old(troubles) + if r.Some? && |r.value| == |slots| then 0 else 1
      ensures st == Stepped(old(st), slots, r.Some? && |r.value| == |slots|)
      ensures r.Some? && |r.value| == |slots| ==>
                forall i :: 0 <= i < |slots| ==>
                  && MemberAt(old(st), slots[i]) in old(st).sessions
                  && var t := old(st).sessions[MemberAt(old(st), slots[i])];
                     r.value[i] == TokenAt(next, t.prompt, t.pos)
    {
      hide Stepped, SessionOk, TokenAt;
      var ok: bool := *;
      var e := st;
      SteppedOk(e, slots, ok);
      st, groupSteps := Stepped(e, slots, ok), groupSteps + 1;
      if ok {
        r := Some(seq(|slots|, i requires 0 <= i < |slots| && IsMember(e, slots[i])
            && MemberAt(e, slots[i]) in e.sessions =>
          TokenAt(next, e.sessions[MemberAt(e, slots[i])].prompt, e.sessions[MemberAt(e, slots[i])].pos)));
      } else {
        var short: bool := *;
        r, troubles := if short then Some([]) else None, troubles + 1;
      }
    }

    method RemoveMember(slot: nat)
      requires StateOk(st) && IsMember(st, slot)
      modifies `st
      ensures StateOk(st)
      ensures
        var s := MemberAt(old(st), slot);
        && s in old(st).sessions && old(st).sessions[s].phase == Grouped
        && st == State(old(st).sessions[s := Called(old(st).sessions[s], Remove, true).(slot := None)],
                       Some(old(st).group.value[slot := None]))
    {
      var s := MemberAt(st, slot);
      CalledOk(st.sessions[s], Remove, true);
      st := State(st.sessions[s := Called(st.sessions[s], Remove, true).(slot := None)],
                  Some(st.group.value[slot := None]));
    }

    method DestroyGroup()
      requires StateOk(st) && st.group.Some? && forall i :: !IsMember(st, i)
      modifies `st
      ensures StateOk(st) && st == old(st).(group := None)
    {
      forall s | s in st.sessions ensures st.sessions[s].slot.None? {
        if st.sessions[s].slot.Some? {
          assert IsMember(st, st.sessions[s].slot.value);
        }
      }
      st := st.(group := None);
    }
  }

  lemma Unbounded(ids: set<nat>)
    ensures exists id: nat :: id !in ids
  {
    var m := UpperBound(ids);
    assert m !in ids;
  }

  lemma UpperBound(ids: set<nat>) returns (m: nat)
    ensures forall id :: id in ids ==> id < m
    decreases |ids|
  {
    if ids == {} {
      m := 0;
    } else {
      var x :| x in ids;
      m := UpperBound(ids - {x});
      m := if m > x then m else x + 1;
      assert forall id :: id in ids ==> id == x || id in ids - {x};
    }
  }
}
