/** Whole runs on the native interface: any calls in any order on a batch group and the
    sessions of its model, against the streams the sessions would have alone. */
module NativeRun {
  import opened Events
  import opened Reference
  import opened NativeModel
  import opened NativeSession
  import opened NativeBatch

  /** One call. `Feed` is a prefill, of a first prompt or of more text; `Together` is a
      batch step for any of the seats. */
  datatype Move =
    | Feed(s: Session, ids: seq<Token>)
    | Solo(s: Session)
    | Join(s: Session)
    | Together(slots: seq<nat>)
    | Leave(slot: nat)
    | Restart(s: Session)

  /** A session's stream: the text it was fed, what it has handed out since, and how many
      tokens count against its budget. */
  datatype Stream = Stream(prompt: seq<Token>, out: seq<Token>, counted: nat)

  /** Who sits where, and every session's stream. */
  datatype Bench = Bench(seats: seq<Session?>, streams: map<Session, Stream>)

  // ---- the reference: every stream by itself ----

  ghost function Length(st: Stream): nat {
    |st.prompt| + |st.out|
  }

  ghost function OneMore(net: Network, st: Stream, solo: bool): Stream {
    Stream(st.prompt, st.out + [NextAfter(net)(st.prompt + st.out)], st.counted + if solo then 1 else 0)
  }

  ghost function Decoded(net: Network, maxNew: nat, st: Stream): Stream {
    if st.counted < maxNew then OneMore(net, st, true) else st
  }

  ghost predicate HasRoom(maxCtx: nat, st: Stream) {
    0 < Length(st) < maxCtx
  }

  ghost function Named(seats: seq<Session?>, slots: seq<nat>): set<Session> {
    set i: nat | i < |slots| && slots[i] < |seats| && seats[slots[i]] != null :: seats[slots[i]]
  }

  /** The lowest free seat goes to `s`. */
  ghost function TakeSeat(seats: seq<Session?>, s: Session): seq<Session?> {
    if seats == [] then []
    else if seats[0] == null then [s] + seats[1..]
    else [seats[0]] + TakeSeat(seats[1..], s)
  }

  ghost predicate Taken(seats: seq<Session?>, slot: nat) {
    slot < |seats| && seats[slot] != null
  }

  /** Different taken seats of sessions with something in them and room for more. */
  ghost predicate CanStep(maxCtx: nat, b: Bench, slots: seq<nat>) {
    && 0 < |slots| <= |b.seats|
    && (forall i, j :: 0 <= j < i < |slots| ==> slots[i] != slots[j])
    && forall i :: 0 <= i < |slots| ==>
         Taken(b.seats, slots[i]) && b.seats[slots[i]] in b.streams && HasRoom(maxCtx, b.streams[b.seats[slots[i]]])
  }

  /** The calls that are not refused. A seated session is not used by itself. */
  ghost predicate Allowed(maxCtx: nat, maxNew: nat, b: Bench, m: Move) {
    match m
    case Feed(s, ids) =>
      && s in b.streams && s !in b.seats && ids != [] && Length(b.streams[s]) + |ids| <= maxCtx
      && forall i :: 0 <= i < |ids| ==> 0 <= ids[i] < VOCAB
    case Solo(s) => s in b.streams && s !in b.seats && maxNew != 0 && HasRoom(maxCtx, b.streams[s])
    case Join(s) => s in b.streams && s !in b.seats && exists i :: 0 <= i < |b.seats| && b.seats[i] == null
    case Together(slots) => CanStep(maxCtx, b, slots)
    case Leave(slot) => Taken(b.seats, slot)
    case Restart(s) => s in b.streams && s !in b.seats
  }

  /** What a call does: nothing if it is refused; a token is the network's decision after
      the session's own text, whoever else takes part. */
  ghost function Played(net: Network, maxCtx: nat, maxNew: nat, b: Bench, m: Move): (b2: Bench)
    ensures b2.streams.Keys == b.streams.Keys
  {
    if !Allowed(maxCtx, maxNew, b, m) then b
    else
      match m
      case Feed(s, ids) =>
        var st := b.streams[s];
        b.(streams := b.streams[s := Stream(st.prompt + st.out + ids, [], st.counted)])
      case Solo(s) => b.(streams := b.streams[s := Decoded(net, maxNew, b.streams[s])])
      case Join(s) => b.(seats := TakeSeat(b.seats, s))
      case Together(slots) => b.(streams := StepAll(net, b.streams, Named(b.seats, slots)))
      case Leave(slot) => b.(seats := b.seats[slot := null])
      case Restart(s) => b.(streams := b.streams[s := Stream([], [], 0)])
  }

  ghost function StepAll(net: Network, streams: map<Session, Stream>, rows: set<Session>): map<Session, Stream> {
    map s | s in streams :: if s in rows then OneMore(net, streams[s], false) else streams[s]
  }

  ghost function PlayedAll(net: Network, maxCtx: nat, maxNew: nat, b: Bench, moves: seq<Move>): (b2: Bench)
    ensures b2.streams.Keys == b.streams.Keys
  {
    if moves == [] then b
    else Played(net, maxCtx, maxNew, PlayedAll(net, maxCtx, maxNew, b, moves[..|moves| - 1]), moves[|moves| - 1])
  }

  /** Every stream is a beginning of its prompt's sequential reference. */
  ghost predicate Straight(net: Network, b: Bench) {
    forall s :: s in b.streams ==> b.streams[s].out == Emitted(NextAfter(net), b.streams[s].prompt, |b.streams[s].out|)
  }

  lemma OneMoreStraight(net: Network, st: Stream, solo: bool)
    requires st.out == Emitted(NextAfter(net), st.prompt, |st.out|)
    ensures OneMore(net, st, solo).out == Emitted(NextAfter(net), st.prompt, |st.out| + 1)
  {
    hide NextAfter;
  }

  lemma NothingStraight(net: Network, prompt: seq<Token>)
    ensures Emitted(NextAfter(net), prompt, 0) == []
  {
  }

  lemma PlayedStraight(net: Network, maxCtx: nat, maxNew: nat, b: Bench, m: Move)
    requires Straight(net, b)
    ensures Straight(net, Played(net, maxCtx, maxNew, b, m))
  {
    hide Emitted, NextAfter, CanStep, HasRoom, OneMore, Named, TakeSeat;
    var b2 := Played(net, maxCtx, maxNew, b, m);
    forall s | s in b2.streams
      ensures b2.streams[s].out == Emitted(NextAfter(net), b2.streams[s].prompt, |b2.streams[s].out|)
    {
      NothingStraight(net, b2.streams[s].prompt);
      OneMoreShape(net, b.streams[s]);
      OneMoreStraight(net, b.streams[s], true);
      OneMoreStraight(net, b.streams[s], false);
    }
  }

  lemma OneMoreShape(net: Network, st: Stream)
    ensures forall solo :: OneMore(net, st, solo).prompt == st.prompt && |OneMore(net, st, solo).out| == |st.out| + 1
  {
  }

  // ---- the interface plays it ----

  /** Session `s` is in order and holds its stream. */
  ghost predicate Holds(model: Model, s: Session, seated: bool, st: Stream)
    reads s
  {
    s.Valid() && s.model == model && s.grouped == seated && s.fed == st.prompt + st.out && s.generated == st.counted
  }

  ghost predicate Matches(g: BatchGroup, b: Bench)
    reads g, g.Seated(), b.streams.Keys
  {
    && g.Valid() && g.members == b.seats
    && (forall i :: 0 <= i < |b.seats| && b.seats[i] != null ==> b.seats[i] in b.streams)
    && forall s :: s in b.streams ==> Holds(g.model, s, s in b.seats, b.streams[s])
  }

  /** What is left when a device call failed half way. */
  ghost predicate Intact(g: BatchGroup, b: Bench)
    reads g, g.Seated(), b.streams.Keys
  {
    g.Sound() && forall s :: s in b.streams ==> s.Shaped()
  }

  type Outs = map<Session, seq<Token>>

  /** `outs` is what the sessions have handed out. */
  ghost predicate Told(outs: Outs, b: Bench) {
    outs.Keys == b.streams.Keys && forall s :: s in outs ==> outs[s] == b.streams[s].out
  }

  /** A call is refused exactly if it is not allowed; unless the device fails it does what
      the reference says. */
  ghost predicate Answered(g: BatchGroup, b: Bench, m: Move, maxNew: nat, outs: Outs, r: Status, outs2: Outs)
    reads g, g.Seated(), b.streams.Keys
  {
    if r == Cuda then Intact(g, b) && outs2 == outs
    else
      var b2 := Played(g.net, g.maxCtx, maxNew, b, m);
      Matches(g, b2) && Told(outs2, b2) && (r == OK <==> Allowed(g.maxCtx, maxNew, b, m))
  }

  lemma LengthIsSeqLen(g: BatchGroup, b: Bench, s: Session)
    requires Matches(g, b) && s in b.streams
    ensures s.seqLen == s.devLen == |s.fed| == Length(b.streams[s]) <= g.maxCtx
    ensures s.net == g.net && s.maxCtx == g.maxCtx && s.Shaped()
    ensures s !in b.seats ==> s !in g.Seated()
  {
    hide Represents, InVocab;
    LengthIs(s.net, s.Dev(), s.fed, s.promptEnd);
  }

  lemma MatchesIntact(g: BatchGroup, b: Bench)
    requires Matches(g, b)
    ensures Intact(g, b)
  {
    hide Represents, InVocab;
  }

  /** One session moved on; all others are as they were. */
  lemma OneChanged(g: BatchGroup, b: Bench, s: Session, st: Stream)
    requires g.Valid() && g.members == b.seats && s in b.streams && Holds(g.model, s, s in b.seats, st)
    requires forall i :: 0 <= i < |b.seats| && b.seats[i] != null ==> b.seats[i] in b.streams
    requires forall t :: t in b.streams && t != s ==> Holds(g.model, t, t in b.seats, b.streams[t])
    ensures Matches(g, b.(streams := b.streams[s := st]))
  {
    hide Holds, BatchGroup.Valid;
  }

  method PlaySolo(g: BatchGroup, s: Session, maxNew: nat, outs: Outs, ghost b: Bench) returns (r: Status, outs2: Outs)
    requires Matches(g, b) && Told(outs, b) && s in b.streams && s !in b.seats
    modifies s
    ensures Answered(g, b, Solo(s), maxNew, outs, r, outs2)
  {
    hide Represents, KvOf, NextAfter, InVocab, Advance, BatchGroup.Sound, BatchGroup.Valid, Session.Valid,
         Session.Shaped;
    MatchesIntact(g, b);
    LengthIsSeqLen(g, b, s);
    var within := s.generated < maxNew;
    var token;
    r, token := s.DecodeOne(maxNew);
    outs2 := outs;
    if r == OK && within {
      outs2 := outs[s := outs[s] + [token]];
      assert s.fed == b.streams[s].prompt + b.streams[s].out + [token] == b.streams[s].prompt + outs2[s];
      OneChanged(g, b, s, OneMore(g.net, b.streams[s], true));
    }
  }

  method PlayFeed(g: BatchGroup, s: Session, ids: seq<Token>, maxNew: nat, outs: Outs, ghost b: Bench)
    returns (r: Status, outs2: Outs)
    requires Matches(g, b) && Told(outs, b) && s in b.streams && s !in b.seats
    modifies s
    ensures Answered(g, b, Feed(s, ids), maxNew, outs, r, outs2)
  {
    hide Represents, KvOf, NextAfter, InVocab, BatchGroup.Sound, BatchGroup.Valid, Session.Valid, Session.Shaped;
    MatchesIntact(g, b);
    LengthIsSeqLen(g, b, s);
    r := s.Prefill(ids);
    outs2 := outs;
    if r == OK {
      outs2 := outs[s := []];
      assert b.streams[s].prompt + b.streams[s].out + ids + [] == b.streams[s].prompt + b.streams[s].out + ids;
    }
  }

  method PlayRestart(g: BatchGroup, s: Session, maxNew: nat, outs: Outs, ghost b: Bench)
    returns (r: Status, outs2: Outs)
    requires Matches(g, b) && Told(outs, b) && s in b.streams && s !in b.seats
    modifies s
    ensures Answered(g, b, Restart(s), maxNew, outs, r, outs2)
  {
    hide Represents, KvOf, NextAfter, InVocab, BatchGroup.Sound, BatchGroup.Valid, Session.Valid, Session.Shaped;
    MatchesIntact(g, b);
    LengthIsSeqLen(g, b, s);
    r := s.Reset();
    outs2 := outs;
    if r == OK {
      outs2 := outs[s := []];
    }
  }

  lemma {:induction false} SeatTaken(seats: seq<Session?>, s: Session, slot: nat)
    requires slot < |seats| && seats[slot] == null && forall i :: 0 <= i < slot ==> seats[i] != null
    ensures TakeSeat(seats, s) == seats[slot := s]
    decreases |seats|
  {
    if slot > 0 {
      SeatTaken(seats[1..], s, slot - 1);
    }
  }

  method PlayJoin(g: BatchGroup, s: Session, maxNew: nat, outs: Outs, ghost b: Bench) returns (r: Status)
    requires Matches(g, b) && Told(outs, b) && s in b.streams && s !in b.seats
    modifies g, s`grouped
    ensures Answered(g, b, Join(s), maxNew, outs, r, outs)
  {
    hide Represents, KvOf, NextAfter, InVocab, TakeSeat, Session.Valid, Session.Shaped;
    MatchesIntact(g, b);
    LengthIsSeqLen(g, b, s);
    var slot;
    r, slot := g.Add(s);
    if r == OK {
      SeatTaken(b.seats, s, slot);
      assert forall t: Session :: t in g.members <==> t == s || t in b.seats by {
        assert g.members[slot] == s;
        forall t: Session | t in b.seats ensures t in g.members {
          var i :| 0 <= i < |b.seats| && b.seats[i] == t;
          assert g.members[i] == t;
        }
      }
    }
  }

  method PlayLeave(g: BatchGroup, slot: nat, maxNew: nat, outs: Outs, ghost b: Bench) returns (r: Status)
    requires Matches(g, b) && Told(outs, b)
    modifies g, g.Seated()`grouped
    ensures Answered(g, b, Leave(slot), maxNew, outs, r, outs)
  {
    hide Represents, KvOf, NextAfter, InVocab, Session.Valid, Session.Shaped;
    MatchesIntact(g, b);
    ghost var s := if Taken(b.seats, slot) then b.seats[slot] else null;
    r := g.Remove(slot);
    if r == OK {
      assert forall t: Session :: t in g.members <==> t != s && t in b.seats by {
        forall t: Session | t in b.seats && t != s ensures t in g.members {
          var i :| 0 <= i < |b.seats| && b.seats[i] == t;
          assert g.members[i] == t;
        }
      }
    }
  }

  /** The step's own checks are the reference's. */
  lemma ChecksAgree(g: BatchGroup, b: Bench, slots: seq<nat>, greedy: seq<bool>)
    requires Matches(g, b) && |greedy| == |slots| && forall i :: 0 <= i < |slots| ==> greedy[i]
    ensures CanStep(g.maxCtx, b, slots) <==>
            g.Accepts(slots, greedy) && forall i :: 0 <= i < |slots| ==> g.members[slots[i]].seqLen < g.maxCtx
    ensures g.Rows(slots) == Named(b.seats, slots) && g.Rows(slots) <= b.streams.Keys
  {
    hide Represents, InVocab, Session.Valid;
    forall i | 0 <= i < |slots| && Taken(b.seats, slots[i])
      ensures b.seats[slots[i]] in b.streams
      ensures b.seats[slots[i]].seqLen == Length(b.streams[b.seats[slots[i]]])
    {
      LengthIsSeqLen(g, b, b.seats[slots[i]]);
    }
    hide Matches, Length;
  }

  /** Each row's token goes to its session. */
  method HandOut(g: BatchGroup, slots: seq<nat>, tokens: seq<Token>, outs: Outs) returns (outs2: Outs)
    requires |tokens| == |slots| && forall i :: 0 <= i < |slots| ==> g.Occupied(slots[i]) && g.members[slots[i]] in outs
    requires forall i, j :: 0 <= j < i < |slots| ==>
               g.Occupied(slots[i]) && g.Occupied(slots[j]) && g.members[slots[i]] != g.members[slots[j]]
    ensures outs2.Keys == outs.Keys && forall s :: s in outs && s !in g.Rows(slots) ==> outs2[s] == outs[s]
    ensures forall i :: 0 <= i < |slots| ==>
              g.Occupied(slots[i]) && outs2[g.members[slots[i]]] == outs[g.members[slots[i]]] + [tokens[i]]
  {
    outs2 := outs;
    for i := 0 to |slots|
      invariant outs2.Keys == outs.Keys && forall k :: 0 <= k < |slots| ==> g.Occupied(slots[k])
      invariant forall s :: s in outs && s !in g.Rows(slots) ==> outs2[s] == outs[s]
      invariant forall k :: 0 <= k < i ==> outs2[g.members[slots[k]]] == outs[g.members[slots[k]]] + [tokens[k]]
      invariant forall k :: i <= k < |slots| ==> outs2[g.members[slots[k]]] == outs[g.members[slots[k]]]
    {
      var s: Session := g.members[slots[i]];
      assert s in g.Rows(slots);
      outs2 := outs2[s := outs2[s] + [tokens[i]]];
    }
  }

  /** A row that was handed its decision holds one more token. */
  lemma RowHolds(model: Model, s: Session, st: Stream, token: Token)
    requires s.Valid() && s.model == model && s.grouped && s.generated == st.counted
    requires s.fed == st.prompt + st.out + [token] && token == NextAfter(model.net)(st.prompt + st.out)
    ensures Holds(model, s, true, OneMore(model.net, st, false))
  {
    hide Session.Valid, NextAfter;
    assert st.prompt + st.out + [token] == st.prompt + (st.out + [token]);
  }

  /** What the rows were handed is what the reference gives them. */
  lemma ToldAll(g: BatchGroup, b: Bench, slots: seq<nat>, tokens: seq<Token>, outs: Outs, outs2: Outs)
    requires Told(outs, b) && g.members == b.seats && |tokens| == |slots| && outs2.Keys == outs.Keys
    requires forall i :: 0 <= i < |slots| ==> g.Occupied(slots[i]) && g.members[slots[i]] in b.streams
    requires forall s :: s in outs && s !in g.Rows(slots) ==> outs2[s] == outs[s]
    requires forall i :: 0 <= i < |slots| ==>
               && NextToken(g.net, b, slots[i], tokens[i])
               && outs2[g.members[slots[i]]] == outs[g.members[slots[i]]] + [tokens[i]]
    ensures Told(outs2, b.(streams := StepAll(g.net, b.streams, Named(b.seats, slots))))
  {
    hide NextAfter;
    var b2 := b.(streams := StepAll(g.net, b.streams, Named(b.seats, slots)));
    forall s | s in outs2 ensures outs2[s] == b2.streams[s].out {
      if s in Named(b.seats, slots) {
        var i :| 0 <= i < |slots| && g.members[slots[i]] == s;
        assert outs2[s] == outs[s] + [tokens[i]];
      }
    }
  }

  lemma RowsDiffer(g: BatchGroup, b: Bench, slots: seq<nat>)
    requires Matches(g, b) && CanStep(g.maxCtx, b, slots)
    ensures forall i :: 0 <= i < |slots| ==> g.Occupied(slots[i]) && g.members[slots[i]] in b.streams
    ensures forall i, j :: 0 <= j < i < |slots| ==>
              g.Occupied(slots[i]) && g.Occupied(slots[j]) && g.members[slots[i]] != g.members[slots[j]]
  {
    hide Holds, Session.Valid, HasRoom;
  }

  /** The step itself, without what is handed out. */
  method StepSeats(g: BatchGroup, slots: seq<nat>, ghost b: Bench) returns (r: Status, tokens: seq<Token>)
    requires Matches(g, b)
    modifies g.Rows(slots)
    ensures if r == Cuda then Intact(g, b) else (r == OK <==> CanStep(g.maxCtx, b, slots))
    ensures r != Cuda && r != OK ==> Matches(g, b)
    ensures r == OK ==>
              && Matches(g, b.(streams := StepAll(g.net, b.streams, Named(b.seats, slots))))
              && |tokens| == |slots| && forall i :: 0 <= i < |slots| ==> NextToken(g.net, b, slots[i], tokens[i])
  {
    hide Represents, KvOf, NextAfter, InVocab, Advance, AtStage, CanStep, OneMore;
    hide Session.Valid, Session.Shaped, BatchGroup.Sound, BatchGroup.Valid;
    var greedy := seq(|slots|, i => true);
    MatchesIntact(g, b);
    ChecksAgree(g, b, slots, greedy);
    ghost var launched, stage;
    r, tokens, launched, stage := g.Step(slots, greedy);
    if r == OK {
      forall i | 0 <= i < |slots|
        ensures Stepped(g.net, g.members[slots[i]], b.streams[g.members[slots[i]]], tokens[i])
      {
      }
      StepMatches(g, b, slots, tokens);
    }
  }

  ghost predicate NextToken(net: Network, b: Bench, slot: nat, token: Token) {
    && Taken(b.seats, slot) && b.seats[slot] in b.streams
    && token == NextAfter(net)(b.streams[b.seats[slot]].prompt + b.streams[b.seats[slot]].out)
  }

  method PlayTogether(g: BatchGroup, slots: seq<nat>, maxNew: nat, outs: Outs, ghost b: Bench)
    returns (r: Status, outs2: Outs)
    requires Matches(g, b) && Told(outs, b)
    modifies g.Rows(slots)
    ensures Answered(g, b, Together(slots), maxNew, outs, r, outs2)
  {
    hide Represents, KvOf, NextAfter, InVocab, Holds;
    hide Session.Valid, Session.Shaped;
    ghost var b2 := b.(streams := StepAll(g.net, b.streams, Named(b.seats, slots)));
    if CanStep(g.maxCtx, b, slots) {
      RowsDiffer(g, b, slots);
    }
    var tokens;
    r, tokens := StepSeats(g, slots, b);
    outs2 := outs;
    if r == OK {
      outs2 := HandOut(g, slots, tokens, outs);
      ToldAll(g, b, slots, tokens, outs, outs2);
    }
  }

  /** Row `s` was handed `token`, its stream's next one. */
  ghost predicate Stepped(net: Network, s: Session, st: Stream, token: Token)
    reads s
  {
    s.fed == st.prompt + st.out + [token] && s.generated == st.counted && token == NextAfter(net)(st.prompt + st.out)
  }

  lemma StepMatches(g: BatchGroup, b: Bench, slots: seq<nat>, tokens: seq<Token>)
    requires g.Valid() && g.members == b.seats && |tokens| == |slots|
    requires forall i :: 0 <= i < |b.seats| && b.seats[i] != null ==> b.seats[i] in b.streams
    requires forall i :: 0 <= i < |slots| ==>
               g.Occupied(slots[i]) && Stepped(g.net, g.members[slots[i]], b.streams[g.members[slots[i]]], tokens[i])
    requires forall s :: s in b.streams && s !in Named(b.seats, slots) ==> Holds(g.model, s, s in b.seats, b.streams[s])
    ensures Matches(g, b.(streams := StepAll(g.net, b.streams, Named(b.seats, slots))))
  {
    hide Represents, KvOf, NextAfter, InVocab, OneMore;
    var b2 := b.(streams := StepAll(g.net, b.streams, Named(b.seats, slots)));
    forall s | s in b2.streams ensures Holds(g.model, s, s in b.seats, b2.streams[s]) {
      if s in Named(b.seats, slots) {
        var i :| 0 <= i < |slots| && g.members[slots[i]] == s;
        assert Stepped(g.net, s, b.streams[s], tokens[i]);
        RowHolds(g.model, s, b.streams[s], tokens[i]);
      }
    }
  }

  /** The session a call is for, if it is for one, is one of ours. */
  predicate Ours(fleet: set<Session>, m: Move) {
    m.Feed? || m.Solo? || m.Join? || m.Restart? ==> m.s in fleet
  }

  /** One call. A seated session is not called by itself. */
  method Play(g: BatchGroup, m: Move, maxNew: nat, outs: Outs, ghost b: Bench) returns (r: Status, outs2: Outs)
    requires Matches(g, b) && Told(outs, b) && Ours(b.streams.Keys, m)
    modifies g, b.streams.Keys
    ensures Answered(g, b, m, maxNew, outs, r, outs2)
  {
    hide Represents, InVocab, Played, Allowed;
    outs2 := outs;
    SeatedAreOurs(g, b);
    if m.Together? {
      r, outs2 := PlayTogether(g, m.slots, maxNew, outs, b);
    } else if m.Leave? {
      r := PlayLeave(g, m.slot, maxNew, outs, b);
    } else {
      LengthIsSeqLen(g, b, m.s);
      if m.s.grouped {
        NotWhileSeated(g.net, g.maxCtx, maxNew, b, m);
        r := Unsupported;
      } else if m.Feed? {
        r, outs2 := PlayFeed(g, m.s, m.ids, maxNew, outs, b);
      } else if m.Solo? {
        r, outs2 := PlaySolo(g, m.s, maxNew, outs, b);
      } else if m.Join? {
        r := PlayJoin(g, m.s, maxNew, outs, b);
      } else {
        r, outs2 := PlayRestart(g, m.s, maxNew, outs, b);
      }
    }
  }

  lemma SeatedAreOurs(g: BatchGroup, b: Bench)
    requires Matches(g, b)
    ensures g.Seated() <= b.streams.Keys && forall slots :: g.Rows(slots) <= b.streams.Keys
  {
    hide Holds;
  }

  lemma NotWhileSeated(net: Network, maxCtx: nat, maxNew: nat, b: Bench, m: Move)
    requires (m.Feed? || m.Solo? || m.Join? || m.Restart?) && m.s in b.seats
    ensures !Allowed(maxCtx, maxNew, b, m) && Played(net, maxCtx, maxNew, b, m) == b
  {
  }

  /** The bench as it is now: what every session holds counts as its prompt. */
  ghost function BenchOf(g: BatchGroup, fleet: set<Session>): Bench
    reads g, fleet
  {
    Bench(g.members, map s | s in fleet :: Stream(s.fed, [], s.generated))
  }

  /** Any calls, in any order, on any sessions: prompts in chunks, solo decodes, eager or
      replayed as each session has it, joins, batch steps of any size, leaves, resets. The
      run makes all of them, refused or not, unless the device fails in one; after every
      call host and device of every session agree, and the sessions have handed out what
      the reference gives each of them by itself. */
  method MixedRun(g: BatchGroup, fleet: set<Session>, moves: seq<Move>, maxNew: nat)
    returns (outs: Outs, made: nat, r: Status)
    requires g.Valid() && g.Seated() <= fleet && forall m :: m in moves ==> Ours(fleet, m)
    requires forall s :: s in fleet ==> s.Valid() && s.model == g.model && (s.grouped <==> s in g.members)
    modifies g, fleet
    ensures if r == Cuda then made < |moves| else made == |moves|
    ensures
      var b := PlayedAll(g.net, g.maxCtx, maxNew, old(BenchOf(g, fleet)), moves[..made]);
      && Straight(g.net, b) && Told(outs, b) && (if r == Cuda then Intact(g, b) else Matches(g, b))
  {
    hide Represents, InVocab, Played, Allowed, NextAfter, Emitted;
    ghost var b0 := BenchOf(g, fleet);
    ghost var b := b0;
    outs := map s | s in fleet :: [];
    made, r := 0, OK;
    StartMatches(g, fleet);
    assert moves[..0] == [];
    while made < |moves|
      invariant 0 <= made <= |moves| && b == PlayedAll(g.net, g.maxCtx, maxNew, b0, moves[..made])
      invariant b.streams.Keys == fleet && Straight(g.net, b)
      invariant Matches(g, b) && Told(outs, b) && r != Cuda
    {
      r, outs := Play(g, moves[made], maxNew, outs, b);
      if r == Cuda {
        return;
      }
      PlayedStraight(g.net, g.maxCtx, maxNew, b, moves[made]);
      OneMorePlayed(g.net, g.maxCtx, maxNew, b0, moves, made);
      b := Played(g.net, g.maxCtx, maxNew, b, moves[made]);
      made := made + 1;
    }
    assert moves[..made] == moves;
  }

  lemma OneMorePlayed(net: Network, maxCtx: nat, maxNew: nat, b: Bench, moves: seq<Move>, n: nat)
    requires n < |moves|
    ensures PlayedAll(net, maxCtx, maxNew, b, moves[..n + 1]) ==
            Played(net, maxCtx, maxNew, PlayedAll(net, maxCtx, maxNew, b, moves[..n]), moves[n])
  {
    hide Played;
    assert moves[..n + 1][..n] == moves[..n];
  }

  lemma StartMatches(g: BatchGroup, fleet: set<Session>)
    requires g.Valid() && g.Seated() <= fleet
    requires forall s :: s in fleet ==> s.Valid() && s.model == g.model && (s.grouped <==> s in g.members)
    ensures Matches(g, BenchOf(g, fleet)) && Straight(g.net, BenchOf(g, fleet))
  {
    hide Represents, InVocab, Session.Shaped;
    assert forall i :: 0 <= i < |g.members| && g.members[i] != null ==> g.members[i] in g.Seated();
  }
}
