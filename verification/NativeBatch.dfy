/** The native batch group: seats for sessions, and one step for several of them. */
module NativeBatch {
  import opened Events
  import opened Reference
  import opened NativeModel
  import opened NativeSession

  const MAX_BATCH_SLOTS: nat := 8

  /** How far a step that failed after its launch got on the device, for all its rows
      alike: the decision and the advance are one kernel each. */
  datatype Stage = Untouched | Decided | Advanced

  /** A row's device memory after a step that got as far as `stage`. */
  ghost predicate AtStage(net: Network, d: Device, d2: Device, stage: Stage) {
    && d.seqLen < |d.kv| == |d.record|
    && match stage
       case Untouched => NearlySame(d, d2) && d2.next == d.next
       case Decided => NearlySame(d, d2) && d2.next == Advance(net, d).next
       case Advanced => d2 == Advance(net, d)
  }

  /** Nothing but the pending decision and the cache from the current position on differs. */
  ghost predicate NearlySame(d: Device, d2: Device) {
    d2.seqLen == d.seqLen <= |d.kv| == |d2.kv| && d2.record == d.record && d2.kv[..d.seqLen] == d.kv[..d.seqLen]
  }

  /** The decision a decode of a session that holds `fed` hands out, and the one after. */
  ghost function Now(net: Network, fed: seq<Token>): Token {
    NextAfter(net)(fed)
  }

  ghost function Later(net: Network, fed: seq<Token>): Token {
    NextAfter(net)(fed + [NextAfter(net)(fed)])
  }

  /** A failed step left its row in order exactly if the new decision was not yet written,
      or is the old one again and was not yet counted. What the next solo decode hands out
      is the pending decision; it is the right one exactly if the new decision was not yet
      written or is the old one again. */
  lemma StageOutcome(net: Network, d: Device, d2: Device, fed: seq<Token>, promptEnd: nat, stage: Stage)
    requires Represents(net, d, fed, promptEnd) && fed != [] && AtStage(net, d, d2, stage)
    ensures d2.seqLen == |fed| && Represents(net, d2, fed, promptEnd) <==>
            stage == Untouched || (stage == Decided && Later(net, fed) == Now(net, fed))
    ensures d2.next == Now(net, fed) <==> stage == Untouched || Later(net, fed) == Now(net, fed)
    ensures d2.next == if stage == Untouched then Now(net, fed) else Later(net, fed)
  {
    AdvanceRepresents(net, d, fed, promptEnd);
    hide KvOf, NextAfter, Advance;
  }

  /** A network whose decisions alternate. */
  function Alternating(): Network {
    Network((kvs: seq<Kv>, t: Token) => 0, (kvs: seq<Kv>) => |kvs| % 2)
  }

  /** On it, whatever a session holds, a solo decode after a step that failed with its
      decision written hands out a wrong token. */
  lemma LateFailureSkips(d: Device, d2: Device, fed: seq<Token>, promptEnd: nat, stage: Stage)
    requires Represents(Alternating(), d, fed, promptEnd) && fed != []
    requires AtStage(Alternating(), d, d2, stage) && stage != Untouched
    ensures InVocab(Alternating()) && d2.next != Now(Alternating(), fed)
  {
    StageOutcome(Alternating(), d, d2, fed, promptEnd, stage);
    NextIs(Alternating(), fed);
    NextIs(Alternating(), fed + [NextAfter(Alternating())(fed)]);
  }

  class BatchGroup {
    const model: Model
    const net: Network := model.net
    const maxCtx: nat := model.maxCtx
    const maxSlots: nat
    var members: seq<Session?>

    ghost function Seated(): set<Session>
      reads this
    {
      set s: Session | s in members
    }

    /** Seats hold different busy sessions of this model. */
    ghost predicate Sound()
      reads this, Seated()
    {
      && InVocab(net) && 0 < maxSlots <= MAX_BATCH_SLOTS && |members| == maxSlots
      && (forall i, j :: 0 <= i < j < maxSlots && members[i] != null ==> members[i] != members[j])
      && (forall i :: 0 <= i < maxSlots && members[i] != null ==>
            members[i].grouped && members[i].Shaped() && members[i].model == model)
    }

    /** And every session is in order. */
    ghost predicate Valid()
      reads this, Seated()
    {
      Sound() && forall i :: 0 <= i < maxSlots && members[i] != null ==> members[i].Valid()
    }

    constructor (model: Model, maxSlots: nat)
      requires InVocab(model.net) && 0 < maxSlots <= MAX_BATCH_SLOTS
      ensures Valid() && this.model == model && this.maxSlots == maxSlots
      ensures members == seq(maxSlots, i => null)
    {
      this.model, this.maxSlots := model, maxSlots;
      members := seq(maxSlots, i => null);
    }

    predicate Occupied(slot: nat)
      reads this
    {
      slot < |members| && members[slot] != null
    }

    /** The lowest free seat. A session of another model, a busy session and a full group
        are refused. */
    method Add(s: Session) returns (r: Status, slot: nat)
      requires Valid() && s.Valid()
      modifies this, s`grouped
      ensures Valid()
      ensures r == Unsupported <==>
                s.model != model || old(s.grouped) || forall i :: 0 <= i < maxSlots ==> old(members)[i] != null
      ensures r == OK ==>
                && slot < maxSlots && old(members)[slot] == null
                     && (forall i :: 0 <= i < slot ==> old(members)[i] != null)
                && members == old(members)[slot := s] && s.grouped
      ensures r != OK ==> members == old(members) && s.grouped == old(s.grouped) && (r == Unsupported || r == Cuda)
    {
      if s.model != model {
        return Unsupported, 0;
      }
      if s.grouped {
        return Unsupported, 0;
      }
      slot := 0;
      while slot < maxSlots && members[slot] != null
        invariant 0 <= slot <= maxSlots && forall i :: 0 <= i < slot ==> members[i] != null
      {
        slot := slot + 1;
      }
      if slot == maxSlots {
        return Unsupported, 0;
      }
      var failed: bool := *;
      if failed {
        return Cuda, 0;
      }
      members := members[slot := s];
      s.grouped := true;
      r := OK;
    }

    /** Also a member that a failed step left out of order can leave. */
    method Remove(slot: nat) returns (r: Status)
      requires Sound()
      modifies this, Seated()`grouped
      ensures Sound() && (old(Valid()) ==> Valid())
      ensures r == InvalidArgument <==> !old(Occupied(slot))
      ensures r == OK ==>
                && members == old(members)[slot := null] && !old(members)[slot].grouped && old(members)[slot].Shaped()
                && (old(members[slot].Valid()) ==> old(members)[slot].Valid())
      ensures r != OK ==> members == old(members) && (r == InvalidArgument || r == Cuda)
    {
      if slot >= maxSlots || members[slot] == null {
        return InvalidArgument;
      }
      var failed: bool := *;
      if failed {
        return Cuda;
      }
      var s: Session := members[slot];
      members := members[slot := null];
      s.grouped := false;
      r := OK;
    }

    /** The sessions named by `slots`. */
    ghost function Rows(slots: seq<nat>): set<Session>
      reads this
    {
      set i: nat | i < |slots| && slots[i] < |members| && members[slots[i]] != null :: members[slots[i]]
    }

    /** What a step demands of its arguments and of the sessions it names. */
    predicate Accepts(slots: seq<nat>, greedy: seq<bool>)
      requires |slots| == |greedy|
      reads this, Rows(slots)
    {
      && 0 < |slots| <= maxSlots
      && (forall i :: 0 <= i < |slots| ==> Occupied(slots[i]))
      && (forall i, j :: 0 <= j < i < |slots| ==> slots[i] != slots[j])
      && (forall i :: 0 <= i < |slots| ==> greedy[i])
      && (forall i :: 0 <= i < |slots| ==> members[slots[i]].seqLen > 0)
    }

    /** Nothing is wrong with entry `i` given those before it. */
    ghost predicate FineAt(slots: seq<nat>, greedy: seq<bool>, i: nat)
      requires i < |slots| == |greedy|
      reads this
    {
      Occupied(slots[i]) && slots[i] !in slots[..i] && greedy[i]
    }

    ghost predicate FineUpTo(slots: seq<nat>, greedy: seq<bool>, n: nat)
      requires n <= |slots| == |greedy|
      reads this
    {
      forall i :: 0 <= i < n ==> FineAt(slots, greedy, i)
    }

    /** The answer of the checks: that of the first entry that is wrong; with all of them
        fine, that of the first member that is empty or full, unless a page copy failed. */
    ghost predicate Answers(slots: seq<nat>, greedy: seq<bool>, r: Status)
      requires |slots| == |greedy|
      reads this, Rows(slots)
    {
      if |slots| == 0 || |slots| > maxSlots then r == InvalidArgument
      else
        && (forall i :: 0 <= i < |slots| && FineUpTo(slots, greedy, i) && !FineAt(slots, greedy, i) ==>
              r == if Occupied(slots[i]) && slots[i] !in slots[..i] then Unsupported else InvalidArgument)
        && (FineUpTo(slots, greedy, |slots|) ==> RowsAnswer(slots, r))
    }

    /** The first wrong entry gives the answer. */
    lemma AnswerAt(slots: seq<nat>, greedy: seq<bool>, i: nat, r: Status)
      requires i < |slots| == |greedy| <= maxSlots && FineUpTo(slots, greedy, i) && !FineAt(slots, greedy, i)
      requires r == if Occupied(slots[i]) && slots[i] !in slots[..i] then Unsupported else InvalidArgument
      ensures Answers(slots, greedy, r)
    {
      hide FineAt;
      assert forall k :: i < k <= |slots| ==> !FineUpTo(slots, greedy, k);
    }

    lemma AnswerRows(slots: seq<nat>, greedy: seq<bool>, r: Status)
      requires 0 < |slots| == |greedy| <= maxSlots && FineUpTo(slots, greedy, |slots|) && RowsAnswer(slots, r)
      ensures Answers(slots, greedy, r)
    {
      hide FineAt, RowsAnswer;
    }

    ghost predicate RowsAnswer(slots: seq<nat>, r: Status)
      reads this, Rows(slots)
    {
      && (r == OK <==> r != Cuda && InRange(slots, |slots|))
      && (r != OK && r != Cuda ==>
            exists i :: 0 <= i < |slots| && Occupied(slots[i]) && InRange(slots, i) &&
              if members[slots[i]].seqLen == 0 then r == InvalidArgument
              else members[slots[i]].seqLen >= maxCtx && r == OutOfMemory)
    }

    ghost predicate InRange(slots: seq<nat>, n: nat)
      requires n <= |slots|
      reads this, Rows(slots)
    {
      forall i :: 0 <= i < n ==> Occupied(slots[i]) && 0 < members[slots[i]].seqLen < maxCtx
    }

    /** The checks before any work: slots, configurations, then each member's state. */
    method CheckStep(slots: seq<nat>, greedy: seq<bool>) returns (r: Status)
      requires Valid() && |slots| == |greedy|
      ensures r == OK ==> Accepts(slots, greedy) && forall i :: 0 <= i < |slots| ==> members[slots[i]].seqLen < maxCtx
      ensures Accepts(slots, greedy) ==> r == OK || r == OutOfMemory || r == Cuda
      ensures Answers(slots, greedy, r)
      ensures Accepts(slots, greedy) && r == OutOfMemory ==>
                exists i :: 0 <= i < |slots| && members[slots[i]].seqLen == maxCtx
      ensures Accepts(slots, greedy) && (exists i :: 0 <= i < |slots| && members[slots[i]].seqLen == maxCtx) ==> r != OK
    {
      if |slots| == 0 || |slots| > maxSlots {
        return InvalidArgument;
      }
      var i := 0;
      while i < |slots|
        invariant 0 <= i <= |slots|
        invariant forall k :: 0 <= k < i ==> Occupied(slots[k]) && greedy[k]
        invariant FineUpTo(slots, greedy, i)
        invariant forall k, l :: 0 <= l < k < i ==> slots[k] != slots[l]
      {
        if slots[i] >= maxSlots || members[slots[i]] == null {
          AnswerAt(slots, greedy, i, InvalidArgument);
          return InvalidArgument;
        }
        var j := 0;
        while j < i
          invariant 0 <= j <= i && forall l :: 0 <= l < j ==> slots[l] != slots[i]
        {
          if slots[j] == slots[i] {
            assert slots[..i][j] == slots[i];
            AnswerAt(slots, greedy, i, InvalidArgument);
            return InvalidArgument;
          }
          j := j + 1;
        }
        if !greedy[i] {
          AnswerAt(slots, greedy, i, Unsupported);
          return Unsupported;
        }
        i := i + 1;
      }
      r := CheckRows(slots, greedy);
    }

    /** The second half of the checks. */
    method CheckRows(slots: seq<nat>, greedy: seq<bool>) returns (r: Status)
      requires Valid() && 0 < |slots| == |greedy| <= maxSlots && FineUpTo(slots, greedy, |slots|)
      ensures Answers(slots, greedy, r) && RowsAnswer(slots, r)
    {
      hide Answers, FineAt;
      assert forall k :: 0 <= k < |slots| ==> Occupied(slots[k]) by { AllOccupied(slots, greedy); }
      var i := 0;
      while i < |slots|
        invariant 0 <= i <= |slots| && InRange(slots, i)
      {
        var s: Session := members[slots[i]];
        SeatOk(slots[i]);
        if s.seqLen == 0 {
          AnswerRows(slots, greedy, InvalidArgument);
          return InvalidArgument;
        }
        if s.seqLen >= maxCtx {
          AnswerRows(slots, greedy, OutOfMemory);
          return OutOfMemory;
        }
        var paged: bool := *;
        if !paged {
          AnswerRows(slots, greedy, Cuda);
          return Cuda;
        }
        i := i + 1;
      }
      r := OK;
      AnswerRows(slots, greedy, r);
    }

    lemma AllOccupied(slots: seq<nat>, greedy: seq<bool>)
      requires |slots| == |greedy| && FineUpTo(slots, greedy, |slots|)
      ensures forall k :: 0 <= k < |slots| ==> Occupied(slots[k])
    {
      forall k | 0 <= k < |slots| ensures Occupied(slots[k]) {
        assert FineAt(slots, greedy, k);
      }
    }

    lemma SeatOk(slot: nat)
      requires Valid() && Occupied(slot)
      ensures members[slot].Valid() && members[slot].seqLen <= maxCtx && members[slot].net == net
                && members[slot].maxCtx == maxCtx
      ensures members[slot].model == model
    {
    }

    method NamedRows(slots: seq<nat>) returns (rows: seq<Session>)
      requires forall i :: 0 <= i < |slots| ==> Occupied(slots[i])
      ensures |rows| == |slots| && forall i :: 0 <= i < |rows| ==> Occupied(slots[i]) && rows[i] == members[slots[i]]
    {
      rows := [];
      for i := 0 to |slots|
        invariant |rows| == i && forall k :: 0 <= k < i ==> rows[k] == members[slots[k]]
      {
        rows := rows + [members[slots[i]]];
      }
    }

    /** The rows are different seated sessions, each ready for one more token. */
    lemma RowsOk(slots: seq<nat>, greedy: seq<bool>, rows: seq<Session>)
      requires Valid() && |slots| == |greedy| && Accepts(slots, greedy)
      requires forall i :: 0 <= i < |slots| ==> members[slots[i]].seqLen < maxCtx
      requires |rows| == |slots| && forall i :: 0 <= i < |rows| ==> rows[i] == members[slots[i]]
      ensures Different(rows) && forall i :: 0 <= i < |rows| ==> rows[i] in Rows(slots)
      ensures forall i :: 0 <= i < |rows| ==>
                Ready(rows[i], net) && rows[i].maxCtx == maxCtx && rows[i].grouped && rows[i].model == model
    {
      forall i | 0 <= i < |rows|
        ensures Ready(rows[i], net) && rows[i].maxCtx == maxCtx && rows[i].grouped && rows[i].model == model
      {
        assert Occupied(slots[i]);
        SeatOk(slots[i]);
        NextInVocab(net, rows[i].Dev(), rows[i].fed, rows[i].promptEnd);
      }
    }

    /** One step for the sessions in `slots`: each hands out its next token exactly as a
        solo decode would have, and nobody else moves. Refusals and failures before the
        kernels are launched change nothing. A failure after that leaves the host's side
        as it was and all rows' device memory at one stage; a row is then still in order
        exactly if its decision was not written, or is the same again and not counted. */
    method Step(slots: seq<nat>, greedy: seq<bool>)
      returns (r: Status, tokens: seq<Token>, ghost launched: bool, ghost stage: Stage)
      requires Valid() && |slots| == |greedy|
      modifies Rows(slots)
      ensures Sound() && (old(Accepts(slots, greedy)) ==> r == OK || r == OutOfMemory || r == Cuda)
      ensures r == OutOfMemory && old(Accepts(slots, greedy)) ==>
                exists i :: 0 <= i < |slots| && Occupied(slots[i]) && members[slots[i]].seqLen == maxCtx
      ensures !launched ==> r != OK && stage == Untouched && Valid() && unchanged(Rows(slots))
      ensures !launched ==> old(Answers(slots, greedy, r))
      ensures launched ==> old(Accepts(slots, greedy)) && (r == OK || r == Cuda)
      ensures launched ==> forall i :: 0 <= i < |slots| ==> old(members[slots[i]].seqLen) < maxCtx
      ensures r == OK ==> Valid() && |tokens| == |slots| && forall i :: 0 <= i < |slots| ==>
                && Occupied(slots[i])
                && var s: Session := members[slots[i]];
                && s.Decoded(old(s.Dev()), old(s.fed), old(s.promptEnd), tokens[i])
                && s.generated == old(s.generated)
                && tokens[i] == NextAfter(net)(old(s.fed))
      ensures launched && r != OK ==> forall s :: s in Rows(slots) ==>
                && HostSame(s, old(s.seqLen), old(s.fed), old(s.promptEnd), old(s.generated))
                && AtStage(net, old(s.Dev()), s.Dev(), stage)
                && (s.Valid() <==> stage == Untouched || (stage == Decided && Later(net, s.fed) == Now(net, s.fed)))
    {
      launched, stage := false, Untouched;
      tokens := [];
      hide Represents, KvOf, NextAfter, InVocab, Advance, AtStage, Now, Later, Session.Decoded, Answers;
      r := CheckStep(slots, greedy);
      if r != OK {
        return;
      }
      var rows := NamedRows(slots);
      RowsOk(slots, greedy, rows);
      launched := true;
      r, tokens, stage := StepRows(net, rows);
      forall k | 0 <= k < maxSlots && members[k] != null
        ensures members[k].grouped && members[k].Shaped() && members[k].model == model
        ensures r == OK ==> members[k].Valid()
      {
        var s: Session := members[k];
        if s !in rows {
          assert old(s.Valid()) && s.Valid();
        }
      }
    }
  }

  /** The host's side of a session that holds `fed`. */
  ghost predicate HostSame(s: Session, len: nat, fed: seq<Token>, promptEnd: nat, generated: nat)
    reads s
  {
    s.seqLen == s.mirrorLen == len && s.fed == fed && s.promptEnd == promptEnd && s.generated == generated && s.Shaped()
  }

  predicate Different(rows: seq<Session>) {
    forall i, j :: 0 <= i < j < |rows| ==> rows[i] != rows[j]
  }

  /** Hand out the old decisions. */
  method Collect(rows: seq<Session>) returns (tokens: seq<Token>)
    ensures |tokens| == |rows| && forall i :: 0 <= i < |rows| ==> tokens[i] == rows[i].next
  {
    tokens := [];
    for i := 0 to |rows|
      invariant |tokens| == i && forall k :: 0 <= k < i ==> tokens[k] == rows[k].next
    {
      tokens := tokens + [rows[i].next];
    }
  }

  /** The layers for all rows; they may stop half way. */
  method Layers(rows: seq<Session>) returns (ok: bool)
    requires Different(rows)
    requires forall i :: 0 <= i < |rows| ==> rows[i].Shaped() && rows[i].devLen < rows[i].maxCtx
    modifies (set s | s in rows)`kv
    ensures forall i :: 0 <= i < |rows| ==>
              rows[i].devLen < |rows[i].kv| == |old(rows[i].kv)|
                  && rows[i].kv[..rows[i].devLen] == old(rows[i].kv)[..rows[i].devLen]
    ensures ok ==> forall i :: 0 <= i < |rows| ==>
              rows[i].kv == old(rows[i].kv)[rows[i].devLen :=
                              rows[i].net.write(old(rows[i].kv)[..rows[i].devLen], rows[i].next)]
  {
    ok := true;
    for i := 0 to |rows|
      invariant forall k :: 0 <= k < i ==>
        && |old(rows[k].kv)| == rows[k].maxCtx
        && rows[k].kv == old(rows[k].kv)[rows[k].devLen :=
                           rows[k].net.write(old(rows[k].kv)[..rows[k].devLen], rows[k].next)]
      invariant forall k :: i <= k < |rows| ==> rows[k].kv == old(rows[k].kv)
    {
      var failed: bool := *;
      if failed {
        return false;
      }
      var s := rows[i];
      s.kv := s.kv[s.devLen := s.net.write(s.kv[..s.devLen], s.next)];
    }
  }

  /** The batch argmax: every row's new decision replaces its old one. */
  method DecideAll(rows: seq<Session>)
    requires Different(rows)
    requires forall i :: 0 <= i < |rows| ==> rows[i].devLen < |rows[i].kv|
    modifies (set s | s in rows)`next
    ensures forall i :: 0 <= i < |rows| ==> rows[i].next == rows[i].net.decide(rows[i].kv[..rows[i].devLen + 1])
  {
    for i := 0 to |rows|
      invariant forall k :: 0 <= k < i ==> rows[k].next == rows[k].net.decide(rows[k].kv[..rows[k].devLen + 1])
    {
      rows[i].next := rows[i].net.decide(rows[i].kv[..rows[i].devLen + 1]);
    }
  }

  /** The batch advance: every row's decision goes on record and its length grows. */
  method AdvanceAll(rows: seq<Session>)
    requires Different(rows)
    requires forall i :: 0 <= i < |rows| ==> rows[i].devLen < |rows[i].record|
    modifies (set s | s in rows)`record, (set s | s in rows)`devLen
    ensures forall i :: 0 <= i < |rows| ==>
              && old(rows[i].devLen) < |old(rows[i].record)|
              && rows[i].record == old(rows[i].record)[old(rows[i].devLen) := rows[i].next]
              && rows[i].devLen == old(rows[i].devLen) + 1
  {
    for i := 0 to |rows|
      invariant forall k :: 0 <= k < i ==>
        && rows[k].record == old(rows[k].record)[old(rows[k].devLen) := rows[k].next]
        && rows[k].devLen == old(rows[k].devLen) + 1
      invariant forall k :: i <= k < |rows| ==>
                  rows[k].record == old(rows[k].record) && rows[k].devLen == old(rows[k].devLen)
    {
      var s := rows[i];
      s.record := s.record[s.devLen := s.next];
      s.devLen := s.devLen + 1;
    }
  }

  /** Layers, decisions, advance, synchronisation; each may fail. */
  method Launch(net: Network, rows: seq<Session>) returns (ok: bool, ghost stage: Stage)
    requires InVocab(net) && Different(rows)
    requires forall i :: 0 <= i < |rows| ==> rows[i].Shaped() && rows[i].devLen < rows[i].maxCtx && rows[i].net == net
    modifies (set s | s in rows)`kv, (set s | s in rows)`next, (set s | s in rows)`record, (set s | s in rows)`devLen
    ensures forall i :: 0 <= i < |rows| ==> rows[i].Shaped() && AtStage(net, old(rows[i].Dev()), rows[i].Dev(), stage)
    ensures ok ==> stage == Advanced
  {
    hide InVocab;
    forall kvs: seq<Kv> ensures 0 <= net.decide(kvs) < VOCAB {
      DecidesInVocab(net, kvs);
    }
    stage := Untouched;
    ok := Layers(rows);
    if !ok {
      return;
    }
    ok := *;
    if !ok {
      return;
    }
    DecideAll(rows);
    stage := Decided;
    ok := *;
    if !ok {
      return;
    }
    AdvanceAll(rows);
    stage := Advanced;
    ok := *;
  }

  /** The host catches up; a batch step is not counted in the session's own statistics. */
  method FollowAll(rows: seq<Session>, tokens: seq<Token>)
    requires Different(rows) && |tokens| == |rows|
    modifies (set s | s in rows)`seqLen, (set s | s in rows)`mirrorLen, (set s | s in rows)`mirrorNext,
               (set s | s in rows)`fed
    ensures forall i :: 0 <= i < |rows| ==>
              && rows[i].seqLen == rows[i].mirrorLen == old(rows[i].seqLen) + 1
              && rows[i].mirrorNext == tokens[i] && rows[i].fed == old(rows[i].fed) + [tokens[i]]
  {
    for i := 0 to |rows|
      invariant forall k :: 0 <= k < i ==>
        && rows[k].seqLen == rows[k].mirrorLen == old(rows[k].seqLen) + 1
        && rows[k].mirrorNext == tokens[k] && rows[k].fed == old(rows[k].fed) + [tokens[k]]
      invariant forall k :: i <= k < |rows| ==> rows[k].seqLen == old(rows[k].seqLen) && rows[k].fed == old(rows[k].fed)
    {
      var s := rows[i];
      s.seqLen := s.seqLen + 1;
      s.mirrorLen, s.mirrorNext := s.seqLen, tokens[i];
      s.fed := s.fed + [tokens[i]];
    }
  }

  ghost predicate Ready(s: Session, net: Network)
    reads s
  {
    && s.Valid() && s.net == net && s.devLen < s.maxCtx && s.fed != []
    && 0 <= s.next < VOCAB && s.next == NextAfter(net)(s.fed)
  }

  /** The step proper: collect, launch, check, follow. */
  method StepRows(net: Network, rows: seq<Session>) returns (r: Status, tokens: seq<Token>, ghost stage: Stage)
    requires InVocab(net) && Different(rows) && forall i :: 0 <= i < |rows| ==> Ready(rows[i], net)
    modifies set s | s in rows
    ensures r == OK || r == Cuda
    ensures forall i :: 0 <= i < |rows| ==> rows[i].grouped == old(rows[i].grouped) && rows[i].Shaped()
    ensures r == OK ==> |tokens| == |rows| && forall i :: 0 <= i < |rows| ==>
              && rows[i].Decoded(old(rows[i].Dev()), old(rows[i].fed), old(rows[i].promptEnd), tokens[i])
              && rows[i].Valid()
              && rows[i].generated == old(rows[i].generated) && tokens[i] == NextAfter(net)(old(rows[i].fed))
    ensures r != OK ==> forall i :: 0 <= i < |rows| ==>
              && HostSame(rows[i], old(rows[i].seqLen), old(rows[i].fed), old(rows[i].promptEnd),
                   old(rows[i].generated))
              && AtStage(net, old(rows[i].Dev()), rows[i].Dev(), stage)
              && (rows[i].Valid() <==>
                   stage == Untouched || (stage == Decided && Later(net, rows[i].fed) == Now(net, rows[i].fed)))
  {
    hide Represents, KvOf, NextAfter, InVocab, Advance, Now, Later, AtStage;
    forall i | 0 <= i < |rows| ensures rows[i].devLen == |rows[i].fed| {
      LengthIs(net, rows[i].Dev(), rows[i].fed, rows[i].promptEnd);
    }
    tokens := Collect(rows);
    var ok;
    ok, stage := Launch(net, rows);
    if !ok {
      forall i | 0 <= i < |rows|
        ensures rows[i].Valid() <==>
                  stage == Untouched || (stage == Decided && Later(net, rows[i].fed) == Now(net, rows[i].fed))
      {
        StageOutcome(net, old(rows[i].Dev()), rows[i].Dev(), old(rows[i].fed), old(rows[i].promptEnd), stage);
      }
      return Cuda, [], stage;
    }
    var i := 0;
    while i < |rows|
      invariant 0 <= i <= |rows|
    {
      if tokens[i] < 0 || tokens[i] >= VOCAB {
        return Internal, [], stage;
      }
      i := i + 1;
    }
    FollowAll(rows, tokens);
    forall i | 0 <= i < |rows|
      ensures rows[i].Decoded(old(rows[i].Dev()), old(rows[i].fed), old(rows[i].promptEnd), tokens[i])
                && rows[i].Valid()
    {
      AdvancedStage(net, old(rows[i].Dev()), rows[i].Dev());
      AdvanceRepresents(net, old(rows[i].Dev()), old(rows[i].fed), old(rows[i].promptEnd));
    }
    r := OK;
  }

  lemma AdvancedStage(net: Network, d: Device, d2: Device)
    requires AtStage(net, d, d2, Advanced)
    ensures d.seqLen < |d.kv| == |d.record| && d2 == Advance(net, d)
  {
    hide Advance;
  }

  /** What the scheduler does with a stream when a batch step fails: out of the group, one
      solo decode. The token is the right one exactly if the step had not yet written the
      stream's new decision, or that decision is the same token again. */
  method Fallback(g: BatchGroup, slots: seq<nat>, greedy: seq<bool>, i: nat, maxNew: nat)
    returns (fellBack: bool, token: Token, ghost stage: Stage)
    requires g.Valid() && |slots| == |greedy| && i < |slots| && g.Occupied(slots[i])
    modifies g, g.Seated()
    ensures fellBack ==>
              var s: Session := old(g.members[slots[i]]);
              && (token == Now(g.net, old(g.members[slots[i]].fed)) <==>
                  stage == Untouched
                      || Later(g.net, old(g.members[slots[i]].fed)) == Now(g.net, old(g.members[slots[i]].fed)))
              && token == if stage == Untouched
                   then Now(g.net, old(g.members[slots[i]].fed)) else Later(g.net, old(g.members[slots[i]].fed))
  {
    hide Represents, KvOf, NextAfter, InVocab, Advance, Later, AtStage, Session.Decoded;
    var s: Session := g.members[slots[i]];
    ghost var d, fed, promptEnd := s.Dev(), s.fed, s.promptEnd;
    LengthIs(g.net, d, fed, promptEnd);
    g.SeatOk(slots[i]);
    ghost var launched;
    var r, tokens;
    r, tokens, launched, stage := g.Step(slots, greedy);
    fellBack, token := false, 0;
    if r == OK {
      return;
    }
    assert s in g.Rows(slots);
    if fed != [] && launched {
      StageOutcome(g.net, d, s.Dev(), fed, promptEnd, stage);
    } else if fed != [] {
      NextInVocab(g.net, d, fed, promptEnd);
      assert s.next == Now(g.net, fed);
    }
    r := g.Remove(slots[i]);
    if r != OK {
      return;
    }
    var within := s.generated < maxNew;
    r, token := s.DecodeOne(maxNew);
    fellBack := r == OK && within;
  }
}
