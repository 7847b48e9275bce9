/** One session of the native runtime: chunked prefill, eager and replayed decode. */
module NativeSession {
  import opened Events
  import opened Reference
  import opened NativeModel

  datatype Status = OK | InvalidArgument | OutOfMemory | Cuda | Internal | Unsupported

  /** A loaded model: its network and the longest sequence it takes. */
  class Model {
    const net: Network
    const maxCtx: nat

    constructor (net: Network, maxCtx: nat)
      ensures this.net == net && this.maxCtx == maxCtx
    {
      this.net, this.maxCtx := net, maxCtx;
    }
  }

  class Session {
    const model: Model
    const net: Network := model.net
    const maxCtx: nat := model.maxCtx
    const chunk: nat
    /** A decode graph was captured for this session. */
    const graphMode: bool

    // host side
    var seqLen: nat
    var mirrorLen: nat
    var mirrorNext: Token
    var pinned: Token
    var generated: nat
    var grouped: bool

    // device side
    var devLen: nat
    var devStateNext: Token
    var next: Token
    var kv: seq<Kv>
    var record: seq<Token>

    /** All tokens consumed since the last reset, and where the decodes begin. */
    ghost var fed: seq<Token>
    ghost var promptEnd: nat

    /** What holds even after a failed call. */
    ghost predicate Shaped()
      reads this
    {
      && 0 < maxCtx && 0 < chunk && InVocab(net)
      && |kv| == |record| == maxCtx
      && seqLen <= maxCtx && mirrorLen <= maxCtx && devLen <= maxCtx
      && 0 <= next < VOCAB
    }

    /** Host, mirror and device agree on the length, and the device holds `fed`. */
    ghost predicate Valid()
      reads this
    {
      && Shaped()
      && seqLen == mirrorLen == devLen <= maxCtx
      && promptEnd <= |fed|
      && Represents(net, Dev(), fed, promptEnd)
    }

    ghost function Dev(): Device
      reads this
    {
      Device(devLen, next, kv, record)
    }

    constructor (model: Model, chunk: nat, graphMode: bool)
      requires 0 < model.maxCtx && 0 < chunk && InVocab(model.net)
      ensures Valid() && fed == [] && generated == 0 && !grouped
      ensures this.model == model && this.chunk == chunk && this.graphMode == graphMode
    {
      this.model, this.chunk, this.graphMode := model, chunk, graphMode;
      seqLen, mirrorLen, mirrorNext, pinned, generated, grouped := 0, 0, 0, 0, 0, false;
      devLen, devStateNext, next := 0, 0, 0;
      kv, record := seq(model.maxCtx, i => 0), seq(model.maxCtx, i => 0);
      fed, promptEnd := [], 0;
    }

    /** Clears the state, not the memory; after it the session is as good as new, even if
        an earlier call failed half way. Only the synchronisation can fail, and then the
        device's words may be the old ones. */
    method Reset() returns (r: Status)
      requires Shaped()
      modifies this
      ensures Shaped() && (r == OK || r == Cuda) && fed == [] && generated == 0 && grouped == old(grouped)
      ensures r == OK ==> Valid()
      ensures seqLen == 0 && mirrorLen == 0
    {
      seqLen, generated := 0, 0;
      mirrorLen, mirrorNext := 0, 0;
      fed, promptEnd := [], 0;
      var cleared, synced: bool := *, *;
      if cleared || synced {
        devLen, devStateNext := 0, 0;
      }
      r := if synced then OK else Cuda;
    }

    /** The forward pass over `ids` from the device's own position on. It may fail in the
        middle, and does before the first position past the cache. */
    method Forward(ids: seq<Token>) returns (ok: bool)
      requires Shaped() && ids != []
      modifies this`kv, this`next
      ensures Shaped()
      ensures ok ==>
                && devLen + |ids| <= maxCtx && kv == Placed(net, old(kv), devLen, ids)
                && next == net.decide(kv[..devLen + |ids|])
      ensures !ok ==> next == old(next) && kv[..devLen] == old(kv)[..devLen]
    {
      hide Extend, InVocab, Placed;
      if devLen + |ids| > maxCtx {
        return false;
      }
      ghost var before := kv;
      var t := 0;
      assert ids[..0] == [];
      NothingPlaced(net, before, devLen);
      while t < |ids|
        invariant 0 <= t <= |ids| && |kv| == maxCtx && kv[..devLen] == before[..devLen] && next == old(next)
        invariant kv == Placed(net, before, devLen, ids[..t])
      {
        var failed: bool := *;
        if failed {
          return false;
        }
        PlacedMore(net, before, devLen, ids, t);
        kv := kv[devLen + t := net.write(kv[..devLen + t], ids[t])];
        t := t + 1;
      }
      assert ids[..t] == ids;
      next := net.decide(kv[..devLen + |ids|]);
      DecidesInVocab(net, kv[..devLen + |ids|]);
      ok := true;
    }

    /** The length word and the mirrored token go to the device. */
    method CopyState() returns (ok: bool)
      modifies this`devLen, this`devStateNext
      ensures ok ==> devLen == mirrorLen && devStateNext == mirrorNext
      ensures !ok ==> devLen == old(devLen) && devStateNext == old(devStateNext)
    {
      ok := *;
      if ok {
        devLen, devStateNext := mirrorLen, mirrorNext;
      }
    }

    static method AllInVocab(ids: seq<Token>) returns (ok: bool)
      ensures ok <==> forall i :: 0 <= i < |ids| ==> 0 <= ids[i] < VOCAB
    {
      for i := 0 to |ids|
        invariant forall k :: 0 <= k < i ==> 0 <= ids[k] < VOCAB
      {
        if ids[i] < 0 || ids[i] >= VOCAB {
          return false;
        }
      }
      ok := true;
    }

    /** Consumes a prompt, in one forward or in chunks. */
    method Prefill(ids: seq<Token>) returns (r: Status)
      requires Valid()
      modifies this
      ensures Shaped()
      ensures r == OK ==> Valid() && fed == old(fed) + ids && promptEnd == |fed| && generated == old(generated)
      ensures r == OK ==> old(seqLen) + |ids| == seqLen <= |record| == |old(record)|
      ensures r == OK ==>
                record == old(record)[..old(seqLen)] + ids + old(record)[old(seqLen) + |ids|..]
      ensures r == InvalidArgument <==>
                ids == [] || (|ids| <= maxCtx - old(seqLen) && exists i :: 0 <= i < |ids| && !(0 <= ids[i] < VOCAB))
      ensures r == OutOfMemory <==> ids != [] && |ids| > maxCtx - old(seqLen)
      ensures r == InvalidArgument || r == OutOfMemory ==> Valid() && fed == old(fed) && generated == old(generated)
      ensures r != Internal && r != Unsupported && grouped == old(grouped)
    {
      hide Extend, KvOf, InVocab, NextAfter, Placed, Represents;
      ghost var d := Dev();
      LengthIs(net, d, fed, promptEnd);
      if ids == [] {
        return InvalidArgument;
      }
      if |ids| > maxCtx - seqLen {
        return OutOfMemory;
      }
      var known := AllInVocab(ids);
      if !known {
        return InvalidArgument;
      }
      var base := seqLen;
      var copied: bool := *;
      if !copied {
        return Cuda;
      }
      record := record[..base] + ids + record[base + |ids|..];
      var ok := PrefillChunks(base, ids);
      if !ok {
        return Cuda;
      }
      seqLen := base + |ids|;
      mirrorLen := seqLen;
      ok := CopyState();
      if !ok {
        return Cuda;
      }
      PrefillRepresents(net, d, Dev(), fed, promptEnd, ids);
      fed, promptEnd := fed + ids, |fed + ids|;
      r := OK;
    }

    /** The chunk loop: however the prompt is cut, the device ends up as after one forward
        over all of it. */
    method PrefillChunks(base: nat, ids: seq<Token>) returns (ok: bool)
      requires Shaped() && ids != [] && base + |ids| <= maxCtx
      requires base == seqLen == mirrorLen == devLen
      modifies this`kv, this`next, this`seqLen, this`mirrorLen, this`devLen, this`devStateNext
      ensures Shaped()
      ensures ok ==> kv[..base + |ids|] == Extend(net, old(kv)[..base], ids)
      ensures ok ==> next == net.decide(kv[..base + |ids|])
    {
      hide Extend, InVocab, Placed;
      if |ids| <= chunk {
        ok := Forward(ids);
        return;
      }
      ghost var before := kv[..base];
      var off := 0;
      ok := true;
      NothingExtended(net, before, ids);
      while off < |ids|
        invariant 0 <= off <= |ids| && Shaped() && devLen == seqLen == mirrorLen <= base + off
        invariant off == 0 ==> devLen == base
        invariant kv[..base + off] == Extend(net, before, ids[..off])
        invariant off > 0 ==> next == net.decide(kv[..base + off])
      {
        var n := if |ids| - off > chunk then chunk else |ids| - off;
        if off > 0 {
          seqLen := base + off;
          mirrorLen := seqLen;
          ok := CopyState();
          if !ok {
            return;
          }
        }
        ok := Forward(ids[off..off + n]);
        if !ok {
          return;
        }
        ChunkDone(net, before, ids, off, n);
        off := off + n;
      }
      assert ids[..off] == ids;
    }

    /** Eager decode: hand out the old decision, forward it, record the new one, count.
        What is handed out is always the device's pending decision. */
    method EagerStep() returns (r: Status, token: Token)
      requires Shaped() && 0 < seqLen < maxCtx
      modifies this
      ensures Shaped() && (r == OK || r == Cuda) && grouped == old(grouped)
      ensures r == OK ==> token == old(next) && generated == old(generated) + 1
      ensures r == OK && old(Valid()) ==> Decoded(old(Dev()), old(fed), old(promptEnd), token)
    {
      hide Represents, KvOf, NextAfter, InVocab, Extend, Placed, Advance;
      StepFacts(net, Dev(), fed, promptEnd);
      var ok := EagerForward();
      if !ok {
        return Cuda, 0;
      }
      var emitted := pinned;
      if emitted < 0 || emitted >= VOCAB {
        return Internal, 0;
      }
      seqLen := seqLen + 1;
      mirrorLen, mirrorNext := seqLen, emitted;
      ok := CopyState();
      if !ok {
        return Cuda, 0;
      }
      generated := generated + 1;
      fed := fed + [emitted];
      r, token := OK, emitted;
    }

    /** The device's part: the copy out, the forward, the new decision into the record at
        the host's own position. */
    method EagerForward() returns (ok: bool)
      requires Shaped() && seqLen < maxCtx
      modifies this`pinned, this`kv, this`next, this`record
      ensures Shaped()
      ensures ok ==> pinned == old(next)
      ensures ok && seqLen == devLen ==> Device(devLen + 1, next, kv, record) == Advance(net, old(Dev()))
    {
      hide Represents, KvOf, NextAfter, InVocab, Extend, Placed, Advance;
      StepFacts(net, Dev(), fed, promptEnd);
      ghost var d := Dev();
      pinned := next;
      var failed: bool := *;
      if failed {
        return false;
      }
      ok := Forward([next]);
      if !ok {
        return;
      }
      record := record[seqLen := next];
      if d.seqLen < |d.kv| {
        EagerAdvances(net, d, kv, next);
      }
      ok := *;
    }

    /** Replayed decode: the graph hands out, forwards, records and counts on the device;
        the host follows. */
    method GraphStep() returns (r: Status, token: Token)
      requires Shaped() && 0 < seqLen < maxCtx
      modifies this
      ensures Shaped() && (r == OK || r == Cuda) && grouped == old(grouped)
      ensures r == OK ==> token == old(next) && generated == old(generated) + 1
      ensures r == OK && old(Valid()) ==> Decoded(old(Dev()), old(fed), old(promptEnd), token)
    {
      hide Represents, KvOf, NextAfter, InVocab, Extend, Placed;
      var failed: bool := *;
      if failed {
        return Cuda, 0;
      }
      StepFacts(net, Dev(), fed, promptEnd);
      pinned := next;
      var ok := DeviceStep();
      if !ok {
        return Cuda, 0;
      }
      var emitted := pinned;
      if emitted < 0 || emitted >= VOCAB {
        return Internal, 0;
      }
      Follow(emitted);
      r, token := OK, emitted;
    }

    /** Forward, decide, record and count, all on the device. */
    method DeviceStep() returns (ok: bool)
      requires Shaped()
      modifies this`kv, this`next, this`record, this`devLen
      ensures Shaped()
      ensures ok ==> old(devLen) < maxCtx && Dev() == Advance(net, old(Dev()))
    {
      hide InVocab, Extend, Placed;
      if devLen < maxCtx {
        OneTokenPlaced(net, Dev());
      }
      ok := Forward([next]);
      if ok {
        record := record[devLen := next];
        devLen := devLen + 1;
      }
    }

    /** The one transition behind eager, replayed and batched decode: the device makes one
        `Advance`, and the decision it held before is handed out. */
    ghost predicate Decoded(d: Device, fed0: seq<Token>, promptEnd0: nat, token: Token)
      reads this
    {
      && d.seqLen < |d.kv| == |d.record| == maxCtx && |fed0| == d.seqLen
      && Dev() == Advance(net, d) && seqLen == mirrorLen == devLen && mirrorNext == token
      && token == d.next && fed == fed0 + [token] && promptEnd == promptEnd0
    }

    /** The host's part after a device step: lengths, mirror, statistics. */
    method Follow(emitted: Token)
      modifies this`seqLen, this`mirrorLen, this`mirrorNext, this`generated, this`fed
      ensures seqLen == mirrorLen == old(seqLen) + 1 && mirrorNext == emitted
      ensures generated == old(generated) + 1 && fed == old(fed) + [emitted]
    {
      seqLen := seqLen + 1;
      mirrorLen, mirrorNext := seqLen, emitted;
      generated := generated + 1;
      fed := fed + [emitted];
    }

    /** `mc_decode_one`: refuses what it must, answers the sentinel once the budget is
        spent, otherwise hands out the device's pending decision; on a session in order
        that is the next token of the sequence. */
    method DecodeOne(maxNew: nat) returns (r: Status, token: Token)
      requires Shaped()
      modifies this
      ensures Shaped() && r != Internal && r != Unsupported && grouped == old(grouped)
      ensures r == InvalidArgument <==> maxNew == 0 || old(seqLen) == 0
      ensures r == OutOfMemory <==> maxNew != 0 && old(seqLen) == maxCtx
      ensures r == InvalidArgument || r == OutOfMemory ==> unchanged(this)
      ensures r == OK && old(generated) >= maxNew ==> token == EOS_STREAM_ID && unchanged(this)
      ensures r == OK && old(generated) < maxNew ==> token == old(next) && generated == old(generated) + 1
      ensures r == OK && old(generated) < maxNew && old(Valid()) ==>
                && Decoded(old(Dev()), old(fed), old(promptEnd), token)
                && Valid() && token == NextAfter(net)(old(fed))
    {
      hide Represents, KvOf, NextAfter, InVocab, Extend, Placed, Advance;
      if maxNew == 0 {
        return InvalidArgument, 0;
      }
      if seqLen == 0 {
        return InvalidArgument, 0;
      }
      if seqLen >= maxCtx {
        return OutOfMemory, 0;
      }
      if generated >= maxNew {
        return OK, EOS_STREAM_ID;
      }
      if Valid() {
        LengthIs(net, Dev(), fed, promptEnd);
        NextInVocab(net, Dev(), fed, promptEnd);
        AdvanceRepresents(net, Dev(), fed, promptEnd);
      }
      if graphMode {
        r, token := GraphStep();
      } else {
        r, token := EagerStep();
      }
    }
  }

  lemma EagerAdvances(net: Network, d: Device, kv: seq<Kv>, next: Token)
    requires d.seqLen < |d.kv| == |d.record| == |kv|
    ensures kv == Advance(net, d).kv && next == net.decide(kv[..d.seqLen + 1]) ==>
              Device(d.seqLen + 1, next, kv, d.record[d.seqLen := next]) == Advance(net, d)
  {
  }

  lemma PrefillRepresents(net: Network, d: Device, d2: Device, fed: seq<Token>, promptEnd: nat, ids: seq<Token>)
    requires Represents(net, d, fed, promptEnd) && |d2.kv| == |d2.record| == |d.kv|
    requires d2.seqLen == d.seqLen + |ids| <= |d2.kv|
    requires d2.kv[..d2.seqLen] == Extend(net, d.kv[..d.seqLen], ids) && d2.next == net.decide(d2.kv[..d2.seqLen])
    ensures Represents(net, d2, fed + ids, |fed + ids|)
  {
    hide Extend, KvOf, NextAfter;
    ExtendIsKv(net, fed, ids);
    NextIs(net, fed + ids);
  }

  lemma StepFacts(net: Network, d: Device, fed: seq<Token>, promptEnd: nat)
    ensures d.seqLen < |d.kv| == |d.record| ==> Placed(net, d.kv, d.seqLen, [d.next]) == Advance(net, d).kv
    ensures Represents(net, d, fed, promptEnd) ==> |fed| == d.seqLen <= |d.kv| == |d.record|
  {
    hide Represents, Placed, Advance;
    if d.seqLen < |d.kv| == |d.record| {
      OneTokenPlaced(net, d);
    }
    if Represents(net, d, fed, promptEnd) {
      LengthIs(net, d, fed, promptEnd);
    }
  }

  lemma DecidesInVocab(net: Network, kvs: seq<Kv>)
    requires InVocab(net)
    ensures 0 <= net.decide(kvs) < VOCAB
  {
  }

  lemma LengthIs(net: Network, d: Device, fed: seq<Token>, promptEnd: nat)
    requires Represents(net, d, fed, promptEnd)
    ensures |fed| == d.seqLen <= |d.kv| == |d.record|
  {
    hide KvOf, NextAfter;
  }

  /** The range check on a handed-out token never fires. */
  lemma NextInVocab(net: Network, d: Device, fed: seq<Token>, promptEnd: nat)
    requires Represents(net, d, fed, promptEnd) && fed != [] && InVocab(net)
    ensures 0 <= d.next < VOCAB && d.next == NextAfter(net)(fed)
  {
    NextIs(net, fed);
    hide KvOf;
  }

  lemma ChunkDone(net: Network, before: seq<Kv>, ids: seq<Token>, off: nat, n: nat)
    requires off + n <= |ids|
    ensures Extend(net, Extend(net, before, ids[..off]), ids[off..off + n]) == Extend(net, before, ids[..off + n])
  {
    ExtendSplits(net, before, ids[..off], ids[off..off + n]);
    assert ids[..off] + ids[off..off + n] == ids[..off + n];
  }

  lemma NothingPlaced(net: Network, kv: seq<Kv>, at: nat)
    requires at <= |kv|
    ensures Placed(net, kv, at, []) == kv
  {
  }

  lemma NothingExtended(net: Network, kvs: seq<Kv>, ids: seq<Token>)
    ensures Extend(net, kvs, ids[..0]) == kvs
  {
  }
}
