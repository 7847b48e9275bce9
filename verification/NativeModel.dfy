/** A causal network over a key/value cache, and the device state one session keeps. */
module NativeModel {
  import opened Events
  import opened Reference

  const VOCAB: nat := 130560
  const EOS_STREAM_ID: Token := 130073

  /** All layers' keys and values of one position. */
  type Kv = int

  /** What a forward computes for one more token: the position's keys and values from
      those before it, and the decision after it. */
  datatype Network = Network(write: (seq<Kv>, Token) -> Kv, decide: seq<Kv> -> Token)

  ghost predicate InVocab(net: Network) {
    forall kvs: seq<Kv> :: 0 <= net.decide(kvs) < VOCAB
  }

  /** The cache after a prefix, one position at a time. */
  function KvOf(net: Network, prefix: seq<Token>): (kvs: seq<Kv>)
    ensures |kvs| == |prefix|
  {
    if prefix == [] then []
    else
      var before := KvOf(net, prefix[..|prefix| - 1]);
      before + [net.write(before, prefix[|prefix| - 1])]
  }

  /** The network's decision after a prefix: the sequential reference's next token. */
  function NextAfter(net: Network): Net {
    (prefix: seq<Token>) => net.decide(KvOf(net, prefix))
  }

  lemma NextIs(net: Network, prefix: seq<Token>)
    ensures NextAfter(net)(prefix) == net.decide(KvOf(net, prefix))
  {
    hide KvOf;
  }

  function Extend(net: Network, kvs: seq<Kv>, ids: seq<Token>): (r: seq<Kv>)
    ensures |r| == |kvs| + |ids| && r[..|kvs|] == kvs
    decreases |ids|
  {
    if ids == [] then kvs
    else
      var before := Extend(net, kvs, ids[..|ids| - 1]);
      before + [net.write(before, ids[|ids| - 1])]
  }

  lemma {:induction false} ExtendIsKv(net: Network, prefix: seq<Token>, ids: seq<Token>)
    ensures Extend(net, KvOf(net, prefix), ids) == KvOf(net, prefix + ids)
    decreases |ids|
  {
    if ids == [] {
      assert prefix + ids == prefix;
    } else {
      ExtendIsKv(net, prefix, ids[..|ids| - 1]);
      assert (prefix + ids)[..|prefix + ids| - 1] == prefix + ids[..|ids| - 1];
    }
  }

  /** Chunks compose: extending by `a` and then by `b` is extending by `a + b`. */
  lemma {:induction false} ExtendSplits(net: Network, kvs: seq<Kv>, a: seq<Token>, b: seq<Token>)
    ensures Extend(net, Extend(net, kvs, a), b) == Extend(net, kvs, a + b)
    decreases |b|
  {
    if b == [] {
      assert a + b == a;
    } else {
      ExtendSplits(net, kvs, a, b[..|b| - 1]);
      assert (a + b)[..|a + b| - 1] == a + b[..|b| - 1];
    }
  }

  /** The pool after a forward over `ids` at position `at`. */
  function Placed(net: Network, kv: seq<Kv>, at: nat, ids: seq<Token>): (r: seq<Kv>)
    requires at + |ids| <= |kv|
    ensures |r| == |kv| && r[..at + |ids|] == Extend(net, kv[..at], ids)
  {
    Extend(net, kv[..at], ids) + kv[at + |ids|..]
  }

  lemma PlacedMore(net: Network, kv: seq<Kv>, at: nat, ids: seq<Token>, t: nat)
    requires t < |ids| && at + |ids| <= |kv|
    ensures
      var sofar := Placed(net, kv, at, ids[..t]);
      sofar[at + t := net.write(sofar[..at + t], ids[t])] == Placed(net, kv, at, ids[..t + 1])
  {
    var sofar := Placed(net, kv, at, ids[..t]);
    var k := net.write(sofar[..at + t], ids[t]);
    assert ids[..t + 1][..t] == ids[..t];
    assert Extend(net, kv[..at], ids[..t + 1]) == Extend(net, kv[..at], ids[..t]) + [k];
    hide Extend;
    var head, tail := Extend(net, kv[..at], ids[..t]), kv[at + t..];
    assert tail == [tail[0]] + kv[at + t + 1..];
    assert sofar == head + tail;
    assert sofar[at + t := k] == head + [k] + kv[at + t + 1..];
  }

  /** Device memory of a session: its length word, the decided token, the cache and the
      token record. */
  datatype Device = Device(seqLen: nat, next: Token, kv: seq<Kv>, record: seq<Token>)

  /** One decode step, all on the device: the decided token is consumed at the current
      position, the new decision replaces it and is recorded there. */
  function Advance(net: Network, d: Device): (r: Device)
    requires d.seqLen < |d.kv| == |d.record|
    ensures |r.kv| == |d.kv| && |r.record| == |d.record|
  {
    var kv := d.kv[d.seqLen := net.write(d.kv[..d.seqLen], d.next)];
    var next := net.decide(kv[..d.seqLen + 1]);
    Device(d.seqLen + 1, next, kv, d.record[d.seqLen := next])
  }

  /** The device holds the prefix `fed`: its cache is the prefix's, its pending decision
      the network's, and from `promptEnd` on the record holds the decision made *after*
      each position. */
  ghost predicate Represents(net: Network, d: Device, fed: seq<Token>, promptEnd: nat) {
    && |d.kv| == |d.record| && |fed| == d.seqLen <= |d.kv|
    && d.kv[..d.seqLen] == KvOf(net, fed)
    && (fed != [] ==> d.next == NextAfter(net)(fed))
    && forall p :: promptEnd <= p < |fed| ==> d.record[p] == NextAfter(net)(fed[..p + 1])
  }

  lemma AdvanceRepresents(net: Network, d: Device, fed: seq<Token>, promptEnd: nat)
    requires Represents(net, d, fed, promptEnd) && fed != [] && d.seqLen < |d.kv|
    ensures Represents(net, Advance(net, d), fed + [d.next], promptEnd)
  {
    var d2 := Advance(net, d);
    var fed2 := fed + [d.next];
    assert fed2[..|fed|] == fed;
    assert d2.kv[..d2.seqLen] == d.kv[..d.seqLen] + [net.write(d.kv[..d.seqLen], d.next)];
    assert KvOf(net, fed2) == KvOf(net, fed) + [net.write(KvOf(net, fed), d.next)];
    forall p | promptEnd <= p < |fed2| ensures d2.record[p] == NextAfter(net)(fed2[..p + 1]) {
      if p < |fed| {
        assert fed2[..p + 1] == fed[..p + 1];
      } else {
        assert fed2[..p + 1] == fed2;
      }
    }
  }

  /** A forward over the decided token alone is the device part of a decode step. */
  lemma OneTokenPlaced(net: Network, d: Device)
    requires d.seqLen < |d.kv| == |d.record|
    ensures Placed(net, d.kv, d.seqLen, [d.next]) == Advance(net, d).kv
  {
    var before := d.kv[..d.seqLen];
    assert [d.next][..0] == [];
    assert Extend(net, before, []) == before;
    assert Extend(net, before, [d.next]) == before + [net.write(before, d.next)];
  }

  /** Several decode steps in a row, and the tokens they hand out. */
  function Steps(net: Network, d: Device, n: nat): (r: (Device, seq<Token>))
    requires d.seqLen + n <= |d.kv| == |d.record|
    ensures r.0.seqLen == d.seqLen + n && |r.0.kv| == |d.kv| && |r.0.record| == |d.record| && |r.1| == n
  {
    if n == 0 then (d, [])
    else
      var (before, out) := Steps(net, d, n - 1);
      (Advance(net, before), out + [before.next])
  }

  /** The tokens a session hands out after its prompt are the reference's: the k-th is
      the decision after the prompt and the k tokens before it. */
  lemma {:induction false} HandedOutIsReference(net: Network, d: Device, prompt: seq<Token>, n: nat)
    requires Represents(net, d, prompt, |prompt|) && prompt != []
    requires d.seqLen + n <= |d.kv|
    ensures Steps(net, d, n).1 == Emitted(NextAfter(net), prompt, n)
    ensures Represents(net, Steps(net, d, n).0, prompt + Emitted(NextAfter(net), prompt, n), |prompt|)
  {
    if n == 0 {
      assert prompt + [] == prompt;
    } else {
      HandedOutIsReference(net, d, prompt, n - 1);
      var before := Steps(net, d, n - 1).0;
      var fed := prompt + Emitted(NextAfter(net), prompt, n - 1);
      AdvanceRepresents(net, before, fed, |prompt|);
      assert fed + [before.next] == prompt + Emitted(NextAfter(net), prompt, n);
    }
  }

  /** The record is one decision ahead of the output: position `|prompt| + k` holds the
      (k+1)-th decision, and the very first one is nowhere in it. */
  lemma RecordIsAhead(net: Network, d: Device, prompt: seq<Token>, n: nat, k: nat)
    requires Represents(net, d, prompt, |prompt|) && prompt != []
    requires d.seqLen + n <= |d.kv| && k < n
    ensures Steps(net, d, n).0.record[|prompt| + k] == TokenAt(NextAfter(net), prompt, k + 1)
  {
    hide TokenAt, NextAfter;
    HandedOutIsReference(net, d, prompt, n);
    var e := Emitted(NextAfter(net), prompt, n);
    EmittedPrefix(NextAfter(net), prompt, k + 1, n);
    assert (prompt + e)[..|prompt| + k + 1] == prompt + Emitted(NextAfter(net), prompt, k + 1);
    assert NextAfter(net)(prompt + Emitted(NextAfter(net), prompt, k + 1))
        == TokenAt(NextAfter(net), prompt, k + 1) by {
      TokenAtIs(net, prompt, k + 1);
    }
  }

  lemma TokenAtIs(net: Network, prompt: seq<Token>, k: nat)
    ensures TokenAt(NextAfter(net), prompt, k) == NextAfter(net)(prompt + Emitted(NextAfter(net), prompt, k))
  {
    hide NextAfter;
  }
}
