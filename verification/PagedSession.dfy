/** The pages a session's forward reads and writes: element by element, through the page
    table, they hold exactly the cache the session has position by position. */
module PagedSession {
  import opened Bits
  import opened Events
  import opened Reference
  import opened NativeModel
  import opened PagedKv
  import NS = NativeSession

  /** All elements of one position. */
  const WIDTH: nat := LAYERS * SLOT_ELEMS

  /** Longest context a model may be loaded with. */
  const MAX_CONTEXT: nat := 131072

  /** How the keys and values of one position are laid out as elements. */
  datatype Codec = Codec(pack: seq<Elem> -> Kv, unpack: Kv -> seq<Elem>)

  ghost predicate Faithful(c: Codec) {
    forall k: Kv :: |c.unpack(k)| == WIDTH && c.pack(c.unpack(k)) == k
  }

  function AddrOf(pos: nat, i: nat): (a: Addr)
    ensures a.pos == pos && (i < WIDTH ==> InShape(a))
  {
    var row := i / HEAD_DIM;
    var half := row / KV_HEADS;
    Addr(half / 2, pos, half % 2, row % KV_HEADS, i % HEAD_DIM)
  }

  lemma AddrUnique(p: nat, i: nat, q: nat, j: nat)
    requires AddrOf(p, i) == AddrOf(q, j)
    ensures p == q && i == j
  {
    var row, row2 := i / HEAD_DIM, j / HEAD_DIM;
    assert row / KV_HEADS == row2 / KV_HEADS;
    assert row == row2;
  }

  ghost predicate Stored(flat: map<Addr, Elem>, c: Codec, k: Kv, p: nat, i: nat) {
    AddrOf(p, i) in flat && i < |c.unpack(k)| && flat[AddrOf(p, i)] == c.unpack(k)[i]
  }

  /** The cache holds `kvs`, position by position. */
  ghost predicate Stores(flat: map<Addr, Elem>, c: Codec, kvs: seq<Kv>) {
    forall p, i :: 0 <= p < |kvs| && 0 <= i < WIDTH ==> Stored(flat, c, kvs[p], p, i)
  }

  /** Writes one more position. */
  method Scatter(g: PagedKvAllocator, c: Codec, pos: nat, k: Kv, ghost kvs: seq<Kv>)
    requires g.Valid() && Faithful(c) && Stores(g.flat, c, kvs) && |kvs| == pos && pos / TOKENS_PER_PAGE < g.pagesSynced
    modifies g.pool, g`flat
    ensures g.Valid() && Stores(g.flat, c, kvs + [k])
  {
    hide AddrOf, InShape;
    var elems := c.unpack(k);
    var i := 0;
    while i < WIDTH
      invariant 0 <= i <= WIDTH && g.Valid() && Stores(g.flat, c, kvs)
      invariant forall j :: 0 <= j < i ==> Stored(g.flat, c, k, pos, j)
    {
      ghost var before := g.flat;
      g.Write(AddrOf(pos, i), elems[i]);
      StillStored(before, g.flat, c, kvs, pos, k, i, elems[i]);
      i := i + 1;
    }
  }

  lemma StillStored(flat: map<Addr, Elem>, flat2: map<Addr, Elem>, c: Codec, kvs: seq<Kv>, pos: nat, k: Kv, i: nat,
      v: Elem)
    requires flat2 == flat[AddrOf(pos, i) := v] && |kvs| <= pos && Stores(flat, c, kvs)
    requires forall j :: 0 <= j < i ==> Stored(flat, c, k, pos, j)
    ensures Stores(flat2, c, kvs) && forall j :: 0 <= j < i ==> Stored(flat2, c, k, pos, j)
  {
    hide AddrOf;
    forall p: nat, j: nat | (p != pos || j != i) && Stored(flat, c, k, p, j) ensures Stored(flat2, c, k, p, j) {
      OtherStored(flat, flat2, c, k, p, j, pos, i, v);
    }
    forall p, j | 0 <= p < |kvs| && 0 <= j < WIDTH ensures Stored(flat2, c, kvs[p], p, j) {
      assert Stored(flat, c, kvs[p], p, j);
      OtherStored(flat, flat2, c, kvs[p], p, j, pos, i, v);
    }
  }

  lemma OtherStored(flat: map<Addr, Elem>, flat2: map<Addr, Elem>, c: Codec, k: Kv, p: nat, j: nat,
                    pos: nat, i: nat, v: Elem)
    requires flat2 == flat[AddrOf(pos, i) := v] && Stored(flat, c, k, p, j) && (p != pos || j != i)
    ensures Stored(flat2, c, k, p, j)
  {
    hide AddrOf;
    if AddrOf(p, j) == AddrOf(pos, i) {
      AddrUnique(p, j, pos, i);
    }
  }

  /** Reads one position back. */
  method Gather(g: PagedKvAllocator, c: Codec, pos: nat, ghost kvs: seq<Kv>) returns (k: Kv)
    requires g.Valid() && Faithful(c) && Stores(g.flat, c, kvs) && pos < |kvs|
    ensures k == kvs[pos]
  {
    hide AddrOf;
    var elems: seq<Elem> := [];
    ghost var width := |c.unpack(kvs[pos])|;
    assert c.pack(c.unpack(kvs[pos])) == kvs[pos] && width == WIDTH;
    while |elems| < WIDTH
      invariant |elems| <= WIDTH == width && elems == c.unpack(kvs[pos])[..|elems|]
    {
      assert Stored(g.flat, c, kvs[pos], pos, |elems|);
      var v := g.Read(AddrOf(pos, |elems|));
      elems := elems + [v];
    }
    assert elems == c.unpack(kvs[pos]);
    k := c.pack(elems);
  }

  method GatherAll(g: PagedKvAllocator, c: Codec, n: nat, ghost kvs: seq<Kv>) returns (out: seq<Kv>)
    requires g.Valid() && Faithful(c) && Stores(g.flat, c, kvs) && n == |kvs|
    ensures out == kvs
  {
    hide Faithful, Stores, PagedKvAllocator.Valid, PagedKvAllocator.Holds;
    out := [];
    while |out| < n
      invariant |out| <= n && out == kvs[..|out|]
    {
      var k := Gather(g, c, |out|, kvs);
      out := out + [k];
    }
  }

  lemma PagesCover(n: nat)
    requires n < MAX_CONTEXT
    ensures n / TOKENS_PER_PAGE < NeededPages(n + 1) && n + 1 < TWO_TO_THE_32
  {
    NeededCovers(n + 1);
  }

  /** One token on the device through the page table: pages, the positions so far read
      back, the new position written, the decision after it. */
  method PagedStep(net: Network, g: PagedKvAllocator, c: Codec, token: Token, n: nat, ghost kvs: seq<Kv>)
    returns (r: Status, next: Token)
    requires g.Valid() && Faithful(c) && Stores(g.flat, c, kvs) && |kvs| == n < MAX_CONTEXT
    modifies g, g.ownership, g.shadow, g.table, g.pool
    ensures g.Valid() && (r == OutOfMemory <==> NeededPages(n + 1) > g.maxPages)
    ensures r != OK ==> Stores(g.flat, c, kvs)
    ensures r == OK ==>
              var kvs2 := kvs + [net.write(kvs, token)];
              Stores(g.flat, c, kvs2) && next == net.decide(kvs2)
  {
    hide Faithful, Stores, NeededPages, PagedKvAllocator.Valid, PagedKvAllocator.Holds;
    next := 0;
    PagesCover(n);
    r := g.EnsurePagesFor(n + 1);
    if r == OK {
      var before := GatherAll(g, c, n, kvs);
      var k := net.write(before, token);
      Scatter(g, c, n, k, kvs);
      next := net.decide(before + [k]);
    }
  }

  /** The pages hold the session's own cache. */
  ghost predicate Mirrors(g: PagedKvAllocator, c: Codec, s: NS.Session)
    reads g, g.ownership, g.shadow, g.table, g.pool, s
  {
    g.Valid() && s.Valid() && Stores(g.flat, c, s.kv[..s.devLen])
  }

  /** A prefill token by token through the page table, and the session's own, in chunks. */
  method PagedPrefill(s: NS.Session, g: PagedKvAllocator, c: Codec, ids: seq<Token>) returns (r: NS.Status)
    requires Mirrors(g, c, s) && Faithful(c) && s.maxCtx <= MAX_CONTEXT
    modifies s, g, g.ownership, g.shadow, g.table, g.pool
    ensures r == NS.OK ==> Mirrors(g, c, s) && s.fed == old(s.fed) + ids
  {
    hide Represents, InVocab, KvOf, NextAfter, Faithful, Stores, NeededPages, Extend;
    NS.LengthIs(s.net, s.Dev(), s.fed, s.promptEnd);
    ghost var d, fed, promptEnd, kvs := s.Dev(), s.fed, s.promptEnd, s.kv[..s.devLen];
    var n := s.seqLen;
    if |ids| > s.maxCtx - n {
      return NS.OutOfMemory;
    }
    NothingMore(s.net, kvs, ids);
    for t := 0 to |ids|
      invariant g.Valid() && Stores(g.flat, c, Extend(s.net, kvs, ids[..t]))
      invariant s.Valid() && s.Dev() == d && s.fed == fed && s.promptEnd == promptEnd
    {
      OneMore(s.net, kvs, ids, t);
      var paged, next := PagedStep(s.net, g, c, ids[t], n + t, Extend(s.net, kvs, ids[..t]));
      if paged != OK {
        return if paged == OutOfMemory then NS.OutOfMemory else NS.Cuda;
      }
    }
    assert ids[..|ids|] == ids;
    r := s.Prefill(ids);
    if r == NS.OK {
      SameCache(s.net, d, fed, promptEnd, s.Dev(), ids, s.promptEnd);
    }
  }

  lemma NothingMore(net: Network, kvs: seq<Kv>, ids: seq<Token>)
    ensures Extend(net, kvs, ids[..0]) == kvs
  {
  }

  lemma OneMore(net: Network, kvs: seq<Kv>, ids: seq<Token>, t: nat)
    requires t < |ids|
    ensures
      var before := Extend(net, kvs, ids[..t]);
      Extend(net, kvs, ids[..t + 1]) == before + [net.write(before, ids[t])]
  {
    assert ids[..t + 1][..t] == ids[..t];
  }

  lemma SameCache(net: Network, d: Device, fed: seq<Token>, p: nat, d2: Device, ids: seq<Token>, p2: nat)
    requires Represents(net, d, fed, p) && Represents(net, d2, fed + ids, p2)
    ensures d2.kv[..d2.seqLen] == Extend(net, d.kv[..d.seqLen], ids)
  {
    hide KvOf, Extend, NextAfter;
    ExtendIsKv(net, fed, ids);
  }

  /** A decode through the page table, and the session's own: both make the same decision,
      and the pages hold the session's cache afterwards. */
  method PagedDecode(s: NS.Session, g: PagedKvAllocator, c: Codec, maxNew: nat)
    returns (r: NS.Status, token: Token, next: Token)
    requires Mirrors(g, c, s) && Faithful(c) && s.maxCtx <= MAX_CONTEXT
    modifies s, g, g.ownership, g.shadow, g.table, g.pool
    ensures r == NS.OK ==> Mirrors(g, c, s) && s.next == next
    ensures r == NS.OK && old(s.generated) < maxNew ==> s.devLen == old(s.devLen) + 1 && token == old(s.next)
  {
    hide Represents, InVocab, KvOf, NextAfter, Faithful, Stores, NeededPages, Advance;
    NS.LengthIs(s.net, s.Dev(), s.fed, s.promptEnd);
    ghost var d := s.Dev();
    var within := s.generated < maxNew && 0 < s.seqLen < s.maxCtx;
    next := s.next;
    if within {
      var paged;
      paged, next := PagedStep(s.net, g, c, s.next, s.seqLen, s.kv[..s.devLen]);
      if paged != OK {
        return if paged == OutOfMemory then NS.OutOfMemory else NS.Cuda, 0, next;
      }
    }
    r, token := s.DecodeOne(maxNew);
    if r == NS.OK && within {
      AdvanceAppends(s.net, d);
    }
  }

  lemma AdvanceAppends(net: Network, d: Device)
    requires d.seqLen < |d.kv| == |d.record|
    ensures
      var kvs, d2 := d.kv[..d.seqLen], Advance(net, d);
      d2.kv[..d2.seqLen] == kvs + [net.write(kvs, d.next)] && d2.next == net.decide(d2.kv[..d2.seqLen])
  {
  }
}
