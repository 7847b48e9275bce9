/** The paged key/value cache: page ownership, the device page table, and the layout of
    the pool all pages live in. */
module PagedKv {
  import opened Bits

  const LAYERS: nat := 42
  const TOKENS_PER_PAGE: nat := 32
  const KV_HEADS: nat := 2
  const HEAD_DIM: nat := 128
  const SLOT_ELEMS: nat := 512
  const TWO_TO_THE_32: nat := 0x1_0000_0000
  const MAX_PAGES: nat := 0x800_0000

  type Elem = int

  /** One element as the attention kernels name it. */
  datatype Addr = Addr(layer: nat, pos: nat, kv: nat, head: nat, d: nat)

  predicate InShape(a: Addr) {
    a.layer < LAYERS && a.kv < 2 && a.head < KV_HEADS && a.d < HEAD_DIM
  }

  // ---- layout ----

  function ElemOffset(maxPages: nat, layer: nat, page: nat, slot: nat, kv: nat, head: nat, d: nat): nat {
    ((layer * maxPages + page) * TOKENS_PER_PAGE + slot) * SLOT_ELEMS + kv * KV_HEADS * HEAD_DIM + head * HEAD_DIM + d
  }

  function TotalElems(maxPages: nat): nat {
    maxPages * TOKENS_PER_PAGE * SLOT_ELEMS * LAYERS
  }

  lemma LowerDigit(base: nat, a: nat, b: nat, c: nat)
    requires b < base && a < c
    ensures a * base + b < c * base
  {
    var k := c - a - 1;
    assert c * base == a * base + base + k * base;
  }

  lemma DigitsUnique(base: nat, a: nat, b: nat, c: nat, d: nat)
    requires b < base && d < base && a * base + b == c * base + d
    ensures a == c && b == d
  {
    assert a < c ==> a * base + b < c * base by { if a < c { LowerDigit(base, a, b, c); } }
    assert c < a ==> c * base + d < a * base by { if c < a { LowerDigit(base, c, d, a); } }
  }

  /** Two elements share an offset only if they are the same element. */
  lemma OffsetInjective(maxPages: nat, l1: nat, p1: nat, s1: nat, k1: nat, h1: nat, d1: nat,
                        l2: nat, p2: nat, s2: nat, k2: nat, h2: nat, d2: nat)
    requires p1 < maxPages && s1 < TOKENS_PER_PAGE && k1 < 2 && h1 < KV_HEADS && d1 < HEAD_DIM
    requires p2 < maxPages && s2 < TOKENS_PER_PAGE && k2 < 2 && h2 < KV_HEADS && d2 < HEAD_DIM
    requires ElemOffset(maxPages, l1, p1, s1, k1, h1, d1) == ElemOffset(maxPages, l2, p2, s2, k2, h2, d2)
    ensures l1 == l2 && p1 == p2 && s1 == s2 && k1 == k2 && h1 == h2 && d1 == d2
  {
    var i1, i2 := k1 * KV_HEADS * HEAD_DIM + h1 * HEAD_DIM + d1, k2 * KV_HEADS * HEAD_DIM + h2 * HEAD_DIM + d2;
    DigitsUnique(SLOT_ELEMS, (l1 * maxPages + p1) * TOKENS_PER_PAGE + s1, i1,
        (l2 * maxPages + p2) * TOKENS_PER_PAGE + s2, i2);
    DigitsUnique(TOKENS_PER_PAGE, l1 * maxPages + p1, s1, l2 * maxPages + p2, s2);
    DigitsUnique(maxPages, l1, p1, l2, p2);
  }

  /** Layers, then pages, slots, keys before values, heads, dimensions: offsets grow in
      that order. */
  lemma OffsetOrder(maxPages: nat, l1: nat, p1: nat, s1: nat, k1: nat, h1: nat, d1: nat,
                    l2: nat, p2: nat, s2: nat, k2: nat, h2: nat, d2: nat)
    requires p1 < maxPages && s1 < TOKENS_PER_PAGE && k1 < 2 && h1 < KV_HEADS && d1 < HEAD_DIM
    requires p2 < maxPages && s2 < TOKENS_PER_PAGE && k2 < 2 && h2 < KV_HEADS && d2 < HEAD_DIM
    requires || l1 < l2 || (l1 == l2 && p1 < p2) || (l1 == l2 && p1 == p2 && s1 < s2)
             || (l1 == l2 && p1 == p2 && s1 == s2
                 && (k1 < k2 || (k1 == k2 && (h1 < h2 || (h1 == h2 && d1 < d2)))))
    ensures ElemOffset(maxPages, l1, p1, s1, k1, h1, d1) < ElemOffset(maxPages, l2, p2, s2, k2, h2, d2)
  {
    var r1, r2 := l1 * maxPages + p1, l2 * maxPages + p2;
    var t1, t2 := r1 * TOKENS_PER_PAGE + s1, r2 * TOKENS_PER_PAGE + s2;
    if l1 < l2 {
      LowerDigit(maxPages, l1, p1, l2);
    }
    if r1 < r2 {
      LowerDigit(TOKENS_PER_PAGE, r1, s1, r2);
    }
    if t1 < t2 {
      LowerDigit(SLOT_ELEMS, t1, k1 * KV_HEADS * HEAD_DIM + h1 * HEAD_DIM + d1, t2);
    }
  }

  /** Every element lies inside the pool. */
  lemma OffsetInPool(maxPages: nat, layer: nat, page: nat, slot: nat, kv: nat, head: nat, d: nat)
    requires layer < LAYERS && page < maxPages && slot < TOKENS_PER_PAGE && kv < 2 && head < KV_HEADS && d < HEAD_DIM
    ensures ElemOffset(maxPages, layer, page, slot, kv, head, d) < TotalElems(maxPages)
  {
    var row := layer * maxPages + page;
    LowerDigit(maxPages, layer, page, LAYERS);
    LowerDigit(TOKENS_PER_PAGE, row, slot, LAYERS * maxPages);
    LowerDigit(SLOT_ELEMS, row * TOKENS_PER_PAGE + slot, kv * KV_HEADS * HEAD_DIM + head * HEAD_DIM + d,
               LAYERS * maxPages * TOKENS_PER_PAGE);
  }

  /** Pages for `totalTokens`, computed in 32 bits as the code does. */
  function NeededPages(totalTokens: nat): nat {
    (totalTokens + TOKENS_PER_PAGE - 1) % TWO_TO_THE_32 / TOKENS_PER_PAGE
  }

  /** The pages cover the tokens exactly if the rounding did not wrap around. */
  lemma NeededCovers(totalTokens: nat)
    requires totalTokens < TWO_TO_THE_32
    ensures totalTokens <= NeededPages(totalTokens) * TOKENS_PER_PAGE <==>
              totalTokens <= TWO_TO_THE_32 - TOKENS_PER_PAGE
    ensures totalTokens <= TWO_TO_THE_32 - TOKENS_PER_PAGE ==>
              forall pos :: 0 <= pos < totalTokens ==> pos / TOKENS_PER_PAGE < NeededPages(totalTokens)
  {
  }

  // ---- the ownership bitmap ----

  /** Bit `b` of a 64-bit word. */
  predicate Bit(word: nat, b: nat) {
    if b == 0 then word % 2 == 1 else Bit(word / 2, b - 1)
  }

  /** The word with bit `b` set. */
  function WithBit(word: nat, b: nat): nat {
    if b == 0 then (if word % 2 == 1 then word else word + 1) else 2 * WithBit(word / 2, b - 1) + word % 2
  }

  lemma {:induction false} SetBit(word: nat, b: nat, c: nat)
    ensures Bit(WithBit(word, b), c) <==> b == c || Bit(word, c)
    decreases b
  {
    if b > 0 && c > 0 {
      SetBit(word / 2, b - 1, c - 1);
    }
    assert b > 0 ==> WithBit(word, b) / 2 == WithBit(word / 2, b - 1);
    assert b == 0 ==> WithBit(word, b) / 2 == word / 2;
  }

  lemma {:induction false} StaysInWord(word: nat, b: nat, size: nat)
    requires b < size && word < Pow2(size)
    ensures WithBit(word, b) < Pow2(size)
    decreases b
  {
    var top := Pow2(size - 1);
    assert Pow2(size) == 2 * top;
    Halved(word, top);
    if b > 0 {
      StaysInWord(word / 2, b - 1, size - 1);
      var half := WithBit(word / 2, b - 1);
      assert WithBit(word, b) == 2 * half + word % 2;
      hide WithBit, Pow2;
    }
  }

  lemma Halved(word: nat, top: nat)
    requires word < 2 * top
    ensures word / 2 < top && (word % 2 == 0 ==> word + 1 < 2 * top)
  {
  }

  /** The word compared against to skip full words. */
  function Full(): nat {
    Pow2(64) - 1
  }

  lemma {:induction false} OnesAreSet(size: nat, b: nat)
    requires b < size
    ensures Bit(Pow2(size) - 1, b)
    decreases b
  {
    var word: nat := Pow2(size) - 1;
    assert word / 2 == Pow2(size - 1) - 1;
    if b > 0 {
      OnesAreSet(size - 1, b - 1);
    }
  }

  lemma {:induction false} AllZeros(b: nat)
    ensures !Bit(0, b)
  {
    if b > 0 {
      AllZeros(b - 1);
    }
  }

  predicate Owned(words: seq<nat>, page: nat)
    requires page / 64 < |words|
  {
    Bit(words[page / 64], page % 64)
  }

  lemma SetOwned(words: seq<nat>, page: nat, p: nat)
    requires page / 64 < |words| && p / 64 < |words|
    ensures Owned(words[page / 64 := WithBit(words[page / 64], page % 64)], p) <==> p == page || Owned(words, p)
  {
    hide Bit;
    if p / 64 == page / 64 {
      SetBit(words[page / 64], page % 64, p % 64);
    }
  }

  datatype Status = OK | OutOfMemory | CudaError | Internal

  class PagedKvAllocator {
    const maxPages: nat
    const ownership: array<nat>
    const shadow: array<nat>
    const table: array<nat>
    const pool: array<Elem>
    var pagesOwned: nat
    var pagesSynced: nat
    /** The flat cache this refines: what was last written where since the last reset. */
    ghost var flat: map<Addr, Elem>

    /** The bitmap holds exactly the owned pages; the host's list names them in order
        and without gaps; the device table agrees with it as far as it is synced; and the
        pool holds the flat cache. */
    ghost predicate Valid()
      reads this, ownership, shadow, table, pool
    {
      && 0 < maxPages <= MAX_PAGES
      && ownership.Length == (maxPages + 63) / 64
      && shadow.Length == maxPages && table.Length == maxPages && shadow != table
      && ownership != shadow && ownership != table
      && pool.Length == TotalElems(maxPages)
      && pagesSynced <= pagesOwned <= maxPages
      && (forall i :: 0 <= i < ownership.Length ==> ownership[i] < Pow2(64))
      && (forall page :: 0 <= page < maxPages ==> (Owned(ownership[..], page) <==> page < pagesOwned))
      && (forall i :: 0 <= i < pagesOwned ==> shadow[i] == i)
      && (forall i :: 0 <= i < pagesSynced ==> table[i] == shadow[i])
      && Holds()
    }

    ghost predicate Holds()
      requires table.Length == maxPages && pagesSynced <= maxPages && pool.Length == TotalElems(maxPages)
      reads this, table, pool
    {
      forall a :: a in flat ==>
        && InShape(a) && a.pos / TOKENS_PER_PAGE < pagesSynced
        && table[a.pos / TOKENS_PER_PAGE] == a.pos / TOKENS_PER_PAGE
        && var at := Place(a);
           at < pool.Length && pool[at] == flat[a]
    }

    /** Where the device finds element `a`: through its own page table. */
    function Place(a: Addr): nat
      requires a.pos / TOKENS_PER_PAGE < table.Length
      reads table
    {
      ElemOffset(maxPages, a.layer, table[a.pos / TOKENS_PER_PAGE], a.pos % TOKENS_PER_PAGE, a.kv, a.head, a.d)
    }

    constructor (maxPages: nat, table: array<nat>, pool: array<Elem>)
      requires 0 < maxPages <= MAX_PAGES && table.Length == maxPages && pool.Length == TotalElems(maxPages)
      ensures Valid() && this.maxPages == maxPages && this.table == table && this.pool == pool
      ensures fresh(ownership) && fresh(shadow) && pagesOwned == 0 && flat == map[]
    {
      this.maxPages, this.table, this.pool := maxPages, table, pool;
      ownership := new nat[(maxPages + 63) / 64](i => 0);
      shadow := new nat[maxPages](i => 0);
      pagesOwned, pagesSynced, flat := 0, 0, map[];
      new;
      forall page | 0 <= page < maxPages ensures !Owned(ownership[..], page) {
        AllZeros(page % 64);
      }
    }

    /** The lowest page that is not owned, or `maxPages`. */
    method FirstFreePage() returns (page: nat)
      requires ownership.Length == (maxPages + 63) / 64
      ensures page <= maxPages
      ensures page < maxPages ==> !Owned(ownership[..], page)
      ensures forall p :: 0 <= p < page ==> Owned(ownership[..], p)
    {
      var w := 0;
      while w < ownership.Length
        invariant 0 <= w <= ownership.Length
        invariant forall p :: 0 <= p < w * 64 && p < maxPages ==> Owned(ownership[..], p)
      {
        var bits := ownership[w];
        if bits != Full() {
          var b := 0;
          while b < 64
            invariant 0 <= b <= 64
            invariant forall p :: w * 64 <= p < w * 64 + b && p < maxPages ==> Owned(ownership[..], p)
          {
            var candidate := w * 64 + b;
            assert candidate / 64 == w && candidate % 64 == b;
            if candidate >= maxPages {
              break;
            }
            if !Bit(bits, b) {
              return candidate;
            }
            b := b + 1;
          }
        } else {
          forall p | w * 64 <= p < w * 64 + 64 && p < maxPages ensures Owned(ownership[..], p) {
            OnesAreSet(64, p % 64);
          }
        }
        w := w + 1;
      }
      page := maxPages;
    }

    method TryAcquire(page: nat) returns (ok: bool)
      requires ownership.Length == (maxPages + 63) / 64
      modifies ownership
      ensures ok <==> page < maxPages && !Owned(old(ownership[..]), page)
      ensures !ok ==> ownership[..] == old(ownership[..])
      ensures (forall i :: 0 <= i < ownership.Length ==> old(ownership[i]) < Pow2(64)) ==>
                forall i :: 0 <= i < ownership.Length ==> ownership[i] < Pow2(64)
      ensures ok ==> forall p :: 0 <= p < maxPages ==>
                (Owned(ownership[..], p) <==> p == page || Owned(old(ownership[..]), p))
    {
      if page >= maxPages {
        return false;
      }
      hide Bit;
      if Bit(ownership[page / 64], page % 64) {
        return false;
      }
      ghost var before := ownership[..];
      if ownership[page / 64] < Pow2(64) {
        StaysInWord(ownership[page / 64], page % 64, 64);
      }
      ownership[page / 64] := WithBit(ownership[page / 64], page % 64);
      assert ownership[..] == before[page / 64 := WithBit(before[page / 64], page % 64)];
      forall p | 0 <= p < maxPages ensures Owned(ownership[..], p) <==> p == page || Owned(before, p) {
        SetOwned(before, page, p);
      }
      ok := true;
    }

    /** Takes the lowest free page as the next page of the sequence. */
    method AcquireNext() returns (got: bool)
      requires Valid() && pagesOwned < maxPages
      modifies this`pagesOwned, ownership, shadow
      ensures got && Valid() && pagesOwned == old(pagesOwned) + 1
    {
      hide Bit, Place;
      assert !Owned(ownership[..], pagesOwned);
      var page := FirstFreePage();
      assert page == pagesOwned;
      got := TryAcquire(page);
      if got {
        shadow[pagesOwned] := page;
        pagesOwned := pagesOwned + 1;
      }
    }

    /** Makes sure enough pages are owned and known to the device. It fails without
        effect when the pool is too small; a failed copy leaves the new pages owned and
        is made good by the next call; the bitmap is never found inconsistent. */
    method EnsurePagesFor(totalTokens: nat) returns (r: Status)
      requires Valid() && totalTokens < TWO_TO_THE_32
      modifies this`pagesOwned, this`pagesSynced, ownership, shadow, table
      ensures Valid() && flat == old(flat)
      ensures r != Internal
      ensures r == OutOfMemory <==> NeededPages(totalTokens) > maxPages
      ensures r == OutOfMemory ==> pagesOwned == old(pagesOwned) && pagesSynced == old(pagesSynced)
      ensures r != OutOfMemory ==> pagesOwned == if old(pagesOwned) < NeededPages(totalTokens)
                then NeededPages(totalTokens) else old(pagesOwned)
      ensures r == OK ==> pagesSynced == pagesOwned
      ensures r == CudaError ==> old(pagesSynced) == pagesSynced < pagesOwned
      ensures table[..old(pagesSynced)] == old(table[..pagesSynced])
    {
      hide Owned, ElemOffset;
      var needed := (totalTokens + TOKENS_PER_PAGE - 1) % TWO_TO_THE_32 / TOKENS_PER_PAGE;
      if needed > maxPages {
        return OutOfMemory;
      }
      while pagesOwned < needed
        invariant Valid() && old(pagesOwned) <= pagesOwned && pagesSynced == old(pagesSynced)
        invariant pagesOwned <= needed || pagesOwned == old(pagesOwned)
        invariant table[..] == old(table[..])
      {
        var got := AcquireNext();
        if !got {
          return Internal;
        }
      }
      if pagesOwned <= pagesSynced {
        return OK;
      }
      var copied: bool := *;
      if !copied {
        return CudaError;
      }
      CopyTable();
      r := OK;
    }

    /** The host's list goes to the device table. */
    method CopyTable()
      requires Valid() && pagesSynced < pagesOwned
      modifies this`pagesSynced, table
      ensures Valid() && pagesSynced == pagesOwned && table[..old(pagesSynced)] == old(table[..pagesSynced])
    {
      hide Owned, ElemOffset;
      ghost var synced := pagesSynced;
      forall i | 0 <= i < pagesOwned {
        table[i] := shadow[i];
      }
      assert forall i :: 0 <= i < synced ==> table[i] == old(table[i]);
      assert ownership[..] == old(ownership[..]);
      pagesSynced := pagesOwned;
      assert forall i :: 0 <= i < pagesOwned ==> shadow[i] == i && table[i] == i;
      forall a | a in flat ensures table[a.pos / TOKENS_PER_PAGE] == old(table[a.pos / TOKENS_PER_PAGE]) {
        assert a.pos / TOKENS_PER_PAGE < synced;
      }
      assert Holds();
    }

    /** Gives all pages back; nothing written before can be read after. */
    method ReleaseAll()
      requires Valid()
      modifies this`pagesOwned, this`pagesSynced, this`flat, ownership
      ensures Valid() && pagesOwned == 0 && pagesSynced == 0 && flat == map[]
    {
      forall i | 0 <= i < ownership.Length {
        ownership[i] := 0;
      }
      pagesOwned, pagesSynced, flat := 0, 0, map[];
      forall page | 0 <= page < maxPages ensures !Owned(ownership[..], page) {
        AllZeros(page % 64);
      }
    }

    /** What a kernel does for one element of the token at `a.pos`. */
    method Write(a: Addr, v: Elem)
      requires Valid() && InShape(a) && a.pos / TOKENS_PER_PAGE < pagesSynced
      modifies pool, this`flat
      ensures Valid() && flat == old(flat)[a := v]
    {
      var at := Place(a);
      OffsetInPool(maxPages, a.layer, table[a.pos / TOKENS_PER_PAGE], a.pos % TOKENS_PER_PAGE, a.kv, a.head, a.d);
      forall b | b in flat && b != a ensures Place(b) != at {
        Apart(a, b);
      }
      pool[at] := v;
      flat := flat[a := v];
    }

    lemma Apart(a: Addr, b: Addr)
      requires Valid() && InShape(a) && InShape(b) && a != b
      requires a.pos / TOKENS_PER_PAGE < pagesSynced && b.pos / TOKENS_PER_PAGE < pagesSynced
      ensures Place(a) != Place(b)
    {
      var p, q := table[a.pos / TOKENS_PER_PAGE], table[b.pos / TOKENS_PER_PAGE];
      if Place(a) == Place(b) {
        OffsetInjective(maxPages, a.layer, p, a.pos % TOKENS_PER_PAGE, a.kv, a.head, a.d,
                        b.layer, q, b.pos % TOKENS_PER_PAGE, b.kv, b.head, b.d);
      }
    }

    /** The paged cache answers like the flat one. */
    method Read(a: Addr) returns (v: Elem)
      requires Valid() && a in flat
      ensures v == flat[a]
    {
      v := pool[Place(a)];
    }
  }
}
