/** The device arena of one session: its size, its allocations, and the buffers carved
    out of the shared scratch block. Sizes are bytes. */
module SessionArena {
  import opened Bits
  import PagedKv

  const VOCAB: nat := 130560
  const HIDDEN: nat := 2048
  const QUERY_HEADS: nat := 16
  const PARTIAL_STRIDE: nat := 130
  const MERGE_SPLIT: nat := 32
  const SORT_CAP: nat := 512
  const TOKENS_PER_PAGE: nat := 32
  /** 42 layers, keys and values, 2 heads of 128, 2 bytes each. */
  const KV_BYTES_PER_TOKEN: nat := 43008
  const PREFILL_PARTIAL_BYTES: nat := 41943040
  const GEMV_PARTIAL_FLOATS: nat := 20480
  const GEMM_WORKSPACE_BYTES: nat := 16777216
  /** Device state: two words, the random state, the sampling configuration. */
  const STATE_BYTES: nat := 40
  const SLACK: nat := 2048

  /** A range of bytes. */
  datatype Slice = Slice(start: nat, len: nat)

  predicate Apart(a: Slice, b: Slice) {
    a.start + a.len <= b.start || b.start + b.len <= a.start
  }

  predicate Inside(a: Slice, b: Slice) {
    b.start <= a.start && a.start + a.len <= b.start + b.len
  }

  // ---- sizes ----

  datatype Sizes = Sizes(maxPages: nat, kvPool: nat, act: nat, attnChunk: nat, attnMaxChunks: nat,
                         attnPartial: nat, attnPartial2: nat, prefillPartial: nat, gemvPartial: nat,
                         sampling: nat, gemmWs: nat, total: nat)

  function ActTokens(maxCtx: nat, chunk: nat): nat {
    if maxCtx < chunk then maxCtx else chunk
  }

  /** Positions per decode-attention chunk. */
  function ChunkPositions(maxCtx: nat, c512: bool): (c: nat)
    ensures c >= 64
  {
    if maxCtx <= 16384 then 64
    else if maxCtx <= 49152 then 128
    else if maxCtx <= 114688 || !c512 then 256
    else 512
  }

  function ComputeSizes(maxCtx: nat, chunk: nat, c512: bool): Sizes {
    var pages := (maxCtx + TOKENS_PER_PAGE - 1) / TOKENS_PER_PAGE;
    var kvPool := pages * TOKENS_PER_PAGE * KV_BYTES_PER_TOKEN;
    var act := ActTokens(maxCtx, chunk) * 31232 * 2 + VOCAB * 2 + HIDDEN * 2;
    var attnChunk := ChunkPositions(maxCtx, c512);
    var maxChunks := (maxCtx + attnChunk - 1) / attnChunk;
    var attn := QUERY_HEADS * maxChunks * PARTIAL_STRIDE * 4;
    var attn2 := QUERY_HEADS * MERGE_SPLIT * PARTIAL_STRIDE * 4;
    var gemv := GEMV_PARTIAL_FLOATS * 4;
    var sampling := VOCAB * 5 + 4096 + SORT_CAP * 8 + 64 * 4;
    Sizes(pages, kvPool, act, attnChunk, maxChunks, attn, attn2, PREFILL_PARTIAL_BYTES, gemv, sampling,
        GEMM_WORKSPACE_BYTES,
          STATE_BYTES + maxCtx * 4 + 4 + pages * 4 + kvPool + act + attn + attn2 + PREFILL_PARTIAL_BYTES
            + gemv + sampling + GEMM_WORKSPACE_BYTES + SLACK)
  }

  /** Pages and attention chunks cover the context with none to spare; the key/value block
      holds the paged pool, two bytes an element. */
  lemma SizesCover(maxCtx: nat, chunk: nat, c512: bool)
    requires maxCtx >= 1
    ensures
      var sz := ComputeSizes(maxCtx, chunk, c512);
      && (sz.maxPages - 1) * TOKENS_PER_PAGE < maxCtx <= sz.maxPages * TOKENS_PER_PAGE
      && (sz.attnMaxChunks - 1) * sz.attnChunk < maxCtx <= sz.attnMaxChunks * sz.attnChunk
      && sz.kvPool == 2 * PagedKv.TotalElems(sz.maxPages)
  {
    var c := ChunkPositions(maxCtx, c512);
    CeilDiv(maxCtx, TOKENS_PER_PAGE);
    CeilDiv(maxCtx, c);
    var pages := (maxCtx + TOKENS_PER_PAGE - 1) / TOKENS_PER_PAGE;
    assert pages * TOKENS_PER_PAGE * KV_BYTES_PER_TOKEN == 2 * (pages * 32 * 512 * 42);
  }

  /** The rows of the kernels' own table of chunk sizes. */
  lemma ChunkTable()
    ensures ChunkPositions(16384, false) == 64 && ChunkPositions(16385, false) == 128
    ensures ChunkPositions(32768, false) == 128 && ChunkPositions(49152, false) == 128
    ensures ChunkPositions(49153, false) == 256 && ChunkPositions(66048, false) == 256
    ensures ChunkPositions(114688, true) == 256 && ChunkPositions(131072, false) == 256
    ensures ChunkPositions(114689, true) == 512
  {
  }

  lemma CeilDiv(n: nat, d: nat)
    requires n >= 1 && d >= 1
    ensures var q := (n + d - 1) / d; (q - 1) * d < n <= q * d
  {
    var m := n + d - 1;
    var q := m / d;
    assert m == q * d + m % d;
    assert (q - 1) * d == q * d - d;
  }

  /** Split-KV factor of the flash prefill for `tokens` at least 1. */
  function SplitKv(tokens: nat): (s: nat)
    requires tokens >= 1
  {
    if tokens >= 2048 then 1
    else
      var s := 4096 / tokens;
      if s < 1 then 1 else if s > 8 then 8 else s
  }

  /** Whenever the flash path splits, its partial results fit the fixed block. */
  lemma SplitFits(tokens: nat)
    requires tokens >= 1 && SplitKv(tokens) > 1
    ensures tokens * SplitKv(tokens) <= 4096
    ensures tokens * QUERY_HEADS * SplitKv(tokens) * PARTIAL_STRIDE * 4 <= PREFILL_PARTIAL_BYTES
  {
    var s := SplitKv(tokens);
    var q := 4096 / tokens;
    assert q * tokens <= 4096;
    assert s <= q;
    Monotone(s, q, tokens);
    assert tokens * QUERY_HEADS * s * PARTIAL_STRIDE * 4 == (tokens * s) * 8320;
  }

  // ---- the bump allocator ----

  class DeviceArena {
    const size: nat
    var offset: nat
    var steady: bool
    ghost var handedOut: seq<Slice>

    ghost predicate Valid()
      reads this
    {
      && offset <= size
      && (forall i :: 0 <= i < |handedOut| ==>
           handedOut[i].start + handedOut[i].len <= offset && handedOut[i].start % 256 == 0)
      && (forall i, j :: 0 <= i < j < |handedOut| ==> Apart(handedOut[i], handedOut[j]))
    }

    constructor (size: nat)
      ensures Valid() && this.size == size && offset == 0 && handedOut == [] && !steady
    {
      this.size, offset, steady, handedOut := size, 0, false, [];
    }

    /** The next multiple of 256 with room behind it, or nothing; allocations never
        overlap. Asking in the steady state aborts the process, hence the precondition. */
    method Alloc(bytes: nat) returns (ok: bool, slice: Slice)
      requires Valid() && !steady
      modifies this
      ensures Valid() && steady == old(steady)
      ensures ok <==> bytes > 0 && AlignUp(old(offset)) + bytes <= size
      ensures ok ==>
                && slice == Slice(AlignUp(old(offset)), bytes) && offset == slice.start + bytes
                && handedOut == old(handedOut) + [slice]
      ensures !ok ==> offset == old(offset) && handedOut == old(handedOut)
    {
      if bytes == 0 {
        return false, Slice(0, 0);
      }
      var next := AlignUp(offset);
      if next + bytes > size {
        return false, Slice(0, 0);
      }
      offset := next + bytes;
      slice := Slice(next, bytes);
      handedOut := handedOut + [slice];
      ok := true;
    }
  }

  // ---- the session's blocks and buffers ----

  datatype Blocks = Blocks(state: Slice, record: Slice, next: Slice, pages: Slice, kvPool: Slice, scratch: Slice,
      gemmWs: Slice)

  function AllBlocks(b: Blocks): seq<Slice> {
    [b.state, b.record, b.next, b.pages, b.kvPool, b.scratch, b.gemmWs]
  }

  function ScratchBytes(sz: Sizes): nat {
    sz.act + sz.attnPartial + sz.attnPartial2 + sz.prefillPartial + sz.gemvPartial + sz.sampling
  }

  /** State, token record, next token and page table. */
  method AllocateTables(arena: DeviceArena, maxCtx: nat, maxPages: nat)
    returns (ok: bool, state: Slice, record: Slice, next: Slice, pages: Slice)
    requires 1 <= maxCtx && 1 <= maxPages
    requires arena.Valid() && arena.offset == 0 && arena.handedOut == [] && !arena.steady
    requires STATE_BYTES + maxCtx * 4 + 4 + maxPages * 4 + 4 * 256 <= arena.size
    modifies arena
    ensures ok && arena.Valid() && !arena.steady && arena.handedOut == [state, record, next, pages]
    ensures arena.offset <= STATE_BYTES + maxCtx * 4 + 4 + maxPages * 4 + 4 * 256
  {
    hide AlignUp, Apart;
    var ok1, ok2, ok3, ok4;
    ok1, state := arena.Alloc(STATE_BYTES);
    ok2, record := arena.Alloc(maxCtx * 4);
    ok3, next := arena.Alloc(4);
    ok4, pages := arena.Alloc(maxPages * 4);
    ok := ok1 && ok2 && ok3 && ok4;
  }

  /** Every allocation of a session fits its arena; the blocks are apart. */
  method AllocateSession(arena: DeviceArena, maxCtx: nat, chunk: nat, c512: bool) returns (ok: bool, b: Blocks)
    requires 1 <= maxCtx
    requires arena.Valid() && arena.offset == 0 && arena.handedOut == [] && !arena.steady
    requires arena.size == ComputeSizes(maxCtx, chunk, c512).total
    modifies arena
    ensures ok && arena.Valid() && arena.steady && arena.handedOut == AllBlocks(b)
    ensures b.scratch.len == ScratchBytes(ComputeSizes(maxCtx, chunk, c512))
  {
    hide AlignUp;
    var sz := ComputeSizes(maxCtx, chunk, c512);
    SizesPositive(maxCtx, chunk, c512);
    hide ComputeSizes, ScratchBytes, Apart;
    var ok1, state, record, next, pages := AllocateTables(arena, maxCtx, sz.maxPages);
    var ok2, kvPool := arena.Alloc(sz.kvPool);
    var ok3, scratch := arena.Alloc(ScratchBytes(sz));
    var ok4, gemmWs := arena.Alloc(sz.gemmWs);
    b := Blocks(state, record, next, pages, kvPool, scratch, gemmWs);
    ok := ok1 && ok2 && ok3 && ok4;
    assert arena.handedOut == AllBlocks(b);
    arena.steady := true;
  }

  /** So the blocks of a session are aligned, inside the arena and pairwise apart. */
  lemma BlocksApart(arena: DeviceArena, b: Blocks)
    requires arena.Valid() && arena.handedOut == AllBlocks(b)
    ensures forall i, j :: 0 <= i < j < 7 ==> Apart(AllBlocks(b)[i], AllBlocks(b)[j])
    ensures forall i :: 0 <= i < 7 ==> Inside(AllBlocks(b)[i], Slice(0, arena.size)) && AllBlocks(b)[i].start % 256 == 0
  {
    assert |AllBlocks(b)| == 7;
    hide AllBlocks, Apart;
  }

  lemma SizesPositive(maxCtx: nat, chunk: nat, c512: bool)
    requires 1 <= maxCtx
    ensures
      var sz := ComputeSizes(maxCtx, chunk, c512);
      && sz.maxPages >= 1 && sz.kvPool >= 1 && ScratchBytes(sz) >= 1 && sz.gemmWs >= 1
      && sz.total == STATE_BYTES + maxCtx * 4 + 4 + sz.maxPages * 4 + sz.kvPool + ScratchBytes(sz) + sz.gemmWs + SLACK
  {
  }

  /** The buffers inside the scratch block, in carve order. The sampling block is a 4 KB
      head with a value list, then an index list. */
  datatype Buffers = Buffers(residual: Slice, normed: Slice, qkv: Slice, ctx: Slice, oOut: Slice, gateUp: Slice,
                             mlpMid: Slice, downOut: Slice, logits: Slice, residualAlt: Slice,
                             attnPartials: Slice, attnPartials2: Slice, prefillPartials: Slice, gemvPartial: Slice,
                             repBitmap: Slice, logitsF32: Slice, headAndValues: Slice, indices: Slice,
                                 ropeInvFreq: Slice)

  function AllBuffers(a: Buffers): seq<Slice> {
    [a.residual, a.normed, a.qkv, a.ctx, a.oOut, a.gateUp, a.mlpMid, a.downOut, a.logits, a.residualAlt]
      + [a.attnPartials, a.attnPartials2, a.prefillPartials, a.gemvPartial]
      + [a.repBitmap, a.logitsF32, a.headAndValues, a.indices, a.ropeInvFreq]
  }

  /** Two bytes an element: rows of activations, one row of logits, one hidden vector. */
  predicate ActLengths(a: Buffers, rows: nat) {
    && a.residual.len == a.normed.len == a.ctx.len == a.oOut.len == a.downOut.len == 2 * rows * 2048
    && a.qkv.len == 2 * rows * 2560 && a.gateUp.len == 2 * rows * 12288 && a.mlpMid.len == 2 * rows * 6144
    && a.logits.len == 2 * VOCAB && a.residualAlt.len == 2 * HIDDEN
  }

  /** Slices end to end from `start` to `end`. */
  predicate EndToEnd(slices: seq<Slice>, start: nat, end: nat) {
    if slices == [] then start == end
    else slices[0].start == start && EndToEnd(slices[1..], start + slices[0].len, end)
  }

  lemma {:induction false} EndToEndApart(slices: seq<Slice>, start: nat, end: nat)
    requires EndToEnd(slices, start, end)
    ensures start <= end
    ensures forall i :: 0 <= i < |slices| ==> start <= slices[i].start && slices[i].start + slices[i].len <= end
    ensures forall i, j :: 0 <= i < j < |slices| ==> slices[i].start + slices[i].len <= slices[j].start
    decreases |slices|
  {
    if slices != [] {
      var rest := slices[1..];
      EndToEndApart(rest, start + slices[0].len, end);
      assert forall i :: 1 <= i < |slices| ==> slices[i] == rest[i - 1];
    }
  }

  lemma {:induction false} EndToEndJoin(a: seq<Slice>, b: seq<Slice>, start: nat, middle: nat, end: nat)
    requires EndToEnd(a, start, middle) && EndToEnd(b, middle, end)
    ensures EndToEnd(a + b, start, end)
    decreases |a|
  {
    if a == [] {
      assert a + b == b;
    } else {
      EndToEndJoin(a[1..], b, start + a[0].len, middle, end);
      assert (a + b)[1..] == a[1..] + b;
    }
  }

  /** Advances a pointer through the scratch block, in units of two bytes as the code
      does, and ends exactly where the block ends. */
  method Carve(scratch: Slice, maxCtx: nat, chunk: nat, c512: bool) returns (a: Buffers)
    requires scratch.len == ScratchBytes(ComputeSizes(maxCtx, chunk, c512))
    ensures EndToEnd(AllBuffers(a), scratch.start, scratch.start + scratch.len)
    ensures forall i, j :: 0 <= i < j < 19 ==> Apart(AllBuffers(a)[i], AllBuffers(a)[j])
    ensures forall i :: 0 <= i < 19 ==> Inside(AllBuffers(a)[i], scratch)
    ensures ActLengths(a, ActTokens(maxCtx, chunk))
    ensures a.attnPartials.len == 4 * (QUERY_HEADS * ComputeSizes(maxCtx, chunk, c512).attnMaxChunks * PARTIAL_STRIDE)
    ensures a.attnPartials2.len == 4 * (QUERY_HEADS * MERGE_SPLIT * PARTIAL_STRIDE)
    ensures a.prefillPartials.len == PREFILL_PARTIAL_BYTES && a.gemvPartial.len == 4 * GEMV_PARTIAL_FLOATS
    ensures a.repBitmap.len == VOCAB && a.logitsF32.len == 4 * VOCAB
    ensures a.headAndValues.len == 4096 + 4 * SORT_CAP && a.indices.len == 4 * SORT_CAP && a.ropeInvFreq.len == 4 * 64
  {
    var sz := ComputeSizes(maxCtx, chunk, c512);
    var rows := ActTokens(maxCtx, chunk);
    var p := scratch.start;
    var residual, normed, qkv, ctx, oOut, gateUp, mlpMid, downOut, logits, residualAlt;
    residual, p := Slice(p, 2 * (rows * 2048)), p + 2 * (rows * 2048);
    normed, p := Slice(p, 2 * (rows * 2048)), p + 2 * (rows * 2048);
    qkv, p := Slice(p, 2 * (rows * 2560)), p + 2 * (rows * 2560);
    ctx, p := Slice(p, 2 * (rows * 2048)), p + 2 * (rows * 2048);
    oOut, p := Slice(p, 2 * (rows * 2048)), p + 2 * (rows * 2048);
    gateUp, p := Slice(p, 2 * (rows * 12288)), p + 2 * (rows * 12288);
    mlpMid, p := Slice(p, 2 * (rows * 6144)), p + 2 * (rows * 6144);
    downOut, p := Slice(p, 2 * (rows * 2048)), p + 2 * (rows * 2048);
    logits, p := Slice(p, 2 * VOCAB), p + 2 * VOCAB;
    residualAlt, p := Slice(p, 2 * HIDDEN), p + 2 * HIDDEN;
    ghost var q1 := p;
    assert q1 == scratch.start + sz.act;
    var attnPartials, attnPartials2, prefillPartials, gemvPartial;
    var n := 2 * (QUERY_HEADS * sz.attnMaxChunks * PARTIAL_STRIDE * 2);
    attnPartials, p := Slice(p, n), p + n;
    attnPartials2, p := Slice(p, 2 * (QUERY_HEADS * MERGE_SPLIT * PARTIAL_STRIDE * 2)),
        p + 2 * (QUERY_HEADS * MERGE_SPLIT * PARTIAL_STRIDE * 2);
    prefillPartials, p := Slice(p, 2 * (PREFILL_PARTIAL_BYTES / 2)), p + 2 * (PREFILL_PARTIAL_BYTES / 2);
    gemvPartial, p := Slice(p, 2 * (GEMV_PARTIAL_FLOATS * 2)), p + 2 * (GEMV_PARTIAL_FLOATS * 2);
    ghost var q2 := p;
    assert q2 == q1 + sz.attnPartial + sz.attnPartial2 + sz.prefillPartial + sz.gemvPartial;
    var repBitmap, logitsF32, headAndValues, indices, ropeInvFreq;
    repBitmap, p := Slice(p, 2 * (VOCAB / 2)), p + 2 * (VOCAB / 2);
    logitsF32, p := Slice(p, 2 * (VOCAB * 2)), p + 2 * (VOCAB * 2);
    headAndValues := Slice(p, 2 * (2048 + SORT_CAP * 2));
    indices := Slice(p + 2 * (2048 + SORT_CAP * 2), 4 * SORT_CAP);
    p := p + 2 * (2048 + SORT_CAP * 4);
    ropeInvFreq, p := Slice(p, 2 * (64 * 2)), p + 2 * (64 * 2);
    assert p == q2 + sz.sampling == scratch.start + scratch.len;
    a := Buffers(residual, normed, qkv, ctx, oOut, gateUp, mlpMid, downOut, logits, residualAlt,
                 attnPartials, attnPartials2, prefillPartials, gemvPartial,
                 repBitmap, logitsF32, headAndValues, indices, ropeInvFreq);
    CarvedParts(a, scratch.start, q1, q2, p);
  }

  lemma CarvedParts(a: Buffers, start: nat, q1: nat, q2: nat, end: nat)
    requires EndToEnd5([a.residual, a.normed, a.qkv, a.ctx, a.oOut], start, a.gateUp.start)
    requires EndToEnd5([a.gateUp, a.mlpMid, a.downOut, a.logits, a.residualAlt], a.gateUp.start, q1)
    requires a.attnPartials.start == q1 && a.attnPartials2.start == q1 + a.attnPartials.len
    requires a.prefillPartials.start == a.attnPartials2.start + a.attnPartials2.len
    requires a.gemvPartial.start == a.prefillPartials.start + a.prefillPartials.len
               && q2 == a.gemvPartial.start + a.gemvPartial.len
    requires EndToEnd5([a.repBitmap, a.logitsF32, a.headAndValues, a.indices, a.ropeInvFreq], q2, end)
    ensures EndToEnd(AllBuffers(a), start, end)
    ensures forall i, j :: 0 <= i < j < 19 ==> Apart(AllBuffers(a)[i], AllBuffers(a)[j])
    ensures forall i :: 0 <= i < 19 ==> Inside(AllBuffers(a)[i], Slice(start, end - start))
  {
    var w, x := [a.residual, a.normed, a.qkv, a.ctx, a.oOut], [a.gateUp, a.mlpMid, a.downOut, a.logits, a.residualAlt];
    var y, z := [a.attnPartials, a.attnPartials2, a.prefillPartials, a.gemvPartial],
        [a.repBitmap, a.logitsF32, a.headAndValues, a.indices, a.ropeInvFreq];
    FiveEnds(w, start, a.gateUp.start);
    FiveEnds(x, a.gateUp.start, q1);
    FourEnds(y, q1, q2);
    FiveEnds(z, q2, end);
    hide EndToEnd;
    EndToEndJoin(w, x, start, a.gateUp.start, q1);
    EndToEndJoin(w + x, y, start, q1, q2);
    EndToEndJoin(w + x + y, z, start, q2, end);
    assert AllBuffers(a) == w + x + y + z;
    EndToEndApart(AllBuffers(a), start, end);
  }

  lemma FiveEnds(s: seq<Slice>, start: nat, end: nat)
    requires |s| == 5 && EndToEnd5(s, start, end)
    ensures EndToEnd(s, start, end)
  {
    FourEnds(s[1..], s[1].start, end);
  }

  lemma FourEnds(s: seq<Slice>, start: nat, end: nat)
    requires |s| == 4 && s[0].start == start && s[1].start == s[0].start + s[0].len
    requires s[2].start == s[1].start + s[1].len && s[3].start == s[2].start + s[2].len && end == s[3].start + s[3].len
    ensures EndToEnd(s, start, end)
  {
    assert EndToEnd(s[3..], s[3].start, end) by { assert s[3..][1..] == []; }
    assert s[2..][1..] == s[3..];
    assert EndToEnd(s[2..], s[2].start, end);
    assert s[1..][1..] == s[2..];
    assert EndToEnd(s[1..], s[1].start, end);
  }

  predicate EndToEnd5(s: seq<Slice>, start: nat, end: nat)
    requires |s| == 5
  {
    && s[0].start == start && s[1].start == s[0].start + s[0].len && s[2].start == s[1].start + s[1].len
    && s[3].start == s[2].start + s[2].len && s[4].start == s[3].start + s[3].len && end == s[4].start + s[4].len
  }
}
