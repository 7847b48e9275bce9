/** What a written package reads back as, and how the loader places it. */
module WpkLoad {
  import opened Bits
  import opened Wpk
  import opened WpkFile
  import opened WpkIo

  /** Counts and offsets fit their fields. */
  ghost predicate Fitting(modelHash: seq<nat>, spec: seq<Section>) {
    && |modelHash| == 32 && (forall i :: 0 <= i < 32 ==> modelHash[i] < 256)
    && |spec| < Pow256(4) && End(spec, DataStart(|spec|)) < Pow256(8)
  }

  lemma EntryFitsAt(spec: seq<Section>, tensors: Tensors, cur: nat, i: nat)
    requires SpecOk(spec, tensors) && i < |spec| && forall k :: 0 <= k < |spec| ==> |spec[k].shape| <= 8
    requires End(spec, cur) < Pow256(8)
    ensures EntryFits(Entries(spec, cur)[i])
  {
    LayoutInside(spec, cur, i);
    var e := Entries(spec, cur)[i];
    assert Pow256(4) > 8 by { assert Pow256(1) == 256; }
    assert SectionOk(spec[i], tensors);
    hide Pow256, Entries, End, ByteCount;
    assert e.dims == spec[i].shape + Repeat(0, 8 - |spec[i].shape|);
  }

  lemma ConstantsFit()
    ensures MAGIC < Pow256(4) && ABI_VERSION < Pow256(2) && TARGET_SM < Pow256(2) && HEADER_SIZE < Pow256(8)
              && Pow256(4) <= Pow256(8)
  {
    assert Pow256(2) == 65536;
    assert Pow256(4) == 65536 * Pow256(2);
    assert Pow256(6) == 65536 * Pow256(4);
    assert Pow256(8) == 65536 * Pow256(6);
  }

  lemma WrittenSize(modelHash: seq<nat>, spec: seq<Section>, tensors: Tensors)
    requires SpecOk(spec, tensors) && |modelHash| == 32 && forall i :: 0 <= i < |spec| ==> |spec[i].shape| <= 8
    ensures
      var start := DataStart(|spec|);
      && |FileOf(modelHash, spec, tensors)| == End(spec, start)
      && HEADER_SIZE + |spec| * ENTRY_SIZE <= start <= End(spec, start) && Aligned(start)
  {
    FileParts(modelHash, spec, tensors);
    DataLength(spec, tensors, DataStart(|spec|));
    EndAfter(spec, DataStart(|spec|));
  }

  lemma HeaderOfFits(modelHash: seq<nat>, spec: seq<Section>, tensors: Tensors)
    requires SpecOk(spec, tensors) && Fitting(modelHash, spec) && forall i :: 0 <= i < |spec| ==> |spec[i].shape| <= 8
    ensures HeaderFits(HeaderOf(modelHash, |spec|)) && |modelHash| == 32
  {
    hide FileOf, Data, Entries, End, Pow256, DataStart, SectionOk, Aligned;
    WrittenSize(modelHash, spec, tensors);
    ConstantsFit();
  }

  /** A written package's header reads back. */
  lemma WrittenHeader(modelHash: seq<nat>, spec: seq<Section>, tensors: Tensors)
    requires SpecOk(spec, tensors) && Fitting(modelHash, spec) && forall i :: 0 <= i < |spec| ==> |spec[i].shape| <= 8
    ensures |FileOf(modelHash, spec, tensors)| >= HEADER_SIZE
    ensures ReadHeader(FileOf(modelHash, spec, tensors)[..HEADER_SIZE]) == HeaderOf(modelHash, |spec|)
  {
    hide FileOf, Front, Data, Entries, End, Pow256, DataStart, PackHeader, ReadHeader, SectionOk;
    HeaderOfFits(modelHash, spec, tensors);
    HeaderRoundTrip(HeaderOf(modelHash, |spec|));
    hide HeaderFits;
    FileParts(modelHash, spec, tensors);
    FrontHeader(modelHash, Entries(spec, DataStart(|spec|)), Data(spec, tensors, DataStart(|spec|)));
  }

  /** So does every entry of its table of contents. */
  lemma WrittenEntry(modelHash: seq<nat>, spec: seq<Section>, tensors: Tensors, i: nat)
    requires SpecOk(spec, tensors) && Fitting(modelHash, spec) && forall k :: 0 <= k < |spec| ==> |spec[k].shape| <= 8
    requires i < |spec|
    ensures HEADER_SIZE + (i + 1) * ENTRY_SIZE <= |FileOf(modelHash, spec, tensors)|
    ensures EntryOf(FileOf(modelHash, spec, tensors), i) == Entries(spec, DataStart(|spec|))[i]
  {
    var start := DataStart(|spec|);
    EntryFitsAt(spec, tensors, start, i);
    FileParts(modelHash, spec, tensors);
    hide FileOf, Front, Data, End, Pow256, DataStart, EntryOf, EntryFits;
    FrontEntry(modelHash, Entries(spec, start), Data(spec, tensors, start), i);
  }

  /** And at every entry's aligned place, inside the file, lie the section's bytes. */
  lemma WrittenData(modelHash: seq<nat>, spec: seq<Section>, tensors: Tensors, i: nat)
    requires SpecOk(spec, tensors) && |modelHash| == 32 && forall k :: 0 <= k < |spec| ==> |spec[k].shape| <= 8
    requires i < |spec|
    ensures
      var file := FileOf(modelHash, spec, tensors);
      var e := Entries(spec, DataStart(|spec|))[i];
      && Aligned(e.offset) && DataStart(|spec|) <= e.offset && e.offset + e.bytes <= |file|
      && e.bytes == ByteCount(spec[i].shape)
      && file[e.offset..e.offset + e.bytes] == Payload(spec[i], tensors)
  {
    hide FileOf, Front, Data, Payload, ByteCount, End, DataStart, Aligned, Entries, AlignUp, SectionOk;
    var start := DataStart(|spec|);
    WrittenSize(modelHash, spec, tensors);
    FileParts(modelHash, spec, tensors);
    LayoutAligned(spec, start);
    LayoutInside(spec, start, i);
    DataPlace(spec, tensors, start, i);
    var front, data := Front(modelHash, Entries(spec, start)), Data(spec, tensors, start);
    FrontLength(modelHash, Entries(spec, start));
    Shifted(front, data, Entries(spec, start)[i].offset - start, Entries(spec, start)[i].bytes);
  }

  lemma FrontLength(modelHash: seq<nat>, entries: seq<Entry>)
    requires |modelHash| == 32 && forall i :: 0 <= i < |entries| ==> |entries[i].dims| == 8
    ensures |Front(modelHash, entries)| == DataStart(|entries|)
  {
  }

  lemma FrontHeader(modelHash: seq<nat>, entries: seq<Entry>, data: seq<Byte>)
    requires |modelHash| == 32 && forall i :: 0 <= i < |entries| ==> |entries[i].dims| == 8
    ensures |Front(modelHash, entries) + data| >= HEADER_SIZE
    ensures (Front(modelHash, entries) + data)[..HEADER_SIZE] == PackHeader(HeaderOf(modelHash, |entries|))
  {
    hide PackHeader, Toc;
  }

  lemma FrontEntry(modelHash: seq<nat>, entries: seq<Entry>, data: seq<Byte>, i: nat)
    requires |modelHash| == 32 && forall k :: 0 <= k < |entries| ==> |entries[k].dims| == 8
    requires i < |entries| && EntryFits(entries[i])
    ensures HEADER_SIZE + (i + 1) * ENTRY_SIZE <= |Front(modelHash, entries) + data|
    ensures EntryOf(Front(modelHash, entries) + data, i) == entries[i]
  {
    hide PackHeader, Toc, ReadEntry, PackEntry, EntryFits, Zeros, EntryOf;
    TocSlice(entries, i);
    EntryRoundTrip(entries[i]);
    var header, toc := PackHeader(HeaderOf(modelHash, |entries|)), Toc(entries);
    var pad := Zeros(DataStart(|entries|) - (HEADER_SIZE + |entries| * ENTRY_SIZE));
    assert Front(modelHash, entries) == header + toc + pad;
    hide Front;
    EntryWithin(header, toc, pad, data, entries[i], i);
  }

  lemma EntryWithin(header: seq<Byte>, toc: seq<Byte>, pad: seq<Byte>, data: seq<Byte>, e: Entry, i: nat)
    requires |header| == HEADER_SIZE && i * ENTRY_SIZE + ENTRY_SIZE <= |toc| && |e.dims| == 8
    requires toc[i * ENTRY_SIZE..i * ENTRY_SIZE + ENTRY_SIZE] == PackEntry(e) && ReadEntry(PackEntry(e)) == e
    ensures HEADER_SIZE + (i + 1) * ENTRY_SIZE <= |header + toc + pad + data|
    ensures EntryOf(header + toc + pad + data, i) == e
  {
    hide ReadEntry, PackEntry;
    Middle(header, toc, pad, data, i * ENTRY_SIZE, ENTRY_SIZE);
  }

  lemma Middle(a: seq<Byte>, b: seq<Byte>, c: seq<Byte>, d: seq<Byte>, lo: nat, n: nat)
    requires lo + n <= |b|
    ensures (a + b + c + d)[|a| + lo..|a| + lo + n] == b[lo..lo + n]
  {
  }

  /** The first bytes of a package. */
  lemma FileStarts(modelHash: seq<nat>, spec: seq<Section>, tensors: Tensors)
    requires SpecOk(spec, tensors) && |modelHash| == 32 && forall k :: 0 <= k < |spec| ==> |spec[k].shape| <= 8
    ensures
      && |FileOf(modelHash, spec, tensors)| >= HEADER_SIZE
      && var s := FileOf(modelHash, spec, tensors)[..HEADER_SIZE];
      && s[0..4] == ['M' as nat, 'K' as nat, 'P' as nat, '1' as nat] && s[4..6] == [2, 0] && s[6..8] == [120, 0]
      && (forall i :: 0 <= i < 32 ==> s[8 + i] == modelHash[i] % 256)
      && s[40..44] == Le(|spec|, 4) && s[44..48] == [0, 0, 0, 0]
      && s[48..56] == [64, 0, 0, 0, 0, 0, 0, 0] && s[56..64] == Le(DataStart(|spec|), 8)
  {
    FileParts(modelHash, spec, tensors);
    var start := DataStart(|spec|);
    var h := HeaderOf(modelHash, |spec|);
    HeaderPlaces(h);
    ConstantBytes();
    hide FileOf, Front, Data, Entries, DataStart, PackHeader, Le;
    FrontHeader(modelHash, Entries(spec, start), Data(spec, tensors, start));
    assert FileOf(modelHash, spec, tensors)[..HEADER_SIZE] == PackHeader(h);
  }

  lemma ConstantBytes()
    ensures Le(MAGIC, 4) == ['M' as nat, 'K' as nat, 'P' as nat, '1' as nat]
    ensures Le(ABI_VERSION, 2) == [2, 0] && Le(TARGET_SM, 2) == [120, 0] && Le(0, 4) == [0, 0, 0, 0]
    ensures Le(HEADER_SIZE, 8) == [64, 0, 0, 0, 0, 0, 0, 0]
  {
    FourOf(MAGIC);
    FourOf(0);
    FourOf(HEADER_SIZE);
    TwoOf(ABI_VERSION);
    TwoOf(TARGET_SM);
    assert Le(HEADER_SIZE, 8) == [64] + Le(0, 7);
    ZeroDigits(7);
  }

  lemma TwoOf(v: nat)
    ensures Le(v, 2) == [v % 256, v / 256 % 256]
  {
    assert Le(v, 2) == [v % 256] + Le(v / 256, 1);
    OneByte(v / 256);
  }

  lemma FourOf(v: nat)
    ensures Le(v, 4) == [v % 256, v / 256 % 256, v / 256 / 256 % 256, v / 256 / 256 / 256 % 256]
  {
    assert Le(v, 4) == [v % 256] + Le(v / 256, 3);
    assert Le(v / 256, 3) == [v / 256 % 256] + Le(v / 256 / 256, 2);
    TwoOf(v / 256 / 256);
  }

  lemma {:induction false} ZeroDigits(n: nat)
    ensures Le(0, n) == Zeros(n)
  {
    if n > 0 {
      ZeroDigits(n - 1);
    }
  }

  // ---- loader ----

  /** What the engine expects of one section. */
  datatype Expected = Expected(hash: nat, dims: seq<nat>)

  /** An accepted section and its place in the weight arena. */
  datatype Placement = Placement(entry: Entry, at: nat)

  datatype LoadResult = Loaded(arena: seq<Byte>, placed: seq<Placement>) | Mismatch | Io

  const U64: nat := 0x1_0000_0000_0000_0000

  predicate HeaderGood(h: Header, fileSize: nat) {
    && HeaderAccepted(h) && h.reserved == 0 && h.dataStart <= fileSize
    && h.count != 0 && h.count * ENTRY_SIZE <= (h.dataStart + U64 - h.tocOffset) % U64
  }

  predicate Matches(e: Entry, x: Expected, dataStart: nat) {
    && e.hash == x.hash && e.dtype == 0 && e.layout == 0
    && e.rank == |x.dims| <= |e.dims| && e.dims[..|x.dims|] == x.dims
    && e.bytes == ByteCount(x.dims) && e.offset >= dataStart
  }

  predicate HashesDiffer(entries: seq<Entry>) {
    forall i, j :: 0 <= i < j < |entries| ==> entries[i].hash != entries[j].hash
  }

  /** The loader's whole validation of a table of contents. */
  ghost predicate TocGood(entries: seq<Entry>, expected: seq<Expected>, fullCount: nat, dataStart: nat) {
    && HashesDiffer(entries) && |entries| == fullCount
    && forall k :: 0 <= k < |expected| ==> Found(entries, expected[k], dataStart)
  }

  ghost predicate Found(entries: seq<Entry>, x: Expected, dataStart: nat) {
    exists i :: 0 <= i < |entries| && Matches(entries[i], x, dataStart)
  }

  /** Sections back to back at multiples of 256, the arena exactly as long as needed. */
  ghost predicate PlacedWell(placed: seq<Placement>, size: nat) {
    && (forall k :: 0 <= k < |placed| ==> Aligned(placed[k].at) && placed[k].at + placed[k].entry.bytes <= size)
    && (forall k, l :: 0 <= k < l < |placed| ==> placed[k].at + placed[k].entry.bytes <= placed[l].at)
    && size == if placed == [] then 0 else placed[|placed| - 1].at + placed[|placed| - 1].entry.bytes
  }

  /** `index` finds every entry under its own hash, and nothing else. */
  ghost predicate Indexes(index: map<nat, Entry>, entries: seq<Entry>) {
    && |index| == |entries| && HashesDiffer(entries)
    && (forall i :: 0 <= i < |entries| ==> entries[i].hash in index && index[entries[i].hash] == entries[i])
    && (forall h :: h in index ==> exists i :: 0 <= i < |entries| && entries[i] == index[h] && entries[i].hash == h)
  }

  lemma IndexMore(index: map<nat, Entry>, entries: seq<Entry>, e: Entry)
    requires Indexes(index, entries) && e.hash !in index
    ensures Indexes(index[e.hash := e], entries + [e])
  {
    var more, index2 := entries + [e], index[e.hash := e];
    assert |index2| == |index| + 1;
    forall h | h in index2 ensures exists i :: 0 <= i < |more| && more[i] == index2[h] && more[i].hash == h {
      if h == e.hash {
        assert more[|entries|] == e;
      } else {
        var i :| 0 <= i < |entries| && entries[i] == index[h] && entries[i].hash == h;
        assert more[i] == entries[i];
      }
    }
  }

  lemma HashTwice(index: map<nat, Entry>, entries: seq<Entry>, i: nat)
    requires i < |entries| && Indexes(index, entries[..i]) && entries[i].hash in index
    ensures !HashesDiffer(entries)
  {
    var k :| 0 <= k < i && entries[..i][k].hash == entries[i].hash;
    assert entries[k].hash == entries[i].hash;
  }

  /** Hash index over the table; fails on a repeated hash. */
  method IndexByHash(entries: seq<Entry>) returns (index: map<nat, Entry>, ok: bool)
    ensures ok <==> HashesDiffer(entries)
    ensures ok ==> Indexes(index, entries)
  {
    index := map[];
    assert Indexes(index, entries[..0]);
    assert forall es, m :: Indexes(m, es) ==> HashesDiffer(es);
    hide Indexes, HashesDiffer;
    for i := 0 to |entries|
      invariant Indexes(index, entries[..i])
    {
      var e := entries[i];
      if e.hash in index {
        HashTwice(index, entries, i);
        return map[], false;
      }
      IndexMore(index, entries[..i], e);
      assert entries[..i + 1] == entries[..i] + [e];
      index := index[e.hash := e];
    }
    assert entries[..|entries|] == entries;
    ok := true;
  }

  method SelectSections(index: map<nat, Entry>, expected: seq<Expected>,
      dataStart: nat) returns (chosen: seq<Entry>, ok: bool)
    ensures ok <==> forall k :: 0 <= k < |expected| ==>
              expected[k].hash in index && Matches(index[expected[k].hash], expected[k], dataStart)
    ensures ok ==> |chosen| == |expected| && forall k :: 0 <= k < |chosen| ==> chosen[k] == index[expected[k].hash]
  {
    chosen := [];
    for k := 0 to |expected|
      invariant |chosen| == k && forall i :: 0 <= i < k ==>
        expected[i].hash in index && Matches(index[expected[i].hash], expected[i], dataStart)
            && chosen[i] == index[expected[i].hash]
    {
      var x := expected[k];
      if x.hash !in index {
        return [], false;
      }
      var s := index[x.hash];
      if !Matches(s, x, dataStart) {
        return [], false;
      }
      chosen := chosen + [s];
    }
    ok := true;
  }

  method PlaceSections(chosen: seq<Entry>) returns (placed: seq<Placement>, size: nat)
    ensures |placed| == |chosen| && (forall k :: 0 <= k < |chosen| ==> placed[k].entry == chosen[k])
    ensures PlacedWell(placed, size)
  {
    placed, size := [], 0;
    for k := 0 to |chosen|
      invariant |placed| == k && (forall i :: 0 <= i < k ==> placed[i].entry == chosen[i])
      invariant PlacedWell(placed, size)
    {
      ghost var before := placed;
      var cursor := AlignUp(size);
      assert Aligned(cursor) && size <= cursor;
      hide AlignUp, Aligned;
      placed := placed + [Placement(chosen[k], cursor)];
      size := cursor + chosen[k].bytes;
      assert forall i :: 0 <= i < k ==> placed[i] == before[i];
    }
  }

  /** One section in pieces of at most `chunk` bytes. */
  method Upload(arena0: seq<Byte>, p: Placement, file: seq<Byte>, chunk: nat) returns (arena: seq<Byte>, ok: bool)
    requires p.at + p.entry.bytes <= |arena0| && chunk > 0
    ensures |arena| == |arena0|
    ensures ok <==> p.entry.bytes == 0 || p.entry.offset + p.entry.bytes <= |file|
    ensures ok ==> arena[p.at..p.at + p.entry.bytes] == if p.entry.bytes == 0
              then [] else file[p.entry.offset..p.entry.offset + p.entry.bytes]
    ensures arena[..p.at] == arena0[..p.at] && arena[p.at + p.entry.bytes..] == arena0[p.at + p.entry.bytes..]
  {
    arena, ok := arena0, true;
    var done := 0;
    var at, src, bytes := p.at, p.entry.offset, p.entry.bytes;
    while done < bytes
      invariant 0 <= done <= bytes && |arena| == |arena0| && ok
      invariant done > 0 ==> src + done <= |file| && arena[at..at + done] == file[src..src + done]
      invariant arena[..at] == arena0[..at] && arena[at + bytes..] == arena0[at + bytes..]
    {
      var n := if bytes - done < chunk then bytes - done else chunk;
      if src + done + n > |file| {
        ok := false;
        return;
      }
      ghost var before := arena;
      arena := Spliced(arena, at + done, file[src + done..src + done + n]);
      SplicedKeeps(before, at, done, file, src, n, bytes);
      done := done + n;
    }
  }

  function Spliced(s: seq<Byte>, at: nat, part: seq<Byte>): (r: seq<Byte>)
    requires at + |part| <= |s|
    ensures |r| == |s|
  {
    s[..at] + part + s[at + |part|..]
  }

  lemma SplicedKeeps(s: seq<Byte>, at: nat, done: nat, file: seq<Byte>, src: nat, n: nat, bytes: nat)
    requires done + n <= bytes && at + bytes <= |s| && src + done + n <= |file|
    requires done > 0 ==> s[at..at + done] == file[src..src + done]
    ensures
      var r := Spliced(s, at + done, file[src + done..src + done + n]);
      && r[at..at + done + n] == file[src..src + done + n]
      && r[..at] == s[..at] && r[at + bytes..] == s[at + bytes..]
  {
    var part := file[src + done..src + done + n];
    var r := Spliced(s, at + done, part);
    assert r[at..at + done] == s[at..at + done];
    assert r[at + done..at + done + n] == part;
    assert r[at..at + done + n] == r[at..at + done] + r[at + done..at + done + n];
    assert file[src..src + done + n] == file[src..src + done] + part;
  }

  /** The bytes of a section as the file holds them. */
  ghost predicate Holds(arena: seq<Byte>, p: Placement, file: seq<Byte>) {
    && p.at + p.entry.bytes <= |arena|
    && (p.entry.bytes == 0 || p.entry.offset + p.entry.bytes <= |file|)
    && arena[p.at..p.at + p.entry.bytes] == if p.entry.bytes == 0
         then [] else file[p.entry.offset..p.entry.offset + p.entry.bytes]
  }

  /** An upload behind a section leaves it alone. */
  lemma StillHeld(before: seq<Byte>, arena: seq<Byte>, q: Placement, at: nat, file: seq<Byte>)
    requires Holds(before, q, file) && |arena| == |before| && q.at + q.entry.bytes <= at <= |before|
    requires arena[..at] == before[..at]
    ensures Holds(arena, q, file)
  {
    assert arena[q.at..q.at + q.entry.bytes] == arena[..at][q.at..q.at + q.entry.bytes];
    assert before[q.at..q.at + q.entry.bytes] == before[..at][q.at..q.at + q.entry.bytes];
  }

  method UploadAll(placed: seq<Placement>, size: nat, file: seq<Byte>, chunk: nat) returns (arena: seq<Byte>, ok: bool)
    requires PlacedWell(placed, size) && chunk > 0
    ensures |arena| == size
    ensures ok <==> forall k :: 0 <= k < |placed| ==>
              placed[k].entry.bytes == 0 || placed[k].entry.offset + placed[k].entry.bytes <= |file|
    ensures ok ==> forall k :: 0 <= k < |placed| ==> Holds(arena, placed[k], file)
  {
    arena := Zeros(size);
    for i := 0 to |placed|
      invariant |arena| == size
      invariant forall k :: 0 <= k < i ==> Holds(arena, placed[k], file)
    {
      var p := placed[i];
      ghost var before := arena;
      arena, ok := Upload(arena, p, file, chunk);
      if !ok {
        return;
      }
      forall k | 0 <= k < i ensures Holds(arena, placed[k], file) {
        StillHeld(before, arena, placed[k], p.at, file);
      }
    }
    ok := true;
  }

  function EntriesOf(file: seq<Byte>, count: nat): (r: seq<Entry>)
    requires HEADER_SIZE + count * ENTRY_SIZE <= |file|
    ensures |r| == count && forall i :: 0 <= i < count ==> r[i] == EntryOf(file, i)
  {
    hide EntryOf;
    seq(count, i requires 0 <= i < count => EntryOf(file, i))
  }

  /** The loader takes a file exactly if its header, its table and the extents of the
      sections it wants are in order; then every wanted section, as the table describes
      it, sits in the arena, apart from the others, with the file's bytes. */
  method LoadPackage(file: seq<Byte>, expected: seq<Expected>, fullCount: nat, chunk: nat) returns (r: LoadResult)
    requires chunk > 0
    ensures r.Loaded? <==> Acceptable(file, expected, fullCount)
    ensures r.Loaded? ==>
              && |r.placed| == |expected| && PlacedWell(r.placed, |r.arena|)
              && var h := ReadHeader(file[..HEADER_SIZE]);
                 forall k :: 0 <= k < |r.placed| ==>
                   && r.placed[k].entry in EntriesOf(file, h.count)
                        && Matches(r.placed[k].entry, expected[k], h.dataStart)
                   && Holds(r.arena, r.placed[k], file)
  {
    hide ReadHeader, EntryOf, Matches;
    if |file| < HEADER_SIZE {
      return Io;
    }
    var h := ReadHeader(file[..HEADER_SIZE]);
    if !HeaderGood(h, |file|) {
      return Mismatch;
    }
    if HEADER_SIZE + h.count * ENTRY_SIZE > |file| {
      return Io;
    }
    var entries := EntriesOf(file, h.count);
    var index, unique := IndexByHash(entries);
    if !unique || |index| != fullCount {
      return Mismatch;
    }
    var chosen, matched := SelectSections(index, expected, h.dataStart);
    SelectedExactly(entries, index, expected, h.dataStart);
    if !matched {
      return Mismatch;
    }
    var placed, size := PlaceSections(chosen);
    ChosenExtents(entries, expected, chosen, h.dataStart, |file|);
    var arena, uploaded := UploadAll(placed, size, file, chunk);
    if !uploaded {
      return Io;
    }
    r := Loaded(arena, placed);
  }

  /** Header and table pass. */
  ghost predicate Validated(file: seq<Byte>, expected: seq<Expected>, fullCount: nat) {
    && |file| >= HEADER_SIZE
    && var h := ReadHeader(file[..HEADER_SIZE]);
    && HeaderGood(h, |file|) && HEADER_SIZE + h.count * ENTRY_SIZE <= |file|
    && TocGood(EntriesOf(file, h.count), expected, fullCount, h.dataStart)
  }

  /** And every wanted section lies inside the file. */
  ghost predicate Acceptable(file: seq<Byte>, expected: seq<Expected>, fullCount: nat) {
    && Validated(file, expected, fullCount)
    && var h := ReadHeader(file[..HEADER_SIZE]);
       WantedInside(EntriesOf(file, h.count), expected, h.dataStart, |file|)
  }

  predicate EntryInside(e: Entry, fileSize: nat) {
    e.bytes == 0 || e.offset + e.bytes <= fileSize
  }

  ghost predicate WantedInside(entries: seq<Entry>, expected: seq<Expected>, dataStart: nat, fileSize: nat) {
    forall i, k :: 0 <= i < |entries| && 0 <= k < |expected| && Matches(entries[i], expected[k], dataStart) ==>
      EntryInside(entries[i], fileSize)
  }

  /** The chosen entries are the wanted ones, no more and no less. */
  lemma ChosenExtents(entries: seq<Entry>, expected: seq<Expected>, chosen: seq<Entry>, dataStart: nat, fileSize: nat)
    requires HashesDiffer(entries) && |chosen| == |expected|
    requires forall k :: 0 <= k < |chosen| ==> chosen[k] in entries && Matches(chosen[k], expected[k], dataStart)
    ensures WantedInside(entries, expected, dataStart, fileSize) <==>
              forall k :: 0 <= k < |chosen| ==> EntryInside(chosen[k], fileSize)
  {
    forall i, k | 0 <= i < |entries| && 0 <= k < |expected| && Matches(entries[i], expected[k], dataStart)
      ensures entries[i] == chosen[k]
    {
      var j :| 0 <= j < |entries| && entries[j] == chosen[k];
      assert entries[i].hash == entries[j].hash;
    }
  }

  lemma SelectedExactly(entries: seq<Entry>, index: map<nat, Entry>, expected: seq<Expected>, dataStart: nat)
    requires Indexes(index, entries)
    ensures (forall k :: 0 <= k < |expected| ==>
              expected[k].hash in index && Matches(index[expected[k].hash], expected[k], dataStart))
            <==> (forall k :: 0 <= k < |expected| ==> Found(entries, expected[k], dataStart))
  {
    forall k | 0 <= k < |expected|
      ensures (expected[k].hash in index && Matches(index[expected[k].hash], expected[k], dataStart)) <==>
                Found(entries, expected[k], dataStart)
    {
      if Found(entries, expected[k], dataStart) {
        var i :| 0 <= i < |entries| && Matches(entries[i], expected[k], dataStart);
        assert index[entries[i].hash] == entries[i];
      }
    }
  }

  /** The engine's own list for a package written from `spec`. */
  function ExpectedOf(spec: seq<Section>): (r: seq<Expected>)
    ensures |r| == |spec|
  {
    seq(|spec|, i requires 0 <= i < |spec| => Expected(spec[i].hash, spec[i].shape))
  }

  /** The loader accepts what the writer writes, as long as the section hashes differ. */
  lemma WrittenIsAcceptable(modelHash: seq<nat>, spec: seq<Section>, tensors: Tensors)
    requires SpecOk(spec, tensors) && Fitting(modelHash, spec) && spec != []
    requires forall k :: 0 <= k < |spec| ==> |spec[k].shape| <= 8
    requires forall i, j :: 0 <= i < j < |spec| ==> spec[i].hash != spec[j].hash
    ensures Acceptable(FileOf(modelHash, spec, tensors), ExpectedOf(spec), |spec|)
  {
    hide FileOf, ReadHeader, Payload, End, SectionOk, EntryOf, ByteCount;
    var file, start := FileOf(modelHash, spec, tensors), DataStart(|spec|);
    WrittenSize(modelHash, spec, tensors);
    WrittenHeader(modelHash, spec, tensors);
    var h := ReadHeader(file[..HEADER_SIZE]);
    assert HeaderGood(h, |file|) by { StartFits(spec); }
    var entries := EntriesOf(file, |spec|);
    forall i | 0 <= i < |spec|
      ensures entries[i] == EntryAt(spec[i], entries[i].offset)
      ensures start <= entries[i].offset && entries[i].offset + entries[i].bytes <= |file|
      ensures Matches(entries[i], ExpectedOf(spec)[i], start) && Found(entries, ExpectedOf(spec)[i], start)
    {
      WrittenEntry(modelHash, spec, tensors, i);
      WrittenData(modelHash, spec, tensors, i);
      LayoutInside(spec, start, i);
      hide Entries;
      assert PadTo8(spec[i].shape)[..|spec[i].shape|] == spec[i].shape;
    }
  }

  /** What a package written from tensors brings into the arena: wherever section `i` was
      placed, its source rows lie. */
  lemma LoadedIsSource(modelHash: seq<nat>, spec: seq<Section>, tensors: Tensors,
                                          arena: seq<Byte>, p: Placement, i: nat)
    requires SpecOk(spec, tensors) && Fitting(modelHash, spec) && spec != [] && i < |spec|
    requires forall k :: 0 <= k < |spec| ==> |spec[k].shape| <= 8
    requires forall k, l :: 0 <= k < l < |spec| ==> spec[k].hash != spec[l].hash
    requires HEADER_SIZE + |spec| * ENTRY_SIZE <= |FileOf(modelHash, spec, tensors)|
    requires p.entry in EntriesOf(FileOf(modelHash, spec, tensors), |spec|) && p.entry.hash == spec[i].hash
    requires Holds(arena, p, FileOf(modelHash, spec, tensors))
    ensures p.at + ByteCount(spec[i].shape) <= |arena|
    ensures arena[p.at..p.at + ByteCount(spec[i].shape)] == Payload(spec[i], tensors)
  {
    hide FileOf, Payload, End, SectionOk, EntryOf, ByteCount, DataStart, AlignUp;
    var file := FileOf(modelHash, spec, tensors);
    var entries := EntriesOf(file, |spec|);
    var j :| 0 <= j < |spec| && entries[j] == p.entry;
    WrittenEntry(modelHash, spec, tensors, j);
    LayoutInside(spec, DataStart(|spec|), j);
    hide Entries;
    assert j == i;
    WrittenData(modelHash, spec, tensors, i);
  }

  lemma StartFits(spec: seq<Section>)
    requires spec != [] && DataStart(|spec|) < Pow256(8)
    ensures |spec| * ENTRY_SIZE <= (DataStart(|spec|) + U64 - HEADER_SIZE) % U64
  {
    ConstantsFit();
  }
}
