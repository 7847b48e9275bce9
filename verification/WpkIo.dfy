/** The package writer, reader and loader, and what survives the trip. */
module WpkIo {
  import opened Bits
  import opened Wpk
  import opened WpkFile

  ghost predicate SpecOk(spec: seq<Section>, tensors: Tensors) {
    forall i :: 0 <= i < |spec| ==> SectionOk(spec[i], tensors)
  }

  lemma ShapesOk(spec: seq<Section>, tensors: Tensors)
    requires SpecOk(spec, tensors)
    ensures forall i :: 0 <= i < |spec| ==> |spec[i].shape| <= 8
  {
  }

  function Data(spec: seq<Section>, tensors: Tensors, cur: nat): seq<Byte>
    requires SpecOk(spec, tensors)
  {
    if spec == [] then []
    else
      var next := AlignUp(cur + ByteCount(spec[0].shape));
      Payload(spec[0], tensors) + Zeros(next - (cur + ByteCount(spec[0].shape))) + Data(spec[1..], tensors, next)
  }

  function HeaderOf(modelHash: seq<nat>, count: nat): Header {
    Header(MAGIC, ABI_VERSION, TARGET_SM, modelHash, count, 0, HEADER_SIZE, DataStart(count))
  }

  /** The whole package. */
  function FileOf(modelHash: seq<nat>, spec: seq<Section>, tensors: Tensors): seq<Byte>
    requires SpecOk(spec, tensors) && |modelHash| == 32
  {
    ShapesOk(spec, tensors);
    var start := DataStart(|spec|);
    PackHeader(HeaderOf(modelHash, |spec|)) + Toc(Entries(spec, start))
      + Zeros(start - (HEADER_SIZE + |spec| * ENTRY_SIZE)) + Data(spec, tensors, start)
  }

  /** Every section's bytes are where its entry says. */
  lemma {:induction false} DataPlace(spec: seq<Section>, tensors: Tensors, cur: nat, i: nat)
    requires SpecOk(spec, tensors) && i < |spec| && forall k :: 0 <= k < |spec| ==> |spec[k].shape| <= 8
    ensures
      var lo := Entries(spec, cur)[i].offset - cur;
      && 0 <= lo && lo + ByteCount(spec[i].shape) <= |Data(spec, tensors, cur)|
      && Data(spec, tensors, cur)[lo..lo + ByteCount(spec[i].shape)] == Payload(spec[i], tensors)
    decreases |spec|
  {
    hide Data, Payload, Entries, AlignUp, ByteCount, PadTo8, SectionOk;
    var next := AlignUp(cur + ByteCount(spec[0].shape));
    var n := ByteCount(spec[i].shape);
    DataHead(spec, tensors, cur);
    assert spec[0..] == spec;
    LayoutHead(spec, 0, cur);
    var head, rest := FirstPart(spec, tensors, cur), Data(spec[1..], tensors, next);
    if i > 0 {
      DataPlace(spec[1..], tensors, next, i - 1);
      var at := Entries(spec[1..], next)[i - 1].offset;
      assert Entries(spec, cur)[i] == Entries(spec[1..], next)[i - 1];
      Shifted(head, rest, at - next, n);
    } else {
      assert (head + rest)[..n] == head[..n];
    }
  }

  /** A section's bytes and the zeros up to the next. */
  function FirstPart(spec: seq<Section>, tensors: Tensors, cur: nat): seq<Byte>
    requires SpecOk(spec, tensors) && spec != []
  {
    var size := ByteCount(spec[0].shape);
    Payload(spec[0], tensors) + Zeros(AlignUp(cur + size) - (cur + size))
  }

  lemma DataHead(spec: seq<Section>, tensors: Tensors, cur: nat)
    requires SpecOk(spec, tensors) && spec != []
    ensures
      var size := ByteCount(spec[0].shape);
      var next := AlignUp(cur + size);
      var head := FirstPart(spec, tensors, cur);
      && Data(spec, tensors, cur) == head + Data(spec[1..], tensors, next)
      && |head| == next - cur && size <= |head| && head[..size] == Payload(spec[0], tensors)
      && |Payload(spec[0], tensors)| == size
  {
    PayloadLength(spec[0], tensors);
  }

  lemma Shifted(a: seq<Byte>, b: seq<Byte>, lo: nat, n: nat)
    requires lo + n <= |b|
    ensures (a + b)[|a| + lo..|a| + lo + n] == b[lo..lo + n]
  {
  }

  lemma {:induction false} DataLength(spec: seq<Section>, tensors: Tensors, cur: nat)
    requires SpecOk(spec, tensors)
    ensures cur + |Data(spec, tensors, cur)| == End(spec, cur)
    decreases |spec|
  {
    if spec != [] {
      PayloadLength(spec[0], tensors);
      DataLength(spec[1..], tensors, AlignUp(cur + ByteCount(spec[0].shape)));
    }
  }

  // ---- writer ----

  method BuildLayout(spec: seq<Section>) returns (dataStart: nat, entries: seq<Entry>, total: nat)
    requires forall i :: 0 <= i < |spec| ==> |spec[i].shape| <= 8
    ensures dataStart == DataStart(|spec|) && entries == Entries(spec, dataStart) && total == End(spec, dataStart)
  {
    hide Entries, End, AlignUp, PadTo8, ByteCount;
    dataStart := AlignUp(HEADER_SIZE + |spec| * ENTRY_SIZE);
    assert dataStart == DataStart(|spec|);
    hide DataStart;
    var cur := dataStart;
    entries := [];
    assert spec[0..] == spec;
    for i := 0 to |spec|
      invariant entries + Entries(spec[i..], cur) == Entries(spec, dataStart)
      invariant End(spec[i..], cur) == End(spec, dataStart)
    {
      var bytes := CountBytes(spec[i].shape);
      LayoutHead(spec, i, cur);
      entries := entries + [EntryAt(spec[i], cur)];
      cur := AlignUp(cur + bytes);
    }
    LayoutNone(spec[|spec|..], cur);
    total := cur;
  }

  lemma LayoutNone(spec: seq<Section>, cur: nat)
    requires spec == []
    ensures Entries(spec, cur) == [] && End(spec, cur) == cur
  {
  }

  method CountBytes(shape: seq<nat>) returns (bytes: nat)
    ensures bytes == ByteCount(shape)
  {
    bytes := 2;
    assert shape[0..] == shape;
    for i := 0 to |shape|
      invariant bytes * Elems(shape[i..]) == ByteCount(shape)
    {
      assert shape[i..][1..] == shape[i + 1..];
      Regroup(bytes, shape[i], Elems(shape[i + 1..]));
      bytes := bytes * shape[i];
    }
  }

  lemma Regroup(a: nat, b: nat, c: nat)
    ensures a * (b * c) == (a * b) * c
  {
  }

  lemma {:induction false} FlattenAppend(a: seq<Row>, b: seq<Row>)
    ensures Flatten(a + b) == Flatten(a) + Flatten(b)
    decreases |a|
  {
    if a == [] {
      assert a + b == b;
    } else {
      FlattenAppend(a[1..], b);
      assert (a + b)[1..] == a[1..] + b;
    }
  }

  /** Streams one section's tensors in. */
  method WriteSection(out0: seq<Byte>, sec: Section, tensors: Tensors) returns (out: seq<Byte>, written: nat)
    requires SectionOk(sec, tensors)
    ensures out == out0 + Payload(sec, tensors) && written == ByteCount(sec.shape)
  {
    hide ByteCount, Wide;
    PayloadLength(sec, tensors);
    if |sec.shape| == 1 {
      var vector := tensors[sec.sources[0].key][0];
      return out0 + vector, |vector|;
    }
    SlicesOk(sec, tensors);
    out, written := WriteRows(out0, sec.sources, tensors);
  }

  /** A row concatenation: each source's slice after the other. */
  method WriteRows(out0: seq<Byte>, sources: seq<Source>, tensors: Tensors) returns (out: seq<Byte>, written: nat)
    requires forall i :: 0 <= i < |sources| ==> SliceOk(sources[i], tensors)
    ensures out == out0 + Flatten(FusedRows(sources, tensors)) && written == |Flatten(FusedRows(sources, tensors))|
  {
    hide Flatten, FusedRows;
    out, written := out0, 0;
    assert sources[0..] == sources;
    for k := 0 to |sources|
      invariant out + Flatten(FusedRows(sources[k..], tensors)) == out0 + Flatten(FusedRows(sources, tensors))
      invariant written == |out| - |out0|
    {
      var s := sources[k];
      var bytes := Flatten(tensors[s.key][s.row0..s.row0 + s.count]);
      RowsHead(sources, tensors, k);
      Regather(out, bytes, Flatten(FusedRows(sources[k + 1..], tensors)));
      out := out + bytes;
      written := written + |bytes|;
    }
    NoRows(sources[|sources|..], tensors);
  }

  lemma RowsHead(sources: seq<Source>, tensors: Tensors, k: nat)
    requires k < |sources| && forall i :: 0 <= i < |sources| ==> SliceOk(sources[i], tensors)
    ensures
      var s := sources[k];
      Flatten(FusedRows(sources[k..], tensors)) ==
      Flatten(tensors[s.key][s.row0..s.row0 + s.count]) + Flatten(FusedRows(sources[k + 1..], tensors))
  {
    var s := sources[k];
    assert sources[k..][0] == s && sources[k..][1..] == sources[k + 1..];
    FlattenAppend(tensors[s.key][s.row0..s.row0 + s.count], FusedRows(sources[k + 1..], tensors));
  }

  lemma NoRows(sources: seq<Source>, tensors: Tensors)
    requires sources == []
    ensures Flatten(FusedRows(sources, tensors)) == []
  {
  }

  lemma SlicesOk(sec: Section, tensors: Tensors)
    requires SectionOk(sec, tensors) && |sec.shape| == 2
    ensures forall i :: 0 <= i < |sec.sources| ==> SliceOk(sec.sources[i], tensors)
  {
  }

  function SumBytes(entries: seq<Entry>): nat {
    if entries == [] then 0 else SumBytes(entries[..|entries| - 1]) + entries[|entries| - 1].bytes
  }

  /** Streams the package out; both of the writer's own assertions hold, and the file is
      `FileOf`. */
  method WritePackage(modelHash: seq<nat>, spec: seq<Section>, tensors: Tensors) returns (out: seq<Byte>)
    requires SpecOk(spec, tensors) && |modelHash| == 32
    ensures out == FileOf(modelHash, spec, tensors)
  {
    hide PackHeader, PackEntry, Toc, Data, Entries, End, SectionOk, AlignUp, PadTo8, ByteCount, Payload, FileOf;
    ShapesOk(spec, tensors);
    var dataStart, entries, total := BuildLayout(spec);
    out := WriteFront(modelHash, spec, entries, dataStart);
    FileParts(modelHash, spec, tensors);
    var pos, written := dataStart, 0;
    assert spec[0..] == spec && entries[0..] == entries;
    for i := 0 to |spec|
      invariant out + Data(spec[i..], tensors, pos) == FileOf(modelHash, spec, tensors)
      invariant entries[i..] == Entries(spec[i..], pos)
      invariant written == SumBytes(entries[..i])
    {
      LayoutHead(spec, i, pos);
      assert entries[i] == entries[i..][0] && entries[i..][1..] == entries[i + 1..];
      assert pos == entries[i].offset;
      DataHead(spec[i..], tensors, pos);
      assert spec[i..][0] == spec[i] && spec[i..][1..] == spec[i + 1..];
      ghost var before, head := out, FirstPart(spec[i..], tensors, pos);
      var bytes, aligned;
      out, bytes, aligned := WriteAligned(out, spec[i], tensors, pos);
      written := written + bytes;
      assert entries[..i + 1][..i] == entries[..i];
      Regather(before, head, Data(spec[i + 1..], tensors, aligned));
      pos := aligned;
    }
    assert entries[..|spec|] == entries;
    assert written == SumBytes(entries);
    NoData(spec[|spec|..], tensors, pos);
  }

  /** One section and the zeros up to the next multiple of 256. */
  method WriteAligned(out0: seq<Byte>, sec: Section, tensors: Tensors, pos0: nat)
    returns (out: seq<Byte>, bytes: nat, pos: nat)
    requires SectionOk(sec, tensors)
    ensures bytes == ByteCount(sec.shape) && pos == AlignUp(pos0 + bytes) && pos0 + bytes <= pos
    ensures out == out0 + (Payload(sec, tensors) + Zeros(pos - (pos0 + bytes)))
  {
    hide SectionOk, AlignUp, ByteCount, Payload;
    out, bytes := WriteSection(out0, sec, tensors);
    var size := CountBytes(sec.shape);
    pos := AlignUp(pos0 + size);
    AlignsUp(pos0 + size);
    out := out + Zeros(pos - (pos0 + size));
  }

  lemma AlignsUp(x: nat)
    ensures x <= AlignUp(x)
  {
  }

  lemma Regather(a: seq<Byte>, b: seq<Byte>, c: seq<Byte>)
    ensures a + (b + c) == (a + b) + c
  {
  }

  lemma NoData(spec: seq<Section>, tensors: Tensors, cur: nat)
    requires spec == [] && SpecOk(spec, tensors)
    ensures Data(spec, tensors, cur) == []
  {
  }

  function Front(modelHash: seq<nat>, entries: seq<Entry>): (s: seq<Byte>)
    requires |modelHash| == 32 && forall i :: 0 <= i < |entries| ==> |entries[i].dims| == 8
    ensures |s| == DataStart(|entries|)
  {
    var start := DataStart(|entries|);
    PackHeader(HeaderOf(modelHash, |entries|)) + Toc(entries) + Zeros(start - (HEADER_SIZE + |entries| * ENTRY_SIZE))
  }

  lemma FileParts(modelHash: seq<nat>, spec: seq<Section>, tensors: Tensors)
    requires SpecOk(spec, tensors) && |modelHash| == 32
    requires forall i :: 0 <= i < |spec| ==> |spec[i].shape| <= 8
    ensures
      var start := DataStart(|spec|);
      FileOf(modelHash, spec, tensors) == Front(modelHash, Entries(spec, start)) + Data(spec, tensors, start)
  {
    hide PackHeader, Toc, Entries, Data;
  }

  method WriteFront(modelHash: seq<nat>, spec: seq<Section>, entries: seq<Entry>,
      dataStart: nat) returns (out: seq<Byte>)
    requires |modelHash| == 32 && |entries| == |spec| && dataStart == DataStart(|spec|)
    requires forall i :: 0 <= i < |entries| ==> |entries[i].dims| == 8
    ensures out == Front(modelHash, entries)
  {
    hide PackHeader, PackEntry, Toc;
    out := PackHeader(HeaderOf(modelHash, |entries|));
    ghost var header := out;
    TocNone(entries[..0]);
    for i := 0 to |entries|
      invariant out == header + Toc(entries[..i])
    {
      TocMore(entries, i);
      out := out + PackEntry(entries[i]);
    }
    assert entries[..|entries|] == entries;
    var pos := HEADER_SIZE + |entries| * ENTRY_SIZE;
    if pos < dataStart {
      out := out + Zeros(dataStart - pos);
    }
  }

  lemma TocNone(entries: seq<Entry>)
    requires entries == []
    ensures Toc(entries) == []
  {
  }

  lemma TocMore(entries: seq<Entry>, i: nat)
    requires i < |entries| && forall k :: 0 <= k < |entries| ==> |entries[k].dims| == 8
    ensures Toc(entries[..i + 1]) == Toc(entries[..i]) + PackEntry(entries[i])
  {
    hide PackEntry;
    assert entries[..i + 1][..i] == entries[..i];
  }

  // ---- reader ----

  datatype ReadResult = Package(header: Header, entries: seq<Entry>, byHash: map<nat, Entry>) | Truncated | Refused

  predicate HeaderAccepted(h: Header) {
    h.magic == MAGIC && h.abi == ABI_VERSION && h.sm == TARGET_SM && h.tocOffset == HEADER_SIZE
  }

  function EntryOf(file: seq<Byte>, i: nat): Entry
    requires HEADER_SIZE + (i + 1) * ENTRY_SIZE <= |file|
  {
    ReadEntry(file[HEADER_SIZE + i * ENTRY_SIZE..HEADER_SIZE + (i + 1) * ENTRY_SIZE])
  }

  method ReadPackage(file: seq<Byte>) returns (r: ReadResult)
    ensures r.Truncated? ==>
              |file| < HEADER_SIZE || (|file| - HEADER_SIZE) / ENTRY_SIZE < ReadHeader(file[..HEADER_SIZE]).count
    ensures r.Refused? <==> |file| >= HEADER_SIZE && !HeaderAccepted(ReadHeader(file[..HEADER_SIZE]))
    ensures r.Package? ==>
              && |file| >= HEADER_SIZE && r.header == ReadHeader(file[..HEADER_SIZE])
              && |r.entries| == r.header.count && HEADER_SIZE + |r.entries| * ENTRY_SIZE <= |file|
              && (forall i :: 0 <= i < |r.entries| ==> r.entries[i] == EntryOf(file, i))
              && (forall h :: h in r.byHash <==> exists i :: 0 <= i < |r.entries| && r.entries[i].hash == h)
              && (forall i :: 0 <= i < |r.entries| ==>
                    (forall j :: i < j < |r.entries| ==> r.entries[j].hash != r.entries[i].hash) ==>
                    r.byHash[r.entries[i].hash] == r.entries[i])
  {
    hide ReadHeader, ReadEntry;
    if |file| < HEADER_SIZE {
      return Truncated;
    }
    var header := ReadHeader(file[..HEADER_SIZE]);
    if !HeaderAccepted(header) {
      return Refused;
    }
    if |file| < HEADER_SIZE + header.count * ENTRY_SIZE {
      return Truncated;
    }
    var entries: seq<Entry> := [];
    var byHash: map<nat, Entry> := map[];
    for i := 0 to header.count
      invariant |entries| == i && forall k :: 0 <= k < i ==> entries[k] == EntryOf(file, k)
      invariant forall h :: h in byHash <==> exists k :: 0 <= k < i && entries[k].hash == h
      invariant forall k :: 0 <= k < i && (forall j :: k < j < i ==> entries[j].hash != entries[k].hash) ==>
                  byHash[entries[k].hash] == entries[k]
    {
      var e := EntryOf(file, i);
      ghost var before := entries;
      entries := entries + [e];
      byHash := byHash[e.hash := e];
      assert forall k :: 0 <= k < i ==> entries[k] == before[k];
    }
    r := Package(header, entries, byHash);
  }
}
