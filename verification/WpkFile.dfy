/** Writing a package from source tensors, and where everything ends up in it. */
module WpkFile {
  import opened Bits
  import opened Wpk

  type Row = seq<Byte>

  /** Source matrices by name, as rows of bytes; a vector is one row. */
  type Tensors = map<string, seq<Row>>

  datatype Source = Source(key: string, row0: nat, count: nat)

  datatype Section = Section(hash: nat, shape: seq<nat>, sources: seq<Source>)

  function Elems(shape: seq<nat>): nat {
    if shape == [] then 1 else shape[0] * Elems(shape[1..])
  }

  function ByteCount(shape: seq<nat>): nat {
    2 * Elems(shape)
  }

  function RowCount(sources: seq<Source>): nat {
    if sources == [] then 0 else sources[0].count + RowCount(sources[1..])
  }

  /** The rows of a fused section: each source's slice after the other. */
  function FusedRows(sources: seq<Source>, tensors: Tensors): (rows: seq<Row>)
    requires forall i :: 0 <= i < |sources| ==> SliceOk(sources[i], tensors)
    ensures |rows| == RowCount(sources)
  {
    if sources == [] then []
    else
      var s := sources[0];
      assert SliceOk(s, tensors);
      tensors[s.key][s.row0..s.row0 + s.count] + FusedRows(sources[1..], tensors)
  }

  predicate SliceOk(s: Source, tensors: Tensors) {
    s.key in tensors && s.row0 + s.count <= |tensors[s.key]|
  }

  function Flatten(rows: seq<Row>): seq<Byte> {
    if rows == [] then [] else rows[0] + Flatten(rows[1..])
  }

  /** The section's sources exist and have the section's shape. */
  ghost predicate SectionOk(sec: Section, tensors: Tensors) {
    && sec.hash < Pow256(8) && (forall i :: 0 <= i < |sec.shape| ==> sec.shape[i] < Pow256(4))
    && (|| (&& |sec.shape| == 1 && |sec.sources| >= 1 && sec.sources[0].key in tensors
            && |tensors[sec.sources[0].key]| == 1 && |tensors[sec.sources[0].key][0]| == 2 * sec.shape[0])
        || (|sec.shape| == 2 && RowCount(sec.sources) == sec.shape[0] && Wide(sec.sources, tensors, 2 * sec.shape[1])))
  }

  ghost predicate Wide(sources: seq<Source>, tensors: Tensors, width: nat) {
    && (forall i :: 0 <= i < |sources| ==> SliceOk(sources[i], tensors))
    && (forall i :: 0 <= i < |sources| ==>
          forall r :: 0 <= r < |tensors[sources[i].key]| ==> |tensors[sources[i].key][r]| == width)
  }

  function Payload(sec: Section, tensors: Tensors): seq<Byte>
    requires SectionOk(sec, tensors)
  {
    if |sec.shape| == 1 then tensors[sec.sources[0].key][0] else Flatten(FusedRows(sec.sources, tensors))
  }

  lemma {:induction false} FusedWidth(sources: seq<Source>, tensors: Tensors, width: nat)
    requires Wide(sources, tensors, width)
    ensures forall r :: 0 <= r < RowCount(sources) ==> |FusedRows(sources, tensors)[r]| == width
    decreases |sources|
  {
    if sources != [] {
      FusedWidth(sources[1..], tensors, width);
      var first := tensors[sources[0].key][sources[0].row0..sources[0].row0 + sources[0].count];
      var rest := FusedRows(sources[1..], tensors);
      assert FusedRows(sources, tensors) == first + rest;
    }
  }

  lemma {:induction false} FlatLength(rows: seq<Row>, width: nat)
    requires forall r :: 0 <= r < |rows| ==> |rows[r]| == width
    ensures |Flatten(rows)| == |rows| * width
    decreases |rows|
  {
    if rows != [] {
      FlatLength(rows[1..], width);
      assert |rows| * width == width + (|rows| - 1) * width;
    }
  }

  /** Row `r` of a fused section starts at `r` row widths. */
  lemma {:induction false} RowPlace(rows: seq<Row>, width: nat, r: nat)
    requires r < |rows| && forall k :: 0 <= k < |rows| ==> |rows[k]| == width
    ensures r * width + width <= |Flatten(rows)| && Flatten(rows)[r * width..r * width + width] == rows[r]
    decreases |rows|
  {
    FlatLength(rows, width);
    assert (r + 1) * width <= |rows| * width by { Monotone(r + 1, |rows|, width); }
    assert (r + 1) * width == r * width + width;
    if r > 0 {
      RowPlace(rows[1..], width, r - 1);
      assert r * width == width + (r - 1) * width;
      var s, t := Flatten(rows), Flatten(rows[1..]);
      assert s == rows[0] + t;
      assert s[r * width..r * width + width] == t[(r - 1) * width..(r - 1) * width + width];
    }
  }

  lemma {:induction false} RowsBefore(sources: seq<Source>, k: nat)
    requires k < |sources|
    ensures RowCount(sources[..k]) + sources[k].count <= RowCount(sources)
    decreases |sources|
  {
    if k > 0 {
      RowsBefore(sources[1..], k - 1);
      assert sources[..k][1..] == sources[1..][..k - 1];
    }
  }

  /** Row `j` of the `k`-th slice is the fused row behind all rows of the slices before. */
  lemma {:induction false} FusedRow(sources: seq<Source>, tensors: Tensors, k: nat, j: nat)
    requires k < |sources| && j < sources[k].count
    requires forall i :: 0 <= i < |sources| ==> SliceOk(sources[i], tensors)
    ensures
      var r, s := RowCount(sources[..k]) + j, sources[k];
      r < RowCount(sources) && FusedRows(sources, tensors)[r] == tensors[s.key][s.row0 + j]
    decreases |sources|
  {
    RowsBefore(sources, k);
    var s, rest := sources[0], sources[1..];
    assert SliceOk(s, tensors);
    var first, later := tensors[s.key][s.row0..s.row0 + s.count], FusedRows(rest, tensors);
    assert FusedRows(sources, tensors) == first + later;
    if k > 0 {
      FusedRow(rest, tensors, k - 1, j);
      assert sources[..k][1..] == rest[..k - 1] && rest[k - 1] == sources[k];
      hide FusedRows, SliceOk;
      var at := RowCount(rest[..k - 1]) + j;
      assert (first + later)[|first| + at] == later[at];
    }
  }

  predicate RowStands(s: seq<Byte>, width: nat, r: nat, row: Row) {
    r * width + width <= |s| && s[r * width..r * width + width] == row
  }

  /** Where a source row's bytes lie in the payload of a matrix section. */
  lemma SourceRowPlace(sec: Section, tensors: Tensors, k: nat, j: nat)
    requires SectionOk(sec, tensors) && |sec.shape| == 2 && k < |sec.sources| && j < sec.sources[k].count
    ensures
      var at, s := RowCount(sec.sources[..k]) + j, sec.sources[k];
      && at < sec.shape[0] && SliceOk(s, tensors)
      && RowStands(Payload(sec, tensors), 2 * sec.shape[1], at, tensors[s.key][s.row0 + j])
  {
    hide FusedRows, Flatten, Elems;
    assert Wide(sec.sources, tensors, 2 * sec.shape[1]);
    FusedWidth(sec.sources, tensors, 2 * sec.shape[1]);
    FusedRow(sec.sources, tensors, k, j);
    RowPlace(FusedRows(sec.sources, tensors), 2 * sec.shape[1], RowCount(sec.sources[..k]) + j);
  }

  lemma PayloadLength(sec: Section, tensors: Tensors)
    requires SectionOk(sec, tensors)
    ensures |Payload(sec, tensors)| == ByteCount(sec.shape)
  {
    if |sec.shape| == 1 {
      assert Elems(sec.shape) == sec.shape[0] * Elems(sec.shape[1..]);
    } else {
      FusedWidth(sec.sources, tensors, 2 * sec.shape[1]);
      FlatLength(FusedRows(sec.sources, tensors), 2 * sec.shape[1]);
      assert Elems(sec.shape) == sec.shape[0] * Elems(sec.shape[1..]);
      assert Elems(sec.shape[1..]) == sec.shape[1] * Elems(sec.shape[1..][1..]);
      TwiceProduct(sec.shape[0], sec.shape[1]);
    }
  }

  lemma TwiceProduct(a: nat, b: nat)
    ensures a * (2 * b) == 2 * (a * b)
  {
  }

  /** The row of a source that row `row` of a fused section is. */
  method MapRow(sources: seq<Source>, row: nat, tensors: Tensors) returns (key: string, sourceRow: nat)
    requires row < RowCount(sources)
    requires forall i :: 0 <= i < |sources| ==> SliceOk(sources[i], tensors)
    ensures key in tensors && sourceRow < |tensors[key]| && FusedRows(sources, tensors)[row] == tensors[key][sourceRow]
  {
    var acc, i := 0, 0;
    assert sources[0..] == sources;
    while true
      invariant 0 <= i < |sources| && acc <= row < acc + RowCount(sources[i..])
      invariant FusedRows(sources, tensors)[row] == FusedRows(sources[i..], tensors)[row - acc]
      decreases |sources| - i
    {
      var s := sources[i];
      assert sources[i..][1..] == sources[i + 1..];
      if acc <= row < acc + s.count {
        return s.key, row - acc + s.row0;
      }
      acc := acc + s.count;
      i := i + 1;
    }
  }

  // ---- layout ----

  function PadTo8(shape: seq<nat>): (dims: seq<nat>)
    requires |shape| <= 8
    ensures |dims| == 8
  {
    shape + Repeat(0, 8 - |shape|)
  }

  function EntryAt(sec: Section, offset: nat): Entry
    requires |sec.shape| <= 8
  {
    Entry(sec.hash, 0, 0, |sec.shape|, PadTo8(sec.shape), offset, ByteCount(sec.shape), 0, 0)
  }

  function Entries(spec: seq<Section>, cur: nat): (r: seq<Entry>)
    requires forall i :: 0 <= i < |spec| ==> |spec[i].shape| <= 8
    ensures |r| == |spec| && forall i :: 0 <= i < |r| ==> |r[i].dims| == 8
  {
    if spec == [] then []
    else [EntryAt(spec[0], cur)] + Entries(spec[1..], AlignUp(cur + ByteCount(spec[0].shape)))
  }

  /** An entry's fields: bf16 in row-major order, the shape filled up with zeros, no
      scales. */
  lemma {:induction false} EntryMeans(spec: seq<Section>, cur: nat, i: nat)
    requires i < |spec| && forall k :: 0 <= k < |spec| ==> |spec[k].shape| <= 8
    ensures
      var e, shape := Entries(spec, cur)[i], spec[i].shape;
      && e.hash == spec[i].hash && e.dtype == 0 && e.layout == 0 && e.rank == |shape|
      && (forall d :: 0 <= d < 8 ==> e.dims[d] == if d < |shape| then shape[d] else 0)
      && e.bytes == ByteCount(shape) && e.scaleOffset == 0 && e.scaleBytes == 0
    decreases |spec|
  {
    hide ByteCount, AlignUp, Repeat;
    if i > 0 {
      EntryMeans(spec[1..], AlignUp(cur + ByteCount(spec[0].shape)), i - 1);
    }
  }

  function End(spec: seq<Section>, cur: nat): nat {
    if spec == [] then cur else End(spec[1..], AlignUp(cur + ByteCount(spec[0].shape)))
  }

  lemma LayoutHead(spec: seq<Section>, i: nat, cur: nat)
    requires i < |spec| && forall k :: 0 <= k < |spec| ==> |spec[k].shape| <= 8
    ensures
      var next := AlignUp(cur + ByteCount(spec[i].shape));
      && Entries(spec[i..], cur) == [EntryAt(spec[i], cur)] + Entries(spec[i + 1..], next)
      && End(spec[i..], cur) == End(spec[i + 1..], next)
  {
    assert spec[i..][0] == spec[i] && spec[i..][1..] == spec[i + 1..];
    hide ByteCount, AlignUp, PadTo8;
  }

  function DataStart(count: nat): nat {
    AlignUp(HEADER_SIZE + count * ENTRY_SIZE)
  }

  predicate Aligned(x: nat) {
    x % 256 == 0
  }

  lemma {:induction false} LayoutAligned(spec: seq<Section>, cur: nat)
    requires Aligned(cur) && forall i :: 0 <= i < |spec| ==> |spec[i].shape| <= 8
    ensures forall i :: 0 <= i < |spec| ==> Aligned(Entries(spec, cur)[i].offset)
    decreases |spec|
  {
    if spec != [] {
      var nxt := AlignUp(cur + ByteCount(spec[0].shape));
      assert Aligned(nxt);
      hide Aligned, ByteCount, AlignUp;
      LayoutAligned(spec[1..], nxt);
      assert Entries(spec, cur) == [EntryAt(spec[0], cur)] + Entries(spec[1..], nxt);
    }
  }

  /** A section lies between the start and the end of the data. */
  lemma {:induction false} LayoutInside(spec: seq<Section>, cur: nat, i: nat)
    requires i < |spec| && forall k :: 0 <= k < |spec| ==> |spec[k].shape| <= 8
    ensures
      var e := Entries(spec, cur)[i];
      e == EntryAt(spec[i], e.offset) && cur <= e.offset && e.offset + ByteCount(spec[i].shape) <= End(spec, cur)
    decreases |spec|
  {
    var nxt := AlignUp(cur + ByteCount(spec[0].shape));
    EndAfter(spec[1..], nxt);
    assert Entries(spec, cur) == [EntryAt(spec[0], cur)] + Entries(spec[1..], nxt);
    if i > 0 {
      LayoutInside(spec[1..], nxt, i - 1);
    }
  }

  lemma {:induction false} EndAfter(spec: seq<Section>, cur: nat)
    ensures cur <= End(spec, cur)
    decreases |spec|
  {
    if spec != [] {
      EndAfter(spec[1..], AlignUp(cur + ByteCount(spec[0].shape)));
    }
  }

  /** Sections do not overlap. */
  lemma {:induction false} LayoutApart(spec: seq<Section>, cur: nat, i: nat, j: nat)
    requires i < j < |spec| && forall k :: 0 <= k < |spec| ==> |spec[k].shape| <= 8
    ensures Entries(spec, cur)[i].offset + ByteCount(spec[i].shape) <= Entries(spec, cur)[j].offset
    decreases |spec|
  {
    var nxt := AlignUp(cur + ByteCount(spec[0].shape));
    assert Entries(spec, cur) == [EntryAt(spec[0], cur)] + Entries(spec[1..], nxt);
    if i > 0 {
      LayoutApart(spec[1..], nxt, i - 1, j - 1);
    } else {
      LayoutInside(spec[1..], nxt, j - 1);
    }
  }

  function Zeros(n: nat): (s: seq<Byte>)
    ensures |s| == n
  {
    if n == 0 then [] else [0] + Zeros(n - 1)
  }

  function Toc(entries: seq<Entry>): (s: seq<Byte>)
    requires forall i :: 0 <= i < |entries| ==> |entries[i].dims| == 8
    ensures |s| == |entries| * ENTRY_SIZE
  {
    if entries == [] then [] else Toc(entries[..|entries| - 1]) + PackEntry(entries[|entries| - 1])
  }

  lemma {:induction false} TocSlice(entries: seq<Entry>, i: nat)
    requires i < |entries| && forall k :: 0 <= k < |entries| ==> |entries[k].dims| == 8
    ensures Toc(entries)[i * ENTRY_SIZE..i * ENTRY_SIZE + ENTRY_SIZE] == PackEntry(entries[i])
    decreases |entries|
  {
    hide PackEntry;
    if i < |entries| - 1 {
      TocSlice(entries[..|entries| - 1], i);
      var before := Toc(entries[..|entries| - 1]);
      assert Toc(entries)[i * ENTRY_SIZE..i * ENTRY_SIZE + ENTRY_SIZE]
          == before[i * ENTRY_SIZE..i * ENTRY_SIZE + ENTRY_SIZE];
    }
  }
}
