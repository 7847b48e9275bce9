/** The WPK package: fixed-width records, the writer's layout, the reader, the loader's
    placement. */
module Wpk {

  type Byte = b: nat | b < 256

  const MAGIC: nat := 0x31504B4D
  const ABI_VERSION: nat := 2
  const TARGET_SM: nat := 120
  const HEADER_SIZE: nat := 64
  const ENTRY_SIZE: nat := 132

  // ---- little-endian records ----

  function Pow256(n: nat): (r: nat)
    ensures r >= 1
  {
    if n == 0 then 1 else 256 * Pow256(n - 1)
  }

  function Le(v: nat, n: nat): (s: seq<Byte>)
    ensures |s| == n
  {
    if n == 0 then [] else [v % 256] + Le(v / 256, n - 1)
  }

  function FromLe(s: seq<Byte>): nat {
    if s == [] then 0 else s[0] + 256 * FromLe(s[1..])
  }

  lemma {:induction false} LeRoundTrip(v: nat, n: nat)
    requires v < Pow256(n)
    ensures FromLe(Le(v, n)) == v
    decreases n
  {
    if n > 0 {
      LeRoundTrip(v / 256, n - 1);
      assert Le(v, n)[1..] == Le(v / 256, n - 1);
    }
  }

  /** Little-endian: the byte at `i` is the digit of weight 256 to the `i`. */
  lemma {:induction false} LeByte(v: nat, n: nat, i: nat)
    requires i < n
    ensures Le(v, n)[i] == v / Pow256(i) % 256
    decreases n
  {
    if i > 0 {
      LeByte(v / 256, n - 1, i - 1);
      DivTwice(v, Pow256(i - 1));
    }
  }

  lemma DivTwice(v: nat, p: nat)
    requires p >= 1
    ensures v / 256 / p == v / (256 * p)
  {
    var q := v / 256 / p;
    var r := v - q * (256 * p);
    assert v / 256 - q * p == v / 256 % p;
    assert r == v % 256 + 256 * (v / 256 - q * p);
    DivUnique(v, 256 * p, q, r);
  }

  lemma DivUnique(v: nat, d: nat, q: nat, r: int)
    requires 0 <= r < d && v == q * d + r
    ensures v / d == q
  {
    var q2 := v / d;
    assert v == q2 * d + v % d;
    if q2 > q {
      MoreTimes(q, q2 - q, d);
    } else if q2 < q {
      MoreTimes(q2, q - q2, d);
    }
  }

  lemma MoreTimes(a: nat, k: nat, d: nat)
    requires k >= 1
    ensures (a + k) * d >= a * d + d
  {
    assert (a + k) * d == a * d + k * d;
    assert k * d == d + (k - 1) * d;
  }

  /** Reading is exact: every byte string is what writing the number it reads as gives. */
  lemma {:induction false} FromLeRoundTrip(s: seq<Byte>)
    ensures FromLe(s) < Pow256(|s|) && Le(FromLe(s), |s|) == s
  {
    if s != [] {
      FromLeRoundTrip(s[1..]);
      assert FromLe(s) / 256 == FromLe(s[1..]) && FromLe(s) % 256 == s[0];
      assert s == [s[0]] + s[1..];
    }
  }

  function Total(widths: seq<nat>): nat {
    if widths == [] then 0 else widths[0] + Total(widths[1..])
  }

  function Pack(widths: seq<nat>, values: seq<nat>): (s: seq<Byte>)
    requires |widths| == |values|
    ensures |s| == Total(widths)
    decreases |widths|
  {
    if widths == [] then [] else Le(values[0], widths[0]) + Pack(widths[1..], values[1..])
  }

  function Unpack(widths: seq<nat>, s: seq<Byte>): (values: seq<nat>)
    requires |s| == Total(widths)
    ensures |values| == |widths|
    decreases |widths|
  {
    if widths == [] then [] else [FromLe(s[..widths[0]])] + Unpack(widths[1..], s[widths[0]..])
  }

  ghost predicate Fits(widths: seq<nat>, values: seq<nat>) {
    |widths| == |values| && forall i :: 0 <= i < |widths| ==> values[i] < Pow256(widths[i])
  }

  lemma {:induction false} PackRoundTrip(widths: seq<nat>, values: seq<nat>)
    requires Fits(widths, values)
    ensures Unpack(widths, Pack(widths, values)) == values
    decreases |widths|
  {
    if widths != [] {
      LeRoundTrip(values[0], widths[0]);
      PackRoundTrip(widths[1..], values[1..]);
      var s := Pack(widths, values);
      assert s[..widths[0]] == Le(values[0], widths[0]);
      assert s[widths[0]..] == Pack(widths[1..], values[1..]);
    }
  }

  /** Each value stands behind those before it. */
  lemma {:induction false} PackAt(widths: seq<nat>, values: seq<nat>, k: nat)
    requires |widths| == |values| && k < |widths|
    ensures Total(widths[..k]) + widths[k] <= Total(widths) == |Pack(widths, values)|
    ensures Pack(widths, values)[Total(widths[..k])..Total(widths[..k]) + widths[k]] == Le(values[k], widths[k])
    decreases |widths|
  {
    var head, tail := Le(values[0], widths[0]), Pack(widths[1..], values[1..]);
    if k == 0 {
      assert head == (head + tail)[..widths[0]];
    } else {
      PackAt(widths[1..], values[1..], k - 1);
      assert widths[..k][1..] == widths[1..][..k - 1];
      var at := Total(widths[1..][..k - 1]);
      Behind(head, tail, at, at + widths[k]);
    }
  }

  lemma Behind(a: seq<Byte>, b: seq<Byte>, x: nat, y: nat)
    requires x <= y <= |b|
    ensures (a + b)[|a| + x..|a| + y] == b[x..y]
  {
  }

  lemma TotalStep(widths: seq<nat>, k: nat)
    requires k < |widths|
    ensures Total(widths[..k + 1]) == Total(widths[..k]) + widths[k]
  {
    TotalAppend(widths[..k], [widths[k]]);
    assert widths[..k + 1] == widths[..k] + [widths[k]];
  }

  function Repeat(w: nat, n: nat): (r: seq<nat>)
    ensures |r| == n && forall i :: 0 <= i < n ==> r[i] == w
  {
    if n == 0 then [] else [w] + Repeat(w, n - 1)
  }

  lemma {:induction false} TotalRepeat(w: nat, n: nat)
    ensures Total(Repeat(w, n)) == n * w
    decreases n
  {
    if n > 0 {
      TotalRepeat(w, n - 1);
      assert Repeat(w, n)[1..] == Repeat(w, n - 1);
    }
  }

  lemma {:induction false} TotalAppend(a: seq<nat>, b: seq<nat>)
    ensures Total(a + b) == Total(a) + Total(b)
    decreases |a|
  {
    if a == [] {
      assert a + b == b;
    } else {
      TotalAppend(a[1..], b);
      assert (a + b)[1..] == a[1..] + b;
    }
  }

  // ---- header and table of contents ----

  datatype Header = Header(magic: nat, abi: nat, sm: nat, modelHash: seq<nat>, count: nat, reserved: nat,
      tocOffset: nat, dataStart: nat)

  datatype Entry = Entry(hash: nat, dtype: nat, layout: nat, rank: nat, dims: seq<nat>,
                         offset: nat, bytes: nat, scaleOffset: nat, scaleBytes: nat)

  function HeaderWidths(): seq<nat> {
    [4, 2, 2] + Repeat(1, 32) + [4, 4, 8, 8]
  }

  function EntryWidths(): seq<nat> {
    [8, 4, 4, 4] + Repeat(4, 8) + [8, 8, 8, 8] + Repeat(8, 6)
  }

  lemma Total4(a: nat, b: nat, c: nat, d: nat)
    ensures Total([a, b, c, d]) == a + b + c + d
  {
    assert Total([a, b, c, d]) == a + Total([b, c, d]);
    assert Total([b, c, d]) == b + Total([c, d]);
    assert Total([c, d]) == c + Total([d]);
  }

  lemma HeaderTotal()
    ensures Total(HeaderWidths()) == HEADER_SIZE && |HeaderWidths()| == 39
  {
    TotalRepeat(1, 32);
    TotalAppend([4, 2, 2], Repeat(1, 32));
    TotalAppend([4, 2, 2] + Repeat(1, 32), [4, 4, 8, 8]);
    Total4(4, 4, 8, 8);
    assert Total([4, 2, 2]) == 4 + Total([2, 2]) && Total([2, 2]) == 2 + Total([2]);
    hide Total, Repeat;
  }

  lemma EntryTotal()
    ensures Total(EntryWidths()) == ENTRY_SIZE && |EntryWidths()| == 22
  {
    hide Total, Repeat;
    TotalRepeat(4, 8);
    TotalRepeat(8, 6);
    TotalAppend([8, 4, 4, 4], Repeat(4, 8));
    TotalAppend([8, 4, 4, 4] + Repeat(4, 8), [8, 8, 8, 8]);
    TotalAppend([8, 4, 4, 4] + Repeat(4, 8) + [8, 8, 8, 8], Repeat(8, 6));
    Total4(8, 4, 4, 4);
    Total4(8, 8, 8, 8);
  }

  lemma WidthTotals()
    ensures Total(HeaderWidths()) == HEADER_SIZE && Total(EntryWidths()) == ENTRY_SIZE
    ensures |HeaderWidths()| == 39 && |EntryWidths()| == 22
  {
    hide Total, HeaderWidths, EntryWidths;
    HeaderTotal();
    EntryTotal();
  }

  function HeaderValues(h: Header): seq<nat> {
    [h.magic, h.abi, h.sm] + h.modelHash + [h.count, h.reserved, h.tocOffset, h.dataStart]
  }

  function EntryValues(e: Entry): seq<nat> {
    [e.hash, e.dtype, e.layout, e.rank] + e.dims + [e.offset, e.bytes, e.scaleOffset, e.scaleBytes] + Repeat(0, 6)
  }

  function PackHeader(h: Header): (s: seq<Byte>)
    requires |h.modelHash| == 32
    ensures |s| == HEADER_SIZE
  {
    WidthTotals();
    Pack(HeaderWidths(), HeaderValues(h))
  }

  function PackEntry(e: Entry): (s: seq<Byte>)
    requires |e.dims| == 8
    ensures |s| == ENTRY_SIZE
  {
    WidthTotals();
    Pack(EntryWidths(), EntryValues(e))
  }

  function ReadHeader(s: seq<Byte>): Header
    requires |s| == HEADER_SIZE
  {
    WidthTotals();
    var v := Unpack(HeaderWidths(), s);
    Header(v[0], v[1], v[2], v[3..35], v[35], v[36], v[37], v[38])
  }

  function ReadEntry(s: seq<Byte>): Entry
    requires |s| == ENTRY_SIZE
  {
    WidthTotals();
    var v := Unpack(EntryWidths(), s);
    Entry(v[0], v[1], v[2], v[3], v[4..12], v[12], v[13], v[14], v[15])
  }

  ghost predicate HeaderFits(h: Header) {
    && |h.modelHash| == 32 && (forall i :: 0 <= i < 32 ==> h.modelHash[i] < 256)
    && h.magic < Pow256(4) && h.abi < Pow256(2) && h.sm < Pow256(2)
    && h.count < Pow256(4) && h.reserved < Pow256(4) && h.tocOffset < Pow256(8) && h.dataStart < Pow256(8)
  }

  ghost predicate EntryFits(e: Entry) {
    && |e.dims| == 8 && (forall i :: 0 <= i < 8 ==> e.dims[i] < Pow256(4))
    && e.hash < Pow256(8) && e.dtype < Pow256(4) && e.layout < Pow256(4) && e.rank < Pow256(4)
    && e.offset < Pow256(8) && e.bytes < Pow256(8) && e.scaleOffset < Pow256(8) && e.scaleBytes < Pow256(8)
  }

  lemma HeaderFieldsFit(h: Header)
    requires HeaderFits(h)
    ensures Fits(HeaderWidths(), HeaderValues(h))
  {
    assert Pow256(1) == 256;
    hide Pow256;
    var widths, values := HeaderWidths(), HeaderValues(h);
    assert widths == [4, 2, 2] + Repeat(1, 32) + [4, 4, 8, 8] && |Repeat(1, 32)| == 32;
    forall i | 0 <= i < 39 ensures values[i] < Pow256(widths[i]) {
      if 3 <= i < 35 {
        assert widths[i] == Repeat(1, 32)[i - 3] && values[i] == h.modelHash[i - 3];
      }
    }
  }

  lemma HeaderRoundTrip(h: Header)
    requires HeaderFits(h)
    ensures ReadHeader(PackHeader(h)) == h
  {
    WidthTotals();
    HeaderFieldsFit(h);
    hide Pow256, Pack, Unpack, Total, Fits;
    PackRoundTrip(HeaderWidths(), HeaderValues(h));
    assert HeaderValues(h)[3..35] == h.modelHash;
  }

  lemma {:induction false} HashStarts(k: nat)
    requires 3 <= k <= 35
    ensures Total(HeaderWidths()[..k]) == 5 + k
    decreases k
  {
    hide Total, Repeat;
    var w := HeaderWidths();
    if k == 3 {
      TotalStep(w, 0);
      TotalStep(w, 1);
      TotalStep(w, 2);
      assert Total([]) == 0 by { NoWidths(); }
      assert w[..0] == [];
    } else {
      HashStarts(k - 1);
      TotalStep(w, k - 1);
      assert w[k - 1] == Repeat(1, 32)[k - 4];
    }
  }

  lemma NoWidths()
    ensures Total([]) == 0
  {
  }

  lemma HeaderStarts()
    ensures
      var w := HeaderWidths();
      && Total(w[..0]) == 0 && Total(w[..1]) == 4 && Total(w[..2]) == 6 && Total(w[..35]) == 40
      && Total(w[..36]) == 44 && Total(w[..37]) == 48 && Total(w[..38]) == 56
  {
    HashStarts(35);
    hide Total, Repeat;
    var w := HeaderWidths();
    assert w[..0] == [];
    NoWidths();
    TotalStep(w, 0);
    TotalStep(w, 1);
    TotalStep(w, 35);
    TotalStep(w, 36);
    TotalStep(w, 37);
  }

  /** The header's fields, byte by byte. */
  lemma HeaderPlaces(h: Header)
    requires |h.modelHash| == 32
    ensures
      var s := PackHeader(h);
      && s[0..4] == Le(h.magic, 4) && s[4..6] == Le(h.abi, 2) && s[6..8] == Le(h.sm, 2)
      && (forall i :: 0 <= i < 32 ==> s[8 + i] == h.modelHash[i] % 256)
      && s[40..44] == Le(h.count, 4) && s[44..48] == Le(h.reserved, 4)
      && s[48..56] == Le(h.tocOffset, 8) && s[56..64] == Le(h.dataStart, 8)
  {
    hide Total, Pack, Le, Repeat;
    var w, v := HeaderWidths(), HeaderValues(h);
    WidthTotals();
    HeaderStarts();
    forall i | 0 <= i < 32 ensures PackHeader(h)[8 + i] == h.modelHash[i] % 256 {
      HashPlace(h, i);
    }
    PackAt(w, v, 0);
    PackAt(w, v, 1);
    HashStarts(3);
    PackAt(w, v, 2);
    PackAt(w, v, 35);
    PackAt(w, v, 36);
    PackAt(w, v, 37);
    PackAt(w, v, 38);
  }

  lemma HashPlace(h: Header, i: nat)
    requires |h.modelHash| == 32 && i < 32
    ensures PackHeader(h)[8 + i] == h.modelHash[i] % 256
  {
    hide Total, Pack, Le, Repeat;
    var w, v := HeaderWidths(), HeaderValues(h);
    WidthTotals();
    HashStarts(3 + i);
    PackAt(w, v, 3 + i);
    assert w[3 + i] == Repeat(1, 32)[i] && v[3 + i] == h.modelHash[i];
    OneByte(h.modelHash[i]);
    assert PackHeader(h)[8 + i..9 + i][0] == PackHeader(h)[8 + i];
  }

  lemma OneByte(v: nat)
    ensures Le(v, 1) == [v % 256]
  {
    assert Le(v / 256, 0) == [];
  }

  lemma {:induction false} DimStarts(k: nat)
    requires 4 <= k <= 12
    ensures Total(EntryWidths()[..k]) == 20 + 4 * (k - 4)
    decreases k
  {
    hide Total, Repeat;
    var w := EntryWidths();
    if k == 4 {
      TotalStep(w, 0);
      TotalStep(w, 1);
      TotalStep(w, 2);
      TotalStep(w, 3);
      assert w[..0] == [];
      NoWidths();
    } else {
      DimStarts(k - 1);
      TotalStep(w, k - 1);
      assert w[k - 1] == Repeat(4, 8)[k - 5];
    }
  }

  lemma EntryStarts()
    ensures
      var w := EntryWidths();
      && Total(w[..0]) == 0 && Total(w[..1]) == 8 && Total(w[..2]) == 12 && Total(w[..3]) == 16
      && Total(w[..12]) == 52 && Total(w[..13]) == 60 && Total(w[..14]) == 68 && Total(w[..15]) == 76
      && Total(w[..16]) == 84
  {
    DimStarts(12);
    hide Total, Repeat;
    var w := EntryWidths();
    assert w[..0] == [];
    NoWidths();
    TotalStep(w, 0);
    TotalStep(w, 1);
    TotalStep(w, 2);
    TotalStep(w, 12);
    TotalStep(w, 13);
    TotalStep(w, 14);
    TotalStep(w, 15);
  }

  /** An entry's fields, byte by byte. */
  lemma EntryPlaces(e: Entry)
    requires |e.dims| == 8
    ensures
      var s := PackEntry(e);
      && s[0..8] == Le(e.hash, 8) && s[8..12] == Le(e.dtype, 4) && s[12..16] == Le(e.layout, 4)
      && s[16..20] == Le(e.rank, 4)
      && (forall i :: 0 <= i < 8 ==> s[20 + 4 * i..24 + 4 * i] == Le(e.dims[i], 4))
      && s[52..60] == Le(e.offset, 8) && s[60..68] == Le(e.bytes, 8)
      && s[68..76] == Le(e.scaleOffset, 8) && s[76..84] == Le(e.scaleBytes, 8)
      && (forall i :: 0 <= i < 6 ==> s[84 + 8 * i..92 + 8 * i] == Le(0, 8))
  {
    hide Total, Pack, Le, Repeat;
    var w, v := EntryWidths(), EntryValues(e);
    WidthTotals();
    EntryStarts();
    forall i | 0 <= i < 8 ensures PackEntry(e)[20 + 4 * i..24 + 4 * i] == Le(e.dims[i], 4) {
      DimPlace(e, i);
    }
    forall i | 0 <= i < 6 ensures PackEntry(e)[84 + 8 * i..92 + 8 * i] == Le(0, 8) {
      ZeroPlace(e, i);
    }
    PackAt(w, v, 0);
    PackAt(w, v, 1);
    PackAt(w, v, 2);
    PackAt(w, v, 3);
    PackAt(w, v, 12);
    PackAt(w, v, 13);
    PackAt(w, v, 14);
    PackAt(w, v, 15);
  }

  lemma DimPlace(e: Entry, i: nat)
    requires |e.dims| == 8 && i < 8
    ensures PackEntry(e)[20 + 4 * i..24 + 4 * i] == Le(e.dims[i], 4)
  {
    hide Total, Pack, Le, Repeat;
    var w, v := EntryWidths(), EntryValues(e);
    WidthTotals();
    DimStarts(4 + i);
    PackAt(w, v, 4 + i);
    assert w[4 + i] == Repeat(4, 8)[i] && v[4 + i] == e.dims[i];
  }

  lemma {:induction false} ZeroStarts(k: nat)
    requires 16 <= k <= 22
    ensures Total(EntryWidths()[..k]) == 84 + 8 * (k - 16)
    decreases k
  {
    hide Total, Repeat;
    var w := EntryWidths();
    if k == 16 {
      EntryStarts();
    } else {
      ZeroStarts(k - 1);
      TotalStep(w, k - 1);
      assert w[k - 1] == Repeat(8, 6)[k - 17];
    }
  }

  lemma ZeroPlace(e: Entry, i: nat)
    requires |e.dims| == 8 && i < 6
    ensures PackEntry(e)[84 + 8 * i..92 + 8 * i] == Le(0, 8)
  {
    hide Total, Pack, Le, Repeat;
    var w, v := EntryWidths(), EntryValues(e);
    WidthTotals();
    ZeroStarts(16 + i);
    PackAt(w, v, 16 + i);
    assert w[16 + i] == Repeat(8, 6)[i] && v[16 + i] == Repeat(0, 6)[i];
  }

  lemma EntryFieldsFit(e: Entry)
    requires EntryFits(e)
    ensures Fits(EntryWidths(), EntryValues(e))
  {
    assert Pow256(8) >= 1;
    hide Pow256;
    var widths, values := EntryWidths(), EntryValues(e);
    assert widths == [8, 4, 4, 4] + Repeat(4, 8) + [8, 8, 8, 8] + Repeat(8, 6);
    forall i | 0 <= i < 22 ensures values[i] < Pow256(widths[i]) {
      if 4 <= i < 12 {
        assert widths[i] == Repeat(4, 8)[i - 4] && values[i] == e.dims[i - 4];
      } else if i >= 16 {
        assert widths[i] == Repeat(8, 6)[i - 16] && values[i] == Repeat(0, 6)[i - 16];
      }
    }
  }

  lemma EntryValuesAt(e: Entry)
    requires |e.dims| == 8
    ensures
      var v := EntryValues(e);
      && |v| == 22 && v[4..12] == e.dims
      && v[0] == e.hash && v[1] == e.dtype && v[2] == e.layout && v[3] == e.rank
      && v[12] == e.offset && v[13] == e.bytes && v[14] == e.scaleOffset && v[15] == e.scaleBytes
  {
    hide Repeat;
  }

  lemma EntryRoundTrip(e: Entry)
    requires EntryFits(e)
    ensures ReadEntry(PackEntry(e)) == e
  {
    WidthTotals();
    EntryFieldsFit(e);
    EntryValuesAt(e);
    assert |e.dims| == 8;
    hide EntryFits, EntryValues, Pow256, Pack, Unpack, Total, Fits, EntryWidths;
    PackRoundTrip(EntryWidths(), EntryValues(e));
  }
}
