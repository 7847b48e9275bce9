/** FP8 E4M3 encoding of 32-bit floats, by bit manipulation, and what it computes.
    Magnitudes are integers: a float's in units of 2^-149, the weight of its lowest
    bit, a code's in units of 2^-9. */
module E4m3 {
  import opened Bits

  type Word = u: nat | u < 0x1_0000_0000

  const MAX_CODE: nat := 0x7E

  // ---- the encoder ----

  function Magnitude(u: Word): nat {
    u % 0x8000_0000
  }

  function Sign(u: Word): nat {
    u / 0x8000_0000
  }

  function Exponent(a: nat): nat {
    a / 0x80_0000
  }

  /** The significand with the implicit bit, which the encoder sets for all inputs. */
  function Significand(a: nat): nat {
    a % 0x80_0000 + 0x80_0000
  }

  /** Half up, ties to even. */
  function RoundBit(q: nat, r: nat, half: nat): nat {
    if r > half || (r == half && q % 2 == 1) then 1 else 0
  }

  function NormalCode(exp: nat, m: nat): nat
    requires 121 <= exp && 0x80_0000 <= m < 0x100_0000
  {
    var q := m / 0x10_0000;
    var r := m % 0x10_0000;
    (exp - 120) * 8 + (q + RoundBit(q, r, 0x8_0000) - 8)
  }

  /** `m` shifted right, and what falls off. */
  function ShiftedOut(m: nat, d: nat): (r: (nat, nat))
    requires d >= 1
    ensures m == Times(r.0, d) + r.1 && r.1 < d
  {
    (m / d, m % d)
  }

  function SubnormalCode(exp: nat, m: nat): nat
    requires exp <= 120
  {
    var shift := if 141 - exp < 31 then 141 - exp else 31;
    var (q, r) := ShiftedOut(m, Pow2(shift));
    q + RoundBit(q, r, Pow2(shift - 1))
  }

  /** The code before saturation. */
  function RawCode(a: nat): nat {
    var exp, m := Exponent(a), Significand(a);
    if exp >= 121 then NormalCode(exp, m) else SubnormalCode(exp, m)
  }

  function EncodeMagnitude(a: nat): nat {
    var code := RawCode(a);
    if code < MAX_CODE then code else MAX_CODE
  }

  function Encode(u: Word): nat {
    Sign(u) * 128 + EncodeMagnitude(Magnitude(u))
  }

  // ---- what the bits mean ----

  predicate Finite(a: nat) {
    Exponent(a) < 255
  }

  /** IEEE 754 binary32: gradual underflow below the smallest normal exponent. */
  function FloatUnits(a: nat): nat {
    if Exponent(a) == 0 then a % 0x80_0000 else Times(Significand(a), Pow2(Exponent(a) - 1))
  }

  /** E4M3: four exponent bits with bias 7, three mantissa bits. */
  function CodeUnits(c: nat): nat {
    if c / 8 == 0 then c % 8 else Times(8 + c % 8, Pow2(c / 8 - 1))
  }

  /** 2^-9 in units of 2^-149. */
  function Unit(): (u: nat)
    ensures u >= 1
  {
    Pow2(140)
  }

  function CodeValue(c: nat): nat {
    Times(CodeUnits(c), Unit())
  }

  /** `code` is the finite code nearest to `x`, the even one of two equally near. */
  ghost predicate NearestEven(x: nat, code: nat) {
    && code <= MAX_CODE
    && forall c: nat :: c <= MAX_CODE && c != code ==>
         && Distance(x, CodeValue(code)) <= Distance(x, CodeValue(c))
         && (Distance(x, CodeValue(code)) == Distance(x, CodeValue(c)) ==> code % 2 == 0)
  }

  // ---- the code line is increasing ----

  lemma CodeStep(c: nat)
    ensures CodeUnits(c + 1) == CodeUnits(c) + (if c / 8 == 0 then 1 else Pow2(c / 8 - 1))
  {
    if c % 8 == 7 {
      assert (c + 1) / 8 == c / 8 + 1 && (c + 1) % 8 == 0;
      if c / 8 > 0 {
        var p := Pow2(c / 8 - 1);
        assert Pow2(c / 8) == 2 * p;
        Distribute(15, 1, p);
        SixteenTimes(p);
      }
    } else {
      assert (c + 1) / 8 == c / 8 && (c + 1) % 8 == c % 8 + 1;
      Distribute(8 + c % 8, 1, Pow2(c / 8 - 1 + if c / 8 == 0 then 1 else 0));
    }
  }

  lemma SixteenTimes(p: nat)
    ensures Times(8, 2 * p) == Times(15 + 1, p)
  {
  }

  lemma {:induction false} CodesIncrease(b: nat, c: nat)
    requires b < c
    ensures CodeUnits(b) < CodeUnits(c)
    decreases c
  {
    CodeStep(c - 1);
    if b < c - 1 {
      CodesIncrease(b, c - 1);
    }
  }

  lemma CodeGap(b: nat, c: nat)
    requires b < c
    ensures CodeValue(b) < CodeValue(c)
  {
    hide Unit, CodeUnits, Times;
    CodesIncrease(b, c);
    Grow(CodeUnits(b), CodeUnits(c), Unit());
  }

  /** Rounding between two neighbouring codes finds the nearest of all. */
  lemma BetweenNeighbours(x: nat, low: nat, code: nat)
    requires low < MAX_CODE && CodeValue(low) <= x <= CodeValue(low + 1)
    requires code == low || code == low + 1
    requires code == low ==> x - CodeValue(low) <= CodeValue(low + 1) - x
    requires code == low && x - CodeValue(low) == CodeValue(low + 1) - x ==> low % 2 == 0
    requires code == low + 1 ==> CodeValue(low + 1) - x <= x - CodeValue(low)
    requires code == low + 1 && CodeValue(low + 1) - x == x - CodeValue(low) ==> low % 2 == 1
    requires CodeValue(low) < CodeValue(low + 1)
    ensures NearestEven(x, code)
  {
    hide CodeValue;
    forall c: nat | c <= MAX_CODE && c != code
      ensures Distance(x, CodeValue(code)) <= Distance(x, CodeValue(c))
      ensures Distance(x, CodeValue(code)) == Distance(x, CodeValue(c)) ==> code % 2 == 0
    {
      if c < low {
        CodeGap(c, low);
      } else if c > low + 1 {
        CodeGap(low + 1, c);
      }
    }
  }

  /** At or above the largest finite value the largest code is nearest. */
  lemma AtTheTop(x: nat)
    requires x >= CodeValue(MAX_CODE)
    ensures NearestEven(x, MAX_CODE)
  {
    hide CodeValue;
    forall c: nat | c <= MAX_CODE && c != MAX_CODE ensures CodeValue(c) < CodeValue(MAX_CODE) {
      CodeGap(c, MAX_CODE);
    }
  }

  // ---- both paths round to nearest ----

  /** `x` lies `below` above one code and `above` below the next; the rounding bit looks
      at `r` against the middle `h` of the step. */
  lemma NearestByParts(x: nat, low: nat, q: nat, r: nat, h: nat, below: nat, above: nat)
    requires low % 2 == q % 2 && CodeValue(low) + below == x && CodeValue(low + 1) == x + above
    requires (r < h ==> below < above) && (r == h ==> below == above) && (r > h ==> below > above)
    ensures
      var code := low + RoundBit(q, r, h);
      NearestEven(x, if code < MAX_CODE then code else MAX_CODE)
  {
    hide NearestEven, CodeValue;
    if low >= MAX_CODE {
      if low > MAX_CODE { CodeGap(MAX_CODE, low); }
      AtTheTop(x);
    } else {
      CodeGap(low, low + 1);
      BetweenNeighbours(x, low, low + RoundBit(q, r, h));
    }
  }

  /** A product of a two-digit number. */
  lemma DigitsTimes(q: nat, d: nat, r: nat, w: nat)
    ensures Times(Times(q, d) + r, w) == Times(q, Times(d, w)) + Times(r, w)
  {
    hide Times;
    Distribute(Times(q, d), r, w);
    Associate(q, d, w);
  }

  lemma WeighHalves(r: nat, h: nat, w: nat)
    requires r <= 2 * h && w >= 1
    ensures
      var below, above := Times(r, w), Times(2 * h - r, w);
      && (r < h ==> below < above) && (r == h ==> below == above) && (r > h ==> below > above)
      && below + above == Times(2 * h, w)
  {
    hide Times;
    Distribute(r, 2 * h - r, w);
    if r < h {
      Grow(r, 2 * h - r, w);
    } else if r > h {
      Grow(2 * h - r, r, w);
    }
  }

  lemma UnitSplits(e: nat, f: nat)
    requires e + f == 140
    ensures Times(Pow2(e), Pow2(f)) == Unit()
  {
    PowAdd(e, f);
    hide Pow2, Times;
  }

  /** The code the normal path truncates to, and its distance from the next. */
  lemma NormalCodes(exp: nat, q: nat)
    requires 121 <= exp && 8 <= q < 16
    ensures
      var low := (exp - 120) * 8 + (q - 8);
      var step := Times(0x10_0000, Pow2(exp - 1));
      CodeValue(low) == Times(q, step) && CodeValue(low + 1) == CodeValue(low) + step
  {
    var low := (exp - 120) * 8 + (q - 8);
    NormalUnits(exp, q);
    NormalWeight(exp);
    hide CodeUnits, Unit, Pow2, Times;
    Associate(q, Pow2(exp - 121), Unit());
    Distribute(Times(q, Pow2(exp - 121)), Pow2(exp - 121), Unit());
  }

  lemma NormalUnits(exp: nat, q: nat)
    requires 121 <= exp && 8 <= q < 16
    ensures
      var low := (exp - 120) * 8 + (q - 8);
      CodeUnits(low) == Times(q, Pow2(exp - 121)) && CodeUnits(low + 1) == CodeUnits(low) + Pow2(exp - 121)
  {
    hide Pow2, Times;
    var low := (exp - 120) * 8 + (q - 8);
    assert low / 8 == exp - 120 && low % 8 == q - 8;
    CodeStep(low);
  }

  lemma NormalWeight(exp: nat)
    requires exp >= 121
    ensures Times(Pow2(exp - 121), Unit()) == Times(0x10_0000, Pow2(exp - 1))
  {
    PowAdd(exp - 121, 140);
    PowAdd(20, exp - 1);
    PowsOfTen();
    hide Pow2, Times;
  }

  lemma HalfAndBit(h: int, bit: int)
    requires 0 <= bit < 2
    ensures (2 * h + bit) % 2 == bit
  {
  }

  lemma SameParity(e: nat, q: nat)
    requires q >= 8
    ensures (e * 8 + (q - 8)) % 2 == q % 2
  {
    var h := q / 2;
    assert q == 2 * h + q % 2;
    assert e * 8 + (q - 8) == 2 * (4 * e + h - 4) + q % 2;
    HalfAndBit(4 * e + h - 4, q % 2);
  }

  lemma NormalRounds(a: nat)
    requires 121 <= Exponent(a) < 255
    ensures NearestEven(FloatUnits(a), EncodeMagnitude(a))
  {
    var exp, m := Exponent(a), Significand(a);
    var q, r := m / 0x10_0000, m % 0x10_0000;
    TwoDigits(m);
    NormalEncoded(a);
    hide NearestEven, FloatUnits, EncodeMagnitude, Significand, Exponent, Times, RoundBit;
    NormalParts(FloatUnits(a), exp, q, r);
  }

  lemma TwoDigits(m: nat)
    requires 0x80_0000 <= m < 0x100_0000
    ensures 8 <= m / 0x10_0000 < 16 && m == Times(m / 0x10_0000, 0x10_0000) + m % 0x10_0000
  {
  }

  lemma NormalParts(x: nat, exp: nat, q: nat, r: nat)
    requires 121 <= exp && 8 <= q < 16 && r < 0x10_0000
    requires x == Times(Times(q, 0x10_0000) + r, Pow2(exp - 1))
    ensures
      var code := (exp - 120) * 8 + (q - 8) + RoundBit(q, r, 0x8_0000);
      NearestEven(x, if code < MAX_CODE then code else MAX_CODE)
  {
    hide NearestEven, CodeValue, Pow2, Times, RoundBit;
    var w, low := Pow2(exp - 1), (exp - 120) * 8 + (q - 8);
    NormalCodes(exp, q);
    SameParity(exp - 120, q);
    DigitsTimes(q, 0x10_0000, r, w);
    WeighHalves(r, 0x8_0000, w);
    NearestByParts(x, low, q, r, 0x8_0000, Times(r, w), Times(0x10_0000 - r, w));
  }

  lemma NormalEncoded(a: nat)
    requires Exponent(a) >= 121
    ensures
      var exp, m := Exponent(a), Significand(a);
      var q, r := m / 0x10_0000, m % 0x10_0000;
      var code := (exp - 120) * 8 + (q - 8) + RoundBit(q, r, 0x8_0000);
      EncodeMagnitude(a) == (if code < MAX_CODE then code else MAX_CODE) && FloatUnits(a) == Times(m, Pow2(exp - 1))
  {
    hide Pow2, Times;
  }

  lemma SubnormalRounds(a: nat)
    requires Exponent(a) <= 120
    ensures NearestEven(FloatUnits(a), EncodeMagnitude(a))
  {
    var exp, m := Exponent(a), Significand(a);
    if exp < 110 {
      TinyRounds(a);
    } else {
      var shift, w, h := 141 - exp, Pow2(exp - 1), Pow2(140 - exp);
      var (q, r) := ShiftedOut(m, Pow2(shift));
      assert Pow2(shift) == 2 * h;
      hide Pow2, Times, Unit;
      var code := q + RoundBit(q, r, h);
      assert FloatUnits(a) == Times(m, w);
      assert EncodeMagnitude(a) == if code < MAX_CODE then code else MAX_CODE;
      hide EncodeMagnitude, FloatUnits, Significand, Exponent, CodeValue, NearestEven;
      SmallQuotient(m, q, r, shift);
      SmallCodes(q);
      UnitSplits(shift, exp - 1);
      DigitsTimes(q, 2 * h, r, w);
      WeighHalves(r, h, w);
      NearestByParts(FloatUnits(a), q, q, r, h, Times(r, w), Times(2 * h - r, w));
    }
  }

  lemma SmallQuotient(m: nat, q: nat, r: nat, shift: nat)
    requires m == Times(q, Pow2(shift)) + r && m < 0x100_0000 && shift >= 21
    ensures q < 8
  {
    PowGrows(21, shift);
    PowsOfTen();
    assert Times(8, Pow2(shift)) >= 0x100_0000;
    hide Times, Pow2;
    if q >= 8 {
      Grow(8, q, Pow2(shift));
    }
  }

  lemma SmallCodes(q: nat)
    requires q < 8
    ensures CodeValue(q) == Times(q, Unit()) && CodeValue(q + 1) == CodeValue(q) + Unit()
  {
    hide Unit;
    assert q < 7 ==> (q + 1) / 8 == 0 && (q + 1) % 8 == q + 1;
    assert CodeUnits(8) == 8;
    Distribute(q, 1, Unit());
  }

  /** Below 2^-17 everything rounds to zero, whatever the clamped shift leaves behind. */
  lemma TinyRounds(a: nat)
    requires Exponent(a) < 110
    ensures NearestEven(FloatUnits(a), EncodeMagnitude(a))
  {
    TinyCode(a);
    TinyValue(a);
    SmallCodes(0);
    assert CodeValue(0) == 0 by { hide Unit; }
    hide CodeUnits, Unit, CodeValue, FloatUnits, EncodeMagnitude, NearestEven;
    BetweenNeighbours(FloatUnits(a), 0, 0);
  }

  lemma TinyCode(a: nat)
    requires Exponent(a) < 110
    ensures EncodeMagnitude(a) == 0
  {
    var m := Significand(a);
    PowsOfTen();
    hide Pow2;
    var (q, r) := ShiftedOut(m, Pow2(31));
    assert q == 0 && r == m;
  }

  lemma TinyValue(a: nat)
    requires Exponent(a) < 110
    ensures 2 * FloatUnits(a) < Unit()
  {
    TinyFloat(a);
    UnitSplits(32, 108);
    PowsOfTen();
    hide Pow2, FloatUnits, Unit;
    TinyArith(FloatUnits(a), Pow2(108));
  }

  lemma TinyFloat(a: nat)
    requires Exponent(a) < 110
    ensures FloatUnits(a) <= Times(0x100_0000, Pow2(108))
  {
    if Exponent(a) > 0 {
      PowGrows(Exponent(a) - 1, 108);
      hide Pow2, Times;
      Grow(Significand(a), 0x100_0000, Pow2(Exponent(a) - 1));
      Grow(Pow2(Exponent(a) - 1), Pow2(108), 0x100_0000);
    }
  }

  lemma TinyArith(x: nat, top: nat)
    requires x <= Times(0x100_0000, top) && top >= 1
    ensures 2 * x < Times(0x1_0000_0000, top)
  {
  }

  /** The encoder is correctly rounded: for every finite float the code keeps the sign
      and is the nearest finite code, ties to even; it is never one of the two codes that
      mean NaN, not even for infinities and NaN. */
  lemma EncodeIsNearest(u: Word)
    ensures Encode(u) / 128 == Sign(u) && Encode(u) % 128 == EncodeMagnitude(Magnitude(u)) <= MAX_CODE
    ensures Encode(u) < 256 && Encode(u) != 0x7F && Encode(u) != 0xFF
    ensures Finite(Magnitude(u)) ==> NearestEven(FloatUnits(Magnitude(u)), Encode(u) % 128)
  {
    hide NearestEven, FloatUnits;
    var a := Magnitude(u);
    if Exponent(a) <= 120 {
      SubnormalRounds(a);
    } else if Exponent(a) < 255 {
      NormalRounds(a);
    }
    hide EncodeMagnitude;
  }

  // ---- the decode table ----

  /** Position of the highest set bit of a mantissa. */
  function TopBit(m: nat): nat
    requires 1 <= m < 8
  {
    if m == 1 then 0 else if m < 4 then 1 else 2
  }

  /** Bits of the 32-bit float the table holds for a code without sign. */
  function DecodeMagnitude(c: nat): (a: nat)
    requires c < 128
    ensures a < 0x8000_0000
  {
    var e, m := c / 8, c % 8;
    if e > 0 then (120 + e) * 0x80_0000 + m * 0x10_0000
    else if m == 0 then 0
    else
      var p := TopBit(m);
      Pow23(p);
      (118 + p) * 0x80_0000 + (m - Pow2(p)) * Pow2(23 - p)
  }

  function Decode(c: nat): Word
    requires c < 256
  {
    c / 128 * 0x8000_0000 + DecodeMagnitude(c % 128)
  }

  /** The table holds each code's exact value, the NaN codes read as 480. */
  lemma DecodeIsExact(c: nat)
    requires c < 128
    ensures Finite(DecodeMagnitude(c)) && FloatUnits(DecodeMagnitude(c)) == CodeValue(c)
  {
    if c / 8 > 0 {
      DecodeNormal(c / 8, c % 8);
    } else {
      DecodeSubnormal(c % 8);
    }
  }

  lemma DecodeNormal(e: nat, m: nat)
    requires 1 <= e < 16 && m < 8
    ensures
      var a := (120 + e) * 0x80_0000 + m * 0x10_0000;
      Finite(a) && FloatUnits(a) == Times(Times(8 + m, Pow2(e - 1)), Unit())
  {
    var a := (120 + e) * 0x80_0000 + m * 0x10_0000;
    assert Exponent(a) == 120 + e && Significand(a) == (8 + m) * 0x10_0000;
    NormalWeight(120 + e);
    hide Pow2, Unit, Exponent, Significand;
    assert (8 + m) * 0x10_0000 == Times(8 + m, 0x10_0000);
    hide Times;
    Associate(8 + m, 0x10_0000, Pow2(119 + e));
    Associate(8 + m, Pow2(e - 1), Unit());
  }

  lemma DecodeSubnormal(m: nat)
    requires m < 8
    ensures Finite(DecodeMagnitude(m)) && FloatUnits(DecodeMagnitude(m)) == Times(m, Unit())
  {
    if m > 0 {
      var p := TopBit(m);
      var a := DecodeMagnitude(m);
      Pow23(p);
      assert Exponent(a) == 118 + p && Significand(a) == m * Pow2(23 - p);
      UnitSplits(23 - p, 117 + p);
      hide Pow2, Unit, Exponent, Significand, DecodeMagnitude;
      assert m * Pow2(23 - p) == Times(m, Pow2(23 - p));
      hide Times;
      Associate(m, Pow2(23 - p), Pow2(117 + p));
    }
  }

  lemma Pow23(p: nat)
    requires p <= 2
    ensures Pow2(p) == (if p == 0 then 1 else if p == 1 then 2 else 4)
    ensures Pow2(23 - p) == (if p == 0 then 0x80_0000 else if p == 1 then 0x40_0000 else 0x20_0000)
  {
    PowsOfTen();
    assert Pow2(22) == 2 * Pow2(21) && Pow2(23) == 2 * Pow2(22);
  }

  /** Every code that is not NaN survives decoding and encoding. */
  lemma RoundTrip(c: nat)
    requires c < 256 && c % 128 <= MAX_CODE
    ensures Encode(Decode(c)) == c
  {
    var b := c % 128;
    DecodeIsExact(b);
    EncodeIsNearest(Decode(c));
    hide DecodeMagnitude, FloatUnits, EncodeMagnitude, CodeValue, NearestEven, Exponent, Encode;
    SignApart(c / 128, DecodeMagnitude(b));
    var code := Encode(Decode(c));
    hide Decode;
    ExactIsKept(CodeValue(b), b, code % 128);
    assert code == code / 128 * 128 + code % 128;
  }

  lemma SignApart(sign: nat, a: nat)
    requires sign < 2 && a < 0x8000_0000
    ensures Magnitude(sign * 0x8000_0000 + a) == a && Sign(sign * 0x8000_0000 + a) == sign
  {
  }

  /** A value that is a code's own rounds to that code. */
  lemma ExactIsKept(x: nat, b: nat, code: nat)
    requires NearestEven(x, code) && b <= MAX_CODE && x == CodeValue(b)
    ensures code == b
  {
    hide CodeValue;
    if code < b {
      CodeGap(code, b);
    } else if b < code {
      CodeGap(b, code);
    }
  }

  // ---- rounding error ----

  /** The codes around a value in range. */
  lemma {:induction false} Neighbours(x: nat, c: nat) returns (low: nat)
    requires c < MAX_CODE && CodeValue(c) <= x < CodeValue(MAX_CODE)
    ensures low < MAX_CODE && CodeValue(low) <= x < CodeValue(low + 1)
    decreases MAX_CODE - c
  {
    hide CodeValue;
    low := c;
    if x >= CodeValue(c + 1) {
      low := Neighbours(x, c + 1);
    }
  }

  lemma StepSize(low: nat)
    ensures
      var step := CodeValue(low + 1) - CodeValue(low);
      step == Unit() || 8 * step <= CodeValue(low)
  {
    CodeStep(low);
    if low / 8 == 0 {
      Distribute(CodeUnits(low), 1, Unit());
      hide Unit;
    } else {
      var p := Pow2(low / 8 - 1);
      hide Unit, Pow2;
      Distribute(CodeUnits(low), p, Unit());
      assert CodeUnits(low) == Times(8 + low % 8, p);
      assert Times(8, p) == 8 * p;
      Distribute(8, low % 8, p);
      assert 8 * p <= CodeUnits(low);
      Grow(8 * p, CodeUnits(low), Unit());
      EightTimes(p, Unit());
    }
  }

  lemma EightTimes(p: nat, u: nat)
    ensures Times(8 * p, u) == 8 * Times(p, u)
  {
  }

  /** In range, rounding errs by at most a sixteenth of the value, or half the smallest
      step where values are tiny. */
  lemma RoundingError(x: nat, code: nat)
    requires NearestEven(x, code) && x <= CodeValue(MAX_CODE)
    ensures 16 * Distance(x, CodeValue(code)) <= x || 16 * Distance(x, CodeValue(code)) <= 8 * Unit()
  {
    var zero := CodeValue(0) == 0;
    assert zero by { hide Unit; }
    hide CodeValue, Unit;
    if x < CodeValue(MAX_CODE) {
      var low := Neighbours(x, 0);
      StepSize(low);
      assert Distance(x, CodeValue(code)) <= Distance(x, CodeValue(low))
          && Distance(x, CodeValue(code)) <= Distance(x, CodeValue(low + 1)) by {
        assert code != low ==> Distance(x, CodeValue(code)) <= Distance(x, CodeValue(low));
        assert code != low + 1 ==> Distance(x, CodeValue(code)) <= Distance(x, CodeValue(low + 1));
      }
    } else {
      assert code != MAX_CODE ==> Distance(x, CodeValue(code)) <= Distance(x, CodeValue(MAX_CODE));
    }
  }
}
