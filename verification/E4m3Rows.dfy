/** Row quantization: weights divided by their row's scale, encoded, decoded and
    multiplied back. Scale and quotient are both rounded to 32-bit floats. */
module E4m3Rows {
  import opened Bits
  import opened E4m3

  // ---- products and quotients of reals ----

  function Product(a: real, b: real): real {
    a * b
  }

  function Quotient(a: real, b: real): real
    requires b > 0.0
  {
    a / b
  }

  function Abs(x: real): (r: real)
    ensures r >= 0.0
  {
    if x < 0.0 then -x else x
  }

  function Max(a: real, b: real): real {
    if a < b then b else a
  }

  lemma Scaled(a: real, b: real, p: real)
    requires a <= b && p >= 0.0
    ensures Product(a, p) <= Product(b, p)
  {
    assert (b - a) * p >= 0.0;
    assert (b - a) * p == b * p - a * p;
  }

  lemma Cancel(a: real, b: real, p: real)
    requires p > 0.0 && Product(a, p) <= Product(b, p)
    ensures a <= b
  {
    assert a > b ==> (a - b) * p > 0.0;
    assert (a - b) * p == a * p - b * p;
  }

  lemma Divided(a: real, p: real)
    requires p > 0.0
    ensures Product(Quotient(a, p), p) == a
  {
  }

  lemma Sum(a: real, b: real, p: real)
    ensures Product(a + b, p) == Product(a, p) + Product(b, p)
  {
  }

  lemma Times16(k: real, a: real, p: real)
    ensures Product(k * a, p) == k * Product(a, p)
  {
  }

  lemma AbsScaled(a: real, b: real, p: real)
    requires p >= 0.0
    ensures Product(Abs(a - b), p) == Abs(Product(a, p) - Product(b, p))
  {
    assert (a - b) * p == a * p - b * p;
    assert a >= b ==> (a - b) * p >= 0.0;
    assert a < b ==> (b - a) * p >= 0.0 && (b - a) * p == b * p - a * p;
  }

  lemma Swap(a: real, b: real, c: real)
    ensures Product(Product(a, b), c) == Product(Product(a, c), b)
  {
  }

  // ---- real magnitudes between codes ----

  /** `code` is a finite code nearest to `x` units. */
  ghost predicate Nearest(x: real, code: nat) {
    code <= MAX_CODE && forall c: nat :: c <= MAX_CODE ==>
        Abs(x - CodeValue(code) as real) <= Abs(x - CodeValue(c) as real)
  }

  lemma {:induction false} NearestUpTo(x: real, n: nat) returns (code: nat)
    ensures code <= n && forall c: nat :: c <= n ==> Abs(x - CodeValue(code) as real) <= Abs(x - CodeValue(c) as real)
    decreases n
  {
    hide CodeValue, Abs;
    code := 0;
    if n > 0 {
      code := NearestUpTo(x, n - 1);
      if Abs(x - CodeValue(n) as real) < Abs(x - CodeValue(code) as real) {
        code := n;
      }
    }
  }

  lemma NearestExists(x: real) returns (code: nat)
    ensures Nearest(x, code)
  {
    code := NearestUpTo(x, MAX_CODE);
  }

  lemma FloorBelow(x: real)
    requires x >= 0.0
    ensures 0 <= x.Floor && x.Floor as real <= x < (x.Floor + 1) as real
  {
  }

  /** Of two points around `x`, the nearer is at most half their distance away. */
  lemma HalfGap(x: real, a: real, b: real)
    requires a <= x <= b
    ensures 2.0 * Abs(x - a) <= b - a || 2.0 * Abs(x - b) <= b - a
  {
  }

  /** In range, the nearest code errs by at most a sixteenth of the value, or half the
      smallest step. */
  lemma NearestError(x: real, code: nat)
    requires Nearest(x, code) && 0.0 <= x <= CodeValue(MAX_CODE) as real
    ensures
      var d := Abs(x - CodeValue(code) as real);
      16.0 * d <= x || 16.0 * d <= (8 * Unit()) as real
  {
    FloorBelow(x);
    var n: nat := x.Floor;
    assert CodeValue(0) == 0 by { hide Unit; }
    hide CodeValue, Unit;
    if n < CodeValue(MAX_CODE) {
      var low := Neighbours(n, 0);
      var a, b := CodeValue(low), CodeValue(low + 1);
      assert a as real <= x <= b as real;
      StepSize(low);
      HalfGap(x, a as real, b as real);
      assert Abs(x - CodeValue(code) as real) <= Abs(x - a as real)
          && Abs(x - CodeValue(code) as real) <= Abs(x - b as real);
      hide Abs;
      assert 2.0 * Abs(x - CodeValue(code) as real) <= (b - a) as real;
      assert b - a == Unit() || 8 * (b - a) <= a;
    } else {
      assert x == CodeValue(MAX_CODE) as real;
      assert Abs(x - CodeValue(code) as real) <= Abs(x - CodeValue(MAX_CODE) as real);
    }
  }

  // ---- real magnitudes between floats ----

  lemma FloatStep(a: nat)
    ensures FloatUnits(a + 1) == FloatUnits(a) + (if Exponent(a) == 0 then 1 else Pow2(Exponent(a) - 1))
  {
    if a % 0x80_0000 == 0x7F_FFFF {
      assert Exponent(a + 1) == Exponent(a) + 1 && (a + 1) % 0x80_0000 == 0;
      if Exponent(a) > 0 {
        var p := Pow2(Exponent(a) - 1);
        assert Pow2(Exponent(a)) == 2 * p;
        Distribute(0xFF_FFFF, 1, p);
        Doubled(0x80_0000, p);
        EvenTimes(p);
      }
    } else {
      assert Exponent(a + 1) == Exponent(a) && (a + 1) % 0x80_0000 == a % 0x80_0000 + 1;
      if Exponent(a) > 0 {
        Distribute(Significand(a), 1, Pow2(Exponent(a) - 1));
      }
    }
  }

  lemma EvenTimes(p: nat)
    ensures Times(0x80_0000, 2 * p) == Times(0x100_0000, p) && Times(1, p) == p
  {
  }

  /** The gap above a float is one unit, or at most 2^-23 of the float. */
  lemma FloatGap(a: nat)
    ensures
      var gap := FloatUnits(a + 1) - FloatUnits(a);
      gap == 1 || (gap > 0 && Times(0x80_0000, gap) <= FloatUnits(a))
  {
    FloatStep(a);
    if Exponent(a) > 0 {
      Grow(0x80_0000, Significand(a), Pow2(Exponent(a) - 1));
    }
  }

  lemma {:induction false} FloatsAround(n: nat, a: nat, top: nat) returns (low: nat)
    requires a <= top && FloatUnits(a) <= n < FloatUnits(top)
    ensures a <= low < top && FloatUnits(low) <= n < FloatUnits(low + 1)
    decreases top - a
  {
    hide FloatUnits;
    low := a;
    if n >= FloatUnits(a + 1) {
      low := FloatsAround(n, a + 1, top);
    }
  }

  lemma {:induction false} FloatsIncrease(a: nat, b: nat)
    requires a < b
    ensures FloatUnits(a) < FloatUnits(b)
    decreases b
  {
    FloatGap(b - 1);
    if a < b - 1 {
      FloatsIncrease(a, b - 1);
    }
  }

  /** The largest finite float, and the float that is 448. */
  const LARGEST: nat := 0x7F7F_FFFF
  const TOP: nat := 0x43E0_0000

  lemma TopFloat()
    ensures Finite(TOP + 2) && Finite(LARGEST) && FloatUnits(TOP) == CodeValue(MAX_CODE)
  {
    hide Pow2, FloatUnits, CodeValue;
    DecodeIsExact(MAX_CODE);
    assert DecodeMagnitude(MAX_CODE) == TOP;
  }

  lemma FiniteBelow(a: nat, top: nat)
    requires a <= top && Finite(top)
    ensures Finite(a)
  {
  }

  /** Some float is within 2^-24 of the value, or within half a unit. */
  lemma FloatNear(x: real) returns (a: nat)
    requires 0.0 <= x <= FloatUnits(LARGEST) as real
    ensures Finite(a) && a < 0x8000_0000
    ensures
      var d := Abs(x - FloatUnits(a) as real);
      16777216.0 * d <= x || 2.0 * d <= 1.0
  {
    hide CodeValue, FloatUnits, Finite;
    FloorBelow(x);
    var n: nat := x.Floor;
    NoUnits();
    TopFloat();
    var top := LARGEST;
    if n < FloatUnits(top) {
      var low := FloatsAround(n, 0, top);
      FiniteBelow(low, top);
      FiniteBelow(low + 1, top);
      var lo, hi := FloatUnits(low), FloatUnits(low + 1);
      FloatGap(low);
      assert lo as real <= x <= hi as real;
      HalfGap(x, lo as real, hi as real);
      a := if 2.0 * Abs(x - lo as real) <= hi as real - lo as real then low else low + 1;
      hide Abs;
      assert 2.0 * Abs(x - FloatUnits(a) as real) <= (hi - lo) as real;
      Times23(hi - lo, lo);
    } else {
      a := top;
    }
  }

  lemma NoUnits()
    ensures FloatUnits(0) == 0
  {
  }

  lemma Times23(gap: nat, lo: nat)
    ensures Times(0x80_0000, gap) <= lo ==> 8388608.0 * (gap as real) <= lo as real
  {
  }

  // ---- the row's scale ----

  const FP8_MAX: real := 448.0
  const FP8_SCALE_FLOOR: real := 0.000000000001

  function RowScale(amax: real): (s: real)
    ensures s > 0.0
  {
    if amax / FP8_MAX >= FP8_SCALE_FLOOR then amax / FP8_MAX else FP8_SCALE_FLOOR
  }

  lemma ScaleCovers(amax: real)
    ensures amax <= Product(448.0, RowScale(amax))
  {
  }

  /** 2^149: how many units make one. */
  function One(): (one: real)
    ensures one > 0.0
  {
    (512 * Unit()) as real
  }

  /** The value of a code's magnitude, and of a float's. */
  function CodeReal(c: nat): real {
    Quotient(CodeValue(c) as real, One())
  }

  function FloatReal(a: nat): real {
    Quotient(FloatUnits(a) as real, One())
  }

  lemma TopCode()
    ensures CodeValue(MAX_CODE) == 448 * (512 * Unit())
    ensures CodeValue(MAX_CODE) as real == Product(448.0, One())
  {
    assert Pow2(14) == 0x4000 by {
      PowsOfTen();
      PowAdd(10, 4);
      assert Pow2(4) == 16;
    }
    hide Unit;
    assert CodeUnits(MAX_CODE) == 14 * 0x4000;
  }

  /** A weight's magnitude over the row's scale. */
  function Ratio(w: real, amax: real): (q: real) {
    Quotient(Abs(w), RowScale(amax))
  }

  /** The ratio in units, and what it is times the scale. */
  lemma RatioUnits(w: real, amax: real)
    requires Abs(w) <= amax
    ensures
      var s, x := RowScale(amax), Product(Ratio(w, amax), One());
      && Product(x, s) == Product(Abs(w), One()) && 0.0 <= x <= CodeValue(MAX_CODE) as real
      && 0.0 <= Ratio(w, amax) <= 448.0
  {
    var s, q, p := RowScale(amax), Ratio(w, amax), One();
    assert q >= 0.0;
    assert Product(q, s) == Abs(w) by { Divided(Abs(w), s); }
    ScaleCovers(amax);
    TopCode();
    hide RowScale, One, Abs, Product, Quotient, CodeValue, Ratio;
    Swap(q, p, s);
    Cancel(q, 448.0, s);
    Scaled(q, 448.0, p);
    Scaled(0.0, q, p);
    assert Product(0.0, p) == 0.0 by { NoneOf(p); }
  }

  lemma NoneOf(p: real)
    ensures Product(0.0, p) == 0.0
  {
  }

  /** An error in units, brought back to the weights: `a` is the weight's magnitude, `x`
      its ratio to the scale in units, `c` what stands for it, `d` an allowance. */
  lemma ErrorBack(a: real, s: real, p: real, x: real, c: real, d: real)
    requires s > 0.0 && p > 0.0 && Product(x, s) == Product(a, p) && d >= 0.0
    ensures
      var err, slack := Abs(a - Product(Quotient(c, p), s)), Quotient(Product(d, s), p);
      && Product(err, p) == Product(Abs(x - c), s)
      && (16.0 * Abs(x - c) <= x + 17.0 * d ==> 16.0 * err <= a + 17.0 * slack)
      && (1024.0 * Abs(x - c) <= p + 1024.0 * d ==> 1024.0 * err <= s + 1024.0 * slack)
  {
    hide Abs, Product, Quotient;
    var err, slack, e := Abs(a - Product(Quotient(c, p), s)), Quotient(Product(d, s), p), Abs(x - c);
    AbsScaled(a, Product(Quotient(c, p), s), p);
    Swap(Quotient(c, p), s, p);
    Divided(c, p);
    AbsScaled(x, c, s);
    assert Product(err, p) == Product(e, s);
    Divided(Product(d, s), p);
    if 16.0 * e <= x + 17.0 * d {
      Scaled(16.0 * e, x + 17.0 * d, s);
      Times16(16.0, e, s);
      Times16(16.0, err, p);
      Sum(x, 17.0 * d, s);
      Times16(17.0, d, s);
      Sum(a, 17.0 * slack, p);
      Times16(17.0, slack, p);
      Cancel(16.0 * err, a + 17.0 * slack, p);
    }
    if 1024.0 * e <= p + 1024.0 * d {
      Scaled(1024.0 * e, p + 1024.0 * d, s);
      Times16(1024.0, e, s);
      Times16(1024.0, err, p);
      Sum(p, 1024.0 * d, s);
      Times16(1024.0, d, s);
      Sum(s, 1024.0 * slack, p);
      Times16(1024.0, slack, p);
      Commutes(p, s);
      Cancel(1024.0 * err, s + 1024.0 * slack, p);
    }
  }

  lemma Commutes(a: real, b: real)
    ensures Product(a, b) == Product(b, a)
  {
  }

  // ---- exact quotients ----

  /** A finite code nearest to the quotient `q`, in value. */
  ghost predicate NearestCode(q: real, code: nat) {
    code <= MAX_CODE && forall c: nat :: c <= MAX_CODE ==> Abs(q - CodeReal(code)) <= Abs(q - CodeReal(c))
  }

  lemma UnitsApart(q: real, v: real, p: real)
    requires p > 0.0
    ensures Product(Abs(q - Quotient(v, p)), p) == Abs(Product(q, p) - v)
  {
    hide Abs, Product, Quotient;
    AbsScaled(q, Quotient(v, p), p);
    Divided(v, p);
  }

  lemma NearestInUnits(q: real, code: nat)
    ensures NearestCode(q, code) <==> Nearest(Product(q, One()), code)
  {
    var p := One();
    hide One;
    forall c: nat ensures Abs(q - CodeReal(code)) <= Abs(q - CodeReal(c)) <==>
                          Abs(Product(q, p) - CodeValue(code) as real) <= Abs(Product(q, p) - CodeValue(c) as real)
    {
      var e, f := Abs(q - CodeReal(code)), Abs(q - CodeReal(c));
      UnitsApart(q, CodeValue(code) as real, p);
      UnitsApart(q, CodeValue(c) as real, p);
      hide Abs, Product, CodeReal, CodeValue, Quotient;
      if e <= f {
        Scaled(e, f, p);
      } else {
        StrictlyScaled(f, e, p);
      }
    }
    hide Abs, Product, CodeReal, CodeValue;
  }

  lemma StrictlyScaled(a: real, b: real, p: real)
    requires a < b && p > 0.0
    ensures Product(a, p) < Product(b, p)
  {
    assert (b - a) * p > 0.0;
    assert (b - a) * p == b * p - a * p;
  }

  /** Over exact quotients: whatever the weight and its row, the quotient is not clipped,
      a nearest code exists, and every nearest code stands for the weight up to a
      sixteenth of it or 2^-10 of the scale. */
  lemma RowExact(w: real, amax: real)
    requires Abs(w) <= amax
    ensures Ratio(w, amax) <= 448.0 && CodeReal(MAX_CODE) == 448.0
    ensures exists code :: NearestCode(Ratio(w, amax), code)
    ensures forall code :: NearestCode(Ratio(w, amax), code) ==>
              var s, err := RowScale(amax), Abs(Abs(w) - Product(CodeReal(code), RowScale(amax)));
              16.0 * err <= Abs(w) || 1024.0 * err <= s
  {
    var q, s, p := Ratio(w, amax), RowScale(amax), One();
    var x := Product(q, p);
    RatioUnits(w, amax);
    TopIsTop();
    var some := NearestExists(x);
    NearestInUnits(q, some);
    forall code | NearestCode(q, code)
      ensures var err := Abs(Abs(w) - Product(CodeReal(code), s)); 16.0 * err <= Abs(w) || 1024.0 * err <= s
    {
      hide RowScale, Ratio, NearestCode, Nearest;
      NearestInUnits(q, code);
      NearestError(x, code);
      EighthOfUnit();
      hide CodeValue, One, Unit, Abs, Product;
      ErrorBack(Abs(w), s, p, x, CodeValue(code) as real, 0.0);
      NoSlack(s, p);
    }
  }

  lemma NoSlack(s: real, p: real)
    requires p > 0.0
    ensures Quotient(Product(0.0, s), p) == 0.0
  {
  }

  lemma TopIsTop()
    ensures CodeReal(MAX_CODE) == 448.0
  {
    TopCode();
    assert CodeReal(MAX_CODE) == Quotient(CodeValue(MAX_CODE) as real, One());
    hide One, CodeValue, CodeReal, Product, Quotient;
    Undone(448.0, One());
  }

  lemma Undone(k: real, p: real)
    requires p > 0.0
    ensures Quotient(Product(k, p), p) == k
  {
  }

  lemma EighthOfUnit()
    ensures 64.0 * ((8 * Unit()) as real) == One()
  {
    hide Unit;
  }

  // ---- rounding to floats ----

  /** The better of two floats; of two equally good ones the even one. */
  ghost predicate Better(q: real, a: nat, b: nat) {
    && Abs(q - FloatReal(a)) <= Abs(q - FloatReal(b))
    && (Abs(q - FloatReal(a)) == Abs(q - FloatReal(b)) ==> a % 2 == 0)
  }

  /** IEEE 754 rounding of `q`, in magnitude: the nearest finite float, ties to even. The
      sign is that of `w`. */
  ghost predicate Rounds(w: real, q: real, u: Word) {
    && Finite(Magnitude(u)) && (w > 0.0 ==> Sign(u) == 0) && (w < 0.0 ==> Sign(u) == 1)
    && forall b: nat :: b < 0x8000_0000 && Finite(b) && b != Magnitude(u) ==> Better(q, Magnitude(u), b)
  }

  lemma RealsIncrease(a: nat, b: nat)
    requires a < b
    ensures FloatReal(a) < FloatReal(b)
  {
    FloatsIncrease(a, b);
    hide FloatUnits, One;
    Divided(FloatUnits(a) as real, One());
    Divided(FloatUnits(b) as real, One());
    assert FloatReal(a) == Quotient(FloatUnits(a) as real, One())
        && FloatReal(b) == Quotient(FloatUnits(b) as real, One());
    hide Quotient, FloatReal, Product;
    if FloatReal(b) <= FloatReal(a) {
      Scaled(FloatReal(b), FloatReal(a), One());
    }
  }

  /** `n` joins the floats below it, of which `a` is best. */
  lemma BestOf(q: real, a: nat, n: nat) returns (c: nat)
    requires a < n && Finite(n)
    requires forall b: nat :: b < n && Finite(b) && b != a ==> Better(q, a, b)
    ensures c == a || c == n
    ensures forall b: nat :: b <= n && Finite(b) && b != c ==> Better(q, c, b)
  {
    hide FloatReal, Finite;
    var d, e := Abs(q - FloatReal(a)), Abs(q - FloatReal(n));
    c := if e < d || (e == d && n % 2 == 0) then n else a;
    if e == d {
      Neighbouring(q, a, n);
      forall b: nat | b < a ensures Better(q, n, b) {
        RealsIncrease(b, a);
        RealsIncrease(a, n);
      }
    }
  }

  /** Only neighbours can be equally good. */
  lemma Neighbouring(q: real, a: nat, n: nat)
    requires a < n && Finite(n) && Abs(q - FloatReal(a)) == Abs(q - FloatReal(n))
    requires forall b: nat :: b < n && Finite(b) && b != a ==> Better(q, a, b)
    ensures a == n - 1
  {
    if a < n - 1 {
      RealsIncrease(a, n - 1);
      RealsIncrease(n - 1, n);
      FiniteBelow(n - 1, n);
      hide FloatReal, Finite;
      var better := Better(q, a, n - 1);
      Middle(q, FloatReal(a), FloatReal(n - 1), FloatReal(n));
    }
  }

  lemma Middle(q: real, x: real, y: real, z: real)
    requires x < y < z && Abs(q - x) == Abs(q - z)
    ensures Abs(q - y) < Abs(q - x)
  {
  }

  lemma {:induction false} FloatUpTo(q: real, n: nat) returns (a: nat)
    requires n < 0x8000_0000
    ensures a <= n && Finite(a)
    ensures forall b: nat :: b <= n && Finite(b) && b != a ==> Better(q, a, b)
    decreases n
  {
    assert Finite(0);
    hide Better, Finite;
    a := 0;
    if n > 0 {
      a := FloatUpTo(q, n - 1);
      if Finite(n) {
        a := BestOf(q, a, n);
      }
    }
  }

  /** Every real rounds to some float. */
  lemma RoundsExists(w: real, q: real) returns (u: Word)
    ensures Rounds(w, q, u)
  {
    var a := FloatUpTo(q, 0x7FFF_FFFF);
    var sign := if w < 0.0 then 1 else 0;
    SignApart(sign, a);
    hide Better, Finite;
    u := sign * 0x8000_0000 + a;
  }

  lemma RoundsNearest(w: real, q: real, u: Word, b: nat)
    requires Rounds(w, q, u) && b < 0x8000_0000 && Finite(b)
    ensures Abs(q - FloatReal(Magnitude(u))) <= Abs(q - FloatReal(b))
  {
    hide FloatReal, Finite;
  }

  /** A real strictly between the middles on both sides of a float rounds to it. */
  lemma RoundsBetween(q: real, a: nat)
    requires 0 < a < LARGEST && q > 0.0 && FloatReal(a - 1) + FloatReal(a) < 2.0 * q < FloatReal(a) + FloatReal(a + 1)
    ensures Magnitude(a) == a && Rounds(q, q, a)
  {
    assert Finite(a);
    hide FloatReal, Finite;
    RealsIncrease(a - 1, a);
    RealsIncrease(a, a + 1);
    hide Better;
    forall b: nat | b != a ensures Better(q, a, b) {
      if b < a - 1 {
        RealsIncrease(b, a - 1);
      } else if b > a + 1 {
        RealsIncrease(a + 1, b);
      }
      BetterInside(q, a, b, FloatReal(a - 1), FloatReal(a + 1));
    }
  }

  lemma BetterInside(q: real, a: nat, b: nat, low: real, high: real)
    requires low < FloatReal(a) < high && low + FloatReal(a) < 2.0 * q < FloatReal(a) + high
    requires FloatReal(b) <= low || FloatReal(b) >= high
    ensures Better(q, a, b)
  {
    hide FloatReal;
  }

  /** A float of exponent `e` is its significand over a power of two. */
  lemma FloatAt(a: nat, e: nat)
    requires Exponent(a) == e && 1 <= e <= 150
    ensures FloatReal(a) == Quotient(Significand(a) as real, Pow2(150 - e) as real)
  {
    var p, r := Pow2(e - 1), Pow2(150 - e);
    hide Pow2, Significand;
    OneIs(e);
    assert FloatUnits(a) == Times(Significand(a), p);
    assert FloatReal(a) == Quotient(FloatUnits(a) as real, One());
    hide FloatUnits, One, FloatReal, Quotient, Times, Exponent;
    Reduced(Significand(a), p, r);
  }

  lemma OneIs(e: nat)
    requires 1 <= e <= 150
    ensures One() == Times(Pow2(e - 1), Pow2(150 - e)) as real
  {
    hide Pow2;
    SomePows();
    PowAdd(e - 1, 150 - e);
    PowAdd(140, 9);
  }

  lemma Reduced(m: nat, p: nat, r: nat)
    requires p >= 1 && r >= 1
    ensures Times(p, r) >= 1 && Quotient(Times(m, p) as real, Times(p, r) as real) == Quotient(m as real, r as real)
  {
    var a, b, c := m as real, p as real, r as real;
    assert Times(p, r) as real == b * c && Times(m, p) as real == a * b;
    assert b * c > 0.0;
    assert (a / c) * (b * c) == a * b;
  }

  lemma SomePows()
    ensures Pow2(9) == 512 && Pow2(15) == 32768 && Pow2(30) == 1073741824 && Pow2(39) == 549755813888
  {
    PowsOfTen();
    assert Pow2(5) == 32 && Pow2(9) == 512;
    hide Pow2;
    PowAdd(10, 5);
    PowAdd(30, 9);
  }

  /** 448 and the floats around it. */
  lemma AroundTop()
    ensures FloatReal(TOP) == 448.0
    ensures FloatReal(TOP + 1) == 448.0 + 1.0 / 32768.0
    ensures FloatReal(TOP + 2) == 448.0 + 2.0 / 32768.0
  {
    hide FloatReal, Pow2;
    SomePows();
    FloatAt(TOP, 135);
    FloatAt(TOP + 1, 135);
    FloatAt(TOP + 2, 135);
  }

  lemma RoundsInUnits(w: real, q: real, u: Word, b: nat)
    requires Rounds(w, q, u) && b < 0x8000_0000 && Finite(b)
    ensures
      var x := Product(q, One());
      Abs(x - FloatUnits(Magnitude(u)) as real) <= Abs(x - FloatUnits(b) as real)
  {
    var p := One();
    var e, f := Abs(q - FloatReal(Magnitude(u))), Abs(q - FloatReal(b));
    assert e <= f;
    UnitsApart(q, FloatUnits(Magnitude(u)) as real, p);
    UnitsApart(q, FloatUnits(b) as real, p);
    hide One, Abs, Product, FloatReal, FloatUnits, Quotient, Finite;
    Scaled(e, f, p);
  }

  /** Two roundings: the code of a float near `x` misses `x` by little more than one. */
  lemma TwoRoundings(x: real, f: nat, c: nat, unit: nat)
    requires 16 * Distance(f, c) <= f || 16 * Distance(f, c) <= 8 * unit
    ensures
      var d, e := Abs(x - f as real), Abs(x - c as real);
      16.0 * e <= x + 17.0 * d || 16.0 * e <= (8 * unit) as real + 16.0 * d
  {
    var d, e := Abs(x - f as real), Abs(x - c as real);
    assert e <= d + Distance(f, c) as real;
    assert f as real <= x + d;
  }

  /** The signed value of a code. */
  function SignedCode(code: nat): real {
    if code / 128 == 0 then CodeReal(code % 128) else -CodeReal(code % 128)
  }

  lemma SignedError(w: real, code: nat, s: real)
    requires (w > 0.0 ==> code / 128 == 0) && (w < 0.0 ==> code / 128 == 1)
    ensures Abs(w - Product(SignedCode(code), s)) == Abs(Abs(w) - Product(CodeReal(code % 128), s))
  {
    Negated(CodeReal(code % 128), s);
    hide CodeReal, Product;
  }

  lemma Negated(v: real, s: real)
    ensures Product(-v, s) == -Product(v, s)
  {
  }

  // ---- a row as the code quantizes it ----

  /** The value of the row's scale. */
  function Scale(sw: Word): real {
    FloatReal(Magnitude(sw))
  }

  /** The float scale of a row: its own quotient and the floor, each rounded, the larger. */
  ghost predicate ScaleOf(amax: real, sw: Word) {
    exists a: Word, b: Word ::
      && Rounds(Quotient(amax, FP8_MAX), Quotient(amax, FP8_MAX), a) && Rounds(FP8_SCALE_FLOOR, FP8_SCALE_FLOOR, b)
      && sw == if FloatReal(Magnitude(a)) > FloatReal(Magnitude(b)) then a else b
  }

  /** Rounding and taking the larger may be exchanged. */
  lemma ScaleRounds(amax: real, sw: Word)
    requires amax >= 0.0 && ScaleOf(amax, sw)
    ensures Rounds(RowScale(amax), RowScale(amax), sw)
  {
    var x, y := Quotient(amax, FP8_MAX), FP8_SCALE_FLOOR;
    var a: Word, b: Word :| Rounds(x, x, a) && Rounds(y, y, b)
                            && sw == if FloatReal(Magnitude(a)) > FloatReal(Magnitude(b)) then a else b;
    assert RowScale(amax) == if x >= y then x else y;
    hide FloatReal, Finite, Rounds, RowScale;
    LargerRounds(x, y, a, b);
  }

  lemma LargerRounds(x: real, y: real, a: Word, b: Word)
    requires y > 0.0 && Rounds(x, x, a) && Rounds(y, y, b)
    ensures
      var larger := if FloatReal(Magnitude(a)) > FloatReal(Magnitude(b)) then a else b;
      Rounds(if x >= y then x else y, if x >= y then x else y, larger)
  {
    var v, w := FloatReal(Magnitude(a)), FloatReal(Magnitude(b));
    NearestToEach(x, y, a, b);
    if v == w && x >= y {
      SameFloat(Magnitude(a), Magnitude(b));
      SameWord(a, b);
    }
    hide FloatReal, Rounds, Magnitude, Sign, Abs;
    Crossing(x, y, v, w);
  }

  lemma NearestToEach(x: real, y: real, a: Word, b: Word)
    requires y > 0.0 && Rounds(x, x, a) && Rounds(y, y, b)
    ensures Abs(x - FloatReal(Magnitude(a))) <= Abs(x - FloatReal(Magnitude(b)))
    ensures Abs(y - FloatReal(Magnitude(b))) <= Abs(y - FloatReal(Magnitude(a)))
    ensures x >= y ==> Sign(a) == Sign(b)
  {
    hide FloatReal, Finite, Better;
    RoundsNearest(x, x, a, Magnitude(b));
    RoundsNearest(y, y, b, Magnitude(a));
  }

  lemma SameFloat(a: nat, b: nat)
    requires FloatReal(a) == FloatReal(b)
    ensures a == b
  {
    if a < b {
      RealsIncrease(a, b);
    } else if b < a {
      RealsIncrease(b, a);
    }
  }

  lemma SameWord(a: Word, b: Word)
    requires Magnitude(a) == Magnitude(b) && Sign(a) == Sign(b)
    ensures a == b
  {
  }

  /** Nearest values cross only for equal arguments. */
  lemma Crossing(x: real, y: real, v: real, w: real)
    requires Abs(x - v) <= Abs(x - w) && Abs(y - w) <= Abs(y - v)
    ensures v < w ==> x <= y
    ensures v > w ==> x >= y
  {
  }

  /** Every row has a scale. */
  lemma ScaleExists(amax: real) returns (sw: Word)
    ensures ScaleOf(amax, sw)
  {
    var a := RoundsExists(Quotient(amax, FP8_MAX), Quotient(amax, FP8_MAX));
    var b := RoundsExists(FP8_SCALE_FLOOR, FP8_SCALE_FLOOR);
    hide Rounds, FloatReal;
    sw := if FloatReal(Magnitude(a)) > FloatReal(Magnitude(b)) then a else b;
  }

  lemma LargeOne()
    ensures One() >= 590295810358705651712.0
  {
    hide Pow2;
    SomePows();
    PowAdd(30, 30);
    PowGrows(60, 140);
    assert Unit() >= Times(0x4000_0000, 0x4000_0000) == 1152921504606846976;
  }

  /** The rounded scale is within 2^-24 of the exact one. */
  lemma ScaleNear(amax: real, sw: Word)
    requires 0.0 <= amax <= FloatReal(LARGEST) && Rounds(RowScale(amax), RowScale(amax), sw)
    ensures 16777216.0 * Abs(Scale(sw) - RowScale(amax)) <= RowScale(amax)
    ensures Scale(sw) > 0.0
  {
    var r, p := RowScale(amax), One();
    var x := Product(r, p);
    LargestCovers(amax);
    LargeOne();
    assert r >= FP8_SCALE_FLOOR;
    hide RowScale, One;
    InUnits(r, LARGEST);
    Scaled(0.0, r, p);
    assert Product(0.0, p) == 0.0 by { NoneOf(p); }
    var near := FloatNear(x);
    RoundsNearest(r, r, sw, near);
    var d := Abs(r - FloatReal(near));
    hide FloatUnits, Finite, Rounds, Magnitude, FloatReal;
    UnitsOff(r, near);
    hide Abs, Product;
    NotTiny(r, d, p);
  }

  /** A real below a float, in units. */
  lemma InUnits(r: real, a: nat)
    requires r <= FloatReal(a)
    ensures Product(r, One()) <= FloatUnits(a) as real
  {
    assert FloatReal(a) == Quotient(FloatUnits(a) as real, One());
    hide FloatReal, FloatUnits, One, Quotient, Product;
    Divided(FloatUnits(a) as real, One());
    Scaled(r, Quotient(FloatUnits(a) as real, One()), One());
  }

  lemma UnitsOff(r: real, a: nat)
    ensures Product(Abs(r - FloatReal(a)), One()) == Abs(Product(r, One()) - FloatUnits(a) as real)
  {
    assert FloatReal(a) == Quotient(FloatUnits(a) as real, One());
    hide FloatReal, FloatUnits, One;
    UnitsApart(r, FloatUnits(a) as real, One());
  }

  lemma NotTiny(r: real, d: real, p: real)
    requires p >= 590295810358705651712.0 && r >= FP8_SCALE_FLOOR && d >= 0.0
    requires 16777216.0 * Product(d, p) <= Product(r, p) || 2.0 * Product(d, p) <= 1.0
    ensures 16777216.0 * d <= r
  {
    assert Product(FP8_SCALE_FLOOR, p) >= 16777216.0;
    Scaled(FP8_SCALE_FLOOR, r, p);
    Times16(16777216.0, d, p);
    Cancel(16777216.0 * d, r, p);
  }

  lemma LargestCovers(amax: real)
    requires 0.0 <= amax <= FloatReal(LARGEST)
    ensures RowScale(amax) <= FloatReal(LARGEST)
  {
    AroundTop();
    RealsIncrease(TOP, LARGEST);
    hide FloatReal;
  }

  // ---- the float quotient ----

  /** `u` is the float quotient of a weight by its row's float scale. */
  ghost predicate QuotientOf(w: real, sw: Word, u: Word) {
    Scale(sw) > 0.0 && Rounds(w, Quotient(Abs(w), Scale(sw)), u)
  }

  /** Where rounding passes 448: only beyond the middle to the next float, ties to even. */
  lemma PassesTop(w: real, q: real, u: Word)
    requires Rounds(w, q, u)
    ensures FloatReal(Magnitude(u)) <= 448.0 <==> q <= 448.0 + 1.0 / 65536.0
    ensures q <= 448.0 + 1.0 / 32768.0 ==> Magnitude(u) <= TOP + 1
  {
    var m := Magnitude(u);
    FiniteAround();
    ByBetter(w, q, u, TOP);
    ByBetter(w, q, u, TOP + 1);
    AroundTop();
    hide FloatReal, Finite, Rounds, Magnitude;
    if m < TOP {
      RealsIncrease(m, TOP);
    } else if m > TOP + 1 {
      RealsIncrease(TOP + 1, m);
    }
  }

  lemma FiniteAround()
    ensures Finite(TOP) && Finite(TOP + 1)
  {
  }

  /** What being rounded to means against one other float. */
  lemma ByBetter(w: real, q: real, u: Word, b: nat)
    requires Rounds(w, q, u) && b < 0x8000_0000 && Finite(b)
    ensures
      var m, v, t := Magnitude(u), FloatReal(Magnitude(u)), FloatReal(b);
      && (v < t ==> 2.0 * q <= v + t)
      && (v > t ==> 2.0 * q >= v + t && (2.0 * q == v + t ==> m % 2 == 0))
  {
    hide FloatReal, Finite;
    if b != Magnitude(u) {
      assert Better(q, Magnitude(u), b);
    }
  }

  /** No quotient lies beyond the float after 448. */
  lemma QuotientRange(w: real, amax: real, sw: Word)
    requires Abs(w) <= amax <= FloatReal(LARGEST) && Rounds(RowScale(amax), RowScale(amax), sw)
    ensures Scale(sw) > 0.0
    ensures
      var q := Quotient(Abs(w), Scale(sw));
      && 0.0 <= q <= 448.0 + 1.0 / 32768.0
      && (q <= 448.0 + 1.0 / 65536.0 <==> Abs(w) <= Product(448.0 + 1.0 / 65536.0, Scale(sw)))
  {
    hide FloatReal, Rounds;
    ScaleNear(amax, sw);
    ScaleCovers(amax);
    var r, s, q := RowScale(amax), Scale(sw), Quotient(Abs(w), Scale(sw));
    assert amax <= 448.0 * r;
    hide RowScale, Scale;
    assert Abs(w) <= (448.0 + 1.0 / 32768.0) * s;
    assert q >= 0.0;
    hide Quotient, Abs;
    Divided(Abs(w), s);
    BoundBack(q, 448.0 + 1.0 / 32768.0, s);
    BoundBack(q, 448.0 + 1.0 / 65536.0, s);
  }

  lemma BoundBack(q: real, bound: real, s: real)
    requires s > 0.0
    ensures q <= bound <==> Product(q, s) <= Product(bound, s)
  {
    if q <= bound {
      Scaled(q, bound, s);
    } else {
      StrictlyScaled(bound, q, s);
    }
  }

  /** Up to the float after 448 the code before saturation is a finite one. */
  lemma NoSaturation(a: nat)
    requires a <= TOP + 1
    ensures RawCode(a) <= MAX_CODE
  {
    var exp, m := Exponent(a), Significand(a);
    if exp <= 120 {
      var shift := if 141 - exp < 31 then 141 - exp else 31;
      var (q, r) := ShiftedOut(m, Pow2(shift));
      SmallQuotient(m, q, r, shift);
      hide Pow2, Times, RoundBit;
      assert RawCode(a) == q + RoundBit(q, r, Pow2(shift - 1));
      OneBit(q, r, Pow2(shift - 1));
    } else {
      assert exp <= 135;
      assert exp == 135 ==> m <= 0xE0_0001;
    }
  }

  lemma OneBit(q: nat, r: nat, half: nat)
    ensures RoundBit(q, r, half) <= 1
  {
  }

  /** Up to the float after 448 the encoder errs by at most a sixteenth of the value, or
      half the smallest step. */
  lemma FloatError(f: nat, code: nat)
    requires NearestEven(f, code) && f <= FloatUnits(TOP + 1)
    ensures 16 * Distance(f, CodeValue(code)) <= f || 16 * Distance(f, CodeValue(code)) <= 8 * Unit()
  {
    TopFloat();
    FloatGap(TOP);
    TopIsLarge();
    hide CodeValue, Unit, FloatUnits;
    if f <= CodeValue(MAX_CODE) {
      RoundingError(f, code);
    } else {
      assert code != MAX_CODE ==> Distance(f, CodeValue(code)) <= Distance(f, CodeValue(MAX_CODE));
    }
  }

  lemma TopIsLarge()
    ensures FloatUnits(TOP) >= 16
  {
    TopFloat();
    TopCode();
    hide FloatUnits, CodeValue, Unit;
  }

  /** What the float division adds to the error: 2^-24 of the weight, or 2^-150 of the
      scale where quotients are subnormal. */
  function Slack(w: real, s: real): real {
    Max(Abs(w) / 16777216.0, s / (2.0 * One()))
  }

  /** A row as the code quantizes it, scale and quotient both rounded to floats. The float
      scale is within 2^-24 of the exact one. The float quotient passes 448 exactly if the
      weight is more than 448 + 2^-16 float scales, and never by more than one float, so
      that saturation never decides a code. With the float scale multiplied back, the
      error is at most a sixteenth of the weight or 2^-10 of the scale, plus the rounding
      of the quotient. */
  lemma RowQuantization(w: real, amax: real, sw: Word, u: Word)
    requires Abs(w) <= amax <= FloatReal(LARGEST) && ScaleOf(amax, sw) && QuotientOf(w, sw, u)
    ensures 16777216.0 * Abs(Scale(sw) - RowScale(amax)) <= RowScale(amax)
    ensures FloatReal(Magnitude(u)) <= 448.0 <==> Abs(w) <= Product(448.0 + 1.0 / 65536.0, Scale(sw))
    ensures FloatReal(Magnitude(u)) <= 448.0 + 1.0 / 32768.0 && Encode(u) % 128 == RawCode(Magnitude(u))
    ensures
      var s := Scale(sw);
      var err := Abs(w - Product(SignedCode(Encode(u)), s));
      16.0 * err <= Abs(w) + 17.0 * Slack(w, s) || 1024.0 * err <= s + 1024.0 * Slack(w, s)
  {
    var s, q := Scale(sw), Quotient(Abs(w), Scale(sw));
    ScaleRounds(amax, sw);
    hide ScaleOf;
    ScaleNear(amax, sw);
    QuotientRange(w, amax, sw);
    PassesTop(w, q, u);
    AroundTop();
    NotPast(Magnitude(u));
    NoSaturation(Magnitude(u));
    EncodeIsNearest(u);
    hide RowScale, FloatReal, Rounds, Scale, RawCode;
    CodeError(w, s, u);
  }

  lemma NotPast(m: nat)
    requires m <= TOP + 1
    ensures FloatReal(m) <= FloatReal(TOP + 1) && FloatUnits(m) <= FloatUnits(TOP + 1)
  {
    if m < TOP + 1 {
      RealsIncrease(m, TOP + 1);
      FloatsIncrease(m, TOP + 1);
    }
  }

  lemma RoundsSign(w: real, q: real, u: Word)
    requires Rounds(w, q, u)
    ensures Finite(Magnitude(u)) && (w > 0.0 ==> Sign(u) == 0) && (w < 0.0 ==> Sign(u) == 1)
  {
    hide Better;
  }

  lemma CodeError(w: real, s: real, u: Word)
    requires s > 0.0 && Rounds(w, Quotient(Abs(w), s), u)
    requires Quotient(Abs(w), s) <= FloatReal(TOP + 1) && Magnitude(u) <= TOP + 1
    ensures
      var err := Abs(w - Product(SignedCode(Encode(u)), s));
      16.0 * err <= Abs(w) + 17.0 * Slack(w, s) || 1024.0 * err <= s + 1024.0 * Slack(w, s)
  {
    var q, p := Quotient(Abs(w), s), One();
    var x, f, code := Product(q, p), FloatUnits(Magnitude(u)), Encode(u);
    hide One, FloatReal, FloatUnits, Encode, CodeValue, Unit, Product, Abs, NearestEven, Finite, EncodeMagnitude;
    hide SignedCode, CodeReal, Quotient, Slack;
    RoundsSign(w, q, u);
    EncodeIsNearest(u);
    SignedError(w, code, s);
    InUnitsOf(w, s);
    var d := QuotientNear(w, q, u);
    NotPast(Magnitude(u));
    hide Rounds, Magnitude, Sign;
    FloatError(f, code % 128);
    UnitsError(w, s, x, f, code % 128, d);
  }

  /** The float quotient is within 2^-24 of the quotient, or within half a unit. */
  lemma QuotientNear(w: real, q: real, u: Word) returns (e: real)
    requires Rounds(w, q, u) && 0.0 <= Product(q, One()) && q <= FloatReal(TOP + 1)
    ensures
      var x := Product(q, One());
      Abs(x - FloatUnits(Magnitude(u)) as real) <= e && (16777216.0 * e <= x || 2.0 * e <= 1.0)
  {
    hide One, FloatReal, FloatUnits, Product, Abs, Finite, Rounds, Magnitude;
    var x := Product(q, One());
    InUnits(q, TOP + 1);
    FloatsIncrease(TOP + 1, LARGEST);
    var near := FloatNear(x);
    RoundsInUnits(w, q, u, near);
    e := Abs(x - FloatUnits(near) as real);
  }

  /** From units back to weights. */
  lemma UnitsError(w: real, s: real, x: real, f: nat, code: nat, e: real)
    requires s > 0.0 && Product(x, s) == Product(Abs(w), One())
    requires Abs(x - f as real) <= e && (16777216.0 * e <= x || 2.0 * e <= 1.0)
    requires 16 * Distance(f, CodeValue(code)) <= f || 16 * Distance(f, CodeValue(code)) <= 8 * Unit()
    ensures
      var err := Abs(Abs(w) - Product(CodeReal(code), s));
      16.0 * err <= Abs(w) + 17.0 * Slack(w, s) || 1024.0 * err <= s + 1024.0 * Slack(w, s)
  {
    var p, c, d := One(), CodeValue(code), Abs(x - f as real);
    hide One, CodeValue, Unit, Product, Abs, CodeReal, Quotient, Slack;
    EighthOfUnit();
    CodeRealIs(code);
    TwoRoundings(x, f, c, Unit());
    hide Distance;
    ErrorBack(Abs(w), s, p, x, c as real, d);
    SlackEnough(w, s, x, d, e);
  }

  lemma InUnitsOf(w: real, s: real)
    requires s > 0.0
    ensures
      var x := Product(Quotient(Abs(w), s), One());
      x >= 0.0 && Product(x, s) == Product(Abs(w), One())
  {
    var q, p := Quotient(Abs(w), s), One();
    assert q >= 0.0;
    Divided(Abs(w), s);
    hide Quotient, Product, One, Abs;
    Swap(q, p, s);
    Scaled(0.0, q, p);
    NoneOf(p);
  }

  lemma CodeRealIs(c: nat)
    ensures CodeReal(c) == Quotient(CodeValue(c) as real, One())
  {
  }

  lemma SlackEnough(w: real, s: real, x: real, d: real, e: real)
    requires s > 0.0 && Product(x, s) == Product(Abs(w), One()) && 0.0 <= d <= e
    requires 16777216.0 * e <= x || 2.0 * e <= 1.0
    ensures Quotient(Product(d, s), One()) <= Slack(w, s)
  {
    var p := One();
    var slack := Quotient(Product(d, s), p);
    assert Slack(w, s) == Max(Abs(w) / 16777216.0, s / (2.0 * p));
    HalfUnit(s, p);
    hide One, Product, Quotient, Abs, Slack;
    Divided(Product(d, s), p);
    if 16777216.0 * d <= x {
      Scaled(16777216.0 * d, x, s);
      Times16(16777216.0, d, s);
      Times16(16777216.0, slack, p);
      Cancel(16777216.0 * slack, Abs(w), p);
    } else {
      Scaled(2.0 * d, 1.0, s);
      Times16(2.0, d, s);
      OneTimes(s);
      Times16(2.0, slack, p);
      Cancel(2.0 * slack, 2.0 * (s / (2.0 * p)), p);
    }
  }

  lemma HalfUnit(s: real, p: real)
    requires p > 0.0
    ensures Product(2.0 * (s / (2.0 * p)), p) == s
  {
    var h := s / (2.0 * p);
    assert h * (2.0 * p) == s;
  }

  lemma OneTimes(s: real)
    ensures Product(1.0, s) == s
  {
  }

  // ---- a quotient past 448 ----

  const WITNESS_WEIGHT: real := 8390602.0 / 1073741824.0
  const WITNESS_SCALE: Word := 0x3792_520B

  lemma WitnessFloats()
    ensures FloatReal(0x3C00_07CA) == WITNESS_WEIGHT
    ensures FloatReal(WITNESS_SCALE) == 9589259.0 / 549755813888.0
    ensures FloatReal(WITNESS_SCALE - 1) == 9589258.0 / 549755813888.0
    ensures FloatReal(WITNESS_SCALE + 1) == 9589260.0 / 549755813888.0
  {
    hide FloatReal, Pow2;
    SomePows();
    FloatAt(0x3C00_07CA, 120);
    FloatAt(WITNESS_SCALE, 111);
    FloatAt(WITNESS_SCALE - 1, 111);
    FloatAt(WITNESS_SCALE + 1, 111);
  }

  lemma FloatZero()
    ensures FloatReal(0) == 0.0 && Finite(0)
  {
    assert FloatUnits(0) == 0;
  }

  /** Its scale is rounded down, by less than half a float. */
  lemma WitnessScale()
    ensures ScaleOf(WITNESS_WEIGHT, WITNESS_SCALE)
    ensures Magnitude(WITNESS_SCALE) == WITNESS_SCALE
  {
    var q := Quotient(WITNESS_WEIGHT, FP8_MAX);
    hide FloatReal, Rounds;
    WitnessFloats();
    FloatZero();
    var b := RoundsExists(FP8_SCALE_FLOOR, FP8_SCALE_FLOOR);
    RoundsNearest(FP8_SCALE_FLOOR, FP8_SCALE_FLOOR, b, 0);
    RoundsBetween(q, WITNESS_SCALE);
    assert FloatReal(Magnitude(b)) < FloatReal(Magnitude(WITNESS_SCALE));
  }

  /** A row whose largest weight's float quotient is the float after 448: the weight is a
      float, and its scale was rounded down. */
  lemma QuotientPasses448()
    ensures FloatReal(0x3C00_07CA) == WITNESS_WEIGHT && ScaleOf(WITNESS_WEIGHT, WITNESS_SCALE)
    ensures QuotientOf(WITNESS_WEIGHT, WITNESS_SCALE, TOP + 1)
    ensures FloatReal(TOP + 1) > 448.0 && Encode(TOP + 1) == MAX_CODE
  {
    WitnessFloats();
    WitnessScale();
    AroundTop();
    var q := Quotient(Abs(WITNESS_WEIGHT), Scale(WITNESS_SCALE));
    assert Scale(WITNESS_SCALE) == 9589259.0 / 549755813888.0;
    assert q == 4295988224.0 / 9589259.0;
    hide FloatReal, Rounds, RowScale;
    RoundsBetween(q, TOP + 1);
    TopFloat();
    assert Rounds(WITNESS_WEIGHT, q, TOP + 1) by { SameSign(WITNESS_WEIGHT, q, TOP + 1); }
  }

  lemma SameSign(w: real, q: real, u: Word)
    requires Rounds(q, q, u) && w > 0.0 && q > 0.0
    ensures Rounds(w, q, u)
  {
    hide Better, Finite;
  }
}
