/**
 * Non-negative binary64 arithmetic as far as the reservation arithmetic needs it: which reals are
 * representable, and rounding to the nearest of them with ties to even (section 4.3.1 of IEEE 754-2019).
 */
module Binary64 {

  function TwoTo(n: nat): (p: nat)
    ensures p >= 1
  {
    if n == 0 then 1 else 2 * TwoTo(n - 1)
  }

  /** Two to any integer power. */
  function Scale(e: int): (s: real)
    ensures s > 0.0
  {
    if e >= 0 then TwoTo(e) as real else 1.0 / (TwoTo(-e) as real)
  }

  const PRECISION: nat := 53

  const MIN_EXPONENT: int := -1074

  const MAX_EXPONENT: int := 971

  /** A named product, so that proofs can treat it as a term and use only the laws below. */
  function Times(k: int, s: real): real {
    k as real * s
  }

  predicate Represents(m: nat, e: int, x: real) {
    m < TwoTo(PRECISION) && MIN_EXPONENT <= e <= MAX_EXPONENT && x == Times(m, Scale(e))
  }

  /** `x` is a non-negative finite binary64 value: a 53-bit integer times a power of two. */
  ghost predicate IsBinary64(x: real) {
    exists m: nat, e: int :: Represents(m, e, x)
  }

  // ----- Laws of Times and Scale -------------------------------------------------------

  lemma TimesOrder(a: int, b: int, s: real)
    requires s > 0.0
    ensures a <= b <==> Times(a, s) <= Times(b, s)
    ensures a < b <==> Times(a, s) < Times(b, s)
  {
  }

  /** Regrouping: scaling by `b` first and then by `a` is scaling by one integer. */
  lemma TimesTwice(a: int, b: int, s: real) returns (p: int)
    ensures p == a * b && Times(p, s) == a as real * Times(b, s)
  {
    p := a * b;
    assert p as real == a as real * b as real;
  }

  /** `q` against an integer, both scaled. */
  lemma QuotientOrder(x: real, q: real, n: int, s: real)
    requires s > 0.0 && q == x / s
    ensures q < n as real <==> x < Times(n, s)
    ensures q >= n as real <==> x >= Times(n, s)
  {
    DivMul(x, s);
    assert x == q * s;
  }

  lemma DivMul(x: real, s: real)
    requires s > 0.0
    ensures x / s * s == x
  {
  }

  function Abs(x: real): real {
    if x < 0.0 then -x else x
  }

  lemma DistanceScales(x: real, q: real, n: int, s: real)
    requires s > 0.0 && q == x / s
    ensures Abs(x - Times(n, s)) == Abs(q - n as real) * s
  {
    DivMul(x, s);
    assert x - Times(n, s) == (q - n as real) * s;
  }

  lemma ProductOrder(a: real, b: real, s: real)
    requires s > 0.0 && a <= b
    ensures a * s <= b * s
  {
  }

  lemma ScaleStep(e: int)
    ensures Scale(e + 1) == 2.0 * Scale(e)
  {
    if e < -1 {
      assert TwoTo(-e) == 2 * TwoTo(-e - 1);
    } else if e == -1 {
      assert TwoTo(1) == 2 * TwoTo(0);
    }
  }

  lemma {:induction false} ScaleShift(e: int, n: nat)
    ensures Scale(e + n) == Times(TwoTo(n), Scale(e))
  {
    hide Scale;
    if n > 0 {
      ScaleShift(e, n - 1);
      ScaleStep(e + (n - 1));
      var p := TimesTwice(2, TwoTo(n - 1), Scale(e));
    }
  }

  lemma ScaleMonotone(e: int, f: int)
    requires e <= f
    ensures Scale(e) <= Scale(f)
  {
    hide Scale, Times, TwoTo;
    ScaleShift(e, f - e);
    TimesOrder(1, TwoTo(f - e), Scale(e));
    TimesOne(Scale(e));
  }

  lemma TimesOne(s: real)
    ensures Times(1, s) == s
  {
  }

  // ----- Rounding --------------------------------------------------------------------

  /** To the nearest integer, ties to even. */
  function RoundEven(q: real): (n: int)
    ensures n as real - 0.5 <= q <= n as real + 0.5
    ensures n as real - 0.5 == q || q == n as real + 0.5 ==> n % 2 == 0
  {
    var f := q.Floor;
    var frac := q - f as real;
    if frac < 0.5 then f
    else if frac > 0.5 then f + 1
    else if f % 2 == 0 then f
    else f + 1
  }

  /** The least exponent, from `e` up, at which `x` fits in 53 bits. */
  function ExponentFrom(x: real, e: int): (r: int)
    requires MIN_EXPONENT <= e <= MAX_EXPONENT - 1 && InRange(x)
    ensures e <= r <= MAX_EXPONENT - 1 && x < Scale(r + PRECISION)
    ensures r > e ==> x >= Scale(r - 1 + PRECISION)
    decreases MAX_EXPONENT - e
  {
    if x < Scale(e + PRECISION) then e else ExponentFrom(x, e + 1)
  }

  /** The magnitudes the model rounds; everything the controller converts is far below the limit. */
  predicate InRange(x: real) {
    0.0 <= x < Scale(MAX_EXPONENT - 1 + PRECISION)
  }

  /** `x` rounded to binary64, roundTiesToEven. */
  function Nearest(x: real): real
    requires InRange(x)
  {
    var e := ExponentFrom(x, MIN_EXPONENT);
    Times(RoundEven(x / Scale(e)), Scale(e))
  }

  // ----- Nearest is a representable value, and no representable value is nearer --------

  /** The binade of `x`: its exponent and its quotient, which has 53 significant bits unless `x` is subnormal. */
  lemma Binade(x: real) returns (e: int, q: real)
    requires InRange(x)
    ensures MIN_EXPONENT <= e <= MAX_EXPONENT - 1
    ensures q == x / Scale(e) && Nearest(x) == Times(RoundEven(q), Scale(e))
    ensures 0 as real <= q < TwoTo(PRECISION) as real && 0 <= RoundEven(q) <= TwoTo(PRECISION)
    ensures e > MIN_EXPONENT ==> q >= TwoTo(PRECISION - 1) as real
  {
    hide Scale, TwoTo, Times;
    e := ExponentFrom(x, MIN_EXPONENT);
    q := x / Scale(e);
    ScaleShift(e, PRECISION);
    QuotientOrder(x, q, TwoTo(PRECISION), Scale(e));
    QuotientOrder(x, q, 0, Scale(e));
    TimesZero(Scale(e));
    if e > MIN_EXPONENT {
      ScaleShift(e, PRECISION - 1);
      assert e - 1 + PRECISION == e + (PRECISION - 1);
      QuotientOrder(x, q, TwoTo(PRECISION - 1), Scale(e));
    }
  }

  lemma TimesZero(s: real)
    ensures Times(0, s) == 0.0
  {
  }

  lemma HalfPrecision()
    ensures TwoTo(PRECISION) == 2 * TwoTo(PRECISION - 1) && TwoTo(PRECISION - 1) < TwoTo(PRECISION)
  {
  }

  /** Doubling the integer or raising the exponent is the same. */
  lemma CarryUp(k: int, e: int)
    ensures Times(2 * k, Scale(e)) == Times(k, Scale(e + 1))
  {
    hide Scale;
    ScaleStep(e);
  }

  lemma NearestIsBinary64(x: real)
    requires InRange(x)
    ensures IsBinary64(Nearest(x))
  {
    hide Scale, TwoTo, Nearest, RoundEven, Times;
    var e, q := Binade(x);
    var m := RoundEven(q);
    if m < TwoTo(PRECISION) {
      assert Represents(m, e, Nearest(x));
    } else {
      HalfPrecision();
      CarryUp(TwoTo(PRECISION - 1), e);
      assert Represents(TwoTo(PRECISION - 1), e + 1, Nearest(x));
    }
  }

  /** At or above 2^(k+52) every representable value is a whole multiple of 2^k. */
  lemma Multiple(y: real, k: int) returns (n: int)
    requires IsBinary64(y) && y >= Scale(k + PRECISION - 1)
    ensures y == Times(n, Scale(k))
  {
    hide Scale, TwoTo, Times;
    var m: nat, e: int :| Represents(m, e, y);
    if e < k {
      // A 53-bit integer at a smaller exponent stays below the bound.
      TimesOrder(m, TwoTo(PRECISION), Scale(e));
      ScaleShift(e, PRECISION);
      ScaleMonotone(e + PRECISION, k + PRECISION - 1);
      assert false;
    }
    n := Realign(m, e, k);
  }

  /** A multiple of a larger power of two as a multiple of a smaller one. */
  lemma Realign(m: int, e: int, k: int) returns (n: int)
    requires k <= e
    ensures Times(n, Scale(k)) == Times(m, Scale(e))
  {
    hide Scale, TwoTo;
    ScaleShift(k, e - k);
    n := TimesTwice(m, TwoTo(e - k), Scale(k));
  }

  /** RoundEven is at least as close as any other integer. */
  lemma RoundEvenIsClosest(q: real, n: int)
    ensures Abs(q - RoundEven(q) as real) <= Abs(q - n as real)
  {
    hide RoundEven;
    var m := RoundEven(q);
    if n > m {
      assert n as real >= m as real + 1.0;
    } else if n < m {
      assert n as real <= m as real - 1.0;
    }
  }

  lemma NearestBeatsMultiples(x: real, q: real, n: int, s: real)
    requires s > 0.0 && q == x / s
    ensures Abs(x - Times(RoundEven(q), s)) <= Abs(x - Times(n, s))
  {
    hide RoundEven, Times, Abs;
    RoundEvenIsClosest(q, n);
    DistanceScales(x, q, RoundEven(q), s);
    DistanceScales(x, q, n, s);
    ProductOrder(Abs(q - RoundEven(q) as real), Abs(q - n as real), s);
  }

  /** No representable value is closer to `x` than `Nearest(x)`. */
  lemma NearestIsNearest(x: real, y: real)
    requires InRange(x) && IsBinary64(y)
    ensures Abs(x - Nearest(x)) <= Abs(x - y)
  {
    hide Scale, TwoTo, Nearest, RoundEven, Times;
    var e, q := Binade(x);
    var n: nat, f: int :| Represents(n, f, y);
    if f >= e {
      var k := Realign(n, f, e);
      NearestBeatsMultiples(x, q, k, Scale(e));
    } else {
      // y lies below the binade of x, whose lower end is a multiple at least as close.
      var low := TwoTo(PRECISION - 1);
      NearestBeatsMultiples(x, q, low, Scale(e));
      QuotientOrder(x, q, low, Scale(e));
      TimesOrder(n, TwoTo(PRECISION), Scale(f));
      ScaleShift(f, PRECISION);
      ScaleMonotone(f + PRECISION, e + (PRECISION - 1));
      ScaleShift(e, PRECISION - 1);
    }
  }

  /** Rounding keeps order. */
  lemma NearestMonotone(x: real, y: real)
    requires InRange(x) && InRange(y) && x <= y
    ensures Nearest(x) <= Nearest(y)
  {
    hide Nearest;
    NearestIsBinary64(x);
    NearestIsBinary64(y);
    NearestIsNearest(x, Nearest(y));
    NearestIsNearest(y, Nearest(x));
  }

  /** A representable value rounds to itself. */
  lemma NearestFixesBinary64(x: real)
    requires InRange(x) && IsBinary64(x)
    ensures Nearest(x) == x
  {
    hide Nearest;
    NearestIsNearest(x, x);
  }

  lemma ZeroIsBinary64()
    ensures IsBinary64(0.0) && InRange(0.0)
  {
    TimesZero(Scale(0));
    assert Represents(0, 0, 0.0);
  }

  lemma NearestNonNegative(x: real)
    requires InRange(x)
    ensures Nearest(x) >= 0.0
  {
    hide Nearest;
    ZeroIsBinary64();
    NearestMonotone(0.0, x);
    NearestFixesBinary64(0.0);
  }
}
