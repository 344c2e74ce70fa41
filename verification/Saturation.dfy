/** The sample validators draw the line exactly where an int64 conversion would start to saturate. */
module Saturation {
  import opened Api
  import opened Binary64
  import opened Shadow
  import opened Backend

  /** A sample is whatever the decimal text rounds to: when finite and non-negative, a binary64 value. */
  ghost predicate IsSample(v: Float) {
    v.Finite? && v.value >= 0.0 ==> IsBinary64(v.value)
  }

  const EDGE: real := 9223372036854775808.0

  lemma PowersUsed()
    ensures TwoTo(PRECISION) == 9007199254740992
    ensures Scale(-19) == 1.0 / 524288.0 && Scale(33) == 8589934592.0
    ensures Scale(10) == 1024.0 && Scale(62) == 4611686018427387904.0 && Scale(63) == EDGE
  {
    assert TwoTo(10) == 1024;
    assert TwoTo(19) == 524288;
    assert TwoTo(33) == 8589934592;
    assert TwoTo(43) == 8796093022208;
    assert TwoTo(53) == 9007199254740992;
    assert TwoTo(62) == 4611686018427387904;
    assert TwoTo(63) == 9223372036854775808;
  }

  lemma EdgeInRange()
    ensures InRange(EDGE)
  {
    PowersUsed();
    ScaleMonotone(64, MAX_EXPONENT - 1 + PRECISION);
    ScaleStep(63);
  }

  lemma LandmarksAreBinary64()
    ensures IsBinary64(MAX_CPU) && IsBinary64(MAX_MEMORY) && IsBinary64(EDGE)
  {
    PowersUsed();
    assert Represents(4835703278458516, -19, MAX_CPU);
    assert Represents(9007199254740991, 10, MAX_MEMORY);
    assert Represents(4503599627370496, 11, EDGE) by {
      ScaleStep(10);
    }
  }

  /** Between consecutive multiples of 2^-19 above 2^33 there is no binary64 value. */
  lemma NothingAboveMaxCpu(v: real)
    requires IsBinary64(v) && v > MAX_CPU
    ensures v >= 4835703278458517.0 / 524288.0
  {
    PowersUsed();
    var n := Multiple(v, -19);
    assert v == n as real / 524288.0;
    assert n > 4835703278458516;
  }

  /** Between 2^63 - 1024 and 2^63 there is no binary64 value. */
  lemma NothingBelowEdge(v: real)
    requires IsBinary64(v) && v < EDGE
    ensures v <= MAX_MEMORY
  {
    PowersUsed();
    if v >= Scale(62) {
      var n := Multiple(v, 10);
      assert v == n as real * 1024.0;
      assert n < 9007199254740992;
    }
  }

  /** `math.Round` of a binary64 value stays below 2^63 exactly when the value does. */
  lemma RoundBelowEdge(v: real)
    requires IsBinary64(v) && v >= 0.0
    ensures RoundHalfAway(v) < TWO_TO_63 <==> v < EDGE
  {
    if v < EDGE {
      NothingBelowEdge(v);
    }
  }

  /** The CPU limit is one binary64 step below the rounded quotient 2^63 / 10^9. */
  lemma MaxCpuIsOneStepDown(v: real)
    requires IsBinary64(v)
    ensures InRange(EDGE / 1_000_000_000.0)
    ensures MAX_CPU < Nearest(EDGE / 1_000_000_000.0) == 4835703278458517.0 / 524288.0
    ensures v < Nearest(EDGE / 1_000_000_000.0) <==> v <= MAX_CPU
  {
    hide Nearest, Scale;
    EdgeInRange();
    PowersUsed();
    var x := EDGE / 1_000_000_000.0;
    var up := 4835703278458517.0 / 524288.0;
    var r := Nearest(x);
    assert IsBinary64(up) by {
      assert Represents(4835703278458517, -19, up);
    }
    NearestIsNearest(x, up);
    NearestIsBinary64(x);
    assert MAX_CPU < r <= up;
    NothingAboveMaxCpu(r);
    if v > MAX_CPU {
      NothingAboveMaxCpu(v);
    }
  }

  /** Every accepted CPU sample rounds to a product below 2^63: the representable value just below is 2^63 - 1024. */
  lemma AcceptedCpuFits(v: real)
    requires IsBinary64(v) && 0.0 <= v <= MAX_CPU
    ensures Product(v, 1_000_000_000.0) < EDGE && IsBinary64(Product(v, 1_000_000_000.0))
  {
    hide Nearest;
    EdgeInRange();
    var x := v * 1_000_000_000.0;
    assert x <= 9223372036854774475.2;
    LandmarksAreBinary64();
    NearestIsNearest(x, MAX_MEMORY);
    NearestIsBinary64(x);
  }

  lemma RejectedCpuSaturates(v: real)
    requires IsBinary64(v) && v > MAX_CPU
    ensures Product(v, 1_000_000_000.0) >= EDGE
  {
    hide Nearest;
    EdgeInRange();
    NothingAboveMaxCpu(v);
    var x := v * 1_000_000_000.0;
    assert x >= EDGE;
    if InRange(x) {
      LandmarksAreBinary64();
      NearestMonotone(EDGE, x);
      NearestFixesBinary64(EDGE);
    }
  }

  /** The CPU validator accepts a sample exactly when it is a non-negative number whose nanocores fit an int64. */
  lemma CpuLineIsExact(v: Float)
    requires IsSample(v)
    ensures ValidCpuSample(v) <==> && v.Finite? && v.value >= 0.0
                                   && RoundHalfAway(Product(v.value, 1_000_000_000.0)) < 0x8000_0000_0000_0000
  {
    hide Product;
    if !v.Finite? || v.value < 0.0 {
    } else if v.value <= MAX_CPU {
      AcceptedCpuFits(v.value);
      RoundBelowEdge(Product(v.value, 1_000_000_000.0));
    } else {
      RejectedCpuSaturates(v.value);
    }
  }

  /** The memory validator accepts a sample exactly when it is a non-negative number whose bytes fit an int64. */
  lemma MemoryLineIsExact(v: Float)
    requires IsSample(v)
    ensures ValidMemorySample(v) <==> v.Finite? && v.value >= 0.0 && RoundHalfAway(v.value) < 0x8000_0000_0000_0000
  {
    if v.Finite? && v.value >= 0.0 {
      RoundBelowEdge(v.value);
      if v.value < EDGE {
        NothingBelowEdge(v.value);
      }
    }
  }

  // ----- Conversions of accepted readings ------------------------------------------------

  /** A reading whose halves are usable samples. */
  ghost predicate Usable(r: Reading) {
    && IsBinary64(r.cpu) && 0.0 <= r.cpu <= MAX_CPU
    && IsBinary64(r.memory) && 0.0 <= r.memory <= MAX_MEMORY
  }

  ghost predicate SamplesAreBinary64(replies: Replies) {
    && (replies.cpu.Samples? ==> forall i :: 0 <= i < |replies.cpu.values| ==> IsSample(replies.cpu.values[i]))
    && (replies.memory.Samples? ==> forall i :: 0 <= i < |replies.memory.values| ==> IsSample(replies.memory.values[i]))
  }

  lemma AcceptedReadingIsUsable(q: Sources.Queries, replies: Replies)
    requires SamplesAreBinary64(replies) && QueryPair(q, replies).Ok?
    ensures Usable(QueryPair(q, replies).value)
  {
    AcceptedIff(q, replies);
    ZeroIsBinary64();
  }

  lemma ProductMonotone(x: real, y: real, k: real)
    requires 0.0 <= x <= y && k >= 0.0
    ensures Product(x, k) <= Product(y, k)
  {
    hide Nearest;
    assert x * k <= y * k;
    if InRange(y * k) {
      NearestMonotone(x * k, y * k);
    } else if InRange(x * k) {
      LimitIsBinary64();
      var limit := Scale(MAX_EXPONENT - 1 + PRECISION);
      NearestAtMost(x * k, limit);
    }
  }

  lemma LimitIsBinary64()
    ensures IsBinary64(Scale(MAX_EXPONENT - 1 + PRECISION))
  {
    hide Scale, TwoTo, Times;
    ScaleShift(MAX_EXPONENT, PRECISION - 1);
    HalfPrecision();
    assert MAX_EXPONENT - 1 + PRECISION == MAX_EXPONENT + (PRECISION - 1);
    assert Represents(TwoTo(PRECISION - 1), MAX_EXPONENT, Scale(MAX_EXPONENT - 1 + PRECISION));
  }

  /** Rounding does not jump over a representable bound. */
  lemma NearestAtMost(x: real, bound: real)
    requires InRange(x) && IsBinary64(bound) && x <= bound
    ensures Nearest(x) <= bound
  {
    hide Nearest;
    NearestIsNearest(x, bound);
    NearestIsBinary64(x);
    // A representable value above the bound would be farther away than the bound itself.
  }

  lemma MilliIsSmaller(v: real)
    requires IsBinary64(v) && 0.0 <= v <= MAX_CPU
    ensures IsBinary64(Product(v, 1000.0)) && Product(v, 1000.0) < EDGE
  {
    hide Nearest;
    EdgeInRange();
    LandmarksAreBinary64();
    var x := v * 1000.0;
    assert x <= MAX_MEMORY;
    NearestAtMost(x, MAX_MEMORY);
    NearestIsBinary64(x);
  }

  /** No conversion of an accepted reading saturates: all four are the rounded values themselves and non-negative. */
  lemma AcceptedReadingConverts(r: Reading)
    requires Usable(r)
    ensures PairOf(r.cpu, r.memory)
            == Pair(RoundHalfAway(Product(r.cpu, 1000.0)) * 1_000_000, RoundHalfAway(r.memory) * NANO)
    ensures MeasurementPairOf(r.cpu, r.memory)
            == Pair(RoundHalfAway(Product(r.cpu, 1_000_000_000.0)), RoundHalfAway(r.memory) * NANO)
    ensures 0 <= RoundHalfAway(Product(r.cpu, 1_000_000_000.0)) < TWO_TO_63
    ensures 0 <= RoundHalfAway(Product(r.cpu, 1000.0)) < TWO_TO_63 && 0 <= RoundHalfAway(r.memory) < TWO_TO_63
  {
    hide Product;
    AcceptedCpuFits(r.cpu);
    RoundBelowEdge(Product(r.cpu, 1_000_000_000.0));
    MilliIsSmaller(r.cpu);
    RoundBelowEdge(Product(r.cpu, 1000.0));
    MemoryLineIsExact(Finite(r.memory));
  }

  /** `s` is the binary64 value nearest to `x`. */
  ghost predicate NearestTo(s: real, x: real) {
    IsBinary64(s) && forall y :: IsBinary64(y) ==> Abs(x - s) <= Abs(x - y)
  }

  /** `n` is `x` rounded to a whole number, halves up. */
  predicate RoundsTo(x: real, n: int) {
    -0.5 < n as real - x <= 0.5
  }

  /** CPU in whole nanocores, memory in whole bytes: what a status says of a reading. */
  ghost predicate Shows(r: Reading, measured: Pair) {
    exists nano: real ::
      && NearestTo(nano, r.cpu * 1_000_000_000.0) && RoundsTo(nano, measured.cpu)
      && measured.memory % 1_000_000_000 == 0 && RoundsTo(r.memory, measured.memory / 1_000_000_000)
  }

  /** CPU in whole millicores, memory in whole bytes: what a reading calls for. */
  ghost predicate CallsFor(r: Reading, reservation: Pair) {
    exists milli: real ::
      && NearestTo(milli, r.cpu * 1000.0)
      && reservation.cpu % 1_000_000 == 0 && RoundsTo(milli, reservation.cpu / 1_000_000)
      && reservation.memory % 1_000_000_000 == 0 && RoundsTo(r.memory, reservation.memory / 1_000_000_000)
  }

  lemma ProductIsNearest(x: real, k: real)
    requires x >= 0.0 && k >= 0.0 && InRange(x * k)
    ensures NearestTo(Product(x, k), x * k)
  {
    hide Nearest;
    NearestIsBinary64(x * k);
    forall y | IsBinary64(y)
      ensures Abs(x * k - Product(x, k)) <= Abs(x * k - y)
    {
      NearestIsNearest(x * k, y);
    }
  }

  lemma UsableInRange(r: Reading)
    requires Usable(r)
    ensures InRange(r.cpu * 1000.0) && InRange(r.cpu * 1_000_000_000.0)
  {
    EdgeInRange();
    hide Scale;
    assert r.cpu * 1_000_000_000.0 <= 9223372036854774475.2;
  }

  /**
   * The two conversions of a usable reading: the binary64 product with the scale, rounded to whole millicores for the
   * reservation and to whole nanocores for the status, and memory rounded to whole bytes, halves up.
   */
  lemma ConversionIsClose(r: Reading)
    requires Usable(r)
    ensures CallsFor(r, PairOf(r.cpu, r.memory)) && Shows(r, MeasurementPairOf(r.cpu, r.memory))
  {
    hide Product, PairOf, MeasurementPairOf, NearestTo, RoundsTo, RoundHalfAway;
    AcceptedReadingConverts(r);
    UsableInRange(r);
    ProductIsNearest(r.cpu, 1000.0);
    ProductIsNearest(r.cpu, 1_000_000_000.0);
    RoundHalfAwayRounds(Product(r.cpu, 1000.0));
    RoundHalfAwayRounds(Product(r.cpu, 1_000_000_000.0));
    RoundHalfAwayRounds(r.memory);
    assert RoundsTo(Product(r.cpu, 1_000_000_000.0), MeasurementPairOf(r.cpu, r.memory).cpu);
    assert RoundsTo(Product(r.cpu, 1000.0), PairOf(r.cpu, r.memory).cpu / 1_000_000);
  }

  lemma RoundHalfAwayRounds(x: real)
    requires x >= 0.0
    ensures RoundsTo(x, RoundHalfAway(x))
  {
  }

  /** Nothing measured is nothing reserved. */
  lemma ZeroRounds()
    ensures Product(0.0, 1000.0) == 0.0 && RoundToInt64(0.0) == 0
  {
    hide Nearest;
    EdgeInRange();
    ZeroIsBinary64();
    assert 0.0 * 1000.0 == 0.0;
    NearestFixesBinary64(0.0);
  }

  lemma RoundMonotone(v: real, w: real)
    requires 0.0 <= v <= w
    ensures RoundHalfAway(v) <= RoundHalfAway(w)
  {
  }

  /** A larger reading never converts to a smaller pair. */
  lemma PairOfMonotone(r: Reading, s: Reading)
    requires Usable(r) && Usable(s) && r.cpu <= s.cpu && r.memory <= s.memory
    ensures AtMost(PairOf(r.cpu, r.memory), PairOf(s.cpu, s.memory))
  {
    hide Product, PairOf, MeasurementPairOf, RoundHalfAway;
    AcceptedReadingConverts(r);
    AcceptedReadingConverts(s);
    ProductMonotone(r.cpu, s.cpu, 1000.0);
    RoundMonotone(Product(r.cpu, 1000.0), Product(s.cpu, 1000.0));
    RoundMonotone(r.memory, s.memory);
  }
}
