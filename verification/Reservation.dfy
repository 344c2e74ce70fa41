/** How the reservation follows its measurements: bounds, hysteresis, and how often it can move. */
module Reservation {
  import opened Api
  import opened Shadow
  import opened Backend
  import Saturation

  predicate Within(p: Pair, floor: Pair, ceiling: Pair) {
    && floor.cpu <= p.cpu <= ceiling.cpu
    && floor.memory <= p.memory <= ceiling.memory
  }

  predicate Ordered(floor: Pair, ceiling: Pair) {
    floor.cpu <= ceiling.cpu && floor.memory <= ceiling.memory
  }

  function Distance(a: Quantity, b: Quantity): nat {
    if a < b then b - a else a - b
  }

  /**
   * Clamping lands inside ordered bounds, in each dimension as close as anything inside them comes, keeps what already
   * is inside, and keeps order.  Where the bounds cross, the ceiling wins.
   */
  lemma ClampMeaning(p: Pair, q: Pair, floor: Pair, ceiling: Pair)
    requires Ordered(floor, ceiling)
    ensures Within(Clamp(p, floor, ceiling), floor, ceiling)
    ensures Clamp(p, floor, ceiling) == p <==> Within(p, floor, ceiling)
    ensures Within(q, floor, ceiling)
            ==> && Distance(p.cpu, Clamp(p, floor, ceiling).cpu) <= Distance(p.cpu, q.cpu)
                && Distance(p.memory, Clamp(p, floor, ceiling).memory) <= Distance(p.memory, q.memory)
    ensures AtMost(p, q) ==> AtMost(Clamp(p, floor, ceiling), Clamp(q, floor, ceiling))
  {
  }

  lemma CeilingWins(p: Pair, floor: Pair, ceiling: Pair)
    ensures floor.cpu > ceiling.cpu ==> Clamp(p, floor, ceiling).cpu == ceiling.cpu
    ensures floor.memory > ceiling.memory ==> Clamp(p, floor, ceiling).memory == ceiling.memory
  {
  }

  /** A reservation that equals the desire is never moved, whatever the threshold. */
  lemma RepeatNeverFires(p: Pair, threshold: int)
    requires threshold >= 0 && p.cpu >= 0 && p.memory >= 0
    ensures !DriftExceeds(p, p, threshold)
  {
  }

  /** A negative amount counts as none. */
  function Amount(q: Quantity): nat {
    if q < 0 then 0 else q
  }

  /** The desire lies within t percent of the reservation, on either side. */
  predicate Close(current: Quantity, desired: Quantity, t: int) {
    var c, d := Amount(current), Amount(desired);
    -(t * c) <= 100 * (d - c) <= t * c
  }

  predicate CloseTo(current: Pair, desired: Pair, t: int) {
    Close(current.cpu, desired.cpu, t) && Close(current.memory, desired.memory, t)
  }

  /**
   * Drift fires exactly outside the band of t percent on either side of the reservation, in either dimension.  The band
   * around an empty reservation is empty but for zero itself.
   */
  lemma DriftBand(current: Pair, desired: Pair, threshold: int)
    ensures DriftExceeds(current, desired, threshold) <==> !CloseTo(current, desired, threshold)
    ensures current.cpu == 0 && desired.cpu > 0 ==> DriftExceeds(current, desired, threshold)
    ensures current.memory == 0 && desired.memory > 0 ==> DriftExceeds(current, desired, threshold)
  {
  }

  // ----- Tracking a run of desires --------------------------------------------------------

  /** One healthy pass with its resize accepted. */
  function Track(current: Pair, desired: Pair, threshold: int): Pair {
    if DriftExceeds(current, desired, threshold) then desired else current
  }

  /** The reservation after a run of passes. */
  function Final(current: Pair, desires: seq<Pair>, threshold: int): Pair
    decreases |desires|
  {
    if desires == [] then current
    else Final(Track(current, desires[0], threshold), desires[1..], threshold)
  }

  /** How many of those passes resized. */
  function Resizes(current: Pair, desires: seq<Pair>, threshold: int): nat
    decreases |desires|
  {
    if desires == [] then 0
    else
      (if DriftExceeds(current, desires[0], threshold) then 1 else 0)
      + Resizes(Track(current, desires[0], threshold), desires[1..], threshold)
  }

  function Pow(b: nat, n: nat): nat {
    if n == 0 then 1 else b * Pow(b, n - 1)
  }

  /** Each desire at least the previous one, the first at least the reservation. */
  predicate Climbs(current: Pair, desires: seq<Pair>)
    decreases desires
  {
    desires == [] || (AtMost(current, desires[0]) && Climbs(desires[0], desires[1..]))
  }

  lemma ClimbsFromBelow(low: Pair, high: Pair, desires: seq<Pair>)
    requires AtMost(low, high) && Climbs(high, desires)
    ensures Climbs(low, desires)
  {
  }

  /** CPU times memory. */
  function Area(p: Pair): int {
    p.cpu * p.memory
  }

  /** A resize of a growing reservation multiplies its cpu-memory area by more than 1 + t/100. */
  lemma ResizeGrowsArea(c: Pair, d: Pair, t: nat)
    requires AtMost(c, d) && c.cpu > 0 && c.memory > 0 && DriftExceeds(c, d, t)
    ensures (100 + t) * Area(c) <= 100 * Area(d)
  {
    if Drift(c.cpu, d.cpu, t) {
      AreaStep(c.cpu, d.cpu, c.memory, d.memory, t);
    } else {
      AreaStep(c.memory, d.memory, c.cpu, d.cpu, t);
      assert c.cpu * c.memory == c.memory * c.cpu && d.cpu * d.memory == d.memory * d.cpu;
    }
  }

  lemma AreaStep(c: int, d: int, m: int, n: int, t: nat)
    requires 0 < c && 0 < m <= n && (100 + t) * c <= 100 * d
    ensures (100 + t) * (c * m) <= 100 * (d * n)
  {
    MulOrder((100 + t) * c, 100 * d, m);
    assert (100 + t) * (c * m) == (100 + t) * c * m;
    assert 0 <= d;
    MulOrder(m, n, 100 * d);
    assert 100 * d * m == m * (100 * d) && 100 * (d * n) == n * (100 * d);
  }

  lemma MulOrder(a: int, b: int, k: int)
    requires a <= b && k >= 0
    ensures a * k <= b * k
  {
  }

  /** Chaining one growth step with the growth of the rest of the run. */
  lemma ChainGrowth(t: nat, k: nat, area: int, mid: int, end: int)
    requires (100 + t) * area <= 100 * mid
    requires Pow(100 + t, k) * mid <= Pow(100, k) * end
    ensures Pow(100 + t, k + 1) * area <= Pow(100, k + 1) * end
  {
    var p, q := Pow(100 + t, k), Pow(100, k);
    MulOrder((100 + t) * area, 100 * mid, p);
    assert Pow(100 + t, k + 1) * area == (100 + t) * area * p;
    assert 100 * mid * p == 100 * (p * mid);
    assert Pow(100, k + 1) * end == 100 * (q * end);
  }

  /** k resizes of a climbing run grow the area by at least (1 + t/100)^k. */
  lemma {:induction false} RunGrowsArea(current: Pair, desires: seq<Pair>, t: nat)
    requires current.cpu > 0 && current.memory > 0 && Climbs(current, desires)
    ensures AtMost(current, Final(current, desires, t))
    ensures Pow(100 + t, Resizes(current, desires, t)) * Area(current)
            <= Pow(100, Resizes(current, desires, t)) * Area(Final(current, desires, t))
    decreases |desires|
  {
    hide Area;
    if desires != [] {
      var next := Track(current, desires[0], t);
      ClimbsFromBelow(next, desires[0], desires[1..]);
      RunGrowsArea(next, desires[1..], t);
      if DriftExceeds(current, desires[0], t) {
        ResizeGrowsArea(current, desires[0], t);
        ChainGrowth(t, Resizes(next, desires[1..], t), Area(current), Area(next), Area(Final(current, desires, t)));
      }
    }
  }

  // ----- The bound over measurements ------------------------------------------------------

  function Desires(readings: seq<Reading>, floor: Pair, ceiling: Pair): seq<Pair> {
    if readings == [] then []
    else [Clamp(PairOf(readings[0].cpu, readings[0].memory), floor, ceiling)] + Desires(readings[1..], floor, ceiling)
  }

  ghost predicate Growing(readings: seq<Reading>) {
    && (forall i :: 0 <= i < |readings| ==> Saturation.Usable(readings[i]))
    && (forall i, j :: 0 <= i < j < |readings|
          ==> readings[i].cpu <= readings[j].cpu && readings[i].memory <= readings[j].memory)
  }

  lemma {:induction false} GrowingReadingsClimb(readings: seq<Reading>, floor: Pair, ceiling: Pair)
    requires Growing(readings) && readings != [] && Ordered(floor, ceiling)
    ensures var ds := Desires(readings, floor, ceiling);
            && |ds| == |readings| && Climbs(ds[0], ds[1..])
            && (forall i :: 0 <= i < |ds| ==> Within(ds[i], floor, ceiling))
  {
    hide PairOf, Clamp;
    var ds := Desires(readings, floor, ceiling);
    var r := readings[0];
    ClampMeaning(PairOf(r.cpu, r.memory), PairOf(r.cpu, r.memory), floor, ceiling);
    assert ds[1..] == Desires(readings[1..], floor, ceiling);
    if |readings| > 1 {
      var s := readings[1];
      assert readings[1..][0] == s;
      Saturation.PairOfMonotone(r, s);
      ClampMeaning(PairOf(r.cpu, r.memory), PairOf(s.cpu, s.memory), floor, ceiling);
      GrowingReadingsClimb(readings[1..], floor, ceiling);
      assert forall i :: 1 <= i < |ds| ==> ds[i] == ds[1..][i - 1];
    }
  }

  lemma {:induction false} FinalStaysWithin(current: Pair, desires: seq<Pair>, t: int, floor: Pair, ceiling: Pair)
    requires Within(current, floor, ceiling)
    requires forall i :: 0 <= i < |desires| ==> Within(desires[i], floor, ceiling)
    ensures Within(Final(current, desires, t), floor, ceiling)
    decreases |desires|
  {
    if desires != [] {
      FinalStaysWithin(Track(current, desires[0], t), desires[1..], t, floor, ceiling);
    }
  }

  lemma AreaOrder(a: Pair, b: Pair)
    requires 0 < a.cpu && 0 < a.memory && AtMost(a, b)
    ensures Area(a) <= Area(b)
  {
    MulOrder(a.cpu, b.cpu, a.memory);
    MulOrder(a.memory, b.memory, b.cpu);
    assert a.memory * b.cpu == b.cpu * a.memory && b.memory * b.cpu == b.cpu * b.memory;
  }

  /**
   * Amortised bound.  A phantom created for the first reading and then led by growing readings through
   * fixed bounds with positive floors is resized k times only if (1 + t/100)^k times the floor area
   * still fits under the ceiling area.
   */
  lemma AmortisedResizes(readings: seq<Reading>, floor: Pair, ceiling: Pair, t: nat)
    requires Growing(readings) && readings != []
    requires Ordered(floor, ceiling) && floor.cpu > 0 && floor.memory > 0
    ensures var ds := Desires(readings, floor, ceiling);
            var k := Resizes(ds[0], ds[1..], t);
            Pow(100 + t, k) * Area(floor) <= Pow(100, k) * Area(ceiling)
  {
    hide Area;
    var ds := Desires(readings, floor, ceiling);
    GrowingReadingsClimb(readings, floor, ceiling);
    var k := Resizes(ds[0], ds[1..], t);
    var end := Final(ds[0], ds[1..], t);
    RunGrowsArea(ds[0], ds[1..], t);
    FinalStaysWithin(ds[0], ds[1..], t, floor, ceiling);
    AreaOrder(floor, ds[0]);
    AreaOrder(end, ceiling);
    PowScaled(100 + t, k, Area(floor), Area(ds[0]));
    PowScaled(100, k, Area(end), Area(ceiling));
  }

  lemma PowScaled(b: nat, k: nat, a: int, c: int)
    requires a <= c
    ensures Pow(b, k) * a <= Pow(b, k) * c
  {
    var p := Pow(b, k);
    MulOrder(a, c, p);
    assert a * p == p * a && c * p == p * c;
  }
}
