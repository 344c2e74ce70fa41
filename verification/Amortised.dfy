/** How often a phantom can be resized in one life, over any legal run. */
module Amortised {
  import opened Wrappers
  import opened Api
  import opened Shadow
  import opened Backend
  import opened Protocol
  import opened Reservation
  import Safety
  import Saturation

  // ----- A stretch of a log ------------------------------------------------------------------

  /** From event i to event j nothing but resizes touches the phantom. */
  predicate OnePhantom(log: seq<Event>, i: nat, j: nat) {
    forall k :: i <= k < j && k < |log| ==>
      && !log[k].Created? && !log[k].Deleted?
      && (log[k].Environment? ==> !TouchesPod(log[k].step))
  }

  /** Every pass of the run read the same update policy. */
  predicate FixedPolicy(log: seq<Event>, floor: Pair, ceiling: Pair, threshold: int) {
    forall k :: 0 <= k < |log| && log[k].Began? ==>
      var update := log[k].sw.spec.update;
      update.floor == floor && update.ceiling == ceiling && update.threshold == threshold
  }

  /** The resizes from event i to event j. */
  function ResizesBetween(log: seq<Event>, i: nat, j: nat): nat
    requires i <= j <= |log|
    decreases j
  {
    if i == j then 0 else ResizesBetween(log, i, j - 1) + (if log[j - 1].Resized? then 1 else 0)
  }

  /** The reservation at the phantom key; zero when there is no pod. */
  function Held(w: World): Pair {
    if w.revisions != [] && Live(w).Some? then CurrentPairOf(Live(w).value) else Pair(0, 0)
  }

  /** What the pass at event k steers towards. */
  ghost function GoalAt(m: Manager, log: seq<Event>, k: nat): Pair
    requires k <= |log|
  {
    var p := PassAt(m, log[..k]);
    if p.Busy? then Desired(p.sw, p.outcome) else Pair(0, 0)
  }

  /** Every resize of the stretch goes up in both dimensions. */
  ghost predicate Climbing(m: Manager, start: World, log: seq<Event>, i: nat, j: nat)
    requires start.revisions != [] && j <= |log|
  {
    forall k :: i <= k < j && log[k].Resized? ==> AtMost(Held(WorldAt(start, log[..k])), GoalAt(m, log, k))
  }

  // ----- One step ----------------------------------------------------------------------------

  /** A resize goes from the live reservation to the pass's goal, and only on drift. */
  lemma ResizeMoves(m: Manager, w: World, p: Pass, e: Event)
    requires Sound(w) && Safety.Remembers(w, p) && Accepts(w, e) && Rule(p, e) && e.Resized?
    ensures p.Busy? && w.revisions != [] && Live(w).Some?
    ensures DriftExceeds(Held(w), Desired(p.sw, p.outcome), p.sw.spec.update.threshold)
    ensures Held(Apply(w, e)) == Desired(p.sw, p.outcome) && Live(Apply(w, e)).Some?
    ensures Within(Desired(p.sw, p.outcome), p.sw.spec.update.floor, p.sw.spec.update.ceiling)
  {
    Safety.SoundHasHistory(w);
    Safety.WriteHitsOwned(m, w, p, e);
    Safety.WritesGoal(w, p, e);
    Safety.PassIsAdmitted(w, p);
    Safety.DesiredIsBounded(p.sw, p.outcome);
    ExactPodsReadBack(e.pod, Desired(p.sw, p.outcome));
    hide Sound, Safety.Remembers, Desired, DriftExceeds, CurrentPairOf;
  }

  lemma OthersLeaveIt(w: World, e: Event)
    requires w.revisions != [] && !(e.Created? || e.Deleted? || e.Resized?)
    requires e.Environment? ==> !TouchesPod(e.step)
    ensures Apply(w, e).revisions == w.revisions
  {
    Safety.QuietStepKeepsPod(w, e);
  }

  /** The threshold and bounds a pass works with are those every pass read. */
  lemma PolicyOfPass(m: Manager, start: World, log: seq<Event>, k: nat, floor: Pair, ceiling: Pair, threshold: int)
    requires start.revisions != [] && Legal(m, start, log) && k <= |log| && FixedPolicy(log, floor, ceiling, threshold)
    ensures var p := PassAt(m, log[..k]);
            p.Busy? ==> && p.sw.spec.update.floor == floor && p.sw.spec.update.ceiling == ceiling
                        && p.sw.spec.update.threshold == threshold
  {
    hide Legal;
    if PassAt(m, log[..k]).Busy? {
      var b := Safety.PassBegan(m, start, log, k);
      assert log[b].Began?;
    }
  }

  lemma Rotate(x: int, y: int, z: int)
    ensures x * y * z == (z * x) * y
  {
  }

  lemma Compose(p: nat, q: nat, b: nat, area: int, mid: int, end: int)
    requires p * area <= q * mid && b * mid <= 100 * end
    ensures (b * p) * area <= (100 * q) * end
  {
    MulOrder(p * area, q * mid, b);
    MulOrder(b * mid, 100 * end, q);
    Rotate(p, area, b);
    Rotate(q, mid, b);
    Rotate(b, mid, q);
    Rotate(100, end, q);
  }

  /** Chaining the growth so far with one more step. */
  lemma ChainEnd(t: nat, k: nat, area: int, mid: int, end: int)
    requires Pow(100 + t, k) * area <= Pow(100, k) * mid && (100 + t) * mid <= 100 * end
    ensures Pow(100 + t, k + 1) * area <= Pow(100, k + 1) * end
  {
    Compose(Pow(100 + t, k), Pow(100, k), 100 + t, area, mid, end);
  }

  // ----- Whole runs --------------------------------------------------------------------------

  /** k resizes of a climbing stretch grow the live reservation's area by at least (1 + t/100)^k. */
  lemma {:induction false} LifeGrowsArea(m: Manager, start: World, log: seq<Event>, i: nat, j: nat,
                                         floor: Pair, ceiling: Pair, t: nat)
    requires Sound(start) && start.revisions != [] && Legal(m, start, log) && i <= j <= |log|
    requires OnePhantom(log, i, j) && FixedPolicy(log, floor, ceiling, t) && Climbing(m, start, log, i, j)
    requires var w := WorldAt(start, log[..i]);
             Live(w).Some? && Within(Held(w), floor, ceiling) && floor.cpu > 0 && floor.memory > 0
    ensures var now, k := Held(WorldAt(start, log[..j])), ResizesBetween(log, i, j);
            && Live(WorldAt(start, log[..j])).Some? && Within(now, floor, ceiling)
            && Pow(100 + t, k) * Area(Held(WorldAt(start, log[..i]))) <= Pow(100, k) * Area(now)
    decreases j
  {
    hide Sound, Legal, WorldAt, PassAt, Accepts, Rule, Apply, Safety.Remembers, Desired, DriftExceeds, Area;
    hide FixedPolicy;
    if i < j {
      var w, p, e := WorldAt(start, log[..j - 1]), PassAt(m, log[..j - 1]), log[j - 1];
      LifeGrowsArea(m, start, log, i, j - 1, floor, ceiling, t);
      Safety.RunInvariant(m, start, log, j - 1);
      Safety.Prefix(m, start, log, j - 1);
      Safety.Advance(m, start, log, j - 1);
      if e.Resized? {
        ResizeMoves(m, w, p, e);
        PolicyOfPass(m, start, log, j - 1, floor, ceiling, t);
        ResizeGrowsArea(Held(w), Desired(p.sw, p.outcome), t);
        ChainEnd(t, ResizesBetween(log, i, j - 1), Area(Held(WorldAt(start, log[..i]))), Area(Held(w)),
                 Area(Desired(p.sw, p.outcome)));
      } else {
        OthersLeaveIt(w, e);
      }
    }
  }

  /**
   * Amortised bound over runs.  In any stretch of any legal run in which one phantom lives under one update policy with
   * positive floors and every resize goes up, k resizes are made only if (1 + t/100)^k times the floor area fits under
   * the ceiling area, however many passes the stretch holds and whatever else happens in it.
   */
  lemma ResizesAreAmortised(m: Manager, start: World, log: seq<Event>, i: nat, j: nat,
                            floor: Pair, ceiling: Pair, t: nat)
    requires Sound(start) && start.revisions != [] && Legal(m, start, log) && i <= j <= |log|
    requires OnePhantom(log, i, j) && FixedPolicy(log, floor, ceiling, t) && Climbing(m, start, log, i, j)
    requires var w := WorldAt(start, log[..i]);
             Live(w).Some? && Within(Held(w), floor, ceiling) && floor.cpu > 0 && floor.memory > 0
    ensures var k := ResizesBetween(log, i, j);
            Pow(100 + t, k) * Area(floor) <= Pow(100, k) * Area(ceiling)
  {
    hide Sound, Legal, WorldAt, Area, Held, OnePhantom, FixedPolicy, Climbing, Pow;
    var k := ResizesBetween(log, i, j);
    var first, last := Held(WorldAt(start, log[..i])), Held(WorldAt(start, log[..j]));
    LifeGrowsArea(m, start, log, i, j, floor, ceiling, t);
    AreaOrder(floor, first);
    AreaOrder(last, ceiling);
    PowScaled(100 + t, k, Area(floor), Area(first));
    PowScaled(100, k, Area(last), Area(ceiling));
  }

  // ----- Growing measurements ------------------------------------------------------------------

  /** The reading a write is based on; a create without a measurement starts from zero. */
  ghost function ReadingAt(m: Manager, log: seq<Event>, k: nat): Reading
    requires k <= |log|
  {
    var p := PassAt(m, log[..k]);
    if p.Busy? && p.outcome.Taken? then p.outcome.reading else Reading(0.0, 0.0, false)
  }

  predicate Writes(e: Event) {
    e.Created? || e.Resized?
  }

  /** From the create at event i on, each write is based on a reading at least that of every earlier one. */
  ghost predicate ReadingsGrow(m: Manager, log: seq<Event>, i: nat, j: nat)
    requires j <= |log|
  {
    && (forall k :: i <= k < j && Writes(log[k]) ==> Saturation.Usable(ReadingAt(m, log, k)))
    && (forall a, b :: i <= a < b < j && Writes(log[a]) && Writes(log[b]) ==>
          && ReadingAt(m, log, a).cpu <= ReadingAt(m, log, b).cpu
          && ReadingAt(m, log, a).memory <= ReadingAt(m, log, b).memory)
  }

  lemma GoalFollowsReading(m: Manager, log: seq<Event>, a: nat, b: nat, floor: Pair, ceiling: Pair)
    requires a <= |log| && b <= |log| && PassAt(m, log[..a]).Busy? && PassAt(m, log[..b]).Busy?
    requires PassAt(m, log[..a]).sw.spec.update.floor == floor == PassAt(m, log[..b]).sw.spec.update.floor
    requires PassAt(m, log[..a]).sw.spec.update.ceiling == ceiling == PassAt(m, log[..b]).sw.spec.update.ceiling
    requires Ordered(floor, ceiling)
    requires Saturation.Usable(ReadingAt(m, log, a)) && Saturation.Usable(ReadingAt(m, log, b))
    requires ReadingAt(m, log, a).cpu <= ReadingAt(m, log, b).cpu
    requires ReadingAt(m, log, a).memory <= ReadingAt(m, log, b).memory
    ensures AtMost(GoalAt(m, log, a), GoalAt(m, log, b))
  {
    hide PassAt, PairOf, Clamp, Saturation.Usable;
    var r, s := ReadingAt(m, log, a), ReadingAt(m, log, b);
    Saturation.PairOfMonotone(r, s);
    ClampMeaning(PairOf(r.cpu, r.memory), PairOf(s.cpu, s.memory), floor, ceiling);
  }

  /** The live reservation is what the last write steered towards. */
  lemma {:induction false} LastGoal(m: Manager, start: World, log: seq<Event>, i: nat, j: nat) returns (a: nat)
    requires Sound(start) && start.revisions != [] && Legal(m, start, log) && i < j <= |log|
    requires log[i].Created? && OnePhantom(log, i + 1, j)
    ensures i <= a < j && Writes(log[a]) && PassAt(m, log[..a]).Busy?
    ensures Live(WorldAt(start, log[..j])).Some? && Held(WorldAt(start, log[..j])) == GoalAt(m, log, a)
    decreases j
  {
    hide Sound, Legal, WorldAt, PassAt, Accepts, Rule, Apply, Safety.Remembers, Desired, DriftExceeds, CurrentPairOf;
    var w, p, e := WorldAt(start, log[..j - 1]), PassAt(m, log[..j - 1]), log[j - 1];
    Safety.RunInvariant(m, start, log, j - 1);
    Safety.Prefix(m, start, log, j - 1);
    Safety.Advance(m, start, log, j - 1);
    a := j - 1;
    if i == j - 1 {
      CreateSets(w, p, e);
    } else if e.Resized? {
      ResizeMoves(m, w, p, e);
    } else {
      a := LastGoal(m, start, log, i, j - 1);
      OthersLeaveIt(w, e);
    }
  }

  lemma CreateSets(w: World, p: Pass, e: Event)
    requires w.revisions != [] && Accepts(w, e) && Rule(p, e) && e.Created?
    ensures p.Busy? && Live(Apply(w, e)).Some? && Held(Apply(w, e)) == Desired(p.sw, p.outcome)
  {
    Safety.WritesGoal(w, p, e);
    ExactPodsReadBack(e.pod, Desired(p.sw, p.outcome));
    hide Desired, CurrentPairOf;
  }

  /** Growing readings make every resize go up. */
  lemma GrowingReadingsClimb(m: Manager, start: World, log: seq<Event>, i: nat, j: nat,
                             floor: Pair, ceiling: Pair, t: nat)
    requires Sound(start) && start.revisions != [] && Legal(m, start, log) && i < j <= |log|
    requires log[i].Created? && OnePhantom(log, i + 1, j)
    requires FixedPolicy(log, floor, ceiling, t) && Ordered(floor, ceiling)
    requires ReadingsGrow(m, log, i, j)
    ensures Climbing(m, start, log, i + 1, j)
  {
    hide Sound, Legal, WorldAt, PassAt, Held, GoalAt, ReadingAt, FixedPolicy, Saturation.Usable;
    forall k | i + 1 <= k < j && log[k].Resized?
      ensures AtMost(Held(WorldAt(start, log[..k])), GoalAt(m, log, k))
    {
      var a := LastGoal(m, start, log, i, k);
      ResizerIsBusy(m, start, log, k);
      PolicyOfPass(m, start, log, a, floor, ceiling, t);
      PolicyOfPass(m, start, log, k, floor, ceiling, t);
      GoalFollowsReading(m, log, a, k, floor, ceiling);
    }
  }

  lemma ResizerIsBusy(m: Manager, start: World, log: seq<Event>, k: nat)
    requires start.revisions != [] && Legal(m, start, log) && k < |log| && log[k].Resized?
    ensures PassAt(m, log[..k]).Busy?
  {
    Safety.Prefix(m, start, log, k);
    hide Legal, PassAt, Accepts, WorldAt;
  }

  /**
   * The same bound told from the measurements: a phantom created at event i and then led by growing readings is resized
   * k times by event j only if (1 + t/100)^k times the floor area fits under the ceiling area.
   */
  lemma GrowingReadingsAreAmortised(m: Manager, start: World, log: seq<Event>, i: nat, j: nat,
                                    floor: Pair, ceiling: Pair, t: nat)
    requires Sound(start) && start.revisions != [] && Legal(m, start, log) && i < j <= |log|
    requires log[i].Created? && OnePhantom(log, i + 1, j) && FixedPolicy(log, floor, ceiling, t)
    requires Ordered(floor, ceiling) && floor.cpu > 0 && floor.memory > 0
    requires ReadingsGrow(m, log, i, j)
    ensures var k := ResizesBetween(log, i + 1, j);
            Pow(100 + t, k) * Area(floor) <= Pow(100, k) * Area(ceiling)
  {
    hide Sound, Legal, WorldAt, PassAt, Held, FixedPolicy, ReadingsGrow, OnePhantom, Pow, Area, Climbing;
    GrowingReadingsClimb(m, start, log, i, j, floor, ceiling, t);
    CreatedWithin(m, start, log, i, floor, ceiling, t);
    ResizesAreAmortised(m, start, log, i + 1, j, floor, ceiling, t);
  }

  lemma CreatedWithin(m: Manager, start: World, log: seq<Event>, i: nat, floor: Pair, ceiling: Pair, t: nat)
    requires Sound(start) && start.revisions != [] && Legal(m, start, log) && i < |log| && log[i].Created?
    requires FixedPolicy(log, floor, ceiling, t)
    ensures var w := WorldAt(start, log[..i + 1]);
            Live(w).Some? && Within(Held(w), floor, ceiling)
  {
    hide Sound, Legal, WorldAt, PassAt, Accepts, Rule, Apply, Safety.Remembers, Desired, FixedPolicy, CurrentPairOf;
    var w, p, e := WorldAt(start, log[..i]), PassAt(m, log[..i]), log[i];
    Safety.RunInvariant(m, start, log, i);
    Safety.Prefix(m, start, log, i);
    Safety.Advance(m, start, log, i);
    CreateSets(w, p, e);
    PolicyOfPass(m, start, log, i, floor, ceiling, t);
    Safety.PassIsAdmitted(w, p);
    Safety.DesiredIsBounded(p.sw, p.outcome);
  }
}
