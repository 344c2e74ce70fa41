/**
 * Whole runs of the reconciler.  Every script of disturbances is finite, so every run reaches calm weather; from
 * there two passes settle the phantom, and every later pass leaves it alone.
 */
module Convergence {
  import opened Wrappers
  import opened Api
  import opened Shadow
  import opened Backend
  import opened Protocol
  import opened ApiServer
  import opened Passes
  import opened Controller
  import Amortised
  import Metrics
  import Nodes
  import Reports
  import Reservation
  import Safety

  // ----- The measure -------------------------------------------------------------------------

  /** How many calm passes the phantom is away from steady. */
  function Rank(w: World, sw: Workload, desired: Pair): (r: nat)
    requires w.revisions != []
    ensures r <= 2
  {
    match Live(w)
    case None => 1
    case Some(pod) =>
      if !InPlace(pod, sw) then 2
      else if DriftExceeds(CurrentPairOf(pod), desired, sw.spec.update.threshold) then 1
      else 0
  }

  /** The key holds a phantom of this workload, labelled, correctly pinned and within threshold of the goal. */
  predicate Steady(w: World) {
    && w.cr.Some? && w.revisions != [] && Live(w).Some?
    && Reports.IsControlled(Live(w).value, w.cr.value)
    && Live(w).value.managed && Live(w).value.node == w.cr.value.spec.node
    && Reservation.CloseTo(CurrentPairOf(Live(w).value), Goal(w), w.cr.value.spec.update.threshold)
  }

  /** A calm step comes one closer while there is anything left to do, and is the identity exactly when there is not. */
  lemma CalmStepDescends(w: World, sw: Workload, outcome: Outcome)
    requires Sound(w) && w.revisions != [] && Admitted(sw.spec)
    ensures var desired := Desired(sw, outcome);
            && Rank(CalmStep(w, sw, desired), sw, desired)
               == (if Rank(w, sw, desired) == 0 then 0 else Rank(w, sw, desired) - 1)
            && (CalmStep(w, sw, desired) == w <==> Rank(w, sw, desired) == 0)
            && |CalmStep(w, sw, desired).revisions| == |w.revisions| + (if Rank(w, sw, desired) == 0 then 0 else 1)
  {
    var desired := Desired(sw, outcome);
    Safety.DesiredIsBounded(sw, outcome);
    hide Sound, Desired, DriftExceeds;
    var next := CalmStep(w, sw, desired);
    if Live(w).None? {
      ExactPodsReadBack(Live(next).value, desired);
    } else if InPlace(Live(w).value, sw)
              && DriftExceeds(CurrentPairOf(Live(w).value), desired, sw.spec.update.threshold) {
      LiveHasContainers(w);
      ExactPodsReadBack(Live(next).value, desired);
    }
  }

  lemma LiveHasContainers(w: World)
    requires Sound(w) && w.revisions != [] && Live(w).Some?
    ensures Live(w).value.containers != []
  {
  }

  // ----- One calm pass -------------------------------------------------------------------------

  /** How many calm passes this world is away from steady. */
  function Distance(w: World): (d: nat)
    requires w.cr.Some? && w.revisions != []
    ensures d <= 2
  {
    Rank(w, w.cr.value, Goal(w))
  }

  lemma GenerationIsAdmitted(w: World)
    requires Sound(w) && w.cr.Some?
    ensures Admitted(w.cr.value.spec) && w.revisions != []
  {
  }

  /** A hospitable world is steady exactly when there is nothing left to do. */
  lemma SteadyIff(m: Manager, w: World)
    requires Hospitable(m, w)
    ensures Steady(w) <==> Distance(w) == 0
  {
    hide Goal, DriftExceeds, CurrentPairOf, Measurable, Judge, GateOpens, Reservation.CloseTo;
    if Live(w).Some? {
      Reservation.DriftBand(CurrentPairOf(Live(w).value), Goal(w), w.cr.value.spec.update.threshold);
    }
  }

  /** A calm pass keeps the world hospitable and the goal fixed, and comes one closer. */
  lemma CalmPassDescends(m: Manager, before: World, after: World)
    requires Sound(before) && Hospitable(m, before) && Approaches(before, after)
    ensures Hospitable(m, after) && Goal(after) == Goal(before)
    ensures Distance(after) == if Distance(before) == 0 then 0 else Distance(before) - 1
    ensures Distance(before) == 0 ==> after.revisions == before.revisions
    ensures |after.revisions| == |before.revisions| + Distance(before) - Distance(after)
    ensures Distance(before) <= 1 ==> TellsTruth(after)
    ensures after == before.(cr := after.cr, revisions := after.revisions)
            && after.cr == Some(before.cr.value.(status := after.cr.value.status))
  {
    var sw := before.cr.value;
    var mid := CalmStep(before, sw, Goal(before));
    GenerationIsAdmitted(before);
    CalmStepDescends(before, sw, Judge(sw.spec, before.replies));
    CalmStepKeepsRest(before, sw, Goal(before));
    StatusIsNoMatter(m, mid, after.cr.value.status);
    hide Sound, Desired, Measurable, Judge, GateOpens, Rank, CalmStep, Owned;
  }

  /** The way back to steady does not depend on what the status says. */
  lemma StatusIsNoMatter(m: Manager, w: World, status: Status)
    requires w.cr.Some? && w.revisions != []
    ensures var after := WithStatus(w, status);
            && Goal(after) == Goal(w) && Distance(after) == Distance(w) && (Hospitable(m, after) <==> Hospitable(m, w))
  {
    hide DriftExceeds, CurrentPairOf, Measurable, Judge, Nodes.EligibilityOf, PairOf, Clamp;
  }

  /** A calm step touches the phantom key only, and only ever with a pod of this workload. */
  lemma CalmStepKeepsRest(w: World, sw: Workload, desired: Pair)
    requires w.revisions != [] && (Live(w).None? || Owned(Live(w).value, sw))
    ensures var next := CalmStep(w, sw, desired);
            && next == w.(revisions := next.revisions) && next.revisions != []
            && (Live(next).None? || Owned(Live(next).value, sw))
  {
    hide DriftExceeds, CurrentPairOf, Reshape;
  }

  /** What `n` calm passes have made of a hospitable world. */
  ghost predicate Settles(m: Manager, first: World, n: nat, now: World) {
    && Hospitable(m, first) && Hospitable(m, now) && Goal(now) == Goal(first)
    && now == first.(cr := now.cr, revisions := now.revisions)
    && now.cr == Some(first.cr.value.(status := now.cr.value.status))
    && Distance(now) == (if Distance(first) <= n then 0 else Distance(first) - n)
    && |now.revisions| == |first.revisions| + Distance(first) - Distance(now)
    && (Distance(first) == 0 ==> now.revisions == first.revisions)
    && (n > 0 && Distance(first) <= n ==> TellsTruth(now))
  }

  lemma SettledByNone(m: Manager, w: World)
    requires Hospitable(m, w)
    ensures Settles(m, w, 0, w)
  {
    hide Distance, Goal, GateOpens, Measurable, Judge, Owned;
  }

  lemma SettledByOneMore(m: Manager, first: World, n: nat, before: World, after: World)
    requires Settles(m, first, n, before) && Sound(before) && Approaches(before, after)
    ensures Settles(m, first, n + 1, after) && Hospitable(m, after)
  {
    CalmPassDescends(m, before, after);
    hide Distance, Goal, GateOpens, Measurable, Judge, Owned, Sound, Approaches, TellsTruth;
  }

  lemma WorldIsSound(s: Server)
    requires s.Valid()
    ensures Sound(s.world)
  {
  }

  // ----- Following the backend ------------------------------------------------------------------

  /** One calm pass after each new set of backend answers. */
  function Follow(w: World, answers: seq<Replies>): World
    requires w.cr.Some? && w.revisions != []
    decreases |answers|
  {
    if answers == [] then w
    else
      var asked := w.(replies := answers[0]);
      Follow(CalmStep(asked, w.cr.value, Goal(asked)), answers[1..])
  }

  /** What the answers measure, each of them accepted. */
  predicate Measured(spec: Spec, answers: seq<Replies>, readings: seq<Reading>) {
    |answers| == |readings| && forall i :: 0 <= i < |answers| ==> Judge(spec, answers[i]) == Taken(readings[i])
  }

  /** Over a phantom at home a calm step is one step of the reservation arithmetic. */
  lemma CalmStepTracks(w: World, sw: Workload, desired: Pair)
    requires w.revisions != [] && Live(w).Some? && InPlace(Live(w).value, sw) && Live(w).value.containers != []
    ensures var next := CalmStep(w, sw, desired);
            && next.cr == w.cr && next.revisions != []
            && Live(next).Some? && InPlace(Live(next).value, sw) && Live(next).value.containers != []
            && CurrentPairOf(Live(next).value)
               == Reservation.Track(CurrentPairOf(Live(w).value), desired, sw.spec.update.threshold)
            && |next.revisions| == |w.revisions|
               + (if DriftExceeds(CurrentPairOf(Live(w).value), desired, sw.spec.update.threshold) then 1 else 0)
  {
    ReshapedHoldsExactly(Live(w).value, desired);
    hide DriftExceeds, CurrentPairOf, Reshape;
  }

  lemma {:induction false} FollowTracks(w: World, answers: seq<Replies>, readings: seq<Reading>)
    requires w.cr.Some? && w.revisions != [] && Live(w).Some?
    requires InPlace(Live(w).value, w.cr.value) && Live(w).value.containers != []
    requires Measured(w.cr.value.spec, answers, readings)
    ensures var update := w.cr.value.spec.update;
            var desires := Reservation.Desires(readings, update.floor, update.ceiling);
            |Follow(w, answers).revisions| == |w.revisions|
              + Reservation.Resizes(CurrentPairOf(Live(w).value), desires, update.threshold)
    decreases |answers|
  {
    hide Judge, CalmStep, CurrentPairOf, DriftExceeds, InPlace, PairOf, Clamp, Reservation.Track;
    if answers != [] {
      var sw, asked := w.cr.value, w.(replies := answers[0]);
      CalmStepTracks(asked, sw, Goal(asked));
      FollowTracks(CalmStep(asked, sw, Goal(asked)), answers[1..], readings[1..]);
      var desires := Reservation.Desires(readings, sw.spec.update.floor, sw.spec.update.ceiling);
      assert desires[1..] == Reservation.Desires(readings[1..], sw.spec.update.floor, sw.spec.update.ceiling);
    }
  }

  /** There is no phantom yet, and the answers measure readings that grow under bounds with positive floors. */
  ghost predicate GrowsFrom(w: World, answers: seq<Replies>, readings: seq<Reading>) {
    && w.cr.Some? && Admitted(w.cr.value.spec) && Vacant(w) && answers != []
    && Measured(w.cr.value.spec, answers, readings) && Reservation.Growing(readings)
    && w.cr.value.spec.update.floor.cpu > 0 && w.cr.value.spec.update.floor.memory > 0
  }

  /** One create and k resizes lie between, and (1 + t/100)^k times the floor area fits under the ceiling area. */
  predicate WritesAmortised(w: World, after: World) {
    && w.cr.Some? && w.cr.value.spec.update.threshold >= 0 && |after.revisions| > |w.revisions|
    && (var update := w.cr.value.spec.update;
        var k := |after.revisions| - |w.revisions| - 1;
        Reservation.Pow(100 + update.threshold, k) * Reservation.Area(update.floor)
        <= Reservation.Pow(100, k) * Reservation.Area(update.ceiling))
  }

  lemma AmortisedWrites(w: World, answers: seq<Replies>, readings: seq<Reading>)
    requires GrowsFrom(w, answers, readings)
    ensures WritesAmortised(w, Follow(w, answers))
  {
    hide Judge, CalmStep, CurrentPairOf, DriftExceeds, InPlace, PairOf, Clamp, Goal;
    hide Reservation.Area, Reservation.Growing, Reservation.Pow, Reservation.Resizes, Reservation.Desires;
    var sw, asked := w.cr.value, w.(replies := answers[0]);
    var update := sw.spec.update;
    CreatedForGoal(asked, sw, Goal(asked));
    FirstDesire(sw, asked, readings);
    FollowTracks(CalmStep(asked, sw, Goal(asked)), answers[1..], readings[1..]);
    Reservation.AmortisedResizes(readings, update.floor, update.ceiling, update.threshold);
  }

  lemma FirstDesire(sw: Workload, asked: World, readings: seq<Reading>)
    requires asked.cr == Some(sw) && readings != [] && Judge(sw.spec, asked.replies) == Taken(readings[0])
    ensures var floor, ceiling := sw.spec.update.floor, sw.spec.update.ceiling;
            var desires := Reservation.Desires(readings, floor, ceiling);
            && desires != [] && desires[0] == Goal(asked)
            && desires[1..] == Reservation.Desires(readings[1..], floor, ceiling)
  {
    hide Judge, PairOf, Clamp;
  }

  /** Where there was no phantom a calm step creates one at home, at exactly the goal. */
  lemma CreatedForGoal(w: World, sw: Workload, desired: Pair)
    requires w.revisions != [] && Live(w).None?
    ensures var next := CalmStep(w, sw, desired);
            && next.cr == w.cr && |next.revisions| == |w.revisions| + 1
            && Live(next).Some? && InPlace(Live(next).value, sw) && Live(next).value.containers != []
            && CurrentPairOf(Live(next).value) == desired
  {
  }

  // ----- The reconciler follows the backend ------------------------------------------------------

  /** The weather is hospitable under each of the answers. */
  ghost predicate HospitableUnder(m: Manager, w: World, answers: seq<Replies>) {
    forall i :: 0 <= i < |answers| ==> Hospitable(m, w.(replies := answers[i]))
  }

  /** The same world but for the status of the ShadowWorkload. */
  predicate SameButStatus(w: World, other: World) {
    w.cr.Some? && other.cr.Some? && other == WithStatus(w, other.cr.value.status)
  }

  lemma {:induction false} FollowOneMore(w: World, answers: seq<Replies>, i: nat)
    requires w.cr.Some? && w.revisions != [] && i < |answers|
    ensures var now := Follow(w, answers[..i]);
            var asked := now.(replies := answers[i]);
            && now.cr == w.cr && now.revisions != []
            && Follow(w, answers[..i + 1]) == CalmStep(asked, w.cr.value, Goal(asked))
    decreases i
  {
    hide CalmStep, Goal;
    var asked := w.(replies := answers[0]);
    var next := CalmStep(asked, w.cr.value, Goal(asked));
    StepKeepsRecord(asked, w.cr.value, Goal(asked));
    if i == 0 {
      assert answers[..0] == [] && answers[..1][1..] == [] && answers[..1][0] == answers[0];
      assert Follow(next, []) == next;
    } else {
      var rest := answers[1..];
      FollowOneMore(next, rest, i - 1);
      assert answers[..i][1..] == rest[..i - 1] && answers[..i + 1][1..] == rest[..i];
    }
  }

  lemma StepKeepsRecord(w: World, sw: Workload, desired: Pair)
    requires w.revisions != []
    ensures var next := CalmStep(w, sw, desired);
            next == w.(revisions := next.revisions) && next.revisions != []
  {
    hide DriftExceeds, CurrentPairOf, Reshape;
  }

  /** One pass after one new set of answers. */
  lemma AnswerFollowed(m: Manager, w: World, now: World, answer: Replies, after: World)
    requires SameButStatus(now, w) && now.revisions != [] && Sound(w.(replies := answer))
    requires Hospitable(m, w.(replies := answer)) && Approaches(w.(replies := answer), after)
    ensures var asked := now.(replies := answer);
            SameButStatus(CalmStep(asked, now.cr.value, Goal(asked)), after)
    ensures Hospitable(m, after) && after.replies == answer && after.cr.Some?
    ensures after == w.(replies := answer, cr := after.cr, revisions := after.revisions)
            && after.cr == Some(w.cr.value.(status := after.cr.value.status))
  {
    var sw := w.cr.value;
    var asked := now.(replies := answer);
    CalmPassDescends(m, w.(replies := answer), after);
    StatusIsNoMatter(m, asked, sw.status);
    CalmStepIgnoresStatus(asked, sw.status, Goal(asked));
    StepKeepsRecord(asked, now.cr.value, Goal(asked));
    hide CalmStep, Goal, Hospitable, Sound;
  }

  lemma CalmStepIgnoresStatus(w: World, status: Status, desired: Pair)
    requires w.cr.Some? && w.revisions != []
    ensures CalmStep(WithStatus(w, status), w.cr.value.(status := status), desired)
            == WithStatus(CalmStep(w, w.cr.value, desired), status)
  {
    hide DriftExceeds, CurrentPairOf, Reshape;
  }

  /** Whether an answer is good does not depend on what came before it. */
  lemma StaysHospitable(m: Manager, w: World, after: World, answer: Replies)
    requires Hospitable(m, w.(replies := answer)) && Hospitable(m, after)
    requires after == w.(replies := after.replies, cr := after.cr, revisions := after.revisions) && w.cr.Some?
    requires after.cr == Some(w.cr.value.(status := after.cr.value.status))
    ensures Hospitable(m, after.(replies := answer))
  {
    hide Measurable, Judge, Nodes.EligibilityOf;
  }

  /**
   * The backend changes its answers and a pass follows each: the pods the reconciler has written by the end are exactly
   * those of `Follow`, and led from nothing by growing measurements they obey the amortised bound, however many passes
   * there were.
   */
  method FollowBackend(r: Reconciler, answers: seq<Replies>, ghost readings: seq<Reading>)
    requires r.Valid() && r.server.Pass().Idle? && r.Owed() == 0 && r.server.Calm()
    requires HospitableUnder(r.server.manager, r.server.world, answers) && Hospitable(r.server.manager, r.server.world)
    modifies r.server, r.metrics.Repr()
    ensures r.Valid() && r.server.Pass().Idle? && r.Owed() == 0 && r.server.Calm()
    ensures old(r.server.world).cr.Some? && old(r.server.world).revisions != []
    ensures SameButStatus(Follow(old(r.server.world), answers), r.server.world)
    ensures GrowsFrom(old(r.server.world), answers, readings) ==> WritesAmortised(old(r.server.world), r.server.world)
  {
    hide Server.Valid, Metrics.Recorder.Valid, Legal, PassAt, AcceptedWrites, CountedUpdates, GrowsFrom;
    hide WritesAmortised;
    hide Hospitable, Approaches, Follow, SameButStatus, Disturb;
    ghost var m, first := r.server.manager, r.server.world;
    NothingFollowed(m, first, answers);
    for i := 0 to |answers|
      invariant r.Valid() && r.server.Pass().Idle? && r.Owed() == 0 && r.server.Calm()
      invariant first.cr.Some? && first.revisions != []
      invariant SameButStatus(Follow(first, answers[..i]), r.server.world)
      invariant HospitableUnder(m, r.server.world, answers)
    {
      ghost var before := r.server.world;
      WorldIsSound(r.server);
      Safety.SoundHasHistory(before);
      r.server.Endure(SetReplies(answers[i]));
      RepliesSet(before, answers[i]);
      WorldIsSound(r.server);
      assert Hospitable(m, before.(replies := answers[i]));
      var _ := r.Reconcile();
      FollowOneMore(first, answers, i);
      SameRecord(Follow(first, answers[..i]), before);
      AnswerFollowed(m, before, Follow(first, answers[..i]), answers[i], r.server.world);
      forall j | 0 <= j < |answers|
        ensures Hospitable(m, r.server.world.(replies := answers[j]))
      {
        StaysHospitable(m, before, r.server.world, answers[j]);
      }
    }
    assert answers[..|answers|] == answers;
    if GrowsFrom(first, answers, readings) {
      AmortisedWrites(first, answers, readings);
      SameCount(first, Follow(first, answers), r.server.world);
    }
  }

  lemma SameCount(w: World, followed: World, after: World)
    requires WritesAmortised(w, followed) && SameButStatus(followed, after)
    ensures WritesAmortised(w, after)
  {
    hide Reservation.Area, Reservation.Pow;
  }

  lemma SameRecord(w: World, other: World)
    requires SameButStatus(w, other)
    ensures w.revisions == other.revisions && other.cr.Some?
  {
  }

  lemma RepliesSet(w: World, answer: Replies)
    requires w.revisions != []
    ensures Disturb(w, SetReplies(answer)) == w.(replies := answer)
  {
  }

  lemma NothingFollowed(m: Manager, w: World, answers: seq<Replies>)
    requires Hospitable(m, w)
    ensures w.cr.Some? && w.revisions != [] && answers[..0] == [] && SameButStatus(Follow(w, []), w)
  {
    hide Measurable, Judge, Goal, GateOpens;
  }

  // ----- The gauges ----------------------------------------------------------------------------

  /** The workload's reserved gauges show, in cores and bytes, what the first container of the live pod asks for. */
  ghost predicate GaugesShow(r: Reconciler)
    reads r.server, r.metrics.Repr()
  {
    var cpu, memory, labels := r.metrics.reservedCpu.series, r.metrics.reservedMemory.series, [r.namespace, r.name];
    && r.server.world.revisions != [] && Live(r.server.world).Some? && labels in cpu && labels in memory
    && (forall amount :: Reports.AsksFor(Live(r.server.world).value, Cpu, amount)
                         ==> cpu[labels] * 1_000_000_000.0 == amount as real)
    && (forall amount :: Reports.AsksFor(Live(r.server.world).value, Memory, amount)
                         ==> memory[labels] * 1_000_000_000.0 == amount as real)
  }

  lemma LastCallShows(history: seq<Metrics.Call>, call: Metrics.Call)
    requires history != [] && history[|history| - 1] == call && call.Reserved?
    ensures Metrics.LastReserved(Metrics.Since(history, call.namespace, call.name)) == Some((call.cpu, call.memory))
  {
  }

  lemma GaugesAreAmounts(r: Reconciler)
    requires r.metrics.Valid() && GaugesFollow(r.metrics.history, r.namespace, r.name, r.server.world)
    ensures GaugesShow(r)
  {
    hide Metrics.Since, Metrics.LastReserved;
    var call := GaugeCall(r.namespace, r.name, Live(r.server.world).value);
    LastCallShows(r.metrics.history, call);
    assert Metrics.Tells(r.metrics.Contents(), Metrics.Since(r.metrics.history, r.namespace, r.name),
                         r.namespace, r.name);
  }

  lemma NearIsHome(m: Manager, first: World, n: nat, now: World)
    requires Settles(m, first, n, now) && n >= 1
    ensures now.revisions != [] && now.cr.Some?
    ensures Live(now).None? || InPlace(Live(now).value, now.cr.value)
  {
    hide Goal, DriftExceeds, CurrentPairOf, Measurable, Judge, GateOpens, Owned, TellsTruth;
  }

  // ----- Runs ----------------------------------------------------------------------------------

  /** Passes until the disturbances are over, whatever they were. */
  method Drain(r: Reconciler)
    requires r.Valid() && r.server.Pass().Idle? && r.Owed() == 0
    modifies r.server, r.metrics.Repr()
    ensures r.Valid() && r.server.Pass().Idle? && r.Owed() == 0 && r.server.Calm()
  {
    hide Server.Valid, Metrics.Recorder.Valid, Legal, PassAt, AcceptedWrites, CountedUpdates;
    while !r.server.Calm()
      invariant r.Valid() && r.server.Pass().Idle? && r.Owed() == 0
      decreases |r.server.script|
    {
      var _ := r.Reconcile();
    }
  }

  /**
   * Any number of calm passes.  If the weather is hospitable, two of them settle the phantom with as many writes as
   * it was away from steady, every later one writes no pod at all, and the status tells the truth from then on.
   */
  method CalmPasses(r: Reconciler, n: nat)
    requires r.Valid() && r.server.Pass().Idle? && r.Owed() == 0 && r.server.Calm()
    modifies r.server, r.metrics.Repr()
    ensures r.Valid() && r.server.Pass().Idle? && r.Owed() == 0 && r.server.Calm()
    ensures Hospitable(r.server.manager, old(r.server.world)) ==>
              Settles(r.server.manager, old(r.server.world), n, r.server.world)
    ensures Hospitable(r.server.manager, old(r.server.world)) && n >= 2 ==> GaugesShow(r)
  {
    hide Server.Valid, Metrics.Recorder.Valid, Legal, PassAt, AcceptedWrites, CountedUpdates;
    hide Hospitable, Approaches, Settles, GaugesFollow, GaugesShow;
    ghost var m, first := r.server.manager, r.server.world;
    if Hospitable(m, first) { SettledByNone(m, first); }
    for i := 0 to n
      invariant r.Valid() && r.server.Pass().Idle? && r.Owed() == 0 && r.server.Calm()
      invariant Hospitable(m, first) ==> Settles(m, first, i, r.server.world) && Hospitable(m, r.server.world)
      invariant Hospitable(m, first) && i >= 2
                ==> GaugesFollow(r.metrics.history, r.namespace, r.name, r.server.world)
    {
      ghost var before := r.server.world;
      WorldIsSound(r.server);
      var _ := r.Reconcile();
      if Hospitable(m, first) {
        SettledByOneMore(m, first, i, before, r.server.world);
        if i >= 1 { NearIsHome(m, first, i, before); }
      }
    }
    if Hospitable(m, first) && n >= 2 { GaugesAreAmounts(r); }
  }

  /**
   * A whole run.  From any sound world, through any disturbances, the log obeys every rule, and the updates counter
   * is the number of accepted creates and resizes since the workload was last gone; once the weather is calm and
   * hospitable, the phantom settles.
   */
  method Run(world: World, script: seq<Choice>, manager: Manager, namespace: string, name: string, n: nat)
    returns (r: Reconciler, ghost drained: World)
    requires Sound(world)
    ensures r.Valid() && r.server.Calm() && r.server.start == world && r.server.manager == manager
    ensures r.namespace == namespace && r.name == name
    ensures Metrics.Read(r.metrics.reservationUpdates.series, [namespace, name]) == AcceptedWrites(r.server.log) as real
    ensures Hospitable(manager, drained) ==> Settles(manager, drained, n, r.server.world)
    ensures Hospitable(manager, drained) && n >= 2
            ==> Steady(r.server.world) && TellsTruth(r.server.world) && GaugesShow(r)
  {
    hide GaugesShow, Sound, Server.Valid, Hospitable, Legal, PassAt, WorldAt;
    var server := new Server(world, script, manager);
    var metrics := new Metrics.Recorder();
    r := new Reconciler(server, metrics, namespace, name);
    Drain(r);
    drained := r.server.world;
    CalmPasses(r, n);
    if Hospitable(manager, drained) && n >= 2 { SteadyIff(manager, r.server.world); }
  }

  /** What the rules mean for a log the reconciler really produced, under any script at all. */
  lemma RunsAreSafe(r: Reconciler, i: nat)
    requires r.Valid() && i < |r.server.log|
    ensures var s := r.server;
            var w, p, e := WorldAt(s.start, s.log[..i]), PassAt(s.manager, s.log[..i]), s.log[i];
            && (e.Deleted? || e.Resized? ==> p.Busy? && Live(w).Some? && Owned(Live(w).value, p.sw))
            && (e.Resized? ==> Safety.Trusted(p))
            && (e.Persisted? && e.status.ready.Some? && e.status.ready.value.status ==> Safety.Tracks(w, p))
  {
    hide Sound, Legal, PassAt, WorldAt, Safety.Tracks, Safety.Trusted, Metrics.Recorder.Valid;
    var s := r.server;
    if s.log[i].Deleted? || s.log[i].Resized? {
      var _ := Safety.ForeignPodsAreNeverHit(s.manager, s.start, s.log, i);
    }
    if s.log[i].Resized? {
      Safety.ResizeNeedsTrust(s.manager, s.start, s.log, i);
    }
    if s.log[i].Persisted? && s.log[i].status.ready.Some? && s.log[i].status.ready.value.status {
      Safety.ReadyNeverLies(s.manager, s.start, s.log, i);
    }
  }

  /** The amortised bound on resizes, for any stretch of any log the reconciler really produced. */
  lemma RunsAreAmortised(r: Reconciler, i: nat, j: nat, floor: Pair, ceiling: Pair, t: nat)
    requires r.Valid() && i < j <= |r.server.log| && r.server.log[i].Created?
    requires Amortised.OnePhantom(r.server.log, i + 1, j)
    requires Amortised.FixedPolicy(r.server.log, floor, ceiling, t)
    requires Amortised.ReadingsGrow(r.server.manager, r.server.log, i, j)
    requires Reservation.Ordered(floor, ceiling) && floor.cpu > 0 && floor.memory > 0
    ensures var k := Amortised.ResizesBetween(r.server.log, i + 1, j);
            Reservation.Pow(100 + t, k) * Reservation.Area(floor) <= Reservation.Pow(100, k) * Reservation.Area(ceiling)
  {
    hide Sound, Legal, PassAt, WorldAt, Metrics.Recorder.Valid;
    hide Amortised.OnePhantom, Amortised.FixedPolicy, Amortised.ReadingsGrow, Reservation.Pow, Reservation.Area;
    Amortised.GrowingReadingsAreAmortised(r.server.manager, r.server.start, r.server.log, i, j, floor, ceiling, t);
  }
}
