/** What a persisted status says, and what stands behind each of its fields. */
module Reports {
  import opened Wrappers
  import opened Api
  import opened Shadow
  import opened Backend
  import opened Protocol
  import opened Safety
  import opened Provenance
  import Compiler
  import DestinationPolicy
  import Metrics
  import Naming
  import Nodes
  import Origins
  import Passes
  import Saturation
  import Sources

  // ----- Reservation -----------------------------------------------------------------------------

  /** What the first container asks for of one resource; nothing when it does not say. */
  predicate AsksFor(pod: Pod, resource: Resource, amount: Quantity) {
    && pod.containers != []
    && if resource in pod.containers[0].requests then pod.containers[0].requests[resource] == amount else amount == 0
  }

  /**
   * A pass that saw or made its phantom reports its name and the requests of its first container; any other pass leaves
   * both as they were.
   */
  lemma ReservationIsReported(m: Manager, start: World, log: seq<Event>, i: nat)
    requires Sound(start) && start.revisions != [] && Legal(m, start, log) && i < |log| && log[i].Persisted?
    ensures var p, status := PassAt(m, log[..i]), log[i].status;
            && p.Busy? && log[i].was == p.sw.status
            && if p.held.Some?
               then && status.phantomPod == Naming.PhantomName(p.sw.name)
                    && AsksFor(p.held.value, Cpu, status.current.cpu)
                    && AsksFor(p.held.value, Memory, status.current.memory)
               else status.phantomPod == p.sw.status.phantomPod && status.current == p.sw.status.current
  {
    hide Sound, Legal, WorldAt, PassAt, Accepts, Remembers, Rule;
    RunInvariant(m, start, log, i);
    Prefix(m, start, log, i);
    PersistsCurrent(PassAt(m, log[..i]), log[i]);
    HeldHasContainers(WorldAt(start, log[..i]), PassAt(m, log[..i]));
  }

  lemma HeldHasContainers(w: World, p: Pass)
    requires Remembers(w, p) && p.Busy?
    ensures p.held.Some? ==> p.held.value.containers != []
  {
  }

  // ----- Measurement -------------------------------------------------------------------------------

  /** The seconds of an instant given in nanoseconds. */
  predicate InSecond(at: Metrics.Time, seconds: int) {
    seconds * 1_000_000_000 <= at < (seconds + 1) * 1_000_000_000
  }

  lemma SecondsAre(at: Metrics.Time)
    ensures InSecond(at, Metrics.Seconds(at))
  {
  }

  /** What the snapshot says of the answers it stems from. */
  ghost predicate SnapshotOf(s: Snapshot, generation: nat, replies: Replies, at: Metrics.Time) {
    && s.observedGeneration == generation && InSecond(at, s.at)
    && (CompletePair(replies) || AbsentPair(replies))
    && (s.seriesFound <==> CompletePair(replies))
    && (AbsentPair(replies) ==> s.measured == Pair(0, 0))
    && (CompletePair(replies) && Saturation.SamplesAreBinary64(replies)
        ==> Saturation.Shows(Reading(replies.cpu.values[0].value, replies.memory.values[0].value, true), s.measured))
  }

  lemma MeasurementShows(m: Manager, p: Pass)
    requires SourceDecided(m, p) && p.Busy? && p.outcome.Taken?
    ensures p.replies.Some?
    ensures SnapshotOf(Snapshot(p.sw.generation, Metrics.Seconds(p.measuredAt),
                                MeasurementPairOf(p.outcome.reading.cpu, p.outcome.reading.memory),
                                p.outcome.reading.found),
                       p.sw.generation, p.replies.value, p.measuredAt)
  {
    hide PairOf, MeasurementPairOf, Measurable, Saturation.Shows;
    TakenIsReadingOf(m, p);
    SecondsAre(p.measuredAt);
    NothingMeasured();
    if Saturation.SamplesAreBinary64(p.replies.value) {
      TakenIsUsable(m, p);
      Saturation.ConversionIsClose(p.outcome.reading);
    }
    hide SourceDecided;
  }

  lemma NothingMeasured()
    ensures MeasurementPairOf(0.0, 0.0) == Pair(0, 0)
  {
    Saturation.ZeroRounds();
  }

  /** What a pass persists of its measurement. */
  lemma PersistsSnapshot(p: Pass, e: Event)
    requires Rule(p, e) && e.Persisted?
    ensures p.Busy?
    ensures if p.outcome.Taken?
            then && e.status.resolvedSource == Some(Sources.Describe(p.sw.spec))
                 && e.status.lastMeasurement
                    == Some(Snapshot(p.sw.generation, Metrics.Seconds(p.measuredAt),
                                     MeasurementPairOf(p.outcome.reading.cpu, p.outcome.reading.memory),
                                     p.outcome.reading.found))
            else && e.status.resolvedSource == p.sw.status.resolvedSource
                 && e.status.lastMeasurement == p.sw.status.lastMeasurement
    ensures e.status.lastResize
            == if p.resizedAt.Some? then Some(Metrics.Seconds(p.resizedAt.value)) else p.sw.status.lastResize
  {
    hide CurrentPairOf, Trouble, Settled, DueWarnings, MeasurementPairOf, Sources.Describe, Metrics.Seconds;
    hide Naming.PhantomName;
  }

  /**
   * The snapshot.  A pass that measured persists the generation it read, the second at which the backend answered, what
   * the two samples amount to in nanocores and bytes, and whether there were samples at all, next to the description of
   * its source; any other pass leaves snapshot and description as they were.
   */
  lemma SnapshotIsReported(m: Manager, start: World, log: seq<Event>, i: nat) returns (k: nat)
    requires start.revisions != [] && Legal(m, start, log) && i < |log| && log[i].Persisted?
    ensures PassAt(m, log[..i]).Busy?
    ensures var p, status := PassAt(m, log[..i]), log[i].status;
            if p.outcome.Taken?
            then && InPass(m, log, k, i) && log[k].Measured?
                 && status.resolvedSource == Some(Sources.Describe(p.sw.spec)) && status.lastMeasurement.Some?
                 && SnapshotOf(status.lastMeasurement.value, p.sw.generation, log[k].replies, log[k].at)
            else && status.lastMeasurement == p.sw.status.lastMeasurement
                 && status.resolvedSource == p.sw.status.resolvedSource
  {
    hide Legal, WorldAt, PassAt, Accepts, Rule, SourceDecided, SnapshotOf;
    Prefix(m, start, log, i);
    SourceIsDecided(m, start, log, i);
    k := 0;
    var p := PassAt(m, log[..i]);
    PersistsSnapshot(p, log[i]);
    if p.outcome.Taken? {
      MeasurementShows(m, p);
      k := BackendWasAsked(m, start, log, i);
    }
  }

  // ----- Resizes -------------------------------------------------------------------------------------

  lemma ResizeIsLearned(m: Manager, p: Pass, e: Event)
    requires Rule(p, e) && e.Resized? && e.heard
    ensures p.Busy? && Observe(m, p, e).Busy? && Observe(m, p, e).sw == p.sw
    ensures Observe(m, p, e).resizedAt == Some(e.at) && Observe(m, p, e).ready == Reason.Resized
  {
    hide HoldsExactly, Desired, DriftExceeds;
  }

  /** What a pass reports of its own writes, and what it has seen when it does. */
  predicate WritesDecided(p: Pass) {
    p.Busy? ==>
      && (p.ready == Reason.Resized <==> p.resizedAt.Some?)
      && (p.resizedAt.Some? ==> p.gate.Open? && p.cached.Found?)
      && (p.ready == PhantomCreated ==> p.gate.Open? && p.cached.Absent? && p.held.Some?)
      && (p.ready == Reason.Resized || p.ready == PhantomCreated || p.ready == WithinThreshold)
  }

  lemma StepDecidesWrites(m: Manager, p: Pass, e: Event)
    requires WritesDecided(p) && Rule(p, e)
    ensures WritesDecided(Observe(m, p, e))
  {
    hide Judge, Measurable, Nodes.EligibilityOf, Settled, StatusOf, DueWarnings, Desired, DriftExceeds, HoldsExactly;
  }

  lemma {:induction false} WritesAreDecided(m: Manager, start: World, log: seq<Event>, i: nat)
    requires start.revisions != [] && Legal(m, start, log) && i <= |log|
    ensures WritesDecided(PassAt(m, log[..i]))
    decreases i
  {
    hide Rule, Legal, Observe, WorldAt, WritesDecided;
    if i == 0 {
      assert log[..0] == [];
      assert WritesDecided(Idle) by { IdleDecidesWrites(); }
    } else {
      WritesAreDecided(m, start, log, i - 1);
      Prefix(m, start, log, i - 1);
      Advance(m, start, log, i - 1);
      StepDecidesWrites(m, PassAt(m, log[..i - 1]), log[i - 1]);
    }
  }

  lemma IdleDecidesWrites()
    ensures WritesDecided(Idle)
  {
  }

  /** Behind a stamped resize stands one the server accepted, in the same pass. */
  lemma {:induction false} ResizeWasHeard(m: Manager, start: World, log: seq<Event>, i: nat) returns (k: nat)
    requires start.revisions != [] && Legal(m, start, log) && i <= |log| && PassAt(m, log[..i]).Busy?
    requires PassAt(m, log[..i]).resizedAt.Some?
    ensures InPass(m, log, k, i) && log[k].Resized? && log[k].heard
    ensures PassAt(m, log[..i]).resizedAt == Some(log[k].at)
    decreases i
  {
    hide Rule, Legal, Observe, WorldAt, PassAt;
    NothingBefore(m, log, i);
    Prefix(m, start, log, i - 1);
    Advance(m, start, log, i - 1);
    var p, e := PassAt(m, log[..i - 1]), log[i - 1];
    BeginsBlank(m, p, e);
    if e.Resized? && e.heard {
      ResizeIsLearned(m, p, e);
      k := i - 1;
    } else {
      LearnsOneThing(m, p, e);
      k := ResizeWasHeard(m, start, log, i - 1);
      Extended(m, log, k, i - 1);
    }
  }

  /** A pass that heard of its resize goes on knowing it. */
  lemma {:induction false} ResizeIsKept(m: Manager, start: World, log: seq<Event>, k: nat, i: nat)
    requires start.revisions != [] && Legal(m, start, log) && i <= |log| && InPass(m, log, k, i)
    requires log[k].Resized? && log[k].heard
    ensures PassAt(m, log[..i]).resizedAt.Some?
    decreases i
  {
    hide Rule, Legal, Observe, WorldAt, PassAt;
    Prefix(m, start, log, i - 1);
    Advance(m, start, log, i - 1);
    var p, e := PassAt(m, log[..i - 1]), log[i - 1];
    if e.Resized? && e.heard {
      ResizeIsLearned(m, p, e);
    } else {
      LearnsOneThing(m, p, e);
      ResizeIsKept(m, start, log, k, i - 1);
    }
  }

  /** `lastResize` moves exactly when the pass heard of an accepted resize, and to the second of it. */
  lemma ResizeIsStamped(m: Manager, start: World, log: seq<Event>, i: nat)
    requires start.revisions != [] && Legal(m, start, log) && i < |log| && log[i].Persisted?
    ensures PassAt(m, log[..i]).Busy?
    ensures var p, stamp := PassAt(m, log[..i]), log[i].status.lastResize;
            if exists k: nat :: InPass(m, log, k, i) && log[k].Resized? && log[k].heard
            then exists k: nat :: && InPass(m, log, k, i) && log[k].Resized? && log[k].heard
                             && stamp.Some? && InSecond(log[k].at, stamp.value)
            else stamp == p.sw.status.lastResize
  {
    hide Legal, WorldAt, PassAt, Accepts, Rule;
    Prefix(m, start, log, i);
    var p := PassAt(m, log[..i]);
    PersistsSnapshot(p, log[i]);
    if p.resizedAt.Some? {
      var k := ResizeWasHeard(m, start, log, i);
      SecondsAre(log[k].at);
    }
    if k: nat :| InPass(m, log, k, i) && log[k].Resized? && log[k].heard {
      ResizeIsKept(m, start, log, k, i);
    }
    hide Metrics.Seconds, InSecond, InPass;
  }

  // ----- Conditions ------------------------------------------------------------------------------------

  /** The pass saw, in the cache or past it, a pod whose controller is not its ShadowWorkload. */
  predicate SawForeign(p: Pass)
    requires p.Busy?
  {
    || (p.cached.Found? && !IsControlled(p.cached.pod, p.sw))
    || (p.live.Found? && !IsControlled(p.live.pod, p.sw))
  }

  predicate IsControlled(pod: Pod, sw: Workload) {
    pod.owner == Some(Owner(sw.name, sw.uid, "ShadowWorkload", "symbiont.tensorhost.com/v1alpha1"))
  }

  /** Both conditions, about the generation read: healthy for one reason, or degraded and not ready for another. */
  predicate Conditions(st: Status, generation: nat, trouble: Option<Reason>, ready: Reason) {
    if trouble.Some?
    then && st.ready == Some(Condition(false, trouble.value, generation))
         && st.degraded == Some(Condition(true, trouble.value, generation))
    else && st.ready == Some(Condition(true, ready, generation))
         && st.degraded == Some(Condition(false, AsExpected, generation))
  }

  /** The reason of a refused answer: only an empty pair without its pinned target up blames the target. */
  function AnswerReason(replies: Replies): Reason {
    if AbsentPair(replies) then CadvisorTargetUnavailable else PrometheusUnavailable
  }

  /** Which trouble a pass reports: the first it met, in the order in which it looked. */
  lemma TroubleIs(m: Manager, w: World, p: Pass)
    requires SourceDecided(m, p) && Remembers(w, p) && p.Busy?
    ensures var t := Trouble(p);
            && (p.gate.Blocked? ==> t == Some(p.gate.reason))
            && (p.gate.Open? && p.outcome.Failing? ==>
                  t == Some(if p.replies.None? then SourceInvalid else AnswerReason(p.replies.value)))
            && (p.gate.Open? && p.outcome.Taken? ==>
                  t == if SawForeign(p) then Some(PhantomConflict)
                       else if p.cached.Found? && p.cached.pod.node != p.sw.spec.node then Some(PhantomRecreating)
                       else if p.refused then Some(ResizeRejected)
                       else None)
  {
    hide Desired, HoldsExactly, CompletePair, TargetUp;
    if p.replies.Some? && Sources.Resolve(p.sw.spec).Ok? {
      RefusedBecause(Sources.Resolve(p.sw.spec).value, p.replies.value);
      AcceptedIff(Sources.Resolve(p.sw.spec).value, p.replies.value);
    }
    hide QueryPair, Sources.Resolve;
  }

  lemma PersistsConditions(p: Pass, e: Event)
    requires Rule(p, e) && e.Persisted?
    ensures p.Busy? && Conditions(e.status, p.sw.generation, Trouble(p), p.ready)
  {
    hide CurrentPairOf, Trouble, Settled, DueWarnings, MeasurementPairOf, Sources.Describe, Naming.PhantomName;
  }

  /** Whether the answers refuse the measurement of a source of this kind. */
  predicate Refuses(replies: Replies, kind: SourceType) {
    !CompletePair(replies) && !(AbsentPair(replies) && (Compiler.Typed(kind) ==> TargetUp(replies)))
  }

  lemma OutcomeIs(m: Manager, p: Pass)
    requires SourceDecided(m, p) && p.Busy? && p.replies.Some?
    ensures p.outcome.Failing? <==> Refuses(p.replies.value, p.sw.spec.source.kind)
    ensures p.outcome.Failing? || p.outcome.Taken?
  {
    AcceptedIff(Sources.Resolve(p.sw.spec).value, p.replies.value);
    Compiler.HealthQueryIffTyped(p.sw.spec);
    hide QueryPair, Sources.Resolve;
  }

  /**
   * The conditions.  Past the gate a pass reports, about the generation it read: SourceInvalid when it asked nobody;
   * CadvisorTargetUnavailable or PrometheusUnavailable when it refused the answers; else PhantomConflict for a pod of
   * another controller; else PhantomRecreating for its own pod on another node; else ResizeRejected; and Ready only
   * when none of these holds.
   */
  lemma ConditionsAreReported(m: Manager, start: World, log: seq<Event>, i: nat)
    requires Sound(start) && start.revisions != [] && Legal(m, start, log) && i < |log| && log[i].Persisted?
    ensures PassAt(m, log[..i]).Busy?
    ensures var p := PassAt(m, log[..i]);
            p.gate.Open? ==>
              Conditions(log[i].status, p.sw.generation,
                         if p.replies.None? then Some(SourceInvalid)
                         else if Refuses(p.replies.value, p.sw.spec.source.kind)
                         then Some(AnswerReason(p.replies.value))
                         else if SawForeign(p) then Some(PhantomConflict)
                         else if p.cached.Found? && p.cached.pod.node != p.sw.spec.node then Some(PhantomRecreating)
                         else if p.refused then Some(ResizeRejected)
                         else None,
                         p.ready)
  {
    hide Sound, Legal, WorldAt, PassAt, Accepts, Rule, SourceDecided, Remembers, Conditions, Refuses, SawForeign;
    RunInvariant(m, start, log, i);
    Prefix(m, start, log, i);
    SourceIsDecided(m, start, log, i);
    var p := PassAt(m, log[..i]);
    PersistsConditions(p, log[i]);
    TroubleIs(m, WorldAt(start, log[..i]), p);
    if p.gate.Open? {
      SettledHasMeasured(p, log[i]);
      if p.replies.Some? {
        OutcomeIs(m, p);
      } else {
        UnaskedIsFailing(m, p);
      }
    }
    hide Trouble;
  }

  lemma SettledHasMeasured(p: Pass, e: Event)
    requires Rule(p, e) && e.Persisted? && p.Busy? && p.gate.Open?
    ensures !p.outcome.Pending?
  {
    hide StatusOf, DueWarnings, Desired;
  }

  lemma UnaskedIsFailing(m: Manager, p: Pass)
    requires SourceDecided(m, p) && p.Busy? && p.gate.Open? && p.replies.None? && !p.outcome.Pending?
    ensures p.outcome.Failing?
  {
  }

  /** The reason a shut gate gives, and the read behind it. */
  predicate GateReasonOf(e: Event, reason: Reason) {
    if e.NodeRead? then
      && !LiveAndReady(e.node)
      && reason == if e.node.None? then NodeMissing
                   else if e.node.value.terminating then NodeTerminating else NodeNotReady
    else e == PriorityRead(false) && reason == PriorityClassMissing
  }

  lemma {:induction false} GateWasShut(m: Manager, start: World, log: seq<Event>, i: nat) returns (k: nat)
    requires start.revisions != [] && Legal(m, start, log) && i <= |log| && PassAt(m, log[..i]).Busy?
    requires PassAt(m, log[..i]).gate.Blocked?
    ensures InPass(m, log, k, i) && GateReasonOf(log[k], PassAt(m, log[..i]).gate.reason)
    decreases i
  {
    hide Rule, Legal, Observe, WorldAt, LiveAndReady, PassAt;
    NothingBefore(m, log, i);
    Prefix(m, start, log, i - 1);
    Advance(m, start, log, i - 1);
    var p, e := PassAt(m, log[..i - 1]), log[i - 1];
    BeginsBlank(m, p, e);
    if e.NodeRead? || e.PriorityRead? {
      GateStep(m, p, e);
      k := i - 1;
    } else {
      LearnsOneThing(m, p, e);
      k := GateWasShut(m, start, log, i - 1);
      Extended(m, log, k, i - 1);
    }
  }

  /**
   * A pass the gate stopped reports what it found: NodeMissing, NodeTerminating or NodeNotReady for the node it looked
   * at, or PriorityClassMissing; everything but the conditions stays as it was.
   */
  lemma GateIsReported(m: Manager, start: World, log: seq<Event>, i: nat) returns (k: nat)
    requires Sound(start) && start.revisions != [] && Legal(m, start, log) && i < |log| && log[i].Persisted?
    requires PassAt(m, log[..i]).Busy? && !PassAt(m, log[..i]).gate.Open?
    ensures InPass(m, log, k, i)
    ensures var p, status := PassAt(m, log[..i]), log[i].status;
            && status.degraded.Some? && GateReasonOf(log[k], status.degraded.value.reason)
            && Conditions(status, p.sw.generation, Some(status.degraded.value.reason), AsExpected)
            && status == p.sw.status.(ready := status.ready, degraded := status.degraded)
  {
    hide Sound, Legal, WorldAt, PassAt, Accepts, Rule, SourceDecided, Remembers, GateReasonOf;
    RunInvariant(m, start, log, i);
    Prefix(m, start, log, i);
    var p := PassAt(m, log[..i]);
    StoppedAtGate(m, WorldAt(start, log[..i]), p, log[i]);
    SourceIsDecided(m, start, log, i);
    PersistsConditions(p, log[i]);
    TroubleIs(m, WorldAt(start, log[..i]), p);
    k := GateWasShut(m, start, log, i);
    WritesAreDecided(m, start, log, i);
    BlockedKeepsRest(m, WorldAt(start, log[..i]), p, log[i]);
    hide Trouble;
  }

  lemma StoppedAtGate(m: Manager, w: World, p: Pass, e: Event)
    requires Rule(p, e) && e.Persisted? && p.Busy? && !p.gate.Open?
    ensures p.gate.Blocked?
  {
    hide StatusOf, DueWarnings, Desired;
  }

  lemma BlockedKeepsRest(m: Manager, w: World, p: Pass, e: Event)
    requires Rule(p, e) && e.Persisted? && p.Busy? && p.gate.Blocked? && Remembers(w, p) && SourceDecided(m, p)
    requires WritesDecided(p)
    ensures e.status == p.sw.status.(ready := e.status.ready, degraded := e.status.degraded)
  {
    hide DueWarnings, Desired, CurrentPairOf, Trouble, MeasurementPairOf, Sources.Describe, Naming.PhantomName;
    hide Measurable;
  }

  // ----- What a healthy pass says it did ---------------------------------------------------------------

  lemma CreateIsLearned(m: Manager, p: Pass, e: Event)
    requires Rule(p, e) && e.Created? && e.heard
    ensures p.Busy? && Observe(m, p, e).Busy? && Observe(m, p, e).sw == p.sw && Observe(m, p, e).ready == PhantomCreated
  {
    hide Desired;
  }

  lemma {:induction false} CreateWasHeard(m: Manager, start: World, log: seq<Event>, i: nat) returns (k: nat)
    requires start.revisions != [] && Legal(m, start, log) && i <= |log| && PassAt(m, log[..i]).Busy?
    requires PassAt(m, log[..i]).ready == PhantomCreated
    ensures InPass(m, log, k, i) && log[k].Created? && log[k].heard
    decreases i
  {
    hide Rule, Legal, Observe, WorldAt, PassAt;
    NothingBefore(m, log, i);
    Prefix(m, start, log, i - 1);
    Advance(m, start, log, i - 1);
    var p, e := PassAt(m, log[..i - 1]), log[i - 1];
    BeginsBlank(m, p, e);
    if e.Created? && e.heard {
      CreateIsLearned(m, p, e);
      k := i - 1;
    } else {
      if e.Resized? && e.heard { ResizeIsLearned(m, p, e); }
      LearnsOneThing(m, p, e);
      k := CreateWasHeard(m, start, log, i - 1);
      Extended(m, log, k, i - 1);
    }
  }

  lemma NoResizeAfterCreate(p: Pass, e: Event)
    requires WritesDecided(p) && Rule(p, e) && p.Busy? && p.ready == PhantomCreated
    ensures !e.Resized?
  {
    hide Desired, DriftExceeds, HoldsExactly;
  }

  lemma {:induction false} CreateIsKept(m: Manager, start: World, log: seq<Event>, k: nat, i: nat)
    requires start.revisions != [] && Legal(m, start, log) && i <= |log| && InPass(m, log, k, i)
    requires log[k].Created? && log[k].heard
    ensures PassAt(m, log[..i]).ready == PhantomCreated
    decreases i
  {
    hide Rule, Legal, Observe, WorldAt, PassAt, WritesDecided;
    Prefix(m, start, log, i - 1);
    Advance(m, start, log, i - 1);
    WritesAreDecided(m, start, log, i - 1);
    var p, e := PassAt(m, log[..i - 1]), log[i - 1];
    if e.Created? && e.heard {
      CreateIsLearned(m, p, e);
    } else {
      LearnsOneThing(m, p, e);
      CreateIsKept(m, start, log, k, i - 1);
      NoResizeAfterCreate(p, e);
    }
  }

  /** A pass says Resized exactly when it heard of a resize, PhantomCreated exactly when it heard of a create. */
  lemma ReadyReasonIs(m: Manager, start: World, log: seq<Event>, i: nat)
    requires start.revisions != [] && Legal(m, start, log) && i <= |log| && PassAt(m, log[..i]).Busy?
    ensures var ready := PassAt(m, log[..i]).ready;
            && (ready == Reason.Resized <==> exists k: nat :: InPass(m, log, k, i) && log[k].Resized? && log[k].heard)
            && (ready == PhantomCreated <==> exists k: nat :: InPass(m, log, k, i) && log[k].Created? && log[k].heard)
            && (ready == Reason.Resized || ready == PhantomCreated || ready == WithinThreshold)
  {
    hide Legal, WorldAt, PassAt;
    WritesAreDecided(m, start, log, i);
    var p := PassAt(m, log[..i]);
    if p.resizedAt.Some? { var k := ResizeWasHeard(m, start, log, i); }
    if p.ready == PhantomCreated { var k := CreateWasHeard(m, start, log, i); }
    if k: nat :| InPass(m, log, k, i) && log[k].Resized? && log[k].heard {
      ResizeIsKept(m, start, log, k, i);
    }
    if k: nat :| InPass(m, log, k, i) && log[k].Created? && log[k].heard {
      CreateIsKept(m, start, log, k, i);
    }
  }

  // ----- What the Recorder hears -------------------------------------------------------------------------

  /** The bounded reason a refused pair of answers is counted under: the first thing wrong with it. */
  function CountedAs(replies: Replies): string {
    if replies.cpu.Broken? then "prometheus_unavailable"
    else if SeveralSamples(replies.cpu) then "multi_sample"
    else if OnlyNaN(replies.cpu) then "invalid_sample"
    else if replies.memory.Broken? then "prometheus_unavailable"
    else if SeveralSamples(replies.memory) then "multi_sample"
    else if OnlyNaN(replies.memory) then "invalid_sample"
    else if AbsentPair(replies) then "target_unavailable"
    else if replies.cpu == Samples([]) || replies.memory == Samples([]) then "partial_sample"
    else "invalid_sample"
  }

  /**
   * What a measurement is counted as: the two samples and the second they came, or the one reason it failed for, which
   * is source_missing when nobody was asked.
   */
  lemma MeasurementIsCounted(m: Manager, namespace: string, name: string, p: Pass)
    requires SourceDecided(m, p) && p.Busy? && p.gate.Open? && !p.outcome.Pending?
    ensures Passes.MeasurementCalls(namespace, name, p)
            == if p.replies.None? then [Metrics.Failed(namespace, name, "source_missing")]
               else if Refuses(p.replies.value, p.sw.spec.source.kind)
               then [Metrics.Failed(namespace, name, CountedAs(p.replies.value))]
               else [Metrics.Observed(namespace, name, ReadingOf(p.replies.value).cpu,
                                      ReadingOf(p.replies.value).memory)]
                    + if p.measuredAt == Metrics.ZERO_TIME then []
                      else [Metrics.Succeeded(namespace, name, p.measuredAt)]
  {
    hide Refuses, CompletePair;
    if p.replies.Some? {
      OutcomeIs(m, p);
      RefusedBecause(Sources.Resolve(p.sw.spec).value, p.replies.value);
      if p.outcome.Taken? { TakenIsReadingOf(m, p); }
    }
    hide QueryPair, Sources.Resolve, TargetUp;
  }

  // ----- Hospitable weather --------------------------------------------------------------------------------

  lemma JudgeAccepts(spec: Spec, replies: Replies)
    requires Sources.Resolve(spec).Ok?
    ensures Judge(spec, replies).Taken? <==> !Refuses(replies, spec.source.kind)
  {
    AcceptedIff(Sources.Resolve(spec).value, replies);
    Compiler.HealthQueryIffTyped(spec);
    hide QueryPair, Sources.Resolve, CompletePair;
  }

  /**
   * When the phantom is bound to settle: the node the ShadowWorkload declares is live and Ready, the PriorityClass is
   * there, the source resolves at a URL in the policy, the answers are good, and no pod of another controller is in the
   * way.
   */
  lemma HospitableIff(m: Manager, w: World, rules: seq<DestinationPolicy.Url>, allowAny: bool)
    requires Configured(m, rules, allowAny) && w.revisions != [] && w.cr.Some?
    ensures var sw := w.cr.value;
            Passes.Hospitable(m, w)
            <==> && sw.spec.node in w.nodes && LiveAndReady(Some(w.nodes[sw.spec.node])) && w.priorityClass
                 && Sources.Resolve(sw.spec).Ok?
                 && Origins.InPolicy(rules, allowAny, m.ip, sw.spec.metrics.prometheusURL)
                 && !Refuses(w.replies, sw.spec.source.kind)
                 && (Live(w).Some? ==> IsControlled(Live(w).value, sw))
  {
    hide Configured, Measurable, Judge, Origins.InPolicy, Refuses, Nodes.EligibilityOf, LiveAndReady, Sources.Resolve;
    var sw := w.cr.value;
    MeasurableIff(m, rules, allowAny, sw.spec);
    EligibleIsLive(NodeOf(w, sw.spec.node));
    MissingIsNotLive();
    if Sources.Resolve(sw.spec).Ok? { JudgeAccepts(sw.spec, w.replies); }
  }

  lemma MissingIsNotLive()
    ensures !LiveAndReady(None)
  {
  }
}
