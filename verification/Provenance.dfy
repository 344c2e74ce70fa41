/**
 * Where what a pass knows comes from, and what therefore stands behind every call of a legal run: which node it looked
 * at, which backend it asked, and which numbers it reserves.
 */
module Provenance {
  import opened Wrappers
  import opened Api
  import opened Shadow
  import opened Backend
  import opened Protocol
  import opened Safety
  import Compiler
  import DestinationPolicy
  import Metrics
  import Nodes
  import Origins
  import Reservation
  import Saturation
  import Sources

  // ----- One pass ----------------------------------------------------------------------------

  /** Event k belongs to the pass that is in progress at i. */
  ghost predicate InPass(m: Manager, log: seq<Event>, k: nat, i: nat) {
    && k < i <= |log| && PassAt(m, log[..k]).Busy? && PassAt(m, log[..i]).Busy?
    && PassAt(m, log[..k]).sw == PassAt(m, log[..i]).sw
    && forall x :: k <= x < i ==> !log[x].Began?
  }

  /** What one event changes of what a pass knows: each kind its own part, and nothing else. */
  lemma LearnsOneThing(m: Manager, p: Pass, e: Event)
    requires Observe(m, p, e).Busy? && !e.Began?
    ensures var q := Observe(m, p, e);
            && p.Busy? && q.sw == p.sw
            && (!e.NodeRead? && !e.PriorityRead? ==> q.gate == p.gate)
            && (!e.PriorityRead? && !e.Measured? ==> q.outcome == p.outcome)
            && (!e.Measured? ==> q.replies == p.replies && q.measuredAt == p.measuredAt)
            && (!(e.Resized? && e.heard) ==> q.resizedAt == p.resizedAt)
            && (!(e.Created? && e.heard) && !(e.Resized? && e.heard) ==> q.ready == p.ready)
  {
    hide Nodes.EligibilityOf, Judge, Measurable;
  }

  lemma NothingBefore(m: Manager, log: seq<Event>, i: nat)
    requires i <= |log| && PassAt(m, log[..i]).Busy?
    ensures i > 0
  {
    assert log[..0] == [];
  }

  /** A pass starts out knowing nothing. */
  lemma BeginsBlank(m: Manager, p: Pass, e: Event)
    ensures var q := Observe(m, p, e);
            e.Began? ==> && q == Opening(e.sw) && q.gate.Unchecked? && q.replies.None? && q.outcome.Pending?
                         && q.resizedAt.None? && q.ready == WithinThreshold
  {
  }

  lemma Extended(m: Manager, log: seq<Event>, k: nat, i: nat)
    requires InPass(m, log, k, i) && i < |log| && PassAt(m, log[..i + 1]).Busy? && !log[i].Began?
    requires PassAt(m, log[..i + 1]).sw == PassAt(m, log[..i]).sw
    ensures InPass(m, log, k, i + 1)
  {
    hide PassAt;
  }

  // ----- The gate ------------------------------------------------------------------------------

  /** A live node whose first condition of kind Ready is True. */
  predicate LiveAndReady(node: Option<Nodes.Node>) {
    && node.Some? && !node.value.terminating
    && exists i :: 0 <= i < |node.value.conditions| && node.value.conditions[i] == Nodes.NodeCondition("Ready", "True")
                   && forall j :: 0 <= j < i ==> node.value.conditions[j].kind != "Ready"
  }

  lemma EligibleIsLive(node: Option<Nodes.Node>)
    ensures Nodes.EligibilityOf(node).Eligible? <==> LiveAndReady(node)
  {
  }

  /** What the gate says after each of the two reads. */
  lemma GateStep(m: Manager, p: Pass, e: Event)
    requires Rule(p, e) && (e.NodeRead? || e.PriorityRead?)
    ensures p.Busy? && Observe(m, p, e).Busy? && Observe(m, p, e).sw == p.sw
    ensures e.NodeRead? ==> e.name == p.sw.spec.node && Observe(m, p, e).outcome == p.outcome
    ensures e.NodeRead? ==> Observe(m, p, e).gate
                            == if LiveAndReady(e.node) then NodeLive
                               else Blocked(if e.node.None? then NodeMissing
                                            else if e.node.value.terminating then NodeTerminating else NodeNotReady)
    ensures e.PriorityRead? ==> p.gate.NodeLive? && Observe(m, p, e).gate
                                                    == if e.present then Open else Blocked(PriorityClassMissing)
  {
    hide Measurable;
    if e.NodeRead? { EligibleIsLive(e.node); }
  }

  /** Behind an open gate, or one opened halfway, stands a read of the declared node that showed it live and Ready. */
  lemma {:induction false} NodeWasReady(m: Manager, start: World, log: seq<Event>, i: nat) returns (k: nat)
    requires start.revisions != [] && Legal(m, start, log) && i <= |log| && PassAt(m, log[..i]).Busy?
    requires PassAt(m, log[..i]).gate.NodeLive? || PassAt(m, log[..i]).gate.Open?
    ensures InPass(m, log, k, i) && log[k].NodeRead? && log[k].name == PassAt(m, log[..i]).sw.spec.node
    ensures LiveAndReady(log[k].node) && log[k].node == NodeOf(WorldAt(start, log[..k]), log[k].name)
    decreases i
  {
    hide Rule, Legal, Observe, WorldAt, LiveAndReady, PassAt;
    NothingBefore(m, log, i);
    Prefix(m, start, log, i - 1);
    Advance(m, start, log, i - 1);
    var p, e := PassAt(m, log[..i - 1]), log[i - 1];
    BeginsBlank(m, p, e);
    if e.NodeRead? {
      GateStep(m, p, e);
      k := i - 1;
    } else {
      LearnsOneThing(m, p, e);
      if e.PriorityRead? { GateStep(m, p, e); }
      k := NodeWasReady(m, start, log, i - 1);
      Extended(m, log, k, i - 1);
    }
  }

  /** Behind an open gate stands a read that found the PriorityClass. */
  lemma {:induction false} ClassWasThere(m: Manager, start: World, log: seq<Event>, i: nat) returns (k: nat)
    requires start.revisions != [] && Legal(m, start, log) && i <= |log| && PassAt(m, log[..i]).Busy?
    requires PassAt(m, log[..i]).gate.Open?
    ensures InPass(m, log, k, i) && log[k] == PriorityRead(true) && WorldAt(start, log[..k]).priorityClass
    decreases i
  {
    hide Rule, Legal, Observe, WorldAt, PassAt;
    NothingBefore(m, log, i);
    Prefix(m, start, log, i - 1);
    Advance(m, start, log, i - 1);
    var p, e := PassAt(m, log[..i - 1]), log[i - 1];
    BeginsBlank(m, p, e);
    if e.PriorityRead? {
      GateStep(m, p, e);
      k := i - 1;
    } else {
      LearnsOneThing(m, p, e);
      if e.NodeRead? { GateStep(m, p, e); }
      k := ClassWasThere(m, start, log, i - 1);
      Extended(m, log, k, i - 1);
    }
  }

  /**
   * The node gate, end to end.  Every pass that writes a pod has looked at the node its ShadowWorkload declares and at
   * the PriorityClass, and the node was there, was not terminating and had True as its first Ready condition.
   */
  lemma WriterSawReadyNode(m: Manager, start: World, log: seq<Event>, i: nat) returns (k: nat, c: nat)
    requires Sound(start) && start.revisions != [] && Legal(m, start, log) && i < |log|
    requires log[i].Created? || log[i].Deleted? || log[i].Resized?
    ensures InPass(m, log, k, i) && log[k].NodeRead? && log[k].name == PassAt(m, log[..i]).sw.spec.node
    ensures LiveAndReady(log[k].node) && log[k].node == NodeOf(WorldAt(start, log[..k]), log[k].name)
    ensures InPass(m, log, c, i) && log[c] == PriorityRead(true) && WorldAt(start, log[..c]).priorityClass
  {
    hide Sound, Legal, WorldAt, PassAt, LiveAndReady, Rule;
    WriterIsBusy(m, start, log, i);
    if !PassAt(m, log[..i]).gate.Open? {
      GateStopsWrites(m, start, log, i);
    }
    k := NodeWasReady(m, start, log, i);
    c := ClassWasThere(m, start, log, i);
  }

  lemma WriterIsBusy(m: Manager, start: World, log: seq<Event>, i: nat)
    requires start.revisions != [] && Legal(m, start, log) && i < |log|
    requires log[i].Created? || log[i].Deleted? || log[i].Resized? || log[i].Measured? || log[i].Persisted?
    ensures PassAt(m, log[..i]).Busy?
  {
    hide Legal, PassAt, WorldAt, Accepts, Desired, StatusOf, DueWarnings, Settled, HoldsExactly, DriftExceeds;
    Prefix(m, start, log, i);
  }

  // ----- The measurement -------------------------------------------------------------------------

  /** What a pass knows of its measurement, from the gate to the answers. */
  ghost predicate SourceDecided(m: Manager, p: Pass) {
    p.Busy? ==>
      && (!p.gate.Open? ==> p.outcome.Pending? && p.replies.None?)
      && (p.gate.Open? && p.outcome.Pending? ==> Measurable(m, p.sw.spec) && p.replies.None?)
      && (p.gate.Open? && !p.outcome.Pending? && p.replies.None? ==>
            !Measurable(m, p.sw.spec) && p.outcome == Failing(SourceInvalid, false))
      && (p.replies.Some? ==> Measurable(m, p.sw.spec) && p.outcome == Judge(p.sw.spec, p.replies.value))
  }

  lemma JudgeDecides(spec: Spec, replies: Replies)
    ensures !Judge(spec, replies).Pending?
  {
    hide QueryPair, Sources.Resolve;
  }

  lemma StepDecides(m: Manager, p: Pass, e: Event)
    requires SourceDecided(m, p) && Rule(p, e)
    ensures SourceDecided(m, Observe(m, p, e))
  {
    hide Judge, Measurable, Nodes.EligibilityOf, Settled, StatusOf, DueWarnings, Desired, ResizeDue;
    if e.Measured? && p.Busy? { JudgeDecides(p.sw.spec, e.replies); }
  }

  lemma {:induction false} SourceIsDecided(m: Manager, start: World, log: seq<Event>, i: nat)
    requires start.revisions != [] && Legal(m, start, log) && i <= |log|
    ensures SourceDecided(m, PassAt(m, log[..i]))
    decreases i
  {
    hide Rule, Legal, Observe, WorldAt, SourceDecided;
    if i == 0 {
      assert log[..0] == [];
      assert SourceDecided(m, Idle) by { IdleIsDecided(m); }
    } else {
      SourceIsDecided(m, start, log, i - 1);
      Prefix(m, start, log, i - 1);
      Advance(m, start, log, i - 1);
      StepDecides(m, PassAt(m, log[..i - 1]), log[i - 1]);
    }
  }

  lemma IdleIsDecided(m: Manager)
    ensures SourceDecided(m, Idle)
  {
  }

  /** The manager's policy is the one this configuration makes. */
  ghost predicate Configured(m: Manager, rules: seq<DestinationPolicy.Url>, allowAny: bool) {
    DestinationPolicy.PolicyFor(rules, allowAny, m.ip) == DestinationPolicy.Accepted(m.policy)
  }

  lemma MeasurableIff(m: Manager, rules: seq<DestinationPolicy.Url>, allowAny: bool, spec: Spec)
    requires Configured(m, rules, allowAny)
    ensures Measurable(m, spec) <==> && Sources.Resolve(spec).Ok?
                                     && Origins.InPolicy(rules, allowAny, m.ip, spec.metrics.prometheusURL)
  {
    hide Sources.Resolve, DestinationPolicy.PolicyFor, DestinationPolicy.Validate, Origins.InPolicy;
    Origins.ValidateIffInPolicy(rules, allowAny, m.ip, spec.metrics.prometheusURL);
  }

  /**
   * Egress, end to end.  A backend is asked only for a source that resolves, at a URL with an origin, and only if the
   * operator allowed any origin or named that one.
   */
  lemma QueriesStayInPolicy(m: Manager, start: World, log: seq<Event>, i: nat,
                            rules: seq<DestinationPolicy.Url>, allowAny: bool)
    requires start.revisions != [] && Legal(m, start, log) && i < |log| && log[i].Measured?
    requires Configured(m, rules, allowAny)
    ensures var p := PassAt(m, log[..i]);
            && p.Busy? && p.gate.Open? && Sources.Resolve(p.sw.spec).Ok?
            && Origins.InPolicy(rules, allowAny, m.ip, p.sw.spec.metrics.prometheusURL)
  {
    hide Legal, WorldAt, Sources.Resolve, Origins.InPolicy, Configured, Judge, Measurable;
    Prefix(m, start, log, i);
    SourceIsDecided(m, start, log, i);
    MeasurableIff(m, rules, allowAny, PassAt(m, log[..i]).sw.spec);
  }

  /**
   * The other half.  A pass past the gate that writes its status reports SourceInvalid exactly when its source does not
   * resolve or its URL is outside the policy, and then it has asked nobody anything.
   */
  lemma RefusedSourceIsReported(m: Manager, start: World, log: seq<Event>, i: nat,
                                rules: seq<DestinationPolicy.Url>, allowAny: bool)
    requires start.revisions != [] && Legal(m, start, log) && i < |log| && log[i].Persisted?
    requires Configured(m, rules, allowAny) && PassAt(m, log[..i]).Busy? && PassAt(m, log[..i]).gate.Open?
    ensures var p := PassAt(m, log[..i]);
            var refused := Sources.Resolve(p.sw.spec).Err?
                           || !Origins.InPolicy(rules, allowAny, m.ip, p.sw.spec.metrics.prometheusURL);
            && (log[i].status.degraded == Some(Condition(true, SourceInvalid, p.sw.generation)) <==> refused)
            && (refused ==> && log[i].status.lastMeasurement == p.sw.status.lastMeasurement
                            && forall k: nat :: InPass(m, log, k, i) ==> !log[k].Measured?)
  {
    hide Legal, WorldAt, Sources.Resolve, Origins.InPolicy, Configured, PassAt;
    forall k: nat | InPass(m, log, k, i) && log[k].Measured?
      ensures var p := PassAt(m, log[..i]);
              && Sources.Resolve(p.sw.spec).Ok?
              && Origins.InPolicy(rules, allowAny, m.ip, p.sw.spec.metrics.prometheusURL)
    {
      QueriesStayInPolicy(m, start, log, k, rules, allowAny);
    }
    Prefix(m, start, log, i);
    SourceIsDecided(m, start, log, i);
    var p := PassAt(m, log[..i]);
    MeasurableIff(m, rules, allowAny, p.sw.spec);
    RefusalShows(m, p, log[i]);
  }

  lemma RefusalShows(m: Manager, p: Pass, e: Event)
    requires SourceDecided(m, p) && p.Busy? && p.gate.Open? && Rule(p, e) && e.Persisted?
    ensures e.status.degraded == Some(Condition(true, SourceInvalid, p.sw.generation)) <==> !Measurable(m, p.sw.spec)
    ensures !Measurable(m, p.sw.spec) ==> e.status.lastMeasurement == p.sw.status.lastMeasurement
  {
    hide CurrentPairOf, Desired, DueWarnings, QueryPair, Owned, Sources.Describe, MeasurementPairOf;
    hide DestinationPolicy.Validate, Sources.Resolve;
  }

  /** Behind a measurement stands one question to the backend, in the same pass. */
  lemma {:induction false} BackendWasAsked(m: Manager, start: World, log: seq<Event>, i: nat) returns (k: nat)
    requires start.revisions != [] && Legal(m, start, log) && i <= |log| && PassAt(m, log[..i]).Busy?
    requires PassAt(m, log[..i]).replies.Some?
    ensures InPass(m, log, k, i)
    ensures log[k] == Measured(PassAt(m, log[..i]).replies.value, PassAt(m, log[..i]).measuredAt)
    ensures WorldAt(start, log[..k]).replies == log[k].replies && WorldAt(start, log[..k]).time == log[k].at
    decreases i
  {
    hide Rule, Legal, Observe, WorldAt, PassAt;
    NothingBefore(m, log, i);
    Prefix(m, start, log, i - 1);
    Advance(m, start, log, i - 1);
    var p, e := PassAt(m, log[..i - 1]), log[i - 1];
    BeginsBlank(m, p, e);
    if e.Measured? {
      LearnsMeasured(m, p, e);
      k := i - 1;
    } else {
      LearnsOneThing(m, p, e);
      k := BackendWasAsked(m, start, log, i - 1);
      Extended(m, log, k, i - 1);
    }
  }

  lemma LearnsMeasured(m: Manager, p: Pass, e: Event)
    requires Observe(m, p, e).Busy? && e.Measured?
    ensures p.Busy? && Observe(m, p, e).sw == p.sw
    ensures Observe(m, p, e).replies == Some(e.replies) && Observe(m, p, e).measuredAt == e.at
  {
    hide Judge;
  }

  // ----- What is reserved --------------------------------------------------------------------------

  /** The samples of a pair of answers; an absent pair reads as zero. */
  function ReadingOf(replies: Replies): (r: Reading)
    requires CompletePair(replies) || AbsentPair(replies)
  {
    if CompletePair(replies) then Reading(replies.cpu.values[0].value, replies.memory.values[0].value, true)
    else Reading(0.0, 0.0, false)
  }

  /** Each amount lies inside the bounds, as close to the amount called for as anything inside them comes. */
  predicate ClosestWithin(reserved: Pair, called: Pair, floor: Pair, ceiling: Pair) {
    && floor.cpu <= reserved.cpu <= ceiling.cpu && floor.memory <= reserved.memory <= ceiling.memory
    && (floor.cpu <= called.cpu <= ceiling.cpu ==> reserved.cpu == called.cpu)
    && (called.cpu < floor.cpu ==> reserved.cpu == floor.cpu)
    && (called.cpu > ceiling.cpu ==> reserved.cpu == ceiling.cpu)
    && (floor.memory <= called.memory <= ceiling.memory ==> reserved.memory == called.memory)
    && (called.memory < floor.memory ==> reserved.memory == floor.memory)
    && (called.memory > ceiling.memory ==> reserved.memory == ceiling.memory)
  }

  lemma ClampIsClosest(p: Pair, floor: Pair, ceiling: Pair)
    requires Reservation.Ordered(floor, ceiling)
    ensures ClosestWithin(Clamp(p, floor, ceiling), p, floor, ceiling)
  {
  }

  /** A taken reading is the one the answers hold. */
  lemma TakenIsReadingOf(m: Manager, p: Pass)
    requires SourceDecided(m, p) && p.Busy? && p.outcome.Taken?
    ensures p.replies.Some? && (CompletePair(p.replies.value) || AbsentPair(p.replies.value))
    ensures p.outcome.reading == ReadingOf(p.replies.value)
  {
    hide CompletePair, Measurable;
    if p.replies.Some? && Sources.Resolve(p.sw.spec).Ok? {
      AcceptedIff(Sources.Resolve(p.sw.spec).value, p.replies.value);
    }
    hide QueryPair, Sources.Resolve;
  }

  /** Without a measurement the clamp of nothing is the floor. */
  lemma UnmeasuredIsFloor(sw: Workload, outcome: Outcome)
    requires Admitted(sw.spec) && !outcome.Taken?
    ensures Desired(sw, outcome) == sw.spec.update.floor
  {
    ZeroCallsForNothing();
    hide PairOf;
  }

  lemma ZeroCallsForNothing()
    ensures PairOf(0.0, 0.0) == Pair(0, 0)
  {
    Saturation.PowersUsed();
    Saturation.ZeroRounds();
  }

  /** The pod reserves exactly these amounts on each of its containers, and is limited to them. */
  predicate Reserves(pod: Pod, cpu: Quantity, memory: Quantity) {
    && pod.containers != []
    && forall i :: 0 <= i < |pod.containers| ==>
         && pod.containers[i].requests == map[Cpu := cpu, Memory := memory]
         && pod.containers[i].limits == map[Cpu := cpu, Memory := memory]
  }

  /** A created pod: the workload's own, visible, pinned to the declared node, with one container. */
  predicate Canonical(pod: Pod, sw: Workload) {
    && pod.owner == Some(Owner(sw.name, sw.uid, "ShadowWorkload", "symbiont.tensorhost.com/v1alpha1"))
    && pod.managed && pod.node == sw.spec.node && |pod.containers| == 1
  }

  /** The pod written reserves one pair: the closest to what was called for, or the floor. */
  ghost predicate Backed(p: Pass, e: Event, called: Pair)
    requires p.Busy? && (e.Created? || e.Resized?)
  {
    && (e.Created? ==> Canonical(e.pod, p.sw))
    && exists cpu, memory ::
         && Reserves(e.pod, cpu, memory)
         && if p.outcome.Taken?
            then ClosestWithin(Pair(cpu, memory), called, p.sw.spec.update.floor, p.sw.spec.update.ceiling)
            else e.Created? && Pair(cpu, memory) == p.sw.spec.update.floor
  }

  /** The pair is what the answers of the pass call for. */
  ghost predicate CalledForBy(p: Pass, called: Pair)
    requires p.Busy?
  {
    && p.replies.Some? && (CompletePair(p.replies.value) || AbsentPair(p.replies.value))
    && (Saturation.SamplesAreBinary64(p.replies.value) ==> Saturation.CallsFor(ReadingOf(p.replies.value), called))
  }

  /**
   * What is reserved.  Every created or resized pod reserves on each container, as requests and as limits, one pair
   * inside the bounds of the spec its pass read.  After a measurement that pair is the closest to what the answers call
   * for: CPU in whole millicores, memory in whole bytes.  Without one, which only a create can be, it is the floor.
   */
  lemma WritesMatchMeasurement(m: Manager, start: World, log: seq<Event>, i: nat) returns (called: Pair)
    requires Sound(start) && start.revisions != [] && Legal(m, start, log) && i < |log|
    requires log[i].Created? || log[i].Resized?
    ensures PassAt(m, log[..i]).Busy? && Backed(PassAt(m, log[..i]), log[i], called)
    ensures PassAt(m, log[..i]).outcome.Taken? ==> CalledForBy(PassAt(m, log[..i]), called)
  {
    hide Sound, Legal, WorldAt, PassAt, Accepts, Remembers, Sources.Resolve, QueryPair, Desired;
    RunInvariant(m, start, log, i);
    Prefix(m, start, log, i);
    SourceIsDecided(m, start, log, i);
    var w, p, e := WorldAt(start, log[..i]), PassAt(m, log[..i]), log[i];
    called := Pair(0, 0);
    PassIsAdmitted(w, p);
    WritesGoal(w, p, e);
    var goal := Desired(p.sw, p.outcome);
    WrittenPod(w, p, e, goal);
    if p.outcome.Taken? {
      called := MeasuredGoal(m, p);
    } else {
      UnmeasuredIsFloor(p.sw, p.outcome);
    }
  }

  lemma WrittenPod(w: World, p: Pass, e: Event, goal: Pair)
    requires w.revisions != [] && Accepts(w, e) && Rule(p, e) && (e.Created? || e.Resized?) && p.Busy?
    requires HoldsExactly(e.pod, goal) && e.pod.containers != [] && goal == Desired(p.sw, p.outcome)
    ensures Reserves(e.pod, goal.cpu, goal.memory) && (e.Created? ==> Canonical(e.pod, p.sw))
    ensures e.Resized? ==> p.outcome.Taken?
  {
    hide Desired;
  }

  lemma MeasuredGoal(m: Manager, p: Pass) returns (called: Pair)
    requires SourceDecided(m, p) && p.Busy? && p.outcome.Taken? && Admitted(p.sw.spec)
    ensures p.replies.Some? && (CompletePair(p.replies.value) || AbsentPair(p.replies.value))
    ensures ClosestWithin(Desired(p.sw, p.outcome), called, p.sw.spec.update.floor, p.sw.spec.update.ceiling)
    ensures Saturation.SamplesAreBinary64(p.replies.value) ==> Saturation.CallsFor(ReadingOf(p.replies.value), called)
  {
    hide PairOf, Clamp, ClosestWithin, Measurable, Saturation.CallsFor;
    TakenIsReadingOf(m, p);
    var r := p.outcome.reading;
    called := PairOf(r.cpu, r.memory);
    ClampIsClosest(called, p.sw.spec.update.floor, p.sw.spec.update.ceiling);
    if Saturation.SamplesAreBinary64(p.replies.value) {
      TakenIsUsable(m, p);
      Saturation.ConversionIsClose(r);
    }
  }

  lemma TakenIsUsable(m: Manager, p: Pass)
    requires SourceDecided(m, p) && p.Busy? && p.outcome.Taken? && p.replies.Some?
    requires Saturation.SamplesAreBinary64(p.replies.value)
    ensures Saturation.Usable(p.outcome.reading)
  {
    hide Measurable, Saturation.Usable;
    if Sources.Resolve(p.sw.spec).Ok? {
      Saturation.AcceptedReadingIsUsable(Sources.Resolve(p.sw.spec).value, p.replies.value);
    }
    hide QueryPair, Sources.Resolve;
  }
}
