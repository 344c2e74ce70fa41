/**
 * What one pass of the controller amounts to, on values: how its locals mirror what it has learned, what it makes of
 * each answer, and what a pass does to the world when nothing interferes.
 */
module Passes {
  import opened Wrappers
  import opened Api
  import opened Shadow
  import opened Backend
  import opened Protocol
  import Metrics
  import Naming
  import Nodes
  import Safety
  import Sources

  // ----- What a pass returns ----------------------------------------------------------------

  /** `ctrl.Result` and the error beside it; durations in nanoseconds. */
  datatype CtrlResult = CtrlResult(requeueAfter: nat, failed: bool)

  const FAILURE: CtrlResult := CtrlResult(0, true)

  const NANOSECOND: nat := 1

  const DEFAULT_POLL: nat := 30_000_000_000

  /** The declared poll interval, or the default when it does not parse to a positive duration. */
  function PollInterval(spec: Spec): (d: nat)
    ensures d > 0
    ensures forall n :: spec.update.pollInterval == Some(n) && n > 0 ==> d == n
    ensures !(exists n :: spec.update.pollInterval == Some(n) && n > 0) ==> d == 30 * 1_000_000_000
  {
    if spec.update.pollInterval.None? || spec.update.pollInterval.value <= 0 then DEFAULT_POLL
    else spec.update.pollInterval.value
  }

  /** The pass ends here, with an error or a requeue. */
  predicate Stops(res: CtrlResult) {
    res.failed || res.requeueAfter > 0
  }

  /** How a pass ends: with an error, with a retry at once, or on the poll clock. */
  predicate Ends(res: CtrlResult, poll: nat) {
    res == FAILURE || res == CtrlResult(NANOSECOND, false) || (poll > 0 && res == CtrlResult(poll, false))
  }

  /** When the pass ends here, what it returns. */
  function Requeue(stop: Option<CtrlResult>, immediately: bool, poll: nat): CtrlResult {
    if stop.Some? then stop.value else CtrlResult(if immediately then NANOSECOND else poll, false)
  }

  // ----- The locals of a pass -----------------------------------------------------------------

  /** The locals of a pass say what the pass has learned. */
  ghost predicate Reflects(sw: Workload, degraded: Option<Reason>, ready: Reason, observed: Option<Pod>,
                           p: Protocol.Pass)
  {
    && p.Busy?
    && sw == p.sw.(status := Recorded(p.sw, p.outcome, p.measuredAt, p.resizedAt).(current := sw.status.current))
    && (p.held.None? ==> sw.status.current == p.sw.status.current)
    && degraded == Trouble(p)
    && ready == p.ready
    && observed == p.held
    && p.warnings == DueWarnings(p)
  }

  lemma OnlyStatusDiffers(sw: Workload, degraded: Option<Reason>, ready: Reason, observed: Option<Pod>,
                          p: Protocol.Pass)
    requires Reflects(sw, degraded, ready, observed, p)
    ensures p.Busy? && sw == p.sw.(status := sw.status)
  {
  }

  /** Nothing has been learned or done about the phantom yet. */
  predicate Fresh(p: Protocol.Pass) {
    && p.Busy? && p.cached.Unread? && !p.collided && p.live.Unread? && p.held.None? && !p.refused
    && p.resizedAt.None? && p.ready == WithinThreshold
  }

  /** The pass has only read the ShadowWorkload and looked at the gate. */
  predicate AtGate(p: Protocol.Pass) {
    p.Busy? && p.outcome.Pending? && p.replies.None? && Fresh(p)
  }

  /** The pass has measured, or failed to, and has not yet looked for the phantom. */
  predicate BeforePhantom(p: Protocol.Pass) {
    Measurement(p) && Fresh(p)
  }

  /** The cache shows no phantom and the pass knows what it wants. */
  predicate AwaitsPhantom(p: Protocol.Pass, desired: Pair) {
    p.Busy? && BeforePhantom(p.(cached := Unread)) && p.cached.Absent? && desired == Desired(p.sw, p.outcome)
  }

  /** The pass after the cache showed it a pod. */
  function Seeing(p: Protocol.Pass, pod: Pod): Protocol.Pass
    requires p.Busy?
  {
    p.(cached := Found(pod), held := if Owned(pod, p.sw) && pod.node == p.sw.spec.node then Some(pod) else None)
  }

  predicate HoldsVisible(p: Protocol.Pass) {
    && Measurement(p) && p.held.Some? && p.cached == Found(p.held.value) && Owned(p.held.value, p.sw)
    && !Misplaced(p) && p.live.Unread? && !p.refused && p.resizedAt.None?
  }

  /** The same pass, past the measurement. */
  predicate SamePass(before: Protocol.Pass, after: Protocol.Pass) {
    && before.Busy? && after.Busy?
    && after.sw == before.sw && after.outcome == before.outcome && after.replies == before.replies
    && after.measuredAt == before.measuredAt
  }

  predicate Untroubled(p: Protocol.Pass) {
    p.Busy? && Trouble(p).None?
  }

  predicate JustBegan(sw: Workload, p: Protocol.Pass) {
    p == Opening(sw)
  }

  lemma BeginsInStep(sw: Workload, p: Protocol.Pass)
    requires JustBegan(sw, p)
    ensures Reflects(sw, None, WithinThreshold, None, p) && AtGate(p)
  {
  }

  lemma InStepMayEnd(sw: Workload, degraded: Option<Reason>, ready: Reason, observed: Option<Pod>, p: Protocol.Pass)
    requires Reflects(sw, degraded, ready, observed, p)
    ensures MayEnd(p)
  {
  }

  // ----- What a pass makes of each answer -------------------------------------------------------

  /** Reading the node: an eligible one opens the gate halfway, any other blocks it for good. */
  lemma NodeVerdict(m: Manager, l: (Workload, Option<Reason>, Reason, Option<Pod>), p: Protocol.Pass,
                    node: Option<Nodes.Node>)
    requires Reflects(l.0, l.1, l.2, l.3, p) && AtGate(p) && p.gate.Unchecked?
    ensures Rule(p, NodeRead(l.0.spec.node, node)) && l.1.None? && l.0.status.degraded == p.sw.status.degraded
    ensures var why := Nodes.EligibilityOf(node);
            var q := Observe(m, p, NodeRead(l.0.spec.node, node));
            var r := if why.Eligible? then q else q.(warnings := q.warnings + Transition(p.sw, NodeReason(why)));
            && q.Busy? && q.sw == p.sw && AtGate(r)
            && r.gate == (if why.Eligible? then NodeLive else Blocked(NodeReason(why)))
            && Reflects(l.0, if why.Eligible? then None else Some(NodeReason(why)), l.2, l.3, r)
  {
    hide Recorded, Nodes.EligibilityOf;
  }

  /** A pass stopped at the gate is settled, and reports the gate and nothing else. */
  lemma BlockedReports(p: Protocol.Pass)
    requires AtGate(p) && p.gate.Blocked?
    ensures Settled(p) && StatusOf(p) == Deferred(p.sw, p.gate.reason)
  {
  }

  /** Asking the backend of a measurable source: the answer is judged, and nothing else is decided by it. */
  lemma AskVerdict(m: Manager, l: (Workload, Option<Reason>, Reason, Option<Pod>), p: Protocol.Pass, replies: Replies,
                   at: Metrics.Time)
    requires p.Busy? && p.gate.Open? && AtGate(p) && Reflects(l.0, l.1, l.2, l.3, p)
    ensures Rule(p, Measured(replies, at))
    ensures var q := Observe(m, p, Measured(replies, at));
            && q.Busy? && q.sw == p.sw && q.gate.Open? && q.outcome == Judge(p.sw.spec, replies)
            && q.replies == Some(replies) && q.measuredAt == at
            && AtGate(q.(outcome := Pending, replies := None))
            && Reflects(l.0, l.1, l.2, l.3, q.(outcome := Pending, replies := None))
  {
    hide Judge;
  }

  /** A refused answer degrades the pass for its reason and warns. */
  lemma AnswerVerdict(l: (Workload, Option<Reason>, Reason, Option<Pod>), p: Protocol.Pass, reason: Reason)
    requires p.Busy? && p.gate.Open? && p.outcome == Failing(reason, true)
    requires AtGate(p.(outcome := Pending, replies := None))
    requires Reflects(l.0, l.1, l.2, l.3, p.(outcome := Pending, replies := None))
    ensures l.1.None?
    ensures var q := p.(warnings := p.warnings + [reason]);
            BeforePhantom(q) && Reflects(l.0, Some(reason), l.2, l.3, q)
  {
  }

  /** Reading the PriorityClass: a missing one blocks the gate for good. */
  lemma PriorityVerdict(m: Manager, l: (Workload, Option<Reason>, Reason, Option<Pod>), p: Protocol.Pass)
    requires Reflects(l.0, l.1, l.2, l.3, p) && AtGate(p) && p.gate.NodeLive?
    ensures p.Busy? && l.1.None? && l.0.status.degraded == p.sw.status.degraded
    ensures Rule(p, PriorityRead(true)) && Rule(p, PriorityRead(false))
    ensures var q := Observe(m, p, PriorityRead(false));
            var r := q.(warnings := q.warnings + Transition(p.sw, PriorityClassMissing));
            && q.Busy? && q.sw == p.sw && AtGate(r) && r.gate == Blocked(PriorityClassMissing)
            && Reflects(l.0, Some(PriorityClassMissing), l.2, l.3, r)
    ensures var q := Observe(m, p, PriorityRead(true));
            && q.Busy? && q.sw == p.sw && q.gate.Open? && AtGate(q.(outcome := Pending))
            && q.outcome == (if Measurable(m, p.sw.spec) then Pending else Failing(SourceInvalid, false))
            && Reflects(l.0, l.1, l.2, l.3, q.(outcome := Pending))
  {
    hide Recorded, Measurable;
  }

  /** Deleting a misplaced pod settles the pass. */
  lemma StaleVerdict(m: Manager, l: (Workload, Option<Reason>, Reason, Option<Pod>), before: Protocol.Pass, pod: Pod)
    requires BeforePhantom(before) && Reflects(l.0, l.1, l.2, l.3, before)
    requires Owned(pod, before.sw) && pod.node != before.sw.spec.node
    ensures var p := before.(cached := Found(pod));
            && Rule(p, Deleted(pod.uid, true)) && Observe(m, p, Deleted(pod.uid, true)) == p && Settled(p) && MayEnd(p)
            && Reflects(l.0, if l.1.Some? then l.1 else Some(PhantomRecreating), l.2, l.3, p)
  {
    hide Recorded, Owned, Desired;
  }

  /** Looking for the phantom in the cache: missing it changes no verdict, and what it shows is remembered. */
  lemma CacheVerdict(m: Manager, l: (Workload, Option<Reason>, Reason, Option<Pod>), p: Protocol.Pass)
    requires BeforePhantom(p) && Reflects(l.0, l.1, l.2, l.3, p)
    ensures Rule(p, PodRead(None)) && Observe(m, p, PodRead(None)) == p.(cached := Absent) && MayEnd(p)
    ensures Reflects(l.0, l.1, l.2, l.3, p.(cached := Absent))
    ensures forall pod :: Rule(p, PodRead(Some(pod))) && Observe(m, p, PodRead(Some(pod))) == Seeing(p, pod)
  {
  }

  /** A collision, and an owned or absent pod past the cache, are nothing to warn of. */
  lemma CollisionVerdict(p: Protocol.Pass)
    requires MayEnd(p) && p.live.Unread?
    ensures MayEnd(p.(collided := true)) && MayEnd(p.(live := Absent))
    ensures forall pod :: Owned(pod, p.sw) ==> MayEnd(p.(live := Found(pod)))
  {
    hide Owned;
  }

  /** A delete leaves the pass knowing what it knew. */
  lemma DropVerdict(m: Manager, p: Protocol.Pass, uid: nat)
    requires p.Busy?
    ensures Observe(m, p, Deleted(uid, true)) == p
  {
  }

  /** A create settles the pass and raises no new trouble; a collision is only remembered. */
  lemma CreateVerdict(m: Manager, p: Protocol.Pass, desired: Pair, pod: Pod)
    requires AwaitsPhantom(p, desired)
    requires pod == BuildPhantomPod(p.sw, desired).(uid := pod.uid, resourceVersion := pod.resourceVersion)
    ensures Rule(p, Collided) && Observe(m, p, Collided) == p.(collided := true)
    ensures Rule(p, Created(pod, true)) && MayCreate(p, pod)
    ensures Observe(m, p, Created(pod, true)) == p.(held := Some(pod), ready := PhantomCreated)
    ensures var q := p.(held := Some(pod), ready := PhantomCreated);
            && Settled(q) && !Misplaced(q) && Trouble(q) == Trouble(p) && DueWarnings(q) == DueWarnings(p)
            && (p.outcome.Taken? ==> Trouble(q).None?)
  {
    hide Desired;
  }

  /** Over a visible phantom at home a pass is healthy exactly when it measured, and settled once no resize is due. */
  lemma VisibleVerdict(p: Protocol.Pass)
    requires HoldsVisible(p)
    ensures Trouble(p).None? <==> p.outcome.Taken?
    ensures ResizeDue(p) <==> p.outcome.Taken? && DriftExceeds(CurrentPairOf(p.held.value), Desired(p.sw, p.outcome),
                                                               p.sw.spec.update.threshold)
    ensures (!ResizeDue(p) ==> Settled(p)) && Settled(p.(refused := true))
  {
    hide Desired, DriftExceeds, CurrentPairOf, Owned;
  }

  /** What a pass makes of the two ends of a due resize. */
  lemma ResizeVerdict(m: Manager, p: Protocol.Pass, base: Pod, pod: Pod, at: Metrics.Time)
    requires ResizeDue(p) && !p.refused && p.cached == Found(base) && p.held == Some(base)
    requires HoldsExactly(pod, Desired(p.sw, p.outcome))
    ensures Rule(p, ResizeRefused) && Observe(m, p, ResizeRefused) == p.(refused := true)
    ensures Rule(p, Event.Resized(base, pod, at, true)) && MayResize(p, base, pod.containers)
    ensures Observe(m, p, Event.Resized(base, pod, at, true))
            == p.(held := Some(pod), resizedAt := Some(at), ready := Reason.Resized)
  {
    hide Desired, DriftExceeds, CurrentPairOf;
  }

  lemma ReshapedHoldsExactly(pod: Pod, desired: Pair)
    requires pod.containers != []
    ensures var reshaped := pod.(containers := Reshape(pod.containers, desired));
            HoldsExactly(reshaped, desired) && CurrentPairOf(reshaped) == desired
  {
  }

  /** An accepted resize to the goal settles the pass and raises no trouble. */
  lemma ResizeSettles(p: Protocol.Pass, pod: Pod, at: Metrics.Time)
    requires HoldsVisible(p) && p.outcome.Taken? && Admitted(p.sw.spec)
    requires CurrentPairOf(pod) == Desired(p.sw, p.outcome)
    ensures var q := p.(held := Some(pod), resizedAt := Some(at), ready := Reason.Resized);
            Settled(q) && Trouble(q).None? && Trouble(p).None? && DueWarnings(q) == DueWarnings(p)
  {
    Safety.DesiredIsBounded(p.sw, p.outcome);
    hide Desired, DriftExceeds, CurrentPairOf, Owned;
  }

  /** A settled pass may write the status its locals have come to. */
  lemma PersistVerdict(sw: Workload, degraded: Option<Reason>, ready: Reason, observed: Option<Pod>, p: Protocol.Pass)
    requires Reflects(sw, degraded, ready, observed, p) && Settled(p)
    ensures p.Busy? && degraded == Trouble(p) && ready == p.ready && MayEnd(p)
    ensures Rule(p, Persisted(p.sw.status, StatusOf(p), true))
  {
    hide Settled, StatusOf, Trouble, DueWarnings, Recorded;
  }

  // ----- What a pass counts -----------------------------------------------------------------------

  /** The condition reason of a backend error. */
  function QueryReason(e: QueryError): Reason {
    if e.TargetUnavailable? then CadvisorTargetUnavailable else PrometheusUnavailable
  }

  /** The bounded failure reason of a backend error. */
  function FailureReason(e: QueryError): (reason: string)
    ensures reason in Metrics.KNOWN_REASONS
  {
    match e
    case QueryFailed => "prometheus_unavailable"
    case MultiSample => "multi_sample"
    case PartialSample => "partial_sample"
    case InvalidSample => "invalid_sample"
    case TargetUnavailable => "target_unavailable"
  }

  /** The stamp of a success; the zero time stamps nothing. */
  function SuccessCalls(namespace: string, name: string, at: Metrics.Time): seq<Metrics.Call> {
    if at == Metrics.ZERO_TIME then [] else [Metrics.Succeeded(namespace, name, at)]
  }

  /** The calls a measurement makes on the Recorder: the footprint and its stamp, or the failure. */
  function MeasurementCalls(namespace: string, name: string, p: Protocol.Pass): seq<Metrics.Call>
    requires p.Busy?
  {
    if p.outcome.Taken? then
      [Metrics.Observed(namespace, name, p.outcome.reading.cpu, p.outcome.reading.memory)]
      + SuccessCalls(namespace, name, p.measuredAt)
    else
      [Metrics.Failed(namespace, name, MeasurementFailure(p))]
  }

  function MeasurementFailure(p: Protocol.Pass): string
    requires p.Busy?
  {
    if p.replies.None? || Sources.Resolve(p.sw.spec).Err? then "source_missing"
    else
      match QueryPair(Sources.Resolve(p.sw.spec).value, p.replies.value)
      case Err(e) => FailureReason(e)
      case Ok(_) => ""
  }

  lemma MeasurementCallsIgnoreWarnings(namespace: string, name: string, p: Protocol.Pass)
    requires p.Busy?
    ensures forall ws :: MeasurementCalls(namespace, name, p.(warnings := ws)) == MeasurementCalls(namespace, name, p)
  {
  }

  /** The calls the phantom's management makes: one for an accepted write, one for a rejected resize. */
  function WriteCalls(namespace: string, name: string, p: Protocol.Pass): seq<Metrics.Call>
    requires p.Busy?
  {
    if p.refused then [Metrics.Failed(namespace, name, "resize_rejected")]
    else if p.ready.PhantomCreated? || p.ready.Resized? then [Metrics.Updated(namespace, name)]
    else []
  }

  /** The reserved gauges set to what a pod holds, in cores and bytes. */
  function GaugeCall(namespace: string, name: string, pod: Pod): Metrics.Call {
    var pair := CurrentPairOf(pod);
    Metrics.Reserved(namespace, name, pair.cpu as real / NANO as real, pair.memory as real / NANO as real)
  }

  /** The gauges follow the phantom a pass holds. */
  function GaugeCalls(namespace: string, name: string, p: Protocol.Pass): seq<Metrics.Call>
    requires p.Busy?
  {
    if p.held.None? then [] else [GaugeCall(namespace, name, p.held.value)]
  }

  /** The last call on the Recorder showed what the live pod holds. */
  predicate GaugesFollow(history: seq<Metrics.Call>, namespace: string, name: string, w: World) {
    && history != [] && w.revisions != [] && Live(w).Some?
    && history[|history| - 1] == GaugeCall(namespace, name, Live(w).value)
  }

  // ----- Calm weather -------------------------------------------------------------------------

  function WithStatus(w: World, status: Status): World {
    if w.cr.Some? then w.(cr := Some(w.cr.value.(status := status))) else w
  }

  ghost predicate GateOpens(w: World, sw: Workload) {
    Nodes.EligibilityOf(NodeOf(w, sw.spec.node)).Eligible? && w.priorityClass
  }

  /** Why the gate is shut. */
  ghost function GateReason(w: World, sw: Workload): Reason {
    var why := Nodes.EligibilityOf(NodeOf(w, sw.spec.node));
    if why.Eligible? then PriorityClassMissing else NodeReason(why)
  }

  /** The status of a workload whose management is deferred: both conditions say why, everything else is kept. */
  function Deferred(sw: Workload, reason: Reason): Status {
    sw.status.(ready := Some(Condition(false, reason, sw.generation)),
               degraded := Some(Condition(true, reason, sw.generation)))
  }

  /** The gate was shut: the pass reported why, and touched nothing else. */
  ghost predicate Defers(before: World, after: World) {
    && before.cr.Some? && !GateOpens(before, before.cr.value)
    && after == WithStatus(before, Deferred(before.cr.value, GateReason(before, before.cr.value)))
  }

  /** One undisturbed pass can go all the way: gate open, source measurable, answers good, no foreign pod. */
  ghost predicate Hospitable(m: Manager, w: World) {
    && w.cr.Some? && w.revisions != []
    && (var sw := w.cr.value;
        && GateOpens(w, sw)
        && Measurable(m, sw.spec) && Judge(sw.spec, w.replies).Taken?
        && (Live(w).None? || Owned(Live(w).value, sw)))
  }

  /** The reservation the declaration and the current measurement call for. */
  function Goal(w: World): Pair
    requires w.cr.Some?
  {
    Desired(w.cr.value, Judge(w.cr.value.spec, w.replies))
  }

  /** Ready is True, and what the status reports of reservation, measurement and source is current. */
  predicate TellsTruth(w: World) {
    && w.cr.Some? && w.revisions != [] && Live(w).Some?
    && (var st := w.cr.value.status;
        && st.ready.Some? && st.ready.value.status && st.ready.value.observedGeneration == w.cr.value.generation
        && st.degraded == Some(Condition(false, AsExpected, w.cr.value.generation))
        && st.phantomPod == Naming.PhantomName(w.cr.value.name)
        && st.current == CurrentPairOf(Live(w).value)
        && st.lastMeasurement.Some? && st.lastMeasurement.value.observedGeneration == w.cr.value.generation
        && st.resolvedSource == Some(Sources.Describe(w.cr.value.spec)))
  }

  /**
   * `after` is one calm step on from `before` and otherwise differs from it in status alone; when the phantom was
   * absent or at home, the status tells the truth about the phantom.
   */
  ghost predicate Approaches(before: World, after: World) {
    && before.cr.Some? && before.revisions != [] && after.cr.Some?
    && (var sw := before.cr.value;
        && after == WithStatus(CalmStep(before, sw, Goal(before)), after.cr.value.status)
        && (Live(before).None? || InPlace(Live(before).value, sw)
            ==> TellsTruth(after)))
  }

  predicate Vacant(w: World) {
    w.revisions != [] && Live(w).None?
  }

  /** The live pod belongs to the pass's workload. */
  predicate Ours(w: World, p: Protocol.Pass) {
    p.Busy? && w.revisions != [] && Live(w).Some? && Owned(Live(w).value, p.sw)
  }

  /** Measured, and nobody else's pod is in the way. */
  predicate CalmPass(w: World, p: Protocol.Pass) {
    p.Busy? && p.outcome.Taken? && (Vacant(w) || Ours(w, p))
  }

  /** Nothing is there yet, or the phantom is where it belongs. */
  predicate AtHome(w: World, p: Protocol.Pass) {
    p.Busy? && w.revisions != [] && (Live(w).None? || InPlace(Live(w).value, p.sw))
  }

  /** What the cache showed is the live pod, and it is the workload's own. */
  predicate ShowsOurs(w: World, p: Protocol.Pass, pod: Pod) {
    p.Busy? && p.outcome.Taken? && w.revisions != [] && Live(w) == Some(pod) && pod.managed && Owned(pod, p.sw)
  }

  /** A calm pass comes back on the poll clock, or at once after it dropped a pod it could see on the wrong node. */
  function CalmResult(w: World, p: Protocol.Pass, poll: nat): CtrlResult {
    var repin := p.Busy? && w.revisions != [] && Live(w).Some? && Live(w).value.managed
                 && Live(w).value.node != p.sw.spec.node;
    CtrlResult(if repin then NANOSECOND else poll, false)
  }

  predicate IsLive(w: World, pod: Option<Pod>) {
    w.revisions != [] && Live(w) == pod
  }

  /** The pass is healthy, measured, and holds the live pod. */
  predicate Tracking(w: World, p: Protocol.Pass) {
    Untroubled(p) && p.outcome.Taken? && p.held.Some? && IsLive(w, p.held)
  }

  predicate OnlyDeleted(before: World, after: World) {
    after == Write(before, None)
  }

  /** What `ResizePhantom` does to the key when nothing interferes. */
  predicate OnlyResized(before: World, pod: Pod, desired: Pair, after: World) {
    && |before.revisions| > 0
    && after == Write(before, Some(pod.(containers := Reshape(pod.containers, desired),
                                        resourceVersion := |before.revisions|)))
  }

  ghost predicate CalmlyStepped(before: World, p: Protocol.Pass, after: World) {
    p.Busy? && before.revisions != [] && after == CalmStep(before, p.sw, Desired(p.sw, p.outcome))
  }

  /** The pass is about to measure, every query will be answered well, and nobody else's pod is in the way. */
  ghost predicate ManagesCalmly(m: Manager, w: World, p: Protocol.Pass) {
    p.Busy? && Measurable(m, p.sw.spec) && Judge(p.sw.spec, w.replies).Taken? && (Vacant(w) || Ours(w, p))
  }

  ghost predicate StepsTowardsGoal(before: World, p: Protocol.Pass, after: World) {
    p.Busy? && before.revisions != []
    && after == CalmStep(before, p.sw, Desired(p.sw, Judge(p.sw.spec, before.replies)))
  }

  // ----- One calm pass, put together --------------------------------------------------------

  /** Dropping the workload's own unlabelled pod is the calm step. */
  lemma DropIsCalm(before: World, p: Protocol.Pass, after: World)
    requires Ours(before, p) && Visible(Live(before)).None? && OnlyDeleted(before, after)
    ensures CalmlyStepped(before, p, after)
  {
    hide Desired, Owned, DriftExceeds;
  }

  /** Over a visible phantom at home, resizing exactly on drift is the calm step. */
  lemma ResizeIsCalm(before: World, p: Protocol.Pass, pod: Pod, desired: Pair, after: World)
    requires HoldsVisible(p) && p.held == Some(pod) && ShowsOurs(before, p, pod) && desired == Desired(p.sw, p.outcome)
    requires if DriftExceeds(CurrentPairOf(pod), desired, p.sw.spec.update.threshold)
             then OnlyResized(before, pod, desired, after) else after == before
    ensures CalmlyStepped(before, p, after)
  {
    hide Desired, Owned, DriftExceeds, CurrentPairOf, Reshape;
  }

  lemma StepKeepsWorkload(before: World, p: Protocol.Pass, after: World)
    requires StepsTowardsGoal(before, p, after)
    ensures after.cr == before.cr
  {
    hide Judge, InPlace, Desired, DriftExceeds, BuildPhantomPod;
  }

  /** A pass that stopped early had a misplaced or unlabelled phantom to drop. */
  lemma StoppedPassApproaches(before: World, p: Protocol.Pass, after: World)
    requires p.Busy? && before.cr == Some(p.sw) && StepsTowardsGoal(before, p, after) && !AtHome(before, p)
    ensures Approaches(before, after)
  {
    hide Judge, InPlace, Desired, DriftExceeds, BuildPhantomPod;
  }

  lemma FinishedPassApproaches(before: World, p: Protocol.Pass, managed: World, end: Protocol.Pass, after: World)
    requires p.Busy? && before.cr == Some(p.sw) && StepsTowardsGoal(before, p, managed)
    requires end.Busy? && end.sw == p.sw && (AtHome(before, p) ==> Tracking(managed, end))
    requires after == WithStatus(managed, StatusOf(end))
    ensures Approaches(before, after)
  {
    hide Judge, InPlace, Desired, DriftExceeds, BuildPhantomPod, CurrentPairOf, Naming.PhantomName;
    hide MeasurementPairOf, Sources.Describe;
  }

  /** After a finished calm pass at home the gauges show the live pod. */
  lemma FinishedPassGauges(before: seq<Metrics.Call>, after: seq<Metrics.Call>, namespace: string, name: string,
                           managed: World, end: Protocol.Pass, w: World)
    requires Tracking(managed, end) && w.revisions == managed.revisions
    requires after == before + GaugeCalls(namespace, name, end)
    ensures GaugesFollow(after, namespace, name, w)
  {
    hide GaugeCall, Trouble;
  }
}
