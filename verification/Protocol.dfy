/**
 * The reconcile protocol at the grain of single API calls.
 *
 * A World is the API server around one ShadowWorkload.  A log lists everything that happened to it: steps of
 * the environment, which may come between any two calls, and the calls of the controller with their outcomes.
 * `Accepts` says what the server allows, `Rule` what the controller may do given what its current pass has
 * learned, and a log is legal when every event in it obeys both.
 */
module Protocol {
  import opened Wrappers
  import opened Api
  import opened Shadow
  import opened Backend
  import MergePatch
  import Metrics
  import Sources
  import Naming
  import Nodes
  import DestinationPolicy

  // ----- The server --------------------------------------------------------------------

  /**
   * `revisions` is the history of the phantom key: entry k is what the key held after write k, so the last
   * entry is the live pod and a pod written by write k carries resource version k.  `cr` is the ShadowWorkload of
   * that namespace and name, if there is one; it may be deleted and created again, each time under a uid above
   * `lastUid`.  `specs` lists the specs of its latest life by generation.  `replies` is what the metrics backend
   * answers at the moment.
   */
  datatype World = World(namespace: string, name: string, cr: Option<Workload>, lastUid: nat, specs: seq<Spec>,
                         revisions: seq<Option<Pod>>, nodes: map<string, Nodes.Node>, priorityClass: bool,
                         replies: Replies, time: Metrics.Time)

  function Live(w: World): Option<Pod>
    requires w.revisions != []
  {
    w.revisions[|w.revisions| - 1]
  }

  /** The label-scoped cache shows a pod only while the managed-by label is on it. */
  function Visible(pod: Option<Pod>): Option<Pod> {
    if pod.Some? && pod.value.managed then pod else None
  }

  /** Each write has its own resource version, uids are never reused, and a uid keeps its controller owner. */
  ghost predicate Sound(w: World) {
    && w.revisions != []
    && (forall k :: 0 <= k < |w.revisions| && w.revisions[k].Some? ==>
          && w.revisions[k].value.resourceVersion == k && w.revisions[k].value.uid <= k
          && w.revisions[k].value.containers != [])
    && (forall j, k :: 0 <= j < k < |w.revisions| && w.revisions[j].Some? && w.revisions[k].Some?
          && w.revisions[j].value.uid == w.revisions[k].value.uid
          ==> w.revisions[j].value.owner == w.revisions[k].value.owner)
    && (w.cr.Some? ==>
          && w.cr.value.name == w.name && w.cr.value.uid <= w.lastUid
          && |w.specs| == w.cr.value.generation + 1 && w.specs[w.cr.value.generation] == w.cr.value.spec)
    && (forall g :: 0 <= g < |w.specs| ==> Admitted(w.specs[g]))
  }

  // ----- The environment ---------------------------------------------------------------

  datatype EnvStep =
    | EditSpec(spec: Spec)
    | DeleteWorkload
    | Recreate(spec: Spec)
    | PutPod(owner: Option<Owner>, managed: bool, node: string, containers: seq<Container>)
    | RemovePod
    | Relabel(managed: bool)
    | EditResources(containers: seq<Container>)
    | SetNode(name: string, entry: Option<Nodes.Node>)
    | SetPriorityClass(present: bool)
    | SetReplies(replies: Replies)
    | Tick(elapsed: nat)

  function Write(w: World, pod: Option<Pod>): World {
    w.(revisions := w.revisions + [pod])
  }

  /** One step of the environment; a step that does not apply changes nothing. */
  function Disturb(w: World, step: EnvStep): World
    requires w.revisions != []
  {
    var next := |w.revisions|;
    match step
    case EditSpec(spec) =>
      if w.cr.Some? && Admitted(spec)
      then w.(cr := Some(w.cr.value.(spec := spec, generation := w.cr.value.generation + 1)), specs := w.specs + [spec])
      else w
    case DeleteWorkload => w.(cr := None)
    case Recreate(spec) =>
      if w.cr.None? && Admitted(spec)
      then w.(cr := Some(Workload(w.namespace, w.name, w.lastUid + 1, 0, spec, BLANK)), lastUid := w.lastUid + 1,
              specs := [spec])
      else w
    case PutPod(owner, managed, node, containers) =>
      if Live(w).None? && containers != [] then Write(w, Some(Pod(next, next, owner, managed, node, containers))) else w
    case RemovePod => if Live(w).Some? then Write(w, None) else w
    case Relabel(managed) =>
      if Live(w).Some? then Write(w, Some(Live(w).value.(managed := managed, resourceVersion := next))) else w
    case EditResources(containers) =>
      if Live(w).Some? && containers != []
      then Write(w, Some(Live(w).value.(containers := containers, resourceVersion := next)))
      else w
    case SetNode(name, entry) =>
      w.(nodes := if entry.Some? then w.nodes[name := entry.value] else w.nodes - {name})
    case SetPriorityClass(present) => w.(priorityClass := present)
    case SetReplies(replies) => w.(replies := replies)
    case Tick(elapsed) => w.(time := w.time + elapsed)
  }

  /** Whether a step can touch the pod at the phantom key. */
  predicate TouchesPod(step: EnvStep) {
    step.PutPod? || step.RemovePod? || step.Relabel? || step.EditResources?
  }

  // ----- Events ------------------------------------------------------------------------

  /** A write is `heard` when its response reaches the controller; one that is not has taken effect all the same. */
  datatype Event =
    | Environment(step: EnvStep)
    | Began(sw: Workload)                                   // the pass read the ShadowWorkload
    | Gone                                                  // the ShadowWorkload was not there
    | NodeRead(name: string, node: Option<Nodes.Node>)
    | PriorityRead(present: bool)
    | Measured(replies: Replies, at: Metrics.Time)          // the backend was asked, and answered at this time
    | PodRead(found: Option<Pod>)                           // read through the cache
    | Collided                                              // create met an existing pod
    | LiveRead(found: Option<Pod>)                          // read past the cache
    | Created(pod: Pod, heard: bool)
    | Deleted(uid: nat, heard: bool)
    | Resized(base: Pod, pod: Pod, at: Metrics.Time, heard: bool)
    | ResizeRefused
    | Warned(reason: Reason)                                // a warning event was emitted
    | Persisted(was: Status, status: Status, heard: bool)     // the status went from what it was to this
    | Ended                                                 // the pass returned without writing status

  function NodeOf(w: World, name: string): Option<Nodes.Node> {
    if name in w.nodes then Some(w.nodes[name]) else None
  }

  /**
   * What the server allows.  A cached read may return any earlier revision, or miss the pod, as the label
   * filter and the lag have it; deletes carry a uid precondition and resizes a resource version.
   */
  ghost predicate Accepts(w: World, e: Event)
    requires w.revisions != []
  {
    match e
    case Began(sw) => w.cr == Some(sw)
    case Gone => w.cr.None?
    case NodeRead(name, node) => node == NodeOf(w, name)
    case PriorityRead(present) => present == w.priorityClass
    case Measured(replies, at) => replies == w.replies && at == w.time
    case PodRead(found) => exists k :: 0 <= k < |w.revisions| && found == Visible(w.revisions[k])
    case Collided => Live(w).Some?
    case LiveRead(found) => found == Live(w)
    case Created(pod, _) =>
      Live(w).None? && pod.uid == pod.resourceVersion == |w.revisions| && pod.containers != []
    case Deleted(uid, _) => Live(w).Some? && Live(w).value.uid == uid
    case Resized(base, pod, at, _) =>
      && at == w.time
      && Live(w).Some? && Live(w).value.resourceVersion == base.resourceVersion
      && pod == Live(w).value.(containers := pod.containers, resourceVersion := |w.revisions|)
      && pod.containers != []
    case Persisted(was, status, _) => w.cr.Some? && MergePatch.Fits(w.cr.value.status, was, status)
    case _ => true
  }

  /** The status patch lands on whatever ShadowWorkload has the name. */
  function Patched(w: World, was: Status, status: Status): World
    requires w.cr.Some?
  {
    w.(cr := Some(w.cr.value.(status := MergePatch.Merged(w.cr.value.status, was, status))))
  }

  function Apply(w: World, e: Event): World
    requires w.revisions != []
  {
    match e
    case Environment(step) => Disturb(w, step)
    case Created(pod, _) => Write(w, Some(pod))
    case Deleted(_, _) => Write(w, None)
    case Resized(_, pod, _, _) => Write(w, Some(pod))
    case Persisted(was, status, _) => if w.cr.Some? then Patched(w, was, status) else w
    case _ => w
  }

  // ----- What a pass has learned ---------------------------------------------------------

  datatype Gate = Unchecked | NodeLive | Open | Blocked(reason: Reason)

  datatype Outcome = Pending | Failing(reason: Reason, warn: bool) | Taken(reading: Reading)

  datatype Lookup = Unread | Absent | Found(pod: Pod)

  /** `held` is the phantom as this pass last saw it accepted; `ready` the reason a healthy pass will report. */
  datatype Pass =
    | Idle
    | Busy(sw: Workload, gate: Gate, outcome: Outcome, replies: Option<Replies>, measuredAt: Metrics.Time,
           cached: Lookup, collided: bool, live: Lookup, held: Option<Pod>, refused: bool,
           resizedAt: Option<Metrics.Time>, ready: Reason, warnings: seq<Reason>)

  /** A pass that has only read the ShadowWorkload. */
  function Opening(sw: Workload): (p: Pass)
    ensures p.Busy? && p.sw == sw
  {
    Busy(sw, Unchecked, Pending, None, 0, Unread, false, Unread, None, false, None, WithinThreshold, [])
  }

  /** The manager's own configuration. */
  datatype Manager = Manager(policy: DestinationPolicy.Policy, ip: DestinationPolicy.IpLibrary)

  /** Whether the source compiles and its backend is one the manager may talk to. */
  predicate Measurable(m: Manager, spec: Spec) {
    Sources.Resolve(spec).Ok? && DestinationPolicy.Validate(m.policy, spec.metrics.prometheusURL, m.ip)
  }

  function Judge(spec: Spec, replies: Replies): Outcome {
    if Sources.Resolve(spec).Err? then Failing(SourceInvalid, false)
    else
      match QueryPair(Sources.Resolve(spec).value, replies)
      case Ok(reading) => Taken(reading)
      case Err(TargetUnavailable) => Failing(CadvisorTargetUnavailable, true)
      case Err(_) => Failing(PrometheusUnavailable, true)
  }

  function NodeReason(e: Nodes.Eligibility): Reason {
    match e
    case Terminating => NodeTerminating
    case NotReady => NodeNotReady
    case _ => NodeMissing
  }

  predicate Owned(pod: Pod, sw: Workload) {
    pod.owner == Some(Owner(sw.name, sw.uid, KIND, API_VERSION))
  }

  function ToLookup(found: Option<Pod>): Lookup {
    if found.None? then Absent else Found(found.value)
  }

  /** The reservation the pass is steering towards: the clamped measurement, or the clamp of zero without one. */
  function Desired(sw: Workload, outcome: Outcome): Pair {
    var reading := if outcome.Taken? then outcome.reading else Reading(0.0, 0.0, false);
    Clamp(PairOf(reading.cpu, reading.memory), sw.spec.update.floor, sw.spec.update.ceiling)
  }

  /** A pass opens when the ShadowWorkload is read and closes when it persists status or returns without. */
  ghost function Observe(m: Manager, p: Pass, e: Event): Pass {
    if e.Began? then Opening(e.sw)
    else if e.Persisted? || e.Ended? || p.Idle? then Idle
    else Learn(m, p, e)
  }

  /** What a pass in progress makes of one event. */
  ghost function Learn(m: Manager, p: Pass, e: Event): (after: Pass)
    requires p.Busy?
    ensures after.Busy?
  {
    match e
    case NodeRead(_, node) =>
      var why := Nodes.EligibilityOf(node);
      p.(gate := if why.Eligible? then NodeLive else Blocked(NodeReason(why)))
    case PriorityRead(present) =>
      if !present then p.(gate := Blocked(PriorityClassMissing))
      else p.(gate := Open, outcome := if Measurable(m, p.sw.spec) then Pending else Failing(SourceInvalid, false))
    case Measured(replies, at) => p.(outcome := Judge(p.sw.spec, replies), replies := Some(replies), measuredAt := at)
    case PodRead(found) =>
      p.(cached := ToLookup(found),
         held := if found.Some? && Owned(found.value, p.sw) && found.value.node == p.sw.spec.node then found else None)
    case Collided => p.(collided := true)
    case LiveRead(found) => p.(live := ToLookup(found))
    case Created(pod, heard) => if heard then p.(held := Some(pod), ready := PhantomCreated) else p
    case Resized(_, pod, at, heard) =>
      if heard then p.(held := Some(pod), resizedAt := Some(at), ready := Reason.Resized) else p.(refused := true)
    case ResizeRefused => p.(refused := true)
    case Warned(reason) => p.(warnings := p.warnings + [reason])
    case _ => p
  }

  // ----- What a pass may do ----------------------------------------------------------------

  /** The pass saw an owned pod on the wrong node. */
  predicate Misplaced(p: Pass) {
    p.Busy? && p.cached.Found? && Owned(p.cached.pod, p.sw) && p.cached.pod.node != p.sw.spec.node
  }

  /** The pass saw a pod at its key that is not its own. */
  predicate Conflicted(p: Pass) {
    p.Busy? && ((p.cached.Found? && !Owned(p.cached.pod, p.sw)) || (p.live.Found? && !Owned(p.live.pod, p.sw)))
  }

  predicate Measurement(p: Pass) {
    p.Busy? && p.gate.Open? && !p.outcome.Pending?
  }

  /** A resize is due: a fresh measurement, an owned and correctly pinned pod, and too much drift. */
  predicate ResizeDue(p: Pass) {
    && p.Busy? && p.gate.Open? && p.outcome.Taken? && p.held.Some? && p.cached.Found?
    && DriftExceeds(CurrentPairOf(p.held.value), Desired(p.sw, p.outcome), p.sw.spec.update.threshold)
  }

  /** The first failure of the pass, which is the one its conditions report. */
  function Trouble(p: Pass): Option<Reason>
    requires p.Busy?
  {
    if p.gate.Blocked? then Some(p.gate.reason)
    else if p.outcome.Failing? then Some(p.outcome.reason)
    else if Conflicted(p) then Some(PhantomConflict)
    else if Misplaced(p) then Some(PhantomRecreating)
    else if p.refused then Some(ResizeRejected)
    else None
  }

  predicate AlreadyDegraded(status: Status, reason: Reason) {
    status.degraded.Some? && status.degraded.value.status && status.degraded.value.reason == reason
  }

  /** Gate and conflict warnings only on a transition of the persisted reason; backend and resize warnings each time. */
  function Transition(sw: Workload, reason: Reason): seq<Reason> {
    if AlreadyDegraded(sw.status, reason) then [] else [reason]
  }

  function DueWarnings(p: Pass): seq<Reason>
    requires p.Busy?
  {
    if p.gate.Blocked? then Transition(p.sw, p.gate.reason)
    else
      (if p.outcome.Failing? && p.outcome.warn then [p.outcome.reason] else [])
      + (if Conflicted(p) then Transition(p.sw, PhantomConflict) else [])
      + (if p.refused then [ResizeRejected] else [])
  }

  /** The status fields a measurement and an accepted resize advance. */
  function Recorded(sw: Workload, outcome: Outcome, measuredAt: Metrics.Time, resizedAt: Option<Metrics.Time>)
    : (st: Status)
    ensures st.degraded == sw.status.degraded && st.ready == sw.status.ready
    ensures st.current == sw.status.current && st.phantomPod == sw.status.phantomPod
  {
    var stamped := if resizedAt.Some? then sw.status.(lastResize := Some(Metrics.Seconds(resizedAt.value)))
                   else sw.status;
    if outcome.Taken? then
      var measured := MeasurementPairOf(outcome.reading.cpu, outcome.reading.memory);
      stamped.(lastMeasurement := Some(Snapshot(sw.generation, Metrics.Seconds(measuredAt), measured,
                                                outcome.reading.found)),
               resolvedSource := Some(Sources.Describe(sw.spec)))
    else stamped
  }

  /** The status with the currents of the phantom this pass saw, if it saw one. */
  function Refreshed(p: Pass): Status
    requires p.Busy?
  {
    var base := Recorded(p.sw, p.outcome, p.measuredAt, p.resizedAt);
    if p.held.Some? then
      base.(phantomPod := Naming.PhantomName(p.sw.name), current := CurrentPairOf(p.held.value))
    else base
  }

  /** The status a finished pass persists, as a function of what it learned. */
  function StatusOf(p: Pass): Status
    requires p.Busy?
  {
    var seen := Refreshed(p);
    var g := p.sw.generation;
    match Trouble(p)
    case Some(reason) => seen.(ready := Some(Condition(false, reason, g)), degraded := Some(Condition(true, reason, g)))
    case None => seen.(ready := Some(Condition(true, p.ready, g)), degraded := Some(Condition(false, AsExpected, g)))
  }

  /** The pass has done all it can: stopped at the gate, or settled what to do about the phantom. */
  predicate Settled(p: Pass) {
    && p.Busy?
    && (p.gate.Blocked? || (Measurement(p) && (p.held.Some? || Conflicted(p) || Misplaced(p))))
    && (ResizeDue(p) ==> p.refused)
  }

  /** The pass has warned of all it owes; it may return, even if there is more it could do. */
  predicate MayEnd(p: Pass) {
    p.Busy? && p.warnings == DueWarnings(p)
  }

  /** What the controller may do next, given its pass. */
  ghost predicate Rule(p: Pass, e: Event) {
    match e
    case Environment(_) => true
    case Began(_) => p.Idle?
    case Gone => p.Idle?
    case NodeRead(name, _) => p.Busy? && p.gate.Unchecked? && name == p.sw.spec.node
    case PriorityRead(_) => p.Busy? && p.gate.NodeLive?
    case Measured(_, _) => p.Busy? && p.gate.Open? && p.outcome.Pending?
    case PodRead(_) => Measurement(p) && p.cached.Unread?
    case Collided => Measurement(p) && p.cached.Absent? && p.held.None?
    case LiveRead(_) => p.Busy? && p.collided && p.live.Unread?
    case Created(pod, _) =>
      && Measurement(p) && p.cached.Absent? && !p.collided && p.held.None?
      && pod == BuildPhantomPod(p.sw, Desired(p.sw, p.outcome)).(uid := pod.uid, resourceVersion := pod.resourceVersion)
    case Deleted(uid, _) =>
      || (Misplaced(p) && uid == p.cached.pod.uid)
      || (p.Busy? && p.collided && p.live.Found? && Owned(p.live.pod, p.sw) && uid == p.live.pod.uid)
    case Resized(base, pod, _, _) =>
      && ResizeDue(p) && !p.refused && p.cached == Found(base) && p.held == Some(base)
      && HoldsExactly(pod, Desired(p.sw, p.outcome))
    case ResizeRefused => ResizeDue(p) && !p.refused
    case Warned(_) => p.Busy?
    case Persisted(was, status, _) =>
      p.Busy? && Settled(p) && was == p.sw.status && status == StatusOf(p) && p.warnings == DueWarnings(p)
    case Ended => MayEnd(p)
  }

  // ----- Legal logs ------------------------------------------------------------------------

  function WorldAt(start: World, log: seq<Event>): (w: World)
    requires start.revisions != []
    ensures w.revisions != []
  {
    if log == [] then start else Apply(WorldAt(start, log[..|log| - 1]), log[|log| - 1])
  }

  ghost function PassAt(m: Manager, log: seq<Event>): Pass {
    if log == [] then Idle else Observe(m, PassAt(m, log[..|log| - 1]), log[|log| - 1])
  }

  /** The server accepted every event and the controller kept its rule at every call. */
  ghost predicate Legal(m: Manager, start: World, log: seq<Event>)
    requires start.revisions != []
  {
    log == []
    || (var before := log[..|log| - 1];
        var last := log[|log| - 1];
        && Legal(m, start, before)
        && Accepts(WorldAt(start, before), last)
        && Rule(PassAt(m, before), last))
  }

  /** Accepted reservation mutations the controller heard of since the ShadowWorkload was last found gone. */
  function AcceptedWrites(log: seq<Event>): nat {
    if log == [] then 0
    else
      var before := AcceptedWrites(log[..|log| - 1]);
      match log[|log| - 1]
      case Gone => 0
      case Created(_, heard) => before + (if heard then 1 else 0)
      case Resized(_, _, _, heard) => before + (if heard then 1 else 0)
      case _ => before
  }

  // ----- A pass in calm weather ----------------------------------------------------------------

  /** Every container at exactly `p`. */
  function Reshape(containers: seq<Container>, p: Pair): seq<Container> {
    seq(|containers|, i => Container(ResourcesOf(p), ResourcesOf(p)))
  }

  /** The pod is where the declaration wants it and the cache can see it. */
  predicate InPlace(pod: Pod, sw: Workload) {
    pod.managed && pod.node == sw.spec.node
  }

  /**
   * What one undisturbed healthy pass does to the phantom key when nobody else's pod is there: create what is
   * missing, drop what is misplaced or unlabelled, resize what drifts, and leave everything else alone.
   */
  function CalmStep(w: World, sw: Workload, desired: Pair): World
    requires w.revisions != []
  {
    var n := |w.revisions|;
    match Live(w)
    case None => Write(w, Some(BuildPhantomPod(sw, desired).(uid := n, resourceVersion := n)))
    case Some(pod) =>
      if !InPlace(pod, sw) then Write(w, None)
      else if DriftExceeds(CurrentPairOf(pod), desired, sw.spec.update.threshold)
      then Write(w, Some(pod.(containers := Reshape(pod.containers, desired), resourceVersion := n)))
      else w
  }

  // ----- Extending a log ---------------------------------------------------------------------

  /** `after` is `before`, then any number of environment steps, then the event `e`. */
  ghost predicate Logged(m: Manager, start: World, before: seq<Event>, after: seq<Event>, e: Event)
    requires start.revisions != []
  {
    && PassAt(m, after) == Observe(m, PassAt(m, before), e)
    && (Legal(m, start, before) && Rule(PassAt(m, before), e) ==> Legal(m, start, after))
    && AcceptedWrites(after)
       == (if e.Gone? then 0
           else AcceptedWrites(before) + (if (e.Created? || e.Resized?) && e.heard then 1 else 0))
  }

  /** Nothing but environment steps separates the two. */
  ghost predicate OnlyEnvironment(m: Manager, start: World, before: seq<Event>, after: seq<Event>)
    requires start.revisions != []
  {
    && PassAt(m, after) == PassAt(m, before)
    && (Legal(m, start, before) ==> Legal(m, start, after))
    && AcceptedWrites(after) == AcceptedWrites(before)
  }

  /**
   * As far as the pass can tell nothing but environment steps separates the two, though a write may have taken effect
   * whose response was lost; `ruled` says that the write was within the rules.
   */
  ghost predicate Unheard(m: Manager, start: World, before: seq<Event>, after: seq<Event>, ruled: bool)
    requires start.revisions != []
  {
    && PassAt(m, after) == PassAt(m, before)
    && (Legal(m, start, before) && ruled ==> Legal(m, start, after))
    && AcceptedWrites(after) == AcceptedWrites(before)
  }

  /** The pass may create the pod, whatever uid and resource version the server gives it. */
  ghost predicate MayCreate(p: Pass, pod: Pod) {
    forall uid: nat, version: nat :: Rule(p, Created(pod.(uid := uid, resourceVersion := version), true))
  }

  /** The pass may try to resize `base` to these containers, with either answer. */
  ghost predicate MayResize(p: Pass, base: Pod, containers: seq<Container>) {
    && Rule(p, ResizeRefused)
    && forall pod: Pod, at: Metrics.Time :: pod.containers == containers ==> Rule(p, Event.Resized(base, pod, at, true))
  }

  lemma EnvironmentStepLogged(m: Manager, start: World, before: seq<Event>, after: seq<Event>, step: EnvStep)
    requires start.revisions != [] && OnlyEnvironment(m, start, before, after)
    ensures OnlyEnvironment(m, start, before, after + [Environment(step)])
    ensures WorldAt(start, after + [Environment(step)]) == Disturb(WorldAt(start, after), step)
  {
    assert (after + [Environment(step)])[..|after|] == after;
  }

  lemma EventLogged(m: Manager, start: World, before: seq<Event>, after: seq<Event>, e: Event)
    requires start.revisions != [] && OnlyEnvironment(m, start, before, after) && Accepts(WorldAt(start, after), e)
    requires !e.Environment?
    ensures Logged(m, start, before, after + [e], e)
    ensures WorldAt(start, after + [e]) == Apply(WorldAt(start, after), e)
  {
    hide Observe, Rule, Accepts, Apply;
    assert (after + [e])[..|after|] == after;
  }
}
