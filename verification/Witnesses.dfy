/** Concrete legal runs that show where a promise has to carry a condition. */
module Witnesses {
  import opened Wrappers
  import opened Api
  import opened Shadow
  import opened Backend
  import opened Protocol
  import opened Warnings
  import DestinationPolicy
  import MergePatch
  import Naming
  import Nodes
  import Safety
  import Sources

  // ----- A small cluster ---------------------------------------------------------------------

  /** A raw PromQL source behind a URL that does not parse, so that no pass can measure it. */
  const SPEC: Spec := Spec("node", Source(PromQL, None, Some(PromQLSource("cpu", "memory")), None, None),
                           MetricsConfig(DestinationPolicy.Malformed, "5m"),
                           UpdatePolicy(10, None, Pair(1, 1), Pair(9, 9)))

  const READY: Nodes.Node := Nodes.Node(false, [Nodes.NodeCondition("Ready", "True")])

  /** A pod on the right node that reserves (5, 5). */
  function PodAt(version: nat, owner: Option<Owner>, managed: bool): Pod {
    Pod(version, version, owner, managed, SPEC.node, [Container(ResourcesOf(Pair(5, 5)), ResourcesOf(Pair(5, 5)))])
  }

  /** A pod owned by the ShadowWorkload of the cluster below. */
  function OwnPod(managed: bool): Pod {
    PodAt(0, Some(Owner("sw", 1, KIND, API_VERSION)), managed)
  }

  function Cluster(pod: Pod, status: Status, nodes: map<string, Nodes.Node>): World {
    World("ns", "sw", Some(Workload("ns", "sw", 1, 0, SPEC, status)), 1, [SPEC], [Some(pod)], nodes, true,
          Replies(Broken, Broken, Broken), 0)
  }

  lemma ClusterIsSound(pod: Pod, status: Status, nodes: map<string, Nodes.Node>)
    requires pod == PodAt(0, pod.owner, pod.managed)
    ensures Sound(Cluster(pod, status, nodes))
  {
  }

  lemma Extend(m: Manager, start: World, log: seq<Event>, e: Event)
    requires start.revisions != [] && Legal(m, start, log)
    requires Accepts(WorldAt(start, log), e) && Rule(PassAt(m, log), e)
    ensures Legal(m, start, log + [e])
    ensures WorldAt(start, log + [e]) == Apply(WorldAt(start, log), e)
    ensures PassAt(m, log + [e]) == Observe(m, PassAt(m, log), e)
    ensures WarnedReasons(log + [e]) == if e.Warned? then WarnedReasons(log) + [e.reason] else WarnedReasons(log)
    ensures PersistedReasons(log + [e])
            == if e.Persisted? then PersistedReasons(log) + [DegradedFor(e.status)] else PersistedReasons(log)
  {
    hide Accepts, Rule, Apply, Observe;
    assert (log + [e])[..|log|] == log;
    AppendedReasons(log, e);
  }

  // ----- A conflict warning that repeats -------------------------------------------------------

  /** The status of a pass that could not measure. */
  function Unmeasured(sw: Workload): Status {
    sw.status.(ready := Some(Condition(false, SourceInvalid, sw.generation)),
               degraded := Some(Condition(true, SourceInvalid, sw.generation)))
  }

  /** What one pass over a foreign pod leaves in the log when it cannot measure. */
  function BlindPass(sw: Workload, pod: Pod): seq<Event> {
    [Began(sw), NodeRead(SPEC.node, Some(READY)), PriorityRead(true), PodRead(Some(pod)), Event.Warned(PhantomConflict),
     Persisted(sw.status, Unmeasured(sw), true)]
  }

  lemma ReadyIsEligible()
    ensures Nodes.EligibilityOf(Some(READY)).Eligible?
  {
    assert READY.conditions[0] == Nodes.NodeCondition("Ready", "True");
  }

  lemma SpecIsUnmeasurable(m: Manager)
    ensures !Measurable(m, SPEC)
  {
  }

  /** The pass with its gate open and its source refused. */
  function Opened(sw: Workload): (p: Pass)
    ensures p.Busy? && p.sw == sw
  {
    var p := Opening(sw);
    p.(gate := Open, outcome := Failing(SourceInvalid, false))
  }

  lemma OpensTheGate(m: Manager, start: World, log: seq<Event>, sw: Workload)
    requires start.revisions != [] && Legal(m, start, log) && PassAt(m, log).Idle?
    requires var w := WorldAt(start, log);
             w.cr == Some(sw) && sw.spec == SPEC && w.nodes == map[SPEC.node := READY] && w.priorityClass
    ensures var after := log + [Began(sw), NodeRead(SPEC.node, Some(READY)), PriorityRead(true)];
            && Legal(m, start, after) && PassAt(m, after) == Opened(sw) && WorldAt(start, after) == WorldAt(start, log)
            && WarnedReasons(after) == WarnedReasons(log) && PersistedReasons(after) == PersistedReasons(log)
  {
    hide Legal, WorldAt, PassAt, WarnedReasons, PersistedReasons, Measurable, Nodes.EligibilityOf, Owned, SPEC, READY;
    ReadyIsEligible();
    SpecIsUnmeasurable(m);
    var e := [Began(sw), NodeRead(SPEC.node, Some(READY)), PriorityRead(true)];
    Extend(m, start, log, e[0]);
    Extend(m, start, log + [e[0]], e[1]);
    Extend(m, start, log + [e[0]] + [e[1]], e[2]);
    assert log + e == log + [e[0]] + [e[1]] + [e[2]];
  }

  /** What such a pass owes once it has seen a foreign pod. */
  lemma BlindVerdict(sw: Workload, pod: Pod)
    requires !Owned(pod, sw) && DegradedFor(sw.status) != Some(PhantomConflict)
    ensures var p := Alarmed(sw, pod);
            Settled(p) && StatusOf(p) == Unmeasured(sw) && p.warnings == DueWarnings(p)
  {
    hide Owned, Desired;
  }

  /** The pass after it saw the foreign pod and warned of it. */
  function Alarmed(sw: Workload, pod: Pod): (p: Pass)
    ensures p.Busy? && p.sw == sw
  {
    var open := Opened(sw);
    open.(cached := Found(pod), warnings := [PhantomConflict])
  }

  lemma SeesStranger(m: Manager, start: World, log: seq<Event>, sw: Workload, pod: Pod)
    requires start.revisions != [] && Legal(m, start, log) && PassAt(m, log) == Opened(sw)
    requires Live(WorldAt(start, log)) == Some(pod) && pod.managed && !Owned(pod, sw)
    ensures var after := log + [PodRead(Some(pod)), Event.Warned(PhantomConflict)];
            && Legal(m, start, after) && PassAt(m, after) == Alarmed(sw, pod)
            && WorldAt(start, after) == WorldAt(start, log) && PersistedReasons(after) == PersistedReasons(log)
            && WarnedReasons(after) == WarnedReasons(log) + [PhantomConflict]
  {
    hide Legal, WorldAt, PassAt, WarnedReasons, PersistedReasons, Owned;
    assert Visible(Live(WorldAt(start, log))) == Some(pod);
    var read := PodRead(Some(pod));
    Extend(m, start, log, read);
    Extend(m, start, log + [read], Event.Warned(PhantomConflict));
    assert [] + [PhantomConflict] == [PhantomConflict];
    assert log + [read, Event.Warned(PhantomConflict)] == log + [read] + [Event.Warned(PhantomConflict)];
  }

  /** Such a pass is legal in any log after which the cluster looks so. */
  lemma BlindPassIsLegal(m: Manager, start: World, log: seq<Event>, sw: Workload, pod: Pod)
    requires start.revisions != [] && Legal(m, start, log) && PassAt(m, log).Idle?
    requires var w := WorldAt(start, log);
             && w.cr == Some(sw) && sw.spec == SPEC && w.nodes == map[SPEC.node := READY] && w.priorityClass
             && Live(w) == Some(pod) && pod.managed && !Owned(pod, sw)
    requires DegradedFor(sw.status) != Some(PhantomConflict)
    ensures var after := log + BlindPass(sw, pod);
            && Legal(m, start, after) && PassAt(m, after).Idle?
            && WorldAt(start, after) == WorldAt(start, log).(cr := Some(sw.(status := Unmeasured(sw))))
            && WarnedReasons(after) == WarnedReasons(log) + [PhantomConflict]
            && PersistedReasons(after) == PersistedReasons(log) + [Some(SourceInvalid)]
  {
    hide Legal, WorldAt, PassAt, WarnedReasons, PersistedReasons, Owned, SPEC, READY, Settled, StatusOf, DueWarnings;
    hide Opened, Alarmed;
    OpensTheGate(m, start, log, sw);
    BlindVerdict(sw, pod);
    MergePatch.MergesOntoBase(sw.status, Unmeasured(sw));
    hide MergePatch.Fits, MergePatch.Merged;
    var e := BlindPass(sw, pod);
    var open := log + [Began(sw), NodeRead(SPEC.node, Some(READY)), PriorityRead(true)];
    SeesStranger(m, start, open, sw, pod);
    var seen := open + [PodRead(Some(pod)), Event.Warned(PhantomConflict)];
    Extend(m, start, seen, e[5]);
    assert log + e == seen + [e[5]];
  }

  /**
   * Two passes in a row persist the same reason and each warns of the same foreign pod: the reason is the
   * measurement's, so the conflict is news every time.
   */
  lemma ConflictWarnsTwice(m: Manager) returns (start: World, log: seq<Event>)
    ensures Sound(start) && start.revisions != [] && Legal(m, start, log) && Safety.OneLife(start, log)
    ensures WarnedReasons(log) == [PhantomConflict, PhantomConflict]
    ensures PersistedReasons(log) == [Some(SourceInvalid), Some(SourceInvalid)]
  {
    hide Legal, PassAt, WarnedReasons, PersistedReasons, SPEC, READY, Owned;
    var pod := PodAt(0, None, true);
    start := Cluster(pod, BLANK, map[SPEC.node := READY]);
    ClusterIsSound(pod, BLANK, map[SPEC.node := READY]);
    NothingYet(m, start);
    Stranger(pod, start.cr.value);
    var first := BlindPass(start.cr.value, pod);
    BlindPassIsLegal(m, start, [], start.cr.value, pod);
    assert [] + first == first;
    var sw := WorldAt(start, first).cr.value;
    Stranger(pod, sw);
    BlindPassIsLegal(m, start, first, sw, pod);
    log := first + BlindPass(sw, pod);
  }

  lemma Stranger(pod: Pod, sw: Workload)
    requires pod.owner.None?
    ensures !Owned(pod, sw)
  {
  }

  lemma NothingYet(m: Manager, start: World)
    requires start.revisions != []
    ensures Legal(m, start, []) && PassAt(m, []).Idle? && WorldAt(start, []) == start
    ensures WarnedReasons([]) == [] && PersistedReasons([]) == []
  {
  }

  // ----- A patch that lands on another life ------------------------------------------------------

  /** The pass that sees its phantom at home. */
  function Holding(sw: Workload, pod: Pod): (p: Pass)
    ensures p.Busy? && p.sw == sw
  {
    var open := Opened(sw);
    open.(cached := Found(pod), held := Some(pod))
  }

  lemma SeesOwn(m: Manager, start: World, log: seq<Event>, sw: Workload, pod: Pod)
    requires start.revisions != [] && Legal(m, start, log) && PassAt(m, log) == Opened(sw)
    requires Live(WorldAt(start, log)) == Some(pod) && pod.managed && Owned(pod, sw) && pod.node == sw.spec.node
    ensures var after := log + [PodRead(Some(pod))];
            && Legal(m, start, after) && PassAt(m, after) == Holding(sw, pod)
            && WorldAt(start, after) == WorldAt(start, log)
  {
    hide Legal, WorldAt, PassAt, WarnedReasons, PersistedReasons, Owned;
    assert Visible(Live(WorldAt(start, log))) == Some(pod);
    Extend(m, start, log, PodRead(Some(pod)));
  }

  /** What that pass may persist when it cannot measure. */
  lemma HoldingVerdict(sw: Workload, pod: Pod)
    requires Owned(pod, sw) && pod.node == sw.spec.node
    ensures var p := Holding(sw, pod);
            Rule(p, Persisted(sw.status, StatusOf(p), true)) && (sw.status == BLANK ==> Safety.ReportsAnew(p))
  {
    hide Desired, CurrentPairOf, Owned;
    Safety.NamesAreNotEmpty(sw.name);
    hide Naming.PhantomName;
  }

  /** The workload is deleted and comes back under a new uid. */
  lemma Reborn(m: Manager, start: World, log: seq<Event>)
    requires start.revisions != [] && Legal(m, start, log) && WorldAt(start, log).cr.Some?
    ensures var after := log + [Environment(DeleteWorkload), Environment(Recreate(SPEC))];
            var w := WorldAt(start, log);
            && Legal(m, start, after) && PassAt(m, after) == PassAt(m, log)
            && WorldAt(start, after)
               == w.(cr := Some(Workload(w.namespace, w.name, w.lastUid + 1, 0, SPEC, BLANK)), lastUid := w.lastUid + 1,
                     specs := [SPEC])
  {
    hide Legal, WorldAt, PassAt, WarnedReasons, PersistedReasons;
    SpecIsAdmitted();
    Extend(m, start, log, Environment(DeleteWorkload));
    Extend(m, start, log + [Environment(DeleteWorkload)], Environment(Recreate(SPEC)));
    assert log + [Environment(DeleteWorkload), Environment(Recreate(SPEC))]
           == log + [Environment(DeleteWorkload)] + [Environment(Recreate(SPEC))];
  }

  /** A patch that brings a new reservation to a blank ShadowWorkload without a phantom is accepted and untrue. */
  lemma PatchBreaksTruth(m: Manager, start: World, log: seq<Event>, status: Status)
    requires Sound(start) && start.revisions != [] && Legal(m, start, log) && PassAt(m, log).Busy?
    requires var w, p := WorldAt(start, log), PassAt(m, log);
             && w.cr.Some? && w.cr.value.status == BLANK && w.cr.value.uid != p.sw.uid && p.sw.status == BLANK
             && Safety.NoPhantomYet(w) && Safety.ReportsAnew(p)
    requires Rule(PassAt(m, log), Persisted(BLANK, status, true))
    ensures var after := log + [Persisted(BLANK, status, true)];
            && Legal(m, start, after) && !Safety.LastTruth(WorldAt(start, after))
  {
    hide Legal, WorldAt, PassAt, WarnedReasons, PersistedReasons, Sound, Safety.Remembers, Safety.ReportsAnew;
    hide Rule, Safety.NoPhantomYet, BLANK, Observe, StatusOf;
    var w, p, patch := WorldAt(start, log), PassAt(m, log), Persisted(BLANK, status, true);
    Safety.RunInvariant(m, start, log, |log|);
    assert log[..|log|] == log;
    MergePatch.MergesOntoBase(BLANK, status);
    hide MergePatch.Fits, MergePatch.Merged;
    Extend(m, start, log, patch);
    BlankIsTrue(w);
    Safety.LastTruthFailsIff(w, p, patch);
  }

  /** The pod of another life is no phantom of this one. */
  lemma NewLifeHasNoPhantom(w: World)
    requires w.cr.Some? && w.cr.value.uid == 2 && w.revisions == [Some(OwnPod(true))]
    ensures Safety.NoPhantomYet(w)
  {
  }

  /**
   * A legal run after which a new ShadowWorkload reports a reservation that only its predecessor's phantom held: the
   * pass read the first one, with a blank status, and saw its phantom; its patch carries that phantom's name and
   * reservation and meets the second one.
   */
  lemma PatchOnAnotherLife(m: Manager) returns (start: World, log: seq<Event>)
    ensures Sound(start) && start.revisions != [] && Legal(m, start, log)
    ensures Safety.LastTruth(start) && !Safety.LastTruth(WorldAt(start, log))
  {
    hide Legal, WorldAt, PassAt, WarnedReasons, PersistedReasons, SPEC, READY, Sound, Rule, Opened, Owned;
    hide Safety.ReportsAnew, Safety.NoPhantomYet, Safety.LastTruth, StatusOf, BLANK;
    var pod := OwnPod(true);
    start := Cluster(pod, BLANK, map[SPEC.node := READY]);
    var sw := start.cr.value;
    ClusterIsSound(pod, BLANK, map[SPEC.node := READY]);
    NothingYet(m, start);
    OwnPodIsOwn(sw, pod);
    BlankIsTrue(start);
    OpensTheGate(m, start, [], sw);
    var open := [] + [Began(sw), NodeRead(SPEC.node, Some(READY)), PriorityRead(true)];
    SeesOwn(m, start, open, sw, pod);
    var seen := open + [PodRead(Some(pod))];
    Reborn(m, start, seen);
    var met := seen + [Environment(DeleteWorkload), Environment(Recreate(SPEC))];
    HoldingVerdict(sw, pod);
    NewLifeHasNoPhantom(WorldAt(start, met));
    var status := StatusOf(Holding(sw, pod));
    PatchBreaksTruth(m, start, met, status);
    log := met + [Persisted(BLANK, status, true)];
  }

  lemma OwnPodIsOwn(sw: Workload, pod: Pod)
    requires sw.name == "sw" && sw.uid == 1 && pod.owner == OwnPod(true).owner
    ensures Owned(pod, sw)
  {
  }

  lemma BlankIsTrue(w: World)
    requires w.cr.Some? && w.cr.value.status == BLANK
    ensures Safety.LastTruth(w)
  {
  }

  lemma SpecIsAdmitted()
    ensures Admitted(SPEC)
  {
  }

  // ----- A canonical pod that is dropped -----------------------------------------------------------

  /** The pass whose create met a pod that the cache does not show, and that then read it past the cache. */
  function Collision(sw: Workload, live: Lookup): (p: Pass)
    ensures p.Busy? && p.sw == sw
  {
    var open := Opened(sw);
    open.(cached := Absent, collided := true, live := live)
  }

  /** The pass misses its unlabelled pod in the cache and collides with it. */
  lemma CollidesUnseen(m: Manager, start: World, log: seq<Event>, sw: Workload, pod: Pod)
    requires start.revisions != [] && Legal(m, start, log) && PassAt(m, log) == Opened(sw)
    requires Live(WorldAt(start, log)) == Some(pod) && !pod.managed
    ensures var after := log + [PodRead(None), Collided];
            && Legal(m, start, after) && PassAt(m, after) == Collision(sw, Unread)
            && WorldAt(start, after) == WorldAt(start, log)
  {
    hide Legal, WorldAt, PassAt, WarnedReasons, PersistedReasons, Owned;
    assert Visible(Live(WorldAt(start, log))) == None;
    Extend(m, start, log, PodRead(None));
    Extend(m, start, log + [PodRead(None)], Collided);
    assert log + [PodRead(None), Collided] == log + [PodRead(None)] + [Collided];
  }

  /** The pod gets its label back before the pass reads it past the cache. */
  lemma RelabelledThenRead(m: Manager, start: World, log: seq<Event>, sw: Workload, pod: Pod)
    requires start.revisions != [] && Legal(m, start, log) && PassAt(m, log) == Collision(sw, Unread)
    requires Live(WorldAt(start, log)) == Some(pod) && Owned(pod, sw)
    ensures var w := WorldAt(start, log);
            var back := pod.(managed := true, resourceVersion := |w.revisions|);
            var after := log + [Environment(Relabel(true)), LiveRead(Some(back))];
            && Legal(m, start, after) && PassAt(m, after) == Collision(sw, Found(back))
            && WorldAt(start, after) == Write(w, Some(back)) && Rule(PassAt(m, after), Deleted(pod.uid, true))
  {
    hide Legal, WorldAt, PassAt, WarnedReasons, PersistedReasons;
    var w := WorldAt(start, log);
    var back := pod.(managed := true, resourceVersion := |w.revisions|);
    Extend(m, start, log, Environment(Relabel(true)));
    Extend(m, start, log + [Environment(Relabel(true))], LiveRead(Some(back)));
    assert log + [Environment(Relabel(true)), LiveRead(Some(back))]
           == log + [Environment(Relabel(true))] + [LiveRead(Some(back))];
  }

  /** The event deletes a live pod that is owned, labelled and on the right node. */
  ghost predicate DropsCanonical(w: World, p: Pass, e: Event) {
    && e.Deleted? && p.Busy? && w.revisions != [] && Live(w).Some? && Live(w).value.uid == e.uid
    && Owned(Live(w).value, p.sw) && InPlace(Live(w).value, p.sw)
  }

  /** The cache showed the key as it was. */
  ghost predicate ShowsTruly(w: World, e: Event) {
    w.revisions != [] && e == PodRead(Visible(Live(w)))
  }

  /**
   * A legal run that deletes a pod which is owned, labelled and on the right node at that moment: the cache showed the
   * key truly, the pod was unlabelled, the create collided with it, and the label came back before the uncached read.
   */
  lemma CanonicalPodIsDropped(m: Manager) returns (start: World, log: seq<Event>, k: nat)
    ensures Sound(start) && start.revisions != [] && Legal(m, start, log) && k < |log| - 1
    ensures ShowsTruly(WorldAt(start, log[..k]), log[k])
    ensures var i := |log| - 1;
            DropsCanonical(WorldAt(start, log[..i]), PassAt(m, log[..i]), log[i])
  {
    hide Legal, WorldAt, PassAt, WarnedReasons, PersistedReasons, SPEC, READY, Sound, Rule, Opened, Owned;
    var pod := OwnPod(false);
    start := Cluster(pod, BLANK, map[SPEC.node := READY]);
    var sw := start.cr.value;
    ClusterIsSound(pod, BLANK, map[SPEC.node := READY]);
    NothingYet(m, start);
    OwnPodIsOwn(sw, pod);
    OpensTheGate(m, start, [], sw);
    var open := [] + [Began(sw), NodeRead(SPEC.node, Some(READY)), PriorityRead(true)];
    CollidesUnseen(m, start, open, sw, pod);
    var met := open + [PodRead(None), Collided];
    RelabelledThenRead(m, start, met, sw, pod);
    var back := pod.(managed := true, resourceVersion := |WorldAt(start, met).revisions|);
    var read := met + [Environment(Relabel(true)), LiveRead(Some(back))];
    OwnPodIsOwn(sw, back);
    Extend(m, start, read, Deleted(pod.uid, true));
    log, k := read + [Deleted(pod.uid, true)], 3;
    assert log[..3] == open && log[..|log| - 1] == read;
  }
}
