/** What holds in every legal run, however the environment interleaves with the controller. */
module Safety {
  import opened Wrappers
  import opened Api
  import opened Shadow
  import opened Backend
  import opened Protocol
  import Sources
  import Compiler
  import MergePatch
  import Naming
  import Nodes
  import Reservation

  // ----- Prefixes ------------------------------------------------------------------------

  /** Every prefix of a legal log is legal, and each event was accepted and ruled where it stands. */
  lemma {:induction false} Prefix(m: Manager, start: World, log: seq<Event>, i: nat)
    requires start.revisions != [] && Legal(m, start, log) && i <= |log|
    ensures Legal(m, start, log[..i])
    ensures i < |log| ==> Accepts(WorldAt(start, log[..i]), log[i]) && Rule(PassAt(m, log[..i]), log[i])
    decreases |log| - i
  {
    hide Accepts, Rule;
    if i == |log| {
      assert log[..i] == log;
    } else {
      Prefix(m, start, log, i + 1);
      var next := log[..i + 1];
      assert next[..|next| - 1] == log[..i] && next[|next| - 1] == log[i];
    }
  }

  /** The world and the pass one event further on. */
  lemma Advance(m: Manager, start: World, log: seq<Event>, i: nat)
    requires start.revisions != [] && i < |log|
    ensures WorldAt(start, log[..i + 1]) == Apply(WorldAt(start, log[..i]), log[i])
    ensures PassAt(m, log[..i + 1]) == Observe(m, PassAt(m, log[..i]), log[i])
  {
    hide Apply, Observe;
    var next := log[..i + 1];
    assert next[..|next| - 1] == log[..i] && next[|next| - 1] == log[i];
  }

  // ----- What the server keeps -------------------------------------------------------------

  /** `pod` was at the phantom key at some time. */
  predicate Known(w: World, pod: Pod) {
    pod.resourceVersion < |w.revisions| && w.revisions[pod.resourceVersion] == Some(pod)
  }

  lemma SoundHasHistory(w: World)
    requires Sound(w)
    ensures w.revisions != []
  {
  }

  /** The same ShadowWorkload, not one recreated under its name. */
  predicate SameWorkload(a: Workload, b: Workload) {
    a.name == b.name && a.uid == b.uid
  }

  lemma WriteKeepsSound(w: World, pod: Option<Pod>)
    requires Sound(w)
    requires pod.Some? ==>
               && pod.value.resourceVersion == |w.revisions| && pod.value.containers != []
               && (pod.value.uid == |w.revisions|
                   || (Live(w).Some? && pod.value.uid == Live(w).value.uid && pod.value.owner == Live(w).value.owner))
    ensures Sound(Write(w, pod))
  {
    var n := |w.revisions|;
    assert Write(w, pod).revisions[n] == pod;
    assert Live(w) == w.revisions[n - 1];
  }

  lemma DisturbKeepsSound(w: World, step: EnvStep)
    requires Sound(w)
    ensures Sound(Disturb(w, step))
  {
    var next := |w.revisions|;
    match step {
      case PutPod(owner, managed, node, containers) =>
        if containers != [] { WriteKeepsSound(w, Some(Pod(next, next, owner, managed, node, containers))); }
      case RemovePod => WriteKeepsSound(w, None);
      case Relabel(managed) =>
        if Live(w).Some? { WriteKeepsSound(w, Some(Live(w).value.(managed := managed, resourceVersion := next))); }
      case EditResources(containers) =>
        if Live(w).Some? && containers != [] {
          WriteKeepsSound(w, Some(Live(w).value.(containers := containers, resourceVersion := next)));
        }
      case _ =>
    }
  }

  lemma ApplyKeepsSound(w: World, e: Event)
    requires Sound(w) && Accepts(w, e)
    ensures Sound(Apply(w, e))
  {
    hide Disturb;
    match e {
      case Environment(step) => DisturbKeepsSound(w, step);
      case Created(pod, _) => WriteKeepsSound(w, Some(pod));
      case Deleted(_, _) => WriteKeepsSound(w, None);
      case Resized(_, pod, _, _) => WriteKeepsSound(w, Some(pod));
      case _ =>
    }
  }

  /** What never happens to the server's record: only a recreation starts a new life, and it starts blank. */
  predicate Later(w: World, next: World, statusKept: bool) {
    && w.revisions <= next.revisions && w.name == next.name && w.lastUid <= next.lastUid
    && (if next.lastUid == w.lastUid then
          && w.specs <= next.specs
          && (next.cr.Some? ==> w.cr.Some? && SameWorkload(w.cr.value, next.cr.value))
          && (next.cr.Some? && statusKept ==> next.cr.value.status == w.cr.value.status)
        else
          w.cr.None? && next.cr.Some? && next.cr.value.uid == next.lastUid && next.cr.value.status == BLANK)
  }

  lemma DisturbGrows(w: World, step: EnvStep)
    requires Sound(w)
    ensures w.revisions != [] && Later(w, Disturb(w, step), true)
  {
    SoundHasHistory(w);
    hide Sound, BLANK;
  }

  /** No event rewrites history. */
  lemma HistoryGrows(w: World, e: Event)
    requires Sound(w)
    ensures w.revisions != [] && Later(w, Apply(w, e), !e.Persisted?)
  {
    SoundHasHistory(w);
    if e.Environment? {
      DisturbGrows(w, e.step);
    }
    hide Sound, Disturb, BLANK;
  }

  // ----- What a pass remembers is true -------------------------------------------------------

  predicate MeasurementTrouble(reason: Reason) {
    reason.SourceInvalid? || reason.PrometheusUnavailable? || reason.CadvisorTargetUnavailable?
  }

  predicate NodeOrClassTrouble(reason: Reason) {
    reason.NodeMissing? || reason.NodeNotReady? || reason.NodeTerminating? || reason.PriorityClassMissing?
  }

  /** The ShadowWorkload a pass works from is the one the server has. */
  predicate Current(w: World, p: Pass) {
    p.Busy? && w.cr.Some? && w.cr.value.uid == p.sw.uid
  }

  /** Everything a pass in progress has learned stays true of the server's history. */
  ghost predicate Remembers(w: World, p: Pass) {
    p.Busy? ==>
      && p.sw.name == w.name && p.sw.uid <= w.lastUid && Admitted(p.sw.spec)
      && (Current(w, p) ==>
            && p.sw.generation < |w.specs| && w.specs[p.sw.generation] == p.sw.spec
            && w.cr.value.status == p.sw.status)
      && (w.cr.Some? && !Current(w, p) ==> w.cr.value.status == BLANK)
      && (p.cached.Found? ==> Known(w, p.cached.pod))
      && (p.live.Found? ==> Known(w, p.live.pod))
      && (!p.cached.Unread? ==> Measurement(p))
      && (p.collided ==> p.cached.Absent? && p.held.None?)
      && (p.live.Found? ==> p.collided)
      && (p.held.Some? ==>
            && Measurement(p) && Known(w, p.held.value)
            && Owned(p.held.value, p.sw) && p.held.value.node == p.sw.spec.node
            && p.held.value.containers != []
            && (p.cached == Found(p.held.value) || HoldsExactly(p.held.value, Desired(p.sw, p.outcome))))
      && (p.gate.Blocked? ==> NodeOrClassTrouble(p.gate.reason))
      && (p.outcome.Failing? ==>
            MeasurementTrouble(p.outcome.reason) && (p.outcome.warn <==> !p.outcome.reason.SourceInvalid?))
      && (p.refused ==> Measurement(p) && p.outcome.Taken? && p.held.Some? && p.cached == Found(p.held.value))
      && (p.outcome.Taken? ==>
            && Sources.Resolve(p.sw.spec).Ok? && p.replies.Some?
            && QueryPair(Sources.Resolve(p.sw.spec).value, p.replies.value) == Ok(p.outcome.reading))
  }

  lemma SeenIsKnown(w: World, e: Event)
    requires Sound(w) && Accepts(w, e)
    ensures e.PodRead? && e.found.Some? ==> Known(w, e.found.value)
    ensures e.LiveRead? && e.found.Some? ==> Known(w, e.found.value)
    ensures (e.PodRead? || e.LiveRead?) && e.found.Some? ==> e.found.value.containers != []
    ensures e.Created? || e.Resized? ==> Known(Apply(w, e), e.pod)
  {
  }

  /** What a pass has learned stays true whatever happens to the server's record. */
  lemma StaysRemembered(w: World, p: Pass, next: World)
    requires Remembers(w, p) && Later(w, next, true)
    requires w.cr.Some? ==> w.cr.value.uid <= w.lastUid
    ensures Remembers(next, p)
  {
    hide Desired, Sources.Resolve, QueryPair, HoldsExactly, Measurement, Owned, BLANK;
  }

  /** What a pass makes of an event is true, and so is what it already knew. */
  lemma LearnsTruth(m: Manager, w: World, p: Pass, e: Event)
    requires Sound(w) && Remembers(w, p) && Remembers(Apply(w, e), p) && Accepts(w, e) && Rule(p, e)
    requires p.Busy? && !e.Persisted? && !e.Environment?
    ensures Remembers(Apply(w, e), Observe(m, p, e))
  {
    hide Sound, Desired, Sources.Resolve, QueryPair, Measurable, Nodes.EligibilityOf, Disturb, Settled;
    hide StatusOf, DueWarnings;
    SoundHasHistory(w);
    SeenIsKnown(w, e);
    if e.Resized? { WriteHitsOwned(m, w, p, e); }
  }

  lemma StepRemembers(m: Manager, w: World, p: Pass, e: Event)
    requires Sound(w) && Remembers(w, p) && Accepts(w, e) && Rule(p, e)
    ensures Remembers(Apply(w, e), Observe(m, p, e))
  {
    HistoryGrows(w, e);
    UidsAreRecent(w, p);
    if p.Busy? && !e.Persisted? {
      StaysRemembered(w, p, Apply(w, e));
      if !e.Environment? {
        LearnsTruth(m, w, p, e);
      }
    } else if e.Began? {
      BeganIsTrue(w, e);
    }
    hide Sound, Disturb, Learn, Later;
  }

  lemma BeganIsTrue(w: World, e: Event)
    requires Sound(w) && Accepts(w, e) && e.Began?
    ensures Remembers(w, Opening(e.sw))
  {
  }

  lemma UidsAreRecent(w: World, p: Pass)
    requires Sound(w) && Remembers(w, p)
    ensures w.cr.Some? ==> w.cr.value.uid <= w.lastUid
    ensures p.Busy? ==> p.sw.uid <= w.lastUid
  {
  }

  /** The standing invariant of every legal run. */
  lemma {:induction false} RunInvariant(m: Manager, start: World, log: seq<Event>, i: nat)
    requires Sound(start) && Legal(m, start, log) && i <= |log|
    ensures Sound(WorldAt(start, log[..i])) && Remembers(WorldAt(start, log[..i]), PassAt(m, log[..i]))
    ensures start.revisions <= WorldAt(start, log[..i]).revisions && start.lastUid <= WorldAt(start, log[..i]).lastUid
    decreases i
  {
    hide Sound, Remembers, Accepts, Rule;
    SoundHasHistory(start);
    if i > 0 {
      RunInvariant(m, start, log, i - 1);
      Prefix(m, start, log, i - 1);
      Advance(m, start, log, i - 1);
      var w, p, e := WorldAt(start, log[..i - 1]), PassAt(m, log[..i - 1]), log[i - 1];
      hide Apply;
      ApplyKeepsSound(w, e);
      StepRemembers(m, w, p, e);
      HistoryGrows(w, e);
    } else {
      assert log[..0] == [];
      assert Remembers(start, Idle) by { NothingToRemember(start); }
    }
  }

  lemma NothingToRemember(w: World)
    ensures Remembers(w, Idle)
  {
  }

  /** A pass in progress works from the ShadowWorkload it read when it began. */
  lemma {:induction false} PassBegan(m: Manager, start: World, log: seq<Event>, i: nat) returns (k: nat)
    requires start.revisions != [] && Legal(m, start, log) && i <= |log| && PassAt(m, log[..i]).Busy?
    ensures k < i && log[k] == Began(PassAt(m, log[..i]).sw)
    ensures WorldAt(start, log[..k]).cr == Some(PassAt(m, log[..i]).sw)
    decreases i
  {
    hide Rule, Legal, Learn, WorldAt;
    assert i > 0 by {
      assert log[..0] == [];
    }
    Advance(m, start, log, i - 1);
    Prefix(m, start, log, i - 1);
    if log[i - 1].Began? {
      k := i - 1;
    } else {
      SameSw(m, PassAt(m, log[..i - 1]), log[i - 1]);
      k := PassBegan(m, start, log, i - 1);
    }
  }

  /** A pass in progress keeps working from the ShadowWorkload it read. */
  lemma SameSw(m: Manager, p: Pass, e: Event)
    ensures Observe(m, p, e).Busy? && !e.Began? ==> p.Busy? && Observe(m, p, e).sw == p.sw
  {
  }

  /** At the end of a legal log: the phantom held has containers, and the spec in use was admitted. */
  lemma PassInProgress(m: Manager, start: World, log: seq<Event>)
    requires Sound(start) && start.revisions != [] && Legal(m, start, log)
    ensures var p := PassAt(m, log);
            p.Busy? ==> Admitted(p.sw.spec) && (p.held.Some? ==> p.held.value.containers != [])
  {
    hide Accepts, Rule, Apply, Observe;
    RunInvariant(m, start, log, |log|);
    assert log[..|log|] == log;
  }

  // ----- One life ----------------------------------------------------------------------------

  lemma {:induction false} UidsGrow(m: Manager, start: World, log: seq<Event>, i: nat, j: nat)
    requires Sound(start) && start.revisions != [] && Legal(m, start, log) && i <= j <= |log|
    ensures var w, later := WorldAt(start, log[..i]), WorldAt(start, log[..j]);
            && w.lastUid <= later.lastUid
            && (w.lastUid == later.lastUid && later.cr.Some? ==> w.cr.Some? && SameWorkload(w.cr.value, later.cr.value))
    decreases j
  {
    hide Sound, Remembers, Apply, Accepts, Rule, Legal;
    if i < j {
      UidsGrow(m, start, log, i, j - 1);
      RunInvariant(m, start, log, j - 1);
      Advance(m, start, log, j - 1);
      HistoryGrows(WorldAt(start, log[..j - 1]), log[j - 1]);
    }
  }

  /** No recreation took effect in the run. */
  predicate OneLife(start: World, log: seq<Event>)
    requires start.revisions != []
  {
    WorldAt(start, log).lastUid == start.lastUid
  }

  /** Over one life every pass works from the ShadowWorkload the server has, if it still has one. */
  lemma OneLifePasses(m: Manager, start: World, log: seq<Event>, i: nat)
    requires Sound(start) && start.revisions != [] && Legal(m, start, log) && i <= |log| && OneLife(start, log)
    ensures var w, p := WorldAt(start, log[..i]), PassAt(m, log[..i]);
            && w.lastUid == start.lastUid
            && (p.Busy? && w.cr.Some? ==> Current(w, p))
  {
    hide Sound, Remembers, Accepts, Rule, Legal, WorldAt;
    assert log[..|log|] == log && log[..0] == [];
    StartIsFirst(start);
    UidsGrow(m, start, log, 0, i);
    UidsGrow(m, start, log, i, |log|);
    if PassAt(m, log[..i]).Busy? && WorldAt(start, log[..i]).cr.Some? {
      var k := PassBegan(m, start, log, i);
      UidsGrow(m, start, log, k, i);
      UidsGrow(m, start, log, 0, k);
    }
  }

  lemma StartIsFirst(start: World)
    requires start.revisions != []
    ensures WorldAt(start, []) == start
  {
  }

  // ----- Foreign pods are safe ---------------------------------------------------------------

  /** A pod belongs to the one ShadowWorkload its controller reference names, and to nothing else. */
  lemma OwnershipIsExclusive(pod: Pod, a: Workload, b: Workload)
    ensures Owned(pod, a) <==> && pod.owner.Some? && pod.owner.value.kind == "ShadowWorkload"
                               && pod.owner.value.apiVersion == "symbiont.tensorhost.com/v1alpha1"
                               && pod.owner.value.name == a.name && pod.owner.value.uid == a.uid
    ensures Owned(pod, a) && Owned(pod, b) ==> a.uid == b.uid && a.name == b.name
  {
  }

  /** A delete or resize the server accepts hits a pod that belongs to the pass's workload. */
  lemma WriteHitsOwned(m: Manager, w: World, p: Pass, e: Event)
    requires Sound(w) && Remembers(w, p) && Accepts(w, e) && Rule(p, e)
    requires e.Deleted? || e.Resized?
    ensures p.Busy? && Live(w).Some? && Owned(Live(w).value, p.sw)
    ensures e.Resized? ==> Live(w) == Some(e.base) && p.cached == Found(e.base)
  {
    hide Desired;
    var live := Live(w).value;
    assert live.resourceVersion == |w.revisions| - 1;
    if e.Deleted? {
      var seen := if Misplaced(p) && e.uid == p.cached.pod.uid then p.cached.pod else p.live.pod;
      assert Known(w, seen) && seen.uid == live.uid;
      assert w.revisions[seen.resourceVersion].value.owner == w.revisions[live.resourceVersion].value.owner;
    }
  }

  /**
   * Foreign-pod safety.  In every legal run, every pod a delete or resize hits is, at that moment, owned by
   * the ShadowWorkload that the pass read, whether or not the response arrives: a foreign pod swapped in
   * between the controller's read and its write is never hit.
   */
  lemma ForeignPodsAreNeverHit(m: Manager, start: World, log: seq<Event>, i: nat) returns (k: nat)
    requires Sound(start) && Legal(m, start, log) && i < |log|
    requires log[i].Deleted? || log[i].Resized?
    ensures k < i && log[k].Began? && WorldAt(start, log[..k]).cr == Some(log[k].sw)
    ensures PassAt(m, log[..i]).Busy? && PassAt(m, log[..i]).sw == log[k].sw
    ensures Live(WorldAt(start, log[..i])).Some?
    ensures var owner := Live(WorldAt(start, log[..i])).value.owner;
            owner == Some(Owner(log[k].sw.name, log[k].sw.uid, "ShadowWorkload", "symbiont.tensorhost.com/v1alpha1"))
  {
    hide Sound, Remembers, Accepts, Rule;
    SoundHasHistory(start);
    RunInvariant(m, start, log, i);
    Prefix(m, start, log, i);
    WriteHitsOwned(m, WorldAt(start, log[..i]), PassAt(m, log[..i]), log[i]);
    k := PassBegan(m, start, log, i);
  }

  /**
   * The pod has no controller, or one of another kind or API version, or a ShadowWorkload that no pass of the run read,
   * by name or by uid.
   */
  predicate ForeignTo(log: seq<Event>, pod: Pod) {
    || pod.owner.None?
    || pod.owner.value.kind != "ShadowWorkload"
    || pod.owner.value.apiVersion != "symbiont.tensorhost.com/v1alpha1"
    || forall k :: 0 <= k < |log| && log[k].Began?
                   ==> log[k].sw.uid != pod.owner.value.uid || log[k].sw.name != pod.owner.value.name
  }

  ghost predicate EnvironmentLeavesPodAlone(log: seq<Event>, i: nat, j: nat) {
    forall k :: i <= k < j && k < |log| && log[k].Environment? ==> !TouchesPod(log[k].step)
  }

  lemma QuietStepKeepsPod(w: World, e: Event)
    requires w.revisions != []
    requires !(e.Created? || e.Deleted? || e.Resized?) && (e.Environment? ==> !TouchesPod(e.step))
    ensures Apply(w, e).revisions == w.revisions
  {
  }

  /**
   * Survival.  A foreign pod that is live at some point stays live, unchanged to the last field, until the
   * environment itself touches it, whatever the controller does meanwhile.
   */
  lemma {:induction false} ForeignPodSurvives(m: Manager, start: World, log: seq<Event>, i: nat, j: nat, pod: Pod)
    requires Sound(start) && Legal(m, start, log) && i <= j <= |log|
    requires Live(WorldAt(start, log[..i])) == Some(pod) && ForeignTo(log, pod)
    requires EnvironmentLeavesPodAlone(log, i, j)
    ensures Live(WorldAt(start, log[..j])) == Some(pod)
    ensures WorldAt(start, log[..j]).revisions == WorldAt(start, log[..i]).revisions
    decreases j
  {
    hide Sound, Rule, Apply, Owned, Legal, WorldAt, PassAt;
    SoundHasHistory(start);
    if i < j {
      ForeignPodSurvives(m, start, log, i, j - 1, pod);
      Prefix(m, start, log, j - 1);
      Advance(m, start, log, j - 1);
      if log[j - 1].Deleted? || log[j - 1].Resized? {
        var _ := ForeignPodsAreNeverHit(m, start, log, j - 1);
        assert false;
      } else if log[j - 1].Created? {
        assert false;
      } else {
        QuietStepKeepsPod(WorldAt(start, log[..j - 1]), log[j - 1]);
      }
    }
  }

  // ----- Which own pods are deleted --------------------------------------------------------------

  /** The pod at the phantom key keeps its uid until one with a new uid replaces it. */
  lemma LiveStep(w: World, e: Event)
    requires w.revisions != [] && Accepts(w, e)
    ensures var next := Apply(w, e);
            && |w.revisions| <= |next.revisions|
            && (Live(next).Some? ==> || Live(next).value.uid >= |w.revisions|
                                     || (Live(w).Some? && Live(next).value.uid == Live(w).value.uid))
  {
  }

  lemma {:induction false} LiveIsOldOrNew(m: Manager, start: World, log: seq<Event>, k: nat, j: nat)
    requires start.revisions != [] && Legal(m, start, log) && k <= j <= |log|
    ensures var seen, now := WorldAt(start, log[..k]), WorldAt(start, log[..j]);
            && |seen.revisions| <= |now.revisions|
            && (Live(now).Some? ==> || Live(now).value.uid >= |seen.revisions|
                                    || (Live(seen).Some? && Live(now).value.uid == Live(seen).value.uid))
    decreases j
  {
    hide Legal, WorldAt, PassAt, Accepts, Apply, Rule;
    if k < j {
      LiveIsOldOrNew(m, start, log, k, j - 1);
      Prefix(m, start, log, j - 1);
      Advance(m, start, log, j - 1);
      LiveStep(WorldAt(start, log[..j - 1]), log[j - 1]);
    }
  }

  /** What an event does to the cached read of a pass that stays in progress. */
  lemma CachedStep(m: Manager, p: Pass, e: Event)
    requires Observe(m, p, e).Busy? && !Observe(m, p, e).cached.Unread?
    ensures p.Busy? && Observe(m, p, e).sw == p.sw && !e.Began?
    ensures Observe(m, p, e).cached == if e.PodRead? then ToLookup(e.found) else p.cached
  {
    hide Nodes.EligibilityOf, Judge, Measurable;
  }

  /** The event at which a pass in progress read the cache. */
  lemma {:induction false} CacheWasRead(m: Manager, start: World, log: seq<Event>, i: nat) returns (k: nat)
    requires start.revisions != [] && Legal(m, start, log) && i <= |log|
    requires PassAt(m, log[..i]).Busy? && !PassAt(m, log[..i]).cached.Unread?
    ensures k < i && log[k].PodRead? && PassAt(m, log[..i]).cached == ToLookup(log[k].found)
    ensures PassAt(m, log[..k]).Busy? && PassAt(m, log[..k]).sw == PassAt(m, log[..i]).sw
    ensures forall x :: k <= x < i ==> !log[x].Began?
    decreases i
  {
    hide Rule, Legal, Observe, WorldAt;
    assert i > 0 by {
      assert log[..0] == [];
    }
    Advance(m, start, log, i - 1);
    CachedStep(m, PassAt(m, log[..i - 1]), log[i - 1]);
    if log[i - 1].PodRead? {
      k := i - 1;
    } else {
      k := CacheWasRead(m, start, log, i - 1);
    }
  }

  /** What a pass that may delete a pod has seen: it misplaced, or no pod at all and then this one past the cache. */
  lemma DeleterSaw(w: World, p: Pass, e: Event)
    requires Remembers(w, p) && Rule(p, e) && e.Deleted?
    ensures p.Busy? && !p.cached.Unread?
    ensures p.cached.Absent? || (p.cached.Found? && p.cached.pod.uid == e.uid && p.cached.pod.node != p.sw.spec.node)
  {
    hide Owned, Desired;
  }

  /**
   * Which of its own pods the controller deletes.  When the pass saw the key as it was (event k), the pod deleted was
   * unlabelled or on the wrong node at that moment, or had not been there at all.
   */
  lemma DeletesStrays(m: Manager, start: World, log: seq<Event>, i: nat) returns (k: nat)
    requires Sound(start) && start.revisions != [] && Legal(m, start, log) && i < |log| && log[i].Deleted?
    ensures k < i && log[k].PodRead? && forall x :: k <= x < i ==> !log[x].Began?
    ensures PassAt(m, log[..k]).Busy? && PassAt(m, log[..i]).Busy?
    ensures PassAt(m, log[..i]).sw == PassAt(m, log[..k]).sw
    ensures var seen := WorldAt(start, log[..k]);
            log[k].found == Visible(Live(seen)) ==>
              || log[i].uid >= |seen.revisions|
              || (&& Live(seen).Some? && Live(seen).value.uid == log[i].uid
                  && !InPlace(Live(seen).value, PassAt(m, log[..i]).sw))
  {
    hide Sound, Remembers, Legal, WorldAt, PassAt, Rule, Apply;
    RunInvariant(m, start, log, i);
    Prefix(m, start, log, i);
    DeleterSaw(WorldAt(start, log[..i]), PassAt(m, log[..i]), log[i]);
    k := CacheWasRead(m, start, log, i);
    LiveIsOldOrNew(m, start, log, k, i);
  }

  // ----- Ready never lies --------------------------------------------------------------------

  /** What Ready=True claims: an owned, correctly pinned phantom is held within threshold of a fresh measurement. */
  ghost predicate Tracks(w: World, p: Pass) {
    && p.Busy? && p.held.Some? && Known(w, p.held.value)
    && Owned(p.held.value, p.sw) && p.held.value.node == p.sw.spec.node
    && p.outcome.Taken?
    && Reservation.CloseTo(CurrentPairOf(p.held.value), Desired(p.sw, p.outcome), p.sw.spec.update.threshold)
  }

  lemma DesiredIsBounded(sw: Workload, outcome: Outcome)
    requires Admitted(sw.spec)
    ensures Reservation.Within(Desired(sw, outcome), sw.spec.update.floor, sw.spec.update.ceiling)
    ensures Desired(sw, outcome).cpu >= 0 && Desired(sw, outcome).memory >= 0
    ensures !DriftExceeds(Desired(sw, outcome), Desired(sw, outcome), sw.spec.update.threshold)
  {
    hide PairOf;
    var reading := if outcome.Taken? then outcome.reading else Reading(0.0, 0.0, false);
    var raw := PairOf(reading.cpu, reading.memory);
    Reservation.ClampMeaning(raw, raw, sw.spec.update.floor, sw.spec.update.ceiling);
    Reservation.RepeatNeverFires(Desired(sw, outcome), sw.spec.update.threshold);
  }

  lemma SettledAndHealthyTracks(w: World, p: Pass)
    requires Sound(w) && Remembers(w, p) && Settled(p) && Trouble(p).None?
    ensures Tracks(w, p)
  {
    hide Desired, DriftExceeds;
    DesiredIsBounded(p.sw, p.outcome);
    if p.cached != Found(p.held.value) {
      ExactPodsReadBack(p.held.value, Desired(p.sw, p.outcome));
    }
    Reservation.DriftBand(CurrentPairOf(p.held.value), Desired(p.sw, p.outcome), p.sw.spec.update.threshold);
  }

  /** Whenever a pass persists Ready=True, that pass holds a phantom for which the claim is true. */
  lemma ReadyNeverLies(m: Manager, start: World, log: seq<Event>, i: nat)
    requires Sound(start) && Legal(m, start, log) && i < |log|
    requires log[i].Persisted? && log[i].status.ready.Some? && log[i].status.ready.value.status
    ensures Tracks(WorldAt(start, log[..i]), PassAt(m, log[..i]))
  {
    hide Sound, Remembers, Tracks, Recorded, DueWarnings;
    SoundHasHistory(start);
    RunInvariant(m, start, log, i);
    Prefix(m, start, log, i);
    assert Trouble(PassAt(m, log[..i])).None?;
    SettledAndHealthyTracks(WorldAt(start, log[..i]), PassAt(m, log[..i]));
  }

  // ----- Status tells the last truth -----------------------------------------------------------

  /** Some phantom of the workload held exactly this pair at some time. */
  ghost predicate OnceHeld(w: World, sw: Workload, pair: Pair) {
    exists k :: 0 <= k < |w.revisions| && w.revisions[k].Some? && Owned(w.revisions[k].value, sw)
                && CurrentPairOf(w.revisions[k].value) == pair
  }

  /** The status names a phantom or a reservation. */
  predicate Reports(st: Status) {
    st.phantomPod != "" || st.current != Pair(0, 0)
  }

  /** What the status reports, if anything, is a reservation that some phantom of the workload really held. */
  ghost predicate LastTruth(w: World) {
    w.cr.Some? && Reports(w.cr.value.status) ==> OnceHeld(w, w.cr.value, w.cr.value.status.current)
  }

  /** The amount is not the one the status had, and not zero. */
  predicate NewAmount(was: Quantity, now: Quantity) {
    now != was && now != 0
  }

  /** The pass saw its phantom, and the status it read did not show the phantom's name and reservation yet. */
  predicate ReportsAnew(p: Pass) {
    && p.Busy? && p.held.Some?
    && (var st, pair := p.sw.status, CurrentPairOf(p.held.value);
        || st.phantomPod != Naming.PhantomName(p.sw.name)
        || NewAmount(st.current.cpu, pair.cpu) || NewAmount(st.current.memory, pair.memory))
  }

  /**
   * Each status patch meets the ShadowWorkload its pass read, or has nothing new to report of a phantom.  The patch
   * goes by name, so this is what the code needs for the persisted reservation to be about the workload it lands on.
   */
  ghost predicate TruthfulPatches(m: Manager, start: World, log: seq<Event>)
    requires start.revisions != []
  {
    forall k :: 0 <= k < |log| && log[k].Persisted? ==>
      var p := PassAt(m, log[..k]);
      Current(WorldAt(start, log[..k]), p) || !ReportsAnew(p)
  }

  lemma OnceHeldLater(w: World, later: World, sw: Workload, other: Workload, pair: Pair)
    requires OnceHeld(w, sw, pair) && w.revisions <= later.revisions && SameWorkload(sw, other)
    ensures OnceHeld(later, other, pair)
  {
    var k :| 0 <= k < |w.revisions| && w.revisions[k].Some? && Owned(w.revisions[k].value, sw)
             && CurrentPairOf(w.revisions[k].value) == pair;
    assert later.revisions[k] == w.revisions[k];
  }

  /** What a pass reports of the phantom: the pair it held, or what the status it read already said. */
  lemma PersistsCurrent(p: Pass, e: Event)
    requires Rule(p, e) && e.Persisted?
    ensures p.Busy? && e.was == p.sw.status
    ensures e.status.current == if p.held.Some? then CurrentPairOf(p.held.value) else p.sw.status.current
    ensures e.status.phantomPod == if p.held.Some? then Naming.PhantomName(p.sw.name) else p.sw.status.phantomPod
  {
    hide CurrentPairOf, Trouble, Settled, DueWarnings, Naming.PhantomName;
  }

  /** A patch that meets the ShadowWorkload its pass read writes exactly the status the pass computed. */
  lemma PatchMeetsBase(w: World, p: Pass, e: Event)
    requires w.revisions != [] && Remembers(w, p) && Rule(p, e) && e.Persisted? && Current(w, p)
    ensures Accepts(w, e) && Apply(w, e) == w.(cr := Some(w.cr.value.(status := e.status)))
  {
    hide Settled, StatusOf, DueWarnings;
    MergePatch.MergesOntoBase(e.was, e.status);
    hide MergePatch.Merged, MergePatch.Fits;
  }

  /** Any other patch lands on a status nobody has written yet. */
  lemma PatchMeetsBlank(w: World, p: Pass, e: Event)
    requires w.revisions != [] && Remembers(w, p) && Accepts(w, e) && Rule(p, e) && e.Persisted? && !Current(w, p)
    ensures w.cr.Some? && w.cr.value.status == BLANK && Apply(w, e) == Patched(w, e.was, e.status)
  {
    hide Settled, StatusOf, DueWarnings, MergePatch.Merged, MergePatch.Fits, BLANK;
  }

  /** On a blank status a patch reports a phantom exactly when its pass saw one it had not reported. */
  lemma ReportsOnBlank(w: World, p: Pass, e: Event)
    requires w.revisions != [] && Remembers(w, p) && Accepts(w, e) && Rule(p, e) && e.Persisted? && !Current(w, p)
    ensures Apply(w, e).cr.Some? && (Reports(Apply(w, e).cr.value.status) <==> ReportsAnew(p))
  {
    PatchMeetsBlank(w, p, e);
    PersistsCurrent(p, e);
    NamesAreNotEmpty(p.sw.name);
    hide CurrentPairOf, Accepts, Rule, Remembers, Apply, Naming.PhantomName;
    hide MergePatch.MergedSnapshot, MergePatch.MergedDescription;
  }

  lemma NamesAreNotEmpty(name: string)
    ensures Naming.PhantomName(name) != ""
  {
  }

  lemma PatchKeepsLastTruth(w: World, p: Pass, e: Event)
    requires Sound(w) && w.revisions != [] && Remembers(w, p) && LastTruth(w) && Accepts(w, e) && Rule(p, e)
    requires e.Persisted? && (Current(w, p) || !ReportsAnew(p))
    ensures LastTruth(Apply(w, e))
  {
    if Current(w, p) {
      PatchMeetsBase(w, p, e);
      PersistsCurrent(p, e);
      hide Sound, Accepts, Rule, Apply, CurrentPairOf, Desired, Naming.PhantomName;
      var sw, next := w.cr.value, Apply(w, e);
      if p.held.Some? {
        assert w.revisions[p.held.value.resourceVersion] == Some(p.held.value);
        assert OnceHeld(w, sw, e.status.current);
      }
      if Reports(e.status) {
        OnceHeldLater(w, next, sw, next.cr.value, e.status.current);
      }
    } else {
      ReportsOnBlank(w, p, e);
    }
  }

  lemma StepKeepsLastTruth(w: World, p: Pass, e: Event)
    requires Sound(w) && w.revisions != [] && Remembers(w, p) && LastTruth(w) && Accepts(w, e) && Rule(p, e)
    requires e.Persisted? ==> Current(w, p) || !ReportsAnew(p)
    ensures LastTruth(Apply(w, e))
  {
    HistoryGrows(w, e);
    if e.Persisted? {
      PatchKeepsLastTruth(w, p, e);
    } else {
      hide Sound, Accepts, Rule, Apply, CurrentPairOf, Remembers, Owned;
      var next := Apply(w, e);
      if next.lastUid == w.lastUid && next.cr.Some? && Reports(next.cr.value.status) {
        OnceHeldLater(w, next, w.cr.value, next.cr.value, next.cr.value.status.current);
      }
    }
  }

  /**
   * Last truth.  In every legal run the persisted reservation, once set, is one that some phantom of this workload
   * really held, as long as no patch reports a phantom anew to a ShadowWorkload recreated since the read; and in every
   * run at all, a pass that held the phantom persists exactly its requests, any other the pair it read.
   */
  lemma {:induction false} StatusTellsLastTruth(m: Manager, start: World, log: seq<Event>, i: nat)
    requires Sound(start) && LastTruth(start) && Legal(m, start, log) && i <= |log|
    ensures TruthfulPatches(m, start, log) ==> LastTruth(WorldAt(start, log[..i]))
    ensures i < |log| && log[i].Persisted?
            ==> var p := PassAt(m, log[..i]);
                && p.Busy?
                && log[i].status.current == if p.held.Some? then CurrentPairOf(p.held.value) else p.sw.status.current
    decreases i
  {
    hide Sound, Remembers, Accepts, LastTruth, Apply, Rule, CurrentPairOf, ReportsAnew, Current;
    SoundHasHistory(start);
    Prefix(m, start, log, i);
    if i < |log| && log[i].Persisted? { PersistsCurrent(PassAt(m, log[..i]), log[i]); }
    if i > 0 {
      StatusTellsLastTruth(m, start, log, i - 1);
      RunInvariant(m, start, log, i - 1);
      Prefix(m, start, log, i - 1);
      Advance(m, start, log, i - 1);
      if TruthfulPatches(m, start, log) {
        StepKeepsLastTruth(WorldAt(start, log[..i - 1]), PassAt(m, log[..i - 1]), log[i - 1]);
      }
    }
  }

  /** The ShadowWorkload at the key has had no phantom yet. */
  predicate NoPhantomYet(w: World) {
    && w.cr.Some?
    && forall k :: 0 <= k < |w.revisions| && w.revisions[k].Some? ==> !Owned(w.revisions[k].value, w.cr.value)
  }

  /**
   * What a recreation does to the last truth.  Over a ShadowWorkload that has had no phantom yet, a patch breaks the
   * truth exactly when it lands on another life than its pass read and that pass saw a phantom whose name or
   * reservation the status it read did not show.
   */
  lemma LastTruthFailsIff(w: World, p: Pass, e: Event)
    requires Sound(w) && w.revisions != [] && Remembers(w, p) && LastTruth(w) && Accepts(w, e) && Rule(p, e)
    requires e.Persisted? && NoPhantomYet(w)
    ensures !LastTruth(Apply(w, e)) <==> !Current(w, p) && ReportsAnew(p)
  {
    if Current(w, p) || !ReportsAnew(p) {
      PatchKeepsLastTruth(w, p, e);
    } else {
      ReportsOnBlank(w, p, e);
      hide Sound, Rule, Remembers, CurrentPairOf, Reports, ReportsAnew;
    }
  }

  // ----- Measurement and source advance together -------------------------------------------------

  /** A status whose snapshot and source description belong to one spec, no newer than `generation`. */
  ghost predicate CoherentStatus(st: Status, specs: seq<Spec>, generation: nat) {
    && (st.lastMeasurement.Some? <==> st.resolvedSource.Some?)
    && (st.lastMeasurement.Some? ==>
          && st.lastMeasurement.value.observedGeneration <= generation
          && st.lastMeasurement.value.observedGeneration < |specs|
          && st.resolvedSource.value == Sources.Describe(specs[st.lastMeasurement.value.observedGeneration]))
  }

  /** True of the persisted status and of the status a pass in progress started from. */
  ghost predicate Coherent(w: World, p: Pass) {
    && (w.cr.Some? ==> CoherentStatus(w.cr.value.status, w.specs, w.cr.value.generation))
    && (Current(w, p) ==> CoherentStatus(p.sw.status, w.specs, p.sw.generation))
  }

  /** The generation the persisted snapshot belongs to; -1 while there is none. */
  function SnapshotGeneration(w: World): int {
    if w.cr.Some? && w.cr.value.status.lastMeasurement.Some?
    then w.cr.value.status.lastMeasurement.value.observedGeneration
    else -1
  }

  lemma CoherentLater(st: Status, specs: seq<Spec>, later: seq<Spec>, g: nat, h: nat)
    requires CoherentStatus(st, specs, g) && specs <= later && g <= h
    ensures CoherentStatus(st, later, h)
  {
    if st.lastMeasurement.Some? {
      var k := st.lastMeasurement.value.observedGeneration;
      assert later[k] == specs[k];
    }
  }

  lemma GenerationGrows(w: World, e: Event)
    requires Sound(w)
    ensures Apply(w, e).cr.Some? && Apply(w, e).lastUid == w.lastUid
            ==> w.cr.Some? && w.cr.value.generation <= Apply(w, e).cr.value.generation
  {
  }

  /** A pass persists either the snapshot it started from or the one of the spec it read. */
  lemma PersistedIsCoherent(w: World, p: Pass, st: Status)
    requires Sound(w) && Remembers(w, p) && Coherent(w, p) && Current(w, p) && st == StatusOf(p)
    ensures CoherentStatus(st, w.specs, w.cr.value.generation)
    ensures SnapshotGeneration(w)
            <= (if st.lastMeasurement.Some? then st.lastMeasurement.value.observedGeneration else -1)
  {
    hide CurrentPairOf, Sources.Describe, MeasurementPairOf, Naming.PhantomName, Trouble;
  }

  /** Each status patch meets the ShadowWorkload its pass read, or that pass measured nothing. */
  ghost predicate CoherentPatches(m: Manager, start: World, log: seq<Event>)
    requires start.revisions != []
  {
    forall k :: 0 <= k < |log| && log[k].Persisted? ==>
      var p := PassAt(m, log[..k]);
      Current(WorldAt(start, log[..k]), p) || (p.Busy? && !p.outcome.Taken?)
  }

  /** A pass that measured nothing leaves snapshot and description out of its patch. */
  lemma BlindPatchIsCoherent(w: World, p: Pass, e: Event)
    requires w.revisions != [] && Remembers(w, p) && Accepts(w, e) && Rule(p, e) && e.Persisted? && !Current(w, p)
    requires p.Busy? && !p.outcome.Taken?
    ensures var next := Apply(w, e);
            && next.cr.Some? && next.cr.value.status.lastMeasurement.None? && next.cr.value.status.resolvedSource.None?
  {
    PatchMeetsBlank(w, p, e);
    hide Accepts, Remembers, Apply, Settled, DueWarnings, Trouble, CurrentPairOf, Naming.PhantomName;
  }

  lemma PatchKeepsCoherent(m: Manager, w: World, p: Pass, e: Event)
    requires Sound(w) && w.revisions != [] && Remembers(w, p) && Coherent(w, p) && Accepts(w, e) && Rule(p, e)
    requires e.Persisted? && (Current(w, p) || (p.Busy? && !p.outcome.Taken?))
    ensures Coherent(Apply(w, e), Observe(m, p, e)) && SnapshotGeneration(w) <= SnapshotGeneration(Apply(w, e))
  {
    if Current(w, p) {
      PatchMeetsBase(w, p, e);
      PersistedIsCoherent(w, p, e.status);
      hide Sound, Remembers, CoherentStatus, StatusOf, Accepts, Apply, Settled, DueWarnings;
    } else {
      BlindPatchIsCoherent(w, p, e);
      PatchMeetsBlank(w, p, e);
      hide Sound, Remembers, Rule, Accepts;
    }
  }

  lemma StepKeepsCoherent(m: Manager, w: World, p: Pass, e: Event)
    requires Sound(w) && Remembers(w, p) && Coherent(w, p) && Accepts(w, e) && Rule(p, e)
    requires e.Persisted? ==> Current(w, p) || (p.Busy? && !p.outcome.Taken?)
    ensures Coherent(Apply(w, e), Observe(m, p, e))
    ensures Apply(w, e).cr.Some? && Apply(w, e).lastUid == w.lastUid
            ==> SnapshotGeneration(w) <= SnapshotGeneration(Apply(w, e))
  {
    HistoryGrows(w, e);
    GenerationGrows(w, e);
    UidsAreRecent(w, p);
    SoundHasHistory(w);
    hide Sound, Remembers, CoherentStatus, StatusOf, Disturb, Learn;
    SameSw(m, p, e);
    var next := Apply(w, e);
    if e.Persisted? {
      PatchKeepsCoherent(m, w, p, e);
    } else if next.lastUid != w.lastUid {
      BlankIsCoherent(next);
    } else {
      if next.cr.Some? {
        CoherentLater(w.cr.value.status, w.specs, next.specs, w.cr.value.generation, next.cr.value.generation);
      }
      if Current(next, p) {
        CoherentLater(p.sw.status, w.specs, next.specs, p.sw.generation, p.sw.generation);
      }
    }
  }

  lemma BlankIsCoherent(w: World)
    requires w.cr.Some? && w.cr.value.status == BLANK
    ensures CoherentStatus(w.cr.value.status, w.specs, w.cr.value.generation)
  {
  }

  /**
   * Snapshot coherence.  Over every legal run with any spec edits, in which no patch brings a measurement to a
   * ShadowWorkload recreated since the read, the persisted source description is that of the spec at the persisted
   * snapshot's generation, which never exceeds the current generation and never goes back during one life of the
   * workload.
   */
  lemma {:induction false} SnapshotsCohere(m: Manager, start: World, log: seq<Event>, i: nat, j: nat)
    requires Sound(start) && Coherent(start, Idle) && Legal(m, start, log) && i <= j <= |log|
    requires CoherentPatches(m, start, log)
    ensures Coherent(WorldAt(start, log[..j]), PassAt(m, log[..j]))
    ensures WorldAt(start, log[..i]).lastUid <= WorldAt(start, log[..j]).lastUid
    ensures WorldAt(start, log[..j]).cr.Some? && WorldAt(start, log[..j]).lastUid == WorldAt(start, log[..i]).lastUid
            ==> SnapshotGeneration(WorldAt(start, log[..i])) <= SnapshotGeneration(WorldAt(start, log[..j]))
    decreases j
  {
    hide Sound, Remembers, Accepts, Rule, Coherent, SnapshotGeneration, Apply, Observe;
    SoundHasHistory(start);
    if j > 0 {
      RunInvariant(m, start, log, j - 1);
      Prefix(m, start, log, j - 1);
      Advance(m, start, log, j - 1);
      var w := WorldAt(start, log[..j - 1]);
      if i < j {
        SnapshotsCohere(m, start, log, i, j - 1);
      } else {
        SnapshotsCohere(m, start, log, j - 1, j - 1);
      }
      StepKeepsCoherent(m, w, PassAt(m, log[..j - 1]), log[j - 1]);
      HistoryGrows(w, log[j - 1]);
    }
  }

  // ----- Fail closed --------------------------------------------------------------------------

  /** The answers behind a pass's measurement were complete and valid, or absent with the pinned target up. */
  ghost predicate Trusted(p: Pass) {
    && p.Busy? && p.replies.Some?
    && (|| CompletePair(p.replies.value)
        || (AbsentPair(p.replies.value) && (Compiler.Typed(p.sw.spec.source.kind) ==> TargetUp(p.replies.value))))
  }

  lemma TakenIsTrusted(w: World, p: Pass)
    requires Remembers(w, p) && p.Busy? && p.outcome.Taken?
    ensures Trusted(p)
  {
    hide Sources.Resolve, QueryPair;
    AcceptedIff(Sources.Resolve(p.sw.spec).value, p.replies.value);
    Compiler.HealthQueryIffTyped(p.sw.spec);
  }

  /**
   * Fail closed, end to end: in every legal run a phantom is resized only in a pass whose backend answers
   * were a complete valid pair, or a fully absent pair whose pinned target answered exactly one sample of 1
   * (raw PromQL pins no target).
   */
  lemma ResizeNeedsTrust(m: Manager, start: World, log: seq<Event>, i: nat)
    requires Sound(start) && Legal(m, start, log) && i < |log| && log[i].Resized?
    ensures Trusted(PassAt(m, log[..i]))
  {
    hide Sound, Remembers, Accepts, Trusted;
    SoundHasHistory(start);
    RunInvariant(m, start, log, i);
    Prefix(m, start, log, i);
    hide Rule;
    TakenIsTrusted(WorldAt(start, log[..i]), PassAt(m, log[..i]));
  }

  /** A pass without a measurement that sees its phantom, owned and correctly pinned. */
  predicate BlindButHolding(p: Pass) {
    p.Busy? && p.outcome.Failing? && p.held.Some? && p.cached == Found(p.held.value)
  }

  /**
   * Such a pass writes no pod at all, and the status it persists shows exactly the requests it read; it stays
   * such a pass until it ends.
   */
  lemma BlindPassKeepsReservation(m: Manager, start: World, log: seq<Event>, i: nat)
    requires Sound(start) && Legal(m, start, log) && i < |log| && BlindButHolding(PassAt(m, log[..i]))
    ensures !log[i].Created? && !log[i].Deleted? && !log[i].Resized?
    ensures log[i].Persisted?
            ==> log[i].status.current == CurrentPairOf(PassAt(m, log[..i]).held.value)
    ensures PassAt(m, log[..i + 1]).Idle? || BlindButHolding(PassAt(m, log[..i + 1]))
  {
    hide Sound, Accepts, Apply, Desired, DueWarnings, CurrentPairOf;
    SoundHasHistory(start);
    RunInvariant(m, start, log, i);
    Prefix(m, start, log, i);
    Advance(m, start, log, i);
  }

  /** No pod is touched in a pass stopped at the gate. */
  lemma GateStopsWrites(m: Manager, start: World, log: seq<Event>, i: nat)
    requires Sound(start) && Legal(m, start, log) && i < |log|
    requires PassAt(m, log[..i]).Busy? && !PassAt(m, log[..i]).gate.Open?
    ensures !log[i].Created? && !log[i].Deleted? && !log[i].Resized?
  {
    hide Sound, Accepts, Apply, Desired, StatusOf;
    SoundHasHistory(start);
    RunInvariant(m, start, log, i);
    Prefix(m, start, log, i);
  }

  // ----- Guaranteed QoS and bounds --------------------------------------------------------------

  lemma PassIsAdmitted(w: World, p: Pass)
    requires Remembers(w, p)
    ensures p.Busy? ==> Admitted(p.sw.spec)
  {
  }

  lemma WritesGoal(w: World, p: Pass, e: Event)
    requires w.revisions != [] && Accepts(w, e) && Rule(p, e) && (e.Created? || e.Resized?)
    ensures p.Busy? && HoldsExactly(e.pod, Desired(p.sw, p.outcome)) && e.pod.containers != []
  {
    hide Desired;
  }

  /** Every accepted create and resize leaves requests equal to limits on every container, inside the spec's bounds. */
  lemma WritesAreGuaranteed(m: Manager, start: World, log: seq<Event>, i: nat)
    requires Sound(start) && Legal(m, start, log) && i < |log| && (log[i].Created? || log[i].Resized?)
    ensures var p := PassAt(m, log[..i]);
            && p.Busy?
            && HoldsExactly(log[i].pod, Desired(p.sw, p.outcome)) && log[i].pod.containers != []
            && Reservation.Within(Desired(p.sw, p.outcome), p.sw.spec.update.floor, p.sw.spec.update.ceiling)
  {
    hide Sound, Remembers, Accepts, Rule, Desired;
    SoundHasHistory(start);
    RunInvariant(m, start, log, i);
    Prefix(m, start, log, i);
    var w, p := WorldAt(start, log[..i]), PassAt(m, log[..i]);
    WritesGoal(w, p, log[i]);
    PassIsAdmitted(w, p);
    DesiredIsBounded(p.sw, p.outcome);
  }

  /** Every pass of the run read the same bounds. */
  predicate FixedBounds(log: seq<Event>, floor: Pair, ceiling: Pair) {
    forall k :: 0 <= k < |log| && log[k].Began?
                ==> log[k].sw.spec.update.floor == floor && log[k].sw.spec.update.ceiling == ceiling
  }

  predicate LiveWithin(w: World, floor: Pair, ceiling: Pair)
    requires w.revisions != []
  {
    Live(w).Some? ==> Reservation.Within(CurrentPairOf(Live(w).value), floor, ceiling)
  }

  /** No stranger puts or resizes pods in the run; pods may still vanish and lose their label. */
  predicate NoOutsideReservations(log: seq<Event>) {
    forall k :: 0 <= k < |log| && log[k].Environment? ==> !log[k].step.PutPod? && !log[k].step.EditResources?
  }

  /** What an event leaves at the phantom key. */
  lemma KeyAfter(w: World, e: Event)
    requires w.revisions != [] && (e.Environment? ==> !e.step.PutPod? && !e.step.EditResources?)
    ensures var now := Live(Apply(w, e));
            if e.Created? || e.Resized? then now == Some(e.pod)
            else now.None? || (Live(w).Some? && now.value.containers == Live(w).value.containers)
  {
  }

  lemma StepStaysWithin(m: Manager, w: World, p: Pass, e: Event, floor: Pair, ceiling: Pair)
    requires Sound(w) && Remembers(w, p) && Accepts(w, e) && Rule(p, e)
    requires p.Busy? ==> p.sw.spec.update.floor == floor && p.sw.spec.update.ceiling == ceiling
    requires LiveWithin(w, floor, ceiling)
    requires e.Environment? ==> !e.step.PutPod? && !e.step.EditResources?
    ensures LiveWithin(Apply(w, e), floor, ceiling)
  {
    SoundHasHistory(w);
    hide Desired, Sound, Rule, Apply, Accepts;
    KeyAfter(w, e);
    if e.Created? || e.Resized? {
      WritesGoal(w, p, e);
      PassIsAdmitted(w, p);
      DesiredIsBounded(p.sw, p.outcome);
      ExactPodsReadBack(e.pod, Desired(p.sw, p.outcome));
    }
  }

  /** With the same bounds in every pass, the reservation never leaves them in the whole run. */
  lemma {:induction false} ReservationStaysWithin(m: Manager, start: World, log: seq<Event>, i: nat,
                                                  floor: Pair, ceiling: Pair)
    requires Sound(start) && Legal(m, start, log) && i <= |log| && NoOutsideReservations(log)
    requires FixedBounds(log, floor, ceiling) && LiveWithin(start, floor, ceiling)
    ensures LiveWithin(WorldAt(start, log[..i]), floor, ceiling)
    decreases i
  {
    hide Sound, Remembers, Accepts, Rule, Apply, LiveWithin;
    SoundHasHistory(start);
    if i > 0 {
      ReservationStaysWithin(m, start, log, i - 1, floor, ceiling);
      RunInvariant(m, start, log, i - 1);
      Prefix(m, start, log, i - 1);
      Advance(m, start, log, i - 1);
      var p := PassAt(m, log[..i - 1]);
      if p.Busy? {
        var k := PassBegan(m, start, log, i - 1);
        assert log[k] == Began(p.sw);
      }
      StepStaysWithin(m, WorldAt(start, log[..i - 1]), p, log[i - 1], floor, ceiling);
    } else {
      assert log[..0] == [];
    }
  }
}
