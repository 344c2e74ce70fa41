/**
 * The API server around one ShadowWorkload, as the controller's client sees it.  Between any two calls the
 * environment may take any steps, and any call may be refused or served from a lagging cache; all of that is
 * fixed in advance by a script, so that a property proved for every script holds for every interleaving.
 */
module ApiServer {
  import opened Wrappers
  import opened Api
  import opened Shadow
  import opened Backend
  import opened Protocol
  import MergePatch
  import Metrics
  import Nodes
  import Safety

  /**
   * What happens around one API call: steps before it, whether it is refused, whether the response to a write that
   * took effect is lost, how far the cache lags.
   */
  datatype Choice = Choice(steps: seq<EnvStep>, refuse: bool, lose: bool, lag: nat)

  datatype Fetched<+T> = Present(value: T) | NotFound | Unavailable

  datatype CreateOutcome = CreatedAs(pod: Pod) | AlreadyExists | CreateFailed

  datatype DeleteOutcome = Removed | WasGone | UidMismatch | DeleteFailed

  datatype ResizeOutcome = ResizedTo(pod: Pod, at: Metrics.Time) | ResizeFailed

  class Server {
    var world: World
    /** Disturbances still to come; once it is empty the weather stays calm. */
    var script: seq<Choice>
    const manager: Manager
    ghost const start: World
    ghost var log: seq<Event>
    /** Whether the last call came back to the controller as an API error it has no answer to. */
    ghost var failing: bool

    ghost predicate Valid()
      reads this
    {
      && Sound(start) && start.revisions != []
      && Sound(world) && world == WorldAt(start, log)
    }

    ghost predicate Lawful()
      reads this
      requires start.revisions != []
    {
      Legal(manager, start, log)
    }

    /** What the pass in progress has learned. */
    ghost function Pass(): Protocol.Pass
      reads this
    {
      PassAt(manager, log)
    }

    predicate Calm()
      reads this
    {
      script == []
    }

    constructor (world: World, script: seq<Choice>, manager: Manager)
      requires Sound(world)
      ensures Valid() && Lawful() && Pass().Idle?
      ensures this.world == world && this.script == script && this.manager == manager && start == world && log == []
    {
      this.world := world;
      this.script := script;
      this.manager := manager;
      this.start := world;
      this.log := [];
      this.failing := false;
    }

    /** Lets the environment take its next scripted steps. */
    method Draw() returns (c: Choice)
      requires Valid()
      modifies this
      ensures Valid() && !failing && OnlyEnvironment(manager, start, old(log), log)
      ensures if old(script) == [] then script == [] && world == old(world) && c == Choice([], false, false, 0)
              else |script| < |old(script)|
    {
      hide Sound, Disturb, WorldAt, OnlyEnvironment;
      NoEnvironment(manager, start, log);
      failing := false;
      if script == [] {
        return Choice([], false, false, 0);
      }
      c := script[0];
      script := script[1..];
      for i := 0 to |c.steps|
        invariant Valid() && !failing && script == old(script)[1..]
        invariant OnlyEnvironment(manager, start, old(log), log)
      {
        var step := c.steps[i];
        Safety.SoundHasHistory(world);
        Safety.DisturbKeepsSound(world, step);
        EnvironmentStepLogged(manager, start, old(log), log, step);
        world := Disturb(world, step);
        log := log + [Environment(step)];
      }
    }

    /** One step of the environment outside any script. */
    method Endure(step: EnvStep)
      requires Valid()
      modifies `world, `log
      ensures Valid() && OnlyEnvironment(manager, start, old(log), log) && world == Disturb(old(world), step)
    {
      hide Sound, Disturb, WorldAt, OnlyEnvironment;
      NoEnvironment(manager, start, log);
      Safety.SoundHasHistory(world);
      Safety.DisturbKeepsSound(world, step);
      EnvironmentStepLogged(manager, start, log, log, step);
      world := Disturb(world, step);
      log := log + [Environment(step)];
    }

    /** Records an event the server accepted. */
    method Commit(ghost before: seq<Event>, ghost e: Event, next: World)
      requires Valid() && OnlyEnvironment(manager, start, before, log) && !e.Environment?
      requires Sound(world) && Accepts(world, e) && next == Apply(world, e)
      modifies `world, `log
      ensures Valid() && world == next && Logged(manager, start, before, log, e)
      ensures log != [] && log[|log| - 1] == e
    {
      hide Sound, Accepts, Apply, WorldAt, OnlyEnvironment, Logged;
      EventLogged(manager, start, before, log, e);
      Safety.ApplyKeepsSound(world, e);
      world := next;
      log := log + [e];
    }

    /** Reads the ShadowWorkload; the informer is fresh when a pass starts. */
    method GetWorkload() returns (r: Fetched<Workload>)
      requires Valid()
      modifies this
      ensures Valid() && (failing <==> r.Unavailable?)
      ensures match r
              case Present(sw) => world.cr == Some(sw) && Logged(manager, start, old(log), log, Began(sw))
              case NotFound => world.cr.None? && Logged(manager, start, old(log), log, Gone)
              case Unavailable => OnlyEnvironment(manager, start, old(log), log)
      ensures if old(script) == [] then script == [] && world == old(world) && !r.Unavailable?
              else |script| < |old(script)|
    {
      hide Logged, OnlyEnvironment, Unheard, Sound, WorldAt, Disturb;
      ghost var before := log;
      Safety.SoundHasHistory(world);
      var c := Draw();
      Safety.SoundHasHistory(world);
      if c.refuse {
        failing := true;
        return Unavailable;
      }
      if world.cr.None? {
        Commit(before, Gone, world);
        return NotFound;
      }
      r := Present(world.cr.value);
      Commit(before, Began(r.value), world);
    }

    method GetNode(name: string) returns (r: Fetched<Nodes.Node>)
      requires Valid()
      modifies this
      ensures Valid() && (failing <==> r.Unavailable?)
      ensures match r
              case Present(node) => Logged(manager, start, old(log), log, NodeRead(name, Some(node)))
              case NotFound => Logged(manager, start, old(log), log, NodeRead(name, None))
              case Unavailable => OnlyEnvironment(manager, start, old(log), log)
      ensures old(script) == [] ==>
                && script == [] && world == old(world)
                && r == if name in world.nodes then Present(world.nodes[name]) else NotFound
      ensures |script| <= |old(script)|
    {
      hide Logged, OnlyEnvironment, Unheard, Sound, WorldAt, Disturb;
      ghost var before := log;
      Safety.SoundHasHistory(world);
      var c := Draw();
      Safety.SoundHasHistory(world);
      if c.refuse {
        failing := true;
        return Unavailable;
      }
      Commit(before, NodeRead(name, NodeOf(world, name)), world);
      r := if name in world.nodes then Present(world.nodes[name]) else NotFound;
    }

    /** Looks for the ballast PriorityClass. */
    method GetPriorityClass() returns (r: Fetched<()>)
      requires Valid()
      modifies this
      ensures Valid() && (failing <==> r.Unavailable?)
      ensures match r
              case Present(_) => Logged(manager, start, old(log), log, PriorityRead(true))
              case NotFound => Logged(manager, start, old(log), log, PriorityRead(false))
              case Unavailable => OnlyEnvironment(manager, start, old(log), log)
      ensures old(script) == [] ==>
                script == [] && world == old(world) && r == if world.priorityClass then Present(()) else NotFound
      ensures |script| <= |old(script)|
    {
      hide Logged, OnlyEnvironment, Unheard, Sound, WorldAt, Disturb;
      ghost var before := log;
      Safety.SoundHasHistory(world);
      var c := Draw();
      Safety.SoundHasHistory(world);
      if c.refuse {
        failing := true;
        return Unavailable;
      }
      Commit(before, PriorityRead(world.priorityClass), world);
      r := if world.priorityClass then Present(()) else NotFound;
    }

    /** Puts the pass's queries to the metrics backend; a backend in trouble answers too.  `at` is when it did. */
    method AskBackend() returns (replies: Replies, at: Metrics.Time)
      requires Valid()
      modifies this
      ensures Valid() && !failing && Logged(manager, start, old(log), log, Measured(replies, at))
      ensures old(script) == [] ==> script == [] && world == old(world) && replies == world.replies && at == world.time
      ensures |script| <= |old(script)|
    {
      hide Logged, OnlyEnvironment, Unheard, Sound, WorldAt, Disturb;
      ghost var before := log;
      Safety.SoundHasHistory(world);
      var c := Draw();
      Safety.SoundHasHistory(world);
      replies, at := world.replies, world.time;
      Commit(before, Measured(replies, at), world);
    }

    /** Reads the phantom through the label-scoped cache, which may lag any number of writes behind. */
    method GetPod() returns (r: Fetched<Pod>)
      requires Valid()
      modifies this
      ensures Valid() && (failing <==> r.Unavailable?)
      ensures match r
              case Present(pod) => Logged(manager, start, old(log), log, PodRead(Some(pod)))
              case NotFound => Logged(manager, start, old(log), log, PodRead(None))
              case Unavailable => OnlyEnvironment(manager, start, old(log), log)
      ensures old(script) == [] ==>
                && script == [] && world == old(world) && world.revisions != []
                && r == match Visible(Live(world)) case Some(pod) => Present(pod) case None => NotFound
      ensures |script| <= |old(script)|
    {
      hide Logged, OnlyEnvironment, Accepts, Sound, WorldAt, Disturb;
      ghost var before := log;
      Safety.SoundHasHistory(world);
      var c := Draw();
      Safety.SoundHasHistory(world);
      if c.refuse {
        failing := true;
        return Unavailable;
      }
      var last := |world.revisions| - 1;
      var k := if c.lag <= last then last - c.lag else last;
      var found := Visible(world.revisions[k]);
      CacheMayShow(world, k);
      Commit(before, PodRead(found), world);
      r := match found case Some(pod) => Present(pod) case None => NotFound;
    }

    /** Reads whatever is at the phantom key, past the cache. */
    method GetPodUncached() returns (r: Fetched<Pod>)
      requires Valid()
      modifies this
      ensures Valid() && (failing <==> r.Unavailable?)
      ensures match r
              case Present(pod) => Logged(manager, start, old(log), log, LiveRead(Some(pod)))
              case NotFound => Logged(manager, start, old(log), log, LiveRead(None))
              case Unavailable => OnlyEnvironment(manager, start, old(log), log)
      ensures old(script) == [] ==>
                && script == [] && world == old(world) && world.revisions != []
                && r == match Live(world) case Some(pod) => Present(pod) case None => NotFound
      ensures |script| <= |old(script)|
    {
      hide Logged, OnlyEnvironment, Unheard, Sound, WorldAt, Disturb;
      ghost var before := log;
      Safety.SoundHasHistory(world);
      var c := Draw();
      Safety.SoundHasHistory(world);
      if c.refuse {
        failing := true;
        return Unavailable;
      }
      var found := Live(world);
      Commit(before, LiveRead(found), world);
      r := match found case Some(pod) => Present(pod) case None => NotFound;
    }

    /**
     * Creates the pod unless the key is taken; the server assigns uid and resource version.  Failing may hide success.
     */
    method CreatePod(pod: Pod) returns (r: CreateOutcome)
      requires Valid() && pod.containers != []
      modifies this
      ensures Valid() && (failing <==> r.CreateFailed?)
      ensures match r
              case CreatedAs(made) =>
                && made == pod.(uid := made.uid, resourceVersion := made.resourceVersion)
                && Logged(manager, start, old(log), log, Created(made, true))
              case AlreadyExists => Logged(manager, start, old(log), log, Collided)
              case CreateFailed => Unheard(manager, start, old(log), log, MayCreate(old(Pass()), pod))
      ensures old(script) == [] ==>
                && script == [] && old(world).revisions != []
                && if Live(old(world)).Some? then r.AlreadyExists? && world == old(world)
                   else r.CreatedAs? && world == Write(old(world), Some(r.pod))
                        && r.pod.uid == r.pod.resourceVersion == |old(world).revisions|
      ensures |script| <= |old(script)|
    {
      hide Logged, OnlyEnvironment, Unheard, Sound, WorldAt, Disturb;
      ghost var before := log;
      Safety.SoundHasHistory(world);
      var c := Draw();
      Safety.SoundHasHistory(world);
      if c.refuse {
        QuietIsUnheard(manager, start, before, log, MayCreate(old(Pass()), pod));
        failing := true;
        return CreateFailed;
      }
      if Live(world).Some? {
        Commit(before, Collided, world);
        return AlreadyExists;
      }
      var n := |world.revisions|;
      var made := pod.(uid := n, resourceVersion := n);
      Commit(before, Created(made, !c.lose), Write(world, Some(made)));
      if c.lose {
        LostCreate(manager, start, before, log, pod, made);
        failing := true;
        return CreateFailed;
      }
      r := CreatedAs(made);
    }

    /** What the key holds after the answer to a delete: nothing, or a pod with another uid; a failure says nothing. */
    predicate Answers(r: DeleteOutcome, uid: nat)
      reads this
    {
      && (r.Removed? || r.WasGone? ==> world.revisions != [] && Live(world).None?)
      && (r.UidMismatch? ==> world.revisions != [] && Live(world).Some? && Live(world).value.uid != uid)
    }

    /** Deletes at once, provided the live pod has this uid. */
    method DeletePod(uid: nat) returns (r: DeleteOutcome)
      requires Valid()
      modifies this
      ensures Valid() && (failing <==> r.DeleteFailed?)
      ensures if r.Removed? then Logged(manager, start, old(log), log, Deleted(uid, true))
              else Unheard(manager, start, old(log), log, Rule(old(Pass()), Deleted(uid, true)))
      ensures Answers(r, uid)
      ensures old(script) == [] ==>
                && script == [] && old(world).revisions != []
                && (Live(old(world)).Some? && Live(old(world)).value.uid == uid
                    ==> r.Removed? && world == Write(old(world), None))
      ensures |script| <= |old(script)|
    {
      hide Logged, OnlyEnvironment, Unheard, Sound, WorldAt, Disturb;
      ghost var before := log;
      Safety.SoundHasHistory(world);
      var c := Draw();
      Safety.SoundHasHistory(world);
      if c.refuse || Live(world).None? || Live(world).value.uid != uid {
        QuietIsUnheard(manager, start, before, log, Rule(old(Pass()), Deleted(uid, true)));
        failing := c.refuse;
        return if c.refuse then DeleteFailed else if Live(world).None? then WasGone else UidMismatch;
      }
      Commit(before, Deleted(uid, !c.lose), Write(world, None));
      if c.lose {
        LostDelete(manager, start, before, log, uid);
        failing := true;
        return DeleteFailed;
      }
      r := Removed;
    }

    /**
     * Patches the containers of the live pod under an optimistic lock on the version the caller read.  Failing may
     * hide success.
     */
    method ResizePod(base: Pod, containers: seq<Container>) returns (r: ResizeOutcome)
      requires Valid() && containers != []
      modifies this
      ensures Valid() && (failing <==> r.ResizeFailed?)
      ensures match r
              case ResizedTo(pod, at) =>
                && pod.containers == containers
                && Logged(manager, start, old(log), log, Event.Resized(base, pod, at, true))
              case ResizeFailed =>
                && AcceptedWrites(log) == AcceptedWrites(old(log))
                && (old(Pass()).Busy? ==> Pass() == old(Pass()).(refused := true))
                && (old(Lawful()) && MayResize(old(Pass()), base, containers) ==> Lawful())
      ensures old(script) == [] ==>
                && script == [] && old(world).revisions != []
                && (Live(old(world)) == Some(base) ==>
                      && r.ResizedTo? && world == Write(old(world), Some(r.pod))
                      && r.pod == base.(containers := containers, resourceVersion := |old(world).revisions|))
      ensures |script| <= |old(script)|
    {
      hide Logged, OnlyEnvironment, Unheard, Sound, WorldAt, Disturb;
      ghost var before := log;
      Safety.SoundHasHistory(world);
      var c := Draw();
      Safety.SoundHasHistory(world);
      if c.refuse || Live(world).None? || Live(world).value.resourceVersion != base.resourceVersion {
        Commit(before, ResizeRefused, world);
        RefusedResize(manager, start, before, log, base, containers);
        failing := true;
        return ResizeFailed;
      }
      var pod := Live(world).value.(containers := containers, resourceVersion := |world.revisions|);
      var at := world.time;
      Commit(before, Event.Resized(base, pod, at, !c.lose), Write(world, Some(pod)));
      if c.lose {
        LostResize(manager, start, before, log, base, pod, at, containers);
        failing := true;
        return ResizeFailed;
      }
      r := ResizedTo(pod, at);
    }

    /** Emits a warning event on the ShadowWorkload. */
    method Warn(reason: Reason)
      requires Valid()
      modifies this
      ensures Valid() && world == old(world) && script == old(script) && failing == old(failing)
      ensures AcceptedWrites(log) == AcceptedWrites(old(log))
      ensures old(Pass()).Busy? ==> Pass() == old(Pass()).(warnings := old(Pass()).warnings + [reason])
      ensures old(Lawful() && Pass().Busy?) ==> Lawful()
    {
      hide OnlyEnvironment, Legal, PassAt, WorldAt, Sound;
      NoEnvironment(manager, start, log);
      Commit(log, Warned(reason), world);
    }

    /**
     * Patches the status of whatever ShadowWorkload has the name, if there is one, with the fields in which `status`
     * differs from `was`.  Failing may hide success.
     */
    method PatchStatus(was: Status, status: Status) returns (ok: bool)
      requires Valid()
      modifies this
      ensures Valid() && (failing <==> !ok)
      ensures ok ==> Logged(manager, start, old(log), log, Persisted(was, status, true))
      ensures ok ==> log != [] && log[|log| - 1] == Persisted(was, status, true)
      ensures !ok && old(Pass()).Busy? && Pass().Idle? ==> log != [] && log[|log| - 1] == Persisted(was, status, false)
      ensures !ok ==>
                && AcceptedWrites(log) == AcceptedWrites(old(log)) && (Pass() == old(Pass()) || Pass().Idle?)
                && (old(Lawful()) && Rule(old(Pass()), Persisted(was, status, true)) ==> Lawful())
      ensures old(script) == [] ==>
                && script == []
                && (old(world).cr.Some? && old(world).cr.value.status == was ==>
                      ok && world == old(world).(cr := Some(old(world).cr.value.(status := status))))
      ensures |script| <= |old(script)|
    {
      hide Logged, OnlyEnvironment, Unheard, Sound, WorldAt, Disturb;
      ghost var before := log;
      Safety.SoundHasHistory(world);
      var c := Draw();
      Safety.SoundHasHistory(world);
      MergePatch.MergesOntoBase(was, status);
      hide MergePatch.Fits, MergePatch.Merged;
      if c.refuse || world.cr.None? || !MergePatch.Fits(world.cr.value.status, was, status) {
        QuietIsUnheard(manager, start, before, log, true);
        failing := true;
        return false;
      }
      Commit(before, Persisted(was, status, !c.lose), Patched(world, was, status));
      if c.lose {
        LostPatch(manager, start, before, log, was, status);
      }
      failing := c.lose;
      ok := !c.lose;
    }

    /** Notes that a pass returned, if it did not close by writing status. */
    ghost method Return()
      requires Valid()
      modifies `log
      ensures Valid() && Pass().Idle?
      ensures AcceptedWrites(log) == AcceptedWrites(old(log))
      ensures old(Lawful() && (Pass().Idle? || MayEnd(Pass()))) ==> Lawful()
      ensures log == if old(Pass()).Busy? then old(log) + [Ended] else old(log)
    {
      hide OnlyEnvironment, Legal, PassAt, WorldAt, Sound;
      if Pass().Busy? {
        NoEnvironment(manager, start, log);
        EventLogged(manager, start, log, log, Ended);
        log := log + [Ended];
      }
    }
  }

  // ----- Lost responses ----------------------------------------------------------------------

  lemma QuietIsUnheard(m: Manager, start: World, before: seq<Event>, after: seq<Event>, ruled: bool)
    requires start.revisions != [] && OnlyEnvironment(m, start, before, after)
    ensures Unheard(m, start, before, after, ruled)
    ensures PassAt(m, after) == PassAt(m, before) && AcceptedWrites(after) == AcceptedWrites(before)
    ensures Legal(m, start, before) ==> Legal(m, start, after)
  {
  }

  lemma LostCreate(m: Manager, start: World, before: seq<Event>, after: seq<Event>, pod: Pod, made: Pod)
    requires start.revisions != [] && Logged(m, start, before, after, Created(made, false))
    requires made == pod.(uid := made.uid, resourceVersion := made.resourceVersion)
    ensures Unheard(m, start, before, after, MayCreate(PassAt(m, before), pod))
  {
    hide PassAt, Legal, AcceptedWrites, Desired, Measurement;
    var p := PassAt(m, before);
    if MayCreate(p, pod) {
      assert Rule(p, Created(pod.(uid := made.uid, resourceVersion := made.resourceVersion), true));
    }
  }

  lemma LostDelete(m: Manager, start: World, before: seq<Event>, after: seq<Event>, uid: nat)
    requires start.revisions != [] && Logged(m, start, before, after, Deleted(uid, false))
    ensures Unheard(m, start, before, after, Rule(PassAt(m, before), Deleted(uid, true)))
  {
    hide PassAt, Legal, AcceptedWrites, Desired, Measurement;
  }

  lemma RefusedResize(m: Manager, start: World, before: seq<Event>, after: seq<Event>, base: Pod,
                      containers: seq<Container>)
    requires start.revisions != [] && Logged(m, start, before, after, ResizeRefused)
    ensures AcceptedWrites(after) == AcceptedWrites(before)
    ensures var p := PassAt(m, before);
            && (p.Busy? ==> PassAt(m, after) == p.(refused := true))
            && (Legal(m, start, before) && MayResize(p, base, containers) ==> Legal(m, start, after))
  {
    hide PassAt, Legal, AcceptedWrites, Desired, Measurement;
  }

  lemma LostResize(m: Manager, start: World, before: seq<Event>, after: seq<Event>, base: Pod, pod: Pod,
                   at: Metrics.Time, containers: seq<Container>)
    requires start.revisions != [] && Logged(m, start, before, after, Event.Resized(base, pod, at, false))
    requires pod.containers == containers
    ensures AcceptedWrites(after) == AcceptedWrites(before)
    ensures var p := PassAt(m, before);
            && (p.Busy? ==> PassAt(m, after) == p.(refused := true))
            && (Legal(m, start, before) && MayResize(p, base, containers) ==> Legal(m, start, after))
  {
    hide PassAt, Legal, AcceptedWrites, Desired, Measurement, ResizeDue;
    var p := PassAt(m, before);
    if MayResize(p, base, containers) {
      assert Rule(p, Event.Resized(base, pod, at, true));
    }
  }

  lemma LostPatch(m: Manager, start: World, before: seq<Event>, after: seq<Event>, was: Status, status: Status)
    requires start.revisions != [] && Logged(m, start, before, after, Persisted(was, status, false))
    ensures AcceptedWrites(after) == AcceptedWrites(before) && PassAt(m, after).Idle?
    ensures Legal(m, start, before) && Rule(PassAt(m, before), Persisted(was, status, true)) ==> Legal(m, start, after)
  {
    hide PassAt, Legal, AcceptedWrites, Desired, Measurement;
  }

  /** The cache may show any revision, as its label filter sees it. */
  lemma CacheMayShow(w: World, k: nat)
    requires k < |w.revisions|
    ensures Accepts(w, PodRead(Visible(w.revisions[k])))
  {
  }

  lemma NoEnvironment(m: Manager, start: World, log: seq<Event>)
    requires start.revisions != []
    ensures OnlyEnvironment(m, start, log, log)
  {
  }
}
