/** internal/controller/shadowworkload_controller.go: the measure, clamp, resize loop. */
module Controller {
  import opened Wrappers
  import opened Api
  import opened Shadow
  import opened Backend
  import opened Protocol
  import opened ApiServer
  import opened Passes
  import DestinationPolicy
  import Metrics
  import Naming
  import Nodes
  import Reservation
  import Safety
  import Sources

  /** What `Reconcile` and its closures share during one pass. */
  class Locals {
    var sw: Workload
    var degraded: Option<Reason>
    var ready: Reason
    var observed: Option<Pod>

    constructor (sw: Workload)
      ensures this.sw == sw && degraded == None && ready == WithinThreshold && observed == None
    {
      this.sw := sw;
      degraded := None;
      ready := WithinThreshold;
      observed := None;
    }

    /** The first failure wins. */
    method SetDegraded(reason: Reason)
      modifies `degraded
      ensures degraded == if old(degraded).Some? then old(degraded) else Some(reason)
    {
      if degraded.None? {
        degraded := Some(reason);
      }
    }
  }

  /** What a pass that returns on the answer to its delete comes back with: a mismatch is retried at once. */
  predicate AfterDelete(res: CtrlResult, answer: DeleteOutcome, poll: nat) {
    res == if answer.UidMismatch? then CtrlResult(1, false)
           else if answer.DeleteFailed? then CtrlResult(0, true)
           else CtrlResult(poll, false)
  }

  /** Updates counted since the workload's last removal. */
  function CountedUpdates(history: seq<Metrics.Call>, namespace: string, name: string): nat {
    Metrics.Count(Metrics.Since(history, namespace, name), Metrics.Updated(namespace, name))
  }

  /** Between two histories only calls for one workload were made. */
  ghost predicate OnlyFor(before: seq<Metrics.Call>, after: seq<Metrics.Call>, namespace: string, name: string) {
    forall ns, n :: (ns, n) != (namespace, name) ==> Metrics.Since(after, ns, n) == Metrics.Since(before, ns, n)
  }

  lemma NothingCalled(history: seq<Metrics.Call>, namespace: string, name: string)
    ensures OnlyFor(history, history, namespace, name)
  {
  }

  lemma OwnCall(before: seq<Metrics.Call>, call: Metrics.Call)
    ensures OnlyFor(before, before + [call], call.namespace, call.name)
    ensures CountedUpdates(before + [call], call.namespace, call.name)
            == if call.Removed? then 0
               else CountedUpdates(before, call.namespace, call.name) + (if call.Updated? then 1 else 0)
  {
    forall ns, n
      ensures (ns, n) != (call.namespace, call.name)
              ==> Metrics.Since(before + [call], ns, n) == Metrics.Since(before, ns, n)
    {
      Metrics.AppendedCall(before, call, ns, n);
    }
    Metrics.AppendedCall(before, call, call.namespace, call.name);
    Metrics.AppendedCount(Metrics.Since(before, call.namespace, call.name), call,
                          Metrics.Updated(call.namespace, call.name));
  }

  /** Requests and limits of every container, together. */
  method ReshapeContainers(containers: seq<Container>, desired: Pair) returns (resized: seq<Container>)
    ensures resized == Reshape(containers, desired)
  {
    resized := containers;
    for i := 0 to |containers|
      invariant |resized| == |containers|
      invariant forall j :: 0 <= j < i ==> resized[j] == Container(ResourcesOf(desired), ResourcesOf(desired))
    {
      resized := resized[i := Container(ResourcesOf(desired), ResourcesOf(desired))];
    }
  }

  class Reconciler {
    const server: Server
    const metrics: Metrics.Recorder
    const namespace: string
    const name: string

    constructor (server: Server, metrics: Metrics.Recorder, namespace: string, name: string)
      ensures this.server == server && this.metrics == metrics && this.namespace == namespace && this.name == name
    {
      this.server := server;
      this.metrics := metrics;
      this.namespace := namespace;
      this.name := name;
    }

    ghost predicate Valid()
      reads this, server, metrics.Repr()
    {
      && server.Valid() && server.Lawful() && metrics.Valid()
      && server !in metrics.Repr()
    }

    /** The locals agree with the pass in progress. */
    ghost predicate InStep(l: Locals)
      reads server, l
    {
      Reflects(l.sw, l.degraded, l.ready, l.observed, server.Pass())
    }

    /** How far the updates counter is behind the accepted writes. */
    ghost function Owed(): int
      reads server, metrics.Repr()
    {
      AcceptedWrites(server.log) - CountedUpdates(metrics.history, namespace, name)
    }

    /** What every step of a pass keeps: the rules, the ledger's balance, other workloads' series. */
    twostate predicate Kept()
      reads this, server, metrics.Repr()
    {
      && Valid()
      && |server.script| <= |old(server.script)|
      && Owed() == old(Owed())
      && OnlyFor(old(metrics.history), metrics.history, namespace, name)
    }

    /** The pass ends with an error exactly when its last API call failed, and otherwise with a requeue. */
    ghost predicate Stopped(res: CtrlResult, poll: nat)
      reads server
    {
      Ends(res, poll) && (res.failed <==> server.failing)
    }

    /** Emits a warning only when the persisted Degraded reason is another one. */
    method WarnOnDegradedTransition(l: Locals, reason: Reason)
      requires Valid() && server.Pass().Busy? && l.sw.status.degraded == server.Pass().sw.status.degraded
      modifies server
      ensures Kept() && server.world == old(server.world) && server.script == old(server.script)
      ensures server.Pass()
              == old(server.Pass()).(warnings := old(server.Pass()).warnings
                                                   + Transition(old(server.Pass()).sw, reason))
    {
      hide Server.Valid, Metrics.Recorder.Valid, Legal, PassAt, AcceptedWrites, CountedUpdates;
      if AlreadyDegraded(l.sw.status, reason) {
        return;
      }
      server.Warn(reason);
    }

    /** Counts a failure under its bounded reason. */
    method CountFailure(reason: string)
      requires Valid() && reason in Metrics.KNOWN_REASONS
      modifies metrics.Repr()
      ensures Kept() && metrics.history == old(metrics.history) + [Metrics.Failed(namespace, name, reason)]
    {
      hide Server.Valid, Metrics.Recorder.Valid, Legal, PassAt, AcceptedWrites, CountedUpdates;
      hide Metrics.After, Metrics.KNOWN_REASONS;
      OwnCall(metrics.history, Metrics.Failed(namespace, name, reason));
      metrics.MeasurementFailed(namespace, name, reason);
    }

    /** Counts an accepted reservation mutation. */
    method CountUpdate()
      requires Valid()
      modifies metrics.Repr()
      ensures Valid() && metrics.history == old(metrics.history) + [Metrics.Updated(namespace, name)]
      ensures Owed() == old(Owed()) - 1 && OnlyFor(old(metrics.history), metrics.history, namespace, name)
    {
      hide Server.Valid, Metrics.Recorder.Valid, Legal, PassAt, AcceptedWrites, CountedUpdates, Metrics.After;
      OwnCall(metrics.history, Metrics.Updated(namespace, name));
      metrics.ReservationUpdated(namespace, name);
    }

    // ----- The gate ----------------------------------------------------------------------

    /** Stops the pass unless the target node is live and Ready. */
    method GateOnNode(l: Locals) returns (stop: Option<CtrlResult>, eligible: bool)
      requires Valid() && InStep(l) && AtGate(server.Pass()) && server.Pass().gate.Unchecked?
      modifies server, l
      ensures Kept()
      ensures stop.Some? ==> stop.value == FAILURE && server.failing && server.Pass().Idle?
      ensures stop.None? ==>
                && InStep(l) && AtGate(server.Pass()) && server.Pass().sw == old(server.Pass()).sw
                && (if eligible then server.Pass().gate.NodeLive? else server.Pass().gate.Blocked?)
      ensures old(server.script) == [] ==>
                && server.world == old(server.world) && stop.None?
                && (var why := Nodes.EligibilityOf(NodeOf(server.world, old(l.sw).spec.node));
                    && (eligible <==> why.Eligible?)
                    && (!eligible ==> server.Pass().gate == Blocked(NodeReason(why))))
    {
      hide Server.Valid, Metrics.Recorder.Valid, Legal, PassAt, AcceptedWrites, CountedUpdates, Nodes.ReadsReady;
      hide Reflects, Observe, Learn, Rule, Transition, AtGate, MayEnd, OnlyFor;
      NothingCalled(metrics.history, namespace, name);
      ghost var p, locals := server.Pass(), (l.sw, l.degraded, l.ready, l.observed);
      InStepMayEnd(l.sw, l.degraded, l.ready, l.observed, p);
      var read := server.GetNode(l.sw.spec.node);
      match read {
        case Unavailable =>
          server.Return();
          return Some(FAILURE), false;
        case NotFound =>
          NodeVerdict(server.manager, locals, p, None);
          eligible := false;
          l.SetDegraded(NodeMissing);
          WarnOnDegradedTransition(l, NodeMissing);
        case Present(node) =>
          NodeVerdict(server.manager, locals, p, Some(node));
          var ok, why := Nodes.NodeEligible(Some(node));
          eligible := ok;
          if !ok {
            l.SetDegraded(NodeReason(why));
            WarnOnDegradedTransition(l, NodeReason(why));
          }
      }
      stop := None;
    }

    /** Stops the pass unless the ballast PriorityClass is installed. */
    method GateOnPriorityClass(l: Locals) returns (stop: Option<CtrlResult>, ready: bool)
      requires Valid() && InStep(l) && AtGate(server.Pass()) && server.Pass().gate.NodeLive?
      modifies server, l
      ensures Kept()
      ensures stop.Some? ==> stop.value == FAILURE && server.failing && server.Pass().Idle?
      ensures stop.None? ==>
                && server.Pass().Busy? && server.Pass().sw == old(server.Pass()).sw
                && (if ready then ReadyToMeasure(l)
                    else InStep(l) && AtGate(server.Pass()) && server.Pass().gate == Blocked(PriorityClassMissing))
      ensures old(server.script) == [] ==>
                && server.world == old(server.world) && stop.None?
                && (ready <==> server.world.priorityClass)
    {
      hide Server.Valid, Metrics.Recorder.Valid, Legal, PassAt, AcceptedWrites, CountedUpdates;
      hide Reflects, AtGate, Observe, Learn, Rule, Transition, Measurable;
      InStepMayEnd(l.sw, l.degraded, l.ready, l.observed, server.Pass());
      PriorityVerdict(server.manager, (l.sw, l.degraded, l.ready, l.observed), server.Pass());
      var read := server.GetPriorityClass();
      match read {
        case Unavailable =>
          server.Return();
          return Some(FAILURE), false;
        case NotFound =>
          ready := false;
          l.SetDegraded(PriorityClassMissing);
          WarnOnDegradedTransition(l, PriorityClassMissing);
        case Present(_) => ready := true;
      }
      stop := None;
    }

    // ----- The measurement -----------------------------------------------------------------

    /** The gate is open and nothing has been measured; only an unmeasurable source is already decided. */
    ghost predicate ReadyToMeasure(l: Locals)
      reads this, server, l
    {
      var p := server.Pass();
      && p.Busy? && p.gate.Open? && AtGate(p.(outcome := Pending))
      && p.outcome == (if Measurable(server.manager, p.sw.spec) then Pending else Failing(SourceInvalid, false))
      && Reflects(l.sw, l.degraded, l.ready, l.observed, p.(outcome := Pending))
    }

    /** The source does not compile, or names a backend the policy refuses. */
    method RejectSource(l: Locals)
      requires Valid() && ReadyToMeasure(l) && !Measurable(server.manager, l.sw.spec)
      modifies l, metrics.Repr()
      ensures Kept() && InStep(l) && BeforePhantom(server.Pass()) && !server.Pass().outcome.Taken?
      ensures metrics.history == old(metrics.history) + MeasurementCalls(namespace, name, server.Pass())
    {
      hide Server.Valid, Metrics.Recorder.Valid, Legal, PassAt, AcceptedWrites, CountedUpdates, Measurable;
      CountFailure("source_missing");
      l.SetDegraded(SourceInvalid);
    }

    /** Records a backend answer that was refused. */
    method RejectAnswer(l: Locals, e: QueryError)
      requires Valid() && server.Pass().Busy? && server.Pass().gate.Open?
      requires AtGate(server.Pass().(outcome := Pending, replies := None))
      requires server.Pass().outcome == Failing(QueryReason(e), true)
      requires MeasurementCalls(namespace, name, server.Pass()) == [Metrics.Failed(namespace, name, FailureReason(e))]
      requires Reflects(l.sw, l.degraded, l.ready, l.observed, server.Pass().(outcome := Pending, replies := None))
      modifies server, l, metrics.Repr()
      ensures Kept() && InStep(l) && BeforePhantom(server.Pass())
      ensures server.Pass() == old(server.Pass()).(warnings := server.Pass().warnings)
      ensures server.world == old(server.world)
      ensures metrics.history == old(metrics.history) + MeasurementCalls(namespace, name, server.Pass())
    {
      hide Server.Valid, Metrics.Recorder.Valid, Legal, PassAt, AcceptedWrites, CountedUpdates;
      hide Observe, Learn, Rule, FailureReason, QueryReason, Reflects, AtGate, BeforePhantom, MeasurementCalls;
      MeasurementCallsIgnoreWarnings(namespace, name, server.Pass());
      AnswerVerdict((l.sw, l.degraded, l.ready, l.observed), server.Pass(), QueryReason(e));
      CountFailure(FailureReason(e));
      l.SetDegraded(QueryReason(e));
      server.Warn(QueryReason(e));
    }

    /** Sets the gauges of an accepted measurement and stamps its success. */
    method CountSuccess(taken: Reading, now: Metrics.Time)
      requires Valid()
      modifies metrics.Repr()
      ensures Kept()
      ensures metrics.history == old(metrics.history) + [Metrics.Observed(namespace, name, taken.cpu, taken.memory)]
                                                      + SuccessCalls(namespace, name, now)
    {
      hide Server.Valid, Metrics.Recorder.Valid, Legal, PassAt, AcceptedWrites, CountedUpdates, Metrics.After;
      OwnCall(metrics.history, Metrics.Observed(namespace, name, taken.cpu, taken.memory));
      metrics.ObservedMeasurement(namespace, name, taken.cpu, taken.memory);
      OwnCall(metrics.history, Metrics.Succeeded(namespace, name, now));
      metrics.MeasurementSucceeded(namespace, name, now);
    }

    /** Records a measurement: the gauges, and the two status fields that advance together. */
    method RecordMeasurement(l: Locals, taken: Reading, description: Description, now: Metrics.Time)
      requires Valid() && server.Pass().Busy? && server.Pass().gate.Open? && server.Pass().measuredAt == now
      requires AtGate(server.Pass().(outcome := Pending, replies := None))
      requires server.Pass().outcome == Taken(taken) && description == Sources.Describe(l.sw.spec)
      requires Reflects(l.sw, l.degraded, l.ready, l.observed, server.Pass().(outcome := Pending, replies := None))
      modifies l, metrics.Repr()
      ensures Kept() && InStep(l) && BeforePhantom(server.Pass())
      ensures metrics.history == old(metrics.history) + MeasurementCalls(namespace, name, server.Pass())
    {
      hide Server.Valid, Metrics.Recorder.Valid, Legal, PassAt, AcceptedWrites, CountedUpdates, SuccessCalls;
      hide Sources.Describe, MeasurementPairOf;
      CountSuccess(taken, now);
      var snapshot := Snapshot(l.sw.generation, Metrics.Seconds(now), MeasurementPairOf(taken.cpu, taken.memory),
                               taken.found);
      l.sw := l.sw.(status := l.sw.status.(lastMeasurement := Some(snapshot), resolvedSource := Some(description)));
    }

    /** Resolves and queries the source; problems are soft and leave the measurement at zero. */
    method Measure(l: Locals) returns (reading: Reading)
      requires Valid() && ReadyToMeasure(l)
      modifies server, l, metrics.Repr()
      ensures Kept() && InStep(l) && BeforePhantom(server.Pass()) && server.Pass().sw == old(server.Pass()).sw
      ensures metrics.history == old(metrics.history) + MeasurementCalls(namespace, name, server.Pass())
      ensures reading
              == if server.Pass().outcome.Taken? then server.Pass().outcome.reading else Reading(0.0, 0.0, false)
      ensures old(server.script) == [] ==>
                && server.world == old(server.world)
                && (Measurable(server.manager, server.Pass().sw.spec)
                    ==> server.Pass().outcome == Judge(server.Pass().sw.spec, server.world.replies))
    {
      hide Server.Valid, Metrics.Recorder.Valid, Legal, PassAt, AcceptedWrites, CountedUpdates;
      hide Sources.Resolve, DestinationPolicy.Validate, QueryPair, Sources.Describe, MeasurementPairOf, Recorded;
      hide Observe, Learn, Rule, DueWarnings, Trouble;
      reading := Reading(0.0, 0.0, false);
      var queries := Sources.Resolve(l.sw.spec);
      if queries.Err? {
        RejectSource(l);
        return;
      }
      var description := Sources.Describe(l.sw.spec);
      if !DestinationPolicy.Validate(server.manager.policy, l.sw.spec.metrics.prometheusURL, server.manager.ip) {
        RejectSource(l);
        return;
      }
      ghost var before := server.Pass();
      var replies, now := server.AskBackend();
      AskVerdict(server.manager, (l.sw, l.degraded, l.ready, l.observed), before, replies, now);
      match QueryPair(queries.value, replies) {
        case Err(e) => RejectAnswer(l, e);
        case Ok(taken) =>
          RecordMeasurement(l, taken, description, now);
          reading := taken;
      }
    }

    // ----- The phantom ---------------------------------------------------------------------

    /** Deletes an owned pod that lost its label, so that a later pass can create the canonical one. */
    method DropNoncanonical(pod: Pod, poll: nat) returns (res: CtrlResult, ghost answer: DeleteOutcome)
      requires Valid() && poll > 0 && server.Pass().Busy? && server.Pass().collided
      requires server.Pass().live == Found(pod) && Owned(pod, server.Pass().sw) && MayEnd(server.Pass())
      modifies server
      ensures Kept() && Stopped(res, poll) && server.Pass().Idle?
      ensures server.Answers(answer, pod.uid) && AfterDelete(res, answer, poll)
      ensures old(server.script) == [] && Live(old(server.world)) == Some(pod)
              ==> res == CtrlResult(poll, false) && OnlyDeleted(old(server.world), server.world)
    {
      hide Server.Valid, Metrics.Recorder.Valid, Legal, PassAt, AcceptedWrites, CountedUpdates, Owned, Learn;
      DropVerdict(server.manager, server.Pass(), pod.uid);
      var outcome := server.DeletePod(pod.uid);
      answer := outcome;
      match outcome {
        case UidMismatch => res := CtrlResult(NANOSECOND, false);
        case DeleteFailed => res := FAILURE;
        case Removed => res := CtrlResult(poll, false);
        case WasGone => res := CtrlResult(poll, false);
      }
      server.Return();
    }

    /**
     * Decides about a pod that a create met and the cache does not show.  There are only two outcomes: the pod is
     * foreign and the pass goes on, or the pass ends with an error or a requeue.
     */
    method ResolveCreateConflict(l: Locals, poll: nat) returns (conflict: bool, res: CtrlResult)
      requires Valid() && poll > 0 && server.Pass().Busy? && server.Pass().collided && server.Pass().live.Unread?
      requires l.sw.name == server.Pass().sw.name && l.sw.uid == server.Pass().sw.uid && MayEnd(server.Pass())
      modifies server
      ensures Kept()
      ensures conflict ==>
                && res == CtrlResult(0, false) && server.Pass().Busy? && server.Pass().live.Found?
                && server.Pass() == old(server.Pass()).(live := server.Pass().live)
                && Conflicted(server.Pass())
      ensures !conflict ==> Stopped(res, poll) && server.Pass().Idle?
      ensures old(server.script) == [] && Ours(old(server.world), old(server.Pass()))
              ==> !conflict && res == CtrlResult(poll, false) && OnlyDeleted(old(server.world), server.world)
    {
      hide Server.Valid, Metrics.Recorder.Valid, Legal, PassAt, AcceptedWrites, CountedUpdates;
      hide Recorded, DueWarnings, Trouble;
      hide Desired, Judge, StatusOf, Settled, ResizeDue, HoldsExactly, BuildPhantomPod, Nodes.EligibilityOf, Measurable;
      CollisionVerdict(server.Pass());
      var read := server.GetPodUncached();
      match read {
        case Unavailable =>
          conflict, res := false, FAILURE;
        case NotFound =>
          conflict, res := false, CtrlResult(poll, false);
        case Present(pod) =>
          if !Owned(pod, l.sw) {
            return true, CtrlResult(0, false);
          }
          ghost var answer;
          res, answer := DropNoncanonical(pod, poll);
          return false, res;
      }
      server.Return();
    }

    /** Reports a foreign pod at the phantom's name and leaves it alone. */
    method ReportConflict(l: Locals, ghost before: Protocol.Pass)
      requires Valid() && before.Busy? && before.gate.Open? && !before.refused && before.held.None?
      requires Reflects(l.sw, l.degraded, l.ready, None, before) && !Conflicted(before) && !Misplaced(before)
      requires server.Pass().Busy? && Conflicted(server.Pass())
      requires server.Pass() == before.(cached := server.Pass().cached, collided := server.Pass().collided,
                                        live := server.Pass().live)
      modifies server, l`degraded
      ensures Kept() && server.world == old(server.world)
      ensures Reflects(l.sw, l.degraded, l.ready, None, server.Pass())
      ensures server.Pass() == old(server.Pass()).(warnings := server.Pass().warnings)
    {
      hide Server.Valid, Metrics.Recorder.Valid, Legal, PassAt, AcceptedWrites, CountedUpdates, Recorded, Owned;
      l.SetDegraded(PhantomConflict);
      WarnOnDegradedTransition(l, PhantomConflict);
    }

    /** The create collided: refuse a foreign pod, drop an owned one that lost its label. */
    method Recover(l: Locals, poll: nat, ghost before: Protocol.Pass) returns (res: CtrlResult)
      requires Valid() && poll > 0 && Reflects(l.sw, l.degraded, l.ready, l.observed, before)
      requires BeforePhantom(before.(cached := Unread)) && before.cached.Absent?
      requires server.Pass() == before.(collided := true)
      modifies server, l`degraded
      ensures Kept()
      ensures Stops(res) ==> Stopped(res, poll) && server.Pass().Idle?
      ensures !Stops(res) ==>
                && SamePass(before, server.Pass()) && Settled(server.Pass()) && !Misplaced(server.Pass())
                && Reflects(l.sw, l.degraded, l.ready, None, server.Pass())
                && WriteCalls(namespace, name, server.Pass()) == []
      ensures old(server.script) == [] && Ours(old(server.world), before)
              ==> res == CtrlResult(poll, false) && OnlyDeleted(old(server.world), server.world)
    {
      hide Server.Valid, Metrics.Recorder.Valid, Legal, PassAt, AcceptedWrites, CountedUpdates, Recorded;
      hide Desired, DriftExceeds, DueWarnings, Owned;
      InStepMayEnd(l.sw, l.degraded, l.ready, l.observed, before);
      CollisionVerdict(before);
      var conflict;
      conflict, res := ResolveCreateConflict(l, poll);
      if conflict {
        ReportConflict(l, before);
      }
    }

    /** Records an accepted create. */
    method RecordCreate(l: Locals, pod: Pod, ghost before: Protocol.Pass)
      requires Valid() && before.Busy? && Reflects(l.sw, l.degraded, l.ready, l.observed, before)
      requires server.Pass() == before.(held := Some(pod), ready := PhantomCreated)
      requires Trouble(server.Pass()) == Trouble(before) && DueWarnings(server.Pass()) == DueWarnings(before)
      modifies l`ready, metrics.Repr()
      ensures Valid() && Owed() == old(Owed()) - 1 && Reflects(l.sw, l.degraded, l.ready, Some(pod), server.Pass())
      ensures metrics.history == old(metrics.history) + [Metrics.Updated(namespace, name)]
      ensures OnlyFor(old(metrics.history), metrics.history, namespace, name)
    {
      hide Server.Valid, Metrics.Recorder.Valid, Legal, PassAt, AcceptedWrites, CountedUpdates, Recorded;
      hide Trouble, DueWarnings;
      CountUpdate();
      l.ready := PhantomCreated;
    }

    /** Creates the phantom the cache does not show, or sorts out what is in its place. */
    method CreateOrRecoverPhantom(l: Locals, desired: Pair, poll: nat) returns (made: Option<Pod>, res: CtrlResult)
      requires Valid() && InStep(l) && poll > 0 && AwaitsPhantom(server.Pass(), desired)
      modifies server, l, metrics.Repr()
      ensures Kept()
      ensures Stops(res) ==> Stopped(res, poll) && server.Pass().Idle?
      ensures !Stops(res) ==>
                && SamePass(old(server.Pass()), server.Pass()) && Settled(server.Pass()) && !Misplaced(server.Pass())
                && Reflects(l.sw, l.degraded, l.ready, made, server.Pass())
                && metrics.history == old(metrics.history) + WriteCalls(namespace, name, server.Pass())
      ensures old(server.script) == [] && Vacant(old(server.world))
              ==> !Stops(res) && CalmlyStepped(old(server.world), old(server.Pass()), server.world)
                  && (old(server.Pass()).outcome.Taken? ==> Tracking(server.world, server.Pass()))
      ensures old(server.script) == [] && Ours(old(server.world), old(server.Pass()))
              ==> res == CtrlResult(poll, false) && OnlyDeleted(old(server.world), server.world)
    {
      hide Server.Valid, Metrics.Recorder.Valid, Legal, PassAt, AcceptedWrites, CountedUpdates, Recorded;
      hide Desired, DriftExceeds, Owned, Settled, Trouble, DueWarnings, Misplaced, Observe, Learn, Rule, Reflects;
      ghost var before := server.Pass();
      OnlyStatusDiffers(l.sw, l.degraded, l.ready, l.observed, before);
      InStepMayEnd(l.sw, l.degraded, l.ready, l.observed, before);
      var pod := BuildPhantomPod(l.sw, desired);
      CreateVerdict(server.manager, before, desired, pod);
      var outcome := server.CreatePod(pod);
      match outcome {
        case CreateFailed =>
          server.Return();
          return None, FAILURE;
        case AlreadyExists =>
          res := Recover(l, poll, before);
          made := None;
        case CreatedAs(accepted) =>
          CreateVerdict(server.manager, before, desired, accepted);
          RecordCreate(l, accepted, before);
          made := Some(accepted);
          res := CtrlResult(0, false);
      }
    }

    /**
     * Patches requests and limits of every container together.  The locals' view of the pod follows only an accepted
     * patch; on a rejection it is untouched.
     */
    method ResizePhantom(l: Locals, desired: Pair) returns (ok: bool, now: Metrics.Time)
      requires Valid() && ResizeDue(server.Pass()) && !server.Pass().refused
      requires l.observed == server.Pass().held && server.Pass().cached == ToLookup(l.observed)
      requires l.observed.Some? && l.observed.value.containers != []
      requires desired == Desired(server.Pass().sw, server.Pass().outcome)
      modifies server, l`observed
      ensures Valid() && |server.script| <= |old(server.script)|
      ensures AcceptedWrites(server.log) == AcceptedWrites(old(server.log)) + (if ok then 1 else 0)
      ensures ok ==> l.observed.Some? && CurrentPairOf(l.observed.value) == desired
                     && server.Pass()
                        == old(server.Pass()).(held := l.observed, resizedAt := Some(now), ready := Reason.Resized)
      ensures !ok ==> l.observed == old(l.observed) && server.Pass() == old(server.Pass()).(refused := true)
      ensures old(server.script) == [] && Live(old(server.world)) == old(l.observed)
              ==> ok && OnlyResized(old(server.world), old(l.observed).value, desired, server.world)
                  && IsLive(server.world, l.observed)
    {
      hide Server.Valid, Metrics.Recorder.Valid, Legal, PassAt, AcceptedWrites, Desired, DriftExceeds, Settled;
      hide StatusOf;
      hide Owned, Misplaced, Conflicted, Observe, Learn, Rule, HoldsExactly, CurrentPairOf;
      ghost var before := server.Pass();
      var base := l.observed.value;
      var containers := ReshapeContainers(base.containers, desired);
      ReshapedHoldsExactly(base, desired);
      ResizeVerdict(server.manager, before, base, base.(containers := containers), 0);
      var outcome := server.ResizePod(base, containers);
      match outcome {
        case ResizeFailed => ok, now := false, 0;
        case ResizedTo(pod, at) =>
          ReshapedHoldsExactly(pod.(containers := base.containers), desired);
          ResizeVerdict(server.manager, before, base, pod, at);
          l.observed := Some(pod);
          ok, now := true, at;
      }
    }

    /** Records a rejected resize. */
    method RejectResize(l: Locals, ghost before: Protocol.Pass)
      requires Valid() && Reflects(l.sw, l.degraded, l.ready, l.observed, before) && Trouble(before).None?
      requires server.Pass() == before.(refused := true)
      modifies server, l`degraded, metrics.Repr()
      ensures Kept() && InStep(l) && (old(Settled(server.Pass())) ==> Settled(server.Pass()))
      ensures metrics.history == old(metrics.history) + WriteCalls(namespace, name, server.Pass())
      ensures server.Pass() == old(server.Pass()).(warnings := server.Pass().warnings)
    {
      hide Server.Valid, Metrics.Recorder.Valid, Legal, PassAt, AcceptedWrites, CountedUpdates, Recorded, Owned;
      hide Observe, Learn, Rule;
      CountFailure("resize_rejected");
      l.SetDegraded(ResizeRejected);
      server.Warn(ResizeRejected);
    }

    /** Records an accepted resize. */
    method RecordResize(l: Locals, desired: Pair, now: Metrics.Time, ghost before: Protocol.Pass)
      requires Valid() && HoldsVisible(before) && Reflects(l.sw, l.degraded, l.ready, before.held, before)
      requires before.outcome.Taken? && Admitted(before.sw.spec)
      requires l.observed.Some? && CurrentPairOf(l.observed.value) == desired == Desired(before.sw, before.outcome)
      requires server.Pass() == before.(held := l.observed, resizedAt := Some(now), ready := Reason.Resized)
      modifies l, metrics.Repr()
      ensures Valid() && Owed() == old(Owed()) - 1 && InStep(l) && Settled(server.Pass()) && Untroubled(server.Pass())
      ensures metrics.history == old(metrics.history) + WriteCalls(namespace, name, server.Pass())
      ensures OnlyFor(old(metrics.history), metrics.history, namespace, name)
    {
      hide Server.Valid, Metrics.Recorder.Valid, Legal, PassAt, AcceptedWrites, CountedUpdates;
      hide MeasurementPairOf, Sources.Describe;
      hide Desired, DriftExceeds, Owned, CurrentPairOf, ResizeDue, Trouble, DueWarnings, Settled;
      ResizeSettles(before, l.observed.value, now);
      l.sw := l.sw.(status := l.sw.status.(lastResize := Some(Metrics.Seconds(now)), current := desired));
      CountUpdate();
      l.ready := Reason.Resized;
    }

    /** Resizes when a fresh measurement drifts too far; a rejection keeps the last accepted requests. */
    method ResizeIfDrifting(l: Locals, desired: Pair)
      requires Valid() && InStep(l) && HoldsVisible(server.Pass()) && server.Pass().ready == WithinThreshold
      requires l.observed.Some? && l.observed.value.containers != [] && Admitted(server.Pass().sw.spec)
      requires desired == Desired(server.Pass().sw, server.Pass().outcome)
      modifies server, l, metrics.Repr()
      ensures Kept() && InStep(l) && Settled(server.Pass())
      ensures SamePass(old(server.Pass()), server.Pass()) && server.Pass().cached == old(server.Pass()).cached
      ensures metrics.history == old(metrics.history) + WriteCalls(namespace, name, server.Pass())
      ensures old(server.script) == [] && ShowsOurs(old(server.world), old(server.Pass()), old(l.observed).value)
              ==> && Tracking(server.world, server.Pass())
                  && CalmlyStepped(old(server.world), old(server.Pass()), server.world)
      ensures Reservation.CloseTo(CurrentPairOf(old(l.observed).value), desired, old(l.sw).spec.update.threshold)
              || old(l.degraded).Some?
              ==> server.Pass() == old(server.Pass()) && server.world == old(server.world)
      ensures old(l.degraded).None?
              && !Reservation.CloseTo(CurrentPairOf(old(l.observed).value), desired, old(l.sw).spec.update.threshold)
              ==> server.Pass().Busy? && (server.Pass().refused || server.Pass().resizedAt.Some?)
    {
      hide Server.Valid, Metrics.Recorder.Valid, Legal, PassAt, AcceptedWrites, CountedUpdates, Recorded;
      hide Desired, DriftExceeds, Owned, Reshape, CurrentPairOf, ResizeDue, Trouble, DueWarnings, Settled, Measurement;
      hide Reservation.CloseTo;
      hide Misplaced, CalmlyStepped, CalmStep, OnlyResized;
      VisibleVerdict(server.Pass());
      ghost var before := server.Pass();
      var current := CurrentPairOf(l.observed.value);
      Reservation.DriftBand(current, desired, l.sw.spec.update.threshold);
      if l.degraded.None? && DriftExceeds(current, desired, l.sw.spec.update.threshold) {
        var ok, now := ResizePhantom(l, desired);
        if !ok {
          RejectResize(l, before);
          return;
        }
        if old(server.script) == [] && ShowsOurs(old(server.world), before, old(l.observed).value) {
          ResizeIsCalm(old(server.world), before, old(l.observed).value, desired, server.world);
        }
        RecordResize(l, desired, now, before);
        return;
      }
      if l.degraded.None? {
        if ShowsOurs(server.world, before, l.observed.value) {
          ResizeIsCalm(server.world, before, l.observed.value, desired, server.world);
        }
        l.ready := WithinThreshold;
      }
    }

    /** Deletes an owned pod pinned to another node; the next pass recreates it. */
    method DeleteStale(l: Locals, pod: Pod, ghost before: Protocol.Pass)
      returns (stop: Option<CtrlResult>, ghost answer: DeleteOutcome)
      requires Valid() && BeforePhantom(before) && Reflects(l.sw, l.degraded, l.ready, l.observed, before)
      requires server.Pass() == before.(cached := Found(pod))
      requires Owned(pod, before.sw) && pod.node != before.sw.spec.node
      modifies server, l`degraded
      ensures Kept()
      ensures stop.Some? ==> Stopped(stop.value, NANOSECOND) && server.Pass().Idle?
      ensures stop.None? ==> InStep(l) && Settled(server.Pass()) && server.Pass() == old(server.Pass())
      ensures server.Answers(answer, pod.uid) && (stop.Some? <==> answer.UidMismatch? || answer.DeleteFailed?)
      ensures stop.Some? ==> AfterDelete(stop.value, answer, 0)
      ensures old(server.script) == [] && Live(old(server.world)) == Some(pod)
              ==> stop.None? && OnlyDeleted(old(server.world), server.world)
    {
      hide Server.Valid, Metrics.Recorder.Valid, Legal, PassAt, AcceptedWrites, CountedUpdates;
      hide Reflects, Settled, Rule, Owned, Observe, Learn;
      StaleVerdict(server.manager, (l.sw, l.degraded, l.ready, l.observed), before, pod);
      var outcome := server.DeletePod(pod.uid);
      answer := outcome;
      if outcome.UidMismatch? || outcome.DeleteFailed? {
        server.Return();
        return Some(if outcome.UidMismatch? then CtrlResult(NANOSECOND, false) else FAILURE), outcome;
      }
      l.SetDegraded(PhantomRecreating);
      stop := None;
    }

    lemma PassIsAdmitted()
      requires Valid()
      ensures server.Pass().Busy? ==>
                && Admitted(server.Pass().sw.spec)
                && (server.Pass().held.Some? ==> server.Pass().held.value.containers != [])
    {
      Safety.PassInProgress(server.manager, server.start, server.log);
    }

    /** Deals with a pod the cache shows: refuses a foreign one, drops a misplaced one, resizes a drifting one. */
    method ManageVisible(l: Locals, pod: Pod, desired: Pair, ghost before: Protocol.Pass)
      returns (stop: Option<CtrlResult>, immediately: bool)
      requires Valid() && BeforePhantom(before) && Reflects(l.sw, l.degraded, l.ready, l.observed, before)
      requires server.Pass() == Seeing(before, pod) && desired == Desired(before.sw, before.outcome)
      modifies server, l, metrics.Repr()
      ensures Kept()
      ensures stop.Some? ==> Stopped(stop.value, NANOSECOND) && server.Pass().Idle?
      ensures stop.None? ==>
                && InStep(l) && SamePass(before, server.Pass()) && Settled(server.Pass())
                && metrics.history == old(metrics.history) + WriteCalls(namespace, name, server.Pass())
                && (immediately <==> Misplaced(server.Pass()))
      ensures old(server.script) == [] && ShowsOurs(old(server.world), before, pod)
              ==> && stop.None? && CalmlyStepped(old(server.world), before, server.world)
                  && (immediately <==> pod.node != before.sw.spec.node)
                  && (!immediately && before.outcome.Taken? ==> Tracking(server.world, server.Pass()))
    {
      hide Server.Valid, Metrics.Recorder.Valid, Legal, PassAt, AcceptedWrites, CountedUpdates, Recorded;
      hide Desired, DriftExceeds, Reshape, CurrentPairOf, Observe, Rule;
      hide Judge, Measurable, StatusOf;
      PassIsAdmitted();
      stop, immediately := None, false;
      if !Owned(pod, l.sw) {
        ReportConflict(l, before);
      } else if pod.node != l.sw.spec.node {
        ghost var answer;
        stop, answer := DeleteStale(l, pod, before);
        immediately := true;
      } else {
        l.observed := Some(pod);
        ResizeIfDrifting(l, desired);
      }
    }

    /** Deals with a phantom the cache does not show: creates it, or drops the unlabelled pod in its place. */
    method ManageMissing(l: Locals, desired: Pair, poll: nat, ghost before: Protocol.Pass)
      returns (stop: Option<CtrlResult>)
      requires Valid() && InStep(l) && poll > 0 && before.Busy? && server.Pass() == before.(cached := Absent)
      requires AwaitsPhantom(server.Pass(), desired)
      modifies server, l, metrics.Repr()
      ensures Kept()
      ensures stop.Some? ==> Stopped(stop.value, poll) && server.Pass().Idle?
      ensures stop.None? ==>
                && InStep(l) && SamePass(before, server.Pass()) && Settled(server.Pass())
                && metrics.history == old(metrics.history) + WriteCalls(namespace, name, server.Pass())
      ensures old(server.script) == [] && Vacant(old(server.world))
              ==> && stop.None? && CalmlyStepped(old(server.world), before, server.world)
                  && (before.outcome.Taken? ==> Tracking(server.world, server.Pass()))
      ensures old(server.script) == [] && Ours(old(server.world), before) && Visible(Live(old(server.world))).None?
              ==> stop == Some(CtrlResult(poll, false)) && CalmlyStepped(old(server.world), before, server.world)
    {
      hide Server.Valid, Metrics.Recorder.Valid, Legal, PassAt, AcceptedWrites, CountedUpdates, Recorded;
      hide Desired, DriftExceeds, Settled, Trouble, DueWarnings, Misplaced, Observe, Learn, Rule, CalmStep, Reflects;
      hide BeforePhantom, AwaitsPhantom, WriteCalls;
      var made, res := CreateOrRecoverPhantom(l, desired, poll);
      if Stops(res) {
        if old(server.script) == [] && Ours(old(server.world), before) && Visible(Live(old(server.world))).None? {
          DropIsCalm(old(server.world), before, server.world);
        }
        return Some(res);
      }
      l.observed := made;
      stop := None;
    }

    /**
     * Ensures the phantom exists where the declaration wants it.  `immediately` asks for the next pass at once.
     */
    method EnsurePhantom(l: Locals, desired: Pair, poll: nat) returns (stop: Option<CtrlResult>, immediately: bool)
      requires Valid() && InStep(l) && poll > 0 && BeforePhantom(server.Pass())
      requires AwaitsPhantom(server.Pass().(cached := Absent), desired)
      modifies server, l, metrics.Repr()
      ensures Kept()
      ensures stop.Some? ==> Stopped(stop.value, poll) && server.Pass().Idle?
      ensures stop.None? ==>
                && InStep(l) && SamePass(old(server.Pass()), server.Pass()) && Settled(server.Pass())
                && metrics.history == old(metrics.history) + WriteCalls(namespace, name, server.Pass())
      ensures old(server.script) == [] && CalmPass(old(server.world), old(server.Pass()))
              ==> && CalmlyStepped(old(server.world), old(server.Pass()), server.world)
                  && Requeue(stop, immediately, poll) == CalmResult(old(server.world), old(server.Pass()), poll)
                  && (AtHome(old(server.world), old(server.Pass()))
                      ==> stop.None? && Tracking(server.world, server.Pass()))
    {
      hide Server.Valid, Metrics.Recorder.Valid, Legal, PassAt, AcceptedWrites, CountedUpdates, Recorded;
      hide Desired, DriftExceeds, Settled, Trouble, DueWarnings, Misplaced, Observe, Learn, Rule, CalmStep;
      CacheVerdict(server.manager, (l.sw, l.degraded, l.ready, l.observed), server.Pass());
      hide Reflects, BeforePhantom, AwaitsPhantom, WriteCalls, SamePass;
      ghost var before := server.Pass();
      stop, immediately := None, false;
      var read := server.GetPod();
      match read {
        case Unavailable =>
          server.Return();
          stop := Some(FAILURE);
        case NotFound =>
          stop := ManageMissing(l, desired, poll, before);
        case Present(pod) =>
          stop, immediately := ManageVisible(l, pod, desired, before);
      }
    }

    // ----- The pass --------------------------------------------------------------------------

    /** Measures, and brings the phantom towards the measurement. */
    method Manage(l: Locals, poll: nat) returns (stop: Option<CtrlResult>, immediately: bool)
      requires Valid() && ReadyToMeasure(l) && poll > 0
      modifies server, l, metrics.Repr()
      ensures Kept()
      ensures stop.Some? ==> Stopped(stop.value, poll) && server.Pass().Idle?
      ensures stop.None? ==>
                && InStep(l) && Settled(server.Pass()) && server.Pass().sw == old(server.Pass()).sw
                && metrics.history == old(metrics.history) + MeasurementCalls(namespace, name, server.Pass())
                                                           + WriteCalls(namespace, name, server.Pass())
      ensures old(server.script) == [] && ManagesCalmly(server.manager, old(server.world), old(server.Pass()))
              ==> && StepsTowardsGoal(old(server.world), old(server.Pass()), server.world)
                  && Requeue(stop, immediately, poll) == CalmResult(old(server.world), old(server.Pass()), poll)
                  && (AtHome(old(server.world), old(server.Pass()))
                      ==> stop.None? && Tracking(server.world, server.Pass()))
    {
      hide Server.Valid, Metrics.Recorder.Valid, Legal, PassAt, AcceptedWrites, CountedUpdates, Recorded;
      hide Measurable, Judge, CalmStep, Trouble, DueWarnings, PairOf, Clamp, InPlace, Owned, Settled;
      var reading := Measure(l);
      var desired := Clamp(PairOf(reading.cpu, reading.memory), l.sw.spec.update.floor, l.sw.spec.update.ceiling);
      stop, immediately := EnsurePhantom(l, desired, poll);
    }

    /** Refreshes the currents and the gauges from the phantom this pass saw, if it saw one. */
    method Refresh(l: Locals)
      requires Valid() && InStep(l)
      modifies l`sw, metrics.Repr()
      ensures Kept() && l.sw == server.Pass().sw.(status := Refreshed(server.Pass()))
      ensures metrics.history == old(metrics.history) + GaugeCalls(namespace, name, server.Pass())
    {
      hide Server.Valid, Metrics.Recorder.Valid, Legal, PassAt, AcceptedWrites, CountedUpdates;
      hide Trouble, DueWarnings, CurrentPairOf, Metrics.After, Naming.PhantomName;
      if l.observed.Some? {
        var effective := CurrentPairOf(l.observed.value);
        l.sw := l.sw.(status := l.sw.status.(phantomPod := Naming.PhantomName(l.sw.name), current := effective));
        var cpu, memory := effective.cpu as real / NANO as real, effective.memory as real / NANO as real;
        OwnCall(metrics.history, Metrics.Reserved(namespace, name, cpu, memory));
        metrics.SetReserved(namespace, name, cpu, memory);
      }
    }

    /** Sets both conditions. */
    method SetConditions(l: Locals)
      requires server.Pass().Busy? && l.sw == server.Pass().sw.(status := Refreshed(server.Pass()))
      requires l.degraded == Trouble(server.Pass()) && l.ready == server.Pass().ready
      modifies l`sw
      ensures l.sw.status == StatusOf(server.Pass())
    {
      hide Trouble, Refreshed, PassAt;
      var g := l.sw.generation;
      if l.degraded.Some? {
        l.sw := l.sw.(status := l.sw.status.(ready := Some(Condition(false, l.degraded.value, g)),
                                             degraded := Some(Condition(true, l.degraded.value, g))));
      } else {
        l.sw := l.sw.(status := l.sw.status.(ready := Some(Condition(true, l.ready, g)),
                                             degraded := Some(Condition(false, AsExpected, g))));
      }
    }

    /** The last thing that happened is a status patch whose response arrived. */
    ghost predicate StatusAccepted()
      reads server
    {
      server.log != [] && server.log[|server.log| - 1].Persisted? && server.log[|server.log| - 1].heard
    }

    /** Writes what the pass changed of the status it read. */
    method Persist(l: Locals, statusBase: Status) returns (ok: bool)
      requires Valid() && InStep(l) && Settled(server.Pass()) && statusBase == server.Pass().sw.status
      modifies server, l, metrics.Repr()
      ensures Kept() && server.Pass().Idle? && (ok <==> StatusAccepted()) && (ok <==> !server.failing)
      ensures metrics.history == old(metrics.history) + GaugeCalls(namespace, name, old(server.Pass()))
      ensures old(server.script) == [] && old(server.world).cr.Some?
              && old(server.world).cr.value.status == statusBase
              ==> ok && server.world == WithStatus(old(server.world), StatusOf(old(server.Pass())))
    {
      hide Server.Valid, Metrics.Recorder.Valid, Legal, PassAt, AcceptedWrites, CountedUpdates, Recorded;
      hide Settled, Trouble, DueWarnings, Refreshed, StatusOf, Learn, Rule, Reflects, MayEnd, GaugeCalls;
      PersistVerdict(l.sw, l.degraded, l.ready, l.observed, server.Pass());
      Refresh(l);
      SetConditions(l);
      ok := server.PatchStatus(statusBase, l.sw.status);
      if !ok {
        server.Return();
      }
    }

    /** Ends the pass with its status: an error when that was not accepted, else a requeue. */
    method Conclude(l: Locals, statusBase: Status, immediately: bool, poll: nat) returns (res: CtrlResult)
      requires Valid() && InStep(l) && Settled(server.Pass()) && statusBase == server.Pass().sw.status && poll > 0
      modifies server, l, metrics.Repr()
      ensures Kept() && server.Pass().Idle? && (res.failed <==> server.failing)
      ensures res == if !StatusAccepted() then CtrlResult(0, true)
                     else CtrlResult(if immediately then 1 else poll, false)
      ensures metrics.history == old(metrics.history) + GaugeCalls(namespace, name, old(server.Pass()))
      ensures old(server.script) == [] && old(server.world).cr.Some?
              && old(server.world).cr.value.status == statusBase
              ==> && !res.failed && res == Requeue(None, immediately, poll)
                  && server.world == WithStatus(old(server.world), StatusOf(old(server.Pass())))
    {
      hide Server.Valid, Metrics.Recorder.Valid, Legal, PassAt, AcceptedWrites, CountedUpdates, Recorded;
      hide Settled, Trouble, DueWarnings, StatusOf, Reflects, GaugeCalls, StatusAccepted;
      var ok := Persist(l, statusBase);
      res := if !ok then FAILURE else Requeue(None, immediately, poll);
    }

    /** The ShadowWorkload is gone: every series it owned is dropped. */
    method Forget()
      requires Valid() && AcceptedWrites(server.log) == 0
      modifies metrics.Repr()
      ensures Valid() && Owed() == 0 && Metrics.Since(metrics.history, namespace, name) == []
      ensures OnlyFor(old(metrics.history), metrics.history, namespace, name)
    {
      hide Server.Valid, Legal, PassAt, AcceptedWrites, Metrics.After, Metrics.Faithful;
      OwnCall(metrics.history, Metrics.Removed(namespace, name));
      Metrics.AppendedCall(metrics.history, Metrics.Removed(namespace, name), namespace, name);
      metrics.RemoveShadowWorkload(namespace, name);
    }

    /** Both gates, in order. */
    method Gate(l: Locals) returns (stop: Option<CtrlResult>, ready: bool)
      requires Valid() && InStep(l) && AtGate(server.Pass()) && server.Pass().gate.Unchecked?
      modifies server, l
      ensures Kept()
      ensures stop.Some? ==> stop.value == FAILURE && server.failing && server.Pass().Idle?
      ensures stop.None? ==>
                && server.Pass().Busy? && server.Pass().sw == old(server.Pass()).sw
                && (if ready then ReadyToMeasure(l)
                    else InStep(l) && AtGate(server.Pass()) && server.Pass().gate.Blocked?)
      ensures old(server.script) == [] ==>
                && server.world == old(server.world) && stop.None?
                && (ready <==> GateOpens(server.world, old(l.sw)))
                && (!ready ==> server.Pass().gate == Blocked(GateReason(server.world, old(l.sw))))
    {
      hide Server.Valid, Metrics.Recorder.Valid, Legal, PassAt, AcceptedWrites, CountedUpdates;
      hide Recorded, Nodes.EligibilityOf;
      hide Settled, Measurable, DueWarnings;
      var eligible;
      stop, eligible := GateOnNode(l);
      ready := false;
      if stop.None? && eligible {
        stop, ready := GateOnPriorityClass(l);
      }
    }

    /** The pass on a ShadowWorkload that was there. */
    method Track(sw: Workload) returns (res: CtrlResult)
      requires Valid() && JustBegan(sw, server.Pass())
      modifies server, metrics.Repr()
      ensures Kept() && server.Pass().Idle? && Stopped(res, PollInterval(sw.spec))
      ensures res.failed || res.requeueAfter == 1 || res.requeueAfter == PollInterval(sw.spec)
      ensures old(server.script) == [] && Hospitable(server.manager, old(server.world))
              && old(server.world).cr == Some(sw)
              ==> && Approaches(old(server.world), server.world)
                  && res == CalmResult(old(server.world), old(server.Pass()), PollInterval(sw.spec))
                  && (AtHome(old(server.world), old(server.Pass()))
                      ==> GaugesFollow(metrics.history, namespace, name, server.world))
      ensures old(server.script) == [] && old(server.world).cr == Some(sw) && !GateOpens(old(server.world), sw)
              ==> Defers(old(server.world), server.world) && res == CtrlResult(PollInterval(sw.spec), false)
    {
      hide Server.Valid, Metrics.Recorder.Valid, Legal, PassAt, AcceptedWrites, CountedUpdates, Recorded;
      hide Settled, Measurable, Judge, CalmStep, InPlace, Owned, Nodes.EligibilityOf, StatusOf, Approaches, Rule;
      hide GateReason, GateOpens, Deferred, GaugesFollow, GaugeCalls, WriteCalls, MeasurementCalls, Tracking;
      hide AtGate, Observe, DueWarnings, Trouble;
      var poll := PollInterval(sw.spec);
      var l := new Locals(sw);
      BeginsInStep(sw, server.Pass());
      var stop, ready := Gate(l);
      if stop.Some? {
        return stop.value;
      }
      ghost var calm := old(server.script) == [] && Hospitable(server.manager, server.world)
                        && server.world.cr == Some(sw);
      var immediately := false;
      ghost var began, before := server.Pass(), server.world;
      if ready {
        stop, immediately := Manage(l, poll);
        if stop.Some? {
          if calm { StoppedPassApproaches(before, began, server.world); }
          return stop.value;
        }
      }
      ghost var managed, finished, calls := server.world, server.Pass(), metrics.history;
      if !ready { BlockedReports(finished); }
      if calm { StepKeepsWorkload(before, began, managed); }
      res := Conclude(l, sw.status, immediately, poll);
      if calm {
        FinishedPassApproaches(before, began, managed, finished, server.world);
        if AtHome(before, began) {
          FinishedPassGauges(calls, metrics.history, namespace, name, managed, finished, server.world);
        }
      }
    }

    /** One pass for the request. */
    method Reconcile() returns (res: CtrlResult)
      requires Valid() && server.Pass().Idle?
      modifies server, metrics.Repr()
      ensures Valid() && server.Pass().Idle? && (res.failed <==> server.failing)
      ensures if old(server.script) == [] then server.script == [] else |server.script| < |old(server.script)|
      ensures old(Owed()) == 0 ==> Owed() == 0
      ensures OnlyFor(old(metrics.history), metrics.history, namespace, name)
      ensures !Stops(res) ==> server.world.cr.None? && Metrics.Since(metrics.history, namespace, name) == []
      ensures old(server.script) == [] && Hospitable(server.manager, old(server.world))
              ==> && Stops(res) && !res.failed && Approaches(old(server.world), server.world)
                  && (Live(old(server.world)).None?
                      || InPlace(Live(old(server.world)).value, old(server.world).cr.value)
                      ==> GaugesFollow(metrics.history, namespace, name, server.world))
      ensures old(server.script) == [] && old(server.world).cr.Some?
              && !GateOpens(old(server.world), old(server.world).cr.value)
              ==> Stops(res) && !res.failed && Defers(old(server.world), server.world)
    {
      hide Server.Valid, Metrics.Recorder.Valid, Legal, PassAt, AcceptedWrites, CountedUpdates, Recorded;
      hide Settled, Measurable, Judge, CalmStep, InPlace, Owned, Nodes.EligibilityOf, StatusOf, Approaches;
      hide Defers, GateOpens;
      var read := server.GetWorkload();
      match read {
        case NotFound =>
          Forget();
          res := CtrlResult(0, false);
        case Unavailable => res := FAILURE;
        case Present(sw) => res := Track(sw);
      }
    }
  }
}
