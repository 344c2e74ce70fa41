/** internal/metrics/metrics.go: the Recorder's series as a ledger of the calls made on it. */
module Metrics {
  import opened Wrappers

  /** Label values in key order: namespace, name and, for failures, reason. */
  type Labels = seq<string>

  /** One metric vector. */
  class Vec {
    var series: map<Labels, real>

    constructor ()
      ensures series == map[]
    {
      series := map[];
    }

    method Set(labels: Labels, value: real)
      modifies this
      ensures series == old(series)[labels := value]
    {
      series := series[labels := value];
    }

    method Inc(labels: Labels)
      modifies this
      ensures series == old(series)[labels := Read(old(series), labels) + 1.0]
    {
      series := series[labels := Read(series, labels) + 1.0];
    }

    /** Drops every series whose namespace and name match, whatever its other labels. */
    method DeletePartialMatch(namespace: string, name: string)
      modifies this
      ensures series == Without(old(series), namespace, name)
    {
      series := map l | l in series && !Belongs(l, namespace, name) :: series[l];
    }
  }

  /** A counter or gauge that has no series reads as zero. */
  function Read(series: map<Labels, real>, labels: Labels): real {
    if labels in series then series[labels] else 0.0
  }

  predicate Belongs(labels: Labels, namespace: string, name: string) {
    |labels| >= 2 && labels[0] == namespace && labels[1] == name
  }

  function Without(series: map<Labels, real>, namespace: string, name: string): map<Labels, real> {
    map l | l in series && !Belongs(l, namespace, name) :: series[l]
  }

  /** The closed set of failure reasons. */
  const KNOWN_REASONS: set<string> := {
    "prometheus_unavailable", "multi_sample", "partial_sample", "invalid_sample", "target_unavailable",
    "resize_rejected", "source_missing"
  }

  /** Nanoseconds since the Unix epoch; the zero time is the first instant of year 1. */
  type Time = int

  const ZERO_TIME: Time := -62_135_596_800 * SECOND

  const SECOND: int := 1_000_000_000

  /** The whole seconds of a time, which is what a series, and a time in JSON, holds. */
  function Seconds(at: Time): int {
    at / SECOND
  }

  /** A call the Recorder acts on: failure reasons come from the closed set, and the zero time stamps nothing. */
  predicate Acted(call: Call) {
    (call.Failed? ==> call.reason in KNOWN_REASONS) && (call.Succeeded? ==> call.at != ZERO_TIME)
  }

  /** A call on the Recorder. */
  datatype Call =
    | Updated(namespace: string, name: string)
    | Failed(namespace: string, name: string, reason: string)
    | Reserved(namespace: string, name: string, cpu: real, memory: real)
    | Observed(namespace: string, name: string, cpu: real, memory: real)
    | Succeeded(namespace: string, name: string, at: Time)
    | Removed(namespace: string, name: string)

  /** The calls of one workload since its last removal. */
  function Since(history: seq<Call>, namespace: string, name: string): seq<Call> {
    if history == [] then []
    else
      var last := history[|history| - 1];
      if last == Removed(namespace, name) then []
      else if last.namespace == namespace && last.name == name
      then Since(history[..|history| - 1], namespace, name) + [last]
      else Since(history[..|history| - 1], namespace, name)
  }

  function Count(calls: seq<Call>, call: Call): nat {
    multiset(calls)[call]
  }

  /** The last reservation set among `calls`. */
  function LastReserved(calls: seq<Call>): Option<(real, real)> {
    if calls == [] then None
    else if calls[|calls| - 1].Reserved? then Some((calls[|calls| - 1].cpu, calls[|calls| - 1].memory))
    else LastReserved(calls[..|calls| - 1])
  }

  /** The last raw measurement among `calls`. */
  function LastObserved(calls: seq<Call>): Option<(real, real)> {
    if calls == [] then None
    else if calls[|calls| - 1].Observed? then Some((calls[|calls| - 1].cpu, calls[|calls| - 1].memory))
    else LastObserved(calls[..|calls| - 1])
  }

  /** The last successful measurement's stamp among `calls`. */
  function LastSuccess(calls: seq<Call>): Option<Time> {
    if calls == [] then None
    else if calls[|calls| - 1].Succeeded? then Some(calls[|calls| - 1].at)
    else LastSuccess(calls[..|calls| - 1])
  }

  /** Every series a vector keyed by namespace and name may hold. */
  predicate PairKeyed(series: map<Labels, real>) {
    forall l :: l in series ==> |l| == 2
  }

  predicate ReasonKeyed(series: map<Labels, real>) {
    forall l :: l in series ==> |l| == 3 && l[2] in KNOWN_REASONS
  }

  // ----- What each call does to the calls that count ----------------------------------

  lemma AppendedCall(history: seq<Call>, call: Call, namespace: string, name: string)
    ensures var after := Since(history + [call], namespace, name);
            if call == Removed(namespace, name) then after == []
            else if call.namespace == namespace && call.name == name
            then after == Since(history, namespace, name) + [call]
            else after == Since(history, namespace, name)
  {
    assert (history + [call])[..|history|] == history;
  }

  lemma AppendedCount(calls: seq<Call>, call: Call, other: Call)
    ensures Count(calls + [call], other) == Count(calls, other) + (if call == other then 1 else 0)
  {
  }

  lemma AppendedLast(calls: seq<Call>, call: Call)
    ensures LastReserved(calls + [call])
            == if call.Reserved? then Some((call.cpu, call.memory)) else LastReserved(calls)
    ensures LastObserved(calls + [call])
            == if call.Observed? then Some((call.cpu, call.memory)) else LastObserved(calls)
    ensures LastSuccess(calls + [call]) == if call.Succeeded? then Some(call.at) else LastSuccess(calls)
  {
    assert (calls + [call])[..|calls|] == calls;
  }

  // ----- All series at once --------------------------------------------------------------

  /** The contents of every vector. */
  datatype Board = Board(measuredCpu: map<Labels, real>, measuredMemory: map<Labels, real>,
                         reservedCpu: map<Labels, real>, reservedMemory: map<Labels, real>,
                         lastSuccess: map<Labels, real>, updates: map<Labels, real>, failures: map<Labels, real>)

  /** Only the declared label sets ever appear, and failure reasons come from the closed set. */
  predicate WellKeyed(b: Board) {
    && PairKeyed(b.measuredCpu) && PairKeyed(b.measuredMemory) && PairKeyed(b.reservedCpu)
    && PairKeyed(b.reservedMemory) && PairKeyed(b.lastSuccess) && PairKeyed(b.updates) && ReasonKeyed(b.failures)
  }

  predicate GaugesShow(cpu: map<Labels, real>, memory: map<Labels, real>, labels: Labels, last: Option<(real, real)>) {
    match last
    case None => labels !in cpu && labels !in memory
    case Some((c, m)) => labels in cpu && cpu[labels] == c && labels in memory && memory[labels] == m
  }

  /** The stamp shows whole seconds. */
  predicate StampShows(stamps: map<Labels, real>, labels: Labels, last: Option<Time>) {
    match last
    case None => labels !in stamps
    case Some(at) => labels in stamps && stamps[labels] == Seconds(at) as real
  }

  /** The series of one workload are what `calls` say. */
  ghost predicate Tells(b: Board, calls: seq<Call>, namespace: string, name: string) {
    && Read(b.updates, [namespace, name]) == Count(calls, Updated(namespace, name)) as real
    && (forall reason ::
          Read(b.failures, [namespace, name, reason]) == Count(calls, Failed(namespace, name, reason)) as real)
    && GaugesShow(b.reservedCpu, b.reservedMemory, [namespace, name], LastReserved(calls))
    && GaugesShow(b.measuredCpu, b.measuredMemory, [namespace, name], LastObserved(calls))
    && StampShows(b.lastSuccess, [namespace, name], LastSuccess(calls))
  }

  /** Every series of every workload is what its calls since its last removal say. */
  ghost predicate Faithful(b: Board, history: seq<Call>) {
    WellKeyed(b) && forall ns, n :: Tells(b, Since(history, ns, n), ns, n)
  }

  /** The board after one call, as the Recorder's methods change it. */
  function After(b: Board, call: Call): Board {
    var labels := [call.namespace, call.name];
    match call
    case Updated(_, _) => b.(updates := b.updates[labels := Read(b.updates, labels) + 1.0])
    case Failed(_, _, reason) =>
      var all := labels + [reason];
      if reason in KNOWN_REASONS then b.(failures := b.failures[all := Read(b.failures, all) + 1.0]) else b
    case Reserved(_, _, c, m) =>
      b.(reservedCpu := b.reservedCpu[labels := c], reservedMemory := b.reservedMemory[labels := m])
    case Observed(_, _, c, m) =>
      b.(measuredCpu := b.measuredCpu[labels := c], measuredMemory := b.measuredMemory[labels := m])
    case Succeeded(_, _, at) =>
      if at == ZERO_TIME then b else b.(lastSuccess := b.lastSuccess[labels := Seconds(at) as real])
    case Removed(ns, n) =>
      Board(Without(b.measuredCpu, ns, n), Without(b.measuredMemory, ns, n), Without(b.reservedCpu, ns, n),
            Without(b.reservedMemory, ns, n), Without(b.lastSuccess, ns, n), Without(b.updates, ns, n),
            Without(b.failures, ns, n))
  }

  lemma OtherWorkloadUntouched(b: Board, call: Call, calls: seq<Call>, ns: string, n: string)
    requires (call.namespace, call.name) != (ns, n) && Tells(b, calls, ns, n)
    ensures Tells(After(b, call), calls, ns, n)
  {
    assert [call.namespace, call.name][0] == call.namespace && [call.namespace, call.name][1] == call.name;
    assert [ns, n][0] == ns && [ns, n][1] == n;
    forall reason: string
      ensures [ns, n, reason][0] == ns && [ns, n, reason][1] == n
    {
    }
  }

  lemma OwnWorkloadAdvances(b: Board, call: Call, calls: seq<Call>)
    requires Tells(b, calls, call.namespace, call.name) && !call.Removed?
    requires Acted(call)
    ensures Tells(After(b, call), calls + [call], call.namespace, call.name)
  {
    AppendedLast(calls, call);
    var ns, n := call.namespace, call.name;
    forall other
      ensures Count(calls + [call], other) == Count(calls, other) + (if call == other then 1 else 0)
    {
      AppendedCount(calls, call, other);
    }
    forall reason: string
      ensures Read(After(b, call).failures, [ns, n, reason]) == Count(calls + [call], Failed(ns, n, reason)) as real
    {
      assert [ns, n, reason][2] == reason;
      assert call.Failed? ==> [ns, n] + [call.reason] == [ns, n, call.reason];
    }
  }

  lemma RemovalErases(b: Board, ns: string, n: string)
    ensures Tells(After(b, Removed(ns, n)), [], ns, n)
  {
    forall reason: string
      ensures Belongs([ns, n, reason], ns, n)
    {
    }
  }

  /** Ledger conservation: a known call keeps every series equal to the calls since the last removal. */
  lemma CallKeepsFaith(b: Board, history: seq<Call>, call: Call)
    requires Faithful(b, history) && Acted(call)
    ensures Faithful(After(b, call), history + [call])
  {
    forall ns, n
      ensures Tells(After(b, call), Since(history + [call], ns, n), ns, n)
    {
      AppendedCall(history, call, ns, n);
      if (call.namespace, call.name) != (ns, n) {
        OtherWorkloadUntouched(b, call, Since(history, ns, n), ns, n);
      } else if call == Removed(ns, n) {
        RemovalErases(b, ns, n);
      } else {
        OwnWorkloadAdvances(b, call, Since(history, ns, n));
      }
    }
  }

  /** Whatever was called, failures are counted under seven reasons at most, and never under anything else. */
  lemma FailuresAreBounded(b: Board, history: seq<Call>, labels: Labels)
    requires Faithful(b, history) && labels in b.failures
    ensures |labels| == 3
            && (|| labels[2] == "prometheus_unavailable" || labels[2] == "multi_sample" || labels[2] == "partial_sample"
                || labels[2] == "invalid_sample" || labels[2] == "target_unavailable" || labels[2] == "resize_rejected"
                || labels[2] == "source_missing")
  {
    hide Tells;
  }

  lemma EmptyIsFaithful()
    ensures Faithful(Board(map[], map[], map[], map[], map[], map[], map[]), [])
  {
  }

  /** Removal takes every series of exactly that workload: what is left is the old board without it. */
  lemma RemovalIsExact(b: Board, ns: string, n: string, labels: Labels)
    ensures var after := After(b, Removed(ns, n));
            && (Belongs(labels, ns, n) ==>
                  && labels !in after.measuredCpu && labels !in after.measuredMemory && labels !in after.reservedCpu
                  && labels !in after.reservedMemory && labels !in after.lastSuccess && labels !in after.updates
                  && labels !in after.failures)
            && (!Belongs(labels, ns, n) ==>
                  && Same(after.measuredCpu, b.measuredCpu, labels)
                  && Same(after.measuredMemory, b.measuredMemory, labels)
                  && Same(after.reservedCpu, b.reservedCpu, labels)
                  && Same(after.reservedMemory, b.reservedMemory, labels)
                  && Same(after.lastSuccess, b.lastSuccess, labels) && Same(after.updates, b.updates, labels)
                  && Same(after.failures, b.failures, labels))
  {
  }

  /** Both vectors hold the same series under these labels, or neither holds one. */
  predicate Same(a: map<Labels, real>, b: map<Labels, real>, labels: Labels) {
    if labels in b then labels in a && a[labels] == b[labels] else labels !in a
  }

  // ----- The Recorder -------------------------------------------------------------------

  class Recorder {
    const measuredCpu: Vec
    const measuredMemory: Vec
    const reservedCpu: Vec
    const reservedMemory: Vec
    const lastSuccess: Vec
    const reservationUpdates: Vec
    const measurementFailures: Vec
    ghost var history: seq<Call>

    ghost function Repr(): set<object> {
      {this, measuredCpu, measuredMemory, reservedCpu, reservedMemory, lastSuccess, reservationUpdates,
       measurementFailures}
    }

    /** The stored vectors, in the order cleanup visits them. */
    function Vectors(): seq<Vec> {
      [measuredCpu, measuredMemory, reservedCpu, reservedMemory, lastSuccess, reservationUpdates, measurementFailures]
    }

    ghost predicate Distinct() {
      && measuredCpu !in {measuredMemory, reservedCpu, reservedMemory, lastSuccess, reservationUpdates,
                          measurementFailures}
      && measuredMemory !in {reservedCpu, reservedMemory, lastSuccess, reservationUpdates, measurementFailures}
      && reservedCpu !in {reservedMemory, lastSuccess, reservationUpdates, measurementFailures}
      && reservedMemory !in {lastSuccess, reservationUpdates, measurementFailures}
      && lastSuccess !in {reservationUpdates, measurementFailures}
      && reservationUpdates != measurementFailures
    }

    ghost function Contents(): Board
      reads Repr()
    {
      Board(measuredCpu.series, measuredMemory.series, reservedCpu.series, reservedMemory.series,
            lastSuccess.series, reservationUpdates.series, measurementFailures.series)
    }

    ghost predicate Valid()
      reads Repr()
    {
      && Distinct()
      && Faithful(Contents(), history)
    }

    constructor ()
      ensures Valid() && fresh(Repr()) && history == []
    {
      hide Faithful;
      measuredCpu := new Vec();
      measuredMemory := new Vec();
      reservedCpu := new Vec();
      reservedMemory := new Vec();
      lastSuccess := new Vec();
      reservationUpdates := new Vec();
      measurementFailures := new Vec();
      history := [];
      new;
      EmptyIsFaithful();
    }

    method ObservedMeasurement(namespace: string, name: string, cpu: real, memory: real)
      requires Valid()
      modifies Repr()
      ensures Valid() && history == old(history) + [Observed(namespace, name, cpu, memory)]
      ensures Contents() == After(old(Contents()), Observed(namespace, name, cpu, memory))
    {
      hide Faithful;
      measuredCpu.Set([namespace, name], cpu);
      measuredMemory.Set([namespace, name], memory);
      ghost var call := Observed(namespace, name, cpu, memory);
      history := history + [call];
      CallKeepsFaith(old(Contents()), old(history), call);
    }

    /** Stamps the last success in whole seconds; the zero time stamps nothing. */
    method MeasurementSucceeded(namespace: string, name: string, at: Time)
      requires Valid()
      modifies Repr()
      ensures Valid()
      ensures history == if at == ZERO_TIME then old(history) else old(history) + [Succeeded(namespace, name, at)]
      ensures Contents() == After(old(Contents()), Succeeded(namespace, name, at))
    {
      hide Faithful;
      if at == ZERO_TIME {
        return;
      }
      lastSuccess.Set([namespace, name], Seconds(at) as real);
      ghost var call := Succeeded(namespace, name, at);
      history := history + [call];
      CallKeepsFaith(old(Contents()), old(history), call);
    }

    method SetReserved(namespace: string, name: string, cpu: real, memory: real)
      requires Valid()
      modifies Repr()
      ensures Valid() && history == old(history) + [Reserved(namespace, name, cpu, memory)]
      ensures Contents() == After(old(Contents()), Reserved(namespace, name, cpu, memory))
    {
      hide Faithful;
      reservedCpu.Set([namespace, name], cpu);
      reservedMemory.Set([namespace, name], memory);
      ghost var call := Reserved(namespace, name, cpu, memory);
      history := history + [call];
      CallKeepsFaith(old(Contents()), old(history), call);
    }

    method ReservationUpdated(namespace: string, name: string)
      requires Valid()
      modifies Repr()
      ensures Valid() && history == old(history) + [Updated(namespace, name)]
      ensures Contents() == After(old(Contents()), Updated(namespace, name))
    {
      hide Faithful;
      reservationUpdates.Inc([namespace, name]);
      ghost var call := Updated(namespace, name);
      history := history + [call];
      CallKeepsFaith(old(Contents()), old(history), call);
    }

    /** A reason outside the closed set is dropped. */
    method MeasurementFailed(namespace: string, name: string, reason: string)
      requires Valid()
      modifies Repr()
      ensures Valid()
      ensures history
              == if reason in KNOWN_REASONS then old(history) + [Failed(namespace, name, reason)] else old(history)
      ensures Contents() == After(old(Contents()), Failed(namespace, name, reason))
    {
      hide Faithful, KNOWN_REASONS;
      if reason !in KNOWN_REASONS {
        return;
      }
      measurementFailures.Inc([namespace, name, reason]);
      assert [namespace, name] + [reason] == [namespace, name, reason];
      ghost var call := Failed(namespace, name, reason);
      history := history + [call];
      CallKeepsFaith(old(Contents()), old(history), call);
    }

    /** Every vector drops the workload's series; no other workload's series change. */
    method RemoveShadowWorkload(namespace: string, name: string)
      requires Valid()
      modifies Repr()
      ensures Valid() && history == old(history) + [Removed(namespace, name)]
      ensures Contents() == After(old(Contents()), Removed(namespace, name))
    {
      hide Faithful, Without;
      var vecs := Vectors();
      for i := 0 to |vecs|
        invariant history == old(history)
        invariant forall j :: 0 <= j < i ==> vecs[j].series == Without(old(vecs[j].series), namespace, name)
        invariant forall j :: i <= j < |vecs| ==> vecs[j].series == old(vecs[j].series)
      {
        vecs[i].DeletePartialMatch(namespace, name);
      }
      assert vecs[0] == measuredCpu && vecs[1] == measuredMemory && vecs[2] == reservedCpu;
      assert vecs[3] == reservedMemory && vecs[4] == lastSuccess;
      assert vecs[5] == reservationUpdates && vecs[6] == measurementFailures;
      ghost var call := Removed(namespace, name);
      history := history + [call];
      CallKeepsFaith(old(Contents()), old(history), call);
    }
  }
}
