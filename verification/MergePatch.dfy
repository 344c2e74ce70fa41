/**
 * JSON merge patches (RFC 7396) of a status, as the controller sends them: a patch carries the fields in which the new
 * status differs from the one the pass started from, and nothing else.
 */
module MergePatch {
  import opened Wrappers
  import opened Api

  /** A field is written only where `mine` differs from `base`. */
  function Field<T(==)>(onto: T, base: T, mine: T): T {
    if mine == base then onto else mine
  }

  /** Every field of `lastMeasurement` is required, and a patch holds those that differ. */
  predicate SnapshotFits(onto: Option<Snapshot>, base: Option<Snapshot>, mine: Option<Snapshot>) {
    mine != base && onto.None? && base.Some? && mine.Some? ==>
      && mine.value.observedGeneration != base.value.observedGeneration && mine.value.at != base.value.at
      && mine.value.measured.cpu != base.value.measured.cpu && mine.value.measured.memory != base.value.measured.memory
      && mine.value.seriesFound != base.value.seriesFound
  }

  function MergedSnapshot(onto: Option<Snapshot>, base: Option<Snapshot>, mine: Option<Snapshot>): Option<Snapshot> {
    if mine == base then onto
    else if onto.None? || base.None? || mine.None? then mine
    else
      var o, b, s := onto.value, base.value, mine.value;
      Some(Snapshot(Field(o.observedGeneration, b.observedGeneration, s.observedGeneration), Field(o.at, b.at, s.at),
                    Pair(Field(o.measured.cpu, b.measured.cpu, s.measured.cpu),
                         Field(o.measured.memory, b.measured.memory, s.measured.memory)),
                    Field(o.seriesFound, b.seriesFound, s.seriesFound)))
  }

  /** Of `resolvedSource` only the type is required. */
  predicate DescriptionFits(onto: Option<Description>, base: Option<Description>, mine: Option<Description>) {
    mine != base && onto.None? && base.Some? && mine.Some? ==> mine.value.kind != base.value.kind
  }

  /** An empty string is an absent field, here and in the patch. */
  function MergedDescription(onto: Option<Description>, base: Option<Description>, mine: Option<Description>)
    : Option<Description>
  {
    if mine == base then onto
    else if mine.None? then None
    else
      var s := mine.value;
      var b := if base.Some? then base.value else Description(s.kind, "", "", "");
      var o := if onto.Some? then onto.value else Description(s.kind, "", "", "");
      Some(Description(if base.None? then s.kind else Field(o.kind, b.kind, s.kind),
                       Field(o.cgroupPath, b.cgroupPath, s.cgroupPath),
                       Field(o.cadvisorJob, b.cadvisorJob, s.cadvisorJob),
                       Field(o.cadvisorInstance, b.cadvisorInstance, s.cadvisorInstance)))
  }

  /** The patch from `base` to `mine` leaves no half-filled object on `onto`, which the server would reject. */
  predicate Fits(onto: Status, base: Status, mine: Status) {
    && SnapshotFits(onto.lastMeasurement, base.lastMeasurement, mine.lastMeasurement)
    && DescriptionFits(onto.resolvedSource, base.resolvedSource, mine.resolvedSource)
  }

  /** What the patch from `base` to `mine` makes of `onto`.  The conditions are one list, sent whole or not at all. */
  function Merged(onto: Status, base: Status, mine: Status): (st: Status) {
    var told := mine.ready != base.ready || mine.degraded != base.degraded;
    Status(Field(onto.phantomPod, base.phantomPod, mine.phantomPod),
           Pair(Field(onto.current.cpu, base.current.cpu, mine.current.cpu),
                Field(onto.current.memory, base.current.memory, mine.current.memory)),
           Field(onto.lastResize, base.lastResize, mine.lastResize),
           MergedSnapshot(onto.lastMeasurement, base.lastMeasurement, mine.lastMeasurement),
           MergedDescription(onto.resolvedSource, base.resolvedSource, mine.resolvedSource),
           if told then mine.ready else onto.ready,
           if told then mine.degraded else onto.degraded)
  }

  /** Where a patch meets the status it was made from, it is accepted and writes exactly the new status. */
  lemma MergesOntoBase(base: Status, mine: Status)
    ensures Fits(base, base, mine) && Merged(base, base, mine) == mine
  {
  }

  /** Wherever a patch lands, what the pass left alone stays, and each plain field it changed arrives. */
  lemma ChangesArrive(onto: Status, base: Status, mine: Status)
    ensures var st := Merged(onto, base, mine);
            && st.phantomPod == (if mine.phantomPod == base.phantomPod then onto.phantomPod else mine.phantomPod)
            && st.current.cpu == (if mine.current.cpu == base.current.cpu then onto.current.cpu else mine.current.cpu)
            && st.current.memory
               == (if mine.current.memory == base.current.memory then onto.current.memory else mine.current.memory)
            && st.lastResize == (if mine.lastResize == base.lastResize then onto.lastResize else mine.lastResize)
            && (mine.lastMeasurement == base.lastMeasurement ==> st.lastMeasurement == onto.lastMeasurement)
            && (mine.resolvedSource == base.resolvedSource ==> st.resolvedSource == onto.resolvedSource)
            && (st.ready, st.degraded)
               == (if (mine.ready, mine.degraded) == (base.ready, base.degraded) then (onto.ready, onto.degraded)
                   else (mine.ready, mine.degraded))
  {
  }

  /**
   * A status without a snapshot takes either no snapshot field or all five; a status without a source description takes
   * one only with its type.
   */
  lemma NoHalves(onto: Status, base: Status, mine: Status)
    requires onto.lastMeasurement.None? && onto.resolvedSource.None?
    requires base.lastMeasurement.Some? && mine.lastMeasurement.Some?
    requires base.resolvedSource.Some? && mine.resolvedSource.Some?
    ensures var b, s := base.lastMeasurement.value, mine.lastMeasurement.value;
            Fits(onto, base, mine)
            <==> && (|| b == s
                     || (b.observedGeneration != s.observedGeneration && b.at != s.at
                         && b.measured.cpu != s.measured.cpu && b.measured.memory != s.measured.memory
                         && b.seriesFound != s.seriesFound))
                 && (base.resolvedSource == mine.resolvedSource
                     || base.resolvedSource.value.kind != mine.resolvedSource.value.kind)
  {
  }
}
