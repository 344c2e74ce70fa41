/** Which warning events the controller emits over whole runs, told from the reasons it persists. */
module Warnings {
  import opened Wrappers
  import opened Api
  import opened Shadow
  import opened Backend
  import opened Protocol
  import opened Safety
  import Nodes
  import Sources

  // ----- Reading a log -----------------------------------------------------------------------

  /** The reason a status is degraded for, if it is. */
  function DegradedFor(st: Status): Option<Reason> {
    if st.degraded.Some? && st.degraded.value.status then Some(st.degraded.value.reason) else None
  }

  /** The degraded reasons a log persisted, in order. */
  function PersistedReasons(log: seq<Event>): seq<Option<Reason>> {
    if log == [] then []
    else
      var last := log[|log| - 1];
      PersistedReasons(log[..|log| - 1]) + (if last.Persisted? then [DegradedFor(last.status)] else [])
  }

  /** How often a reason occurs among `reasons`. */
  function Occurrences(reasons: seq<Reason>, reason: Reason): nat {
    multiset(reasons)[reason]
  }

  /** The reasons a log warned about, in order. */
  function WarnedReasons(log: seq<Event>): seq<Reason> {
    if log == [] then []
    else
      var last := log[|log| - 1];
      WarnedReasons(log[..|log| - 1]) + (if last.Warned? then [last.reason] else [])
  }

  function LastOf(first: Option<Reason>, reasons: seq<Option<Reason>>): Option<Reason> {
    if reasons == [] then first else reasons[|reasons| - 1]
  }

  /** How often the persisted reason became `reason` without having been it. */
  function Entries(first: Option<Reason>, reasons: seq<Option<Reason>>, reason: Reason): nat {
    if reasons == [] then 0
    else
      var before := reasons[..|reasons| - 1];
      var entered := reasons[|reasons| - 1] == Some(reason) && LastOf(first, before) != Some(reason);
      Entries(first, before, reason) + (if entered then 1 else 0)
  }

  /** How many finished passes persisted `reason`. */
  function Persists(reasons: seq<Option<Reason>>, reason: Reason): nat {
    multiset(reasons)[Some(reason)]
  }

  /** The pass failed its measurement with a foreign pod at its key, and the last persisted reason was no conflict. */
  predicate BlindConflict(p: Pass, last: Option<Reason>) {
    p.Busy? && !p.gate.Blocked? && p.outcome.Failing? && Conflicted(p) && last != Some(PhantomConflict)
  }

  /** How many such passes finished. */
  ghost function BlindConflicts(m: Manager, first: Option<Reason>, log: seq<Event>): nat {
    if log == [] then 0
    else
      var before := log[..|log| - 1];
      BlindConflicts(m, first, before)
      + (if log[|log| - 1].Persisted? && BlindConflict(PassAt(m, before), LastOf(first, PersistedReasons(before)))
         then 1 else 0)
  }

  /** A warning the controller emits each time, not only on a transition. */
  predicate WarnsEachTime(reason: Reason) {
    reason.PrometheusUnavailable? || reason.CadvisorTargetUnavailable? || reason.ResizeRejected?
  }

  /** The warnings one pass owes for a reason when it closes, in trouble `now` and `last` persisted before it. */
  function Owes(p: Pass, now: Option<Reason>, last: Option<Reason>, reason: Reason): nat {
    if NodeOrClassTrouble(reason) then (if now == Some(reason) && last != Some(reason) then 1 else 0)
    else if WarnsEachTime(reason) then (if now == Some(reason) then 1 else 0)
    else if reason.PhantomConflict? then
      (if now == Some(reason) && last != Some(reason) then 1 else 0) + (if BlindConflict(p, last) then 1 else 0)
    else 0
  }

  /** What the passes owed that returned without writing status; the persisted reason did not move for them. */
  ghost function Abandoned(m: Manager, first: Option<Reason>, log: seq<Event>, reason: Reason): nat {
    if log == [] then 0
    else
      var before := log[..|log| - 1];
      var p := PassAt(m, before);
      Abandoned(m, first, before, reason)
      + (if log[|log| - 1].Ended? && p.Busy? then Owes(p, Trouble(p), LastOf(first, PersistedReasons(before)), reason)
         else 0)
  }

  /** The warnings due for a reason, from what was persisted and what was abandoned. */
  ghost function Expected(m: Manager, first: Option<Reason>, log: seq<Event>, reason: Reason): nat {
    (if NodeOrClassTrouble(reason) then Entries(first, PersistedReasons(log), reason)
     else if WarnsEachTime(reason) then Persists(PersistedReasons(log), reason)
     else if reason.PhantomConflict? then
       Entries(first, PersistedReasons(log), reason) + BlindConflicts(m, first, log)
     else 0)
    + Abandoned(m, first, log, reason)
  }

  // ----- One pass ----------------------------------------------------------------------------

  lemma StatusReason(p: Pass)
    requires p.Busy?
    ensures DegradedFor(StatusOf(p)) == Trouble(p)
  {
    hide Trouble, Refreshed;
  }

  /** One warning, or none. */
  function OneIf(due: bool, reason: Reason): seq<Reason> {
    if due then [reason] else []
  }

  lemma CountOne(due: bool, reason: Reason, other: Reason)
    ensures Occurrences(OneIf(due, reason), other) == if due && reason == other then 1 else 0
  {
  }

  lemma CountConcat(a: seq<Reason>, b: seq<Reason>, reason: Reason)
    ensures Occurrences(a + b, reason) == Occurrences(a, reason) + Occurrences(b, reason)
  {
  }

  /** The three warnings a pass past the gate may owe. */
  lemma DueShape(p: Pass)
    requires p.Busy?
    ensures var last := DegradedFor(p.sw.status);
            DueWarnings(p)
            == if p.gate.Blocked? then OneIf(last != Some(p.gate.reason), p.gate.reason)
               else OneIf(p.outcome.Failing? && p.outcome.warn,
                          if p.outcome.Failing? then p.outcome.reason else AsExpected)
                    + OneIf(Conflicted(p) && last != Some(PhantomConflict), PhantomConflict)
                    + OneIf(p.refused, ResizeRejected)
  {
    hide Conflicted;
  }

  /** What the invariant says about the failures a pass can combine. */
  lemma TroubleShape(w: World, p: Pass)
    requires Remembers(w, p) && p.Busy?
    ensures p.refused ==> p.outcome.Taken? && !p.gate.Blocked? && !Conflicted(p) && !Misplaced(p)
    ensures p.gate.Blocked? ==> NodeOrClassTrouble(p.gate.reason) && !Conflicted(p) && !p.refused
    ensures p.outcome.Failing?
            ==> && MeasurementTrouble(p.outcome.reason) && (p.outcome.warn <==> !p.outcome.reason.SourceInvalid?)
  {
    hide Desired, Known, HoldsExactly, QueryPair, Sources.Resolve, Admitted;
  }

  /** What `DueWarnings` holds for one reason, told from the persisted reasons before and after the pass. */
  lemma DueByReason(w: World, p: Pass, reason: Reason)
    requires Remembers(w, p) && p.Busy?
    ensures Occurrences(DueWarnings(p), reason) == Owes(p, Trouble(p), DegradedFor(p.sw.status), reason)
  {
    hide Remembers, Occurrences, DueWarnings, Conflicted, Misplaced, DegradedFor, OneIf;
    TroubleShape(w, p);
    DueShape(p);
    var last := DegradedFor(p.sw.status);
    if p.gate.Blocked? {
      CountOne(last != Some(p.gate.reason), p.gate.reason, reason);
    } else {
      var backend := if p.outcome.Failing? then p.outcome.reason else AsExpected;
      var a := OneIf(p.outcome.Failing? && p.outcome.warn, backend);
      var b := OneIf(Conflicted(p) && last != Some(PhantomConflict), PhantomConflict);
      CountOne(p.outcome.Failing? && p.outcome.warn, backend, reason);
      CountOne(Conflicted(p) && last != Some(PhantomConflict), PhantomConflict, reason);
      CountOne(p.refused, ResizeRejected, reason);
      CountConcat(a, b, reason);
      CountConcat(a + b, OneIf(p.refused, ResizeRejected), reason);
    }
  }

  lemma WarningsOfPass(m: Manager, p: Pass, e: Event)
    requires Rule(p, e) && !e.Persisted? && !e.Ended?
    ensures (if Observe(m, p, e).Busy? then Observe(m, p, e).warnings else [])
            == (if p.Busy? then p.warnings else []) + (if e.Warned? then [e.reason] else [])
  {
    hide Nodes.EligibilityOf, Judge, Measurable, Settled, ResizeDue, Desired;
  }

  // ----- Whole runs --------------------------------------------------------------------------

  /** Warnings so far are those due so far plus what the pass in progress has already emitted. */
  ghost predicate Tallied(m: Manager, w: World, p: Pass, first: Option<Reason>, log: seq<Event>, reason: Reason) {
    && Occurrences(WarnedReasons(log), reason)
       == Expected(m, first, log, reason) + (if p.Busy? then Occurrences(p.warnings, reason) else 0)
    && (w.cr.Some? ==> DegradedFor(w.cr.value.status) == LastOf(first, PersistedReasons(log)))
    && (p.Busy? ==> DegradedFor(p.sw.status) == LastOf(first, PersistedReasons(log)))
  }

  lemma AppendedReasons(log: seq<Event>, e: Event)
    ensures WarnedReasons(log + [e]) == if e.Warned? then WarnedReasons(log) + [e.reason] else WarnedReasons(log)
    ensures PersistedReasons(log + [e])
            == if e.Persisted? then PersistedReasons(log) + [DegradedFor(e.status)] else PersistedReasons(log)
  {
    assert (log + [e])[..|log|] == log;
    assert PersistedReasons(log) + [] == PersistedReasons(log) && WarnedReasons(log) + [] == WarnedReasons(log);
  }

  lemma AppendedEntries(first: Option<Reason>, reasons: seq<Option<Reason>>, now: Option<Reason>, reason: Reason)
    ensures Entries(first, reasons + [now], reason)
            == Entries(first, reasons, reason)
               + (if now == Some(reason) && LastOf(first, reasons) != Some(reason) then 1 else 0)
    ensures Persists(reasons + [now], reason) == Persists(reasons, reason) + (if now == Some(reason) then 1 else 0)
  {
    assert (reasons + [now])[..|reasons|] == reasons;
  }

  lemma AppendedBlind(m: Manager, first: Option<Reason>, log: seq<Event>, e: Event)
    ensures BlindConflicts(m, first, log + [e])
            == BlindConflicts(m, first, log)
               + (if e.Persisted? && BlindConflict(PassAt(m, log), LastOf(first, PersistedReasons(log))) then 1 else 0)
  {
    hide PassAt, BlindConflict, PersistedReasons;
    assert (log + [e])[..|log|] == log;
  }

  lemma AppendedAbandoned(m: Manager, first: Option<Reason>, log: seq<Event>, e: Event, reason: Reason)
    ensures var p := PassAt(m, log);
            Abandoned(m, first, log + [e], reason)
            == Abandoned(m, first, log, reason)
               + (if e.Ended? && p.Busy? then Owes(p, Trouble(p), LastOf(first, PersistedReasons(log)), reason) else 0)
  {
    hide PassAt, Owes, Trouble, PersistedReasons;
    assert (log + [e])[..|log|] == log;
  }

  /** One more event, seen by every tally. */
  lemma Appended(m: Manager, first: Option<Reason>, log: seq<Event>, e: Event, reason: Reason)
    ensures WarnedReasons(log + [e]) == if e.Warned? then WarnedReasons(log) + [e.reason] else WarnedReasons(log)
    ensures PersistedReasons(log + [e])
            == if e.Persisted? then PersistedReasons(log) + [DegradedFor(e.status)] else PersistedReasons(log)
    ensures Expected(m, first, log + [e], reason)
            == Expected(m, first, log, reason)
               + (if e.Persisted? then
                    Owes(PassAt(m, log), DegradedFor(e.status), LastOf(first, PersistedReasons(log)), reason)
                  else if e.Ended? && PassAt(m, log).Busy? then
                    Owes(PassAt(m, log), Trouble(PassAt(m, log)), LastOf(first, PersistedReasons(log)), reason)
                  else 0)
  {
    hide PassAt, PersistedReasons, WarnedReasons, Entries, Persists, BlindConflicts, BlindConflict, DegradedFor, LastOf;
    hide Abandoned, Trouble;
    AppendedReasons(log, e);
    AppendedBlind(m, first, log, e);
    AppendedAbandoned(m, first, log, e, reason);
    if e.Persisted? {
      AppendedEntries(first, PersistedReasons(log), DegradedFor(e.status), reason);
    }
  }

  lemma StepTallies(m: Manager, w: World, first: Option<Reason>, log: seq<Event>, e: Event, reason: Reason)
    requires var p := PassAt(m, log);
             && Sound(w) && w.revisions != [] && Remembers(w, p) && Accepts(w, e) && Rule(p, e)
             && Tallied(m, w, p, first, log, reason)
             && (p.Busy? && w.cr.Some? ==> Current(w, p))
             && Apply(w, e).lastUid == w.lastUid
    ensures Tallied(m, Apply(w, e), Observe(m, PassAt(m, log), e), first, log + [e], reason)
  {
    hide Sound, Remembers, Rule, WarnedReasons, PersistedReasons, Disturb, Learn, PassAt, Expected, Owes, DegradedFor;
    hide Occurrences, Trouble, DueWarnings, Patched;
    var p := PassAt(m, log);
    Appended(m, first, log, e, reason);
    HistoryGrows(w, e);
    if e.Persisted? {
      PersistedIsBusy(w, p, e);
      PatchMeetsBase(w, p, e);
      PersistedOwes(w, p, e, reason);
    } else if e.Ended? {
      EndedOwes(w, p, e, reason);
    } else {
      SameSw(m, p, e);
      WarningsOfPass(m, p, e);
      var one := OneIf(e.Warned?, if e.Warned? then e.reason else AsExpected);
      CountConcat(if p.Busy? then p.warnings else [], one, reason);
      CountConcat(WarnedReasons(log), one, reason);
      CountNone(reason);
    }
  }

  lemma CountNone(reason: Reason)
    ensures Occurrences([], reason) == 0
  {
  }

  lemma PersistedIsBusy(w: World, p: Pass, e: Event)
    requires w.revisions != [] && Accepts(w, e) && Rule(p, e) && e.Persisted?
    ensures p.Busy? && w.cr.Some?
  {
  }

  lemma PersistedOwes(w: World, p: Pass, e: Event, reason: Reason)
    requires Remembers(w, p) && Rule(p, e) && e.Persisted? && Current(w, p)
    ensures Occurrences(p.warnings, reason) == Owes(p, DegradedFor(e.status), DegradedFor(p.sw.status), reason)
  {
    DueByReason(w, p, reason);
    StatusReason(p);
    hide StatusOf, DueWarnings, Owes, Settled, Remembers;
  }

  lemma EndedOwes(w: World, p: Pass, e: Event, reason: Reason)
    requires Remembers(w, p) && Rule(p, e) && e.Ended?
    ensures p.Busy? && Occurrences(p.warnings, reason) == Owes(p, Trouble(p), DegradedFor(p.sw.status), reason)
  {
    DueByReason(w, p, reason);
    hide Trouble, DueWarnings, Owes, Remembers;
  }

  /**
   * Every warning is accounted for.  Over one life of the workload the warnings emitted for each reason are: for the
   * node and PriorityClass reasons, one per transition of the persisted reason; for a refused backend answer and a
   * rejected resize, one per pass that persists the reason; for a foreign pod, one per transition and one more for each
   * pass that fails its measurement as well while the last persisted reason is not the conflict; for anything else,
   * none.  A pass that returns without writing status adds what it would have owed, against the reason persisted
   * before it, which stays.
   */
  lemma {:induction false} WarningsByReason(m: Manager, start: World, log: seq<Event>, i: nat, reason: Reason)
    requires Sound(start) && start.revisions != [] && start.cr.Some? && Legal(m, start, log) && i <= |log|
    requires OneLife(start, log)
    ensures Tallied(m, WorldAt(start, log[..i]), PassAt(m, log[..i]), DegradedFor(start.cr.value.status), log[..i],
                    reason)
    ensures PassAt(m, log[..i]).Idle?
            ==> Occurrences(WarnedReasons(log[..i]), reason)
                == Expected(m, DegradedFor(start.cr.value.status), log[..i], reason)
    decreases i
  {
    hide Sound, Remembers, Accepts, Rule, Apply, Observe, Legal, WorldAt, PassAt, Expected, WarnedReasons;
    hide Tallied, DegradedFor, OneLife, Occurrences, Current;
    var first := DegradedFor(start.cr.value.status);
    if i > 0 {
      var before, e := log[..i - 1], log[i - 1];
      WarningsByReason(m, start, log, i - 1, reason);
      RunInvariant(m, start, log, i - 1);
      Prefix(m, start, log, i - 1);
      Advance(m, start, log, i - 1);
      OneLifePasses(m, start, log, i - 1);
      OneLifePasses(m, start, log, i);
      StepTallies(m, WorldAt(start, before), first, before, e, reason);
      assert before + [e] == log[..i];
    } else {
      assert log[..0] == [];
      NothingTallied(m, start, reason);
    }
    if PassAt(m, log[..i]).Idle? { TalliedWhenIdle(m, WorldAt(start, log[..i]), first, log[..i], reason); }
  }

  lemma NothingTallied(m: Manager, start: World, reason: Reason)
    requires start.cr.Some? && start.revisions != []
    ensures WorldAt(start, []) == start && PassAt(m, []) == Idle
    ensures Tallied(m, start, Idle, DegradedFor(start.cr.value.status), [], reason)
  {
  }

  lemma TalliedWhenIdle(m: Manager, w: World, first: Option<Reason>, log: seq<Event>, reason: Reason)
    requires Tallied(m, w, Idle, first, log, reason)
    ensures Occurrences(WarnedReasons(log), reason) == Expected(m, first, log, reason)
  {
  }

  /** Some finished pass of the log failed its measurement over a foreign pod while the last reason was no conflict. */
  ghost predicate SomeBlindConflict(m: Manager, first: Option<Reason>, log: seq<Event>) {
    exists k :: 0 <= k < |log| && log[k].Persisted?
                && BlindConflict(PassAt(m, log[..k]), LastOf(first, PersistedReasons(log[..k])))
  }

  lemma {:induction false} CountsBlindConflicts(m: Manager, first: Option<Reason>, log: seq<Event>)
    ensures BlindConflicts(m, first, log) > 0 <==> SomeBlindConflict(m, first, log)
    decreases |log|
  {
    hide BlindConflict, PersistedReasons, PassAt;
    if log != [] {
      var before := log[..|log| - 1];
      CountsBlindConflicts(m, first, before);
      assert forall k :: 0 <= k < |before| ==> before[..k] == log[..k] && before[k] == log[k];
      assert log[..|log| - 1] == before;
      if SomeBlindConflict(m, first, log) && !SomeBlindConflict(m, first, before) {
        var k :| 0 <= k < |log| && log[k].Persisted?
                 && BlindConflict(PassAt(m, log[..k]), LastOf(first, PersistedReasons(log[..k])));
        assert k == |before|;
      }
    }
  }

  /**
   * Conflict warnings are transitions of the persisted reason exactly when no pass was blind over a foreign pod and
   * none returned without writing status while it owed one.
   */
  lemma ConflictWarningsAreTransitionsIff(m: Manager, start: World, log: seq<Event>)
    requires Sound(start) && start.revisions != [] && start.cr.Some? && Legal(m, start, log)
    requires OneLife(start, log) && PassAt(m, log).Idle?
    ensures var first := DegradedFor(start.cr.value.status);
            Occurrences(WarnedReasons(log), PhantomConflict) == Entries(first, PersistedReasons(log), PhantomConflict)
            <==> !SomeBlindConflict(m, first, log) && Abandoned(m, first, log, PhantomConflict) == 0
  {
    hide Sound, Legal, PassAt, WarnedReasons, PersistedReasons, Occurrences, Entries, SomeBlindConflict, DegradedFor;
    hide BlindConflicts, Abandoned;
    assert log[..|log|] == log;
    WarningsByReason(m, start, log, |log|, PhantomConflict);
    CountsBlindConflicts(m, DegradedFor(start.cr.value.status), log);
  }

  /**
   * Where a conflict warning repeats: a pass of a legal run that persists the reason already persisted, over a foreign
   * pod, has warned of the conflict exactly when its measurement failed, because the persisted reason is then the
   * measurement's and never the one the conflict warning compares with.
   */
  lemma ConflictWarnsAgainIff(m: Manager, start: World, log: seq<Event>, i: nat)
    requires Sound(start) && start.revisions != [] && Legal(m, start, log) && OneLife(start, log)
    requires i < |log| && log[i].Persisted? && Conflicted(PassAt(m, log[..i])) && PassAt(m, log[..i]).gate.Open?
    requires var w := WorldAt(start, log[..i]);
             w.cr.Some? && DegradedFor(w.cr.value.status) == DegradedFor(log[i].status)
    ensures PassAt(m, log[..i]).Busy?
    ensures PhantomConflict in PassAt(m, log[..i]).warnings <==> PassAt(m, log[..i]).outcome.Failing?
  {
    var w, p := WorldAt(start, log[..i]), PassAt(m, log[..i]);
    RunInvariant(m, start, log, i);
    Prefix(m, start, log, i);
    OneLifePasses(m, start, log, i);
    hide Sound, Legal, WorldAt, PassAt, Accepts;
    StatusReason(p);
    ConflictAgain(w, p, log[i]);
  }

  lemma ConflictAgain(w: World, p: Pass, e: Event)
    requires Remembers(w, p) && Rule(p, e) && e.Persisted? && Current(w, p) && Conflicted(p) && p.gate.Open?
    requires DegradedFor(w.cr.value.status) == DegradedFor(e.status)
    ensures PhantomConflict in p.warnings <==> p.outcome.Failing?
  {
    StatusReason(p);
    hide Desired, CurrentPairOf, StatusOf, Known, HoldsExactly, QueryPair, Owned;
    assert AlreadyDegraded(p.sw.status, PhantomConflict) <==> DegradedFor(p.sw.status) == Some(PhantomConflict);
  }

  // ----- Runs stopped at the gate --------------------------------------------------------------

  /** The number of maximal blocks of equal reason in `reasons`, a leading block equal to `first` not counted again. */
  function Blocks(first: Option<Reason>, reasons: seq<Option<Reason>>): nat {
    if reasons == [] then 0
    else
      var before := reasons[..|reasons| - 1];
      Blocks(first, before) + (if LastOf(first, before) == reasons[|reasons| - 1] then 0 else 1)
  }

  /** Every finished pass persisted, and each was stopped by the node gate or the missing PriorityClass. */
  ghost predicate OnlyGateStops(m: Manager, log: seq<Event>) {
    forall k :: 0 <= k < |log| ==>
      && !log[k].Ended?
      && (log[k].Persisted? ==> PassAt(m, log[..k]).Busy? && PassAt(m, log[..k]).gate.Blocked?)
  }

  /** Warnings so far are blocks so far plus what the pass in progress has already emitted. */
  ghost predicate InBlocks(w: World, p: Pass, first: Option<Reason>, log: seq<Event>) {
    && |WarnedReasons(log)| == Blocks(first, PersistedReasons(log)) + (if p.Busy? then |p.warnings| else 0)
    && (w.cr.Some? ==> DegradedFor(w.cr.value.status) == LastOf(first, PersistedReasons(log)))
  }

  lemma AppendedBlock(first: Option<Reason>, reasons: seq<Option<Reason>>, now: Option<Reason>)
    ensures Blocks(first, reasons + [now]) == Blocks(first, reasons) + (if LastOf(first, reasons) == now then 0 else 1)
  {
    assert (reasons + [now])[..|reasons|] == reasons;
  }

  /** A blocked pass persists the gate's reason and has warned exactly when that is news. */
  lemma BlockedVerdict(w: World, p: Pass, e: Event)
    requires Remembers(w, p) && Rule(p, e) && e.Persisted? && Current(w, p) && p.gate.Blocked?
    ensures DegradedFor(e.status) == Some(p.gate.reason)
    ensures |p.warnings| == if DegradedFor(w.cr.value.status) == DegradedFor(e.status) then 0 else 1
  {
    hide Desired, CurrentPairOf, Settled, Recorded;
  }

  lemma StepKeepsBlocks(m: Manager, w: World, p: Pass, e: Event, first: Option<Reason>, log: seq<Event>)
    requires Sound(w) && w.revisions != [] && Remembers(w, p) && Accepts(w, e) && Rule(p, e)
    requires InBlocks(w, p, first, log)
    requires Apply(w, e).lastUid == w.lastUid && (p.Busy? && w.cr.Some? ==> Current(w, p))
    requires !e.Ended? && (e.Persisted? ==> p.Busy? && p.gate.Blocked?)
    ensures InBlocks(Apply(w, e), Observe(m, p, e), first, log + [e])
  {
    hide Sound, Remembers, Rule, Blocks, WarnedReasons, PersistedReasons, Disturb, Learn, DegradedFor;
    AppendedReasons(log, e);
    HistoryGrows(w, e);
    if e.Persisted? {
      PersistedIsBusy(w, p, e);
      PatchMeetsBase(w, p, e);
      BlockedVerdict(w, p, e);
      AppendedBlock(first, PersistedReasons(log), DegradedFor(e.status));
    } else {
      WarningsOfPass(m, p, e);
    }
  }

  /**
   * Warning events are reason transitions: over any run of passes stopped at the gate, each persisting its
   * status, the controller has emitted exactly one warning per maximal block of equal persisted reason.
   */
  lemma {:induction false} WarningsAreTransitions(m: Manager, start: World, log: seq<Event>, i: nat)
    requires Sound(start) && start.revisions != [] && start.cr.Some? && Legal(m, start, log) && i <= |log|
    requires OnlyGateStops(m, log) && OneLife(start, log)
    ensures InBlocks(WorldAt(start, log[..i]), PassAt(m, log[..i]), DegradedFor(start.cr.value.status), log[..i])
    ensures PassAt(m, log[..i]).Idle?
            ==> |WarnedReasons(log[..i])| == Blocks(DegradedFor(start.cr.value.status), PersistedReasons(log[..i]))
    decreases i
  {
    hide Sound, Remembers, Accepts, Rule, Apply, Observe, InBlocks, Legal, WorldAt, PassAt, WarnedReasons, DegradedFor;
    hide OneLife, Current;
    var first := DegradedFor(start.cr.value.status);
    if i > 0 {
      var before, e := log[..i - 1], log[i - 1];
      WarningsAreTransitions(m, start, log, i - 1);
      RunInvariant(m, start, log, i - 1);
      Prefix(m, start, log, i - 1);
      Advance(m, start, log, i - 1);
      OneLifePasses(m, start, log, i - 1);
      OneLifePasses(m, start, log, i);
      StepKeepsBlocks(m, WorldAt(start, before), PassAt(m, before), e, first, before);
      assert before + [e] == log[..i];
    } else {
      assert log[..0] == [];
      NoBlocks(m, start);
    }
    if PassAt(m, log[..i]).Idle? { BlocksWhenIdle(WorldAt(start, log[..i]), first, log[..i]); }
  }

  lemma NoBlocks(m: Manager, start: World)
    requires start.cr.Some? && start.revisions != []
    ensures WorldAt(start, []) == start && PassAt(m, []) == Idle
    ensures InBlocks(start, Idle, DegradedFor(start.cr.value.status), [])
  {
  }

  lemma BlocksWhenIdle(w: World, first: Option<Reason>, log: seq<Event>)
    requires InBlocks(w, Idle, first, log)
    ensures |WarnedReasons(log)| == Blocks(first, PersistedReasons(log))
  {
  }
}
