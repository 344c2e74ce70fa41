# Symbiont verification model

Symbiont keeps one "phantom" pod per ShadowWorkload. The phantom runs nothing; its resource requests follow the
measured footprint of a workload outside Kubernetes, so that the scheduler sees that footprint. This project models the
controller that keeps the phantom, and proves what it may and may not do.

The files follow the program.

| file | what it holds |
|---|---|
| `Api.dfy`, `Shadow.dfy`, `Sources.dfy`, `Backend.dfy`, `Nodes.dfy` | the resource, the arithmetic and pod of `internal/shadow`, the source compiler and the query pair of `internal/sources` |
| `PromQL.dfy` | an independent semantics of the PromQL fragment the compiler emits: string literals, matchers, selectors, regular expressions, globs |
| `Escaping.dfy`, `Globs.dfy`, `Compiler.dfy` | compilation preserves meaning |
| `Validation.dfy`, `Origins.dfy` | which sources resolve and which URLs have an origin, as grammars |
| `Binary64.dfy`, `Saturation.dfy` | binary64 rounding to nearest, and the exact line between samples that convert and samples that saturate an int64 |
| `Reservation.dfy` | bounds, hysteresis and the amortised number of resizes |
| `Naming.dfy`, `DestinationPolicy.dfy`, `Metrics.dfy` | phantom names, the origin policy, the Recorder as a ledger |
| `MergePatch.dfy` | the status patch: only what differs from the status that was read is written |
| `Protocol.dfy` | the API server around one ShadowWorkload, its environment, the events of a run, and the rule the controller keeps at every single API call |
| `Safety.dfy` | what holds in every run that keeps the rule |
| `Provenance.dfy`, `Reports.dfy` | what stands behind every write, every query and every field of a persisted status, told from the answers a run has seen |
| `Warnings.dfy`, `Amortised.dfy` | the warnings of a whole run told from the reasons it persists; how often a phantom can be resized |
| `Witnesses.dfy` | concrete legal runs that show where a promise has to carry a condition |
| `ApiServer.dfy`, `Passes.dfy`, `Controller.dfy` | the server as the client sees it, and `Reconcile` with its helpers, proved to keep the rule |
| `Convergence.dfy` | whole runs: the disturbances end, two calm passes settle the phantom, later ones leave it alone |

How the protocol is modelled. A World holds the ShadowWorkload, its specs by generation, the whole write history of the
phantom key, the nodes, the PriorityClass and what the metrics backend would answer. A run is a log of events: steps of
the environment (spec edits, foreign pods at the phantom's name, pod deletion, label stripping, resource edits, node,
PriorityClass and backend changes, deletion of the ShadowWorkload and its recreation under a new uid) and single API
calls with their outcomes. Environment steps may come between any two calls. Pod reads go through a label-filtered cache
that may lag any number of writes behind; create collisions are resolved past the cache; deletes carry a uid precondition
and resizes a resource version; the status patch is a merge patch (section 2 of RFC 7396) that goes by name alone. Any
call may be refused, and any write may take effect while its response is lost. `Reconcile` is an imperative method over a
mutable server whose disturbances are a finite script; it is proved for every script, so each property holds for every
interleaving, and the empty script is calm weather.

Where the code and its documentation disagree, the model follows the code:

* The docker source is documented as the cgroup id prefix `/system.slice/docker-`
  (`internal/sources/sources.go:90-96`, `api/v1alpha1/shadowworkload_types.go:115`). The first dot of the pattern is not
  escaped, so an id such as `/system-slice/docker-` is picked too. `Compiler.DockerPrefixIffDot` says exactly when a
  picked id has the documented prefix.

What a reader may not expect, each with its exact condition and a concrete input:

* The window pattern (`internal/sources/sources.go:102`, `api/v1alpha1/shadowworkload_types.go:203`) admits windows that
  are no PromQL range, such as `1.5m`, `5s1h`, `1m1m` and `0s`; the CPU and memory queries then do not parse while the
  health query does. `Compiler.ResolvedMeansDescribed`, `Compiler.FractionsAreUnreadable`,
  `Compiler.TwoCountsAreReadIff`.
* A newline or U+FFFD in a target label compiles to three queries no PromQL parser reads. `Escaping.LabelRoundTrip`,
  `Compiler.NewlineTargetIsUnreadable`.
* A standing foreign pod is warned of on every poll while the measurement fails as well: the persisted reason is then the
  measurement's, so the conflict is a different reason each time. `Warnings.ConflictWarningsAreTransitionsIff`,
  `Witnesses.ConflictWarnsTwice`.
* A status patch holds the fields in which the new status differs from the one the pass read, and goes by name. When it
  meets a ShadowWorkload recreated since, that one reports the predecessor's phantom exactly when the pass saw a phantom
  whose name or reservation the status it read did not show. `Safety.ReportsOnBlank`, `Safety.LastTruthFailsIff`,
  `Witnesses.PatchOnAnotherLife`.
* A phantom that lost its label and got it back between the collision and the uncached read is deleted although it is
  canonical again, because that read does not look at the label. `Safety.DeletesStrays`,
  `Witnesses.CanonicalPodIsDropped`.

## Model

| member | source | states |
|---|---|---|
| Convergence.Run | internal/controller/shadowworkload_controller.go:118-302 | From any sound world, through any script of disturbances, refused calls and lost responses, the log keeps every rule and the updates counter equals the accepted creates and resizes the controller heard of since the workload was last gone; once the weather is calm and hospitable, n passes settle the phantom, and two suffice for a steady phantom, a truthful status, and reserved gauges that show its requests in cores and bytes |
| Convergence.Drain | internal/controller/shadowworkload_controller.go:118-302 | Every run outlives its disturbances with rules and ledger intact |
| Convergence.GaugesAreAmounts | internal/controller/shadowworkload_controller.go:265-272 | After a calm pass over its phantom the two reserved gauges of the workload show, in cores and in bytes, what the first container of the live pod asks for |
| Reports.HospitableIff | internal/controller/shadowworkload_controller.go:158-259 | The weather in which the phantom settles, in plain terms: declared node live and Ready, PriorityClass there, source resolving at a URL in the policy, good answers, no pod of another controller in the way |
| Convergence.CalmPasses | internal/controller/shadowworkload_controller.go:213-302 | Calm passes take as many writes as the phantom was away from steady (at most two), then write no pod ever again while the status stays truthful; goal, spec and everything outside pod and status are unchanged |
| Convergence.CalmPassDescends | internal/controller/shadowworkload_controller.go:213-259 | One calm pass brings the phantom exactly one step closer to steady, writes once per step, and keeps the world hospitable and the goal fixed |
| Convergence.CalmStepDescends | internal/controller/shadowworkload_controller.go:213-259 | The ranking measure: create or in-place resize is one step, a misplaced or unlabelled phantom is two, and the step is the identity exactly at rank zero |
| Convergence.SteadyIff | internal/controller/shadowworkload_controller.go:213-259 | Rank zero is exactly: under the workload's own controller reference, labelled, pinned to spec.node, and within threshold percent of the clamped measurement in both dimensions |
| Convergence.RunsAreAmortised | internal/controller/shadowworkload_controller.go:481-521 | For every log the reconciler produces: a phantom led by growing readings under one update policy is resized k times only if (1+t/100)^k times the floor area fits under the ceiling area |
| Amortised.GrowingReadingsAreAmortised | internal/controller/shadowworkload_controller.go:481-521 | The same for every legal log and any number of passes, from the create on |
| Amortised.ResizesAreAmortised | internal/controller/shadowworkload_controller.go:481-521 | The bound for any stretch of a legal log over one phantom in which every resize goes up, whatever else happens in it |
| Amortised.LifeGrowsArea | internal/controller/shadowworkload_controller.go:481-521 | k resizes of such a stretch grow the live reservation's area by at least (1+t/100)^k and keep it inside the bounds |
| Convergence.FollowBackend | internal/controller/shadowworkload_controller.go:118-302 | A calm run whose backend changes its answers, one pass after each, writes exactly the pods of the pure sequence of calm steps and changes nothing but them and the status; led from nothing by growing measurements it writes one create and k resizes only if (1+t/100)^k times the floor area fits under the ceiling area |
| Convergence.RunsAreSafe | internal/controller/shadowworkload_controller.go:118-302 | Foreign-pod safety, fail-closed resizing and the truth of Ready, for every event of every log the reconciler produces, whether or not responses arrive |
| Controller.Reconciler.Reconcile | internal/controller/shadowworkload_controller.go:118-302 | One pass keeps the rules, the ledger balance and all other workloads' series under any script; it returns an error exactly when its last API call failed; it returns neither error nor requeue only when the ShadowWorkload is gone and its series are erased; in calm weather it takes exactly one calm step and the reserved gauges end at what the live pod holds, or, with the gate shut, it reports why and touches nothing else |
| Controller.Reconciler.Track | internal/controller/shadowworkload_controller.go:128-302 | A pass over a present ShadowWorkload ends in an error exactly when its last API call failed, and otherwise in a retry after one nanosecond or on its poll interval, never with a zero requeue; in calm weather it is the poll interval, except after a visible pod was dropped from the wrong node |
| Controller.Reconciler.Gate | internal/controller/shadowworkload_controller.go:158-202 | Node gate, then PriorityClass gate; a shut gate is reported under the reason of the first gap, and measurement starts only when both are open |
| Controller.Reconciler.GateOnNode | internal/controller/shadowworkload_controller.go:163-184 | Eligible exactly when NodeEligible says so of the node read; otherwise the first reason is kept and a warning emitted only on a transition |
| Controller.Reconciler.GateOnPriorityClass | internal/controller/shadowworkload_controller.go:186-202 | A missing PriorityClass blocks the pass; an API error ends it |
| Controller.Reconciler.Measure | internal/controller/shadowworkload_controller.go:310-385 | The outcome is the judgement of the backend's answers; only an accepted pair yields a reading, every other outcome leaves it at zero, and the Recorder hears exactly the footprint with its stamp, or the one failure |
| Controller.Reconciler.RecordMeasurement | internal/controller/shadowworkload_controller.go:360-384 | Snapshot, with its time, and source description advance together, for the generation measured; the gauges and the stamp follow |
| Controller.Reconciler.CountSuccess | internal/controller/shadowworkload_controller.go:360-362 | The measured gauges are set and the success stamped, in that order |
| Controller.Reconciler.RejectAnswer | internal/controller/shadowworkload_controller.go:333-358 | A refused answer is counted under its bounded reason, degrades the pass and warns every time |
| Controller.Reconciler.EnsurePhantom | internal/controller/shadowworkload_controller.go:213-259 | Create, refuse, drop, or resize as the cache shows; every way on leaves the pass settled, every way out is an error or a positive requeue, the Recorder hears of exactly the accepted write or the rejected resize, and the calm effect is exactly the calm step |
| Controller.Reconciler.ManageMissing | internal/controller/shadowworkload_controller.go:221-231 | A phantom the cache does not show is created, or the unlabelled pod in its place dropped; either is the calm step |
| Controller.Reconciler.ManageVisible | internal/controller/shadowworkload_controller.go:232-259 | A visible pod is refused when foreign, deleted under its uid when misplaced, and otherwise resized exactly on drift |
| Controller.Reconciler.CreateOrRecoverPhantom | internal/controller/shadowworkload_controller.go:536-577 | A create holds exactly the desired pair on the declared node; a collision is recovered from without touching a foreign pod |
| Controller.Reconciler.ResolveCreateConflict | internal/controller/shadowworkload_controller.go:441-476 | Never returns no conflict with a zero result: either the pod is foreign and untouched, or the pass ends with an error or a positive requeue |
| Controller.Reconciler.DropNoncanonical | internal/controller/shadowworkload_controller.go:463-475 | The owned unlabelled pod is deleted under the uid that was read; a uid mismatch requeues at once, a failure is an error, and a pod that is gone, by this delete or before it, requeues on the poll interval |
| Controller.Reconciler.DeleteStale | internal/controller/shadowworkload_controller.go:237-253 | The misplaced pod is deleted under the uid that was observed; a uid mismatch requeues at once, other failures are errors |
| Controller.Reconciler.ResizeIfDrifting | internal/controller/shadowworkload_controller.go:481-521 | A resize is tried exactly when the pass is healthy and the requests lie more than threshold percent from the desire in some dimension; the pass ends settled and, in calm weather, healthy |
| Controller.Reconciler.ResizePhantom | internal/controller/shadowworkload_controller.go:390-410 | All containers are patched together under the version that was read; the observation follows only an accepted patch |
| Controller.ReshapeContainers | internal/controller/shadowworkload_controller.go:394-401 | The loop leaves requests and limits of every container at exactly the desired pair |
| Controller.Reconciler.Refresh | internal/controller/shadowworkload_controller.go:265-272 | Currents and reserved gauges are refreshed exactly when this pass observed the phantom |
| Controller.Reconciler.SetConditions | internal/controller/shadowworkload_controller.go:274-294 | Ready and Degraded are complementary, carry the first failure's reason, and are stamped with the generation read |
| Controller.Reconciler.Persist | internal/controller/shadowworkload_controller.go:265-302 | The patch sent goes from the status the pass read to the function of what it learned that the rules demand; in calm weather that is the status afterwards |
| Controller.Reconciler.Conclude | internal/controller/shadowworkload_controller.go:296-305 | The pass is an error exactly when its status was not accepted, and otherwise comes back at once after a re-pin, else on its poll interval |
| Controller.Reconciler.WarnOnDegradedTransition | internal/controller/shadowworkload_controller.go:429-435 | A warning is emitted exactly when the persisted Degraded reason is another one |
| Controller.Reconciler.Forget | internal/controller/shadowworkload_controller.go:118-127 | A vanished workload has no series left and its ledger is balanced at zero; other workloads keep theirs |
| Controller.Locals.SetDegraded | internal/controller/shadowworkload_controller.go:151-156 | The first failure of a pass wins |
| Passes.PollInterval | internal/controller/shadowworkload_controller.go:579-585 | The declared interval when it is positive, thirty seconds otherwise; always positive |
| Passes.VisibleVerdict | internal/controller/shadowworkload_controller.go:255-259 | Over a visible phantom at home a pass is healthy exactly when it measured, and a resize is due exactly on drift |
| Passes.CreateVerdict | internal/controller/shadowworkload_controller.go:536-577 | Creating after a cache miss is within the rules and raises no new trouble |
| Passes.ResizeSettles | internal/controller/shadowworkload_controller.go:496-516 | An accepted resize to the goal leaves nothing due |
| Passes.BlockedReports | internal/controller/shadowworkload_controller.go:274-294 | A pass stopped at the gate persists the gate's reason and changes no other status field |
| Passes.FinishedPassApproaches | internal/controller/shadowworkload_controller.go:261-302 | A finished calm pass leaves Ready=True with the reservation, measurement and source of the live pod and the current generation |
| ApiServer.Server.GetPod | cmd/main.go:203-211 | The label-scoped cache shows some revision, labelled, possibly late; in calm weather the live pod if it is labelled |
| ApiServer.Server.DeletePod | internal/controller/shadowworkload_controller.go:237-250 | A delete takes effect only on the live pod with the given uid; a failure may hide success |
| ApiServer.Server.ResizePod | internal/controller/shadowworkload_controller.go:402-405 | A resize takes effect only on the version that was read and keeps every other field; a failure may hide success |
| ApiServer.Server.CreatePod | internal/controller/shadowworkload_controller.go:550-571 | A create takes effect only on a free key, otherwise it collides; a failure may hide success |
| Safety.ForeignPodsAreNeverHit | internal/controller/shadowworkload_controller.go:223-255 | In every run, every pod a delete or resize hits has at that moment the controller reference of the ShadowWorkload its pass read: its name, its uid, the kind ShadowWorkload and the API version, whether or not the response arrives |
| Safety.ForeignPodSurvives | internal/controller/shadowworkload_controller.go:441-476 | A pod with no controller, or one of another kind or API version, or a ShadowWorkload no pass of the run read, stays live and unchanged until the environment itself touches it |
| Safety.OwnershipIsExclusive | internal/controller/shadowworkload_controller.go:523-529 | A pod belongs to the ShadowWorkload whose name and uid its controller reference holds, under the kind and API version of the resource, and to no other |
| Safety.DeletesStrays | internal/controller/shadowworkload_controller.go:237-253 | When the cache showed the key as it was, a pod the pass then deletes was unlabelled or on the wrong node at that moment, or had not been there at all |
| Witnesses.CanonicalPodIsDropped | internal/controller/shadowworkload_controller.go:441-476 | A legal run that deletes an owned, labelled pod on the right node: unlabelled when the cache was read, it got its label back between the collision and the uncached read |
| Safety.WriteHitsOwned | internal/controller/shadowworkload_controller.go:390-410 | A swap between read and write makes the uid precondition or the optimistic lock fail |
| Safety.RunInvariant | internal/controller/shadowworkload_controller.go:118-302 | Everything a pass has learned stays true of the server's history under any interleaving |
| Safety.StepRemembers | internal/controller/shadowworkload_controller.go:118-302 | Each event keeps that invariant |
| Safety.ReadyNeverLies | internal/controller/shadowworkload_controller.go:274-294 | Whenever Ready=True is persisted, the pass holds an owned, correctly pinned phantom whose requests lie, in both dimensions, within threshold percent of a fresh clamped measurement |
| Safety.StatusTellsLastTruth | internal/controller/shadowworkload_controller.go:261-272 | The persisted reservation, once set, was really held by some phantom of the workload, as long as no patch reports a phantom anew to a ShadowWorkload recreated since the read; in every run an observing pass persists exactly what it read or had accepted, any other what it started from |
| Safety.LastTruthFailsIff | internal/controller/shadowworkload_controller.go:296-298 | Over a ShadowWorkload that has had no phantom yet a patch breaks the last truth exactly when it lands on another life than its pass read and that pass saw a phantom whose name or reservation the status it read did not show |
| Safety.PatchMeetsBase | internal/controller/shadowworkload_controller.go:296-298 | A patch that meets the ShadowWorkload its pass read is accepted and writes exactly the status the pass computed |
| Safety.ReportsOnBlank | internal/controller/shadowworkload_controller.go:296-298 | Any other patch lands on a blank status, and reports a phantom there exactly when its pass saw one that the status it read did not show |
| Witnesses.PatchOnAnotherLife | internal/controller/shadowworkload_controller.go:296-298 | A legal run in which a pass that read a blank status sees its phantom, the ShadowWorkload is deleted and recreated, and the patch makes the new one report the reservation of its predecessor's phantom |
| Safety.PassBegan | internal/controller/shadowworkload_controller.go:118-127 | Every pass works from a ShadowWorkload the server had when the pass began |
| Safety.SnapshotsCohere | internal/controller/shadowworkload_controller.go:360-384 | Over any spec edits, as long as no patch brings a measurement to a ShadowWorkload recreated since the read, the persisted source description is that of the spec at the snapshot's generation, which never exceeds the current one and never goes back during one life |
| Safety.ResizeNeedsTrust | internal/controller/shadowworkload_controller.go:332-359 | A phantom is resized only after a complete valid pair, or a fully absent pair whose pinned target answered exactly one 1 |
| Safety.BlindPassKeepsReservation | internal/controller/shadowworkload_controller.go:204-211 | A pass without a measurement that sees its phantom at home writes no pod and persists the requests it read |
| Safety.GateStopsWrites | internal/controller/shadowworkload_controller.go:158-202 | A pass stopped at the gate touches no pod |
| Safety.WritesAreGuaranteed | internal/controller/shadowworkload_controller.go:390-410 | Every accepted create and resize sets requests equal to limits on every container, inside the bounds of the spec used |
| Provenance.WritesMatchMeasurement | internal/controller/shadowworkload_controller.go:204-211 | Every created or resized pod reserves on each container one pair: after a measurement the closest inside the spec's bounds to what the two answers call for in whole millicores and bytes, without one the floor; a created pod is owned, labelled, pinned to the declared node and has one container |
| Provenance.WriterSawReadyNode | internal/controller/shadowworkload_controller.go:158-202 | Every pass that writes a pod has seen the declared node present, not terminating and with True as its first Ready condition, and the PriorityClass present |
| Reports.ConditionsAreReported | internal/controller/shadowworkload_controller.go:274-294 | Past the gate both conditions say, for the generation read, the first trouble in order: nobody asked, answers refused, foreign pod, pod on another node, resize rejected; and Ready only when there is none |
| Reports.GateIsReported | internal/controller/shadowworkload_controller.go:158-202 | A pass the gate stopped reports the gap its own read showed, and changes nothing but the conditions |
| Reports.ReadyReasonIs | internal/controller/shadowworkload_controller.go:481-576 | Resized is reported exactly when the pass heard of a resize, PhantomCreated exactly when it heard of a create |
| Reports.ReservationIsReported | internal/controller/shadowworkload_controller.go:261-272 | A pass that holds its phantom reports the phantom's name and the requests of its first container, any other leaves both alone |
| Reports.SnapshotIsReported | internal/controller/shadowworkload_controller.go:360-384 | A pass that measured persists the generation it read, the second of the answer, the two samples in whole nanocores and bytes, whether there were samples, and the description of the source; any other leaves them alone |
| Reports.ResizeIsStamped | internal/controller/shadowworkload_controller.go:502-516 | lastResize moves exactly when the pass heard of an accepted resize, to the second of it |
| Reports.MeasurementIsCounted | internal/controller/shadowworkload_controller.go:318-362 | The Recorder hears the two samples and the stamp, or the one bounded reason the answers failed for, which is source_missing when nobody was asked |
| Safety.ReservationStaysWithin | internal/shadow/phantom.go:103-123 | With the same bounds in every pass and no stranger reserving, the reservation stays inside them for the whole run |
| Warnings.WarningsByReason | internal/controller/shadowworkload_controller.go:333-358 | Every warning of a run is accounted for by reason: node and PriorityClass reasons once per transition of the persisted reason, refused answers and rejected resizes once per pass that persists them, a foreign pod once per transition and once more for each pass that is blind while the last reason is no conflict, anything else never; a pass that returns without writing status adds what it owed against the reason persisted before it |
| Warnings.WarningsAreTransitions | internal/controller/shadowworkload_controller.go:429-435 | Over runs of gate-stopped passes the warnings emitted equal the maximal blocks of equal persisted reason |
| Warnings.ConflictWarningsAreTransitionsIff | internal/controller/shadowworkload_controller.go:429-435 | Conflict warnings of a run are the transitions into the conflict exactly when no pass failed its measurement over a foreign pod while the last persisted reason was another, and none that owed one returned without writing status |
| Warnings.ConflictWarnsAgainIff | internal/controller/shadowworkload_controller.go:232-236 | A pass of a legal run that persists the reason already persisted has warned of a foreign pod exactly when its measurement failed |
| Witnesses.ConflictWarnsTwice | internal/controller/shadowworkload_controller.go:232-236 | A legal run of two passes that persist the same reason and both warn of the same foreign pod |
| Backend.AcceptedIff | internal/sources/sources.go:344-370 | A pair is accepted exactly when complete and valid, or absent with a healthy target where one is pinned; an absent pair reads as zero |
| Backend.RefusedBecause | internal/sources/sources.go:258-370 | Which of the five errors a refused pair gets, told from the shape of the answers: CPU first, memory only when CPU is readable, then presence, validity and the pinned target |
| Compiler.CompiledTextSumsDeclaration | internal/sources/sources.go:127-227 | The emitted texts parse exactly when the target labels are free of newlines and U+FFFD and the window is a PromQL range, and then they sum over that range the rate of container_cpu_usage_seconds_total and the average of container_memory_working_set_bytes, each over exactly the series the spec declares |
| Compiler.ResolvedMeansDescribed | internal/sources/sources.go:127-227 | Every typed source that resolves compiles to queries that parse to the job and instance Describe reports, CPU and memory with one matcher list and one range; health parses exactly for labels free of newlines and U+FFFD, CPU and memory exactly when moreover PromQL reads the window |
| Compiler.WholeCountIsReadIff | internal/sources/sources.go:102-104 | A whole count of one unit is a valid window, and PromQL reads it exactly when it is positive and fits |
| Compiler.TwoCountsAreReadIff | internal/sources/sources.go:102-104 | Two counts are a valid window whatever their units, and PromQL reads them exactly when the units fall and the sum is positive and fits |
| Compiler.FractionsAreUnreadable | internal/sources/sources.go:102-104 | No window with a fraction, which validation admits, is a PromQL range |
| Compiler.FractionalWindowIsUnreadable | internal/sources/sources.go:200-221 | A resolving spec with window 1.5m whose CPU and memory queries do not parse while its health query does |
| Compiler.NewlineTargetIsUnreadable | internal/sources/sources.go:200-233 | A resolving spec with a newline in its target none of whose queries parses |
| Compiler.SelectionIsDeclaration | internal/sources/sources.go:161-227 | The compiled selector picks a series of its metric exactly when its job is the declared one, or cadvisor where none is declared, its instance the declared one, and its id one the declaration asks for |
| Compiler.DescriptionNamesTheSeries | internal/sources/sources.go:60-84 | What status describes is what is measured: the declared type, the job and instance of every series, and the cgroup path whose glob matches are the ids |
| Compiler.RawQueriesPassThrough | internal/sources/sources.go:134-141 | A raw PromQL source is asked for in its author's own words, with no target to check |
| Validation.ResolvesIff | internal/sources/sources.go:127-221 | A source resolves exactly when the block of its type is there and window, unit or path, and instance are what the grammars ask for |
| Validation.RejectedFor | internal/sources/sources.go:127-221 | What is wrong with a source that does not resolve, in the order in which block, type, unit or path, window and instance are looked at |
| Validation.WindowGrammar | internal/sources/sources.go:102-102 | The window check accepts exactly one or more counts in a row: digits, perhaps a point and digits, and ms, s, m or h |
| Validation.UnitGrammar | internal/sources/sources.go:103-103 | The unit check accepts exactly a non-empty stem of the admitted characters followed by .service or .scope |
| Validation.PathGrammar | internal/sources/sources.go:104-104 | The path check accepts exactly a slash and one or more admitted characters with no two slashes in a row |
| Compiler.CgroupSelectionKeepsDepth | internal/sources/sources.go:168-198 | Every picked id has as many slashes as the declared path |
| Compiler.HealthQueryIffTyped | internal/sources/sources.go:127-158 | The health query is non-empty exactly for typed sources |
| Compiler.DockerPrefixIffDot | internal/sources/sources.go:95-96 | An id the docker pattern picks has the documented prefix exactly when its eighth character is a dot |
| Compiler.DockerPatternPicksAStranger | internal/sources/sources.go:95-96 | An id without that prefix which the pattern picks |
| Compiler.HostQueriesReadBack | internal/sources/sources.go:175-198 | The emitted text of the three queries parses back to exactly the intended matchers and range, under exactly those conditions |
| Compiler.SelectorReadsBack | internal/sources/sources.go:175-198 | A selector's text parses to its metric and three matchers, exactly when both target labels are free of newlines and U+FFFD |
| Compiler.ValidWindowChars | internal/sources/sources.go:102-104 | A window that passes validation can hold no character that would end the range |
| Globs.GlobPatternMeaning | internal/sources/sources.go:175-198 | The anchored pattern accepts an id exactly when the glob does, with a star for any run of non-slash characters |
| Globs.SubstitutionHitsOnlyStars | internal/sources/sources.go:185-188 | After quoting, the textual substitution replaces exactly the images of stars |
| Globs.GlobKeepsSlashes | internal/sources/sources.go:168-173 | A glob match has exactly the path's slashes |
| Globs.StarlessGlobIsEquality | internal/sources/sources.go:168-173 | Without a star the glob is the id itself |
| Globs.DockerPatternMeaning | internal/sources/sources.go:95-96 | The ids the docker pattern picks, character by character |
| Escaping.TwoPassesAreOne | internal/sources/sources.go:229-233 | The two sequential replacements equal one character-wise escape |
| Escaping.LabelRoundTrip | internal/sources/sources.go:229-233 | In front of any text a string-literal lexer consumes exactly the literal and decodes it to the value, and fails exactly when the value holds a newline or U+FFFD |
| Escaping.LabelsAreDistinct | internal/sources/sources.go:229-233 | Different values never share a literal |
| Saturation.CpuLineIsExact | internal/sources/sources.go:372-378 | The CPU validator accepts a sample exactly when it is a finite non-negative number whose nanocore conversion in binary64 stays below 2^63 |
| Saturation.MemoryLineIsExact | internal/sources/sources.go:380-385 | The memory validator accepts a sample exactly when it is a finite non-negative number whose byte conversion stays below 2^63 |
| Saturation.MaxCpuIsOneStepDown | internal/sources/sources.go:372-378 | The CPU limit is the binary64 value just below the rounded quotient of 2^63 and 10^9 |
| Saturation.AcceptedReadingIsUsable | internal/sources/sources.go:344-370 | Every accepted pair consists of usable samples |
| Saturation.AcceptedReadingConverts | internal/shadow/phantom.go:87-101 | No conversion of an accepted reading saturates |
| Saturation.PairOfMonotone | internal/shadow/phantom.go:87-95 | A larger reading never converts to a smaller pair |
| Saturation.ConversionIsClose | internal/shadow/phantom.go:87-95 | A usable reading converts to the binary64 value nearest to its scaled CPU, rounded half up to whole millicores for the reservation and to whole nanocores for the status, and to whole bytes, rounded half up |
| Binary64.NearestIsNearest | internal/shadow/phantom.go:87-101 | The rounding used is to nearest: no representable value is closer (section 4.3.1 of IEEE 754-2019) |
| Binary64.NearestMonotone | internal/shadow/phantom.go:87-101 | It is monotone |
| Binary64.NearestIsBinary64 | internal/shadow/phantom.go:87-101 | Its result is representable |
| Binary64.NearestFixesBinary64 | internal/shadow/phantom.go:87-101 | It leaves representable values alone |
| Reservation.ClampMeaning | internal/shadow/phantom.go:107-123 | Clamping lands inside ordered bounds, in each dimension as close as anything inside them comes, fixes exactly what is inside, and is monotone |
| Reservation.CeilingWins | internal/shadow/phantom.go:114-123 | Where the bounds cross, the ceiling wins |
| Reservation.RepeatNeverFires | internal/shadow/phantom.go:130-146 | A reservation equal to the desire never drifts, whatever the threshold |
| Reservation.DriftBand | internal/shadow/phantom.go:130-146 | Drift fires exactly when, in some dimension, the desire lies outside threshold percent of the reservation on either side; a zero reservation moves for any positive desire |
| Reservation.RunGrowsArea | internal/shadow/phantom.go:130-146 | k resizes of a climbing run multiply the cpu-memory area by at least (1+t/100)^k |
| Reservation.AmortisedResizes | internal/shadow/phantom.go:103-146 | The bound on resizes for growing readings between fixed bounds |
| Shadow.ExactPodsReadBack | internal/shadow/phantom.go:223-236 | A pod built or resized at a pair reads back as that pair |
| Naming.PhantomName | internal/shadow/phantom.go:72-82 | At most 63 characters, with no slice out of range |
| Naming.PhantomNameIs | internal/shadow/phantom.go:72-82 | Up to 56 characters a name is only prefixed; a longer one is cut so that with a dash and its hash in lower-case hexadecimal, six digits at least, it fills 63 |
| Naming.HashIsFnv1a | internal/shadow/phantom.go:77-78 | The hash agrees with the published 64-bit FNV-1a values of the empty text and of the letter a |
| Naming.HashesInOrder | internal/shadow/phantom.go:77-78 | The hash takes the bytes from the left |
| Naming.SharedNameIff | internal/shadow/phantom.go:72-82 | When exactly two workloads share a phantom name |
| Naming.SuffixReadsBack | internal/shadow/phantom.go:72-82 | The eight-digit suffix determines the hash and holds no dash |
| Nodes.NodeEligible | internal/shadow/node.go:46-65 | The loop answers yes exactly for a present, non-terminating node whose first condition of kind Ready is True, and otherwise names the first gap: missing, terminating, not ready |
| DestinationPolicy.NewDestinationPolicy | internal/sources/destination_policy.go:46-67 | The loop builds the set of origins of all rules, or rejects exactly when one rule is bad or rules come with allow-any |
| DestinationPolicy.ValidateIffSameOrigin | internal/sources/destination_policy.go:72-84 | A safe URL passes exactly when everything is allowed or some rule has its canonical scheme, host and effective port (section 4 of RFC 6454, section 6.2.3 of RFC 3986) |
| Origins.OriginMeaning | internal/sources/destination_policy.go:86-141 | A URL has an origin exactly when it is plain HTTP or HTTPS with a canonical host and a port from 1 to 65535, and then this one: lower-case scheme, address or DNS name, port or the default of the scheme |
| Origins.DnsGrammar | internal/sources/destination_policy.go:126-141 | The host check accepts exactly labels of letters, digits and inner dashes joined by dots, 253 characters at most (section 2.1 of RFC 1123) |
| Origins.PolicyIsBuiltIff | internal/sources/destination_policy.go:46-67 | A configuration is accepted exactly when it does not mix rules with allow-any and every rule names an origin and no more |
| Origins.ValidateIffInPolicy | internal/sources/destination_policy.go:72-84 | A URL passes exactly when it has an origin and any origin is allowed or some rule has the same one |
| Provenance.QueriesStayInPolicy | internal/sources/sources.go:240-248 | In every run a backend is asked only for a source that resolves, at a URL with an origin, and only if the operator allowed any origin or named that one |
| Provenance.RefusedSourceIsReported | internal/controller/shadowworkload_controller.go:318-331 | A pass past the gate reports SourceInvalid exactly when its source does not resolve or its URL is outside the policy, and then it has asked nobody |
| DestinationPolicy.SpellingIsIgnored | internal/sources/destination_policy.go:86-141 | Letter case (with the two letters outside ASCII that fold into it), one trailing dot on the host and a spelled-out default port leave the origin unchanged |
| DestinationPolicy.KeyIsInjective | internal/sources/destination_policy.go:108-123 | The joined key determines the triple |
| DestinationPolicy.RulesAreASet | internal/sources/destination_policy.go:46-67 | Order and repetition of rules do not matter |
| DestinationPolicy.RulesInclude | internal/sources/destination_policy.go:46-67 | More rules are at least as strict to build and at least as permissive once built |
| DestinationPolicy.CanonicalIsFixed | internal/sources/destination_policy.go:126-141 | Canonicalisation is idempotent |
| Metrics.Recorder.ObservedMeasurement | internal/metrics/metrics.go:213-221 | Sets both measured gauges of one workload and nothing else |
| Metrics.Recorder.MeasurementSucceeded | internal/metrics/metrics.go:223-231 | Stamps one workload's last success in whole seconds; the zero time stamps nothing |
| Metrics.Recorder.SetReserved | internal/metrics/metrics.go:233-241 | Sets both reserved gauges of one workload and nothing else |
| Metrics.Recorder.ReservationUpdated | internal/metrics/metrics.go:243-249 | Adds one to one workload's updates counter and nothing else |
| Metrics.Recorder.MeasurementFailed | internal/metrics/metrics.go:253-258 | Adds one under a known reason; an unknown reason creates no series |
| Metrics.Recorder.RemoveShadowWorkload | internal/metrics/metrics.go:283-294 | The loop over all seven vectors leaves no series of the workload |
| Metrics.RemovalIsExact | internal/metrics/metrics.go:283-294 | Removal erases every series of exactly that namespace and name, and leaves every other series of all seven vectors as it was |
| Metrics.CallKeepsFaith | internal/metrics/metrics.go:213-294 | After every call the series of every workload are what its calls since its last removal say, and only declared label sets and reasons appear |
| Metrics.FailuresAreBounded | internal/metrics/metrics.go:253-258 | Whatever was called, failures are counted under the seven declared reasons and nothing else |
| Controller.Reconciler.Manage | internal/controller/shadowworkload_controller.go:204-259 | Measurement, clamp and phantom in one stretch: the Recorder hears of exactly one measurement outcome and then of exactly the write made |
| Controller.Reconciler.RejectSource | internal/controller/shadowworkload_controller.go:318-331 | An uncompilable source or a refused backend degrades the pass as SourceInvalid, is counted once, and emits no warning |
| Controller.Reconciler.Recover | internal/controller/shadowworkload_controller.go:550-565 | A collision ends in a refused foreign pod and a settled pass, or ends the pass |
| Controller.Reconciler.ReportConflict | internal/controller/shadowworkload_controller.go:232-236 | A foreign pod degrades the pass as PhantomConflict unless an earlier failure won, and is left alone |
| Controller.Reconciler.RecordCreate | internal/controller/shadowworkload_controller.go:566-576 | An accepted create adds one to the updates counter and readies the pass as PhantomCreated |
| Controller.Reconciler.RecordResize | internal/controller/shadowworkload_controller.go:502-516 | An accepted resize stamps lastResize, adds one to the updates counter and leaves a settled, healthy pass |
| Controller.Reconciler.RejectResize | internal/controller/shadowworkload_controller.go:496-501 | A rejected resize is counted, degrades the pass as ResizeRejected and warns every time |
| ApiServer.Server.GetWorkload | internal/controller/shadowworkload_controller.go:118-127 | The ShadowWorkload as it is, not found, or an error |
| ApiServer.Server.GetPodUncached | internal/controller/shadowworkload_controller.go:448-461 | Whatever is at the phantom key, past the cache |
| ApiServer.Server.PatchStatus | internal/controller/shadowworkload_controller.go:296-298 | The fields in which the new status differs from the base go to whatever ShadowWorkload has the name, if there is one and no half-filled object results; a failure may hide success |
| MergePatch.ChangesArrive | internal/controller/shadowworkload_controller.go:296-298 | Wherever a status patch lands, what the pass left alone stays and each plain field it changed arrives |
| MergePatch.NoHalves | api/v1alpha1/shadowworkload_types.go:258-276 | A status without a snapshot takes either no snapshot field or all five, and one without a source description takes one only with its type |
| Escaping.PromLabelIsCharwise | internal/sources/sources.go:229-233 | The literal is the character-wise escape between quotes |
| Compiler.MatcherReadsBack | internal/sources/sources.go:175-198 | One emitted matcher parses to its name, operator and value in front of any text, unless the value holds a newline or U+FFFD |
| Compiler.SumReadsBack | internal/sources/sources.go:175-198 | The sum query's text parses to its function, selector and range in milliseconds, exactly for readable labels and a window PromQL reads |
| Compiler.UpReadsBack | internal/sources/sources.go:223-227 | The health query's text parses to the target's two matchers |
| Reservation.GrowingReadingsClimb | internal/shadow/phantom.go:87-123 | Rounding then clamping keeps growing readings growing and inside the bounds |
| Metrics.EmptyIsFaithful | internal/metrics/metrics.go:127-162 | A new Recorder has no series |

## Left out

- Reservation.DriftBand: compares exact quantities where the code compares float64 values (`internal/shadow/phantom.go:135-146`), so at exactly the threshold the two can differ (1.0 to 1.1 at 10 percent fires in the code).
- Shadow.Product: past the largest finite binary64 the exact product stands in for infinity, and a negative zero is zero; neither is reachable from an accepted sample.
- DestinationPolicy.NewDestinationPolicy: starts from parsed URL components; `url.Parse` is not part of this model, and address parsing is a parameter whose canonical form is assumed to be lower-case text it maps to itself.
- DestinationPolicy.CanonicalIsFixed: rests on that assumption about addresses and on nothing else.
- Naming.SharedNameIff: CR names are taken as strings of one-byte characters; the hash is FNV-1a computed over them.
- PromQL: only the fragment the compiler emits is given a semantics; a raw PromQL source is passed through unread, `.` matches every character, newline included, a range is a duration with a unit, as in Prometheus before its experimental duration expressions, and U+FFFD in a string is taken for a decoding error, as its lexer does.
- Backend.Query: transport, timeouts, redirects and JSON decoding are outside; their outcome is a reply that is broken or a list of samples.
- Metrics.Recorder: collector registration and a nil Recorder are not modelled.
- Convergence.GaugesAreAmounts: the gauges hold exact amounts where the code converts them to float64.
- Controller.Reconciler.RecordResize: the clock is read when the answer arrives.
- Normal events, log lines, condition messages and condition transition times are not modelled; warning events are.
- Pod details: security context, images, annotations, container names and the pod's other labels are constants with no interesting property.
- BuildPhantomPod's only error, a failed owner reference lookup in the scheme, is not modelled.
- MergePatch: quantities are compared by value where the code compares their spelling, and conditions count as changed when a status, reason or generation changes, since messages and transition times are not modelled; both matter only for a patch that meets a ShadowWorkload recreated since the read. The merge patch of a resize is replaced by record update.
- Convergence.Run: the updates counter is compared with the writes the controller heard of; a write whose response is lost is not counted by the code either.
- Assumptions on the cluster: uids are never reused and keep their controller owner, deletes with grace period zero are immediate, there is one worker per ShadowWorkload, and the ShadowWorkload read at the start of a pass is fresh.
- Safety.StatusTellsLastTruth: the truth of the persisted reservation is promised only for runs in which no patch reports a phantom anew to a ShadowWorkload recreated since the read, because the patch carries neither uid nor resource version; Safety.LastTruthFailsIff shows that it is lost otherwise.
- Safety.SnapshotsCohere: promised only for runs in which no patch brings a measurement to a ShadowWorkload recreated since the read, for the same cause.
- Safety.ReservationStaysWithin: holds while nobody else puts or edits pods at the phantom's name; after a spec edit an existing pod may sit outside the new bounds until it drifts.
- Warnings.WarningsByReason: covers one life of the ShadowWorkload.
- Warnings.WarningsAreTransitions: covers one life, and runs of passes stopped at the gate that all write status; Warnings.WarningsByReason covers the others.
- Convergence.CalmPasses: hospitable weather includes that no foreign pod sits at the phantom's name; while one does, the controller rightly never gets there.
- Manager wiring, flags, charts, dashboards, packaging checks, generated deep copies and the watch predicates would only add easy members.
