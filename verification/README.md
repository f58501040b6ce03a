# FleetRollout: a verified model of the rollout engine

FleetRollout is a Kubernetes operator that rolls a pod template over a fleet of nodes wave by wave. It owns one
DaemonSet with the `OnDelete` strategy whose pods are born with a scheduling gate. A reconcile derives progress from
what the pods show, asks a health gate before it moves to the next wave, deletes the old pods of the current wave,
takes the gate off the new ones, and goes back to the last template that reached Done when a gate fails for too long.
Its only memory is a small persisted status.

This project models that engine and proves properties of its runs. It is meant to be read in this order.

- `Prelude`, `Api`, `Templates`: names and their order, the Kubernetes objects, and the injection that gates every pod.
  The template hash is a parameter of everything and nothing is assumed of it, not even that it is injective.
- `Waves`: wave size, slices, and the regular expression that scopes a gate query to one wave.
- `Gates`: one query, all queries, and the decision taken on them. A reply is an oracle: a config error, or for each
  query no answer or a vector of samples. Sample values include NaN and the infinities.
- `Engine`: one reconcile pass as a function from what it observes to the new status and the pods to delete and ungate.
  `PassProperties` and `GateProperties` say what one pass keeps, bounds and reports.
- `PlainTerms`: the same passes said in the fields of the objects they read and write, without the words of the modules
  above: which template is rolled out, which pods are touched, when a rollout completes, what is reported.
- `Controller`: the reconciler as it is written, with its classes, its loops and its updates in place. Every method is
  proved to compute what `Engine` says.
- `Protocol`: the distributed system. A reconcile is a sequence of API calls with a crash possible between any two,
  interleaved with node flaps, evictions, the DaemonSet controller, the scheduler, other owners of scheduling gates,
  the clock and spec edits. A write to a pod that is gone is ignored, an update of a pod that has changed is a conflict
  that ends the pass, and so is a status write after a spec edit. The DaemonSet controller may create a pod on any
  node, since the template's node selector carries only the match labels. A log records gate passes, releases,
  removals, latches (gate passes whose status was persisted), completions and rollbacks, each with what the pass that
  caused it observed. `Invariant` proves the inductive invariant; `Atomic` shows that a whole pass is
  one of the protocol's runs.
- `Runs`, `Stability`, `Outage`, `Timeouts`: what holds in every run. `Recovery`, `RollbackRecovery`: crashes leave no
  trace. `Convergence`: why a rollout and a rollback finish; `FairRuns`: that they do in every
  fair run of the protocol; `Finishing`: that from every reachable state there is such a run. `Examples`: runs, from an initial state, of what the documentation does not lead one to expect.

A pass reads the resource once and lists nodes and pods once. The protocol takes the observation of status, nodes, pods
and clock in one step. For the status this loses nothing, because only the controller writes it, one pass at a time.

## Where the code and its documentation differ

The model follows the code.

- `api/v1alpha1/fleetrollout_types.go:240-241` says the gates of all waves below `gatedWaves` have passed. When a wave
  is passed over because its nodes are not Ready or already updated, a gate is skipped, and no persisted pass
  latches it later. `Examples.LatchSkipsAWave` is such a run, `Stability.AllGatesBelowMarkPassedIff` is the exact condition for
  runs and `GateProperties.LatchIsContiguousIff` for one pass; `Stability.MarkMeaning` is what the mark does mean.
- `internal/controller/fleetrollout_controller.go:633` says an unhealthy signal must persist past the timeout. The clock
  runs from the anchor through outages and config errors, and one answered failure after it is enough:
  `Examples.OutageThenOneFailureRollsBack` is such a run. `Timeouts.UnhealthyPersistedIff` is when the documented reading
  holds: exactly when no persisted answer about that wave since the anchor was missing data. An answer seen by a pass
  that was cut before its status write leaves nothing behind and does not count.
- `internal/controller/fleetrollout_controller.go:651-656` reads as if any unparsable sample made a query unanswered.
  A failing sample read before it decides: `Gates.MalformedAfterFailureIsAnswered`, `Gates.SampleOrderIrrelevantIff`.
- Done may be written with no node updated, and says nothing of nodes outside the plan:
  `Examples.LatchSkipsAWave`, `PassProperties.UnplannedScheduledPodIsNeverTouched`.
- A stale pod that lost its gate but was never scheduled is never deleted
  (`PassProperties.UnscheduledStalePodIsNeverTouched`), so convergence needs released pods to be scheduled.
- The phase is not in lock-step with the mode: with no Ready nodes, or gated stale pods, a pass writes Progressing even
  during a rollback, and a final gate that waits keeps the previous phase.

## Model

| member | source | states |
|---|---|---|
| `Runs.ReleaseSafety` | internal/controller/fleetrollout_controller.go:319-340 | Under every interleaving, crash, node flap and spec edit, each release is of a pod as the pass observed it, and is one of: a Ready node of wave w of a plan for the template hash and generation the pass observed, all earlier waves up to date and, if gated and w > 0, a pass of this very plan's gate for wave w-1 or later recorded before; adoption of an unplanned Ready node with nothing planned pending and the final gate passed or absent; or a rollback to a hash other than the spec's that an earlier Done recorded, whose own final gate had passed if it was gated |
| `Runs.RemovalSafety` | internal/controller/fleetrollout_controller.go:383-413 | In every run, a pod is removed only if its hash is not the desired one, and then only as gated and unscheduled, or in the current wave of the observed spec's plan under the same conditions as a release, or going back to the desired hash, recorded by a Done that had earned it |
| `Runs.EveryRunningPodWasReleased` | docs/reconcile-design.md:47 | In every run, a pod bound to a node was released by the controller for an allowed reason, stamped from the same template then as now, and that template is the one its hash label names: neither first deploy, nor a joining node, nor a crash bypasses the waves |
| `Runs.RunKeepsInv` | api/v1alpha1/fleetrollout_types.go:207-285 | Every reachable state: plan non-empty, sorted, duplicate-free, 1 <= waveSize <= size, 0 <= gatedWaves <= total; anchor wave and time both set or both nil, with gatedWaves <= evaluatingWave < total and start <= now; a rollback implies a last-good with another hash and a plan whose final gate is not latched; last-good's hash is its template's; a gated pod has no nodeName |
| `Runs.ObserveIsNeverStuck` | internal/controller/fleetrollout_controller.go:546-576 | In every reachable state a pass can take its decision: nothing in the persisted status makes the timeout read or the wave arithmetic fail |
| `Invariant.StepKeepsInv` | internal/controller/fleetrollout_controller.go:130-251 | Each single API write, crash or environment step keeps the invariant, including the facts a half-done pass relies on and the correctness of the history |
| `Protocol.InitialInv` | api/v1alpha1/fleetrollout_types.go:287-333 | An empty status with no pods satisfies the invariant |
| `Stability.PlanIsImmutable` | api/v1alpha1/fleetrollout_types.go:207-238 | While the generation is unchanged, the plan's hash, nodes and wave size never change in any run, and gatedWaves never falls |
| `Stability.MarkMeaning` | internal/controller/fleetrollout_controller.go:580-585 | In every run gatedWaves is 0 exactly while no persisted pass of this plan saw a gate pass, and otherwise 1 + the highest wave whose gate such a pass saw pass |
| `Stability.PersistedPassIsBelowMark` | internal/controller/fleetrollout_controller.go:580-585 | In every run, a gate pass whose status was persisted lies below gatedWaves of its plan from then on |
| `Stability.AllGatesBelowMarkPassedIff` | api/v1alpha1/fleetrollout_types.go:240-243 | In every run, the documented reading of gatedWaves (every gate below it passed, in a pass that was persisted) holds exactly when none of the plan's gate passes was taken while a wave gatedWaves + 1 existed and had no Ready node left to update |
| `Stability.SkippedForGood` | api/v1alpha1/fleetrollout_types.go:240-243 | When a gate pass skips waves, none of the gates it skips is latched by any persisted pass of that plan, before or after |
| `GateProperties.GateWaveIsTheMarkIff` | internal/controller/fleetrollout_controller.go:364-381 | An unlatched gate that is consulted is that of wave gatedWaves exactly when that wave is the last or the next one has a Ready node not updated |
| `GateProperties.LatchIsContiguousIff` | internal/controller/fleetrollout_controller.go:580-585 | A passing gate raises the mark by exactly one under the same condition, which is visible before the pass |
| `Examples.LatchSkipsAWave` | api/v1alpha1/fleetrollout_types.go:240-243 | A run from an initial state after which gatedWaves is 2 although gate 0 was never passed, and Done is persisted with no node updated |
| `Stability.RollbackStartsForCause` | internal/controller/fleetrollout_controller.go:571-595 | In every run, the step that writes a new rollback has: policy OnFailure, a resolved config, every query answered, one by a failing sample, the timeout elapsed since an anchor persisted earlier under the same plan, and a completed last-good of another hash |
| `Stability.RollbackIsSticky` | internal/controller/fleetrollout_controller.go:158-168 | An entered rollback survives every reconcile, crash and environment step and every spec edit that leaves the template hash alone, and its last-good does not change |
| `Stability.NoOscillation` | internal/controller/fleetrollout_controller.go:158-168 | Between two changes of the template hash the mode changes at most once, from forward to rollback |
| `Stability.FinalLatchEndsGating` | internal/controller/fleetrollout_controller.go:320-326 | Once the final gate is latched, for the rest of the generation no gate is evaluated, none passes anew, Paused is not written and no rollback is set or starts, even if skipped nodes return and reopen earlier waves |
| `Stability.FullyLatchedPass` | internal/controller/fleetrollout_controller.go:364-381 | With the final gate latched in a reachable state, a pass evaluates no gate, keeps the plan and enters neither Paused nor a rollback |
| `Stability.FullyLatchedHasNoRollback` | internal/controller/fleetrollout_controller.go:539-543 | In a reachable state a plan with its final gate latched has no rollback set |
| `Timeouts.UnhealthyPersistedIff` | internal/controller/fleetrollout_controller.go:631-634 | Every rollback with a positive timeout goes back to a persisted pass that set the anchor at least the timeout before and stands unmoved; no persisted answer about that wave in between was healthy; and the unhealthy signal persisted, as documented, exactly when none of those answers was missing data |
| `Timeouts.AnchorHistory` | internal/controller/fleetrollout_controller.go:546-551 | In every run, every anchor was set at its own time by a persisted pass whose answer was not healthy, stands unmoved since, and no persisted answer about its wave since was healthy |
| `Timeouts.PassAnchor` | internal/controller/fleetrollout_controller.go:546-591 | An anchor after a pass was there before or is set by this pass at its own time, and a pass that leaves it there saw no healthy answer about its wave |
| `Timeouts.NewRollbackBegins` | internal/controller/fleetrollout_controller.go:737-749 | In every run, the step that writes a new rollback persists a pass whose rollback is due |
| `Examples.OutageThenOneFailureRollsBack` | internal/controller/fleetrollout_controller.go:631-634 | A run from an initial state in which the gate is asked during an outage, nothing is persisted until the timeout has elapsed, and the next answer, a failing one, rolls back |
| `Stability.StatusStep` | internal/controller/fleetrollout_controller.go:754-762 | The persisted status changes only by a status write of a pass that observed exactly that status, spec and generation |
| `Outage.OutageNeverEscalates` | internal/controller/fleetrollout_controller.go:631-649 | From any reachable moment, also paused or rolling back, unless a decision taken on usable data is in flight: while no gate question gets a usable answer, no gate passes, no rollback starts (one that is set is the old one) and Paused is not written anew, through any flap or edit |
| `Outage.NoDataStaysInWaveZero` | internal/controller/fleetrollout_controller.go:519-534 | With a gate always configured and never answered: no rollback, no Paused, gatedWaves 0, no last-good, and only wave 0 of a plan is ever released or (if scheduled) deleted |
| `FairRuns.EveryFairRunIsDone` | internal/controller/fleetrollout_controller.go:256-433 | Every run of the protocol whose passes complete, without a spec edit, with planned nodes Ready, passing or absent gates and a cooperative environment between observations, persists Done within two passes per planned node plus two, by a pass that saw every planned node updated |
| `FairRuns.EveryFairRunIsRolledBack` | internal/controller/fleetrollout_controller.go:439-506 | In every such run going back, through any spec edit that keeps the template hash, each pass after two per live node plus one persists RolledBack with every live target node updated on the last-good hash of the start |
| `FairRuns.CompletedStatus` | internal/controller/fleetrollout_controller.go:754-762 | In every run, what a completed pass decided from its observation is the persisted status from its write until the next decision |
| `Finishing.DoneIsReachable` | internal/controller/fleetrollout_controller.go:256-433 | From every idle reachable state that is not rolling back, with the planned nodes Ready and a passing or absent gate, the protocol has a run that leaves spec, generation, nodes and clock as they are and ends with Done persisted for those planned nodes, each of them updated on the spec's hash in the final state |
| `Finishing.RolledBackIsReachable` | internal/controller/fleetrollout_controller.go:439-506 | From every idle reachable state that is rolling back with a Ready target, the protocol has a run that leaves spec, generation, nodes and clock as they are and ends with RolledBack persisted and every live target node updated on last-good in the final state |
| `Finishing.RoundIsARun` | internal/controller/fleetrollout_controller.go:230-245 | A pass followed by a cooperative interval is a run: evicted pods vanish, the DaemonSet controller recreates them gated, released ones are scheduled and become Ready |
| `Finishing.RollbackRoundIsARun` | internal/controller/fleetrollout_controller.go:439-506 | The same going back, and the rollback, its last-good and the live nodes stay |
| `Convergence.ForwardConverges` | internal/controller/fleetrollout_controller.go:364-433 | With a fixed spec, planned nodes Ready, passing or no gates and a cooperative environment, Done is written with every planned node updated within two rounds per planned node plus one |
| `Convergence.ForwardRound` | internal/controller/fleetrollout_controller.go:364-433 | Each such round writes Done or strictly lowers the rank sum (stale 2, gated-current 1, updated 0) over the same plan, and the next round goes forward again |
| `Convergence.ForwardFromSecondRound` | internal/controller/fleetrollout_controller.go:230-245 | Rule A clears all gated stale pods in one round and never fires again under a cooperative environment |
| `Convergence.ForwardPassWorks` | internal/controller/fleetrollout_controller.go:383-427 | A forward pass that promotes with planned nodes pending deletes or ungates at least one planned pod |
| `Convergence.RollbackConverges` | internal/controller/fleetrollout_controller.go:439-506 | After two rounds per live target node plus one, every rollback pass writes RolledBack with every live Ready target node updated on the last-good hash |
| `Convergence.RollbackRound` | internal/controller/fleetrollout_controller.go:447-471 | The unbounded ungate loop and the capped delete loop together strictly lower the rank sum each round until it is zero |
| `Convergence.RollbackPassWorks` | internal/controller/fleetrollout_controller.go:447-471 | While a live target node is not updated, a rollback pass deletes or ungates some pod |
| `Convergence.RolledBackIff` | internal/controller/fleetrollout_controller.go:481-490 | A rollback pass writes RolledBack exactly when every live Ready target node is updated on the last-good hash |
| `Recovery.CrashTolerance` | internal/controller/fleetrollout_controller.go:383-433 | Any number of forward passes cut after any subset of their pod writes, with the status write lost, end in the same pods and plan as the uninterrupted run on the same nodes, clock and answers, provided those answers call for no rollback at the start |
| `RollbackRecovery.RollbackCrashTolerance` | internal/controller/fleetrollout_controller.go:447-471 | The same for rollback passes, unconditionally: cut anywhere, they end in the same pods |
| `RollbackRecovery.RollbackComesToRest` | internal/controller/fleetrollout_controller.go:447-471 | On a frozen cluster a rollback stops writing pods after at most one pass per pod, in a closed-form end |
| `RollbackRecovery.CutKeepsBackEnd` | internal/controller/fleetrollout_controller.go:447-471 | No subset of a rollback pass's writes changes that end |
| `Recovery.AtMostThreeActingPasses` | internal/controller/fleetrollout_controller.go:230-245 | On a frozen cluster whose gate answer calls for no rollback, pod writes stop after at most three passes (Rule A, delete, ungate), and pods and plan are then a closed-form function of the start |
| `Recovery.CrashesKeepEnd` | internal/controller/fleetrollout_controller.go:401-426 | No sequence of crashes changes the closed-form end, nor whether the gate calls for a rollback |
| `Recovery.NoRollbackNow` | internal/controller/fleetrollout_controller.go:737-749 | If the gate's answer, were it asked, calls for no rollback, a forward pass starts none |
| `Recovery.CutKeepsEnd` | internal/controller/fleetrollout_controller.go:401-426 | No subset of a pass's pod writes changes the closed-form end |
| `Recovery.AgainKeepsEnd` | internal/controller/fleetrollout_controller.go:754-762 | Neither does a whole pass with its status write |
| `Recovery.AskingTwice` | internal/controller/fleetrollout_controller.go:539-585 | Asking the same gate again on what the first asking left gives the same decision and the same plan |
| `Atomic.PassIsARun` | internal/controller/fleetrollout_controller.go:130-251 | From any idle reachable state, one whole reconcile pass is a run of the write-by-write protocol, so what is proved of passes holds of its runs |
| `Atomic.CutPassIsARun` | internal/controller/fleetrollout_controller.go:401-426 | So is a pass cut by a crash after any subset of its deletes and ungates, with its status lost |
| `PassProperties.ReportedProgress` | internal/controller/fleetrollout_controller.go:279-306 | What a forward pass reports is true of the cluster: the number of updated planned nodes, exactly which are skipped, the number of waves, and as current wave the first one not fully updated, or the total when it completes |
| `PassProperties.WaveOrder` | internal/controller/fleetrollout_controller.go:364-399 | A wave pass acts on the first wave with a Ready node not updated: all earlier waves' Ready nodes are updated, every touched pod is on a Ready node of exactly that wave, at most waveSize of them, and it never both deletes and ungates |
| `PassProperties.CurrentWaveExists` | internal/controller/fleetrollout_controller.go:365-371 | With a planned Ready node pending, an open wave exists and the search returns the first one: the default 0 is unreachable |
| `PassProperties.Conservation` | internal/controller/fleetrollout_controller.go:289-306 | Updated, pending and skipped partition the plan with multiplicity |
| `PassProperties.NothingPendingIff` | internal/controller/fleetrollout_controller.go:309-320 | Nothing is pending exactly when every wave is fully updated |
| `PassProperties.PassTouchesTheRightPods` | internal/controller/fleetrollout_controller.go:228-245 | In every mode a deleted pod is live and of another hash, an ungated pod is gated and of exactly the desired hash, Rule A deletes gated pods only, other deletes are of scheduled pods on Ready nodes, and no pod is both |
| `PassProperties.DisruptionBound` | internal/controller/fleetrollout_controller.go:458-471 | In every mode a pass deletes at most as many scheduled pods as the wave size in force |
| `PassProperties.DoneMeaning` | internal/controller/fleetrollout_controller.go:328-353 | On a completing pass: phase Done, every planned node is updated or not Ready, plan size minus updated equals the number of skipped nodes, no adopted pod is on a planned node, nothing is deleted, and last-good is the current base template |
| `PassProperties.ForwardCases` | internal/controller/fleetrollout_controller.go:256-433 | A forward pass holds, completes or acts on a wave; it is held exactly when a consulted gate does not promote, and then it writes no pod |
| `PassProperties.RollbackInOrder` | internal/controller/fleetrollout_controller.go:447-471 | A rollback pass releases exactly the gated last-good pods on live nodes; it deletes at most a wave's worth of scheduled stale ones, leaves none out before one it deletes in name order, and leaves any only when the cap is reached |
| `PassProperties.TakeStaleProps` | internal/controller/fleetrollout_controller.go:459-471 | The capped delete loop takes at most its budget, only replaceable pods, and nothing only if there is nothing to take |
| `PassProperties.UnscheduledStalePodIsNeverTouched` | internal/controller/fleetrollout_controller.go:230-236 | A stale pod that is ungated but not scheduled is touched by no pass in any mode |
| `PassProperties.UnplannedScheduledPodIsNeverTouched` | internal/controller/fleetrollout_controller.go:386-399 | Going forward, a scheduled pod on a node outside the plan is never touched, so Done says nothing of it |
| `GateProperties.TimeoutInSeconds` | internal/controller/fleetrollout_controller.go:572-591 | An answered failure of an asked, unlatched wave rolls back or pauses iff timeoutSeconds (300 if it is 0) have passed since its anchor, and waits iff they have not; it rolls back iff also the policy is OnFailure and last-good has another hash |
| `GateProperties.RollbackStartsIff` | internal/controller/fleetrollout_controller.go:580-595 | A pass enters a rollback exactly when a consulted, unlatched gate was answered in full with a failing sample, the timeout has elapsed since its anchor, the policy is OnFailure and last-good has another hash; and a running rollback is otherwise kept |
| `GateProperties.GateVerdict` | internal/controller/fleetrollout_controller.go:539-619 | Which reply, clock and status lead to each of the six verdicts of a consulted gate, each as an equivalence: among them, it waits exactly when some query is unanswered or an answered failure is younger than the timeout |
| `GateProperties.PausedIff` | internal/controller/fleetrollout_controller.go:596-607 | Paused is in the status after a pass exactly when a gate timed out without a rollback being due, or it was there before and a final gate merely holds |
| `GateProperties.DueNeedsAnEarlierAnchor` | internal/controller/fleetrollout_controller.go:546-576 | With a positive timeout, a rollback needs an anchor for the same wave already persisted under the same plan |
| `GateProperties.FinalLatchIsFinal` | internal/controller/fleetrollout_controller.go:540-543 | With gatedWaves = total, a pass evaluates no gate, pauses nothing and starts no rollback, whatever the nodes do |
| `Gates.EvalOneQuery` | internal/controller/fleetrollout_controller.go:679-735 | A query passes iff there is a sample and all are well-formed and satisfy op and threshold; it is answered iff it passes or some failing sample has only satisfying ones before it |
| `Gates.EvalPromQL` | internal/controller/fleetrollout_controller.go:651-673 | Reachable iff every query is answered, healthy iff every query passes, in spite of the early exit |
| `Gates.QueryOrderIrrelevant` | internal/controller/fleetrollout_controller.go:657-673 | Neither verdict depends on the order of the queries |
| `Gates.SampleOrderIrrelevantIff` | internal/controller/fleetrollout_controller.go:718-733 | A query's verdict is independent of sample order exactly when its vector does not mix a malformed sample with a failing one |
| `Gates.FirstOtherSampleDecides` | internal/controller/fleetrollout_controller.go:718-733 | The first sample that does not satisfy the query decides, whatever follows: failing, the query is answered; malformed, it is not |
| `Gates.MalformedAfterFailureIsAnswered` | internal/controller/fleetrollout_controller.go:651-656 | In any vector, a malformed sample after a first failing one leaves the query answered, and a failing one after a first malformed one leaves it unanswered |
| `Gates.ReplyTrichotomy` | internal/controller/fleetrollout_controller.go:635-649 | Every reply is exactly one of: no data, all passing, answered with a failure |
| `Gates.PassExcludesFail` | internal/controller/fleetrollout_controller.go:679-735 | No query both passes and fails |
| `Gates.CompareMeaning` | internal/controller/gatequery.go:35-52 | The six operators are the usual ones on numbers, any other operator is gt, and NaN satisfies ne alone |
| `Gates.OneOfThree` | internal/controller/gatequery.go:35-52 | Any two values other than NaN, infinities included, compare in exactly one of three ways, and the six operators agree with it |
| `Gates.InfinitiesBoundNumbers` | internal/controller/gatequery.go:35-52 | Every number lies strictly between the infinities |
| `Gates.NormalizeQueries` | internal/controller/gatequery.go:101-126 | The loop yields one entry per query of the spec, in order, with its own text, operator (gt if unset) and threshold (0 if unset), or the bare query alone as > 0 |
| `Gates.QueryListVerdict` | internal/controller/gatequery.go:108-125 | Over the gate's own list: it passes iff there is one reply per query and each holds data that all satisfies that query's own operator (gt if unset) and threshold (0 if unset); likewise exactly when it has no data and when it is answered failing |
| `Gates.BareQueryVerdict` | internal/controller/gatequery.go:104-107 | A bare query is asked alone and passes iff there is data and every sample is positive; likewise for no data and answered failing |
| `Gates.QueriesAreTheSpecs` | internal/controller/gatequery.go:104-125 | The queries asked are those of the spec, in order, under their own name or else their text |
| `Waves.WaveRegexRoundTrip` | internal/controller/gatequery.go:63-79 | For every plan and in-range wave, splitting the regular expression on unescaped bars and dropping escapes gives back the controller's slice, and its full-match language, under RE2's own meaning of dot, bar, backslash and the other operators, is exactly the slice |
| `Waves.WaveRegexElsewhere` | internal/controller/gatequery.go:66-73 | A wave size below 1 counts as 1, and a wave out of range gives the empty string |
| `Waves.WaveNodesRegex` | internal/controller/gatequery.go:65-79 | The loop computes the joined quoted slice, and the empty string out of range, for any wave size and wave |
| `Waves.WavesConcatenate` | internal/controller/fleetrollout_controller.go:309-310 | All waves in order are the plan |
| `Waves.WaveOfIndex` | internal/controller/fleetrollout_controller.go:309-310 | Planned node i is in wave i / size at offset i % size |
| `Waves.WavesDisjoint` | internal/controller/fleetrollout_controller.go:309-310 | No node is in two waves of a plan |
| `Waves.WaveSizes` | internal/controller/fleetrollout_controller.go:279-281 | Every wave but the last is full and none is empty |
| `Waves.ResolveWaveSize` | internal/controller/fleetrollout_controller.go:823-837 | For every count, percentage or unparsable value and n >= 1 the size is in [1, n] |
| `Waves.CountIsTheSize` | internal/controller/fleetrollout_controller.go:825-837 | A count k is the size as it is, capped at n; a negative one gives 1 |
| `Waves.PercentIsRoundedUp` | internal/controller/fleetrollout_controller.go:829-836 | A percentage p >= 1 gives p percent of n rounded up and capped at n, both bounds; zero or less gives 1 |
| `Waves.UnsetIsTwentyPercent` | internal/controller/fleetrollout_controller.go:826-828 | An unset size, as 0 or as the empty string, is 20 percent rounded up |
| `Waves.UnusableIsOne` | internal/controller/fleetrollout_controller.go:829-832 | A string without a percent sign, or without a number before it, gives 1 |
| `Waves.AtoiReadsDigits` | internal/controller/fleetrollout_controller.go:829 | The number before the percent sign is read in positional notation, after at most one sign, if it fits 64 bits |
| `Waves.AtoiRejectsTheRest` | internal/controller/fleetrollout_controller.go:829-832 | Anything else before the percent sign is no number |
| `Waves.PercentBoundsWaves` | internal/controller/fleetrollout_controller.go:825-837 | A percentage p >= 1 gives at most ceil(100/p) waves for any fleet size |
| `Waves.DefaultHasAtMostFiveWaves` | internal/controller/fleetrollout_controller.go:826-828 | An unset wave size gives at most five waves |
| `Templates.PodsAreBornGated` | internal/controller/template.go:71-89 | A pod created from a rendered template, whatever gates admission adds, is gated, unscheduled, aimed at its node and labelled with the hash of the template it runs |
| `Templates.TheSpecsTemplate` | internal/controller/template.go:33-57 | The template rolled out is the user's, or one container "agent" with spec.image and nothing else, and the hash compared is that template's |
| `Templates.ImageShown` | internal/controller/template.go:59-69 | The image shown is spec.image, else the first container's, else none |
| `PlainTerms.SyncFollowsSpec` | internal/controller/fleetrollout_controller.go:154-181 | In every run the DaemonSet is written with the spec's own template (its containers, other fields and labels, its hash as label, the selector and the wave gate), or with last-good's while a rollback from the spec's hash is on |
| `PlainTerms.DesiredHashIs` | internal/controller/fleetrollout_controller.go:158-168 | A pass wants the hash of the spec's template, or last-good's while rolling back from exactly that |
| `PlainTerms.RollsOutTheSpec` | internal/controller/fleetrollout_controller.go:261-278 | Going forward the plan is for the spec's template's hash and generation; a new one holds the Ready nodes, the size the spec resolves to and the image shown; a completing pass records that template, hash and image as last-good, and no other pass does |
| `PlainTerms.RuleAExactly` | internal/controller/fleetrollout_controller.go:230-245 | Gated live pods of another label, all of them and nothing else, are deleted first, in either mode, exactly when there is one |
| `PlainTerms.WaveWritesExactly` | internal/controller/fleetrollout_controller.go:383-427 | In wave w exactly the live bound pods of another label on its Ready nodes are deleted; if there are none, exactly the live gated pods of the right label there are ungated |
| `PlainTerms.WaveIsTheFirstOpen` | internal/controller/fleetrollout_controller.go:309-317 | All Ready nodes of earlier waves run a bound, Ready, live pod of the right label, and some Ready node of the wave does not |
| `PlainTerms.AdoptionExactly` | internal/controller/fleetrollout_controller.go:332-340 | A completing pass ungates exactly the gated pods of the right label on Ready nodes |
| `PlainTerms.RollbackWritesExactly` | internal/controller/fleetrollout_controller.go:447-471 | A rollback pass ungates exactly the gated last-good pods on Ready nodes and deletes live bound pods of another label there up to the cap, sparing one only at the cap |
| `PlainTerms.CompletesIff` | internal/controller/fleetrollout_controller.go:319-346 | Going forward, a pass completes exactly when every planned Ready node runs a bound, Ready, live pod of the right label and the final gate is absent, latched or passes now |
| `PlainTerms.EarlyPassReports` | internal/controller/fleetrollout_controller.go:200-207 | Without Ready nodes, or on Rule A, the phase is Progressing in either mode and plan and last-good stay |
| `PlainTerms.RollbackReports` | internal/controller/fleetrollout_controller.go:473-506 | A rollback pass reports how many live nodes run last-good, RolledBack iff all do and else RollingBack, and leaves plan, last-good and rollback alone |
| `PlainTerms.RollbackWaveTotal` | internal/controller/fleetrollout_controller.go:443-444 | The number of waves it reports is that of the live fleet at the live size |
| `PlainTerms.PhaseIs` | internal/controller/fleetrollout_controller.go:319-381 | Done is written by completing passes only and RolledBack by rollback passes only; a final gate that merely holds leaves them |
| `PlainTerms.ReportsGeneration` | internal/controller/fleetrollout_controller.go:151-152 | Every pass reports the generation it observed |
| `PlainTerms.ObservesReadyTargets` | internal/controller/fleetrollout_controller.go:183-198 | A pass works with exactly the Ready nodes that match the selector, each once, sorted |
| `Templates.RenderedTemplate` | internal/controller/template.go:71-89 | Reserved labels, node selector and gates are overwritten; containers, other labels and all other fields are the base's |
| `Templates.RenderDSTemplate` | internal/controller/template.go:75-89 | The field-by-field overwrite yields the rendered template |
| `Api.TargetMeaning` | internal/controller/fleetrollout_controller.go:855-874 | A bound pod is at its node; another aims at the node named by the first single-valued metadata.name field of the first affinity term that has one, or at none |
| `Api.WithoutWaveGate` | internal/controller/fleetrollout_controller.go:766-775 | No wave gate remains and every other gate keeps its multiplicity |
| `Api.UngateKeepsOtherGates` | internal/controller/fleetrollout_controller.go:769-775 | Filtering splits over concatenation at every point, so the kept gates keep their order; without a wave gate nothing changes |
| `Engine.EnsurePlan` | internal/controller/fleetrollout_controller.go:261-278 | A plan for the current hash and generation is kept as it is; otherwise a new one holds exactly the Ready nodes, unlatched and unanchored, with a wave size in range |
| `Invariant.PassMark` | internal/controller/fleetrollout_controller.go:580-585 | A pass moves the mark to one past the wave whose gate it saw pass, and otherwise not at all |
| `Controller.Reconciler.Reconcile` | internal/controller/fleetrollout_controller.go:130-251 | The whole reconcile leaves exactly the status and pods of the pass function, and the DaemonSet on the spec's own template, or on last-good's while rolling back from it |
| `Controller.Reconciler.ResolveRollback` | internal/controller/fleetrollout_controller.go:152-164 | Abandons exactly a rollback of another template or without last-good |
| `Controller.Reconciler.SyncDaemonSet` | internal/controller/fleetrollout_controller.go:165-181 | The DaemonSet gets the spec's own template field by field under its hash, or last-good's during a rollback |
| `Controller.Reconciler.ReadyNodeNames` | internal/controller/fleetrollout_controller.go:192-198 | The result holds exactly the nodes that are Ready and match the selector, in increasing order |
| `Prelude.LessMeaning` | internal/controller/fleetrollout_controller.go:198 | The order of names is that of byte strings: decided at the first difference, a proper prefix first |
| `Controller.SortNames` | internal/controller/fleetrollout_controller.go:198 | Sorting distinct names gives the one increasing enumeration of their set |
| `Controller.Reconciler.IndexPods` | internal/controller/fleetrollout_controller.go:215-236 | In whatever order pods are listed, the index maps each target node to its pod, and the found pods are exactly the live gated ones of another hash |
| `Controller.Reconciler.ReconcilePods` | internal/controller/fleetrollout_controller.go:199-250 | No nodes, Rule A, rollback or forward, as the pass function decides |
| `Controller.Reconciler.ReconcileForward` | internal/controller/fleetrollout_controller.go:256-433 | The in-place forward pass equals the forward function on status and pods |
| `Controller.Reconciler.CountProgress` | internal/controller/fleetrollout_controller.go:289-306 | The counters and the skipped list are those of the three classes |
| `Controller.Reconciler.CompleteRollout` | internal/controller/fleetrollout_controller.go:319-362 | The terminal branch: gate, hold, or adoption and Done with last-good recorded |
| `Controller.Reconciler.AdoptNodes` | internal/controller/fleetrollout_controller.go:332-340 | Over a map in any order, exactly the gated current pods of Ready nodes are ungated, each once and without a conflict |
| `Controller.Reconciler.CheckWave` | internal/controller/fleetrollout_controller.go:309-317 | True exactly when every Ready node of the wave is updated |
| `Controller.Reconciler.FindCurrentWave` | internal/controller/fleetrollout_controller.go:364-371 | The first open wave |
| `Controller.Reconciler.AdvanceRollout` | internal/controller/fleetrollout_controller.go:364-427 | Gate, hold or act, with the status of each |
| `Controller.Reconciler.SortWave` | internal/controller/fleetrollout_controller.go:383-399 | Splits a wave into exactly its replaceable and its releasable pods |
| `Controller.Reconciler.ActOnWave` | internal/controller/fleetrollout_controller.go:383-433 | Deletes if there is anything stale, else releases |
| `Controller.Reconciler.ReconcileRollback` | internal/controller/fleetrollout_controller.go:439-507 | The in-place rollback pass equals the rollback function on status and pods |
| `Controller.Reconciler.ReleaseLastGood` | internal/controller/fleetrollout_controller.go:447-456 | Ungates exactly the gated last-good pods on live nodes |
| `Controller.Reconciler.DeleteStale` | internal/controller/fleetrollout_controller.go:458-471 | Deletes exactly the first `size` replaceable pods in node order |
| `Controller.Reconciler.CountUpdated` | internal/controller/fleetrollout_controller.go:473-479 | The number of updated live nodes |
| `Controller.Reconciler.Gate` | internal/controller/fleetrollout_controller.go:536-619 | In place on the plan: latch, anchor, config hold and the four actions, as the gate function says |
| `Controller.Reconciler.OnGateHold` | internal/controller/fleetrollout_controller.go:737-752 | Records the rollback from the plan's hash, or persists the status as it is |
| `Controller.Reconciler.Ungate` | internal/controller/fleetrollout_controller.go:764-781 | The stored pod loses exactly the wave gate; no write without that gate or if the pod is gone; a changed pod is a conflict |
| `Controller.Reconciler.DeleteEach` | internal/controller/fleetrollout_controller.go:401-406 | Exactly the listed pods become terminating |
| `Controller.Reconciler.UngateEach` | internal/controller/fleetrollout_controller.go:415-420 | Exactly the listed pods lose the wave gate |

## Left out

- Conditions, events, log lines, metrics, requeue times, stuck-terminating messages and the stripping of legacy
  annotations: they decide nothing.
- Kubernetes client plumbing: caches, informers, retries, watches, predicates and manager setup. Lists are fresh when
  read; a stale informer cache is not modelled.
- HTTP, JSON, TLS and credentials of the gate, expansion of query templates and PromQL string quoting: an oracle gives
  the outcome. The regular-expression claim ends at the expression itself, and covers literals, escaped literals and
  top-level bars, which is all the encoder emits.
- The FNV hash and JSON marshalling: an uninterpreted function of the template.
- Rounding of floating-point numbers, in the comparison of samples and in the percentage of a wave size, and the
  narrowing of plan fields to 32 bits: numbers are exact and unbounded.
- The lists of conditions on nodes and pods: a ready flag each. The target selector: a target flag on each node.
- Pods that share a target node, and pods without one: at most one owned pod per target node, which is what the
  DaemonSet controller keeps up.
- Deletion of the FleetRollout, API errors other than a missing or changed object (a crash between two calls covers
  their effect), and a controller that loses leadership while still writing.
- A clock that goes backwards: it is monotone and counts whole seconds.
- Controller.Reconciler.Reconcile: promises its result when nobody else writes meanwhile; concurrent writers,
  conflicts and crashes are in `Protocol`.
- Recovery.CrashTolerance: is about a frozen cluster whose gate answer calls for no rollback; when it does, the run goes
  over to rollback passes and `RollbackRecovery.RollbackCrashTolerance` applies from there.
- Convergence.ForwardConverges: assumes between passes that deleted pods go, missing ones come back, released ones
  get scheduled and Ready, and planned nodes stay Ready; without that the code waits for ever. `FairRuns`
  assumes the same between the observations of a run, and `Finishing.RoundIsARun` shows these to be steps the
  environment can take.
- Convergence.RollbackConverges: makes the same assumptions and keeps the list of live nodes fixed.
- PassProperties.DisruptionBound: bounds deletes per pass; the code does not bound how many nodes are down at once over
  several rollback passes.
