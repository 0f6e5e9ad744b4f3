# A verified model of kubecloudscaler

kubecloudscaler scales Kubernetes workloads down and up by periods of the day, remembers what it found in
annotations of the workloads themselves, and puts it back when no period is active or when the scaler is
deleted. A Flow describes several such scalers at once: its controller shifts the periods of a flow by
per-resource delays and writes one child scaler per resource. This project models both controllers, the
code they share, and the caches and patches they rely on, and proves what they keep over whole runs.

Code that changes things in place is modelled by classes and methods (annotation maps, the in-memory copy of
a workload, the reconciliation context, the child store, the API server, the client cache, the slices of the
namespace manager). Each such method is proved equal to a function over values, and what the system promises
is proved about that function, mostly as an invariant over all runs.

| file | part of the system |
|---|---|
| Decimal, ClockText, Places, PeriodTypes, ResourceTypes, Prelude | numbers, times of day, places in nested lists and small types |
| Annotations, Strategies, ScalingRuns | recording, scaling and restoring one workload; runs of passes |
| Processor, ListingOrder | one call over the workloads of one resource type; the order of its listing |
| Periods, ActivePeriod | when a period is active; which period a pass works with |
| Reconcile, ReconcileRuns, Reports | the handler chain of the K8s scaler controller; runs of passes; what a pass reports |
| Stranding, Witnesses | exactly when the steady-state skip goes wrong; concrete inputs |
| FlowTypes, FlowTime, FlowValidator, FlowMapper, FlowCreator, FlowProcessor, MentionOrder | the Flow compiler |
| FlowActivation, CompiledWindows, FlowWebhook, CrossMidnight | the compiled periods as the scaler reads them; the admission webhook's check; windows across midnight |
| Finalizers | optimistic-locked merge patches among other writers |
| ClientCache, Namespaces | the GCP client cache; the namespace cache and its in-place filters |

`dafny verify dfyconfig.toml` checks the project.

## Main results

- **Originals survive every run.** Whatever the passes and whichever reads and updates fail, a stored workload
  shows its original or carries the text of its first original, and a stored restore brings exactly that back
  (`RunIsRecoverable`, `RestoreAfterAnyRun`, `ScaleAfterAnyRun`, and for whole clusters `RunKeepsOriginals`).
- **The steady-state skip is safe**, with an empty failed list, as long as the status writes of the down and up
  passes get through (`NoactionSkipIsSafe`); and over a run it is safe throughout exactly if no such pass changes a
  workload and loses its write (`RunIsSafeExactlyWhen`). What is left behind stays so exactly until a pass is asked
  to scale (`StaysUnmovedExactlyWhen`).
- **Deletion restores first**, and exactly when it is refused instead (`DeletionRestores`, `CleanupSucceedsExactlyWhen`).
- **Reported successes are true.** Whatever fails, every entry of the success list of a pass names a workload that
  shows what an active period of the spec asks for, and the lists name nothing else (`PassShowsSpec`, `PassReports`).
- **The Flow compiler keeps windows** modulo a day in every child of every flow that compiles, and its error classes
  are exactly user configuration against API, whatever the order maps iterate in (`CompiledWindow`,
  `CompiledActivation`, `ProcessFlow`, `ReconcileFlow`).
- **No other writer loses anything** to a finalizer patch under any interleaving, and the patch succeeds exactly if one
  of five attempts does (`RetryOnConflict`, `PatchAddFinalizer`, `OthersSurvive`).

## Where the code does not do what one would expect

Each of these is proved of the model of the code as it is.

- A failed status write after a down pass leaves the earlier "noaction" persisted; once the period is over, the
  skip is taken by every later pass and the workload stays scaled down with no failure on record
  (`LostStatusWriteStrands`; an input: `LostWriteAtNoon`).
- A restore that the API rejects is listed as failed, and never tried again while "noaction" stays active
  (`RejectedRestoreIsNotRetried`; an input: `RejectedRestoreInTheEvening`).
- Without `restoreOnDelete`, a deletion is refused with a critical error exactly when the periods fail to load
  or the active one is a run-once period that already ran (`CleanupSucceedsExactlyWhen`; an input:
  `DeletionRefusedAtNoon`).
- A missing auth secret is answered like a missing scaler: no error, no requeue. It is the one way in which a pass
  over a scaler goes quiet with its work undone (`GoesQuietExactlyWhen`).
- docs/content/docs/usage/period.md:178 says that a reversed weekday period also scales all day on the weekend.
  The code finds such a period inactive on every day that is not listed, reversed or not (`RecurringActiveWindow`).
- A flow window across midnight passes the webhook and the controller, but the child scaler refuses to load it on
  every day its day list matches, unless it ends at midnight (`CrossMidnightIsAdmittedAndNeverLoads`; an input:
  `NightNeverLoads`). The comment at internal/controller/flow/service/time_calculator.go:66-69 says so too.
- The webhook adds delays up as int64: a wrapped sum gets through, and the controller then rejects the flow
  (`WrappedSumSlipsThrough`). Without wrap-around one kind of resource is admitted by the one check and refused by
  the other (`WebhookImpliesController`).
- Two different flows can write the same child: names are joined with a dash (`NamesCollideExactlyWhen`).
- The exclusion filters compact an explicit namespace list in the caller's own array, so the second resource
  type of a scaler sees an empty namespace name, which selects every namespace, exactly when something had to be
  dropped (`SecondCallAgreesExactlyWhen`).
- README.md:160 lists `hpa` among the resource types; the registry of handlers (pkg/resources/resources.go:28-47)
  has none for it, so it ends as one failure of the whole type (`HpaHasNoHandler`).

## Model

| member | source | states |
|---|---|---|
| Decimal.AtoiOfFormatInt | pkg/k8s/utils/annotation_manager.go:184-206 | Printing an integer and reading it back with the sign, digit and range rules of the parser gives it back exactly when it fits in 64 bits, the minimum included; wider ones are rejected. |
| Decimal.Int32RoundTrip | pkg/k8s/utils/annotation_manager.go:170-206 | Print, parse as a wide int, narrow to 32 bits: the value survives for every int32, and only for those. |
| Decimal.ClampInt32 | pkg/k8s/resources/github_autoscalingrunnersets/adapter.go:194-206 | The saturating conversion is the nearest int32: it keeps order with every int32, and is exact exactly on int32. |
| Decimal.ToInt32 | pkg/k8s/utils/annotation_manager.go:184-206 | The narrowing conversion is congruent modulo 2^32 and lands in int32, which fixes it; it is the identity on int32 and on nothing else. |
| Decimal.WrapInt64 | internal/controller/flow/service/flow_validator.go:163-201 | A sum of durations wraps modulo 2^64 into int64, and is exact exactly within int64. |
| Annotations.ParseKeyIsExact | pkg/k8s/utils/annotation_manager.go:60-67 | Reading an annotation key into its kind loses nothing of its text. |
| Annotations.OwnKeysReadBack | pkg/k8s/utils/annotation_manager.go:40-57 | The keys the manager writes, and the ones KEDA and CNPG read, are pairwise different texts that read back as themselves. |
| Annotations.PrefixTestIsIsBookkeeping | pkg/k8s/utils/annotation_manager.go:60-67 | The prefix test that decides what is deleted holds of a text exactly when its key is one of the scaler's. |
| Annotations.AddAnnotations | pkg/k8s/utils/annotation_manager.go:40-57 | A nil map is replaced by a fresh one, any other is updated in place; the period is noted over whatever was noted before. |
| Annotations.StampedNotes | pkg/k8s/utils/annotation_manager.go:40-57 | Noting a period writes its type as its text and its zone only if it has one; an older zone stays otherwise, and no other entry changes. |
| Annotations.RemoveAnnotations | pkg/k8s/utils/annotation_manager.go:60-67 | The delete loop leaves the same map with exactly the foreign entries, whatever order it visits keys in. |
| Annotations.RecordOnce | pkg/k8s/utils/annotation_manager.go:170-179 | First write wins: an entry that is present survives, one that is absent is written, all others stay. |
| Annotations.AddIntAnnotations | pkg/k8s/utils/annotation_manager.go:170-179 | The counter is recorded under first-write-wins, nil as 0; nothing else but the period notes changes. |
| Annotations.AddBoolAnnotations | pkg/k8s/utils/annotation_manager.go:133-142 | The flag is recorded under first-write-wins. |
| Annotations.AddMinMaxAnnotations | pkg/k8s/utils/annotation_manager.go:72-91 | Both bounds are recorded, each under first-write-wins on its own. |
| Annotations.RestoreIntAnnotations | pkg/k8s/utils/annotation_manager.go:184-206 | A recorded counter comes back narrowed; a corrupt text is an error that leaves the map alone; otherwise all bookkeeping goes, also when nothing was recorded, which is reported. |
| Annotations.RestoreBoolAnnotations | pkg/k8s/utils/annotation_manager.go:147-167 | The same for a flag. |
| Annotations.RestoreMinMaxAnnotations | pkg/k8s/utils/annotation_manager.go:96-130 | The same for two bounds; already restored means that neither is recorded, and one corrupt bound fails the whole. |
| Strategies.ApplyIntReplicas | pkg/k8s/resources/base/strategies.go:77-109 | The method leaves in the copy, and reports, exactly what one pass over values says. |
| Strategies.ApplyMinMaxReplicas | pkg/k8s/resources/base/strategies.go:143-175 | The same for min/max bounds, with the accessors of HPAs, runner sets and ScaledObjects. |
| Strategies.ApplyBoolSuspend | pkg/k8s/resources/base/strategies.go:215-258 | The same for a suspend flag, with "up" refused where it is not supported. |
| Strategies.KedaPauseDown | pkg/k8s/resources/base/strategies.go:319-334 | Pausing records the bounds and sets the pause pair; the bounds themselves stay. |
| Strategies.KedaMinMaxScaling | pkg/k8s/resources/base/strategies.go:339-353 | Scaling records the bounds, removes the pause pair, and sets the bounds. |
| Strategies.KedaRestore | pkg/k8s/resources/base/strategies.go:356-374 | Restoring removes the pause pair only when something was recorded. |
| Strategies.ApplyKedaPause | pkg/k8s/resources/base/strategies.go:297-316 | A ScaledObject is paused on a down pass with a zero minimum, scaled on other down and up passes, restored on the rest. |
| Strategies.ApplyCnpgHibernate | pkg/k8s/resources/base/strategies.go:407-459 | The original hibernation is recorded before the switch is set; a restore writes "on" or deletes the key. |
| Strategies.ApplyScaling | pkg/k8s/resources/base/strategies.go:77-459 | Every strategy, through the common interface, does what one pass over values says. |
| ScalingRuns.DecodeOfEncode | pkg/k8s/utils/annotation_manager.go:60-206 | A recorded original decodes to itself in whatever other entries, for every strategy. |
| ScalingRuns.StoreKeepsRecoverable | pkg/k8s/resources/base/strategies.go:77-459 | One pass, of any kind and with any fate of its read and update, keeps the stored object recoverable. |
| ScalingRuns.RunIsRecoverable | pkg/k8s/resources/base/strategies.go:77-459 | From an untouched object, after any sequence of passes with any failures: clean with the original value, or carrying the text of the first original; foreign annotations as they were. |
| ScalingRuns.RestoreAfterAnyRun | pkg/k8s/resources/base/processor.go:152-187 | After any such run, a restoring pass never fails to parse, and once stored it leaves the first original, no bookkeeping, every foreign annotation; "already restored" is reported only of objects that show their original. |
| ScalingRuns.ScaleAfterAnyRun | pkg/k8s/resources/base/strategies.go:77-459 | After any run, a stored scaling pass shows its target, whatever came before, and the record is of the first original, not of the state it met; it fails exactly on "up" where that is not supported, and then stores nothing. |
| ScalingRuns.RestoredValues | pkg/k8s/resources/github_autoscalingrunnersets/adapter.go:165-221 | What the restored field is: nil comes back as 0 or false; a runner set comes back clamped, hence unchanged exactly when both bounds were set and in int32 range. |
| ScalingRuns.NothingRecordedIsRestored | pkg/k8s/utils/annotation_manager.go:184-206 | At every point of a run an object without a record shows its original. |
| ScalingRuns.RestoringLeavesNoRecord | pkg/k8s/resources/base/strategies.go:77-459 | A restoring pass leaves an object without a record alone, and one with a record without any. |
| ScalingRuns.KedaPausedExactlyAfterPause | pkg/k8s/resources/base/strategies.go:297-374 | Over every run from an unpaused object, the pause pair is present, with its two texts, exactly while the last stored action is a down pass with a zero minimum. |
| ScalingRuns.KedaPausingKeepsBounds | pkg/k8s/resources/base/strategies.go:319-334 | After any run, any number of pausing passes, stored or not, leave the bounds as they met them. |
| ScalingRuns.CnpgHibernationReturns | pkg/k8s/resources/base/strategies.go:407-459 | Over every run: a cluster without a record hibernates iff it did at first, although an original "off" comes back as an absent key; and a record always decodes to the first state. |
| Processor.ListResources | pkg/k8s/resources/base/processor.go:127-149 | It fails exactly if some namespace cannot be listed; otherwise an object is in the result exactly if some namespace's listing contains it and its name is asked for, or no names are given. |
| ListingOrder.TargetsKeepOrder | pkg/k8s/resources/base/processor.go:127-149 | The result is made of the asked items at all their places in the listings, each place once, in the order of the namespaces and of each listing. |
| Processor.ProcessResource | pkg/k8s/resources/base/processor.go:152-187 | Get, apply to the copy, update: one object ends as unread, failed, already restored, or stored with a success. |
| Processor.ProcessResources | pkg/k8s/resources/base/processor.go:96-124 | The loop does the objects in order and stops when the context is cancelled. |
| Processor.ProcessOneIsOnePass | pkg/k8s/resources/base/processor.go:152-187 | What one step stores is one pass of the run of that object, and nothing else changes. |
| Processor.ProcessKeepsTracked | pkg/k8s/resources/base/processor.go:96-124 | A call keeps every stored original recoverable, whatever is listed and whatever fails. |
| Processor.RestoringCleansOrReports | pkg/k8s/resources/base/processor.go:96-187 | After a restoring call every object it got to is clean or named in the failed list, a cancelled call reports a failure, and clean objects are not touched. |
| Processor.RestoringCleanChangesNothing | pkg/k8s/resources/base/processor.go:152-187 | A restoring call over clean objects stores nothing and reports no success. |
| Processor.ScalingLeavesRecord | pkg/k8s/resources/base/strategies.go:77-459 | A scaling pass that changes an object leaves a record of an original on it, for every strategy. |
| Processor.ScalingChangesLeaveRecords | pkg/k8s/resources/base/processor.go:96-187 | After a scaling call every stored object is as it was or carries a record, whatever fails. |
| Processor.ScalingReportsEveryItem | pkg/k8s/resources/base/processor.go:96-204 | A scaling call that is not cancelled reports each object once, as a success or as a failure. |
| Reports.ReportsExactly | pkg/k8s/resources/base/processor.go:152-204 | Every call: the success list is exactly the names of the items whose update was stored and reported so, the failed list exactly those that could not be read, scaled or updated, in order. |
| Reports.ScalingUpdatesOrFails | pkg/k8s/resources/base/processor.go:152-204 | In a scaling call every item that is reached is updated or fails, and not both. |
| Processor.UnlistedUntouched | pkg/k8s/resources/base/processor.go:96-124 | Objects that are not listed stay as they are. |
| ClockText.ParseOfFormat | internal/controller/flow/service/resource_creator.go:134-153 | Every time of day that is written is read back as itself. |
| ClockText.ParseClock | pkg/period/period.go:109-142 | A text that parses is a time within one day. |
| Periods.ValidDayNeverFails | api/common/validation.go:13-22 | A day name the admission check accepts is understood at activation time, on every weekday. |
| Periods.ValidDaysNeverFail | api/common/validation.go:84-104 | So an accepted day list never makes a period fail. |
| Periods.MatchesDay | pkg/period/period.go:166-181 | The day loop stops at the first match and at the first bad name. |
| Periods.OnDayIsFirstMatch | pkg/period/period.go:166-181 | Today is reached exactly when some listed day matches with no bad name before it, and missed exactly when all are understood and none matches. |
| Periods.DayNames | pkg/period/period.go:81-107 | A day name matches exactly the weekday whose three-letter abbreviation it starts with, in any case, or every day for "all"; it is refused exactly if it names none of the seven. |
| Periods.ValidDaysMatch | api/common/validation.go:84-104 | An accepted day list matches today exactly if one of its names means today. |
| Periods.TodaysWindow | pkg/period/period.go:183-207 | The start and the inclusive end on today, or the first of the errors in the order start, end, start after end. |
| Periods.IsPeriodActive | pkg/period/period.go:145-216 | The method computes the activity of a period at a clock: zone, day, window, reversal, errors in that order. |
| Periods.RecurringActiveWindow | pkg/period/period.go:145-216 | A well-formed recurring period is active exactly on listed days and strictly inside (start, last second of the end minute), or not inside when reversed; on other days never. On a listed day it reports those two ends and its run-once flag. |
| Periods.FixedActiveWindow | pkg/period/period.go:218-231 | A fixed period is active strictly between its first date and the last second of the other's minute, on every weekday and whatever its reverse flag; it fails exactly if the first is after that second. |
| Periods.CrossMidnightNeverLoads | pkg/period/period.go:198-207 | On a matching day the period fails to load exactly when its end lies before its start. |
| Periods.NewWithClock | pkg/period/period.go:29-79 | Bounds are defaulted and compared first; then activity; then the grace period; what the result carries is stated by LoadedPeriod. |
| Periods.LoadedPeriod | pkg/period/period.go:29-79 | A period loads exactly if its bounds are in order, its time part can be evaluated and its grace period parses; it then has the spec's own minimum or 1, the spec's own maximum or the minimum, the spec's type, name, time, zone and digest, and the ends and run-once flag of its time part. It is refused for its bounds exactly if they are out of order. |
| Periods.ZoneAndShape | pkg/period/period.go:40-47 | A fixed time wins over a recurring one, and the zone is the process's own where none is given. |
| ActivePeriod.FindActive | internal/utils/utils.go:66-79 | The scan stops at the first active period and at the first that fails to load. |
| ActivePeriod.SetActivePeriod | internal/utils/utils.go:54-95 | The selection for the old status, and the new status: replaced when a period is selected, untouched on run-once and on failure. |
| ActivePeriod.NoactionAlwaysLoads | internal/utils/utils.go:37-50 | The fallback period loads at every instant in every zone, asks for a restore, and is never run-once. |
| ActivePeriod.ScanStopsAt | internal/utils/utils.go:66-79 | There is one index up to which every period loads and is inactive, and the scan's result is what is found there. |
| ActivePeriod.ChoiceIsFirstActive | internal/utils/utils.go:54-79 | Without force: the first active period, else the fallback; loading fails exactly when some period fails before an active one. |
| ActivePeriod.ForcedRestoreSelectsNoaction | internal/utils/utils.go:54-95 | With force no period of the spec is looked at, and the fallback is selected, always. |
| ActivePeriod.SelectedIsFromSpec | internal/utils/utils.go:54-95 | Whatever is selected was loaded from the fallback, or, without force, from a period of the spec that is active. |
| Reconcile.ValidResourceList | internal/controller/k8s/service/handlers/scaling_handler.go:121-163 | The default applies to an empty list; the list is refused exactly when it mixes apps with HPAs. |
| Reconcile.MixedTypes | internal/controller/k8s/service/handlers/scaling_handler.go:121-163 | The refused mixtures are deployments or stateful sets with HPAs or ScaledObjects, and the default is deployments. |
| Reconcile.StatusHandle | internal/controller/k8s/service/handlers/status_handler.go:48-125 | During a deletion the finalizer goes; otherwise the period, or an empty one where there is none, is persisted with both result lists; each of the patch's fates ends as the code classifies it. |
| Reconcile.ScaleResources | internal/controller/k8s/service/handlers/scaling_handler.go:68-97 | The loop over resource types, with types that cannot be set up or fail as a whole reported as one failure each; what it reports otherwise is stated by PassReports. |
| Reconcile.ScalingHandle | internal/controller/k8s/service/handlers/scaling_handler.go:45-111 | Scaling and then the status step, also when the resource list is refused. |
| Reconcile.ResolveSelection | internal/controller/k8s/service/handlers/period_handler.go:116-156 | Which selections end the pass, with which error, delay and comment. |
| Reconcile.AfterSelection | internal/controller/k8s/service/handlers/period_handler.go:62-89 | The noaction skip and the rest of the chain, for a given selection. |
| Reconcile.PeriodHandle | internal/controller/k8s/service/handlers/period_handler.go:62-103 | Selection under restore-on-delete and deletion, then the above. |
| Reconcile.AuthHandle | internal/controller/k8s/service/handlers/auth_handler.go:96-138 | A failed authentication is critical and nothing follows; a missing secret is told apart from other failures. |
| Reconcile.FinalizerHandle | internal/controller/k8s/service/handlers/finalizer_handler.go:49-86 | No finalizer, no work: it is added before anything is scaled, and its absence during deletion ends the pass. |
| Reconcile.ReconcileScaler | internal/controller/k8s/scaler_controller.go:85-149 | The chain of handlers over a mutable context leaves the cluster, and answers the queue, as the pass function says; a critical "not found" is answered without an error. |
| ReconcileRuns.PassIsSelectionStep | internal/controller/k8s/scaler_controller.go:174-193 | A pass is its selection step, or changes nothing but the finalizer it may have added. |
| ReconcileRuns.SelectionStepFacts | internal/controller/k8s/service/handlers/period_handler.go:62-89 | What a pass reports is what it scaled with; the status it leaves names that period and its failures; workloads change only by scaling. |
| ReconcileRuns.PassScales | internal/controller/k8s/service/handlers/scaling_handler.go:45-111 | A pass changes workloads only by scaling with the period it reports. |
| Reports.KindReports | internal/controller/k8s/service/handlers/scaling_handler.go:68-97 | One type adds to the success list exactly the objects, under its type and their name, that its call updated, and to the failed list those that failed; or one failure of the whole type if the call could not be made or did not complete. |
| Reports.PassReports | internal/controller/k8s/service/handlers/scaling_handler.go:45-111 | Every pass: both lists contain exactly what the types add. |
| Reports.SuccessShowsTarget | internal/controller/k8s/service/handlers/scaling_handler.go:68-97 | Over tracked workloads: every entry of the success list of a scaling pass names a workload that shows the target of the period when the pass is done, also when types or objects are listed twice. |
| Reports.PassShowsSpec | internal/controller/k8s/scaler_controller.go:85-149 | A pass that scales does so with an active period of the spec, and every success names a workload that shows what that period asks for: its own minimum on down or maximum on up for deployments, both bounds for runner sets and ScaledObjects or the pause, suspension exactly on down for cron jobs, hibernation exactly on down for CNPG clusters. |
| Reports.PassSource | internal/controller/k8s/service/handlers/period_handler.go:116-156 | The period of a scaling pass was loaded from a period of the spec that is active, and never under restore-on-delete during a deletion. |
| ReconcileRuns.RunKeepsOriginals | internal/controller/k8s/scaler_controller.go:85-149 | Over every run of the controller, with any spec, any failures and any deletion, every workload of every type keeps its first original recoverable. |
| ReconcileRuns.RestoringCleansAll | internal/controller/k8s/service/handlers/scaling_handler.go:68-97 | A restoring pass that reports no failure leaves every managed workload clean. |
| ReconcileRuns.RestoringCleanKinds | internal/controller/k8s/service/handlers/scaling_handler.go:68-97 | A restoring pass over clean workloads changes none of any type and reports no success, however the API behaves. |
| ReconcileRuns.RestoringCleanKind | internal/controller/k8s/service/handlers/scaling_handler.go:68-97 | The same for one resource type, a type that cannot be set up or listed included. |
| ReconcileRuns.PassWritesStatus | internal/controller/k8s/service/handlers/status_handler.go:69-103 | With successful status writes, the status names the last period that was scaled with, by name, type, time and digest, with both its result lists. |
| ReconcileRuns.LostWriteKeepsStatus | internal/controller/k8s/service/handlers/status_handler.go:69-103 | A status write that does not get through leaves the whole status as it was. |
| ReconcileRuns.RestoringPass | internal/controller/k8s/service/handlers/scaling_handler.go:45-111 | A restoring pass without failures cleans every managed workload, and in any case keeps clean ones clean. |
| ReconcileRuns.RunIsSkipSafe | internal/controller/k8s/service/handlers/period_handler.go:183-188 | Over every run with a fixed resource set in which the down and up passes got their status writes through, whatever became of the others: a persisted noaction with no failures means that every managed workload is clean. |
| ReconcileRuns.NoactionSkipIsSafe | internal/controller/k8s/service/handlers/period_handler.go:62-89 | A pass of such a run that skips with no failure listed finds every workload showing its first original, and the skipped chain would have changed none. |
| ReconcileRuns.SkipChangesNothing | internal/controller/k8s/service/handlers/period_handler.go:183-188 | The skip changes nothing but the finalizer it may have added, and comes back after the success delay. |
| Stranding.SkipStaysSafeExactlyWhen | internal/controller/k8s/service/handlers/status_handler.go:69-103 | From a safe world, one pass leaves the skip unsafe exactly if, with noaction and no failure persisted, it scaled down or up, changed some managed workload, and lost its status write. |
| Stranding.RunIsSafeExactlyWhen | internal/controller/k8s/service/handlers/period_handler.go:183-188 | Over every run with a fixed resource set, the skip is safe after each event exactly if no pass was of that kind. |
| Stranding.CleanExactlyWhenSame | pkg/k8s/resources/base/processor.go:96-187 | Clean workloads are clean after a scaling pass exactly if it left every one of them as it was. |
| Stranding.ScalesExactlyWhen | internal/controller/k8s/service/handlers/period_handler.go:62-89 | While noaction is persisted, a pass scales exactly if it gets to selecting a period and selects one that is not noaction; otherwise workloads and status stay. |
| Stranding.StaysUnmovedExactlyWhen | internal/controller/k8s/service/handlers/period_handler.go:183-188 | For every sequence of passes after a persisted noaction: none scales exactly if none is asked to, and then workloads and status never move, whatever is listed as failed. |
| Stranding.LostStatusWriteStrands | internal/controller/k8s/service/handlers/status_handler.go:69-103 | A down pass whose status write is lost leaves the deployment scaled down, with its record and no failure in the status, over every later sequence of passes that are not asked to scale. |
| Stranding.RejectedRestoreIsNotRetried | internal/controller/k8s/service/handlers/period_handler.go:183-188 | A rejected restore is listed as failed; over every later sequence of passes that are not asked to scale it is not tried again, and the deployment keeps its scaled replicas. |
| Witnesses.LostWriteAtNoon | internal/controller/k8s/service/handlers/status_handler.go:69-103 | One input: a scaler of one deployment, a down period from 08:00 to 18:00, the status write of the pass at noon lost; after any number of working passes in the evening there are no replicas and nothing is reported. |
| Witnesses.RejectedRestoreInTheEvening | internal/controller/k8s/service/handlers/period_handler.go:183-188 | One input: the same scaler, with the update of the first evening pass rejected; after any number of working passes there are no replicas, and the failure stays listed. |
| Witnesses.DeletionRefusedAtNoon | internal/controller/k8s/service/handlers/period_handler.go:128-156 | One input: a run-once period that already ran and is active; however often the controller tries, the finalizer stays, the error is critical, and no workload is restored. |
| Witnesses.SelectionAt | internal/utils/utils.go:54-95 | What that scaler selects at noon and in the evening, from whatever status. |
| ReconcileRuns.CleanupRestoresFirst | internal/controller/k8s/service/handlers/period_handler.go:91-103 | With restoreOnDelete every cleanup pass, whatever the periods, scales with noaction, and then the finalizer goes exactly if its patch is stored. |
| ReconcileRuns.FinalizerLeavesOnlyInCleanup | internal/controller/k8s/service/handlers/status_handler.go:48-67 | Only a cleanup pass whose removing patch is stored takes the finalizer away. |
| ReconcileRuns.DeletionRestores | internal/controller/k8s/service/handlers/finalizer_handler.go:49-86 | After any run, the pass that takes the finalizer away under restoreOnDelete has run with noaction, and every managed workload shows its first original or a failure was recorded in that pass. |
| ReconcileRuns.CleanupSucceedsExactlyWhen | internal/controller/k8s/service/handlers/period_handler.go:128-156 | A cleanup pass whose patch would be stored removes the finalizer exactly with restoreOnDelete, or when the periods load and the chosen one is not a run-once period that already ran; otherwise the deletion is refused with a critical error and no workload changes. |
| ReconcileRuns.DigestStays | internal/utils/utils.go:81-92 | A digest in the status stays there over any passes that do not scale with another digest. |
| ReconcileRuns.RunOnceRunsOnce | internal/utils/utils.go:81-85 | Outside a deletion, with successful status writes: between two full passes with the same run-once digest lies a full pass with another one. |
| ReconcileRuns.RunOnceExitComesBack | internal/controller/k8s/service/handlers/period_handler.go:128-141 | The run-once exit changes nothing but the finalizer it may have added, and comes back five seconds after the end of the period, or after half a minute if that is past. |
| ReconcileRuns.GoesQuietExactlyWhen | internal/controller/k8s/scaler_controller.go:117-148 | For a scaler that stays there, a pass ends without an error and without coming back, and not by finalizing it, exactly if the auth secret is missing when the pass gets to it. |
| ReconcileRuns.ScalingPassEnds | internal/controller/k8s/service/handlers/status_handler.go:48-125 | A pass that scaled comes back a minute after its status was written, ten minutes after a patch that failed, and not at all when it finalized the scaler or the scaler is gone. |
| ReconcileRuns.EarlyExit | internal/controller/k8s/scaler_controller.go:117-148 | A pass that does not get to selecting a period changes at most the finalizer and scales nothing; for each reason, whether it reports an error and when it comes back. |
| ReconcileRuns.RefusedPass | internal/controller/k8s/service/handlers/period_handler.go:144-155 | A pass refused for its periods reports an error, scales nothing, and leaves the reason in the status exactly if that patch gets through. |
| ReconcileRuns.HpaHasNoHandler | pkg/resources/resources.go:28-47 | A scaler of HPAs changes nothing, for every period and every behaviour of the API, and reports one failure of the whole type. |
| FlowTime.BuildPeriods | internal/controller/flow/service/resource_creator.go:134-153 | The loop rewrites each period's times and leaves the rest of it, in order. |
| FlowTime.ShiftedClock | internal/controller/flow/service/resource_creator.go:134-153 | A time of day shifted by whole minutes, written and read back, is the shifted one modulo a day. |
| FlowTime.DurationOfRecurring | internal/controller/flow/service/time_calculator.go:70-95 | Equal ends are refused; otherwise the duration is the window, over midnight if the end is before the start. |
| FlowTime.DurationOfFixed | internal/controller/flow/service/time_calculator.go:70-95 | A fixed period must have its ends in order; equal ends are the user's error, reversed ones another. |
| FlowTime.RewrittenKeepsRest | internal/controller/flow/service/resource_creator.go:134-153 | Rewriting touches nothing of a period but its start and end times. |
| FlowTime.ChildFromTo | internal/controller/flow/service/resource_creator.go:134-153 | The child of a recurring window runs between the shifted ends modulo a day. |
| FlowTime.RewritingKeepsWindow | internal/controller/flow/service/time_calculator.go:40-95 | With window D and delays s and e: the child starts s later on the clock and its duration is D - s + e modulo a day, with multiples of a day as the one refused case. |
| FlowValidator.CreatePeriodsMap | internal/controller/flow/service/flow_validator.go:135-142 | The map holds the last definition of each name. |
| FlowValidator.NamedExactly | internal/controller/flow/service/flow_validator.go:135-142 | A name is found exactly if some period has it; with distinct names each period is found under its own. |
| FlowValidator.CheckDistinct | internal/controller/flow/service/flow_validator.go:68-101 | The uniqueness loop answers whether the names are pairwise different. |
| FlowValidator.ExtractFlowData | internal/controller/flow/service/flow_validator.go:46-66 | It succeeds exactly on distinct names, with exactly the mentioned resources and periods; the error says which kind of name was repeated. |
| FlowValidator.ValidateResourceDelays | internal/controller/flow/service/flow_validator.go:145-161 | No error exactly when every mention of the period leaves a window. |
| FlowValidator.ValidatePeriodTimings | internal/controller/flow/service/flow_validator.go:107-132 | No error exactly when every mentioned period is defined, has a duration, and fits all its mentions, whatever order the names come in; every error is the user's. |
| FlowMapper.ReadMention | internal/controller/flow/service/resource_mapper.go:153-192 | One mention extends the period list or stops the scan with its fault. |
| FlowMapper.DelaysExactly | internal/controller/flow/service/resource_mapper.go:195-228 | The delayed period of a mention is the mentioned period with the mention's own two delays, its start moved by the start delay and its end by the end delay; there is one exactly if the period is defined and all four texts parse. |
| FlowMapper.SeenKeyTellsPeriods | internal/controller/flow/service/resource_mapper.go:153-192 | The text key of the repeat check never confuses two periods of one resource. |
| FlowMapper.FindAssociatedPeriods | internal/controller/flow/service/resource_mapper.go:153-192 | The list is the in-order projection of the mentions of the resource, one entry each and no period twice; an error is the fault of some mention. |
| MentionOrder.OwnMentionsInOrder | internal/controller/flow/service/resource_mapper.go:153-192 | The mentions that become periods are all mentions of the resource, each once, in the order of the flow items and of the resources in each. |
| FlowMapper.MapResource | internal/controller/flow/service/resource_mapper.go:73-100 | A mapped resource is tied to exactly one declaration; otherwise the error says why it cannot be mapped. |
| FlowMapper.FoundIsDeclared | internal/controller/flow/service/resource_mapper.go:103-126 | The declaration that is found has the name; none is found exactly if there is none. |
| FlowMapper.DeclaredIsFound | internal/controller/flow/service/resource_mapper.go:103-126 | With distinct names, every declaration is the one found under its name. |
| FlowMapper.CreateResourceMappings | internal/controller/flow/service/resource_mapper.go:44-60 | The keys are exactly the requested resources, each mapped; or some resource cannot be mapped. |
| FlowMapper.MappedHasNoFault | internal/controller/flow/service/resource_mapper.go:73-192 | Being mapped and having a fault exclude each other, so mapping succeeds exactly when no resource has one. |
| FlowMapper.ValidatedMappingErrors | internal/controller/flow/service/resource_mapper.go:130-228 | After a successful validation, the mapping can only fail with an error of the user. |
| FlowCreator.ChildName | internal/controller/flow/service/resource_creator.go:162-171 | Never longer than the limit, and the plain joined name whenever that fits. |
| FlowCreator.LongChildName | internal/controller/flow/service/resource_creator.go:162-171 | A name that is too long keeps its first 242 characters, a dash, and the hash of flow and resource name joined by a NUL. |
| FlowCreator.ChildNamesDiffer | internal/controller/flow/service/resource_creator.go:162-171 | Within one flow, distinct resources whose names fit get distinct children. |
| FlowCreator.NamesCollideExactlyWhen | internal/controller/flow/service/resource_creator.go:162-171 | Across flows, names that fit are equal exactly for the same pair or when one flow's name continues the other's with a dash and the resources make up the difference. |
| FlowCreator.MergedTwice | internal/controller/flow/service/resource_creator.go:175-220 | Overlaying the same child twice is overlaying it once. |
| FlowCreator.MergedIsDesired | internal/controller/flow/service/resource_creator.go:175-220 | Whatever was stored: after an overlay the spec is the desired one and every desired label and annotation has its desired value; the owner of a stored child is not changed. |
| FlowCreator.MergedKeepsForeign | internal/controller/flow/service/resource_creator.go:175-220 | Foreign labels and annotations of a stored child survive. |
| FlowCreator.CreateOrUpdate | internal/controller/flow/service/resource_creator.go:175-220 | The stored child becomes the overlay, or stays, by the fate of the write; no other child moves; the error says whether the API accepted. |
| FlowCreator.CreateChild | internal/controller/flow/service/resource_creator.go:60-131 | The same for the child of one resource, under its kind and name, with the rewritten periods. |
| FlowProcessor.MappingIsUnique | internal/controller/flow/service/resource_mapper.go:73-100 | What a resource maps to is determined by the flow. |
| FlowProcessor.MappedIsTied | internal/controller/flow/service/flow_processor.go:90-113 | None of the three validation branches, of a missing K8s or GCP declaration and of an unknown type, is reachable for a mapped resource. |
| FlowProcessor.WriteOneMore | internal/controller/flow/service/flow_processor.go:74-84 | One more child leaves the ones already written, and the foreign ones, as they are. |
| FlowProcessor.ProcessResource | internal/controller/flow/service/flow_processor.go:90-113 | A user error exactly for a mapping without its declaration or of an unknown type, and then nothing is written; for a mapped resource the only error is the API's. |
| FlowProcessor.MapFlow | internal/controller/flow/service/flow_processor.go:52-73 | The phases before the loop succeed exactly on flows that compile, and fail only with errors of the user. |
| FlowProcessor.ProcessMappings | internal/controller/flow/service/flow_processor.go:74-84 | The loop, in any order: an error is the API's, every child reached is written as wanted, and no other child moves. |
| FlowProcessor.ProcessFlow | internal/controller/flow/service/flow_processor.go:52-87 | A user error exactly when the flow does not compile, and then no child was written; any other error is the API's; on success exactly the mentioned resources have their children, each stored with the spec the flow asks for now and labelled with the flow and the resource. |
| FlowProcessor.WrittenIsCurrent | internal/controller/flow/service/resource_creator.go:175-220 | A child that was written has the spec its flow asks for now and the two labels, whatever was stored before. |
| FlowProcessor.TargetIsCompiled | internal/controller/flow/service/resource_mapper.go:153-192 | For every flow that compiles: the child of a resource has one period for each of its mentions, in order, no two of the same name, each the one period of that name moved by that mention's own delays. |
| FlowProcessor.TargetIsDeclared | internal/controller/flow/service/resource_mapper.go:73-150 | A mentioned resource of a flow that compiles has exactly one declaration, on the side that is the kind of its child, and its child has that declaration's settings. |
| FlowProcessor.ProcessingAgainConverges | internal/controller/flow/service/flow_processor.go:52-87 | Processing again, after a run that stopped anywhere, ends where one full run would have; after a full run it changes nothing. |
| FlowProcessor.ShortNamesSeparate | internal/controller/flow/service/resource_creator.go:162-171 | When every child name fits, no child of the flow overwrites another. |
| FlowProcessor.ClassifyFlow | internal/controller/flow/flow_controller.go:103-166 | Critical exactly for user errors; success exactly when neither processing nor the status write failed. |
| FlowProcessor.ReconcileFlow | internal/controller/flow/flow_controller.go:103-166 | A pass is critical exactly for flows that do not compile and then changes no child; a recoverable verdict is owed to a status write or to an API write of a mentioned resource. |
| FlowActivation.ChildTexts | internal/controller/flow/service/resource_creator.go:134-153 | The child of a recurring period keeps everything but its two times, which read back as the shifted ones. |
| FlowActivation.ChildActivation | pkg/period/period.go:145-216 | On a matching day the child loads exactly when its shifted window stays inside one day, and then it is active in that window, or outside when reversed. |
| FlowActivation.SameDayChildIsShiftedParent | internal/controller/flow/service/resource_creator.go:134-153 | While it stays inside one day, the child's window is the parent's with each end moved by its delay. |
| CompiledWindows.CompiledWindow | internal/controller/flow/service/resource_creator.go:134-153 | For every flow that compiles and every mention of a recurring window of D minutes with delays s and e: the child the flow writes runs between the shifted ends on the clock, for D - s + e modulo a day. |
| CompiledWindows.CompiledActivation | pkg/period/period.go:145-216 | And on a matching day that child loads exactly when the shifted window stays inside one day, and is then active in it, or outside when reversed. |
| CompiledWindows.CompiledFixed | internal/controller/flow/service/resource_creator.go:134-153 | The child of a mention of a fixed period has its two dates moved by their own delays and cut to whole seconds. |
| CrossMidnight.OneIsAdmitted | internal/controller/flow/service/flow_processor.go:52-73 | A flow of one resource without delays passes the webhook and compiles for every period that has a duration. |
| CrossMidnight.CrossMidnightIsAdmittedAndNeverLoads | pkg/period/period.go:198-207 | For every window that ends before it starts, such a flow passes the webhook and compiles, while its child fails to load on every matching day, exactly unless the window ends at midnight. |
| CrossMidnight.OneChild | internal/controller/flow/service/resource_creator.go:134-153 | The child that flow writes holds just the rewritten period. |
| CrossMidnight.NightNeverLoads | pkg/period/period.go:198-207 | One input: 22:00 to 02:00 on every day; the flow compiles and its child never loads, whatever the clock. |
| FlowWebhook.TotalDelay | internal/webhook/v1alpha3/flow_webhook.go:196-218 | The loop adds the start delays as int64, or finds one that does not parse. |
| FlowWebhook.ValidateFlowTimings | internal/webhook/v1alpha3/flow_webhook.go:180-224 | Accepted exactly when for every period the delays of each of its items add up within its duration. |
| FlowWebhook.SumsAgree | internal/webhook/v1alpha3/flow_webhook.go:196-218 | Non-negative delays whose exact sum fits in int64 add up without wrapping, and each is at most the sum. |
| FlowWebhook.ItemFitsExactly | internal/webhook/v1alpha3/flow_webhook.go:196-218 | With delays that parse and are not negative, adding up within int64, an item passes exactly if its exact sum is at most the duration. |
| FlowWebhook.DurationsAgree | internal/controller/flow/service/time_calculator.go:70-95 | The controller has a duration exactly for periods whose ends differ and, unless recurring, are in order; the webhook agrees on all of them. |
| FlowWebhook.EqualEndsDisagree | internal/webhook/v1alpha3/flow_webhook.go:227-264 | Equal ends are a whole day to the webhook and a user error to the controller. |
| FlowWebhook.ControllerRefusesExactly | internal/controller/flow/service/flow_validator.go:163-201 | For any delays that parse and are not negative, a mention is refused exactly when the shifted duration is not positive or leaves int64. |
| FlowWebhook.ControllerTimings | internal/controller/flow/service/flow_validator.go:107-201 | For any period, recurring or fixed, whatever the webhook said: its timings are accepted exactly when it has a duration and every mention leaves a window. |
| FlowWebhook.WebhookImpliesController | internal/controller/flow/service/flow_validator.go:163-201 | For an item the webhook accepts, over any period with a duration: the controller refuses exactly a resource delayed by the whole duration and not at its end, or stretched beyond int64. |
| FlowWebhook.AdmittedFlowTimings | internal/webhook/v1alpha3/flow_webhook.go:180-264 | For a whole flow the webhook admits, with recurring or fixed periods: the controller accepts a mentioned period exactly when it has a duration and none of its resources is of that kind. |
| FlowWebhook.WrappedSumSlipsThrough | internal/webhook/v1alpha3/flow_webhook.go:196-218 | Two delays whose sum wraps around are admitted over any period, and both are refused by the controller. |
| Finalizers.ApiServer.Send | internal/controller/flow/service/handlers/finalizer_handler.go:99-117 | A patch that gets through is accepted exactly if the object is there, has the version the patch was made from, and gains no finalizer while it is being deleted; missing objects and other versions are told apart; only acceptance writes. |
| Finalizers.ApiServer.Try | internal/controller/flow/service/handlers/finalizer_handler.go:101-112 | One attempt: it succeeds exactly if its read works and finds the object, and there is nothing to do or its patch meets the version it read and breaks no rule; it conflicts exactly if its patch meets another version. |
| Finalizers.ApiServer.RetryOnConflict | internal/controller/flow/service/handlers/finalizer_handler.go:99-145 | However writers interleave with the attempts, the outcome is all their writes followed by at most one edit, made on the object as they left it. It is accepted exactly if one of five attempts is reached, through conflicts alone, and succeeds, and ends in a conflict exactly if all five do. |
| Finalizers.ApiServer.PatchAddFinalizer | internal/controller/flow/service/handlers/finalizer_handler.go:99-117 | A successful add is the others' writes plus the finalizer, a failed one is the others' writes; it succeeds exactly if one of five attempts does. |
| Finalizers.ApiServer.PatchRemoveFinalizer | internal/controller/flow/service/handlers/finalizer_handler.go:122-145 | A successful removal is the others' writes without the finalizer, a failed one is the others' writes; the object is returned exactly if something was removed; it succeeds exactly if one of five attempts does. |
| Finalizers.ApiServer.PatchStatus | internal/controller/k8s/service/handlers/status_handler.go:69-103 | A status write is the others' writes plus the new status; one that changes nothing keeps the version; it succeeds exactly if one of five attempts does. |
| Finalizers.VersionsNeverReturn | internal/controller/k8s/service/handlers/status_handler.go:135-148 | No sequence of writes brings an old version back. |
| Finalizers.SameVersionSameObject | internal/controller/k8s/service/handlers/status_handler.go:135-148 | An unchanged version means an unchanged object, so the version check is enough. |
| Finalizers.MergeOfOwnDiff | internal/controller/k8s/service/handlers/finalizer_handler.go:96-109 | A merge patch applied to what it was made from gives the edited object. |
| Finalizers.StalePatchDropsFinalizer | internal/controller/k8s/service/handlers/finalizer_handler.go:96-109 | Without the version check the same patch would drop another writer's finalizer, since arrays are replaced whole. |
| Finalizers.OthersSurvive | internal/controller/k8s/service/handlers/finalizer_handler.go:96-109 | Adding or removing the finalizer keeps everybody else's finalizers, the spec and the status; the object goes only when it is being deleted and nobody else holds it. |
| Finalizers.AlreadyMetIsNoOp | internal/controller/flow/service/handlers/finalizer_handler.go:99-145 | A request writes nothing, not even a version, exactly when it is already met. |
| Finalizers.UndisturbedRequests | internal/controller/flow/service/handlers/finalizer_handler.go:99-145 | With nobody interfering and no call failing, removals and status writes succeed exactly if the object is there, and additions unless it is also being deleted and lacks the finalizer. |
| ClientCache.GcpClientCache.GetOrBuild | internal/controller/gcp/service/handlers/auth_cache.go:74-97 | Hit, failed build, and rotation with its close, as one step over values. |
| ClientCache.StepConserves | internal/controller/gcp/service/handlers/auth_cache.go:74-97 | A call with a fresh build keeps conservation. |
| ClientCache.RunsConserve | internal/controller/gcp/service/handlers/auth_cache.go:74-97 | For every sequence of calls, each built client is the current one of exactly one key or has been closed exactly once, never both. |
| ClientCache.AnswerMatchesRequest | internal/controller/gcp/service/handlers/auth_cache.go:74-97 | A returned client is the stored one of the requested key and version; a failed build changes and closes nothing; other keys stay; an error is returned exactly for a failed build or a failed close. |
| ClientCache.RepeatedCallHits | internal/controller/gcp/service/handlers/auth_cache.go:74-97 | The same request again gets the same client, and neither builds nor closes. |
| Namespaces.DeleteFunc | pkg/k8s/utils/namespace_manager.go:191-207 | The in-place filter keeps the order of what stays, blanks the tail the old slice still shows, and leaves the array beyond it alone. |
| Namespaces.CopyWithout | pkg/k8s/utils/namespace_manager.go:103-110 | The copying loop returns a fresh slice with the names that are not excluded, in order. |
| Namespaces.NamespaceManager.ExcludeAlways | pkg/k8s/utils/namespace_manager.go:191-207 | The two filters in a row drop the union, and leave the old slice compacted once. |
| Namespaces.NamespaceManager.CachedOrListed | pkg/k8s/utils/namespace_manager.go:95-129 | The cache is used while it is fresh, replaced by a whole listing otherwise, and left alone when listing fails. |
| Namespaces.NamespaceManager.SetFromListing | pkg/k8s/utils/namespace_manager.go:71-139 | Without an explicit list the answer is a fresh array, so no in-place filter reaches the cached one. |
| Namespaces.NamespaceManager.SetNamespaceList | pkg/k8s/utils/namespace_manager.go:71-93 | One call over values, and its side effect: an explicit list is compacted in the caller's array, the cached list never changes under a filter. |
| Namespaces.ServedNames | pkg/k8s/utils/namespace_manager.go:71-139 | A name is in the answer exactly if it is in the explicit, cached or listed names and is not excluded: by the configuration where no explicit list is given, as a system namespace where forced, or as the own one. |
| Namespaces.ListingLastsFiveMinutes | pkg/k8s/utils/namespace_manager.go:95-129 | A listing that was taken answers later calls for exactly five minutes. |
| Namespaces.WithoutKeepsOrder | pkg/k8s/utils/namespace_manager.go:103-110 | What remains is in order, each name as often as it was. |
| Namespaces.NamespaceManager.CallTwice | pkg/k8s/utils/namespace_manager.go:71-93 | Two calls with one configuration: the second filters what the first compacted. |
| Namespaces.WithoutTwice | pkg/k8s/utils/namespace_manager.go:191-207 | Filtering twice is filtering by the union. |
| Namespaces.CacheIsSomeListing | pkg/k8s/utils/namespace_manager.go:113-139 | Over every sequence of calls the cache holds one call's whole listing, whatever the calls excluded. |
| Namespaces.HitAgreesWithListing | pkg/k8s/utils/namespace_manager.go:95-139 | A hit answers what a miss would for a listing some earlier call took less than the cache lifetime ago. |
| Namespaces.SecondCallAgreesExactlyWhen | pkg/k8s/utils/namespace_manager.go:71-93 | With an explicit list the second answer equals the first exactly when nothing is dropped; otherwise it contains an empty name. |

## Left out

- Time zones, daylight saving, calendar dates and the parsing of dates and durations: the clock is given as local
  midnight, weekday and time since midnight in every zone that loads, dates as instants, durations as nanoseconds
  or as unparsable.
- SHA-1 and SHA-256 are function parameters; nothing is claimed about collisions, and child names that need
  truncation are only bounded in length.
- Annotation keys are read into a datatype; `ParseKeyIsExact` shows that nothing is lost by it. Map fields hold
  Dafny map values, and two objects never share one annotation map.
- The instants written with a period are noted as decimal numbers instead of RFC 3339 text; the code never reads
  them back.
- A period with neither a recurring nor a fixed time is an error here; admission refuses it, and the code would
  dereference nil. Other panics are not modelled.
- `strings.ToLower` is modelled on ASCII, and text lengths count characters, which for object names are bytes.
- The reverse flag of fixed periods: the conversion to the recurring shape drops it, so reversal is stated for
  recurring periods.
- One pass reads one clock value for all periods, and one later value for the run-once delay; the code reads the
  clock once per period.
- Finalizers of other controllers, and the retries inside a patch, are one boolean and one outcome per patch in
  Reconcile; Finalizers models both in full.
- A patch whose answer is lost counts as not stored in Finalizers; in Processor an update may be stored and still
  be reported as failed.
- Reads of the scaler object see the latest stored version; a stale informer cache is not modelled.
- The clear-text reasons of failures and the log output; a status item is its resource type and name, where the
  code writes the plural of the strategy's kind.
- `NewResource`, secrets, the K8s client cache and the clients themselves: setting up a resource type, and
  authentication, succeed or fail as given by the environment.
- The GCP scaler: its period handler repeats the K8s one, and its state changes are loops of cloud calls.
- Selection by label, and the merging of label selectors: what a listing returns is given by the environment.
- The Flow's own status, conditions and requeue, and the fetch and finalizer handlers around its processing, other
  than the finalizer patches themselves.
- Conversions between API versions, deep copies, defaults, webhook registration, metrics and manager setup.
- Concurrent calls of the client cache and of the namespace manager: calls are taken one at a time.
- FlowWebhook.AdmittedFlowTimings: start delays that add up within int64 only; `ControllerTimings` has no such
  bound, and beyond it the webhook promises nothing (`WrappedSumSlipsThrough`).
- FlowWebhook.WebhookImpliesController: the same bound, for one item.
- ReconcileRuns.NoactionSkipIsSafe: the set of managed workloads is fixed over the run; a workload created or
  relabelled between passes is not covered.
- FlowProcessor.ProcessFlow: which of several user errors is reported is left open, because it depends on the
  order in which Go iterates over a map.
