/**
 * One pass of the K8s scaler controller: the handler chain of internal/controller/k8s, from the fetch
 * to the status write. `ReconcilePass` is the pass as a function; the handlers are proved to compute it.
 */
module Reconcile {
  import opened Prelude
  import opened PeriodTypes
  import opened Periods
  import opened ActivePeriod
  import opened Strategies
  import opened Processor
  import opened ResourceTypes

  const RECONCILE_SUCCESS := 60 * SECOND
  const RECONCILE_ERROR := 600 * SECOND
  const REQUEUE_DELAY := 5 * SECOND
  const MIN_REQUEUE := 30 * SECOND

  /** The parts of the scaler's spec a pass reads; `sha1` is the hash used for period digests. */
  datatype ScalerSpec = ScalerSpec(
    periods: seq<ScalerPeriod>,
    types: seq<ResourceType>,
    names: seq<string>,
    restoreOnDelete: bool,
    sha1: ScalerPeriod -> Digest)

  type Workloads = map<ResourceType, map<ObjectRef, Obj>>

  /** What the API server stores: the scaler object and the workloads, by resource type. */
  datatype World = World(
    deleting: bool,
    finalizer: bool,
    status: Option<StatusPeriod>,
    comments: Option<Comment>,
    objects: Workloads)

  datatype FetchFate = Fetched | FetchNotFound | FetchError

  /** A patch under retry-on-conflict: stored, failed, or the object was gone. */
  datatype PatchFate = Patched | PatchFailed | PatchGone

  /** Building the handler of one resource type, and the API behind it. */
  datatype KindSetup = SetupFailed | Ready(nsList: seq<string>, api: ApiBehaviour)

  /** Setting up the clients: done, failed because the auth secret is not there, or failed otherwise. */
  datatype AuthFate = Authenticated | SecretMissing | AuthFailed

  /** Everything outside the controller's control during one pass. */
  datatype Env = Env(
    fetch: FetchFate,
    addFinalizer: PatchFate,
    auth: AuthFate,
    clock: Clock,
    later: int,
    commentsPatch: PatchFate,
    kinds: seq<KindSetup>,
    statusPatch: PatchFate,
    removeFinalizer: PatchFate)
  {
    function Setup(i: nat): KindSetup {
      if i < |kinds| then kinds[i] else SetupFailed
    }
  }

  /** How an error is classified; a critical one may wrap the API's "not found". */
  datatype ErrorClass = NoError | Critical(notFound: bool) | Recoverable

  /** What the scaling handler did, when it ran. */
  datatype Report = Report(period: Period, success: seq<StatusItem>, failed: seq<StatusItem>)

  datatype PassResult = PassResult(world: World, error: ErrorClass, requeueAfter: int, scaled: Option<Report>)

  // ---- scaling ----

  const APPS_RESOURCES := {Deployments, StatefulSets}
  const HPA_RESOURCES := {HorizontalPodAutoscalers, Hpas, ScaledObjects}
  const DEFAULT_TYPES := [Deployments]

  function EffectiveTypes(types: seq<ResourceType>): seq<ResourceType> {
    if types == [] then DEFAULT_TYPES else types
  }

  predicate Mixed(types: seq<ResourceType>) {
    (exists t :: t in types && t in APPS_RESOURCES) && (exists t :: t in types && t in HPA_RESOURCES)
  }

  /** Deployments and stateful sets are not to be scaled along with anything that scales pods by itself. */
  lemma MixedTypes(types: seq<ResourceType>)
    ensures Mixed(types) <==>
      (Deployments in types || StatefulSets in types) && (HorizontalPodAutoscalers in types || Hpas in types || ScaledObjects in types)
    ensures EffectiveTypes(types) == if |types| == 0 then [Deployments] else types
  {
  }

  /** The strategy behind a resource type; the others have no handler here, "hpa" among them. */
  function StrategyOf(resource: ResourceType): Option<Strategy> {
    match resource
    case Deployments => Some(IntReplicas)
    case StatefulSets => Some(IntReplicas)
    case CronJobs => Some(BoolSuspend(true, false))
    case GithubArs => Some(MinMaxReplicas(RunnerSet))
    case ScaledObjects => Some(KedaPause)
    case CnpgClusters => Some(CnpgHibernate)
    case _ => None
  }

  function ObjectsOf(objects: Workloads, resource: ResourceType): map<ObjectRef, Obj> {
    if resource in objects then objects[resource] else map[]
  }

  function Tag(resource: ResourceType, names: seq<string>): seq<StatusItem> {
    seq(|names|, i requires 0 <= i < |names| => OneObject(resource, names[i]))
  }

  datatype Scaling = Scaling(objects: Workloads, success: seq<StatusItem>, failed: seq<StatusItem>)

  /** One resource type. A type that cannot be set up or fails as a whole is reported as one failure. */
  function ScaleKind(at: Scaling, resource: ResourceType, names: seq<string>, setup: KindSetup, p: Period): Scaling {
    var unavailable := at.failed + [WholeType(resource)];
    match (StrategyOf(resource), setup)
    case (Some(s), Ready(nsList, api)) =>
      var call := Process(s, ObjectsOf(at.objects, resource), nsList, names, api, p);
      var stored := at.objects[resource := call.objects];
      if call.err then Scaling(stored, at.success, unavailable)
      else Scaling(stored, at.success + Tag(resource, call.success), at.failed + Tag(resource, call.failed))
    case _ => at.(failed := unavailable)
  }

  function ScaleUpTo(types: seq<ResourceType>, names: seq<string>, objects: Workloads, env: Env, p: Period, n: nat): Scaling
    requires n <= |types|
  {
    if n == 0 then Scaling(objects, [], [])
    else ScaleKind(ScaleUpTo(types, names, objects, env, p, n - 1), types[n - 1], names, env.Setup(n - 1), p)
  }

  function ScaleAll(spec: ScalerSpec, objects: Workloads, env: Env, p: Period): Scaling {
    var types := EffectiveTypes(spec.types);
    if Mixed(types) then Scaling(objects, [], [WholePass])
    else ScaleUpTo(types, spec.names, objects, env, p, |types|)
  }

  // ---- the steps of a pass, last first ----

  function RequeueOr(before: int, delay: int): int {
    if before == 0 then delay else before
  }

  /** The status entry a handler creates where it finds none. */
  const EMPTY_PERIOD := StatusPeriod(None, Digest(""), "", OtherKind(""), [], [])

  /** The status handler: remove the finalizer, or persist the period with the results. */
  function StatusStep(w: World, finalizing: bool, current: StatusPeriod, report: Report, before: int, env: Env): PassResult {
    var done := Some(report);
    if finalizing then
      match env.removeFinalizer
      case Patched => PassResult(w.(finalizer := false), NoError, 0, done)
      case PatchGone => PassResult(w, NoError, 0, done)
      case PatchFailed => PassResult(w, Recoverable, RECONCILE_ERROR, done)
    else
      match env.statusPatch
      case Patched =>
        var written := current.(successful := report.success, failed := report.failed);
        PassResult(w.(status := Some(written), comments := Some(TimePeriodProcessed)), NoError,
                   RequeueOr(before, RECONCILE_SUCCESS), done)
      case PatchGone => PassResult(w, NoError, before, done)
      case PatchFailed => PassResult(w, Recoverable, RECONCILE_ERROR, done)
  }

  predicate LastWasNoaction(status: Option<StatusPeriod>) {
    status.Some? && status.value.kind == Noaction
  }

  /** How long to wait for a run-once period that already ran: until just after it ends, never zero. */
  function RunOnceDelay(p: Period, env: Env): int {
    var d := p.endTime + REQUEUE_DELAY - env.later;
    if d <= 0 then MIN_REQUEUE else d
  }

  /** A critical period error leaves a comment behind, if the patch gets through. */
  function Commented(w: World, comment: Comment, env: Env): World {
    if env.commentsPatch.Patched? then w.(comments := Some(comment)) else w
  }

  function SelectFor(spec: ScalerSpec, w: World, finalizing: bool, env: Env): Selection {
    Select(spec.periods, w.status, spec.restoreOnDelete && finalizing, env.clock, spec.sha1)
  }

  predicate SkipsNoaction(w: World, finalizing: bool, p: Period) {
    !finalizing && LastWasNoaction(w.status) && p.kind == Noaction
  }

  /** The period handler, once a period is selected, and everything after it. */
  function SelectionStep(spec: ScalerSpec, w: World, finalizing: bool, before: int, env: Env, selection: Selection): PassResult {
    match selection
    case LoadFailed => PassResult(Commented(w, UnableToLoadPeriod, env), Critical(false), before, None)
    case RunOnce(p) =>
      if finalizing then PassResult(Commented(w, RunOncePeriod, env), Critical(false), before, None)
      else PassResult(w, NoError, RequeueOr(before, RunOnceDelay(p, env)), None)
    case Selected(p) =>
      if SkipsNoaction(w, finalizing, p) then PassResult(w, NoError, RequeueOr(before, RECONCILE_SUCCESS), None)
      else
        var scaling := ScaleAll(spec, w.objects, env, p);
        StatusStep(w.(objects := scaling.objects), finalizing, StatusOf(p), Report(p, scaling.success, scaling.failed), before, env)
  }

  function PeriodStep(spec: ScalerSpec, w: World, finalizing: bool, before: int, env: Env): PassResult {
    SelectionStep(spec, w, finalizing, before, env, SelectFor(spec, w, finalizing, env))
  }

  function AuthStep(spec: ScalerSpec, w: World, finalizing: bool, env: Env): PassResult {
    if env.auth.Authenticated? then PeriodStep(spec, w, finalizing, 0, env)
    else PassResult(w, Critical(env.auth.SecretMissing?), 0, None)
  }

  /** The finalizer handler and everything after it. */
  function FinalizerStep(spec: ScalerSpec, w: World, env: Env): PassResult {
    if w.deleting then
      if w.finalizer then AuthStep(spec, w, true, env) else PassResult(w, NoError, 0, None)
    else if w.finalizer then AuthStep(spec, w, false, env)
    else
      match env.addFinalizer
      case Patched => AuthStep(spec, w.(finalizer := true), false, env)
      case PatchGone => PassResult(w, NoError, 0, None)
      case PatchFailed => PassResult(w, Recoverable, RECONCILE_ERROR, None)
  }

  function ReconcilePass(spec: ScalerSpec, w: World, env: Env): PassResult {
    match env.fetch
    case FetchNotFound => PassResult(w, NoError, 0, None)
    case FetchError => PassResult(w, Recoverable, 0, None)
    case Fetched => FinalizerStep(spec, w, env)
  }

  /** What the controller hands to its work queue: an error to back off from, or a delay, where 0 is none. "Not found" is no error. */
  datatype QueueResult = QueueResult(error: bool, requeueAfter: int)

  function ToQueue(error: ErrorClass, requeueAfter: int): QueueResult {
    match error
    case Critical(notFound) => QueueResult(!notFound, 0)
    case Recoverable => QueueResult(false, if requeueAfter > 0 then requeueAfter else RECONCILE_ERROR)
    case NoError => QueueResult(false, if requeueAfter > 0 then requeueAfter else 0)
  }

  // ---- the handlers ----

  /** The API server, as the handlers change it. */
  class Cluster {
    var deleting: bool
    var finalizer: bool
    var status: Option<StatusPeriod>
    var comments: Option<Comment>
    var objects: Workloads

    constructor (w: World)
      ensures Value() == w
    {
      deleting, finalizer, status, comments, objects := w.deleting, w.finalizer, w.status, w.comments, w.objects;
    }

    function Value(): World
      reads this
    {
      World(deleting, finalizer, status, comments, objects)
    }
  }

  /** The state the handlers of one pass share. `status` is the in-memory copy of the scaler's status. */
  class ReconciliationContext {
    const status: ScalerStatus
    var deleting: bool
    var hasFinalizer: bool
    var period: Option<Period>
    var success: seq<StatusItem>
    var failed: seq<StatusItem>
    var shouldFinalize: bool
    var skipRemaining: bool
    var requeueAfter: int
    ghost var scaled: Option<Report>

    constructor ()
      ensures !skipRemaining && !shouldFinalize && requeueAfter == 0 && scaled == None && fresh(status)
    {
      status := new ScalerStatus(None, None);
      deleting, hasFinalizer, period, success, failed := false, false, None, [], [];
      shouldFinalize, skipRemaining, requeueAfter, scaled := false, false, 0, None;
    }
  }

  /** The result of a handler, read off the context and the cluster. */
  ghost predicate Yields(ctx: ReconciliationContext, cluster: Cluster, error: ErrorClass, r: PassResult)
    reads ctx, cluster
  {
    r == PassResult(cluster.Value(), error, ctx.requeueAfter, ctx.scaled)
  }

  method ValidResourceList(types: seq<ResourceType>) returns (r: Option<seq<ResourceType>>)
    ensures r == if Mixed(EffectiveTypes(types)) then None else Some(EffectiveTypes(types))
  {
    var resourceTypes := if types == [] then DEFAULT_TYPES else types;
    var output: seq<ResourceType> := [];
    var isApp, isHpa := false, false;
    for i := 0 to |resourceTypes|
      invariant output == resourceTypes[..i]
      invariant isApp <==> exists t :: t in resourceTypes[..i] && t in APPS_RESOURCES
      invariant isHpa <==> exists t :: t in resourceTypes[..i] && t in HPA_RESOURCES
      invariant !(isApp && isHpa)
    {
      var resource := resourceTypes[i];
      assert resourceTypes[..i + 1] == resourceTypes[..i] + [resource];
      if resource in APPS_RESOURCES {
        isApp := true;
      }
      if resource in HPA_RESOURCES {
        isHpa := true;
      }
      if isHpa && isApp {
        assert forall t :: t in resourceTypes[..i + 1] ==> t in resourceTypes;
        return None;
      }
      output := output + [resource];
    }
    assert resourceTypes[..|resourceTypes|] == resourceTypes;
    return Some(output);
  }

  method StatusHandle(ctx: ReconciliationContext, cluster: Cluster, env: Env) returns (error: ErrorClass)
    requires ctx.scaled.Some? && ctx.scaled.value.success == ctx.success && ctx.scaled.value.failed == ctx.failed
    modifies ctx, ctx.status, cluster
    ensures Yields(ctx, cluster, error, old(StatusStep(cluster.Value(), ctx.shouldFinalize, ctx.status.currentPeriod.Deref(EMPTY_PERIOD),
                                                       ctx.scaled.value, ctx.requeueAfter, env)))
  {
    if ctx.shouldFinalize {
      if env.removeFinalizer.PatchFailed? {
        ctx.requeueAfter := RECONCILE_ERROR;
        return Recoverable;
      }
      if env.removeFinalizer.Patched? {
        cluster.finalizer := false;
        ctx.hasFinalizer := false;
      }
      ctx.requeueAfter := 0;
      return NoError;
    }
    if ctx.status.currentPeriod.None? {
      ctx.status.currentPeriod := Some(EMPTY_PERIOD);
    }
    var desired := ctx.status.currentPeriod.value.(successful := ctx.success, failed := ctx.failed);
    ctx.status.currentPeriod := Some(desired);
    ctx.status.comments := Some(TimePeriodProcessed);
    if env.statusPatch.PatchGone? {
      return NoError;
    }
    if env.statusPatch.PatchFailed? {
      ctx.requeueAfter := RECONCILE_ERROR;
      return Recoverable;
    }
    cluster.status, cluster.comments := Some(desired), ctx.status.comments;
    if ctx.requeueAfter == 0 {
      ctx.requeueAfter := RECONCILE_SUCCESS;
    }
    return NoError;
  }

  /** The scaling loop of the scaling handler. */
  method ScaleResources(spec: ScalerSpec, cluster: Cluster, env: Env, p: Period) returns (success: seq<StatusItem>, failed: seq<StatusItem>)
    modifies cluster`objects
    ensures Scaling(cluster.objects, success, failed) == ScaleAll(spec, old(cluster.objects), env, p)
  {
    success, failed := [], [];
    var resourceList := ValidResourceList(spec.types);
    if resourceList.None? {
      return [], [WholePass];
    }
    var types := resourceList.value;
    for i := 0 to |types|
      invariant Scaling(cluster.objects, success, failed) == ScaleUpTo(types, spec.names, old(cluster.objects), env, p, i)
    {
      var resource, setup := types[i], env.Setup(i);
      var strategy := StrategyOf(resource);
      if strategy.None? || setup.SetupFailed? {
        failed := failed + [WholeType(resource)];
      } else {
        var store := new ObjectStore(ObjectsOf(cluster.objects, resource));
        var done, notDone, err := ProcessResources(strategy.value, store, setup.nsList, spec.names, setup.api, p);
        cluster.objects := cluster.objects[resource := store.objects];
        if err {
          failed := failed + [WholeType(resource)];
        } else {
          success := success + Tag(resource, done);
          failed := failed + Tag(resource, notDone);
        }
      }
    }
  }

  method ScalingHandle(spec: ScalerSpec, ctx: ReconciliationContext, cluster: Cluster, env: Env) returns (error: ErrorClass)
    requires ctx.period.Some?
    modifies ctx, ctx.status, cluster
    ensures Yields(ctx, cluster, error,
      old(var p := ctx.period.value; var scaling := ScaleAll(spec, cluster.objects, env, p);
          StatusStep(cluster.Value().(objects := scaling.objects), ctx.shouldFinalize, ctx.status.currentPeriod.Deref(EMPTY_PERIOD),
                     Report(p, scaling.success, scaling.failed), ctx.requeueAfter, env)))
  {
    ctx.success, ctx.failed := ScaleResources(spec, cluster, env, ctx.period.value);
    ctx.scaled := Some(Report(ctx.period.value, ctx.success, ctx.failed));
    error := StatusHandle(ctx, cluster, env);
  }

  /** The run-once exit and the errors of `resolveActivePeriod`; `None` means the chain goes on. */
  method ResolveSelection(selection: Selection, ctx: ReconciliationContext, cluster: Cluster, env: Env) returns (error: ErrorClass)
    requires !ctx.skipRemaining
    modifies ctx`requeueAfter, ctx`skipRemaining, ctx.status`comments, cluster`comments
    ensures error == if selection.LoadFailed? || (selection.RunOnce? && ctx.shouldFinalize) then Critical(false) else NoError
    ensures ctx.skipRemaining <==> selection.RunOnce? && !ctx.shouldFinalize
    ensures ctx.requeueAfter ==
      if ctx.skipRemaining then RequeueOr(old(ctx.requeueAfter), RunOnceDelay(selection.period, env)) else old(ctx.requeueAfter)
    ensures cluster.Value() ==
      if error.Critical? then
        Commented(old(cluster.Value()), if selection.LoadFailed? then UnableToLoadPeriod else RunOncePeriod, env)
      else old(cluster.Value())
  {
    if selection.LoadFailed? || (selection.RunOnce? && ctx.shouldFinalize) {
      var comment := if selection.LoadFailed? then UnableToLoadPeriod else RunOncePeriod;
      ctx.status.comments := Some(comment);
      if env.commentsPatch.Patched? {
        cluster.comments := Some(comment);
      }
      return Critical(false);
    }
    if selection.RunOnce? {
      if ctx.requeueAfter == 0 {
        var d := selection.period.endTime + REQUEUE_DELAY - env.later;
        if d <= 0 {
          d := MIN_REQUEUE;
        }
        ctx.requeueAfter := d;
      }
      ctx.skipRemaining := true;
    }
    return NoError;
  }

  method PeriodHandle(spec: ScalerSpec, ctx: ReconciliationContext, cluster: Cluster, env: Env) returns (error: ErrorClass)
    requires !ctx.skipRemaining && ctx.scaled == None && ctx.status.currentPeriod == cluster.status
    modifies ctx, ctx.status, cluster
    ensures Yields(ctx, cluster, error, old(PeriodStep(spec, cluster.Value(), ctx.shouldFinalize, ctx.requeueAfter, env)))
  {
    var previousWasNoaction := LastWasNoaction(ctx.status.currentPeriod);
    var selection := SetActivePeriod(spec.periods, ctx.status, spec.restoreOnDelete && ctx.shouldFinalize, env.clock, spec.sha1);
    error := AfterSelection(spec, ctx, cluster, env, selection, previousWasNoaction);
  }

  method AfterSelection(spec: ScalerSpec, ctx: ReconciliationContext, cluster: Cluster, env: Env, selection: Selection,
                        previousWasNoaction: bool)
    returns (error: ErrorClass)
    requires !ctx.skipRemaining && ctx.scaled == None && previousWasNoaction == LastWasNoaction(cluster.status)
    requires selection.Selected? ==> ctx.status.currentPeriod == Some(StatusOf(selection.period))
    modifies ctx, ctx.status, cluster
    ensures Yields(ctx, cluster, error,
      old(SelectionStep(spec, cluster.Value(), ctx.shouldFinalize, ctx.requeueAfter, env, selection)))
  {
    error := ResolveSelection(selection, ctx, cluster, env);
    if error.Critical? {
      return;
    }
    ctx.period := Some(selection.period);
    if !ctx.shouldFinalize && previousWasNoaction && selection.period.kind == Noaction {
      ctx.skipRemaining := true;
      if ctx.requeueAfter == 0 {
        ctx.requeueAfter := RECONCILE_SUCCESS;
      }
      return NoError;
    }
    if !ctx.skipRemaining {
      error := ScalingHandle(spec, ctx, cluster, env);
    }
  }

  method AuthHandle(spec: ScalerSpec, ctx: ReconciliationContext, cluster: Cluster, env: Env) returns (error: ErrorClass)
    requires !ctx.skipRemaining && ctx.scaled == None && ctx.requeueAfter == 0 && ctx.status.currentPeriod == cluster.status
    modifies ctx, ctx.status, cluster
    ensures Yields(ctx, cluster, error, old(AuthStep(spec, cluster.Value(), ctx.shouldFinalize, env)))
  {
    if !env.auth.Authenticated? {
      return Critical(env.auth.SecretMissing?);
    }
    error := PeriodHandle(spec, ctx, cluster, env);
  }

  method FinalizerHandle(spec: ScalerSpec, ctx: ReconciliationContext, cluster: Cluster, env: Env) returns (error: ErrorClass)
    requires !ctx.skipRemaining && !ctx.shouldFinalize && ctx.scaled == None && ctx.requeueAfter == 0
    requires ctx.status.currentPeriod == cluster.status && ctx.deleting == cluster.deleting && ctx.hasFinalizer == cluster.finalizer
    modifies ctx, ctx.status, cluster
    ensures Yields(ctx, cluster, error, old(FinalizerStep(spec, cluster.Value(), env)))
  {
    if !ctx.deleting {
      if !ctx.hasFinalizer {
        if env.addFinalizer.PatchGone? {
          ctx.skipRemaining := true;
          return NoError;
        }
        if env.addFinalizer.PatchFailed? {
          ctx.requeueAfter := RECONCILE_ERROR;
          return Recoverable;
        }
        cluster.finalizer := true;
        ctx.hasFinalizer := true;
      }
    } else if ctx.hasFinalizer {
      ctx.shouldFinalize := true;
    } else {
      ctx.skipRemaining := true;
      return NoError;
    }
    error := AuthHandle(spec, ctx, cluster, env);
  }

  /** `Reconcile`: a fresh context, the chain, and the classification of its outcome. */
  method ReconcileScaler(spec: ScalerSpec, cluster: Cluster, env: Env) returns (queue: QueueResult, ghost result: PassResult)
    modifies cluster
    ensures result == ReconcilePass(spec, old(cluster.Value()), env)
    ensures cluster.Value() == result.world
    ensures queue == ToQueue(result.error, result.requeueAfter)
  {
    var ctx := new ReconciliationContext();
    var error := NoError;
    if env.fetch.FetchError? {
      error := Recoverable;
    } else if env.fetch.Fetched? {
      ctx.status.currentPeriod, ctx.status.comments := cluster.status, cluster.comments;
      ctx.deleting, ctx.hasFinalizer := cluster.deleting, cluster.finalizer;
      error := FinalizerHandle(spec, ctx, cluster, env);
    }
    result := PassResult(cluster.Value(), error, ctx.requeueAfter, ctx.scaled);
    if error.Critical? {
      return QueueResult(!error.notFound, 0), result;
    }
    if error.Recoverable? {
      var requeue := RECONCILE_ERROR;
      if ctx.requeueAfter > 0 {
        requeue := ctx.requeueAfter;
      }
      return QueueResult(false, requeue), result;
    }
    if ctx.requeueAfter > 0 {
      return QueueResult(false, ctx.requeueAfter), result;
    }
    return QueueResult(false, 0), result;
  }
}
