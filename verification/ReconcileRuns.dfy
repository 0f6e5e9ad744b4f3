/**
 * Runs of the K8s scaler controller: any number of passes over one scaler and its workloads, under any
 * clocks and any API failures, with a deletion request somewhere among them.
 */
module ReconcileRuns {
  import opened Prelude
  import opened PeriodTypes
  import opened ActivePeriod
  import opened Strategies
  import opened ScalingRuns
  import opened Processor
  import opened Reconcile
  import opened ResourceTypes

  datatype Event = Reconciled(env: Env) | DeletionRequested

  function Step(spec: ScalerSpec, w: World, e: Event): World {
    match e
    case DeletionRequested => w.(deleting := true)
    case Reconciled(env) => ReconcilePass(spec, w, env).world
  }

  function RunWorld(spec: ScalerSpec, w: World, events: seq<Event>): World {
    if events == [] then w
    else Step(spec, RunWorld(spec, w, events[..|events| - 1]), events[|events| - 1])
  }

  /** Event `k` of a run, as a pass over the world the earlier events left. */
  function PassAt(spec: ScalerSpec, w: World, events: seq<Event>, k: nat): PassResult
    requires k < |events| && events[k].Reconciled?
  {
    ReconcilePass(spec, RunWorld(spec, w, events[..k]), events[k].env)
  }

  // ---- originals over whole runs ----

  /** Every workload of every type keeps its first original recoverable. */
  ghost predicate AllTracked(first: Workloads, objects: Workloads) {
    forall t :: StrategyOf(t).Some? ==> Tracked(StrategyOf(t).value, ObjectsOf(first, t), ObjectsOf(objects, t))
  }

  lemma ScaleKindKeepsTracked(first: Workloads, at: Scaling, resource: ResourceType, names: seq<string>, setup: KindSetup, p: Period)
    requires AllTracked(first, at.objects)
    ensures AllTracked(first, ScaleKind(at, resource, names, setup, p).objects)
  {
    var after := ScaleKind(at, resource, names, setup, p).objects;
    forall t | StrategyOf(t).Some?
      ensures Tracked(StrategyOf(t).value, ObjectsOf(first, t), ObjectsOf(after, t))
    {
      if t == resource && setup.Ready? {
        var items := Targets(setup.nsList, names, setup.api);
        if items.Some? {
          ProcessKeepsTracked(StrategyOf(t).value, ObjectsOf(first, t), ObjectsOf(at.objects, t), items.value, setup.api, p, |items.value|);
        }
      }
    }
  }

  lemma {:induction false} ScaleKeepsTracked(first: Workloads, types: seq<ResourceType>, names: seq<string>, objects: Workloads, env: Env, p: Period, n: nat)
    requires n <= |types| && AllTracked(first, objects)
    ensures AllTracked(first, ScaleUpTo(types, names, objects, env, p, n).objects)
  {
    if n > 0 {
      ScaleKeepsTracked(first, types, names, objects, env, p, n - 1);
      ScaleKindKeepsTracked(first, ScaleUpTo(types, names, objects, env, p, n - 1), types[n - 1], names, env.Setup(n - 1), p);
    }
  }

  /** The world in which a pass selects its period: the finalizer is in place. */
  function Guarded(w: World): World {
    w.(finalizer := true)
  }

  predicate GetsToSelection(w: World, env: Env) {
    env.fetch.Fetched? && env.auth.Authenticated? && (w.finalizer || (!w.deleting && env.addFinalizer.Patched?))
  }

  lemma SelectionIgnoresFinalizer(spec: ScalerSpec, w: World, env: Env)
    ensures SelectFor(spec, Guarded(w), w.deleting, env) == SelectFor(spec, w, w.deleting, env)
  {
  }

  lemma PassIsAuthStep(spec: ScalerSpec, w: World, env: Env)
    requires GetsToSelection(w, env)
    ensures ReconcilePass(spec, w, env) == AuthStep(spec, Guarded(w), w.deleting, env)
  {
    if w.finalizer {
      assert Guarded(w) == w;
    }
  }

  /** A pass is its selection step, or changes nothing but the finalizer it may have added. */
  lemma PassIsSelectionStep(spec: ScalerSpec, w: World, env: Env)
    ensures var r := ReconcilePass(spec, w, env);
      if GetsToSelection(w, env) then
        r == SelectionStep(spec, Guarded(w), w.deleting, 0, env, SelectFor(spec, w, w.deleting, env))
      else r.scaled.None? && (r.world == w || (!w.finalizer && r.world == Guarded(w)))
  {
    if GetsToSelection(w, env) {
      PassIsAuthStep(spec, w, env);
      SelectionIgnoresFinalizer(spec, w, env);
    }
  }

  /** What one selection step reports and stores, by cases of what was selected. */
  lemma SelectionStepFacts(spec: ScalerSpec, w: World, finalizing: bool, env: Env, selection: Selection)
    ensures var r := SelectionStep(spec, w, finalizing, 0, env, selection);
      && r.world.deleting == w.deleting
      && (r.scaled.Some? ==>
        var p := r.scaled.value.period;
        var scaling := ScaleAll(spec, w.objects, env, p);
        && selection == Selected(p) && r.scaled.value == Report(p, scaling.success, scaling.failed)
        && r.world.objects == scaling.objects
        && (!finalizing && env.statusPatch.Patched? ==>
          r.world.status == Some(StatusOf(p).(successful := scaling.success, failed := scaling.failed))))
      && (r.scaled.None? ==> r.world.objects == w.objects && r.world.status == w.status)
      && (!r.world.finalizer ==> !w.finalizer || (finalizing && r.scaled.Some? && env.removeFinalizer.Patched?))
  {
  }

  /** A pass changes workloads only by scaling with the period it reports. */
  lemma PassScales(spec: ScalerSpec, w: World, env: Env)
    ensures var r := ReconcilePass(spec, w, env);
      && r.world.deleting == w.deleting
      && match r.scaled
         case None => r.world.objects == w.objects
         case Some(report) =>
           var scaling := ScaleAll(spec, w.objects, env, report.period);
           && r.world.objects == scaling.objects
           && report.success == scaling.success && report.failed == scaling.failed
  {
    PassIsSelectionStep(spec, w, env);
    SelectionStepFacts(spec, Guarded(w), w.deleting, env, SelectFor(spec, w, w.deleting, env));
  }

  /**
   * Over every run of the controller, whichever periods are active and whichever calls fail, every
   * workload is clean with its original or carries the text of its first original.
   */
  lemma {:induction false} RunKeepsOriginals(spec: ScalerSpec, w: World, first: Workloads, events: seq<Event>)
    requires AllTracked(first, w.objects)
    ensures AllTracked(first, RunWorld(spec, w, events).objects)
  {
    if events != [] {
      var before, last := events[..|events| - 1], events[|events| - 1];
      RunKeepsOriginals(spec, w, first, before);
      if last.Reconciled? {
        var at := RunWorld(spec, w, before);
        PassScales(spec, at, last.env);
        var r := ReconcilePass(spec, at, last.env);
        if r.scaled.Some? {
          var types := EffectiveTypes(spec.types);
          ScaleKeepsTracked(first, types, spec.names, at.objects, last.env, r.scaled.value.period, |types|);
        }
      }
    }
  }

  // ---- restoring passes ----

  /** The workloads a scaler manages, by resource type. */
  type Managed = map<ResourceType, set<ObjectRef>>

  function ManagedOf(managed: Managed, t: ResourceType): set<ObjectRef> {
    if t in managed then managed[t] else {}
  }

  /** If listing one type succeeds, it finds the managed workloads of that type. */
  ghost predicate FixedKind(managed: Managed, t: ResourceType, names: seq<string>, setup: KindSetup) {
    setup.Ready? && Targets(setup.nsList, names, setup.api).Some? ==>
      forall ref :: ref in Targets(setup.nsList, names, setup.api).value <==> ref in ManagedOf(managed, t)
  }

  /** The resource set does not change during the run. */
  ghost predicate FixedResources(spec: ScalerSpec, managed: Managed, env: Env) {
    var types := EffectiveTypes(spec.types);
    forall i :: 0 <= i < |types| ==> FixedKind(managed, types[i], spec.names, env.Setup(i))
  }

  predicate CleanType(managed: Managed, objects: Workloads, t: ResourceType) {
    StrategyOf(t).Some? ==> forall ref :: ref in ManagedOf(managed, t) ==> IsClean(StrategyOf(t).value, ObjectsOf(objects, t), ref)
  }

  /** Every managed workload is there and carries no record of an original. */
  predicate AllClean(spec: ScalerSpec, managed: Managed, objects: Workloads) {
    forall t :: t in EffectiveTypes(spec.types) ==> CleanType(managed, objects, t)
  }

  /** What a restoring step promises about one type, and about the types before it. */
  ghost predicate CleansOrReports(managed: Managed, before: Scaling, done: Scaling, t: ResourceType) {
    && |before.failed| <= |done.failed|
    && (|done.failed| == |before.failed| ==> CleanType(managed, done.objects, t))
    && (forall u :: CleanType(managed, before.objects, u) ==> CleanType(managed, done.objects, u))
  }

  /** A restoring step keeps what is clean, and cleans its own type unless it reports a failure. */
  lemma RestoringKind(managed: Managed, at: Scaling, resource: ResourceType, names: seq<string>, setup: KindSetup, p: Period)
    requires !IsScaling(p.kind) && FixedKind(managed, resource, names, setup)
    ensures CleansOrReports(managed, at, ScaleKind(at, resource, names, setup, p), resource)
  {
    if StrategyOf(resource).Some? && setup.Ready? {
      var s, objects := StrategyOf(resource).value, ObjectsOf(at.objects, resource);
      var items := Targets(setup.nsList, names, setup.api);
      if items.Some? {
        RestoringCleansOrReports(s, objects, items.value, setup.api, p, |items.value|);
        var done := ProcessUpTo(s, objects, items.value, setup.api, p, |items.value|);
        if !done.cancelled && done.failed == [] {
          forall ref | ref in ManagedOf(managed, resource)
            ensures IsClean(s, done.objects, ref)
          {
            var i :| 0 <= i < |items.value| && items.value[i] == ref;
          }
        }
      }
    }
  }

  predicate CleanUpTo(types: seq<ResourceType>, managed: Managed, objects: Workloads, n: nat)
    requires n <= |types|
  {
    forall i :: 0 <= i < n ==> CleanType(managed, objects, types[i])
  }

  lemma CleanOneMore(types: seq<ResourceType>, managed: Managed, before: Scaling, done: Scaling, n: nat)
    requires 0 < n <= |types| && CleansOrReports(managed, before, done, types[n - 1])
    requires before.failed == [] ==> CleanUpTo(types, managed, before.objects, n - 1)
    ensures done.failed == [] ==> CleanUpTo(types, managed, done.objects, n)
  {
  }

  lemma FixedAt(spec: ScalerSpec, managed: Managed, env: Env, i: nat)
    requires FixedResources(spec, managed, env) && i < |EffectiveTypes(spec.types)|
    ensures FixedKind(managed, EffectiveTypes(spec.types)[i], spec.names, env.Setup(i))
  {
  }

  lemma RestoringStep(spec: ScalerSpec, managed: Managed, objects: Workloads, env: Env, p: Period, n: nat)
    requires !IsScaling(p.kind) && FixedResources(spec, managed, env) && 0 < n <= |EffectiveTypes(spec.types)|
    ensures var types := EffectiveTypes(spec.types);
      CleansOrReports(managed, ScaleUpTo(types, spec.names, objects, env, p, n - 1), ScaleUpTo(types, spec.names, objects, env, p, n), types[n - 1])
  {
    var types := EffectiveTypes(spec.types);
    FixedAt(spec, managed, env, n - 1);
    RestoringKind(managed, ScaleUpTo(types, spec.names, objects, env, p, n - 1), types[n - 1], spec.names, env.Setup(n - 1), p);
  }

  /** Cleanliness of the first `n` types after scaling them, or a reported failure. */
  predicate CleanAfter(spec: ScalerSpec, managed: Managed, objects: Workloads, env: Env, p: Period, n: nat)
    requires n <= |EffectiveTypes(spec.types)|
  {
    var done := ScaleUpTo(EffectiveTypes(spec.types), spec.names, objects, env, p, n);
    done.failed == [] ==> CleanUpTo(EffectiveTypes(spec.types), managed, done.objects, n)
  }

  lemma CleanAfterOneMore(spec: ScalerSpec, managed: Managed, objects: Workloads, env: Env, p: Period, n: nat)
    requires !IsScaling(p.kind) && FixedResources(spec, managed, env) && 0 < n <= |EffectiveTypes(spec.types)|
    requires CleanAfter(spec, managed, objects, env, p, n - 1)
    ensures CleanAfter(spec, managed, objects, env, p, n)
  {
    var types := EffectiveTypes(spec.types);
    RestoringStep(spec, managed, objects, env, p, n);
    CleanOneMore(types, managed, ScaleUpTo(types, spec.names, objects, env, p, n - 1), ScaleUpTo(types, spec.names, objects, env, p, n), n);
  }

  lemma NoneIsClean(spec: ScalerSpec, managed: Managed, objects: Workloads, env: Env, p: Period)
    ensures CleanAfter(spec, managed, objects, env, p, 0)
  {
  }

  lemma {:induction false} RestoringKinds(spec: ScalerSpec, managed: Managed, objects: Workloads, env: Env, p: Period, n: nat)
    requires !IsScaling(p.kind) && FixedResources(spec, managed, env) && n <= |EffectiveTypes(spec.types)|
    ensures CleanAfter(spec, managed, objects, env, p, n)
    decreases n
  {
    if n == 0 {
      NoneIsClean(spec, managed, objects, env, p);
    } else {
      RestoringKinds(spec, managed, objects, env, p, n - 1);
      CleanAfterOneMore(spec, managed, objects, env, p, n);
    }
  }

  /** A restoring pass that reports no failure leaves every managed workload clean. */
  lemma RestoringCleansAll(spec: ScalerSpec, managed: Managed, objects: Workloads, env: Env, p: Period)
    requires !IsScaling(p.kind) && FixedResources(spec, managed, env)
    ensures var done := ScaleAll(spec, objects, env, p);
      done.failed == [] ==> AllClean(spec, managed, done.objects)
  {
    var types := EffectiveTypes(spec.types);
    RestoringKinds(spec, managed, objects, env, p, |types|);
    assert forall t :: t in types ==> exists i :: 0 <= i < |types| && types[i] == t;
  }

  ghost predicate SameWorkloads(a: Workloads, b: Workloads) {
    forall t :: ObjectsOf(a, t) == ObjectsOf(b, t)
  }

  /** A restoring step over one clean type changes no workload and adds no success. */
  lemma RestoringCleanKind(managed: Managed, at: Scaling, resource: ResourceType, names: seq<string>, setup: KindSetup, p: Period)
    requires !IsScaling(p.kind) && FixedKind(managed, resource, names, setup) && CleanType(managed, at.objects, resource)
    ensures SameWorkloads(ScaleKind(at, resource, names, setup, p).objects, at.objects)
    ensures at.success == [] ==> ScaleKind(at, resource, names, setup, p).success == []
  {
    if StrategyOf(resource).Some? && setup.Ready? {
      var items := Targets(setup.nsList, names, setup.api);
      if items.Some? {
        assert forall i :: 0 <= i < |items.value| ==> items.value[i] in items.value;
        RestoringCleanChangesNothing(StrategyOf(resource).value, ObjectsOf(at.objects, resource), items.value, setup.api, p, |items.value|);
      }
    }
  }

  lemma {:induction false} RestoringCleanKinds(spec: ScalerSpec, managed: Managed, objects: Workloads, env: Env, p: Period, n: nat)
    requires !IsScaling(p.kind) && FixedResources(spec, managed, env) && n <= |EffectiveTypes(spec.types)|
    requires AllClean(spec, managed, objects)
    ensures SameWorkloads(ScaleUpTo(EffectiveTypes(spec.types), spec.names, objects, env, p, n).objects, objects)
    ensures ScaleUpTo(EffectiveTypes(spec.types), spec.names, objects, env, p, n).success == []
  {
    if n > 0 {
      RestoringCleanKinds(spec, managed, objects, env, p, n - 1);
      var types := EffectiveTypes(spec.types);
      var before := ScaleUpTo(types, spec.names, objects, env, p, n - 1);
      assert CleanType(managed, objects, types[n - 1]);
      RestoringCleanKind(managed, before, types[n - 1], spec.names, env.Setup(n - 1), p);
    }
  }

  // ---- the noaction skip ----

  /** A pass that gets as far as selecting a period, outside a deletion. */
  predicate ReachesPeriod(w: World, env: Env) {
    env.fetch.Fetched? && env.auth.Authenticated? && !w.deleting && (w.finalizer || env.addFinalizer.Patched?)
  }

  /** A pass that takes the "still noaction" exit. */
  predicate TakesSkip(spec: ScalerSpec, w: World, env: Env) {
    ReachesPeriod(w, env)
    && SelectFor(spec, w, false, env).Selected? && SkipsNoaction(w, false, SelectFor(spec, w, false, env).period)
  }

  ghost predicate SkipIsSafe(spec: ScalerSpec, managed: Managed, w: World) {
    w.deleting || (LastWasNoaction(w.status) && w.status.value.failed == [] ==> AllClean(spec, managed, w.objects))
  }

  /** A pass that scales down or up gets its status write through. Other passes may lose theirs. */
  predicate NotesScaling(spec: ScalerSpec, w: World, env: Env) {
    var r := ReconcilePass(spec, w, env);
    r.scaled.Some? && IsScaling(r.scaled.value.period.kind) ==> env.statusPatch.Patched?
  }

  /** Hypotheses on event `i` of a run: a fixed resource set, and noted scaling. */
  ghost predicate WellBehaved(spec: ScalerSpec, managed: Managed, w: World, events: seq<Event>, i: nat)
    requires i < |events|
  {
    events[i].Reconciled? ==> FixedResources(spec, managed, events[i].env) && NotesScaling(spec, RunWorld(spec, w, events[..i]), events[i].env)
  }

  /** Outside a deletion the status names the last period that was scaled with, and what failed then. */
  lemma PassWritesStatus(spec: ScalerSpec, w: World, env: Env)
    requires !w.deleting && env.statusPatch.Patched?
    ensures var r := ReconcilePass(spec, w, env);
      if r.scaled.Some? then
        r.world.status.Some? && r.world.status.value.specSHA == r.scaled.value.period.hash
        && r.world.status.value.kind == r.scaled.value.period.kind && r.world.status.value.name == r.scaled.value.period.name
        && r.world.status.value.spec == Some(r.scaled.value.period.originalTime)
        && r.world.status.value.successful == r.scaled.value.success && r.world.status.value.failed == r.scaled.value.failed
      else r.world.status == w.status
  {
    PassIsSelectionStep(spec, w, env);
    SelectionStepFacts(spec, Guarded(w), w.deleting, env, SelectFor(spec, w, w.deleting, env));
  }

  lemma LostWriteStep(spec: ScalerSpec, w: World, env: Env, selection: Selection)
    requires !env.statusPatch.Patched?
    ensures SelectionStep(spec, w, false, 0, env, selection).world.status == w.status
  {
  }

  /** A status write that is lost leaves the status as it was. */
  lemma LostWriteKeepsStatus(spec: ScalerSpec, w: World, env: Env)
    requires !w.deleting && !env.statusPatch.Patched?
    ensures ReconcilePass(spec, w, env).world.status == w.status
  {
    PassIsSelectionStep(spec, w, env);
    LostWriteStep(spec, Guarded(w), env, SelectFor(spec, w, false, env));
  }

  /** A restoring pass cleans every managed workload or reports a failure, and keeps them clean in any case. */
  lemma RestoringPass(spec: ScalerSpec, managed: Managed, w: World, env: Env)
    requires FixedResources(spec, managed, env)
    requires ReconcilePass(spec, w, env).scaled.Some? && !IsScaling(ReconcilePass(spec, w, env).scaled.value.period.kind)
    ensures var r := ReconcilePass(spec, w, env);
      && (r.scaled.value.failed == [] ==> AllClean(spec, managed, r.world.objects))
      && (AllClean(spec, managed, w.objects) ==> AllClean(spec, managed, r.world.objects))
  {
    var p := ReconcilePass(spec, w, env).scaled.value.period;
    PassScales(spec, w, env);
    RestoringCleansAll(spec, managed, w.objects, env, p);
    if AllClean(spec, managed, w.objects) {
      RestoringCleanKinds(spec, managed, w.objects, env, p, |EffectiveTypes(spec.types)|);
      SameIsClean(spec, managed, w.objects, ReconcilePass(spec, w, env).world.objects);
    }
  }

  lemma SameIsClean(spec: ScalerSpec, managed: Managed, a: Workloads, b: Workloads)
    requires AllClean(spec, managed, a) && SameWorkloads(b, a)
    ensures AllClean(spec, managed, b)
  {
    forall t | t in EffectiveTypes(spec.types)
      ensures CleanType(managed, b, t)
    {
      assert CleanType(managed, a, t);
    }
  }

  lemma PassKeepsSkipSafe(spec: ScalerSpec, managed: Managed, w: World, env: Env)
    requires SkipIsSafe(spec, managed, w) && FixedResources(spec, managed, env) && NotesScaling(spec, w, env)
    ensures SkipIsSafe(spec, managed, ReconcilePass(spec, w, env).world)
  {
    var r := ReconcilePass(spec, w, env);
    PassScales(spec, w, env);
    if !w.deleting {
      if env.statusPatch.Patched? {
        PassWritesStatus(spec, w, env);
      } else {
        LostWriteKeepsStatus(spec, w, env);
      }
      if r.scaled.Some? && !IsScaling(r.scaled.value.period.kind) {
        RestoringPass(spec, managed, w, env);
      }
    }
  }

  /** From an unscaled start: a persisted "noaction" without failures means that every managed workload is clean. */
  lemma {:induction false} RunIsSkipSafe(spec: ScalerSpec, managed: Managed, w: World, events: seq<Event>)
    requires w.status == None && forall i :: 0 <= i < |events| ==> WellBehaved(spec, managed, w, events, i)
    ensures SkipIsSafe(spec, managed, RunWorld(spec, w, events))
  {
    if events != [] {
      var before, last := events[..|events| - 1], events[|events| - 1];
      forall i | 0 <= i < |before|
        ensures WellBehaved(spec, managed, w, before, i)
      {
        assert WellBehaved(spec, managed, w, events, i) && before[..i] == events[..i];
      }
      RunIsSkipSafe(spec, managed, w, before);
      assert WellBehaved(spec, managed, w, events, |before|);
      if last.Reconciled? {
        PassKeepsSkipSafe(spec, managed, RunWorld(spec, w, before), last.env);
      }
    }
  }

  /** Every managed workload shows its first original. */
  ghost predicate AllRestored(spec: ScalerSpec, managed: Managed, first: Workloads, objects: Workloads) {
    forall t, ref :: t in EffectiveTypes(spec.types) && StrategyOf(t).Some? && ref in ManagedOf(managed, t) ==>
      ref in ObjectsOf(first, t) && ref in ObjectsOf(objects, t)
      && IsRestored(StrategyOf(t).value, ObjectsOf(first, t)[ref], ObjectsOf(objects, t)[ref])
  }

  lemma CleanIsRestored(spec: ScalerSpec, managed: Managed, first: Workloads, objects: Workloads)
    requires AllTracked(first, objects) && AllClean(spec, managed, objects)
    ensures AllRestored(spec, managed, first, objects)
  {
    forall t, ref | t in EffectiveTypes(spec.types) && StrategyOf(t).Some? && ref in ManagedOf(managed, t)
      ensures ref in ObjectsOf(first, t) && ref in ObjectsOf(objects, t)
        && IsRestored(StrategyOf(t).value, ObjectsOf(first, t)[ref], ObjectsOf(objects, t)[ref])
    {
      var s := StrategyOf(t).value;
      assert CleanType(managed, objects, t);
      assert IsClean(s, ObjectsOf(objects, t), ref);
      assert Tracked(s, ObjectsOf(first, t), ObjectsOf(objects, t));
      NothingRecordedIsRestored(s, ObjectsOf(first, t)[ref], ObjectsOf(objects, t)[ref]);
    }
  }

  /**
   * The steady-state skip is safe. After any run with a fixed resource set in which every down and up pass got
   * its status write through,
   * a pass that takes the skip while the status lists no failure finds every managed workload showing its
   * first original, and the chain it skips would have changed none, however the API behaves.
   */
  lemma NoactionSkipIsSafe(spec: ScalerSpec, managed: Managed, first: Workloads, w: World, events: seq<Event>, env: Env)
    requires w.status == None && AllTracked(first, w.objects)
    requires forall i :: 0 <= i < |events| ==> WellBehaved(spec, managed, w, events, i)
    requires FixedResources(spec, managed, env)
    requires TakesSkip(spec, RunWorld(spec, w, events), env) && RunWorld(spec, w, events).status.value.failed == []
    ensures var at := RunWorld(spec, w, events);
      var p := SelectFor(spec, at, false, env).period;
      && AllRestored(spec, managed, first, at.objects)
      && (!Mixed(EffectiveTypes(spec.types)) ==> ScaleAll(spec, at.objects, env, p).success == [])
      && SameWorkloads(ScaleAll(spec, at.objects, env, p).objects, at.objects)
  {
    var at := RunWorld(spec, w, events);
    RunIsSkipSafe(spec, managed, w, events);
    RunKeepsOriginals(spec, w, first, events);
    CleanIsRestored(spec, managed, first, at.objects);
    RestoringCleanKinds(spec, managed, at.objects, env, SelectFor(spec, at, false, env).period, |EffectiveTypes(spec.types)|);
  }

  /** The skip looks at neither the workloads nor the failures: it changes none of them, always. */
  lemma SkipChangesNothing(spec: ScalerSpec, w: World, env: Env)
    requires TakesSkip(spec, w, env)
    ensures ReconcilePass(spec, w, env) == PassResult(Guarded(w), NoError, RECONCILE_SUCCESS, None)
  {
    PassIsSelectionStep(spec, w, env);
  }

  // ---- deletion ----

  /** A pass that gets as far as selecting a period, during a deletion. */
  predicate ReachesCleanup(w: World, env: Env) {
    env.fetch.Fetched? && env.auth.Authenticated? && w.deleting && w.finalizer
  }

  /** With restore-on-delete, whatever the periods, cleanup scales with the fallback, then removes the finalizer. */
  lemma CleanupRestoresFirst(spec: ScalerSpec, w: World, env: Env)
    requires ReachesCleanup(w, env) && spec.restoreOnDelete
    ensures var r := ReconcilePass(spec, w, env);
      r.scaled.Some? && r.scaled.value.period.kind == Noaction
      && (r.world.finalizer <==> !env.removeFinalizer.Patched?)
  {
    ForcedRestoreSelectsNoaction(spec.periods, w.status, env.clock, spec.sha1);
  }

  /**
   * A pass that takes the finalizer away, with restore-on-delete, has restored first: every managed
   * workload shows its first original, or the pass recorded a failure.
   */
  lemma DeletionRestores(spec: ScalerSpec, managed: Managed, first: Workloads, w: World, events: seq<Event>, env: Env)
    requires AllTracked(first, w.objects) && FixedResources(spec, managed, env) && spec.restoreOnDelete
    requires RunWorld(spec, w, events).finalizer && !ReconcilePass(spec, RunWorld(spec, w, events), env).world.finalizer
    ensures var r := ReconcilePass(spec, RunWorld(spec, w, events), env);
      && r.scaled.Some? && r.scaled.value.period.kind == Noaction && RunWorld(spec, w, events).deleting
      && (r.scaled.value.failed == [] ==> AllRestored(spec, managed, first, r.world.objects))
  {
    var at := RunWorld(spec, w, events);
    var r := ReconcilePass(spec, at, env);
    FinalizerLeavesOnlyInCleanup(spec, at, env);
    CleanupRestoresFirst(spec, at, env);
    PassScales(spec, at, env);
    RestoringCleansAll(spec, managed, at.objects, env, r.scaled.value.period);
    if r.scaled.value.failed == [] {
      assert RunWorld(spec, w, events + [Reconciled(env)]) == r.world by {
        assert (events + [Reconciled(env)])[..|events|] == events;
      }
      RunKeepsOriginals(spec, w, first, events + [Reconciled(env)]);
      CleanIsRestored(spec, managed, first, r.world.objects);
    }
  }

  lemma FinalizerLeavesOnlyInCleanup(spec: ScalerSpec, w: World, env: Env)
    requires w.finalizer && !ReconcilePass(spec, w, env).world.finalizer
    ensures ReachesCleanup(w, env) && env.removeFinalizer.Patched?
  {
    PassIsSelectionStep(spec, w, env);
    SelectionStepFacts(spec, Guarded(w), w.deleting, env, SelectFor(spec, w, w.deleting, env));
  }

  /**
   * When exactly a cleanup pass whose patch would succeed removes the finalizer: always with
   * restore-on-delete; otherwise only if the periods load and the active one is not a run-once period
   * that already ran. In the other cases the deletion is refused with a critical error.
   */
  lemma CleanupSucceedsExactlyWhen(spec: ScalerSpec, w: World, env: Env)
    requires ReachesCleanup(w, env) && env.removeFinalizer.Patched?
    ensures var chosen := Choose(spec.periods, false, env.clock, spec.sha1);
      var allowed := spec.restoreOnDelete || (chosen.Ok? && !AlreadyRan(chosen.value, w.status));
      && (!ReconcilePass(spec, w, env).world.finalizer <==> allowed)
      && (!allowed ==> ReconcilePass(spec, w, env).error.Critical? && ReconcilePass(spec, w, env).world.objects == w.objects)
  {
    ForcedRestoreSelectsNoaction(spec.periods, w.status, env.clock, spec.sha1);
  }

  // ---- run-once ----

  /** A pass that scales, outside a deletion, never does so with a run-once period that already ran. */
  lemma FullPassIsNotARepeat(spec: ScalerSpec, w: World, env: Env)
    requires !w.deleting && ReconcilePass(spec, w, env).scaled.Some?
    ensures !AlreadyRan(ReconcilePass(spec, w, env).scaled.value.period, w.status)
  {
    PassIsSelectionStep(spec, w, env);
    SelectionStepFacts(spec, Guarded(w), w.deleting, env, SelectFor(spec, w, w.deleting, env));
  }

  /** What one pass makes of the digest in the status, outside a deletion. */
  lemma PassDigest(spec: ScalerSpec, w: World, env: Env, hash: Digest)
    requires !w.deleting && env.statusPatch.Patched?
    requires match ReconcilePass(spec, w, env).scaled
      case None => HasDigest(w, hash)
      case Some(report) => report.period.hash == hash
    ensures HasDigest(ReconcilePass(spec, w, env).world, hash)
  {
    PassScales(spec, w, env);
    PassWritesStatus(spec, w, env);
  }

  predicate HasDigest(w: World, hash: Digest) {
    !w.deleting && w.status.Some? && w.status.value.specSHA == hash
  }

  lemma RunToPass(spec: ScalerSpec, w: World, events: seq<Event>, k: nat)
    requires k < |events| && events[k].Reconciled?
    ensures RunWorld(spec, w, events[..k + 1]) == PassAt(spec, w, events, k).world
  {
    assert events[..k + 1][..k] == events[..k];
  }

  /** Pass `k` leaves the digest `hash` alone: it does not scale, or it scales with that digest. */
  predicate KeepsDigest(spec: ScalerSpec, w: World, events: seq<Event>, k: nat, hash: Digest)
    requires k < |events|
  {
    events[k].Reconciled? && events[k].env.statusPatch.Patched?
    && (PassAt(spec, w, events, k).scaled.Some? ==> PassAt(spec, w, events, k).scaled.value.period.hash == hash)
  }

  lemma OneMorePass(spec: ScalerSpec, w: World, events: seq<Event>, k: nat, hash: Digest)
    requires k < |events| && KeepsDigest(spec, w, events, k, hash) && !RunWorld(spec, w, events[..k]).deleting
    requires PassAt(spec, w, events, k).scaled.Some? || HasDigest(RunWorld(spec, w, events[..k]), hash)
    ensures HasDigest(RunWorld(spec, w, events[..k + 1]), hash)
  {
    PassDigest(spec, RunWorld(spec, w, events[..k]), events[k].env, hash);
    RunToPass(spec, w, events, k);
  }

  predicate DigestAt(spec: ScalerSpec, w: World, events: seq<Event>, k: nat, hash: Digest) {
    k <= |events| && HasDigest(RunWorld(spec, w, events[..k]), hash)
  }

  lemma DigestOneMore(spec: ScalerSpec, w: World, events: seq<Event>, k: nat, hash: Digest)
    requires k < |events| && KeepsDigest(spec, w, events, k, hash) && DigestAt(spec, w, events, k, hash)
    ensures DigestAt(spec, w, events, k + 1, hash)
  {
    OneMorePass(spec, w, events, k, hash);
  }

  /** The digest of a full pass stays in the status until a full pass with another digest. */
  lemma {:induction false} DigestStays(spec: ScalerSpec, w: World, events: seq<Event>, i: nat, j: nat, hash: Digest)
    requires i < j <= |events| && DigestAt(spec, w, events, i + 1, hash)
    requires forall k :: i < k < j ==> KeepsDigest(spec, w, events, k, hash)
    ensures DigestAt(spec, w, events, j, hash)
    decreases j
  {
    if i + 1 < j {
      var k := j - 1;
      DigestStays(spec, w, events, i, k, hash);
      DigestOneMore(spec, w, events, k, hash);
    }
  }

  /**
   * Outside a deletion, with successful status writes: between two passes that scale with the same digest,
   * the second of them run-once, there is always a pass that scales with another digest.
   */
  lemma RunOnceRunsOnce(spec: ScalerSpec, w: World, events: seq<Event>, i: nat, j: nat)
    requires i < j < |events| && forall k :: i <= k <= j ==> events[k].Reconciled? && events[k].env.statusPatch.Patched?
    requires !RunWorld(spec, w, events[..i]).deleting
    requires PassAt(spec, w, events, i).scaled.Some? && PassAt(spec, w, events, j).scaled.Some?
    requires PassAt(spec, w, events, j).scaled.value.period.once.Deref(false)
    requires PassAt(spec, w, events, i).scaled.value.period.hash == PassAt(spec, w, events, j).scaled.value.period.hash
    ensures exists k :: i < k < j && PassAt(spec, w, events, k).scaled.Some?
                        && PassAt(spec, w, events, k).scaled.value.period.hash != PassAt(spec, w, events, i).scaled.value.period.hash
  {
    var hash := PassAt(spec, w, events, i).scaled.value.period.hash;
    if forall k :: i < k < j ==> KeepsDigest(spec, w, events, k, hash) {
      OneMorePass(spec, w, events, i, hash);
      DigestStays(spec, w, events, i, j, hash);
      FullPassIsNotARepeat(spec, RunWorld(spec, w, events[..j]), events[j].env);
      assert false;
    }
  }

  /** The run-once exit changes no workload and no status, and always comes back after a strictly positive delay. */
  lemma RunOnceExitComesBack(spec: ScalerSpec, w: World, env: Env)
    requires ReachesPeriod(w, env) && SelectFor(spec, w, false, env).RunOnce?
    ensures var r := ReconcilePass(spec, w, env);
      && r.world == Guarded(w) && r.error.NoError? && r.scaled.None? && ToQueue(r.error, r.requeueAfter).requeueAfter > 0
      && var wakes, end := env.later + ToQueue(r.error, r.requeueAfter).requeueAfter, SelectFor(spec, w, false, env).period.endTime;
         if env.later < end + 5 * SECOND then wakes == end + 5 * SECOND else wakes == env.later + 30 * SECOND
  {
    PassIsSelectionStep(spec, w, env);
  }

  // ---- what a pass leaves to the work queue ----

  /** The controller neither backs off nor comes back by itself. */
  predicate GoesQuiet(r: PassResult) {
    ToQueue(r.error, r.requeueAfter) == QueueResult(false, 0)
  }

  /**
   * For a scaler that is there and stays there: a pass goes quiet with its work undone, leaving a scaler that
   * is not finalized to the next event, exactly if the auth secret is missing when the pass gets to it.
   */
  lemma GoesQuietExactlyWhen(spec: ScalerSpec, w: World, env: Env)
    requires env.fetch.Fetched? && (w.finalizer || !w.deleting)
    requires !env.addFinalizer.PatchGone? && !env.statusPatch.PatchGone? && !env.removeFinalizer.PatchGone?
    ensures var r := ReconcilePass(spec, w, env);
      GoesQuiet(r) && !(w.deleting && !r.world.finalizer) <==> env.auth.SecretMissing? && (w.finalizer || env.addFinalizer.Patched?)
  {
    if env.auth.Authenticated? {
      PassIsSelectionStep(spec, w, env);
      if GetsToSelection(w, env) {
        StepGoesOn(spec, Guarded(w), w.deleting, env, SelectFor(spec, w, w.deleting, env));
      }
    }
  }

  /** From the selection on, a pass reports an error, comes back later, or has finalized the scaler. */
  lemma StepGoesOn(spec: ScalerSpec, w: World, finalizing: bool, env: Env, selection: Selection)
    requires w.finalizer && !env.statusPatch.PatchGone? && !env.removeFinalizer.PatchGone?
    ensures var r := SelectionStep(spec, w, finalizing, 0, env, selection);
      GoesQuiet(r) <==> finalizing && !r.world.finalizer
  {
  }

  /** A pass that does not get to selecting a period: what it changes, and when it comes back. */
  lemma EarlyExit(spec: ScalerSpec, w: World, env: Env)
    requires !GetsToSelection(w, env)
    ensures var r := ReconcilePass(spec, w, env);
      var queue := ToQueue(r.error, r.requeueAfter);
      && r.scaled.None?
      && if env.fetch.FetchNotFound? then r.world == w && queue == QueueResult(false, 0)
         else if env.fetch.FetchError? then r.world == w && queue == QueueResult(false, 600 * SECOND)
         else if w.deleting && !w.finalizer then r.world == w && queue == QueueResult(false, 0)
         else if !w.finalizer && env.addFinalizer.PatchGone? then r.world == w && queue == QueueResult(false, 0)
         else if !w.finalizer && env.addFinalizer.PatchFailed? then r.world == w && queue == QueueResult(false, 600 * SECOND)
         else r.world == Guarded(w) && queue == QueueResult(!env.auth.SecretMissing?, 0)
  {
    if w.finalizer {
      assert Guarded(w) == w;
    }
  }

  lemma StepEnds(spec: ScalerSpec, w: World, finalizing: bool, env: Env, selection: Selection)
    requires SelectionStep(spec, w, finalizing, 0, env, selection).scaled.Some?
    ensures var r := SelectionStep(spec, w, finalizing, 0, env, selection);
      if finalizing then ToQueue(r.error, r.requeueAfter) == QueueResult(false, if env.removeFinalizer.PatchFailed? then 600 * SECOND else 0)
      else match env.statusPatch
        case Patched => ToQueue(r.error, r.requeueAfter) == QueueResult(false, 60 * SECOND) && r.world.comments == Some(TimePeriodProcessed)
        case PatchFailed => ToQueue(r.error, r.requeueAfter) == QueueResult(false, 600 * SECOND)
        case PatchGone => ToQueue(r.error, r.requeueAfter) == QueueResult(false, 0)
  {
  }

  /**
   * When a pass that scaled comes back: a minute after its status was written, ten minutes after a patch that
   * failed, and not at all when it finalized the scaler or the scaler is gone.
   */
  lemma ScalingPassEnds(spec: ScalerSpec, w: World, env: Env)
    requires ReconcilePass(spec, w, env).scaled.Some?
    ensures var r := ReconcilePass(spec, w, env);
      if w.deleting then ToQueue(r.error, r.requeueAfter) == QueueResult(false, if env.removeFinalizer.PatchFailed? then 600 * SECOND else 0)
      else match env.statusPatch
        case Patched => ToQueue(r.error, r.requeueAfter) == QueueResult(false, 60 * SECOND) && r.world.comments == Some(TimePeriodProcessed)
        case PatchFailed => ToQueue(r.error, r.requeueAfter) == QueueResult(false, 600 * SECOND)
        case PatchGone => ToQueue(r.error, r.requeueAfter) == QueueResult(false, 0)
  {
    PassIsSelectionStep(spec, w, env);
    StepEnds(spec, Guarded(w), w.deleting, env, SelectFor(spec, w, w.deleting, env));
  }

  /** A pass that is refused for its periods reports an error, and says why in the status if that patch gets through. */
  lemma RefusedPass(spec: ScalerSpec, w: World, env: Env)
    requires GetsToSelection(w, env)
    requires var selection := SelectFor(spec, w, w.deleting, env); selection.LoadFailed? || (selection.RunOnce? && w.deleting)
    ensures var r := ReconcilePass(spec, w, env);
      && ToQueue(r.error, r.requeueAfter) == QueueResult(true, 0) && r.scaled.None?
      && r.world == Guarded(w).(comments := if !env.commentsPatch.Patched? then w.comments
                                            else if SelectFor(spec, w, w.deleting, env).LoadFailed? then Some(UnableToLoadPeriod)
                                            else Some(RunOncePeriod))
  {
    PassIsSelectionStep(spec, w, env);
  }

  /** "hpa" has no handler: a scaler of HPAs changes nothing, and reports one failure of the whole type. */
  lemma HpaHasNoHandler(spec: ScalerSpec, objects: Workloads, env: Env, p: Period)
    requires spec.types == [Hpas]
    ensures ScaleAll(spec, objects, env, p) == Scaling(objects, [], [WholeType(Hpas)])
  {
    assert ScaleUpTo([Hpas], spec.names, objects, env, p, 0) == Scaling(objects, [], []);
    assert [] + [WholeType(Hpas)] == [WholeType(Hpas)];
  }
}
