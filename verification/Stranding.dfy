/**
 * When the steady-state skip of the K8s scaler controller goes wrong: exactly which lost status writes make
 * it unsafe, and exactly how long a workload that was left behind stays so.
 */
module Stranding {
  import opened Prelude
  import opened PeriodTypes
  import opened ActivePeriod
  import opened Strategies
  import opened ScalingRuns
  import opened Processor
  import opened Reconcile
  import opened ReconcileRuns
  import opened ResourceTypes

  // ---- scaling passes leave a record of everything they change ----

  ghost predicate LeavesRecords(before: Workloads, after: Workloads) {
    forall t, ref :: StrategyOf(t).Some? && ref in ObjectsOf(before, t) ==>
      SameOrRecorded(StrategyOf(t).value, ObjectsOf(before, t), ObjectsOf(after, t), ref)
  }

  lemma ScaleKindLeavesRecords(at: Scaling, resource: ResourceType, names: seq<string>, setup: KindSetup, p: Period)
    requires IsScaling(p.kind)
    ensures LeavesRecords(at.objects, ScaleKind(at, resource, names, setup, p).objects)
  {
    if StrategyOf(resource).Some? && setup.Ready? {
      var items := Targets(setup.nsList, names, setup.api);
      if items.Some? {
        ScalingChangesLeaveRecords(StrategyOf(resource).value, ObjectsOf(at.objects, resource), items.value, setup.api, p, |items.value|);
      }
    }
  }

  lemma LeavesRecordsTwice(a: Workloads, b: Workloads, c: Workloads)
    requires LeavesRecords(a, b) && LeavesRecords(b, c)
    ensures LeavesRecords(a, c)
  {
    forall t, ref | StrategyOf(t).Some? && ref in ObjectsOf(a, t)
      ensures SameOrRecorded(StrategyOf(t).value, ObjectsOf(a, t), ObjectsOf(c, t), ref)
    {
      assert SameOrRecorded(StrategyOf(t).value, ObjectsOf(a, t), ObjectsOf(b, t), ref);
      assert SameOrRecorded(StrategyOf(t).value, ObjectsOf(b, t), ObjectsOf(c, t), ref);
    }
  }

  lemma {:induction false} ScaleUpToLeavesRecords(types: seq<ResourceType>, names: seq<string>, objects: Workloads, env: Env, p: Period, n: nat)
    requires IsScaling(p.kind) && n <= |types|
    ensures LeavesRecords(objects, ScaleUpTo(types, names, objects, env, p, n).objects)
    decreases n
  {
    if n > 0 {
      var before := ScaleUpTo(types, names, objects, env, p, n - 1);
      ScaleUpToLeavesRecords(types, names, objects, env, p, n - 1);
      ScaleKindLeavesRecords(before, types[n - 1], names, env.Setup(n - 1), p);
      LeavesRecordsTwice(objects, before.objects, ScaleUpTo(types, names, objects, env, p, n).objects);
    }
  }

  predicate SameType(managed: Managed, a: Workloads, b: Workloads, t: ResourceType) {
    StrategyOf(t).Some? ==>
      forall ref :: ref in ManagedOf(managed, t) ==>
        ref in ObjectsOf(a, t) && ref in ObjectsOf(b, t) && ObjectsOf(a, t)[ref] == ObjectsOf(b, t)[ref]
  }

  /** Every managed workload is stored as before. */
  predicate ManagedSame(spec: ScalerSpec, managed: Managed, a: Workloads, b: Workloads) {
    forall t :: t in EffectiveTypes(spec.types) ==> SameType(managed, a, b, t)
  }

  /** From clean workloads, they are clean after a scaling pass exactly if it changed none of them. */
  lemma CleanExactlyWhenSame(spec: ScalerSpec, managed: Managed, a: Workloads, b: Workloads)
    requires AllClean(spec, managed, a) && LeavesRecords(a, b)
    ensures AllClean(spec, managed, b) <==> ManagedSame(spec, managed, a, b)
  {
    forall t | t in EffectiveTypes(spec.types)
      ensures CleanType(managed, b, t) <==> SameType(managed, a, b, t)
    {
      assert CleanType(managed, a, t);
      if StrategyOf(t).Some? {
        forall ref | ref in ManagedOf(managed, t)
          ensures ref in ObjectsOf(a, t) && ref in ObjectsOf(b, t)
          ensures IsClean(StrategyOf(t).value, ObjectsOf(b, t), ref) <==> ObjectsOf(a, t)[ref] == ObjectsOf(b, t)[ref]
        {
          assert IsClean(StrategyOf(t).value, ObjectsOf(a, t), ref);
          assert SameOrRecorded(StrategyOf(t).value, ObjectsOf(a, t), ObjectsOf(b, t), ref);
        }
      }
    }
  }

  // ---- which lost status writes make the skip unsafe ----

  predicate NotedRestored(w: World) {
    LastWasNoaction(w.status) && w.status.value.failed == []
  }

  /**
   * A pass that loses track: outside a deletion, with "noaction" and no failure persisted, it scaled down or
   * up, changed some managed workload, and its status write did not get through.
   */
  predicate LosesTrack(spec: ScalerSpec, managed: Managed, w: World, env: Env) {
    var r := ReconcilePass(spec, w, env);
    && !w.deleting && NotedRestored(w)
    && r.scaled.Some? && IsScaling(r.scaled.value.period.kind) && !env.statusPatch.Patched?
    && !ManagedSame(spec, managed, w.objects, r.world.objects)
  }

  /** One pass over a safe world: the skip is unsafe afterwards exactly if the pass lost track. */
  lemma SkipStaysSafeExactlyWhen(spec: ScalerSpec, managed: Managed, w: World, env: Env)
    requires SkipIsSafe(spec, managed, w) && FixedResources(spec, managed, env)
    ensures SkipIsSafe(spec, managed, ReconcilePass(spec, w, env).world) <==> !LosesTrack(spec, managed, w, env)
  {
    if NotesScaling(spec, w, env) {
      PassKeepsSkipSafe(spec, managed, w, env);
    } else {
      LostScalingPass(spec, managed, w, env);
    }
  }

  lemma LostScalingPass(spec: ScalerSpec, managed: Managed, w: World, env: Env)
    requires SkipIsSafe(spec, managed, w) && !NotesScaling(spec, w, env)
    ensures SkipIsSafe(spec, managed, ReconcilePass(spec, w, env).world) <==> !LosesTrack(spec, managed, w, env)
  {
    var r := ReconcilePass(spec, w, env);
    var types := EffectiveTypes(spec.types);
    PassScales(spec, w, env);
    if !w.deleting {
      LostWriteKeepsStatus(spec, w, env);
      if NotedRestored(w) {
        ScaleUpToLeavesRecords(types, spec.names, w.objects, env, r.scaled.value.period, |types|);
        if Mixed(types) {
          assert r.world.objects == w.objects;
          CleanIsSame(spec, managed, w.objects);
        } else {
          CleanExactlyWhenSame(spec, managed, w.objects, r.world.objects);
        }
      }
    }
  }

  lemma CleanIsSame(spec: ScalerSpec, managed: Managed, a: Workloads)
    requires AllClean(spec, managed, a)
    ensures ManagedSame(spec, managed, a, a)
  {
    forall t | t in EffectiveTypes(spec.types)
      ensures SameType(managed, a, a, t)
    {
      assert CleanType(managed, a, t);
    }
  }

  /** The skip is safe after each of the first `n` events. */
  ghost predicate SafeUpTo(spec: ScalerSpec, managed: Managed, w: World, events: seq<Event>, n: nat)
    requires n <= |events|
  {
    forall i :: 0 <= i <= n ==> SkipIsSafe(spec, managed, RunWorld(spec, w, events[..i]))
  }

  /** Event `i` is a pass that loses track. */
  predicate LosesTrackAt(spec: ScalerSpec, managed: Managed, w: World, events: seq<Event>, i: nat)
    requires i < |events|
  {
    events[i].Reconciled? && LosesTrack(spec, managed, RunWorld(spec, w, events[..i]), events[i].env)
  }

  lemma StepStaysSafeExactlyWhen(spec: ScalerSpec, managed: Managed, w: World, events: seq<Event>, i: nat)
    requires i < |events| && SkipIsSafe(spec, managed, RunWorld(spec, w, events[..i]))
    requires events[i].Reconciled? ==> FixedResources(spec, managed, events[i].env)
    ensures SkipIsSafe(spec, managed, RunWorld(spec, w, events[..i + 1])) <==> !LosesTrackAt(spec, managed, w, events, i)
  {
    assert events[..i + 1][..i] == events[..i];
    if events[i].Reconciled? {
      SkipStaysSafeExactlyWhen(spec, managed, RunWorld(spec, w, events[..i]), events[i].env);
    }
  }

  /** None of the first `n` events is a pass that loses track. */
  predicate KeepsTrack(spec: ScalerSpec, managed: Managed, w: World, events: seq<Event>, n: nat)
    requires n <= |events|
  {
    forall i :: 0 <= i < n ==> !LosesTrackAt(spec, managed, w, events, i)
  }

  /** The resource set does not change during the run. */
  ghost predicate FixedThroughout(spec: ScalerSpec, managed: Managed, events: seq<Event>) {
    forall i :: 0 <= i < |events| && events[i].Reconciled? ==> FixedResources(spec, managed, events[i].env)
  }

  lemma OneMoreTracked(spec: ScalerSpec, managed: Managed, w: World, events: seq<Event>, n: nat)
    requires n < |events|
    ensures SafeUpTo(spec, managed, w, events, n + 1) <==>
      SafeUpTo(spec, managed, w, events, n) && SkipIsSafe(spec, managed, RunWorld(spec, w, events[..n + 1]))
    ensures SafeUpTo(spec, managed, w, events, n) ==> SkipIsSafe(spec, managed, RunWorld(spec, w, events[..n]))
    ensures KeepsTrack(spec, managed, w, events, n + 1) <==> KeepsTrack(spec, managed, w, events, n) && !LosesTrackAt(spec, managed, w, events, n)
  {
  }

  /** Over every run with a fixed resource set, the skip is safe throughout exactly if no pass loses track. */
  lemma {:induction false} RunIsSafeExactlyWhen(spec: ScalerSpec, managed: Managed, w: World, events: seq<Event>, n: nat)
    requires n <= |events| && SkipIsSafe(spec, managed, w) && FixedThroughout(spec, managed, events)
    ensures SafeUpTo(spec, managed, w, events, n) <==> KeepsTrack(spec, managed, w, events, n)
    decreases n
  {
    if n > 0 {
      var k := n - 1;
      RunIsSafeExactlyWhen(spec, managed, w, events, k);
      OneMoreTracked(spec, managed, w, events, k);
      if SafeUpTo(spec, managed, w, events, k) {
        StepStaysSafeExactlyWhen(spec, managed, w, events, k);
      }
    }
  }

  // ---- how long the skip lasts ----

  /** What would be selected asks for no scaling: noaction, an exit of a run-once period, or a period that fails to load. */
  predicate AsksNothing(spec: ScalerSpec, status: Option<StatusPeriod>, env: Env) {
    var selection := Select(spec.periods, status, false, env.clock, spec.sha1);
    selection.Selected? ==> selection.period.kind == Noaction
  }

  /** While "noaction" is persisted, a pass scales exactly if it selects something else; otherwise it keeps workloads and status. */
  lemma ScalesExactlyWhen(spec: ScalerSpec, w: World, env: Env)
    requires !w.deleting && LastWasNoaction(w.status)
    ensures var r := ReconcilePass(spec, w, env);
      && (r.scaled.Some? <==> GetsToSelection(w, env) && !AsksNothing(spec, w.status, env))
      && (r.scaled.None? ==> r.world.objects == w.objects && r.world.status == w.status && !r.world.deleting)
  {
    PassIsSelectionStep(spec, w, env);
    SelectionStepFacts(spec, Guarded(w), false, env, SelectFor(spec, w, false, env));
  }

  /** Event `i` is a pass that gets to selecting a period and, by the status the run started from, is asked to scale. */
  predicate AskedAt(spec: ScalerSpec, w: World, events: seq<Event>, i: nat)
    requires i < |events|
  {
    events[i].Reconciled? && GetsToSelection(RunWorld(spec, w, events[..i]), events[i].env) && !AsksNothing(spec, w.status, events[i].env)
  }

  predicate ScalesAt(spec: ScalerSpec, w: World, events: seq<Event>, i: nat)
    requires i < |events|
  {
    events[i].Reconciled? && PassAt(spec, w, events, i).scaled.Some?
  }

  /** The first `n` events are passes, none of which is asked to scale. */
  predicate NothingAsked(spec: ScalerSpec, w: World, events: seq<Event>, n: nat)
    requires n <= |events|
  {
    forall i :: 0 <= i < n ==> events[i].Reconciled? && !AskedAt(spec, w, events, i)
  }

  /** The first `n` events are passes, none of which scales. */
  predicate NothingScaled(spec: ScalerSpec, w: World, events: seq<Event>, n: nat)
    requires n <= |events|
  {
    forall i :: 0 <= i < n ==> events[i].Reconciled? && !ScalesAt(spec, w, events, i)
  }

  /** The workloads and the status are those of `w`, and no deletion was requested. */
  predicate Unmoved(w: World, at: World) {
    at.objects == w.objects && at.status == w.status && !at.deleting
  }

  lemma StepStaysUnmoved(spec: ScalerSpec, w: World, events: seq<Event>, i: nat)
    requires i < |events| && events[i].Reconciled?
    requires LastWasNoaction(w.status) && Unmoved(w, RunWorld(spec, w, events[..i]))
    ensures ScalesAt(spec, w, events, i) <==> AskedAt(spec, w, events, i)
    ensures !ScalesAt(spec, w, events, i) ==> Unmoved(w, RunWorld(spec, w, events[..i + 1]))
  {
    ScalesExactlyWhen(spec, RunWorld(spec, w, events[..i]), events[i].env);
    RunToPass(spec, w, events, i);
  }

  lemma OneMore(spec: ScalerSpec, w: World, events: seq<Event>, n: nat)
    requires n < |events|
    ensures NothingAsked(spec, w, events, n + 1) <==>
      NothingAsked(spec, w, events, n) && events[n].Reconciled? && !AskedAt(spec, w, events, n)
    ensures NothingScaled(spec, w, events, n + 1) <==>
      NothingScaled(spec, w, events, n) && events[n].Reconciled? && !ScalesAt(spec, w, events, n)
  {
  }

  /**
   * After a persisted "noaction", for every sequence of passes: none of them scales exactly if none is asked
   * to, and then the workloads and the status never move, whatever the status lists as failed.
   */
  lemma {:induction false} StaysUnmovedExactlyWhen(spec: ScalerSpec, w: World, events: seq<Event>, n: nat)
    requires n <= |events| && !w.deleting && LastWasNoaction(w.status)
    ensures NothingScaled(spec, w, events, n) <==> NothingAsked(spec, w, events, n)
    ensures NothingScaled(spec, w, events, n) ==> Unmoved(w, RunWorld(spec, w, events[..n]))
    decreases n
  {
    if n > 0 {
      var k := n - 1;
      StaysUnmovedExactlyWhen(spec, w, events, k);
      OneMore(spec, w, events, k);
      if NothingScaled(spec, w, events, k) && events[k].Reconciled? {
        StepStaysUnmoved(spec, w, events, k);
      }
    }
  }

  /** A whole run that is not asked to scale. */
  lemma IdleRunIsUnmoved(spec: ScalerSpec, w: World, events: seq<Event>)
    requires !w.deleting && LastWasNoaction(w.status) && NothingAsked(spec, w, events, |events|)
    ensures Unmoved(w, RunWorld(spec, w, events))
  {
    StaysUnmovedExactlyWhen(spec, w, events, |events|);
    assert events[..|events|] == events;
  }

  // ---- one deployment left behind ----

  /** A scaler of deployments whose only one is `ref`, met by an API that lists it and treats its update by `fate`. */
  predicate OneDeployment(spec: ScalerSpec, w: World, env: Env, ref: ObjectRef, fate: Fate) {
    spec.types == [Deployments] && spec.names == []
    && ref in ObjectsOf(w.objects, Deployments) && ObjectsOf(w.objects, Deployments)[ref].live.ReplicaCount?
    && env.kinds == [Ready([ref.namespace], ApiBehaviour(map[ref.namespace := Listed([ref])], [fate]))]
  }

  lemma ListOne(namespace: string, ref: ObjectRef, api: ApiBehaviour)
    requires api.List(namespace) == Listed([ref])
    ensures Targets([namespace], [], api) == Some([ref])
  {
    var all := [namespace];
    assert all[..|all| - 1] == [] && AllListed([], api) == Some([]);
    assert AllListed(all, api) == Some([] + [ref]);
    assert [] + [ref] == [ref];
  }

  lemma ProcessOnlyOne(s: Strategy, objects: map<ObjectRef, Obj>, ref: ObjectRef, api: ApiBehaviour, p: Period)
    requires api.List(ref.namespace) == Listed([ref])
    ensures var done := ProcessOne(s, Progress(objects, [], [], false), ref, api.FateOf(0), p);
      Process(s, objects, [ref.namespace], [], api, p) == CallResult(done.objects, done.success, done.failed, done.cancelled)
  {
    ListOne(ref.namespace, ref, api);
    assert ProcessUpTo(s, objects, [ref], api, p, 0) == Progress(objects, [], [], false);
  }

  lemma ScaleOneDeployment(spec: ScalerSpec, w: World, env: Env, ref: ObjectRef, fate: Fate, p: Period)
    requires OneDeployment(spec, w, env, ref, fate) && !fate.NotRead?
    requires Apply(IntReplicas, ObjectsOf(w.objects, Deployments)[ref], p.kind, p).Changed?
    ensures var scaling := ScaleAll(spec, w.objects, env, p);
      var o := Apply(IntReplicas, ObjectsOf(w.objects, Deployments)[ref], p.kind, p).obj;
      && ref in ObjectsOf(scaling.objects, Deployments)
      && ObjectsOf(scaling.objects, Deployments)[ref] == (if Reaches(fate) then o else ObjectsOf(w.objects, Deployments)[ref])
      && (fate == Rejected(false) ==> scaling.failed == [OneObject(Deployments, ref.name)])
      && (fate == Stored ==> scaling.failed == [] && scaling.success == [OneObject(Deployments, ref.name)])
  {
    ProcessOnlyOne(IntReplicas, ObjectsOf(w.objects, Deployments), ref, env.kinds[0].api, p);
    assert !Mixed(spec.types);
    assert ScaleUpTo(spec.types, [], w.objects, env, p, 0) == Scaling(w.objects, [], []);
    assert ScaleAll(spec, w.objects, env, p) == ScaleKind(Scaling(w.objects, [], []), Deployments, [], env.Setup(0), p);
    assert [] + Tag(Deployments, [ref.name]) == [OneObject(Deployments, ref.name)];
  }

  /** The selection of a pass that gets as far as selecting a period, outside a deletion. */
  predicate Selects(spec: ScalerSpec, w: World, env: Env, kind: PeriodKind) {
    ReachesPeriod(w, env) && SelectFor(spec, w, false, env).Selected? && SelectFor(spec, w, false, env).period.kind == kind
  }

  /** A pass that selects a period and does not skip scales with it. */
  lemma SelectedPassScales(spec: ScalerSpec, w: World, env: Env, kind: PeriodKind)
    requires Selects(spec, w, env, kind) && !(LastWasNoaction(w.status) && kind == Noaction)
    ensures var r := ReconcilePass(spec, w, env);
      r.scaled.Some? && r.scaled.value.period == SelectFor(spec, w, false, env).period && !r.world.deleting
  {
    PassIsSelectionStep(spec, w, env);
    SelectionStepFacts(spec, Guarded(w), false, env, SelectFor(spec, w, false, env));
  }

  /** The deployment runs with `replicas` and carries a record of its original. */
  predicate ScaledAndRecorded(objects: Workloads, ref: ObjectRef, replicas: int) {
    ref in ObjectsOf(objects, Deployments)
    && ObjectsOf(objects, Deployments)[ref].live == ReplicaCount(Some(replicas))
    && !IsClean(IntReplicas, ObjectsOf(objects, Deployments), ref)
  }

  lemma DownPass(spec: ScalerSpec, w: World, down: Env, ref: ObjectRef)
    requires OneDeployment(spec, w, down, ref, Stored) && Selects(spec, w, down, Down)
    ensures var r := ReconcilePass(spec, w, down);
      && r.scaled.Some? && r.scaled.value.period == SelectFor(spec, w, false, down).period && !r.world.deleting
      && ScaledAndRecorded(r.world.objects, ref, r.scaled.value.period.minReplicas) && r.scaled.value.failed == []
      && Apply(IntReplicas, ObjectsOf(w.objects, Deployments)[ref], Down, r.scaled.value.period)
         == Changed(ObjectsOf(r.world.objects, Deployments)[ref])
  {
    var p := SelectFor(spec, w, false, down).period;
    SelectedPassScales(spec, w, down, Down);
    PassScales(spec, w, down);
    ScaleOneDeployment(spec, w, down, ref, Stored, p);
    ScalingLeavesRecord(IntReplicas, ObjectsOf(w.objects, Deployments)[ref], Down, p);
  }

  /**
   * A down pass whose status write is lost leaves "noaction" persisted. Over every later sequence of passes
   * that are not asked to scale, the deployment stays scaled down, with its record, and with no failure in
   * the status.
   */
  lemma LostStatusWriteStrands(spec: ScalerSpec, w: World, down: Env, ref: ObjectRef, later: seq<Event>)
    requires OneDeployment(spec, w, down, ref, Stored) && NotedRestored(w)
    requires Selects(spec, w, down, Down) && !down.statusPatch.Patched?
    requires NothingAsked(spec, ReconcilePass(spec, w, down).world, later, |later|)
    ensures var after := RunWorld(spec, ReconcilePass(spec, w, down).world, later);
      after.status == w.status && ScaledAndRecorded(after.objects, ref, SelectFor(spec, w, false, down).period.minReplicas)
  {
    DownPass(spec, w, down, ref);
    LostWriteKeepsStatus(spec, w, down);
    IdleRunIsUnmoved(spec, ReconcilePass(spec, w, down).world, later);
  }

  predicate SameDeployment(a: Workloads, b: Workloads, ref: ObjectRef) {
    ref in ObjectsOf(a, Deployments) && ref in ObjectsOf(b, Deployments)
    && ObjectsOf(a, Deployments)[ref] == ObjectsOf(b, Deployments)[ref]
  }

  lemma RejectedPass(spec: ScalerSpec, w: World, restore: Env, ref: ObjectRef)
    requires OneDeployment(spec, w, restore, ref, Rejected(false)) && !LastWasNoaction(w.status)
    requires !IsClean(IntReplicas, ObjectsOf(w.objects, Deployments), ref) && Decode(IntReplicas, ObjectsOf(w.objects, Deployments)[ref].annotations).Ok?
    requires Selects(spec, w, restore, Noaction)
    ensures var r := ReconcilePass(spec, w, restore);
      && r.scaled.Some? && r.scaled.value.period.kind == Noaction && !r.world.deleting
      && r.scaled.value.failed == [OneObject(Deployments, ref.name)] && SameDeployment(w.objects, r.world.objects, ref)
  {
    SelectedPassScales(spec, w, restore, Noaction);
    PassScales(spec, w, restore);
    ScaleOneDeployment(spec, w, restore, ref, Rejected(false), SelectFor(spec, w, false, restore).period);
  }

  /**
   * A restore whose update is rejected is recorded as a failure. Over every later sequence of passes that are
   * not asked to scale, it is not tried again: the deployment keeps its scaled replicas and its record, and
   * the status keeps the failure.
   */
  lemma RejectedRestoreIsNotRetried(spec: ScalerSpec, w: World, restore: Env, ref: ObjectRef, later: seq<Event>)
    requires OneDeployment(spec, w, restore, ref, Rejected(false)) && !LastWasNoaction(w.status)
    requires !IsClean(IntReplicas, ObjectsOf(w.objects, Deployments), ref) && Decode(IntReplicas, ObjectsOf(w.objects, Deployments)[ref].annotations).Ok?
    requires Selects(spec, w, restore, Noaction) && restore.statusPatch.Patched?
    requires NothingAsked(spec, ReconcilePass(spec, w, restore).world, later, |later|)
    ensures var after := RunWorld(spec, ReconcilePass(spec, w, restore).world, later);
      && LastWasNoaction(after.status) && after.status.value.failed == [OneObject(Deployments, ref.name)]
      && SameDeployment(w.objects, after.objects, ref)
  {
    RejectedPass(spec, w, restore, ref);
    PassWritesStatus(spec, w, restore);
    IdleRunIsUnmoved(spec, ReconcilePass(spec, w, restore).world, later);
  }
}
