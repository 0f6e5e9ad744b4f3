/**
 * What the success and failed lists of a pass say: exactly which objects they name, and that a workload that is
 * named as a success shows what the period in the spec asks for.
 */
module Reports {
  import opened Prelude
  import opened PeriodTypes
  import opened Periods
  import opened ActivePeriod
  import opened Annotations
  import opened Strategies
  import opened ScalingRuns
  import opened Processor
  import opened Reconcile
  import opened ReconcileRuns
  import opened ResourceTypes

  /** One call: the strategy, the stored objects, the listed items, the API and the period. */
  datatype Call = Call(s: Strategy, objects: map<ObjectRef, Obj>, items: seq<ObjectRef>, api: ApiBehaviour, p: Period) {
    function At(n: nat): Progress
      requires n <= |items|
    {
      ProcessUpTo(s, objects, items, api, p, n)
    }
  }

  // ---- what becomes of one item ----

  /** An object is updated: it was read, it changes, and the API stores the update and says so. */
  predicate Updates(s: Strategy, at: Progress, ref: ObjectRef, fate: Fate, p: Period) {
    !at.cancelled && ref in at.objects && fate.Stored? && Apply(s, at.objects[ref], p.kind, p).Changed?
  }

  /** Something goes wrong with an object: it cannot be read or scaled, or its update is not known to be stored. */
  predicate Fails(s: Strategy, at: Progress, ref: ObjectRef, fate: Fate, p: Period) {
    !at.cancelled
    && (fate.NotRead? || ref !in at.objects || Apply(s, at.objects[ref], p.kind, p).Failed?
        || (Apply(s, at.objects[ref], p.kind, p).Changed? && !fate.Stored?))
  }

  predicate UpdatesAt(c: Call, i: nat) {
    i < |c.items| && Updates(c.s, c.At(i), c.items[i], c.api.FateOf(i), c.p)
  }

  predicate FailsAt(c: Call, i: nat) {
    i < |c.items| && Fails(c.s, c.At(i), c.items[i], c.api.FateOf(i), c.p)
  }

  function Updating(c: Call): nat -> bool {
    (i: nat) => UpdatesAt(c, i)
  }

  function Failing(c: Call): nat -> bool {
    (i: nat) => FailsAt(c, i)
  }

  /** The names of the items below `n` at the indexes where something holds, in order. */
  function NamesWhere(items: seq<ObjectRef>, holds: nat -> bool, n: nat): seq<string>
    requires n <= |items|
  {
    if n == 0 then [] else NamesWhere(items, holds, n - 1) + (if holds(n - 1) then [items[n - 1].name] else [])
  }

  lemma {:induction false} NamesWhereMembers(items: seq<ObjectRef>, holds: nat -> bool, n: nat, name: string)
    requires n <= |items|
    ensures name in NamesWhere(items, holds, n) <==> exists i: nat :: i < n && holds(i) && items[i].name == name
    decreases n
  {
    if n > 0 {
      NamesWhereMembers(items, holds, n - 1, name);
    }
  }

  /** What one item adds to the lists. */
  lemma OneReport(s: Strategy, at: Progress, ref: ObjectRef, fate: Fate, p: Period)
    requires !at.cancelled
    ensures var done := ProcessOne(s, at, ref, fate, p);
      && done.success == at.success + (if Updates(s, at, ref, fate, p) then [ref.name] else [])
      && done.failed == at.failed + (if Fails(s, at, ref, fate, p) then [ref.name] else [])
  {
  }

  lemma ReportNext(c: Call, i: nat)
    requires i < |c.items|
    ensures c.At(i + 1).success == c.At(i).success + (if UpdatesAt(c, i) then [c.items[i].name] else [])
    ensures c.At(i + 1).failed == c.At(i).failed + (if FailsAt(c, i) then [c.items[i].name] else [])
  {
    var before := c.At(i);
    if before.cancelled {
      assert before.success + [] == before.success && before.failed + [] == before.failed;
    } else {
      OneReport(c.s, before, c.items[i], c.api.FateOf(i), c.p);
    }
  }

  /** A call reports exactly the updated items as successes and exactly the failing ones as failures, in order. */
  lemma {:induction false} ReportsExactly(c: Call, n: nat)
    requires n <= |c.items|
    ensures c.At(n).success == NamesWhere(c.items, Updating(c), n)
    ensures c.At(n).failed == NamesWhere(c.items, Failing(c), n)
    decreases n
  {
    if n > 0 {
      var i := n - 1;
      ReportsExactly(c, i);
      ReportNext(c, i);
      assert Updating(c)(i) == UpdatesAt(c, i) && Failing(c)(i) == FailsAt(c, i);
    }
  }

  /** In a scaling call every item that is reached is either updated or fails, and not both. */
  lemma ScalingUpdatesOrFails(c: Call, i: nat)
    requires i < |c.items| && IsScaling(c.p.kind) && !c.At(i).cancelled
    ensures UpdatesAt(c, i) <==> !FailsAt(c, i)
  {
  }

  // ---- the lists of a whole pass ----

  lemma TagMembers(t: ResourceType, names: seq<string>, item: StatusItem)
    ensures item in Tag(t, names) <==> item.OneObject? && item.kind == t && item.name in names
  {
    if item.OneObject? && item.kind == t && item.name in names {
      var i :| 0 <= i < |names| && names[i] == item.name;
      assert Tag(t, names)[i] == item;
    }
  }

  /** The call for one resource type, if the type can be set up and listed. */
  function CallFor(at: Scaling, t: ResourceType, names: seq<string>, setup: KindSetup, p: Period): Option<Call> {
    if StrategyOf(t).Some? && setup.Ready? && Targets(setup.nsList, names, setup.api).Some? then
      Some(Call(StrategyOf(t).value, ObjectsOf(at.objects, t), Targets(setup.nsList, names, setup.api).value, setup.api, p))
    else None
  }

  /** The call goes through its items to the end. */
  predicate Completes(c: Option<Call>) {
    c.Some? && !c.value.At(|c.value.items|).cancelled
  }

  /** The entry is an object of the type that was updated, or that failed. */
  ghost predicate IsUpdated(c: Call, t: ResourceType, item: StatusItem) {
    exists i: nat :: i < |c.items| && UpdatesAt(c, i) && item == OneObject(t, c.items[i].name)
  }

  ghost predicate IsFailed(c: Call, t: ResourceType, item: StatusItem) {
    exists i: nat :: i < |c.items| && FailsAt(c, i) && item == OneObject(t, c.items[i].name)
  }

  lemma CallSuccesses(c: Call, t: ResourceType, item: StatusItem)
    ensures item in Tag(t, c.At(|c.items|).success) <==> IsUpdated(c, t, item)
  {
    var n := |c.items|;
    ReportsExactly(c, n);
    TagMembers(t, c.At(n).success, item);
    if item.OneObject? {
      NamesWhereMembers(c.items, Updating(c), n, item.name);
    }
  }

  lemma CallFailures(c: Call, t: ResourceType, item: StatusItem)
    ensures item in Tag(t, c.At(|c.items|).failed) <==> IsFailed(c, t, item)
  {
    var n := |c.items|;
    ReportsExactly(c, n);
    TagMembers(t, c.At(n).failed, item);
    if item.OneObject? {
      NamesWhereMembers(c.items, Failing(c), n, item.name);
    }
  }

  /**
   * What one resource type adds to the lists. If its call completes: the objects that were updated, and the
   * objects that failed. If not: one failure of the whole type.
   */
  lemma KindReports(at: Scaling, t: ResourceType, names: seq<string>, setup: KindSetup, p: Period, item: StatusItem)
    ensures var c, done := CallFor(at, t, names, setup, p), ScaleKind(at, t, names, setup, p);
      && (item in done.success <==> item in at.success || (Completes(c) && IsUpdated(c.value, t, item)))
      && (item in done.failed <==>
          item in at.failed || (if Completes(c) then IsFailed(c.value, t, item) else item == WholeType(t)))
  {
    var c := CallFor(at, t, names, setup, p);
    if c.Some? {
      CallSuccesses(c.value, t, item);
      CallFailures(c.value, t, item);
    }
  }

  /** The call for type `j` of a pass. */
  function CallAt(spec: ScalerSpec, objects: Workloads, env: Env, p: Period, j: nat): Option<Call>
    requires j < |EffectiveTypes(spec.types)|
  {
    var types := EffectiveTypes(spec.types);
    CallFor(ScaleUpTo(types, spec.names, objects, env, p, j), types[j], spec.names, env.Setup(j), p)
  }

  predicate CompletesAt(spec: ScalerSpec, objects: Workloads, env: Env, p: Period, j: nat) {
    j < |EffectiveTypes(spec.types)| && Completes(CallAt(spec, objects, env, p, j))
  }

  ghost predicate UpdatedIn(spec: ScalerSpec, objects: Workloads, env: Env, p: Period, item: StatusItem, j: nat) {
    CompletesAt(spec, objects, env, p, j) && IsUpdated(CallAt(spec, objects, env, p, j).value, EffectiveTypes(spec.types)[j], item)
  }

  ghost predicate FailedIn(spec: ScalerSpec, objects: Workloads, env: Env, p: Period, item: StatusItem, j: nat) {
    j < |EffectiveTypes(spec.types)|
    && if CompletesAt(spec, objects, env, p, j) then IsFailed(CallAt(spec, objects, env, p, j).value, EffectiveTypes(spec.types)[j], item)
       else item == WholeType(EffectiveTypes(spec.types)[j])
  }

  ghost predicate SomeBelow(holds: nat -> bool, n: nat) {
    exists j: nat :: j < n && holds(j)
  }

  lemma SomeBelowNext(holds: nat -> bool, n: nat)
    ensures SomeBelow(holds, n + 1) <==> SomeBelow(holds, n) || holds(n)
  {
  }

  /** The positions of the types whose call updated the object, or failed with the entry. */
  ghost function UpdatedTypes(spec: ScalerSpec, objects: Workloads, env: Env, p: Period, item: StatusItem): nat -> bool {
    (j: nat) => UpdatedIn(spec, objects, env, p, item, j)
  }

  ghost function FailedTypes(spec: ScalerSpec, objects: Workloads, env: Env, p: Period, item: StatusItem): nat -> bool {
    (j: nat) => FailedIn(spec, objects, env, p, item, j)
  }

  lemma KindReportsAt(spec: ScalerSpec, objects: Workloads, env: Env, p: Period, j: nat, item: StatusItem)
    requires j < |EffectiveTypes(spec.types)|
    ensures var types := EffectiveTypes(spec.types);
      var before, done := ScaleUpTo(types, spec.names, objects, env, p, j), ScaleUpTo(types, spec.names, objects, env, p, j + 1);
      && (item in done.success <==> item in before.success || UpdatedTypes(spec, objects, env, p, item)(j))
      && (item in done.failed <==> item in before.failed || FailedTypes(spec, objects, env, p, item)(j))
  {
    var types := EffectiveTypes(spec.types);
    KindReports(ScaleUpTo(types, spec.names, objects, env, p, j), types[j], spec.names, env.Setup(j), p, item);
  }

  lemma {:induction false} KindsReport(spec: ScalerSpec, objects: Workloads, env: Env, p: Period, n: nat, item: StatusItem)
    requires n <= |EffectiveTypes(spec.types)|
    ensures var done := ScaleUpTo(EffectiveTypes(spec.types), spec.names, objects, env, p, n);
      && (item in done.success <==> SomeBelow(UpdatedTypes(spec, objects, env, p, item), n))
      && (item in done.failed <==> SomeBelow(FailedTypes(spec, objects, env, p, item), n))
    decreases n
  {
    if n > 0 {
      var j := n - 1;
      KindsReport(spec, objects, env, p, j, item);
      KindReportsAt(spec, objects, env, p, j, item);
      SomeBelowNext(UpdatedTypes(spec, objects, env, p, item), j);
      SomeBelowNext(FailedTypes(spec, objects, env, p, item), j);
    }
  }

  /**
   * Every pass over types that may be combined: it reports as successes exactly the objects, by type and name,
   * that some type's call updated, and as failures exactly the objects that failed and the types whose call
   * could not be made or did not complete.
   */
  lemma PassReports(spec: ScalerSpec, objects: Workloads, env: Env, p: Period, item: StatusItem)
    requires !Mixed(EffectiveTypes(spec.types))
    ensures var done, n := ScaleAll(spec, objects, env, p), |EffectiveTypes(spec.types)|;
      && (item in done.success <==> exists j: nat :: j < n && UpdatedIn(spec, objects, env, p, item, j))
      && (item in done.failed <==> exists j: nat :: j < n && FailedIn(spec, objects, env, p, item, j))
  {
    var n := |EffectiveTypes(spec.types)|;
    KindsReport(spec, objects, env, p, n, item);
    assert forall j: nat :: UpdatedTypes(spec, objects, env, p, item)(j) <==> UpdatedIn(spec, objects, env, p, item, j);
    assert forall j: nat :: FailedTypes(spec, objects, env, p, item)(j) <==> FailedIn(spec, objects, env, p, item, j);
  }

  // ---- a reported success shows its target ----

  /** Storing a scaling pass gives an object its target, and one that has it keeps it. */
  lemma StoreShowsTarget(s: Strategy, o: Obj, p: Period, fate: Fate)
    requires HasField(s, o.live) && IsScaling(p.kind)
    ensures var after := Store(s, o, Pass(p.kind, p, fate));
      (Apply(s, o, p.kind, p).Changed? && Reaches(fate)) || IsScaledTo(s, p.kind, p, o) ==> IsScaledTo(s, p.kind, p, after)
  {
  }

  predicate ShowsTarget(s: Strategy, objects: map<ObjectRef, Obj>, ref: ObjectRef, p: Period) {
    ref in objects && IsScaledTo(s, p.kind, p, objects[ref])
  }

  lemma ScalingOneShows(s: Strategy, first: map<ObjectRef, Obj>, at: Progress, item: ObjectRef, fate: Fate, p: Period, ref: ObjectRef)
    requires IsScaling(p.kind) && Tracked(s, first, at.objects)
    requires ShowsTarget(s, at.objects, ref, p) || (item == ref && Updates(s, at, item, fate, p))
    ensures ShowsTarget(s, ProcessOne(s, at, item, fate, p).objects, ref, p)
  {
    ProcessOneIsOnePass(s, at, item, fate, p);
    assert HasField(s, at.objects[ref].live);
    StoreShowsTarget(s, at.objects[ref], p, fate);
  }

  /** From step `m` on an object keeps its target. */
  lemma {:induction false} CallKeepsTarget(c: Call, first: map<ObjectRef, Obj>, ref: ObjectRef, m: nat, n: nat)
    requires m <= n <= |c.items| && IsScaling(c.p.kind) && Tracked(c.s, first, c.objects)
    requires ShowsTarget(c.s, c.At(m).objects, ref, c.p)
    ensures ShowsTarget(c.s, c.At(n).objects, ref, c.p)
    decreases n
  {
    if m < n {
      CallKeepsTarget(c, first, ref, m, n - 1);
      ProcessKeepsTracked(c.s, first, c.objects, c.items, c.api, c.p, n - 1);
      ScalingOneShows(c.s, first, c.At(n - 1), c.items[n - 1], c.api.FateOf(n - 1), c.p, ref);
    }
  }

  /** Whatever else fails, at the end of a scaling call an item that was updated shows its target. */
  lemma UpdatedShows(c: Call, first: map<ObjectRef, Obj>, i: nat)
    requires UpdatesAt(c, i) && IsScaling(c.p.kind) && Tracked(c.s, first, c.objects)
    ensures ShowsTarget(c.s, c.At(|c.items|).objects, c.items[i], c.p)
  {
    ProcessKeepsTracked(c.s, first, c.objects, c.items, c.api, c.p, i);
    ScalingOneShows(c.s, first, c.At(i), c.items[i], c.api.FateOf(i), c.p, c.items[i]);
    CallKeepsTarget(c, first, c.items[i], i + 1, |c.items|);
  }

  /** A workload of a type shows its target. */
  predicate WorkloadShows(objects: Workloads, t: ResourceType, ref: ObjectRef, p: Period) {
    StrategyOf(t).Some? && ShowsTarget(StrategyOf(t).value, ObjectsOf(objects, t), ref, p)
  }

  lemma KindObjects(at: Scaling, u: ResourceType, names: seq<string>, setup: KindSetup, p: Period, t: ResourceType)
    ensures var c := CallFor(at, u, names, setup, p);
      ObjectsOf(ScaleKind(at, u, names, setup, p).objects, t)
        == if u == t && c.Some? then c.value.At(|c.value.items|).objects else ObjectsOf(at.objects, t)
  {
  }

  lemma KindKeepsTarget(first: Workloads, at: Scaling, u: ResourceType, names: seq<string>, setup: KindSetup, p: Period, t: ResourceType, ref: ObjectRef)
    requires IsScaling(p.kind) && AllTracked(first, at.objects) && WorkloadShows(at.objects, t, ref, p)
    ensures WorkloadShows(ScaleKind(at, u, names, setup, p).objects, t, ref, p)
  {
    var c := CallFor(at, u, names, setup, p);
    KindObjects(at, u, names, setup, p, t);
    if u == t && c.Some? {
      CallKeepsTarget(c.value, ObjectsOf(first, t), ref, 0, |c.value.items|);
    }
  }

  lemma {:induction false} KindsKeepTarget(spec: ScalerSpec, first: Workloads, objects: Workloads, env: Env, p: Period,
                                           t: ResourceType, ref: ObjectRef, m: nat, n: nat)
    requires m <= n <= |EffectiveTypes(spec.types)| && IsScaling(p.kind) && AllTracked(first, objects)
    requires WorkloadShows(ScaleUpTo(EffectiveTypes(spec.types), spec.names, objects, env, p, m).objects, t, ref, p)
    ensures WorkloadShows(ScaleUpTo(EffectiveTypes(spec.types), spec.names, objects, env, p, n).objects, t, ref, p)
    decreases n
  {
    if m < n {
      var types := EffectiveTypes(spec.types);
      KindsKeepTarget(spec, first, objects, env, p, t, ref, m, n - 1);
      ScaleKeepsTracked(first, types, spec.names, objects, env, p, n - 1);
      KindKeepsTarget(first, ScaleUpTo(types, spec.names, objects, env, p, n - 1), types[n - 1], spec.names, env.Setup(n - 1), p, t, ref);
    }
  }

  /** The object that a call updated shows its target once the type is done. */
  lemma UpdatedInShows(spec: ScalerSpec, first: Workloads, objects: Workloads, env: Env, p: Period, item: StatusItem, j: nat)
    returns (ref: ObjectRef)
    requires IsScaling(p.kind) && AllTracked(first, objects) && UpdatedIn(spec, objects, env, p, item, j)
    ensures var types := EffectiveTypes(spec.types);
      item == OneObject(types[j], ref.name)
      && WorkloadShows(ScaleUpTo(types, spec.names, objects, env, p, j + 1).objects, types[j], ref, p)
  {
    var types := EffectiveTypes(spec.types);
    var t, c := types[j], CallAt(spec, objects, env, p, j).value;
    var i: nat :| i < |c.items| && UpdatesAt(c, i) && item == OneObject(t, c.items[i].name);
    ref := c.items[i];
    ScaleKeepsTracked(first, types, spec.names, objects, env, p, j);
    UpdatedShows(c, ObjectsOf(first, t), i);
  }

  lemma SuccessIsUpdated(spec: ScalerSpec, objects: Workloads, env: Env, p: Period, item: StatusItem) returns (j: nat)
    requires item in ScaleAll(spec, objects, env, p).success
    ensures !Mixed(EffectiveTypes(spec.types)) && j < |EffectiveTypes(spec.types)| && UpdatedIn(spec, objects, env, p, item, j)
  {
    var n := |EffectiveTypes(spec.types)|;
    PassReports(spec, objects, env, p, item);
    j :| j < n && UpdatedIn(spec, objects, env, p, item, j);
  }

  /**
   * Every scaling pass over tracked workloads: an entry of its success list names a workload, by type and name,
   * that shows the target of the period when the pass is done.
   */
  lemma SuccessShowsTarget(spec: ScalerSpec, first: Workloads, objects: Workloads, env: Env, p: Period, item: StatusItem)
    returns (t: ResourceType, ref: ObjectRef)
    requires IsScaling(p.kind) && AllTracked(first, objects) && item in ScaleAll(spec, objects, env, p).success
    ensures item == OneObject(t, ref.name) && WorkloadShows(ScaleAll(spec, objects, env, p).objects, t, ref, p)
  {
    var j := SuccessIsUpdated(spec, objects, env, p, item);
    t := EffectiveTypes(spec.types)[j];
    ref := UpdatedInShows(spec, first, objects, env, p, item, j);
    KindsKeepTarget(spec, first, objects, env, p, t, ref, j + 1, |EffectiveTypes(spec.types)|);
  }

  // ---- the target is what the spec says ----

  /** What a workload of a type shows after a pass with a "down" or "up" period of the spec. */
  predicate ShowsSpec(t: ResourceType, source: ScalerPeriod, o: Obj) {
    var down := source.kind == Down;
    match t
    case Deployments => o.live == ReplicaCount(Some(if down then MinOf(source) else MaxOf(source)))
    case StatefulSets => o.live == ReplicaCount(Some(if down then MinOf(source) else MaxOf(source)))
    case CronJobs => o.live == SuspendFlag(Some(down))
    case GithubArs => o.live == Bounds(Some(MinOf(source)), Some(MaxOf(source)))
    case ScaledObjects =>
      if down && MinOf(source) == 0 then KedaPaused in o.annotations && KedaPausedReplicas in o.annotations
      else o.live == Bounds(Some(MinOf(source)), Some(MaxOf(source))) && Unpaused(o.annotations)
    case CnpgClusters => IsHibernating(o.annotations) == down
    case _ => false
  }

  lemma TargetIsFromSpec(t: ResourceType, source: ScalerPeriod, clock: Clock, sha1: ScalerPeriod -> Digest, p: Period, o: Obj)
    requires Load(source, clock, sha1) == Ok(p) && IsScaling(p.kind)
    requires StrategyOf(t).Some? && IsScaledTo(StrategyOf(t).value, p.kind, p, o)
    ensures ShowsSpec(t, source, o)
  {
    LoadedPeriod(source, clock, sha1);
  }

  /**
   * A pass of the controller that scales down or up does so with an active period of the spec; and every entry
   * of its success list names a workload that shows, when the pass is done, what that period asks for.
   */
  lemma PassShowsSpec(spec: ScalerSpec, first: Workloads, w: World, env: Env, item: StatusItem)
    returns (source: ScalerPeriod, t: ResourceType, ref: ObjectRef)
    requires AllTracked(first, w.objects)
    requires var r := ReconcilePass(spec, w, env);
      r.scaled.Some? && IsScaling(r.scaled.value.period.kind) && item in r.scaled.value.success
    ensures source in spec.periods && Load(source, env.clock, spec.sha1).Ok? && Load(source, env.clock, spec.sha1).value.isActive
    ensures var after := ReconcilePass(spec, w, env).world.objects;
      item == OneObject(t, ref.name) && ref in ObjectsOf(after, t) && ShowsSpec(t, source, ObjectsOf(after, t)[ref])
  {
    var p := ReconcilePass(spec, w, env).scaled.value.period;
    PassScales(spec, w, env);
    source := PassSource(spec, w, env);
    t, ref := SuccessShowsTarget(spec, first, w.objects, env, p, item);
    TargetIsFromSpec(t, source, env.clock, spec.sha1, p, ObjectsOf(ReconcilePass(spec, w, env).world.objects, t)[ref]);
  }

  /** Where the period of a scaling pass comes from. */
  lemma PassSource(spec: ScalerSpec, w: World, env: Env) returns (source: ScalerPeriod)
    requires var r := ReconcilePass(spec, w, env); r.scaled.Some? && IsScaling(r.scaled.value.period.kind)
    ensures var p := ReconcilePass(spec, w, env).scaled.value.period;
      source in spec.periods && Load(source, env.clock, spec.sha1) == Ok(p) && p.isActive && !(spec.restoreOnDelete && w.deleting)
  {
    PassIsSelectionStep(spec, w, env);
    SelectionStepFacts(spec, Guarded(w), w.deleting, env, SelectFor(spec, w, w.deleting, env));
    source := SelectedIsFromSpec(spec.periods, w.status, spec.restoreOnDelete && w.deleting, env.clock, spec.sha1);
    NoactionAlwaysLoads(env.clock, spec.sha1);
  }
}
