/** pkg/k8s/resources/base/processor.go: list the objects of one kind, then get, scale and update each. */
module Processor {
  import opened Prelude
  import opened PeriodTypes
  import opened Annotations
  import opened Strategies
  import opened ScalingRuns

  datatype ObjectRef = ObjectRef(namespace: string, name: string)

  /** The answer to one List call: an error, or the matching objects. Listing namespace "" finds objects of every namespace. */
  datatype Listing = ListFailed | Listed(items: seq<ObjectRef>)

  /** How the API server behaves during one call of `ProcessResources`. */
  datatype ApiBehaviour = ApiBehaviour(listings: map<string, Listing>, fates: seq<Fate>) {
    function List(namespace: string): Listing {
      if namespace in listings then listings[namespace] else ListFailed
    }

    function FateOf(i: nat): Fate {
      if i < |fates| then fates[i] else Stored
    }
  }

  /** Everything listed, namespace by namespace; one failing List fails the whole. */
  function AllListed(nsList: seq<string>, api: ApiBehaviour): Option<seq<ObjectRef>> {
    if nsList == [] then Some([])
    else
      match (AllListed(nsList[..|nsList| - 1], api), api.List(nsList[|nsList| - 1]))
      case (Some(before), Listed(items)) => Some(before + items)
      case _ => None
  }

  predicate Asked(names: seq<string>, ref: ObjectRef) {
    ref.name in names
  }

  /** The refs whose name is asked for, in order. */
  function Named(names: seq<string>, refs: seq<ObjectRef>): seq<ObjectRef> {
    if refs == [] then []
    else Named(names, refs[..|refs| - 1]) + (if Asked(names, refs[|refs| - 1]) then [refs[|refs| - 1]] else [])
  }

  /** The objects a call works on: all that are listed, or those of the given names. */
  function Targets(nsList: seq<string>, names: seq<string>, api: ApiBehaviour): Option<seq<ObjectRef>> {
    match AllListed(nsList, api)
    case None => None
    case Some(all) => Some(if names == [] then all else Named(names, all))
  }

  // ---- what is listed ----

  /** Some namespace cannot be listed. */
  ghost predicate SomeListFails(nsList: seq<string>, api: ApiBehaviour) {
    exists ns :: ns in nsList && api.List(ns).ListFailed?
  }

  predicate Lists(api: ApiBehaviour, ns: string, ref: ObjectRef) {
    api.List(ns).Listed? && ref in api.List(ns).items
  }

  /** The listing of some namespace contains the object. */
  ghost predicate SomeLists(nsList: seq<string>, api: ApiBehaviour, ref: ObjectRef) {
    exists ns :: ns in nsList && Lists(api, ns, ref)
  }

  lemma OneMoreNamespace(before: seq<string>, last: string, api: ApiBehaviour)
    ensures SomeListFails(before + [last], api) <==> SomeListFails(before, api) || api.List(last).ListFailed?
    ensures forall ref :: SomeLists(before + [last], api, ref) <==> SomeLists(before, api, ref) || Lists(api, last, ref)
  {
    assert forall ns :: ns in before + [last] <==> ns in before || ns == last;
  }

  lemma {:induction false} AllListedMembers(nsList: seq<string>, api: ApiBehaviour)
    ensures AllListed(nsList, api).None? <==> SomeListFails(nsList, api)
    ensures AllListed(nsList, api).Some? ==> forall ref :: ref in AllListed(nsList, api).value <==> SomeLists(nsList, api, ref)
    decreases |nsList|
  {
    if nsList != [] {
      var before, last := nsList[..|nsList| - 1], nsList[|nsList| - 1];
      AllListedMembers(before, api);
      OneMoreNamespace(before, last, api);
      assert nsList == before + [last];
    }
  }

  lemma {:induction false} NamedMembers(names: seq<string>, refs: seq<ObjectRef>)
    ensures forall ref :: ref in Named(names, refs) <==> ref in refs && ref.name in names
  {
    if refs != [] {
      var before, last := refs[..|refs| - 1], refs[|refs| - 1];
      NamedMembers(names, before);
      assert refs == before + [last];
    }
  }

  /** Listing fails exactly if some namespace cannot be listed; otherwise it finds just what is listed and asked for. */
  lemma TargetsMembers(nsList: seq<string>, names: seq<string>, api: ApiBehaviour)
    ensures var r := Targets(nsList, names, api);
      && (r.None? <==> SomeListFails(nsList, api))
      && (r.Some? ==> forall ref :: ref in r.value <==> SomeLists(nsList, api, ref) && (names == [] || ref.name in names))
  {
    AllListedMembers(nsList, api);
    if AllListed(nsList, api).Some? {
      NamedMembers(names, AllListed(nsList, api).value);
    }
  }

  /** The stored objects and the result lists, part-way through a call. */
  datatype Progress = Progress(
    objects: map<ObjectRef, Obj>,
    success: seq<string>,
    failed: seq<string>,
    cancelled: bool)

  /** One object: unread, unscalable, already restored, or updated with some fate. */
  function ProcessOne(s: Strategy, at: Progress, ref: ObjectRef, fate: Fate, p: Period): Progress {
    if fate.NotRead? || ref !in at.objects then
      at.(failed := at.failed + [ref.name], cancelled := fate.NotRead? && fate.cancelled)
    else
      match Apply(s, at.objects[ref], p.kind, p)
      case Failed => at.(failed := at.failed + [ref.name])
      case AlreadyRestored => at
      case Changed(o) =>
        var stored := if Reaches(fate) then at.objects[ref := o] else at.objects;
        if fate.Stored? then at.(objects := stored, success := at.success + [ref.name])
        else at.(objects := stored, failed := at.failed + [ref.name], cancelled := fate.cancelled)
  }

  /** The first `n` objects, or fewer when the context is cancelled on the way. */
  function ProcessUpTo(s: Strategy, objects: map<ObjectRef, Obj>, items: seq<ObjectRef>, api: ApiBehaviour, p: Period, n: nat): Progress
    requires n <= |items|
  {
    if n == 0 then Progress(objects, [], [], false)
    else
      var before := ProcessUpTo(s, objects, items, api, p, n - 1);
      if before.cancelled then before else ProcessOne(s, before, items[n - 1], api.FateOf(n - 1), p)
  }

  datatype CallResult = CallResult(objects: map<ObjectRef, Obj>, success: seq<string>, failed: seq<string>, err: bool)

  function Process(s: Strategy, objects: map<ObjectRef, Obj>, nsList: seq<string>, names: seq<string>, api: ApiBehaviour, p: Period): CallResult {
    match Targets(nsList, names, api)
    case None => CallResult(objects, [], [], true)
    case Some(items) =>
      var done := ProcessUpTo(s, objects, items, api, p, |items|);
      CallResult(done.objects, done.success, done.failed, done.cancelled)
  }

  /** The stored objects of one kind, as the API server holds them. */
  class ObjectStore {
    var objects: map<ObjectRef, Obj>

    constructor (objects: map<ObjectRef, Obj>)
      ensures this.objects == objects
    {
      this.objects := objects;
    }
  }

  method ListResources(nsList: seq<string>, names: seq<string>, api: ApiBehaviour) returns (r: Option<seq<ObjectRef>>)
    ensures r == Targets(nsList, names, api)
    ensures r.None? <==> SomeListFails(nsList, api)
    ensures r.Some? ==> forall ref :: ref in r.value <==> SomeLists(nsList, api, ref) && (names == [] || ref.name in names)
  {
    TargetsMembers(nsList, names, api);
    var allItems: seq<ObjectRef> := [];
    for i := 0 to |nsList|
      invariant AllListed(nsList[..i], api) == Some(allItems)
    {
      assert nsList[..i + 1][..i] == nsList[..i];
      var items := api.List(nsList[i]);
      if items.ListFailed? {
        ListFailureSpreads(nsList, api, i + 1);
        return None;
      }
      allItems := allItems + items.items;
    }
    assert nsList[..|nsList|] == nsList;
    if names != [] {
      allItems := Named(names, allItems);
    }
    return Some(allItems);
  }

  lemma {:induction false} ListFailureSpreads(nsList: seq<string>, api: ApiBehaviour, n: nat)
    requires n <= |nsList| && AllListed(nsList[..n], api).None?
    ensures AllListed(nsList, api).None?
    decreases |nsList| - n
  {
    if n == |nsList| {
      assert nsList[..n] == nsList;
    } else {
      assert nsList[..n + 1][..n] == nsList[..n];
      ListFailureSpreads(nsList, api, n + 1);
    }
  }

  /** Get a fresh copy, scale the copy, and send the whole copy back. Returns whether the context was cancelled. */
  method ProcessResource(s: Strategy, store: ObjectStore, ref: ObjectRef, fate: Fate, p: Period, success: seq<string>, failed: seq<string>)
    returns (newSuccess: seq<string>, newFailed: seq<string>, cancelled: bool)
    modifies store
    ensures Progress(store.objects, newSuccess, newFailed, cancelled)
      == ProcessOne(s, Progress(old(store.objects), success, failed, false), ref, fate, p)
  {
    newSuccess, newFailed, cancelled := success, failed, false;
    if fate.NotRead? || ref !in store.objects {
      return success, failed + [ref.name], fate.NotRead? && fate.cancelled;
    }
    var resource := new ResourceItem(store.objects[ref]);
    var alreadyRestored, scalingFailed := ApplyScaling(s, resource, p.kind, p);
    if scalingFailed {
      return success, failed + [ref.name], false;
    }
    if alreadyRestored {
      return;
    }
    if Reaches(fate) {
      store.objects := store.objects[ref := resource.Value()];
    }
    if !fate.Stored? {
      return success, failed + [ref.name], fate.cancelled;
    }
    newSuccess := success + [ref.name];
  }

  method ProcessResources(s: Strategy, store: ObjectStore, nsList: seq<string>, names: seq<string>, api: ApiBehaviour, p: Period)
    returns (success: seq<string>, failed: seq<string>, err: bool)
    modifies store
    ensures CallResult(store.objects, success, failed, err) == Process(s, old(store.objects), nsList, names, api, p)
  {
    success, failed := [], [];
    var list := ListResources(nsList, names, api);
    if list.None? {
      return success, failed, true;
    }
    var items := list.value;
    for i := 0 to |items|
      invariant Progress(store.objects, success, failed, false) == ProcessUpTo(s, old(store.objects), items, api, p, i)
    {
      var cancelled;
      success, failed, cancelled := ProcessResource(s, store, items[i], api.FateOf(i), p, success, failed);
      if cancelled {
        CancellationEnds(s, old(store.objects), items, api, p, i + 1);
        return success, failed, true;
      }
    }
    err := false;
  }

  lemma {:induction false} CancellationEnds(s: Strategy, objects: map<ObjectRef, Obj>, items: seq<ObjectRef>, api: ApiBehaviour, p: Period, n: nat)
    requires n <= |items| && ProcessUpTo(s, objects, items, api, p, n).cancelled
    ensures ProcessUpTo(s, objects, items, api, p, |items|) == ProcessUpTo(s, objects, items, api, p, n)
    decreases |items| - n
  {
    if n < |items| {
      CancellationEnds(s, objects, items, api, p, n + 1);
    }
  }

  // ---- what a call promises ----

  /** Every stored object keeps its first original recoverable. */
  ghost predicate Tracked(s: Strategy, first: map<ObjectRef, Obj>, objects: map<ObjectRef, Obj>) {
    first.Keys == objects.Keys && forall ref :: ref in first ==> Untouched(s, first[ref]) && Recoverable(s, first[ref], objects[ref])
  }

  /** What one step stores is one pass of the run of that object. */
  lemma ProcessOneIsOnePass(s: Strategy, at: Progress, ref: ObjectRef, fate: Fate, p: Period)
    ensures ProcessOne(s, at, ref, fate, p).objects ==
      if fate.NotRead? || ref !in at.objects then at.objects
      else at.objects[ref := Store(s, at.objects[ref], Pass(p.kind, p, fate))]
  {
    if ref in at.objects {
      assert at.objects[ref := at.objects[ref]] == at.objects;
    }
  }

  lemma ProcessOneKeepsTracked(s: Strategy, first: map<ObjectRef, Obj>, at: Progress, ref: ObjectRef, fate: Fate, p: Period)
    requires Tracked(s, first, at.objects)
    ensures Tracked(s, first, ProcessOne(s, at, ref, fate, p).objects)
  {
    ProcessOneIsOnePass(s, at, ref, fate, p);
    if ref in at.objects {
      StoreKeepsRecoverable(s, first[ref], at.objects[ref], Pass(p.kind, p, fate));
    }
  }

  /** Whatever is listed and whichever reads and updates fail, no original is lost. */
  lemma {:induction false} ProcessKeepsTracked(s: Strategy, first: map<ObjectRef, Obj>, objects: map<ObjectRef, Obj>, items: seq<ObjectRef>,
                                               api: ApiBehaviour, p: Period, n: nat)
    requires n <= |items| && Tracked(s, first, objects)
    ensures Tracked(s, first, ProcessUpTo(s, objects, items, api, p, n).objects)
  {
    if n > 0 {
      ProcessKeepsTracked(s, first, objects, items, api, p, n - 1);
      ProcessOneKeepsTracked(s, first, ProcessUpTo(s, objects, items, api, p, n - 1), items[n - 1], api.FateOf(n - 1), p);
    }
  }

  /** The object is there and carries no record of an original. */
  predicate IsClean(s: Strategy, objects: map<ObjectRef, Obj>, ref: ObjectRef) {
    ref in objects && NothingRecorded(s, objects[ref].annotations)
  }

  /** Objects that are clean in `before` are the same in `after`. */
  ghost predicate KeepsClean(s: Strategy, before: map<ObjectRef, Obj>, after: map<ObjectRef, Obj>) {
    forall ref :: IsClean(s, before, ref) ==> ref in after && after[ref] == before[ref]
  }

  predicate CleanOrReported(s: Strategy, at: Progress, ref: ObjectRef) {
    IsClean(s, at.objects, ref) || ref.name in at.failed
  }

  lemma RestoringOneCleansOrReports(s: Strategy, at: Progress, ref: ObjectRef, fate: Fate, p: Period)
    requires !IsScaling(p.kind)
    ensures var done := ProcessOne(s, at, ref, fate, p);
      && CleanOrReported(s, done, ref) && KeepsClean(s, at.objects, done.objects)
      && at.failed <= done.failed && (done.cancelled ==> at.cancelled || done.failed != [])
  {
    if ref in at.objects {
      RestoringLeavesNoRecord(s, at.objects[ref], p.kind, p);
    }
  }

  /** Earlier objects stay clean or reported. */
  lemma StaysCleanOrReported(s: Strategy, before: Progress, after: Progress, ref: ObjectRef)
    requires CleanOrReported(s, before, ref) && KeepsClean(s, before.objects, after.objects) && before.failed <= after.failed
    ensures CleanOrReported(s, after, ref)
  {
  }

  /**
   * After a restoring call, each object it got to is clean or is named in the failed list; and no
   * object that was clean is touched.
   */
  lemma {:induction false} RestoringCleansOrReports(s: Strategy, objects: map<ObjectRef, Obj>, items: seq<ObjectRef>,
                                                    api: ApiBehaviour, p: Period, n: nat)
    requires n <= |items| && !IsScaling(p.kind)
    ensures var done := ProcessUpTo(s, objects, items, api, p, n);
      && (!done.cancelled ==> forall i :: 0 <= i < n ==> CleanOrReported(s, done, items[i]))
      && (done.cancelled ==> done.failed != [])
      && KeepsClean(s, objects, done.objects)
    decreases n
  {
    if n > 0 {
      RestoringCleansOrReports(s, objects, items, api, p, n - 1);
      var before, done := ProcessUpTo(s, objects, items, api, p, n - 1), ProcessUpTo(s, objects, items, api, p, n);
      if !before.cancelled {
        RestoringOneCleansOrReports(s, before, items[n - 1], api.FateOf(n - 1), p);
        forall i | 0 <= i < n - 1
          ensures CleanOrReported(s, done, items[i])
        {
          StaysCleanOrReported(s, before, done, items[i]);
        }
      }
    }
  }

  /** A restoring call over clean objects stores nothing. */
  lemma {:induction false} RestoringCleanChangesNothing(s: Strategy, objects: map<ObjectRef, Obj>, items: seq<ObjectRef>,
                                                        api: ApiBehaviour, p: Period, n: nat)
    requires n <= |items| && !IsScaling(p.kind) && forall i :: 0 <= i < |items| ==> IsClean(s, objects, items[i])
    ensures ProcessUpTo(s, objects, items, api, p, n).objects == objects
    ensures ProcessUpTo(s, objects, items, api, p, n).success == []
  {
    if n > 0 {
      RestoringCleanChangesNothing(s, objects, items, api, p, n - 1);
      RestoringLeavesNoRecord(s, objects[items[n - 1]], p.kind, p);
    }
  }

  /** A scaling pass that changes an object leaves a record of its original. */
  lemma ScalingLeavesRecord(s: Strategy, o: Obj, kind: PeriodKind, p: Period)
    requires IsScaling(kind) && Apply(s, o, kind, p).Changed?
    ensures !NothingRecorded(s, Apply(s, o, kind, p).obj.annotations)
  {
    CapturedIsRecorded(s, o, p);
    ScalingMarksKeepRecord(s, kind, p, Captured(o.annotations, p, Encode(Observe(s, o))));
  }

  lemma CapturedIsRecorded(s: Strategy, o: Obj, p: Period)
    ensures !NothingRecorded(s, Captured(o.annotations, p, Encode(Observe(s, o))))
  {
  }

  lemma ScalingMarksKeepRecord(s: Strategy, kind: PeriodKind, p: Period, m: Annots)
    ensures NothingRecorded(s, ScalingMarks(s, kind, p, m)) <==> NothingRecorded(s, m)
  {
  }

  /** The object is as it was, or shows that it was scaled. */
  predicate SameOrRecorded(s: Strategy, before: map<ObjectRef, Obj>, after: map<ObjectRef, Obj>, ref: ObjectRef) {
    ref in before && ref in after && (after[ref] == before[ref] || !NothingRecorded(s, after[ref].annotations))
  }

  ghost predicate AllSameOrRecorded(s: Strategy, before: map<ObjectRef, Obj>, after: map<ObjectRef, Obj>) {
    forall ref :: ref in before ==> SameOrRecorded(s, before, after, ref)
  }

  lemma ScalingOneLeavesRecord(s: Strategy, objects: map<ObjectRef, Obj>, at: Progress, ref: ObjectRef, fate: Fate, p: Period)
    requires IsScaling(p.kind) && AllSameOrRecorded(s, objects, at.objects)
    ensures AllSameOrRecorded(s, objects, ProcessOne(s, at, ref, fate, p).objects)
  {
    if ref in at.objects && Apply(s, at.objects[ref], p.kind, p).Changed? {
      ScalingLeavesRecord(s, at.objects[ref], p.kind, p);
    }
  }

  /** A scaling call leaves every object as it was or with a record. */
  lemma {:induction false} ScalingChangesLeaveRecords(s: Strategy, objects: map<ObjectRef, Obj>, items: seq<ObjectRef>,
                                                      api: ApiBehaviour, p: Period, n: nat)
    requires n <= |items| && IsScaling(p.kind)
    ensures AllSameOrRecorded(s, objects, ProcessUpTo(s, objects, items, api, p, n).objects)
    decreases n
  {
    if n > 0 {
      ScalingChangesLeaveRecords(s, objects, items, api, p, n - 1);
      ScalingOneLeavesRecord(s, objects, ProcessUpTo(s, objects, items, api, p, n - 1), items[n - 1], api.FateOf(n - 1), p);
    }
  }

  /** A scaling call that is not cancelled reports every object it worked on, once, as a success or a failure. */
  lemma {:induction false} ScalingReportsEveryItem(s: Strategy, objects: map<ObjectRef, Obj>, items: seq<ObjectRef>,
                                                   api: ApiBehaviour, p: Period, n: nat)
    requires n <= |items| && IsScaling(p.kind)
    ensures var done := ProcessUpTo(s, objects, items, api, p, n);
      |done.success| + |done.failed| <= n && (!done.cancelled ==> |done.success| + |done.failed| == n)
  {
    if n > 0 {
      ScalingReportsEveryItem(s, objects, items, api, p, n - 1);
    }
  }

  /** Objects that are not listed are not touched. */
  lemma {:induction false} UnlistedUntouched(s: Strategy, objects: map<ObjectRef, Obj>, items: seq<ObjectRef>,
                                             api: ApiBehaviour, p: Period, n: nat, ref: ObjectRef)
    requires n <= |items| && ref !in items
    ensures var done := ProcessUpTo(s, objects, items, api, p, n);
      (ref in done.objects <==> ref in objects) && (ref in objects ==> done.objects[ref] == objects[ref])
  {
    if n > 0 {
      UnlistedUntouched(s, objects, items, api, p, n - 1, ref);
      assert items[n - 1] in items;
    }
  }
}
