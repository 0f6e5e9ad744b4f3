/** internal/controller/flow/service/flow_processor.go, and the classification of its errors in flow_controller.go. */
module FlowProcessor {
  import opened Prelude
  import opened PeriodTypes
  import opened FlowTypes
  import opened FlowTime
  import opened FlowValidator
  import opened FlowMapper
  import opened FlowCreator

  // ---- what a flow compiles to ----

  /** The delayed periods of a list of mentions; on a mapped resource none is missing. */
  function Projection(periods: seq<ScalerPeriod>, own: seq<Mention>): seq<PeriodWithDelay> {
    if own == [] then []
    else
      Projection(periods, own[..|own| - 1])
      + (match Delays(periods, own[|own| - 1])
         case Ok(p) => [p]
         case Err(_) => [])
  }

  lemma {:induction false} ProjectionIsUnique(periods: seq<ScalerPeriod>, own: seq<Mention>, list: seq<PeriodWithDelay>, n: nat)
    requires IsProjection(periods, own, list) && n <= |own|
    ensures list[..n] == Projection(periods, own[..n])
  {
    if n > 0 {
      ProjectionIsUnique(periods, own, list, n - 1);
      assert own[..n][..n - 1] == own[..n - 1];
      assert Delays(periods, own[n - 1]) == Ok(list[n - 1]);
      assert list[..n] == list[..n - 1] + [list[n - 1]];
    }
  }

  /** Does the flow pass every check before the first write? */
  ghost predicate Compiles(flow: Flow) {
    Validated(flow) && forall n, e :: Mentions(flow.flows, n) ==> !CannotMap(flow, n, e)
  }

  /** The mapping of a resource of a flow that compiles. */
  function InfoOf(flow: Flow, n: string): ResourceInfo {
    var k8s, gcp := FindResource(flow.k8s, n), FindResource(flow.gcp, n);
    ResourceInfo(if k8s.Some? then K8sKind else GcpKind, k8s, gcp, Projection(flow.periods, MentionsNamed(AllMentions(flow.flows), n)))
  }

  lemma MappingIsUnique(flow: Flow, n: string, info: ResourceInfo)
    requires MapsTo(flow, n, info)
    ensures info == InfoOf(flow, n)
  {
    var own := MentionsNamed(AllMentions(flow.flows), n);
    ProjectionIsUnique(flow.periods, own, info.periods, |own|);
    assert own[..|own|] == own && info.periods[..|own|] == info.periods;
  }

  function KeyOf(flow: Flow, n: string, sha: string -> ShortHash): ChildKey {
    ChildKey(InfoOf(flow, n).kind, ChildName(flow.name, n, sha))
  }

  /** The child a flow that compiles wants for a resource. */
  function Target(flow: Flow, n: string): Child {
    var info := InfoOf(flow, n);
    Desired(flow, n, if info.k8sRes.Some? then info.k8sRes.value else info.gcpRes.Deref(DeclaredResource(n, Settings(0))), info.periods)
  }

  predicate AllDelayed(periods: seq<ScalerPeriod>, own: seq<Mention>) {
    forall i :: 0 <= i < |own| ==> Delays(periods, own[i]).Ok?
  }

  /** Such a list has the delayed period of each mention at its place. */
  predicate HoldsDelays(periods: seq<ScalerPeriod>, own: seq<Mention>, list: seq<PeriodWithDelay>) {
    |list| == |own| && forall i :: 0 <= i < |own| ==> Delays(periods, own[i]) == Ok(list[i])
  }

  lemma HoldsOneMore(periods: seq<ScalerPeriod>, own: seq<Mention>, list: seq<PeriodWithDelay>, m: Mention, d: PeriodWithDelay)
    requires HoldsDelays(periods, own, list) && Delays(periods, m) == Ok(d)
    ensures HoldsDelays(periods, own + [m], list + [d])
  {
  }

  lemma {:induction false} ProjectionHoldsDelays(periods: seq<ScalerPeriod>, own: seq<Mention>)
    requires AllDelayed(periods, own)
    ensures HoldsDelays(periods, own, Projection(periods, own))
    decreases |own|
  {
    if own != [] {
      var before, last := own[..|own| - 1], own[|own| - 1];
      ProjectionHoldsDelays(periods, before);
      HoldsOneMore(periods, before, Projection(periods, before), last, Delays(periods, last).value);
      assert own == before + [last];
    }
  }

  /** The mentions of a resource, in order. */
  function OwnMentions(flow: Flow, n: string): seq<Mention> {
    MentionsNamed(AllMentions(flow.flows), n)
  }

  /**
   * The child of a resource of a flow that compiles: one period for each mention of the resource, in order,
   * no two of the same name, each the mentioned period with its times moved by the mention's own delays; and
   * the settings of a declaration of that name.
   */
  lemma TargetIsCompiled(flow: Flow, n: string, i: nat)
    requires Compiles(flow) && Mentions(flow.flows, n) && i < |OwnMentions(flow, n)|
    ensures var own, periods := OwnMentions(flow, n), Target(flow, n).spec.periods;
      && |periods| == |own|
      && Delays(flow.periods, own[i]).Ok? && periods[i] == Rewritten(Delays(flow.periods, own[i]).value)
      && (forall p :: p in flow.periods && p.name == own[i].periodName ==> Delays(flow.periods, own[i]).value.period == p)
      && forall j :: 0 <= j < i ==> own[j].periodName != own[i].periodName
  {
    var own := OwnMentions(flow, n);
    forall j | 0 <= j < |own|
      ensures Delays(flow.periods, own[j]).Ok?
    {
      NoFaultHasDelays(flow, n, j);
    }
    NoFaultHasDelays(flow, n, i);
    ProjectionHoldsDelays(flow.periods, own);
    NamedExactly(flow.periods, own[i].periodName);
    DelaysExactly(flow.periods, own[i], Delays(flow.periods, own[i]).value);
  }

  /** It is declared on exactly one side; that side is the kind of the child, and gives it its settings. */
  lemma TargetIsDeclared(flow: Flow, n: string) returns (r: DeclaredResource)
    requires Compiles(flow) && Mentions(flow.flows, n)
    ensures r.name == n && Target(flow, n).spec.settings == r.settings && !Target(flow, n).spec.dryRun
    ensures forall q :: q in flow.k8s + flow.gcp && q.name == n ==> q == r
    ensures match InfoOf(flow, n).kind
      case K8sKind => r in flow.k8s && forall q :: q in flow.gcp ==> q.name != n
      case GcpKind => r in flow.gcp && forall q :: q in flow.k8s ==> q.name != n
      case UnknownKind(_) => false
  {
    var k8s, gcp := FindResource(flow.k8s, n), FindResource(flow.gcp, n);
    FoundIsDeclared(flow.k8s, n);
    FoundIsDeclared(flow.gcp, n);
    var kind := DetermineResourceType(k8s, gcp);
    if kind.Err? {
      assert CannotMap(flow, n, kind.error);
    }
    r := if k8s.Some? then k8s.value else gcp.value;
    forall q | q in flow.k8s + flow.gcp && q.name == n
      ensures q == r
    {
      if q in flow.k8s {
        DeclaredIsFound(flow.k8s, q);
      } else {
        DeclaredIsFound(flow.gcp, q);
      }
    }
  }

  /** No two resources of the flow share a child. */
  ghost predicate SeparateChildren(flow: Flow, sha: string -> ShortHash) {
    forall m, n :: Mentions(flow.flows, m) && Mentions(flow.flows, n) && m != n ==> KeyOf(flow, m, sha) != KeyOf(flow, n, sha)
  }

  predicate SameAt(before: Children, after: Children, key: ChildKey) {
    ChildAt(before, key) == ChildAt(after, key)
  }

  /** The children of the resources in `done` are written; no other child is touched. */
  ghost predicate Written(before: Children, after: Children, flow: Flow, sha: string -> ShortHash, done: iset<string>) {
    && (forall n :: n in done ==> ChildAt(after, KeyOf(flow, n, sha)) == Some(Merged(ChildAt(before, KeyOf(flow, n, sha)), Target(flow, n))))
    && (forall key :: (forall n :: n in done ==> KeyOf(flow, n, sha) != key) ==> SameAt(before, after, key))
  }

  /** The child of a resource is stored with the spec that the flow asks for now, and is labelled as its child. */
  predicate IsCurrent(children: Children, flow: Flow, n: string, sha: string -> ShortHash) {
    var key := KeyOf(flow, n, sha);
    && key in children && children[key].spec == Target(flow, n).spec
    && "flow" in children[key].labels && children[key].labels["flow"] == flow.name
    && "resource" in children[key].labels && children[key].labels["resource"] == n
  }

  lemma WrittenIsCurrent(before: Children, after: Children, flow: Flow, sha: string -> ShortHash, done: iset<string>, n: string)
    requires Written(before, after, flow, sha, done) && n in done
    ensures IsCurrent(after, flow, n, sha)
  {
    MergedIsDesired(ChildAt(before, KeyOf(flow, n, sha)), Target(flow, n));
    LabelsOfDesired(flow, n);
  }

  lemma LabelsOfDesired(flow: Flow, n: string)
    ensures Target(flow, n).labels == map["flow" := flow.name, "resource" := n] && Target(flow, n).owner == Some(flow.name)
  {
  }

  ghost function Mentioned(flow: Flow): iset<string> {
    iset n | Mentions(flow.flows, n)
  }

  /** The effect of handling one resource. */
  predicate WroteOne(before: Children, after: Children, flow: Flow, n: string, sha: string -> ShortHash, fate: WriteFate) {
    var key := KeyOf(flow, n, sha);
    after == if Lands(fate) then before[key := Merged(ChildAt(before, key), Target(flow, n))] else before
  }

  /** The written resources after handling `n`. */
  ghost function Reached(done: iset<string>, n: string, fate: WriteFate): iset<string> {
    if Lands(fate) then done + iset{n} else done
  }

  /** One more child, under a key no other resource of the flow uses. */
  lemma WriteOneMore(before: Children, middle: Children, after: Children, flow: Flow, sha: string -> ShortHash, done: iset<string>, n: string, fate: WriteFate)
    requires SeparateChildren(flow, sha) && Mentions(flow.flows, n) && n !in done && done <= Mentioned(flow)
    requires Written(before, middle, flow, sha, done) && WroteOne(middle, after, flow, n, sha, fate)
    ensures Written(before, after, flow, sha, Reached(done, n, fate))
  {
    if Lands(fate) {
      var key := KeyOf(flow, n, sha);
      assert SameAt(before, middle, key);
      forall k | forall m :: m in done + iset{n} ==> KeyOf(flow, m, sha) != k
        ensures SameAt(before, after, k)
      {
        assert n in done + iset{n};
        assert SameAt(before, middle, k);
      }
    }
  }

  // ---- the processor ----

  /** A mapping that one of the validation branches of `processResource` refuses. */
  predicate Untied(info: ResourceInfo) {
    match info.kind
    case K8sKind => info.k8sRes.None?
    case GcpKind => info.gcpRes.None?
    case UnknownKind(_) => true
  }

  /** No such branch is reachable for a mapped resource. */
  lemma MappedIsTied(flow: Flow, n: string, info: ResourceInfo)
    requires MapsTo(flow, n, info)
    ensures !Untied(info)
  {
  }

  /** `processResource`, with the branches for a mapping that is not tied to a declaration. */
  method ProcessResource(store: ChildStore, flow: Flow, n: string, info: ResourceInfo, sha: string -> ShortHash, fate: WriteFate)
    returns (err: Option<FlowError>)
    modifies store
    ensures err.Some? && err.value.ValidationError? <==> Untied(info)
    ensures Untied(info) ==> store.children == old(store.children)
    ensures MapsTo(flow, n, info) ==>
      err == (if fate.Accepted? then None else Some(ApiError))
      && WroteOne(old(store.children), store.children, flow, n, sha, fate)
  {
    ghost var unique := MapsTo(flow, n, info) ==> info == InfoOf(flow, n);
    assert unique by {
      if MapsTo(flow, n, info) {
        MappingIsUnique(flow, n, info);
      }
    }
    match info.kind
    case K8sKind =>
      if info.k8sRes.None? {
        return Some(ValidationError(MissingK8sResource));
      }
      err := CreateChild(store, flow, K8sKind, n, info.k8sRes.value, info.periods, sha, fate);
    case GcpKind =>
      if info.gcpRes.None? {
        return Some(ValidationError(MissingGcpResource));
      }
      err := CreateChild(store, flow, GcpKind, n, info.gcpRes.value, info.periods, sha, fate);
    case UnknownKind(_) =>
      return Some(ValidationError(UnknownResourceType));
  }

  /** The phases before the loop: they read the flow only. */
  method MapFlow(flow: Flow) returns (r: Result<map<string, ResourceInfo>, FlowError>)
    ensures r.Ok? <==> Compiles(flow)
    ensures r.Ok? ==> (forall n :: n in r.value <==> Mentions(flow.flows, n)) && forall n :: n in r.value ==> MapsTo(flow, n, r.value[n])
    ensures r.Err? ==> r.error.ValidationError?
  {
    var data := ExtractFlowData(flow);
    if data.Err? {
      return Err(data.error);
    }
    var (resourceNames, periodNames) := data.value;
    var timings := ValidatePeriodTimings(flow, periodNames);
    if timings.Some? {
      return Err(timings.value);
    }
    assert Validated(flow);
    r := CreateResourceMappings(flow, resourceNames);
    if r.Err? {
      ghost var n :| n in resourceNames && CannotMap(flow, n, r.error);
      ValidatedMappingErrors(flow, n, r.error);
    } else {
      forall n, e | Mentions(flow.flows, n)
        ensures !CannotMap(flow, n, e)
      {
        MappedHasNoFault(flow, n, r.value[n], e);
      }
    }
  }

  /** The loop over the mapping, in whatever order it iterates, until one write fails. */
  method ProcessMappings(store: ChildStore, flow: Flow, mappings: map<string, ResourceInfo>, sha: string -> ShortHash, fates: string -> WriteFate)
    returns (err: Option<FlowError>, ghost reached: iset<string>)
    requires forall n :: n in mappings ==> Mentions(flow.flows, n) && MapsTo(flow, n, mappings[n])
    modifies store
    ensures err.Some? ==> err == Some(ApiError) && exists n :: n in mappings && !fates(n).Accepted?
    ensures (forall n :: n in reached ==> n in mappings) && (err.None? ==> forall n :: n in mappings ==> n in reached)
    ensures SeparateChildren(flow, sha) ==> Written(old(store.children), store.children, flow, sha, reached)
  {
    reached := iset{};
    var todo := mappings.Keys;
    while todo != {}
      invariant todo <= mappings.Keys
      invariant forall n :: n in reached <==> n in mappings && n !in todo
      invariant SeparateChildren(flow, sha) ==> Written(old(store.children), store.children, flow, sha, reached)
      decreases todo
    {
      var n :| n in todo;
      todo := todo - {n};
      ghost var middle := store.children;
      err := ProcessResource(store, flow, n, mappings[n], sha, fates(n));
      if SeparateChildren(flow, sha) {
        WriteOneMore(old(store.children), middle, store.children, flow, sha, reached, n, fates(n));
      }
      reached := Reached(reached, n, fates(n));
      if err.Some? {
        return;
      }
    }
    err := None;
  }

  /**
   * `ProcessFlow`: an error is the user's exactly when the flow does not compile, and then nothing was
   * written; any other error comes from the API. On success every mentioned resource has its child and no
   * other child moved; on an API error the same holds of the resources reached so far.
   */
  method ProcessFlow(store: ChildStore, flow: Flow, sha: string -> ShortHash, fates: string -> WriteFate)
    returns (err: Option<FlowError>, ghost reached: iset<string>)
    modifies store
    ensures (err.Some? && err.value.ValidationError?) <==> !Compiles(flow)
    ensures !Compiles(flow) ==> store.children == old(store.children)
    ensures err.Some? && Compiles(flow) ==> err == Some(ApiError) && exists n :: Mentions(flow.flows, n) && !fates(n).Accepted?
    ensures reached <= Mentioned(flow) && (err.None? ==> reached == Mentioned(flow))
    ensures Compiles(flow) && SeparateChildren(flow, sha) ==> Written(old(store.children), store.children, flow, sha, reached)
    ensures SeparateChildren(flow, sha) ==> forall n :: n in reached ==> IsCurrent(store.children, flow, n, sha)
  {
    var mapped := MapFlow(flow);
    if mapped.Err? {
      return Some(mapped.error), iset{};
    }
    err, reached := ProcessMappings(store, flow, mapped.value, sha, fates);
    forall n | n in reached && SeparateChildren(flow, sha)
      ensures IsCurrent(store.children, flow, n, sha)
    {
      WrittenIsCurrent(old(store.children), store.children, flow, sha, reached, n);
    }
  }

  // ---- processing again ----

  /**
   * Processing a flow again, after a run that stopped anywhere, ends where one full run would have ended;
   * and after a full run it changes nothing.
   */
  lemma ProcessingAgainConverges(first: Children, second: Children, third: Children, flow: Flow, sha: string -> ShortHash, reached: iset<string>)
    requires SeparateChildren(flow, sha) && reached <= Mentioned(flow)
    requires Written(first, second, flow, sha, reached) && Written(second, third, flow, sha, Mentioned(flow))
    ensures Written(first, third, flow, sha, Mentioned(flow))
    ensures reached == Mentioned(flow) ==> third == second
  {
    forall n | n in Mentioned(flow)
      ensures ChildAt(third, KeyOf(flow, n, sha)) == Some(Merged(ChildAt(first, KeyOf(flow, n, sha)), Target(flow, n)))
      ensures n in reached ==> SameAt(second, third, KeyOf(flow, n, sha))
    {
      var key := KeyOf(flow, n, sha);
      MergedTwice(ChildAt(first, key), Target(flow, n));
      if n !in reached {
        assert SameAt(first, second, key);
      }
    }
    forall key | forall n :: n in Mentioned(flow) ==> KeyOf(flow, n, sha) != key
      ensures SameAt(first, third, key) && SameAt(second, third, key)
    {
      assert SameAt(first, second, key) && SameAt(second, third, key);
    }
    if reached == Mentioned(flow) {
      forall key
        ensures SameAt(second, third, key)
      {
        if exists n :: n in Mentioned(flow) && KeyOf(flow, n, sha) == key {
          var n :| n in Mentioned(flow) && KeyOf(flow, n, sha) == key;
        }
      }
      SameEverywhere(second, third);
    }
  }

  lemma SameEverywhere(a: Children, b: Children)
    requires forall key :: SameAt(a, b, key)
    ensures a == b
  {
    forall key
      ensures key in a <==> key in b
      ensures key in a && key in b ==> a[key] == b[key]
    {
      assert SameAt(a, b, key);
    }
  }

  /** Names that fit keep the children of one flow apart. */
  lemma ShortNamesSeparate(flow: Flow, sha: string -> ShortHash)
    requires forall n :: Mentions(flow.flows, n) ==> |NaiveName(flow.name, n)| <= MAX_NAME_LENGTH
    ensures SeparateChildren(flow, sha)
  {
    forall m, n | Mentions(flow.flows, m) && Mentions(flow.flows, n) && m != n
      ensures KeyOf(flow, m, sha) != KeyOf(flow, n, sha)
    {
      ChildNamesDiffer(flow.name, m, n, sha);
    }
  }

  // ---- the controller's verdict ----

  datatype Verdict = Success | CriticalVerdict | RecoverableVerdict

  /**
   * `Reconcile`: a processing error decides before the error of the rest of the chain does, which for the
   * status write is a recoverable one.
   */
  method ClassifyFlow(processing: Option<FlowError>, statusFailed: bool) returns (v: Verdict)
    ensures v.CriticalVerdict? <==> processing.Some? && processing.value.ValidationError?
    ensures v.Success? <==> processing.None? && !statusFailed
  {
    if processing.Some? && processing.value.ValidationError? {
      return CriticalVerdict;
    } else if processing.Some? {
      return RecoverableVerdict;
    }
    return if statusFailed then RecoverableVerdict else Success;
  }

  /** One pass over a flow: a critical verdict is given exactly to flows that do not compile, and leaves every child alone. */
  method ReconcileFlow(store: ChildStore, flow: Flow, sha: string -> ShortHash, fates: string -> WriteFate, statusFailed: bool)
    returns (v: Verdict)
    modifies store
    ensures v.CriticalVerdict? <==> !Compiles(flow)
    ensures v.CriticalVerdict? ==> store.children == old(store.children)
    ensures v.Success? && SeparateChildren(flow, sha) ==>
      Written(old(store.children), store.children, flow, sha, Mentioned(flow))
      && forall n :: Mentions(flow.flows, n) ==> IsCurrent(store.children, flow, n, sha)
    ensures v.RecoverableVerdict? ==> statusFailed || exists n :: Mentions(flow.flows, n) && !fates(n).Accepted?
  {
    var err, _ := ProcessFlow(store, flow, sha, fates);
    v := ClassifyFlow(err, statusFailed);
  }
}
