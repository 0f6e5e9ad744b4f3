/** internal/controller/flow/service/resource_mapper.go. */
module FlowMapper {
  import opened Prelude
  import opened PeriodTypes
  import opened FlowTypes
  import opened FlowTime
  import opened FlowValidator

  /** One mention of a resource: the period of its flow item, and the mention itself. */
  datatype Mention = Mention(periodName: string, resource: FlowResource)

  function MentionsOf(item: FlowItem): seq<Mention> {
    seq(|item.resources|, j requires 0 <= j < |item.resources| => Mention(item.periodName, item.resources[j]))
  }

  /** All mentions of a flow, in order. */
  function AllMentions(flows: seq<FlowItem>): seq<Mention> {
    if flows == [] then [] else AllMentions(flows[..|flows| - 1]) + MentionsOf(flows[|flows| - 1])
  }

  /** The mentions of one resource, in order: what its period list is a projection of. */
  function MentionsNamed(mentions: seq<Mention>, name: string): seq<Mention> {
    if mentions == [] then []
    else
      MentionsNamed(mentions[..|mentions| - 1], name)
      + (if mentions[|mentions| - 1].resource.name == name then [mentions[|mentions| - 1]] else [])
  }

  function CreatePeriodWithDelay(p: ScalerPeriod, r: FlowResource): Result<PeriodWithDelay, FlowError> {
    match (DelayOf(r.startTimeDelay), DelayOf(r.endTimeDelay))
    case (Err(e), _) => Err(e)
    case (Ok(_), Err(e)) => Err(e)
    case (Ok(s), Ok(e)) =>
      match (CalculatePeriodStart(p, s), CalculatePeriodEnd(p, e))
      case (Err(err), _) => Err(err)
      case (Ok(_), Err(err)) => Err(err)
      case (Ok(start), Ok(end)) => Ok(PeriodWithDelay(p, s, e, start, end))
  }

  /** The delayed period of one mention. */
  function Delays(periods: seq<ScalerPeriod>, m: Mention): Result<PeriodWithDelay, FlowError> {
    match PeriodNamed(periods, m.periodName)
    case None => Err(ValidationError(UnknownPeriod))
    case Some(p) => CreatePeriodWithDelay(p, m.resource)
  }

  /**
   * The delayed period of a mention is `d` exactly if `d` holds the mentioned period, the mention's own two
   * delays, and the ends of the period, each moved by its own delay.
   */
  lemma DelaysExactly(periods: seq<ScalerPeriod>, m: Mention, d: PeriodWithDelay)
    ensures Delays(periods, m) == Ok(d) <==>
      && PeriodNamed(periods, m.periodName) == Some(d.period)
      && DelayOf(m.resource.startTimeDelay) == Ok(d.startTimeDelay) && DelayOf(m.resource.endTimeDelay) == Ok(d.endTimeDelay)
      && ParsePeriodStart(d.period) == Some(d.startTime - d.startTimeDelay)
      && ParsePeriodEnd(d.period) == Some(d.endTime - d.endTimeDelay)
  {
  }

  predicate NoRepeat(own: seq<Mention>) {
    forall i, j :: 0 <= i < j < |own| ==> own[i].periodName != own[j].periodName
  }

  /** A period list is the projection of the mentions of its resource: one entry each, in order, no period twice. */
  predicate IsProjection(periods: seq<ScalerPeriod>, own: seq<Mention>, list: seq<PeriodWithDelay>) {
    |list| == |own| && NoRepeat(own) && forall i :: 0 <= i < |own| ==> Delays(periods, own[i]) == Ok(list[i])
  }

  /** The text under which the mapper remembers a mention. */
  function SeenKey(m: Mention): string {
    m.periodName + "/" + m.resource.name
  }

  lemma SeenKeyTellsPeriods(a: Mention, b: Mention)
    requires a.resource.name == b.resource.name && SeenKey(a) == SeenKey(b)
    ensures a.periodName == b.periodName
  {
    var suffix := |a.resource.name| + 1;
    assert |SeenKey(a)| == |a.periodName| + suffix && |SeenKey(b)| == |b.periodName| + suffix;
    assert SeenKey(a)[..|a.periodName|] == a.periodName && SeenKey(b)[..|b.periodName|] == b.periodName;
  }

  /** The scan has read the first `mentions` without finding a fault. */
  ghost predicate ScanState(periods: seq<ScalerPeriod>, mentions: seq<Mention>, name: string, seen: set<string>, list: seq<PeriodWithDelay>) {
    && IsProjection(periods, MentionsNamed(mentions, name), list)
    && (forall key :: key in seen <==> exists i :: 0 <= i < |MentionsNamed(mentions, name)| && SeenKey(MentionsNamed(mentions, name)[i]) == key)
  }

  lemma {:induction false} NamedMentionsHaveName(mentions: seq<Mention>, name: string)
    ensures forall i :: 0 <= i < |MentionsNamed(mentions, name)| ==> MentionsNamed(mentions, name)[i].resource.name == name
  {
    if mentions != [] {
      NamedMentionsHaveName(mentions[..|mentions| - 1], name);
    }
  }

  lemma {:induction false} NamedOfConcat(a: seq<Mention>, b: seq<Mention>, name: string)
    ensures MentionsNamed(a + b, name) == MentionsNamed(a, name) + MentionsNamed(b, name)
    decreases |b|
  {
    if b == [] {
      assert a + b == a;
    } else {
      var shorter := b[..|b| - 1];
      assert (a + b)[..|a + b| - 1] == a + shorter;
      NamedOfConcat(a, shorter, name);
    }
  }

  lemma {:induction false} MentionsOfPrefix(flows: seq<FlowItem>, i: nat)
    requires i <= |flows|
    ensures exists rest :: AllMentions(flows) == AllMentions(flows[..i]) + rest
    decreases |flows| - i
  {
    if i == |flows| {
      assert flows[..i] == flows;
      assert AllMentions(flows) == AllMentions(flows[..i]) + [];
    } else {
      MentionsOfPrefix(flows, i + 1);
      var rest :| AllMentions(flows) == AllMentions(flows[..i + 1]) + rest;
      assert flows[..i + 1][..i] == flows[..i];
      assert AllMentions(flows) == AllMentions(flows[..i]) + (MentionsOf(flows[i]) + rest);
    }
  }

  /** One mention: skip it, or fail on a repeated pair, an unknown period or a bad time, or append its period. */
  method ReadMention(periodsMap: map<string, ScalerPeriod>, ghost periods: seq<ScalerPeriod>, ghost before: seq<Mention>,
                     m: Mention, name: string, seen: set<string>, list: seq<PeriodWithDelay>)
    returns (r: Result<(set<string>, seq<PeriodWithDelay>), FlowError>)
    requires ScanState(periods, before, name, seen, list)
    requires forall n :: PeriodNamed(periods, n) == if n in periodsMap then Some(periodsMap[n]) else None
    ensures r.Ok? ==> ScanState(periods, before + [m], name, r.value.0, r.value.1)
    ensures r.Err? ==> m.resource.name == name && FaultAt(periods, MentionsNamed(before, name), m, r.error)
  {
    assert (before + [m])[..|before|] == before;
    if m.resource.name != name {
      return Ok((seen, list));
    }
    ghost var own := MentionsNamed(before, name);
    NamedMentionsHaveName(before, name);
    var key := SeenKey(m);
    if key in seen {
      ghost var i :| 0 <= i < |own| && SeenKey(own[i]) == key;
      SeenKeyTellsPeriods(own[i], m);
      return Err(ValidationError(DuplicateResourceInPeriod));
    }
    if m.periodName !in periodsMap {
      return Err(ValidationError(UnknownPeriod));
    }
    var p := CreatePeriodWithDelay(periodsMap[m.periodName], m.resource);
    if p.Err? {
      return Err(p.error);
    }
    ScanExtends(periods, before, m, name, seen, list, p.value);
    return Ok((seen + {key}, list + [p.value]));
  }

  /** A mention without a fault extends the list. */
  lemma ScanExtends(periods: seq<ScalerPeriod>, before: seq<Mention>, m: Mention, name: string, seen: set<string>,
                    list: seq<PeriodWithDelay>, d: PeriodWithDelay)
    requires ScanState(periods, before, name, seen, list) && m.resource.name == name
    requires SeenKey(m) !in seen && Delays(periods, m) == Ok(d)
    ensures ScanState(periods, before + [m], name, seen + {SeenKey(m)}, list + [d])
  {
    var own := MentionsNamed(before, name);
    assert (before + [m])[..|before|] == before;
    assert MentionsNamed(before + [m], name) == own + [m];
    NamedMentionsHaveName(before, name);
    UnseenExtends(own, m, seen);
  }

  /** A mention whose key is new repeats no period, and its key joins the seen ones. */
  lemma UnseenExtends(own: seq<Mention>, m: Mention, seen: set<string>)
    requires NoRepeat(own) && SeenKey(m) !in seen
    requires forall i :: 0 <= i < |own| ==> own[i].resource.name == m.resource.name
    requires forall key :: key in seen <==> exists i :: 0 <= i < |own| && SeenKey(own[i]) == key
    ensures NoRepeat(own + [m])
    ensures forall key :: key in seen + {SeenKey(m)} <==> exists i :: 0 <= i < |own + [m]| && SeenKey((own + [m])[i]) == key
  {
    forall i | 0 <= i < |own|
      ensures own[i].periodName != m.periodName
    {
      assert SeenKey(own[i]) in seen;
    }
    forall k
      ensures k in seen + {SeenKey(m)} <==> exists i :: 0 <= i < |own + [m]| && SeenKey((own + [m])[i]) == k
    {
      if k == SeenKey(m) {
        assert SeenKey((own + [m])[|own|]) == k;
      }
      if k in seen {
        var i :| 0 <= i < |own| && SeenKey(own[i]) == k;
        assert SeenKey((own + [m])[i]) == k;
      }
    }
  }

  /** Why a mention stops the scan, given the earlier mentions of the same resource. */
  ghost predicate FaultAt(periods: seq<ScalerPeriod>, own: seq<Mention>, m: Mention, e: FlowError) {
    (e == ValidationError(DuplicateResourceInPeriod) && exists i :: 0 <= i < |own| && own[i].periodName == m.periodName)
    || Delays(periods, m) == Err(e)
  }

  /** The scan of one resource fails with `e`: some mention of it has that fault. */
  ghost predicate Faulty(flow: Flow, name: string, e: FlowError) {
    var all := AllMentions(flow.flows);
    exists k :: 0 <= k < |all| && all[k].resource.name == name && FaultAt(flow.periods, MentionsNamed(all[..k], name), all[k], e)
  }

  lemma OneMoreMention(before: seq<Mention>, item: FlowItem, j: nat)
    requires j < |item.resources|
    ensures before + MentionsOf(item)[..j + 1] == before + MentionsOf(item)[..j] + [Mention(item.periodName, item.resources[j])]
  {
  }

  lemma OneMoreItem(flows: seq<FlowItem>, i: nat)
    requires i < |flows|
    ensures AllMentions(flows[..i + 1]) == AllMentions(flows[..i]) + MentionsOf(flows[i])[..|flows[i].resources|]
  {
    assert flows[..i + 1][..i] == flows[..i];
    assert MentionsOf(flows[i])[..|flows[i].resources|] == MentionsOf(flows[i]);
  }

  /** `findAssociatedPeriods`: the projection, or the fault of some mention. */
  method FindAssociatedPeriods(flow: Flow, name: string, periodsMap: map<string, ScalerPeriod>)
    returns (r: Result<seq<PeriodWithDelay>, FlowError>)
    requires forall n :: PeriodNamed(flow.periods, n) == if n in periodsMap then Some(periodsMap[n]) else None
    ensures r.Ok? ==> IsProjection(flow.periods, MentionsNamed(AllMentions(flow.flows), name), r.value)
    ensures r.Err? ==> Faulty(flow, name, r.error)
  {
    var list: seq<PeriodWithDelay> := [];
    var seen: set<string> := {};
    for i := 0 to |flow.flows|
      invariant ScanState(flow.periods, AllMentions(flow.flows[..i]), name, seen, list)
    {
      var item := flow.flows[i];
      ghost var before := AllMentions(flow.flows[..i]);
      ghost var here := MentionsOf(item);
      assert before + here[..0] == before;
      for j := 0 to |item.resources|
        invariant ScanState(flow.periods, before + here[..j], name, seen, list)
      {
        var m := Mention(item.periodName, item.resources[j]);
        var read := ReadMention(periodsMap, flow.periods, before + here[..j], m, name, seen, list);
        if read.Err? {
          FaultInWhole(flow, name, i, j, read.error);
          return Err(read.error);
        }
        seen, list := read.value.0, read.value.1;
        OneMoreMention(before, item, j);
      }
      OneMoreItem(flow.flows, i);
    }
    assert flow.flows[..|flow.flows|] == flow.flows;
    return Ok(list);
  }

  lemma FaultInWhole(flow: Flow, name: string, i: nat, j: nat, e: FlowError)
    requires i < |flow.flows| && j < |flow.flows[i].resources|
    requires var m := Mention(flow.flows[i].periodName, flow.flows[i].resources[j]);
      m.resource.name == name
      && FaultAt(flow.periods, MentionsNamed(AllMentions(flow.flows[..i]) + MentionsOf(flow.flows[i])[..j], name), m, e)
    ensures Faulty(flow, name, e)
  {
    var flows := flow.flows;
    var before, here := AllMentions(flows[..i]), MentionsOf(flows[i]);
    assert flows[..i + 1][..i] == flows[..i];
    MentionsOfPrefix(flows, i + 1);
    var rest :| AllMentions(flows) == AllMentions(flows[..i + 1]) + rest;
    var all := AllMentions(flows);
    assert all == before + here + rest;
    var k := |before| + j;
    assert all[k] == here[j] && all[..k] == before + here[..j];
  }

  /** The first declared resource of a name. */
  function FindResource(resources: seq<DeclaredResource>, name: string): Option<DeclaredResource> {
    if resources == [] then None
    else if resources[0].name == name then Some(resources[0])
    else FindResource(resources[1..], name)
  }

  function DetermineResourceType(k8s: Option<DeclaredResource>, gcp: Option<DeclaredResource>): Result<ResourceKind, FlowError> {
    if k8s.Some? && gcp.Some? then Err(ValidationError(AmbiguousResource))
    else if k8s.Some? then Ok(K8sKind)
    else if gcp.Some? then Ok(GcpKind)
    else Err(ValidationError(UnknownResource))
  }

  /** What the mapping of one resource must be: tied to exactly one declaration, its periods the projection. */
  ghost predicate MapsTo(flow: Flow, name: string, info: ResourceInfo) {
    var k8s, gcp := FindResource(flow.k8s, name), FindResource(flow.gcp, name);
    && info.k8sRes == k8s && info.gcpRes == gcp
    && (match info.kind
        case K8sKind => k8s.Some? && gcp.None?
        case GcpKind => k8s.None? && gcp.Some?
        case UnknownKind(_) => false)
    && IsProjection(flow.periods, MentionsNamed(AllMentions(flow.flows), name), info.periods)
  }

  /** Why a resource cannot be mapped. */
  ghost predicate CannotMap(flow: Flow, name: string, e: FlowError) {
    DetermineResourceType(FindResource(flow.k8s, name), FindResource(flow.gcp, name)) == Err(e) || Faulty(flow, name, e)
  }

  method MapResource(flow: Flow, name: string, periodsMap: map<string, ScalerPeriod>) returns (r: Result<ResourceInfo, FlowError>)
    requires forall n :: PeriodNamed(flow.periods, n) == if n in periodsMap then Some(periodsMap[n]) else None
    ensures r.Ok? ==> MapsTo(flow, name, r.value)
    ensures r.Err? ==> CannotMap(flow, name, r.error)
  {
    var k8s, gcp := FindResource(flow.k8s, name), FindResource(flow.gcp, name);
    var kind := DetermineResourceType(k8s, gcp);
    if kind.Err? {
      return Err(kind.error);
    }
    var periods := FindAssociatedPeriods(flow, name, periodsMap);
    if periods.Err? {
      return Err(periods.error);
    }
    return Ok(ResourceInfo(kind.value, if kind.value.K8sKind? then k8s else None, if kind.value.GcpKind? then gcp else None, periods.value));
  }

  /** The mapping has exactly the given resources as keys, each mapped; or some resource cannot be mapped. */
  method CreateResourceMappings(flow: Flow, names: set<string>) returns (r: Result<map<string, ResourceInfo>, FlowError>)
    ensures r.Ok? ==> r.value.Keys == names && forall n :: n in names ==> MapsTo(flow, n, r.value[n])
    ensures r.Err? ==> exists n :: n in names && CannotMap(flow, n, r.error)
  {
    var periodsMap := CreatePeriodsMap(flow.periods);
    var mappings: map<string, ResourceInfo> := map[];
    var todo := names;
    while todo != {}
      invariant todo <= names && mappings.Keys == names - todo
      invariant forall n :: n in mappings ==> MapsTo(flow, n, mappings[n])
      decreases todo
    {
      var name :| name in todo;
      todo := todo - {name};
      var info := MapResource(flow, name, periodsMap);
      if info.Err? {
        return Err(info.error);
      }
      mappings := mappings[name := info.value];
    }
    return Ok(mappings);
  }

  lemma NamedLast(before: seq<Mention>, m: Mention, name: string)
    requires m.resource.name == name
    ensures MentionsNamed(before + [m], name) == MentionsNamed(before, name) + [m]
  {
    assert (before + [m])[..|before|] == before;
  }

  lemma NamedSplit(all: seq<Mention>, k: nat, name: string)
    requires k < |all| && all[k].resource.name == name
    ensures MentionsNamed(all, name) == MentionsNamed(all[..k], name) + [all[k]] + MentionsNamed(all[k + 1..], name)
  {
    NamedLast(all[..k], all[k], name);
    NamedOfConcat(all[..k] + [all[k]], all[k + 1..], name);
    assert all == all[..k] + [all[k]] + all[k + 1..];
  }

  lemma NamedAt(all: seq<Mention>, k: nat, name: string)
    requires k < |all| && all[k].resource.name == name
    ensures var own, named := MentionsNamed(all[..k], name), MentionsNamed(all, name);
      |own| < |named| && named[..|own|] == own && named[|own|] == all[k]
  {
    NamedSplit(all, k, name);
  }

  lemma ProjectedHasNoFault(periods: seq<ScalerPeriod>, all: seq<Mention>, k: nat, name: string, list: seq<PeriodWithDelay>, e: FlowError)
    requires k < |all| && all[k].resource.name == name && IsProjection(periods, MentionsNamed(all, name), list)
    ensures !FaultAt(periods, MentionsNamed(all[..k], name), all[k], e)
  {
    NamedAt(all, k, name);
    var own, named := MentionsNamed(all[..k], name), MentionsNamed(all, name);
    assert Delays(periods, named[|own|]).Ok?;
    assert forall i :: 0 <= i < |own| ==> own[i] == named[..|own|][i] == named[i];
  }

  /** Being mapped and being unmappable exclude each other, so the mapping succeeds exactly when no resource has a fault. */
  lemma MappedHasNoFault(flow: Flow, name: string, info: ResourceInfo, e: FlowError)
    requires MapsTo(flow, name, info)
    ensures !CannotMap(flow, name, e)
  {
    var all := AllMentions(flow.flows);
    if Faulty(flow, name, e) {
      var k :| 0 <= k < |all| && all[k].resource.name == name && FaultAt(flow.periods, MentionsNamed(all[..k], name), all[k], e);
      ProjectedHasNoFault(flow.periods, all, k, name, info.periods, e);
    }
  }

  /** The `i`-th mention of a resource, among all mentions. */
  lemma {:induction false} NamedIndex(all: seq<Mention>, name: string, i: nat) returns (k: nat)
    requires i < |MentionsNamed(all, name)|
    ensures k < |all| && all[k] == MentionsNamed(all, name)[i] && all[k].resource.name == name
    ensures MentionsNamed(all[..k], name) == MentionsNamed(all, name)[..i]
    decreases |all|
  {
    var before := all[..|all| - 1];
    if i < |MentionsNamed(before, name)| {
      k := NamedIndex(before, name, i);
      assert before[..k] == all[..k];
    } else {
      k := |all| - 1;
    }
  }

  lemma FaultIsFound(flow: Flow, name: string, k: nat, e: FlowError)
    requires var all := AllMentions(flow.flows);
      k < |all| && all[k].resource.name == name && FaultAt(flow.periods, MentionsNamed(all[..k], name), all[k], e)
    ensures CannotMap(flow, name, e)
  {
    assert Faulty(flow, name, e);
  }

  /** A resource without a fault has a delayed period for each of its mentions, and mentions no period twice. */
  lemma NoFaultHasDelays(flow: Flow, name: string, i: nat)
    requires forall e :: !CannotMap(flow, name, e)
    requires i < |MentionsNamed(AllMentions(flow.flows), name)|
    ensures Delays(flow.periods, MentionsNamed(AllMentions(flow.flows), name)[i]).Ok?
    ensures forall j :: 0 <= j < i ==>
      MentionsNamed(AllMentions(flow.flows), name)[j].periodName != MentionsNamed(AllMentions(flow.flows), name)[i].periodName
  {
    var all := AllMentions(flow.flows);
    var own := MentionsNamed(all, name);
    var k := NamedIndex(all, name, i);
    var d := Delays(flow.periods, own[i]);
    if d.Err? {
      FaultIsFound(flow, name, k, d.error);
    }
    forall j | 0 <= j < i
      ensures own[j].periodName != own[i].periodName
    {
      if own[j].periodName == own[i].periodName {
        assert own[..i][j] == own[j];
        FaultIsFound(flow, name, k, ValidationError(DuplicateResourceInPeriod));
      }
    }
  }

  /** The declaration that is found is one of that name; none is found exactly if there is none. */
  lemma {:induction false} FoundIsDeclared(resources: seq<DeclaredResource>, name: string)
    ensures FindResource(resources, name).Some? ==>
      FindResource(resources, name).value in resources && FindResource(resources, name).value.name == name
    ensures FindResource(resources, name).None? <==> forall r :: r in resources ==> r.name != name
  {
    if resources != [] && resources[0].name != name {
      FoundIsDeclared(resources[1..], name);
    }
  }

  /** With distinct names, a declaration is the one that is found under its name. */
  lemma {:induction false} DeclaredIsFound(resources: seq<DeclaredResource>, r: DeclaredResource)
    requires Distinct(DeclaredNames(resources)) && r in resources
    ensures FindResource(resources, r.name) == Some(r)
    decreases |resources|
  {
    var names, rest := DeclaredNames(resources), resources[1..];
    assert DeclaredNames(rest) == names[1..];
    if r in rest {
      var i :| 0 <= i < |rest| && rest[i] == r;
      assert names[0] != names[i + 1] == r.name;
      DeclaredIsFound(rest, r);
    }
  }

  // ---- after validation ----

  lemma {:induction false} EveryMentionIsInAnItem(flows: seq<FlowItem>, k: nat) returns (i: nat, j: nat)
    requires k < |AllMentions(flows)|
    ensures i < |flows| && j < |flows[i].resources| && AllMentions(flows)[k] == Mention(flows[i].periodName, flows[i].resources[j])
  {
    var before, last := flows[..|flows| - 1], flows[|flows| - 1];
    if k < |AllMentions(before)| {
      i, j := EveryMentionIsInAnItem(before, k);
    } else {
      i, j := |flows| - 1, k - |AllMentions(before)|;
    }
  }

  /** On a validated flow every mention has its delayed period. */
  lemma ValidatedMentionsHaveDelays(flow: Flow, k: nat)
    requires Validated(flow) && k < |AllMentions(flow.flows)|
    ensures Delays(flow.periods, AllMentions(flow.flows)[k]).Ok?
  {
    var i, j := EveryMentionIsInAnItem(flow.flows, k);
    var name := flow.flows[i].periodName;
    assert MentionsPeriod(flow.flows, name);
    var duration := GetPeriodDuration(PeriodNamed(flow.periods, name).value).value;
    assert OneResourceDelay(flow.flows[i].resources[j], duration) == None;
  }

  /**
   * After a successful validation a resource can fail to map for three reasons only: it is declared twice
   * over, not at all, or it is mentioned twice for one period. None of them is a time error.
   */
  lemma ValidatedMappingErrors(flow: Flow, name: string, e: FlowError)
    requires Validated(flow) && CannotMap(flow, name, e)
    ensures e in {ValidationError(AmbiguousResource), ValidationError(UnknownResource), ValidationError(DuplicateResourceInPeriod)}
  {
    if Faulty(flow, name, e) {
      var all := AllMentions(flow.flows);
      var k :| 0 <= k < |all| && all[k].resource.name == name && FaultAt(flow.periods, MentionsNamed(all[..k], name), all[k], e);
      ValidatedMentionsHaveDelays(flow, k);
    }
  }
}
