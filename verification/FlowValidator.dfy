/** internal/controller/flow/service/flow_validator.go. */
module FlowValidator {
  import opened Prelude
  import opened Decimal
  import opened PeriodTypes
  import opened FlowTypes
  import opened FlowTime

  predicate Distinct(names: seq<string>) {
    forall i, j :: 0 <= i < j < |names| ==> names[i] != names[j]
  }

  function PeriodNames(periods: seq<ScalerPeriod>): seq<string> {
    seq(|periods|, i requires 0 <= i < |periods| => periods[i].name)
  }

  function DeclaredNames(resources: seq<DeclaredResource>): seq<string> {
    seq(|resources|, i requires 0 <= i < |resources| => resources[i].name)
  }

  /** The period defined under a name; a later definition overwrites an earlier one. */
  function PeriodNamed(periods: seq<ScalerPeriod>, name: string): Option<ScalerPeriod> {
    if periods == [] then None
    else if periods[|periods| - 1].name == name then Some(periods[|periods| - 1])
    else PeriodNamed(periods[..|periods| - 1], name)
  }

  lemma {:induction false} NamedIsThere(periods: seq<ScalerPeriod>, name: string)
    requires PeriodNamed(periods, name).Some?
    ensures PeriodNamed(periods, name).value in periods && PeriodNamed(periods, name).value.name == name
  {
    if periods[|periods| - 1].name != name {
      NamedIsThere(periods[..|periods| - 1], name);
    }
  }

  /** None is found exactly if there is none of the name; with distinct names, each period is found under its own. */
  lemma {:induction false} NamedExactly(periods: seq<ScalerPeriod>, name: string)
    ensures PeriodNamed(periods, name).None? <==> forall p :: p in periods ==> p.name != name
    ensures Distinct(PeriodNames(periods)) ==> forall p :: p in periods && p.name == name ==> PeriodNamed(periods, name) == Some(p)
    decreases |periods|
  {
    if periods != [] {
      var before, last := periods[..|periods| - 1], periods[|periods| - 1];
      NamedExactly(before, name);
      assert periods == before + [last];
      assert PeriodNames(before) == PeriodNames(periods)[..|before|];
      if Distinct(PeriodNames(periods)) {
        assert forall i :: 0 <= i < |before| ==> PeriodNames(periods)[i] == before[i].name;
        assert PeriodNames(periods)[|before|] == last.name;
      }
    }
  }

  method CreatePeriodsMap(periods: seq<ScalerPeriod>) returns (m: map<string, ScalerPeriod>)
    ensures forall name :: PeriodNamed(periods, name) == if name in m then Some(m[name]) else None
  {
    m := map[];
    for i := 0 to |periods|
      invariant forall name :: PeriodNamed(periods[..i], name) == if name in m then Some(m[name]) else None
    {
      assert periods[..i + 1][..i] == periods[..i];
      m := m[periods[i].name := periods[i]];
    }
    assert periods[..|periods|] == periods;
  }

  /** Everything a flow item mentions. */
  ghost predicate Mentions(flows: seq<FlowItem>, name: string) {
    exists i, j :: 0 <= i < |flows| && 0 <= j < |flows[i].resources| && flows[i].resources[j].name == name
  }

  ghost predicate MentionsPeriod(flows: seq<FlowItem>, name: string) {
    exists i :: 0 <= i < |flows| && flows[i].periodName == name
  }

  /** One of the three uniqueness loops. */
  method CheckDistinct(names: seq<string>) returns (ok: bool)
    ensures ok <==> Distinct(names)
  {
    var seen: set<string> := {};
    for i := 0 to |names|
      invariant Distinct(names[..i])
      invariant seen == set k | 0 <= k < i :: names[k]
    {
      if names[i] in seen {
        return false;
      }
      seen := seen + {names[i]};
    }
    return true;
  }

  predicate WellNamed(flow: Flow) {
    Distinct(PeriodNames(flow.periods)) && Distinct(DeclaredNames(flow.k8s)) && Distinct(DeclaredNames(flow.gcp))
  }

  method ExtractFlowData(flow: Flow) returns (r: Result<(set<string>, set<string>), FlowError>)
    ensures r.Ok? <==> WellNamed(flow)
    ensures r.Err? ==> r.error == ValidationError(
      if !Distinct(PeriodNames(flow.periods)) then DuplicatePeriod else DuplicateResource)
    ensures r.Ok? ==> (forall n :: n in r.value.0 <==> Mentions(flow.flows, n)) && (forall n :: n in r.value.1 <==> MentionsPeriod(flow.flows, n))
  {
    var ok := CheckDistinct(PeriodNames(flow.periods));
    if !ok {
      return Err(ValidationError(DuplicatePeriod));
    }
    ok := CheckDistinct(DeclaredNames(flow.k8s));
    if !ok {
      return Err(ValidationError(DuplicateResource));
    }
    ok := CheckDistinct(DeclaredNames(flow.gcp));
    if !ok {
      return Err(ValidationError(DuplicateResource));
    }
    var resourceNames: set<string>, periodNames: set<string> := {}, {};
    for i := 0 to |flow.flows|
      invariant forall n :: n in resourceNames <==> Mentions(flow.flows[..i], n)
      invariant forall n :: n in periodNames <==> MentionsPeriod(flow.flows[..i], n)
    {
      var item := flow.flows[i];
      periodNames := periodNames + {item.periodName};
      ghost var before := resourceNames;
      for j := 0 to |item.resources|
        invariant forall n :: n in resourceNames <==> n in before || exists k :: 0 <= k < j && item.resources[k].name == n
      {
        resourceNames := resourceNames + {item.resources[j].name};
      }
      MentionsOneMore(flow.flows, i);
    }
    assert flow.flows[..|flow.flows|] == flow.flows;
    return Ok((resourceNames, periodNames));
  }

  lemma MentionsOneMore(flows: seq<FlowItem>, i: nat)
    requires i < |flows|
    ensures forall n :: Mentions(flows[..i + 1], n) <==>
      Mentions(flows[..i], n) || exists k :: 0 <= k < |flows[i].resources| && flows[i].resources[k].name == n
    ensures forall n :: MentionsPeriod(flows[..i + 1], n) <==> MentionsPeriod(flows[..i], n) || flows[i].periodName == n
  {
    var longer, shorter := flows[..i + 1], flows[..i];
    assert forall k :: 0 <= k < i ==> longer[k] == shorter[k];
    forall n
      ensures Mentions(longer, n) <==> Mentions(shorter, n) || exists k :: 0 <= k < |flows[i].resources| && flows[i].resources[k].name == n
      ensures MentionsPeriod(longer, n) <==> MentionsPeriod(shorter, n) || flows[i].periodName == n
    {
      if Mentions(longer, n) {
        var a, b :| 0 <= a < |longer| && 0 <= b < |longer[a].resources| && longer[a].resources[b].name == n;
        assert a < i ==> shorter[a].resources[b].name == n;
        assert a == i ==> flows[i].resources[b].name == n;
      }
      if Mentions(shorter, n) {
        var a, b :| 0 <= a < |shorter| && 0 <= b < |shorter[a].resources| && shorter[a].resources[b].name == n;
        assert longer[a].resources[b].name == n;
      }
      if exists k :: 0 <= k < |flows[i].resources| && flows[i].resources[k].name == n {
        var k :| 0 <= k < |flows[i].resources| && flows[i].resources[k].name == n;
        assert longer[i].resources[k].name == n;
      }
      if MentionsPeriod(longer, n) {
        var a :| 0 <= a < |longer| && longer[a].periodName == n;
        assert a < i ==> shorter[a].periodName == n;
      }
      if MentionsPeriod(shorter, n) {
        var a :| 0 <= a < |shorter| && shorter[a].periodName == n;
        assert longer[a].periodName == n;
      }
      if flows[i].periodName == n {
        assert longer[i].periodName == n;
      }
    }
  }

  /** The check of one mentioned resource against the duration of its period; sums wrap like int64. */
  function OneResourceDelay(r: FlowResource, duration: int): Option<Reason> {
    match (DelayOf(r.startTimeDelay), DelayOf(r.endTimeDelay))
    case (Ok(s), Ok(e)) => if WrapInt64(WrapInt64(duration - s) + e) <= 0 then Some(InvertedWindow) else None
    case _ => Some(InvalidDelayFormat)
  }

  /** Does every resource of every item of `name` fit into `duration`? */
  ghost predicate DelaysFit(flows: seq<FlowItem>, name: string, duration: int) {
    forall i, j :: 0 <= i < |flows| && 0 <= j < |flows[i].resources| && flows[i].periodName == name ==>
      OneResourceDelay(flows[i].resources[j], duration) == None
  }

  method ValidateResourceDelays(flow: Flow, name: string, duration: int) returns (r: Option<FlowError>)
    ensures r.None? <==> DelaysFit(flow.flows, name, duration)
    ensures r.Some? ==> r.value.ValidationError?
  {
    for i := 0 to |flow.flows|
      invariant DelaysFit(flow.flows[..i], name, duration)
    {
      var item := flow.flows[i];
      if item.periodName == name {
        for j := 0 to |item.resources|
          invariant forall k :: 0 <= k < j ==> OneResourceDelay(item.resources[k], duration) == None
        {
          var reason := OneResourceDelay(item.resources[j], duration);
          if reason.Some? {
            return Some(ValidationError(reason.value));
          }
        }
      }
    }
    assert flow.flows[..|flow.flows|] == flow.flows;
    return None;
  }

  /** Everything the timing validation demands of one mentioned period. */
  ghost predicate TimingOk(flow: Flow, name: string) {
    && PeriodNamed(flow.periods, name).Some?
    && GetPeriodDuration(PeriodNamed(flow.periods, name).value).Ok?
    && DelaysFit(flow.flows, name, GetPeriodDuration(PeriodNamed(flow.periods, name).value).value)
  }

  /**
   * The names come out of a Go map, in any order, so which error is found first is open; that one is found
   * exactly when some period fails is not, and every error is the user's.
   */
  method ValidatePeriodTimings(flow: Flow, periodNames: set<string>) returns (r: Option<FlowError>)
    ensures r.None? <==> forall n :: n in periodNames ==> TimingOk(flow, n)
    ensures r.Some? ==> r.value.ValidationError?
  {
    var periodsMap := CreatePeriodsMap(flow.periods);
    var todo := periodNames;
    while todo != {}
      invariant todo <= periodNames
      invariant forall n :: n in periodNames - todo ==> TimingOk(flow, n)
      decreases todo
    {
      var name :| name in todo;
      todo := todo - {name};
      if name !in periodsMap {
        return Some(ValidationError(UnknownPeriod));
      }
      var duration := GetPeriodDuration(periodsMap[name]);
      if duration.Err? {
        return Some(if duration.error.ValidationError? then duration.error else ValidationError(InvalidPeriodDuration));
      }
      var delays := ValidateResourceDelays(flow, name, duration.value);
      if delays.Some? {
        return delays;
      }
    }
    return None;
  }

  /** What both validation calls establish together. */
  ghost predicate Validated(flow: Flow) {
    WellNamed(flow) && forall n :: MentionsPeriod(flow.flows, n) ==> TimingOk(flow, n)
  }
}
