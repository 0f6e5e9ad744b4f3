/** internal/webhook/v1alpha3/flow_webhook.go: the admission-time timing check, against the controller's. */
module FlowWebhook {
  import opened Prelude
  import opened Decimal
  import opened PeriodTypes
  import opened FlowTypes
  import opened FlowTime
  import opened FlowValidator

  /** The webhook's duration: an end at or before the start counts as the next day, for fixed periods too. */
  function WebhookDuration(p: ScalerPeriod): Option<int> {
    match (ParsePeriodStart(p), ParsePeriodEnd(p))
    case (Some(start), Some(end)) => Some(ClampInt64((if end <= start then end + DAY else end) - start))
    case _ => None
  }

  /** The start delays of an item, added up as int64; none if one of them cannot be parsed. */
  function WrappedSum(resources: seq<FlowResource>): Option<int> {
    if resources == [] then Some(0)
    else
      match (WrappedSum(resources[..|resources| - 1]), DelayOf(resources[|resources| - 1].startTimeDelay))
      case (Some(total), Ok(delay)) => Some(WrapInt64(total + delay))
      case _ => None
  }

  predicate ItemFits(item: FlowItem, duration: int) {
    WrappedSum(item.resources).Some? && WrappedSum(item.resources).value <= duration
  }

  /** What the webhook demands of one period of the spec. */
  ghost predicate PeriodFits(flow: Flow, p: ScalerPeriod) {
    (exists i :: 0 <= i < |flow.flows| && flow.flows[i].periodName == p.name) ==>
      WebhookDuration(p).Some?
      && forall i :: 0 <= i < |flow.flows| && flow.flows[i].periodName == p.name ==> ItemFits(flow.flows[i], WebhookDuration(p).value)
  }

  lemma {:induction false} BadDelaySpreads(resources: seq<FlowResource>, n: nat)
    requires n <= |resources| && WrappedSum(resources[..n]).None?
    ensures WrappedSum(resources).None?
    decreases |resources| - n
  {
    if n == |resources| {
      assert resources[..n] == resources;
    } else {
      assert resources[..n + 1][..n] == resources[..n];
      BadDelaySpreads(resources, n + 1);
    }
  }

  method TotalDelay(resources: seq<FlowResource>) returns (total: Option<int>)
    ensures total == WrappedSum(resources)
  {
    var totalDelay := 0;
    for i := 0 to |resources|
      invariant WrappedSum(resources[..i]) == Some(totalDelay)
    {
      assert resources[..i + 1][..i] == resources[..i];
      var delay := DelayOf(resources[i].startTimeDelay);
      if delay.Err? {
        BadDelaySpreads(resources, i + 1);
        return None;
      }
      totalDelay := WrapInt64(totalDelay + delay.value);
    }
    assert resources[..|resources|] == resources;
    return Some(totalDelay);
  }

  method ValidateFlowTimings(flow: Flow) returns (ok: bool)
    ensures ok <==> forall p :: p in flow.periods ==> PeriodFits(flow, p)
  {
    for k := 0 to |flow.periods|
      invariant forall p :: p in flow.periods[..k] ==> PeriodFits(flow, p)
    {
      var period := flow.periods[k];
      var duration: Option<int> := None;
      for i := 0 to |flow.flows|
        invariant (exists j :: 0 <= j < i && flow.flows[j].periodName == period.name) ==> duration.Some?
        invariant duration.Some? ==> WebhookDuration(period) == duration
        invariant forall j :: 0 <= j < i && flow.flows[j].periodName == period.name ==>
          duration.Some? && ItemFits(flow.flows[j], duration.value)
      {
        if flow.flows[i].periodName == period.name {
          duration := WebhookDuration(period);
          assert period in flow.periods && flow.flows[i].periodName == period.name;
          if duration.None? {
            assert !PeriodFits(flow, period);
            return false;
          }
          var total := TotalDelay(flow.flows[i].resources);
          if total.None? || total.value > duration.value {
            assert !ItemFits(flow.flows[i], duration.value);
            assert !PeriodFits(flow, period);
            return false;
          }
        }
      }
    }
    return true;
  }

  // ---- the webhook's check and the controller's ----

  /** A mention as the API schema lets it through: two delays that parse, neither negative. */
  predicate WellFormedDelays(r: FlowResource) {
    && DelayOf(r.startTimeDelay).Ok? && 0 <= DelayOf(r.startTimeDelay).value <= INT64_MAX
    && DelayOf(r.endTimeDelay).Ok? && 0 <= DelayOf(r.endTimeDelay).value <= INT64_MAX
  }

  function StartDelay(r: FlowResource): int {
    match DelayOf(r.startTimeDelay)
    case Ok(delay) => delay
    case Err(_) => 0
  }

  function EndDelay(r: FlowResource): int {
    match DelayOf(r.endTimeDelay)
    case Ok(delay) => delay
    case Err(_) => 0
  }

  /** The start delays of an item, added up exactly. */
  function ExactSum(resources: seq<FlowResource>): int {
    if resources == [] then 0 else ExactSum(resources[..|resources| - 1]) + StartDelay(resources[|resources| - 1])
  }

  lemma {:induction false} SumsAgree(resources: seq<FlowResource>)
    requires (forall r :: r in resources ==> WellFormedDelays(r)) && ExactSum(resources) <= INT64_MAX
    ensures WrappedSum(resources) == Some(ExactSum(resources)) && 0 <= ExactSum(resources)
    ensures forall r :: r in resources ==> StartDelay(r) <= ExactSum(resources)
  {
    if resources != [] {
      var before, last := resources[..|resources| - 1], resources[|resources| - 1];
      assert last in resources && forall r :: r in before ==> r in resources;
      NonNegativeSum(before);
      SumsAgree(before);
      assert forall r :: r in resources ==> r == last || r in before;
    }
  }

  /** With such delays, an item passes the webhook exactly if they add up to no more than the duration. */
  lemma ItemFitsExactly(item: FlowItem, duration: int)
    requires (forall r :: r in item.resources ==> WellFormedDelays(r)) && ExactSum(item.resources) <= INT64_MAX
    ensures ItemFits(item, duration) <==> ExactSum(item.resources) <= duration
  {
    SumsAgree(item.resources);
  }

  lemma {:induction false} NonNegativeSum(resources: seq<FlowResource>)
    requires forall r :: r in resources ==> WellFormedDelays(r)
    ensures 0 <= ExactSum(resources)
  {
    if resources != [] {
      assert resources[|resources| - 1] in resources;
      NonNegativeSum(resources[..|resources| - 1]);
    }
  }

  /** Two ends that differ, and are in order unless the period is recurring. */
  predicate HasDuration(p: ScalerPeriod) {
    match (ParsePeriodStart(p), ParsePeriodEnd(p))
    case (Some(start), Some(end)) => start < end || (end < start && p.time.recurring.Some?)
    case _ => false
  }

  /** The controller has a duration for just these periods; the webhook, which has one for more, agrees on them. */
  lemma DurationsAgree(p: ScalerPeriod)
    ensures GetPeriodDuration(p).Ok? <==> HasDuration(p)
    ensures HasDuration(p) ==> WebhookDuration(p) == Some(GetPeriodDuration(p).value) && 0 < GetPeriodDuration(p).value <= INT64_MAX
  {
    if HasDuration(p) && p.time.recurring.Some? {
      assert -DAY < ParsePeriodEnd(p).value - ParsePeriodStart(p).value < DAY;
    }
  }

  /** Equal ends are a whole day to the webhook, and a user error to the controller. */
  lemma EqualEndsDisagree(p: ScalerPeriod)
    requires ParsePeriodStart(p).Some? && ParsePeriodEnd(p) == ParsePeriodStart(p)
    ensures WebhookDuration(p) == Some(24 * 60 * MINUTE) && GetPeriodDuration(p) == Err(ValidationError(ZeroPeriodDuration))
  {
  }

  /** Shifted to nothing or less, or stretched beyond int64. */
  predicate LeavesNoWindow(r: FlowResource, duration: int) {
    var shifted := duration - StartDelay(r) + EndDelay(r);
    shifted <= 0 || shifted > INT64_MAX
  }

  /** Delayed by the whole duration and not at its end, or stretched beyond int64. */
  predicate LosesItsWindow(r: FlowResource, duration: int) {
    (StartDelay(r) == duration && EndDelay(r) == 0) || duration - StartDelay(r) + EndDelay(r) > INT64_MAX
  }

  predicate WellFormedItem(item: FlowItem) {
    forall q :: q in item.resources ==> WellFormedDelays(q)
  }

  /** With delays that parse and are not negative, the controller refuses a mention exactly when it leaves no window. */
  lemma ControllerRefusesExactly(r: FlowResource, duration: int)
    requires WellFormedDelays(r) && 0 < duration <= INT64_MAX
    ensures OneResourceDelay(r, duration) != None <==> LeavesNoWindow(r, duration)
  {
    var s, e := StartDelay(r), EndDelay(r);
    assert WrapInt64(duration - s) == duration - s;
    WrapOnce(duration - s + e);
  }

  /**
   * A mention in an item that the webhook accepts, over any period with a duration, while the start delays
   * add up within int64: the controller refuses exactly one that is delayed by the whole duration and not at
   * its end, or that is stretched beyond int64.
   */
  lemma WebhookImpliesController(p: ScalerPeriod, item: FlowItem, r: FlowResource)
    requires HasDuration(p) && WebhookDuration(p).Some? && ItemFits(item, WebhookDuration(p).value)
    requires WellFormedItem(item) && ExactSum(item.resources) <= INT64_MAX && r in item.resources
    ensures GetPeriodDuration(p).Ok?
    ensures OneResourceDelay(r, GetPeriodDuration(p).value) != None <==> LosesItsWindow(r, GetPeriodDuration(p).value)
  {
    DurationsAgree(p);
    SumsAgree(item.resources);
    ControllerRefusesExactly(r, GetPeriodDuration(p).value);
  }

  lemma WrapOnce(n: int)
    requires INT64_MIN <= n <= 2 * INT64_MAX + 1
    ensures WrapInt64(n) <= 0 <==> n <= 0 || n > INT64_MAX
  {
  }

  /** Every mention of a period leaves it a window. */
  ghost predicate WindowsLeft(flow: Flow, name: string, duration: int) {
    forall item, r :: item in flow.flows && item.periodName == name && r in item.resources ==> !LeavesNoWindow(r, duration)
  }

  /** No mention of a period is of the kind that the webhook admits and the controller refuses. */
  ghost predicate NoneLosesItsWindow(flow: Flow, name: string, duration: int) {
    forall item, r :: item in flow.flows && item.periodName == name && r in item.resources ==> !LosesItsWindow(r, duration)
  }

  /** The controller's timing validation of one mentioned period, whatever the webhook said. */
  lemma ControllerTimings(flow: Flow, name: string)
    requires PeriodNamed(flow.periods, name).Some?
    requires forall item :: item in flow.flows && item.periodName == name ==> WellFormedItem(item)
    ensures var p := PeriodNamed(flow.periods, name).value;
      TimingOk(flow, name) <==> HasDuration(p) && WindowsLeft(flow, name, GetPeriodDuration(p).value)
  {
    var p := PeriodNamed(flow.periods, name).value;
    DurationsAgree(p);
    if HasDuration(p) {
      var duration := GetPeriodDuration(p).value;
      DelaysFitEverywhere(flow.flows, name, duration);
      forall item, r | item in flow.flows && item.periodName == name && r in item.resources
        ensures OneResourceDelay(r, duration) == None <==> !LeavesNoWindow(r, duration)
      {
        assert WellFormedItem(item);
        ControllerRefusesExactly(r, duration);
      }
    }
  }

  /**
   * A whole flow that the webhook admits, with start delays that add up within int64: the controller accepts
   * a mentioned period exactly when it has a duration and no mention of it loses its window.
   */
  lemma AdmittedFlowTimings(flow: Flow, name: string)
    requires forall p :: p in flow.periods ==> PeriodFits(flow, p)
    requires MentionsPeriod(flow.flows, name) && PeriodNamed(flow.periods, name).Some?
    requires forall item :: item in flow.flows && item.periodName == name ==> WellFormedItem(item) && ExactSum(item.resources) <= INT64_MAX
    ensures var p := PeriodNamed(flow.periods, name).value;
      TimingOk(flow, name) <==> HasDuration(p) && NoneLosesItsWindow(flow, name, GetPeriodDuration(p).value)
  {
    var p := PeriodNamed(flow.periods, name).value;
    NamedIsThere(flow.periods, name);
    ControllerTimings(flow, name);
    if HasDuration(p) {
      DurationsAgree(p);
      var duration := GetPeriodDuration(p).value;
      forall item, r | item in flow.flows && item.periodName == name && r in item.resources
        ensures LeavesNoWindow(r, duration) <==> LosesItsWindow(r, duration)
      {
        AdmittedItemFits(flow, p, item);
        AdmittedMention(item, r, duration);
      }
    }
  }

  lemma AdmittedMention(item: FlowItem, r: FlowResource, duration: int)
    requires WellFormedItem(item) && ExactSum(item.resources) <= INT64_MAX && ItemFits(item, duration) && r in item.resources
    ensures LeavesNoWindow(r, duration) <==> LosesItsWindow(r, duration)
  {
    SumsAgree(item.resources);
  }

  lemma AdmittedItemFits(flow: Flow, p: ScalerPeriod, item: FlowItem)
    requires PeriodFits(flow, p) && item in flow.flows && item.periodName == p.name && WebhookDuration(p).Some?
    ensures ItemFits(item, WebhookDuration(p).value)
  {
    var i :| 0 <= i < |flow.flows| && flow.flows[i] == item;
  }

  lemma DelaysFitEverywhere(flows: seq<FlowItem>, name: string, duration: int)
    ensures DelaysFit(flows, name, duration) <==>
      forall item, r :: item in flows && item.periodName == name && r in item.resources ==> OneResourceDelay(r, duration) == None
  {
    if DelaysFit(flows, name, duration) {
      forall item, r | item in flows && item.periodName == name && r in item.resources
        ensures OneResourceDelay(r, duration) == None
      {
        var i :| 0 <= i < |flows| && flows[i] == item;
        var j :| 0 <= j < |flows[i].resources| && flows[i].resources[j] == r;
      }
    }
  }

  /** A delay of 2^62 nanoseconds or a little more, in whole minutes. */
  const HALF_RANGE_MINUTES := 76_861_434

  /**
   * Without the int64 hypothesis the implication fails: two such delays wrap around to a negative total,
   * so the webhook accepts the item over any period of up to a day, and the controller rejects both.
   */
  lemma WrappedSumSlipsThrough(p: ScalerPeriod, start: nat, end: nat, a: string, b: string)
    requires RecurringFromTo(p, start, end) && start != end
    ensures var delay := Some(Nanos(HALF_RANGE_MINUTES * MINUTE));
      var item := FlowItem(p.name, [FlowResource(a, delay, None), FlowResource(b, delay, None)]);
      && (forall r :: r in item.resources ==> WellFormedDelays(r))
      && WebhookDuration(p).Some? && ItemFits(item, WebhookDuration(p).value)
      && GetPeriodDuration(p).Ok?
      && forall r :: r in item.resources ==> OneResourceDelay(r, GetPeriodDuration(p).value) == Some(InvertedWindow)
  {
    DurationsAgree(p);
    var delay := Some(Nanos(HALF_RANGE_MINUTES * MINUTE));
    var first, second := FlowResource(a, delay, None), FlowResource(b, delay, None);
    var both := [first, second];
    assert both[..1] == [first] && [first][..0] == [];
    assert WrappedSum([first]) == Some(HALF_RANGE_MINUTES * MINUTE);
    assert WrappedSum(both) == Some(WrapInt64(2 * HALF_RANGE_MINUTES * MINUTE));
  }
}
