/**
 * Flow windows across midnight: both checks of the flow let them through, and the scaler that evaluates the
 * child refuses them.
 */
module CrossMidnight {
  import opened Prelude
  import opened PeriodTypes
  import opened ClockText
  import opened Periods
  import opened FlowTypes
  import opened FlowTime
  import opened FlowValidator
  import opened FlowMapper
  import opened FlowProcessor
  import opened FlowWebhook
  import opened FlowActivation

  /** A flow of one period and one K8s resource, which follows the period without delays. */
  function OneResourceFlow(name: string, p: ScalerPeriod, resource: DeclaredResource): Flow {
    Flow(name, [p], [resource], [], [FlowItem(p.name, [FlowResource(resource.name, None, None)])])
  }

  lemma MentionsOfOne(name: string, p: ScalerPeriod, resource: DeclaredResource)
    ensures var flow := OneResourceFlow(name, p, resource);
      AllMentions(flow.flows) == [Mention(p.name, FlowResource(resource.name, None, None))]
  {
    var flows := OneResourceFlow(name, p, resource).flows;
    assert flows[..|flows| - 1] == [] && AllMentions([]) == [];
    assert MentionsOf(flows[0]) == [Mention(p.name, FlowResource(resource.name, None, None))];
    assert AllMentions(flows) == AllMentions([]) + MentionsOf(flows[0]);
  }

  lemma OneIsValidated(name: string, p: ScalerPeriod, resource: DeclaredResource)
    requires HasDuration(p)
    ensures Validated(OneResourceFlow(name, p, resource))
  {
    var flow := OneResourceFlow(name, p, resource);
    DurationsAgree(p);
    assert PeriodNamed(flow.periods, p.name) == Some(p);
    forall n | MentionsPeriod(flow.flows, n)
      ensures TimingOk(flow, n)
    {
      assert n == p.name;
      ControllerTimings(flow, n);
    }
  }

  lemma OneCanBeMapped(name: string, p: ScalerPeriod, resource: DeclaredResource, e: FlowError)
    requires HasDuration(p)
    ensures !CannotMap(OneResourceFlow(name, p, resource), resource.name, e)
  {
    var flow := OneResourceFlow(name, p, resource);
    var m := Mention(p.name, FlowResource(resource.name, None, None));
    MentionsOfOne(name, p, resource);
    assert PeriodNamed(flow.periods, p.name) == Some(p);
    assert Delays(flow.periods, m).Ok?;
    assert [m][..0] == [] && MentionsNamed([], resource.name) == [];
    assert FindResource(flow.k8s, resource.name) == Some(resource) && FindResource(flow.gcp, resource.name) == None;
    forall k | 0 <= k < |[m]|
      ensures !FaultAt(flow.periods, MentionsNamed([m][..k], resource.name), [m][k], e)
    {
      assert k == 0;
    }
  }

  /** Such a flow passes the webhook and compiles, whatever its period, as long as that has a duration. */
  lemma OneIsAdmitted(name: string, p: ScalerPeriod, resource: DeclaredResource)
    requires HasDuration(p)
    ensures var flow := OneResourceFlow(name, p, resource);
      Compiles(flow) && forall q :: q in flow.periods ==> PeriodFits(flow, q)
  {
    var flow := OneResourceFlow(name, p, resource);
    DurationsAgree(p);
    OneIsValidated(name, p, resource);
    forall n, e | Mentions(flow.flows, n)
      ensures !CannotMap(flow, n, e)
    {
      assert n == resource.name;
      OneCanBeMapped(name, p, resource, e);
    }
    var resources := flow.flows[0].resources;
    assert resources[..|resources| - 1] == [] && WrappedSum([]) == Some(0);
    assert WrappedSum(resources) == Some(0);
  }

  /** The child of an undelayed window, as the scaler finds it on a day that matches. */
  lemma ChildAcrossMidnight(p: ScalerPeriod, start: nat, end: nat, clock: Clock, now: LocalTime)
    requires RecurringFromTo(p, start, end) && end < start && ValidDays(p.time.recurring.value)
    requires LocalTimeIn(p.time.recurring.value.timezone, clock) == Ok(now) && MatchesToday(p.time.recurring.value.days, now.weekday)
    ensures ActivityOf(ShapeOfRecurring(ChildTime(p, start, end, 0, 0)), clock) == Err(StartAfterEnd) <==> end != 0
  {
    assert start < MINUTES_PER_DAY && end < MINUTES_PER_DAY;
    ChildActivation(p, start, end, 0, 0, clock, now, start, ReadBackEnd(end));
  }

  /**
   * A period from `start` to an earlier `end`: the flow passes the webhook and compiles, and the child of its
   * resource fails to load on every day that its day list matches. The one exception ends at midnight: it is
   * written "00:00" and read back as the end of the day.
   */
  lemma CrossMidnightIsAdmittedAndNeverLoads(name: string, p: ScalerPeriod, resource: DeclaredResource, start: nat, end: nat,
                                             clock: Clock, now: LocalTime)
    requires RecurringFromTo(p, start, end) && end < start && ValidDays(p.time.recurring.value)
    requires LocalTimeIn(p.time.recurring.value.timezone, clock) == Ok(now) && MatchesToday(p.time.recurring.value.days, now.weekday)
    ensures var flow := OneResourceFlow(name, p, resource);
      Compiles(flow) && forall q :: q in flow.periods ==> PeriodFits(flow, q)
    ensures ActivityOf(ShapeOfRecurring(ChildTime(p, start, end, 0, 0)), clock) == Err(StartAfterEnd) <==> end != 0
  {
    OneIsAdmitted(name, p, resource);
    ChildAcrossMidnight(p, start, end, clock, now);
  }

  const NIGHT := ScalerPeriod(Down, TimePeriod(Some(RecurringPeriod(["all"], "22:00", "02:00", None, None, None, None)), None), None, None, "night")

  /** What the flow writes into the child of its resource. */
  lemma OneChild(name: string, p: ScalerPeriod, resource: DeclaredResource, start: nat, end: nat)
    requires RecurringFromTo(p, start, end)
    ensures Target(OneResourceFlow(name, p, resource), resource.name).spec.periods == [Rewritten(Delayed(p, start, end, 0, 0))]
  {
    var flow := OneResourceFlow(name, p, resource);
    var m := Mention(p.name, FlowResource(resource.name, None, None));
    MentionsOfOne(name, p, resource);
    assert [m][..0] == [] && MentionsNamed([m], resource.name) == [m];
    assert PeriodNamed(flow.periods, p.name) == Some(p);
    assert Delays(flow.periods, m) == Ok(Delayed(p, start, end, 0, 0));
    assert Projection(flow.periods, [m]) == [Delayed(p, start, end, 0, 0)];
    assert [Delayed(p, start, end, 0, 0)][1..] == [];
  }

  /** A child whose activity cannot be told does not load. */
  lemma ChildDoesNotLoad(p: ScalerPeriod, start: nat, end: nat, clock: Clock, sha1: ScalerPeriod -> Digest, e: PeriodError)
    requires p.time.recurring.Some? && p.time.fixed.None? && p.minReplicas.Deref(1) <= p.maxReplicas.Deref(p.minReplicas.Deref(1))
    requires ActivityOf(ShapeOfRecurring(ChildTime(p, start, end, 0, 0)), clock) == Err(e)
    ensures Load(Rewritten(Delayed(p, start, end, 0, 0)), clock, sha1) == Err(e)
  {
  }

  lemma NightTexts()
    ensures ParseClock("22:00") == Some(1320) && ParseClock("02:00") == Some(120)
  {
    ParseOfFormat(1320);
    ParseOfFormat(120);
    assert FormatClock(1320) == "22:00" && FormatClock(120) == "02:00";
  }

  /** One input: from 22:00 to 02:00 on every day. Its child never loads, whatever the clock says. */
  lemma NightNeverLoads(clock: Clock, sha1: ScalerPeriod -> Digest)
    ensures var flow := OneResourceFlow("nightly", NIGHT, DeclaredResource("db", Settings(0)));
      Compiles(flow) && forall q :: q in flow.periods ==> PeriodFits(flow, q)
    ensures var child := Target(OneResourceFlow("nightly", NIGHT, DeclaredResource("db", Settings(0))), "db");
      |child.spec.periods| == 1 && Load(child.spec.periods[0], clock, sha1) == Err(StartAfterEnd)
  {
    var db := DeclaredResource("db", Settings(0));
    NightTexts();
    EveryDayMatches(clock.local.weekday);
    CrossMidnightIsAdmittedAndNeverLoads("nightly", NIGHT, db, 1320, 120, clock, clock.local);
    OneChild("nightly", NIGHT, db, 1320, 120);
    ChildDoesNotLoad(NIGHT, 1320, 120, clock, sha1, StartAfterEnd);
  }
}
