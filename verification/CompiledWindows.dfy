/** What a flow that compiles writes into the children of its resources, as windows of the day. */
module CompiledWindows {
  import opened Prelude
  import opened PeriodTypes
  import opened Periods
  import opened FlowTypes
  import opened FlowTime
  import opened FlowValidator
  import opened FlowMapper
  import opened FlowProcessor
  import opened FlowActivation

  /** Mention `i` of a resource is of the recurring period `p` from `start` to `end`, with delays of `s` and `e` minutes. */
  predicate MentionsWindow(flow: Flow, n: string, i: nat, p: ScalerPeriod, start: nat, end: nat, s: int, e: int) {
    var own := OwnMentions(flow, n);
    && i < |own| && PeriodNamed(flow.periods, own[i].periodName) == Some(p) && RecurringFromTo(p, start, end)
    && DelayOf(own[i].resource.startTimeDelay) == Ok(s * MINUTE) && DelayOf(own[i].resource.endTimeDelay) == Ok(e * MINUTE)
  }

  lemma MentionIsDelayed(flow: Flow, n: string, i: nat, p: ScalerPeriod, start: nat, end: nat, s: int, e: int)
    requires MentionsWindow(flow, n, i, p, start, end, s, e)
    ensures Delays(flow.periods, OwnMentions(flow, n)[i]) == Ok(Delayed(p, start, end, s, e))
  {
    DelaysExactly(flow.periods, OwnMentions(flow, n)[i], Delayed(p, start, end, s, e));
  }

  /** The period it writes for that mention is the delayed one. */
  lemma CompiledPeriod(flow: Flow, n: string, i: nat, p: ScalerPeriod, start: nat, end: nat, s: int, e: int)
    requires Compiles(flow) && Mentions(flow.flows, n) && MentionsWindow(flow, n, i, p, start, end, s, e)
    ensures |Target(flow, n).spec.periods| == |OwnMentions(flow, n)|
    ensures Target(flow, n).spec.periods[i] == Rewritten(Delayed(p, start, end, s, e))
  {
    MentionIsDelayed(flow, n, i, p, start, end, s, e);
    TargetIsCompiled(flow, n, i);
  }

  /**
   * Every flow that compiles, and every mention of a recurring window of D minutes with delays s and e: the
   * child runs from s minutes later to e minutes later on the clock, and its duration is D - s + e modulo a day.
   */
  lemma CompiledWindow(flow: Flow, n: string, i: nat, p: ScalerPeriod, start: nat, end: nat, s: int, e: int)
    requires Compiles(flow) && Mentions(flow.flows, n) && MentionsWindow(flow, n, i, p, start, end, s, e) && start != end
    ensures |Target(flow, n).spec.periods| == |OwnMentions(flow, n)|
    ensures var child := Target(flow, n).spec.periods[i];
      var shifted := WindowMinutes(start, end) - s + e;
      && RecurringFromTo(child, (start + s) % MINUTES_PER_DAY, (end + e) % MINUTES_PER_DAY)
      && GetPeriodDuration(child) == (
        if shifted % MINUTES_PER_DAY == 0 then Err(ValidationError(ZeroPeriodDuration))
        else Ok(shifted % MINUTES_PER_DAY * MINUTE))
  {
    CompiledPeriod(flow, n, i, p, start, end, s, e);
    RewritingKeepsWindow(p, start, end, s, e);
  }

  /**
   * And on a day that its day list matches: that child loads exactly when the shifted window does not cross
   * midnight, and is then active inside it, or outside it when reversed.
   */
  lemma CompiledActivation(flow: Flow, n: string, i: nat, p: ScalerPeriod, start: nat, end: nat, s: int, e: int,
                           clock: Clock, now: LocalTime)
    requires Compiles(flow) && Mentions(flow.flows, n) && MentionsWindow(flow, n, i, p, start, end, s, e)
    requires ValidDays(p.time.recurring.value) && LocalTimeIn(p.time.recurring.value.timezone, clock) == Ok(now)
    requires MatchesToday(p.time.recurring.value.days, now.weekday)
    ensures |Target(flow, n).spec.periods| == |OwnMentions(flow, n)|
    ensures var r := Target(flow, n).spec.periods[i].time.recurring;
      r.Some? && LoadsWithWindow(r.value, clock, now, (start + s) % MINUTES_PER_DAY, ReadBackEnd((end + e) % MINUTES_PER_DAY))
  {
    CompiledPeriod(flow, n, i, p, start, end, s, e);
    ChildTexts(p, start, end, s, e);
    ChildActivation(p, start, end, s, e, clock, now, (start + s) % MINUTES_PER_DAY, ReadBackEnd((end + e) % MINUTES_PER_DAY));
  }

  /** The child of a mention of a fixed period: its dates are moved by the delays, and cut to whole seconds. */
  lemma CompiledFixed(flow: Flow, n: string, i: nat, p: ScalerPeriod, start: int, end: int, s: int, e: int)
    requires Compiles(flow) && Mentions(flow.flows, n) && i < |OwnMentions(flow, n)|
    requires var m := OwnMentions(flow, n)[i];
      PeriodNamed(flow.periods, m.periodName) == Some(p) && DelayOf(m.resource.startTimeDelay) == Ok(s) && DelayOf(m.resource.endTimeDelay) == Ok(e)
    requires p.time.recurring.None? && p.time.fixed.Some?
    requires p.time.fixed.value.startTime == At(start) && p.time.fixed.value.endTime == At(end)
    ensures |Target(flow, n).spec.periods| == |OwnMentions(flow, n)|
    ensures Target(flow, n).spec.periods[i] == p.(time := TimePeriod(None, Some(p.time.fixed.value.(
      startTime := At(start + s - (start + s) % SECOND), endTime := At(end + e - (end + e) % SECOND)))))
  {
    DelaysExactly(flow.periods, OwnMentions(flow, n)[i], PeriodWithDelay(p, s, e, start + s, end + e));
    TargetIsCompiled(flow, n, i);
  }
}
