/** What the periods a flow writes into its children mean to the scaler that evaluates them. */
module FlowActivation {
  import opened Prelude
  import opened PeriodTypes
  import opened ClockText
  import opened Periods
  import opened FlowTime

  /** The end minute as the scaler reads it back: midnight, written "00:00", stands for the last minute of the day. */
  function ReadBackEnd(minutes: nat): nat {
    if minutes == 0 then MINUTES_PER_DAY - 1 else minutes
  }

  lemma EndReadsBack(minutes: nat)
    requires minutes < MINUTES_PER_DAY
    ensures ParseClock(if FormatClock(minutes) == "00:00" then "23:59" else FormatClock(minutes)) == Some(ReadBackEnd(minutes))
  {
    ParseOfFormat(minutes);
    ParseOfFormat(0);
    ParseOfFormat(MINUTES_PER_DAY - 1);
    assert FormatClock(0) == "00:00" && FormatClock(MINUTES_PER_DAY - 1) == "23:59";
  }

  /** The recurring time of the child of a recurring period, and its texts. */
  lemma ChildTexts(p: ScalerPeriod, start: nat, end: nat, s: int, e: int)
    requires p.time.recurring.Some? && start < MINUTES_PER_DAY && end < MINUTES_PER_DAY
    ensures var r := Rewritten(Delayed(p, start, end, s, e)).time.recurring;
      && r.Some? && r.value == p.time.recurring.value.(
          startTime := FormatClock((start + s) % MINUTES_PER_DAY), endTime := FormatClock((end + e) % MINUTES_PER_DAY))
      && ParseClock(r.value.startTime) == Some((start + s) % MINUTES_PER_DAY)
  {
    RewrittenRecurring(Delayed(p, start, end, s, e));
    WholeMinutes(start, s);
    WholeMinutes(end, e);
    ParseOfFormat((start + s) % MINUTES_PER_DAY);
  }

  predicate ValidDays(r: RecurringPeriod) {
    r.days != [] && forall day :: day in r.days ==> IsValidDay(day)
  }

  /** On the day of `now`: the period fails to load when `b` is before `a`, else it is active inside that window, or outside it when reversed. */
  ghost predicate LoadsWithWindow(r: RecurringPeriod, clock: Clock, now: LocalTime, a: nat, b: nat) {
    var activity := ActivityOf(ShapeOfRecurring(r), clock);
    var inside := a * MINUTE < now.sinceMidnight < b * MINUTE + END_TIME_INCLUSIVE_SECONDS * SECOND;
    && (activity == Err(StartAfterEnd) <==> b < a)
    && (a <= b ==> activity.Ok? && (activity.value.active <==> inside != r.reverse.Deref(false)))
  }

  lemma ActivationOfTexts(r: RecurringPeriod, clock: Clock, now: LocalTime, a: nat, b: nat)
    requires ValidDays(r) && LocalTimeIn(r.timezone, clock) == Ok(now) && MatchesToday(r.days, now.weekday)
    requires ParseClock(r.startTime) == Some(a) && ParseClock(if r.endTime == "00:00" then "23:59" else r.endTime) == Some(b)
    ensures LoadsWithWindow(r, clock, now, a, b)
  {
    assert r.startTime != "" && r.endTime != "";
    CrossMidnightNeverLoads(r, clock, now, a, b);
    if a <= b {
      RecurringActiveWindow(r, clock, now, a, b);
    }
  }

  /** The recurring time the flow writes into the child of a recurring period. */
  function ChildTime(p: ScalerPeriod, start: nat, end: nat, s: int, e: int): RecurringPeriod
    requires p.time.recurring.Some?
  {
    Rewritten(Delayed(p, start, end, s, e)).time.recurring.value
  }

  /**
   * A day on which the parent's day list matches: the child loads exactly when its shifted window does not
   * cross midnight, and then it is active strictly inside that window, or outside it when reversed. A
   * window across midnight passes every check of the flow, but its child never loads on such a day.
   */
  lemma ChildActivation(p: ScalerPeriod, start: nat, end: nat, s: int, e: int, clock: Clock, now: LocalTime, a: nat, b: nat)
    requires a == (start + s) % MINUTES_PER_DAY && b == ReadBackEnd((end + e) % MINUTES_PER_DAY)
    requires RecurringFromTo(p, start, end) && ValidDays(p.time.recurring.value)
    requires LocalTimeIn(p.time.recurring.value.timezone, clock) == Ok(now) && MatchesToday(p.time.recurring.value.days, now.weekday)
    ensures LoadsWithWindow(ChildTime(p, start, end, s, e), clock, now, a, b)
  {
    ChildTexts(p, start, end, s, e);
    EndReadsBack((end + e) % MINUTES_PER_DAY);
    ActivationOfTexts(ChildTime(p, start, end, s, e), clock, now, a, b);
  }

  /** While the shifted window stays inside one day, the child's window is the parent's with both ends moved by their delays. */
  lemma SameDayChildIsShiftedParent(p: ScalerPeriod, start: nat, end: nat, s: int, e: int, clock: Clock, now: LocalTime)
    requires RecurringFromTo(p, start, end) && ValidDays(p.time.recurring.value)
    requires LocalTimeIn(p.time.recurring.value.timezone, clock) == Ok(now) && MatchesToday(p.time.recurring.value.days, now.weekday)
    requires 0 <= start + s <= end + e < MINUTES_PER_DAY && 0 < end + e
    ensures LoadsWithWindow(ChildTime(p, start, end, s, e), clock, now, start + s, end + e)
  {
    ChildActivation(p, start, end, s, e, clock, now, start + s, end + e);
  }
}
