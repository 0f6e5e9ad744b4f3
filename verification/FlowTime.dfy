/** internal/controller/flow/service/time_calculator.go, and the time rewriting of resource_creator.go. */
module FlowTime {
  import opened Prelude
  import opened Decimal
  import opened PeriodTypes
  import opened ClockText
  import opened FlowTypes

  /** The start of a period as an instant: a time of day after some midnight, or a date. Recurring wins. */
  function ParsePeriodStart(p: ScalerPeriod): Option<int> {
    if p.time.recurring.Some? then
      match ParseClock(p.time.recurring.value.startTime)
      case None => None
      case Some(minutes) => Some(minutes * MINUTE)
    else if p.time.fixed.Some? && p.time.fixed.value.startTime.At? then Some(p.time.fixed.value.startTime.nanos)
    else None
  }

  function ParsePeriodEnd(p: ScalerPeriod): Option<int> {
    if p.time.recurring.Some? then
      match ParseClock(p.time.recurring.value.endTime)
      case None => None
      case Some(minutes) => Some(minutes * MINUTE)
    else if p.time.fixed.Some? && p.time.fixed.value.endTime.At? then Some(p.time.fixed.value.endTime.nanos)
    else None
  }

  function CalculatePeriodStart(p: ScalerPeriod, delay: int): Result<int, FlowError> {
    match ParsePeriodStart(p)
    case None => Err(TimeError)
    case Some(start) => Ok(start + delay)
  }

  function CalculatePeriodEnd(p: ScalerPeriod, delay: int): Result<int, FlowError> {
    match ParsePeriodEnd(p)
    case None => Err(TimeError)
    case Some(end) => Ok(end + delay)
  }

  /** A recurring end before the start is on the next day; equal ends are rejected. */
  function GetPeriodDuration(p: ScalerPeriod): Result<int, FlowError> {
    match (ParsePeriodStart(p), ParsePeriodEnd(p))
    case (Some(start), Some(end)) =>
      if end == start then Err(ValidationError(ZeroPeriodDuration))
      else if end < start then
        if p.time.recurring.Some? then Ok(ClampInt64(end + DAY - start)) else Err(TimeError)
      else Ok(ClampInt64(end - start))
    case _ => Err(TimeError)
  }

  /** `Format("2006-01-02 15:04:05")`: fractions of a second are dropped. */
  function FormatDateTime(nanos: int): DateTime {
    At(nanos / SECOND * SECOND)
  }

  /** The child's copy of a period, with the shifted times written back. */
  function Rewritten(p: PeriodWithDelay): ScalerPeriod {
    var time := p.period.time;
    var recurring :=
      if time.recurring.None? then None
      else Some(time.recurring.value.(startTime := FormatClock(ClockOf(p.startTime)), endTime := FormatClock(ClockOf(p.endTime))));
    var fixed :=
      if time.fixed.None? then None
      else Some(time.fixed.value.(startTime := FormatDateTime(p.startTime), endTime := FormatDateTime(p.endTime)));
    p.period.(time := TimePeriod(recurring, fixed))
  }

  function RewrittenAll(periods: seq<PeriodWithDelay>): seq<ScalerPeriod> {
    seq(|periods|, i requires 0 <= i < |periods| => Rewritten(periods[i]))
  }

  /** `buildPeriods`. */
  method BuildPeriods(periods: seq<PeriodWithDelay>) returns (allPeriods: seq<ScalerPeriod>)
    ensures allPeriods == RewrittenAll(periods)
  {
    allPeriods := [];
    for i := 0 to |periods|
      invariant allPeriods == RewrittenAll(periods[..i])
    {
      var periodWithDelay := periods[i];
      var curPeriod := periodWithDelay.period;
      if curPeriod.time.recurring.Some? {
        var copied := curPeriod.time.recurring.value.(startTime := FormatClock(ClockOf(periodWithDelay.startTime)));
        copied := copied.(endTime := FormatClock(ClockOf(periodWithDelay.endTime)));
        curPeriod := curPeriod.(time := curPeriod.time.(recurring := Some(copied)));
      }
      if curPeriod.time.fixed.Some? {
        var copied := curPeriod.time.fixed.value.(startTime := FormatDateTime(periodWithDelay.startTime));
        copied := copied.(endTime := FormatDateTime(periodWithDelay.endTime));
        curPeriod := curPeriod.(time := curPeriod.time.(fixed := Some(copied)));
      }
      allPeriods := allPeriods + [curPeriod];
    }
    assert periods[..|periods|] == periods;
  }

  // ---- windows survive the rewriting, modulo a day ----

  lemma WholeMinutes(minutes: int, delay: int)
    ensures ClockOf(minutes * MINUTE + delay * MINUTE) == (minutes + delay) % MINUTES_PER_DAY
  {
    assert (minutes * MINUTE + delay * MINUTE) / MINUTE == minutes + delay;
  }

  /** Two times of day, shifted by whole minutes, written, and read back. */
  lemma ShiftedClock(minutes: nat, delay: int)
    requires minutes < MINUTES_PER_DAY
    ensures ClockOf(minutes * MINUTE + delay * MINUTE) == (minutes + delay) % MINUTES_PER_DAY
    ensures ParseClock(FormatClock(ClockOf(minutes * MINUTE + delay * MINUTE))) == Some((minutes + delay) % MINUTES_PER_DAY)
  {
    WholeMinutes(minutes, delay);
    ParseOfFormat((minutes + delay) % MINUTES_PER_DAY);
  }

  lemma WrittenClock(text: string, minutes: nat, delay: int)
    requires minutes < MINUTES_PER_DAY && text == FormatClock(ClockOf(minutes * MINUTE + delay * MINUTE))
    ensures ParseClock(text) == Some((minutes + delay) % MINUTES_PER_DAY)
  {
    ShiftedClock(minutes, delay);
  }

  /** Is `p` a recurring period from minute `start` to minute `end`? */
  predicate RecurringFromTo(p: ScalerPeriod, start: nat, end: nat) {
    p.time.recurring.Some? && ParseClock(p.time.recurring.value.startTime) == Some(start)
    && ParseClock(p.time.recurring.value.endTime) == Some(end)
  }

  /** A period with whole-minute delays applied, as the mapper builds it. */
  function Delayed(p: ScalerPeriod, start: nat, end: nat, s: int, e: int): PeriodWithDelay {
    PeriodWithDelay(p, s * MINUTE, e * MINUTE, start * MINUTE + s * MINUTE, end * MINUTE + e * MINUTE)
  }

  /** The length in minutes of the window from `start` to `end`, on the next day if need be. */
  function WindowMinutes(start: nat, end: nat): int {
    if end < start then end + MINUTES_PER_DAY - start else end - start
  }

  lemma DurationOfRecurring(p: ScalerPeriod, start: nat, end: nat)
    requires RecurringFromTo(p, start, end)
    ensures GetPeriodDuration(p) ==
      if start == end then Err(ValidationError(ZeroPeriodDuration)) else Ok(WindowMinutes(start, end) * MINUTE)
  {
  }

  /** A fixed period must have its ends in order; only the missing length is called the user's fault. */
  lemma DurationOfFixed(p: ScalerPeriod, start: int, end: int)
    requires p.time.recurring.None? && p.time.fixed.Some?
    requires p.time.fixed.value.startTime == At(start) && p.time.fixed.value.endTime == At(end)
    ensures GetPeriodDuration(p) ==
      if start == end then Err(ValidationError(ZeroPeriodDuration)) else if end < start then Err(TimeError) else Ok(ClampInt64(end - start))
  {
  }

  /** Rewriting touches nothing but the start and end times. */
  lemma RewrittenKeepsRest(d: PeriodWithDelay)
    ensures var p, r := d.period, Rewritten(d);
      && r == p.(time := r.time)
      && (r.time.recurring.Some? <==> p.time.recurring.Some?) && (r.time.fixed.Some? <==> p.time.fixed.Some?)
      && (p.time.recurring.Some? ==>
          var before, after := p.time.recurring.value, r.time.recurring.value;
          after == before.(startTime := after.startTime, endTime := after.endTime))
      && (p.time.fixed.Some? ==>
          var before, after := p.time.fixed.value, r.time.fixed.value;
          after == before.(startTime := after.startTime, endTime := after.endTime))
  {
  }

  lemma RewrittenRecurring(p: PeriodWithDelay)
    requires p.period.time.recurring.Some?
    ensures Rewritten(p).time.recurring ==
      Some(p.period.time.recurring.value.(startTime := FormatClock(ClockOf(p.startTime)), endTime := FormatClock(ClockOf(p.endTime))))
  {
  }

  /** The child of a recurring window is the recurring window of the shifted ends, modulo a day. */
  lemma ChildFromTo(p: ScalerPeriod, start: nat, end: nat, s: int, e: int)
    requires p.time.recurring.Some? && start < MINUTES_PER_DAY && end < MINUTES_PER_DAY
    ensures RecurringFromTo(Rewritten(Delayed(p, start, end, s, e)), (start + s) % MINUTES_PER_DAY, (end + e) % MINUTES_PER_DAY)
  {
    var d := Delayed(p, start, end, s, e);
    RewrittenRecurring(d);
    var r := Rewritten(d).time.recurring.value;
    WrittenClock(r.startTime, start, s);
    WrittenClock(r.endTime, end, e);
  }

  lemma ModularWindow(a: int, b: int, length: int)
    requires length % MINUTES_PER_DAY == (b - a) % MINUTES_PER_DAY
    ensures a % MINUTES_PER_DAY == b % MINUTES_PER_DAY <==> length % MINUTES_PER_DAY == 0
    ensures length % MINUTES_PER_DAY != 0 ==> WindowMinutes(a % MINUTES_PER_DAY, b % MINUTES_PER_DAY) == length % MINUTES_PER_DAY
  {
  }

  lemma DayLater(a: int, b: int)
    requires a == b || a == b + MINUTES_PER_DAY
    ensures a % MINUTES_PER_DAY == b % MINUTES_PER_DAY
  {
  }

  /** The window whose ends were shifted by `s` and `e` minutes, on the clock. */
  lemma ShiftedWindow(start: nat, end: nat, s: int, e: int)
    requires start != end
    ensures var shifted := WindowMinutes(start, end) - s + e;
      var a, b := (start + s) % MINUTES_PER_DAY, (end + e) % MINUTES_PER_DAY;
      && (a == b <==> shifted % MINUTES_PER_DAY == 0)
      && (a != b ==> WindowMinutes(a, b) == shifted % MINUTES_PER_DAY)
  {
    var shifted := WindowMinutes(start, end) - s + e;
    DayLater(shifted, end + e - (start + s));
    ModularWindow(start + s, end + e, shifted);
  }

  /** What the calculator says about it. */
  lemma ShiftedDuration(child: ScalerPeriod, start: nat, end: nat, s: int, e: int)
    requires start != end
    requires RecurringFromTo(child, (start + s) % MINUTES_PER_DAY, (end + e) % MINUTES_PER_DAY)
    ensures var shifted := WindowMinutes(start, end) - s + e;
      GetPeriodDuration(child) ==
        if shifted % MINUTES_PER_DAY == 0 then Err(ValidationError(ZeroPeriodDuration))
        else Ok(shifted % MINUTES_PER_DAY * MINUTE)
  {
    DurationOfRecurring(child, (start + s) % MINUTES_PER_DAY, (end + e) % MINUTES_PER_DAY);
    ShiftedWindow(start, end, s, e);
  }

  /**
   * The child of a recurring window of D minutes, with whole-minute delays s and e: it starts s minutes
   * later on the clock, and its own duration is D - s + e modulo a day, hence exactly that when it lies
   * strictly between nothing and a day. A shifted length that is a multiple of a day is the one case
   * that the calculator rejects, as a period of zero length.
   */
  lemma RewritingKeepsWindow(p: ScalerPeriod, start: nat, end: nat, s: int, e: int)
    requires RecurringFromTo(p, start, end) && start != end
    ensures var child := Rewritten(Delayed(p, start, end, s, e));
      var shifted := WindowMinutes(start, end) - s + e;
      && RecurringFromTo(child, (start + s) % MINUTES_PER_DAY, (end + e) % MINUTES_PER_DAY)
      && GetPeriodDuration(p) == Ok(WindowMinutes(start, end) * MINUTE)
      && GetPeriodDuration(child) == (
        if shifted % MINUTES_PER_DAY == 0 then Err(ValidationError(ZeroPeriodDuration))
        else Ok(shifted % MINUTES_PER_DAY * MINUTE))
  {
    ChildFromTo(p, start, end, s, e);
    DurationOfRecurring(p, start, end);
    ShiftedDuration(Rewritten(Delayed(p, start, end, s, e)), start, end, s, e);
  }
}
