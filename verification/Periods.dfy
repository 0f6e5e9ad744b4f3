/** pkg/period/period.go and api/common/validation.go: when a period is active. */
module Periods {
  import opened Prelude
  import opened PeriodTypes
  import opened ClockText

  datatype PeriodError =
    | BadDay | FixedTimeFormat | RecurringTimeFormat | StartAfterEnd
    | MinReplicasGreaterThanMax | BadTimezone | BadGracePeriod | NoTime

  /** The local reading of the clock: the last midnight on the local time line, the weekday, and the time since. */
  datatype LocalTime = LocalTime(midnight: int, weekday: nat, sinceMidnight: nat) {
    function Now(): int {
      midnight + sinceMidnight
    }
  }

  /** One instant as seen in every loadable time zone, and in the process's own. */
  datatype Clock = Clock(zones: map<string, LocalTime>, local: LocalTime)

  const WEEK_DAYS := ["sun", "mon", "tue", "wed", "thu", "fri", "sat", "all"]
  const DAY_ALL := "all"
  const DAY_PREFIX_LENGTH := 3
  const END_TIME_INCLUSIVE_SECONDS := 59

  function LowerChar(c: char): char {
    if 'A' <= c <= 'Z' then (c as int + 32) as char else c
  }

  /** `strings.ToLower`, on ASCII. */
  function ToLower(s: string): (r: string)
    ensures |r| == |s|
  {
    seq(|s|, i requires 0 <= i < |s| => LowerChar(s[i]))
  }

  /** `slices.Index`: the first position, or none. */
  function IndexOf(s: seq<string>, x: string): (r: Option<nat>)
    ensures r.None? <==> x !in s
    ensures r.Some? ==> r.value < |s| && s[r.value] == x
  {
    if s == [] then None
    else if s[0] == x then Some(0)
    else
      match IndexOf(s[1..], x)
      case None => None
      case Some(i) => Some(i + 1)
  }

  function IsDay(day: string, weekday: nat): Result<bool, PeriodError> {
    if day == DAY_ALL then Ok(true)
    else if |day| < DAY_PREFIX_LENGTH then Err(BadDay)
    else
      match IndexOf(WEEK_DAYS, ToLower(day)[..DAY_PREFIX_LENGTH])
      case None => Err(BadDay)
      case Some(i) => Ok(i == 7 || i == weekday)
  }

  /** The admission-side check of a day name. */
  predicate IsValidDay(day: string) {
    var s := ToLower(day);
    s == DAY_ALL || (|s| >= DAY_PREFIX_LENGTH && s[..DAY_PREFIX_LENGTH] in WEEK_DAYS[..7])
  }

  /** `RecurringPeriod.Validate`. */
  predicate ValidRecurring(r: RecurringPeriod) {
    r.days != [] && (forall day :: day in r.days ==> IsValidDay(day)) && r.startTime != "" && r.endTime != ""
  }

  /** A day name the admission check accepts never fails at activation time. */
  lemma ValidDayNeverFails(day: string, weekday: nat)
    requires IsValidDay(day)
    ensures IsDay(day, weekday).Ok?
  {
    var s := ToLower(day);
    if s == DAY_ALL {
      assert s[..DAY_PREFIX_LENGTH] == DAY_ALL && WEEK_DAYS[7] == DAY_ALL;
    } else {
      assert s[..DAY_PREFIX_LENGTH] in WEEK_DAYS;
    }
  }

  /** A start or end text: a time of day, or a date with a time. */
  datatype TimeText = TimeOfDay(text: string) | Date(date: DateTime)

  /** A period in the recurring shape both kinds are brought into. */
  datatype Shape = Shape(
    days: seq<string>,
    startTime: TimeText,
    endTime: TimeText,
    timezone: Option<string>,
    once: Option<bool>,
    gracePeriod: Option<DurationText>,
    reverse: Option<bool>)

  /** A fixed period applies on all days; its own reverse flag is not carried over. */
  function ConvertFixed(f: FixedPeriod): Shape {
    Shape([DAY_ALL], Date(f.startTime), Date(f.endTime), f.timezone, f.once, f.gracePeriod, None)
  }

  function ShapeOfRecurring(r: RecurringPeriod): Shape {
    Shape(r.days, TimeOfDay(r.startTime), TimeOfDay(r.endTime), r.timezone, r.once, r.gracePeriod, r.reverse)
  }

  /** A fixed time wins over a recurring one. */
  function ShapeOf(t: TimePeriod): Option<Shape> {
    if t.fixed.Some? then Some(ConvertFixed(t.fixed.value))
    else if t.recurring.Some? then Some(ShapeOfRecurring(t.recurring.value))
    else None
  }

  function GetTime(text: TimeText, now: LocalTime): Result<int, PeriodError> {
    match text
    case TimeOfDay(s) =>
      (match ParseClock(s)
       case None => Err(RecurringTimeFormat)
       case Some(minutes) => Ok(now.midnight + minutes * MINUTE))
    case Date(BadDateTime) => Err(FixedTimeFormat)
    case Date(At(nanos)) => Ok(nanos)
  }

  /** An end time written "00:00" means the end of the day. */
  function EffectiveEnd(text: TimeText): TimeText {
    if text == TimeOfDay("00:00") then TimeOfDay("23:59") else text
  }

  datatype Activity = Activity(active: bool, startTime: int, endTime: int, once: Option<bool>)

  /** Does the day list reach a matching day before a bad one? */
  function OnDay(days: seq<string>, weekday: nat): Result<bool, PeriodError> {
    if days == [] then Ok(false)
    else
      match IsDay(days[0], weekday)
      case Err(e) => Err(e)
      case Ok(true) => Ok(true)
      case Ok(false) => OnDay(days[1..], weekday)
  }

  function LocalTimeIn(timezone: Option<string>, clock: Clock): Result<LocalTime, PeriodError> {
    if timezone.None? then Ok(clock.local)
    else if timezone.value in clock.zones then Ok(clock.zones[timezone.value])
    else Err(BadTimezone)
  }

  /** The window of a shape on the day of `now`, its end stretched to the last second of the end minute. */
  function Window(shape: Shape, now: LocalTime): Result<(int, int), PeriodError> {
    match (GetTime(shape.startTime, now), GetTime(EffectiveEnd(shape.endTime), now))
    case (Err(e), _) => Err(e)
    case (Ok(_), Err(e)) => Err(e)
    case (Ok(start), Ok(end)) =>
      if start > end + END_TIME_INCLUSIVE_SECONDS * SECOND then Err(StartAfterEnd)
      else Ok((start, end + END_TIME_INCLUSIVE_SECONDS * SECOND))
  }

  function ActivityOf(shape: Shape, clock: Clock): Result<Activity, PeriodError> {
    match LocalTimeIn(shape.timezone, clock)
    case Err(e) => Err(e)
    case Ok(now) =>
      match OnDay(shape.days, now.weekday)
      case Err(e) => Err(e)
      case Ok(false) => Ok(Activity(false, 0, 0, None))
      case Ok(true) =>
        match Window(shape, now)
        case Err(e) => Err(e)
        case Ok((start, end)) =>
          Ok(Activity((start < now.Now() < end) != shape.reverse.Deref(false), start, end, shape.once))
  }

  /** The loop over the day list. */
  method MatchesDay(days: seq<string>, weekday: nat) returns (r: Result<bool, PeriodError>)
    ensures r == OnDay(days, weekday)
  {
    var onDay := false;
    var i := 0;
    while i < |days| && !onDay
      invariant 0 <= i <= |days|
      invariant OnDay(days, weekday) == if onDay then Ok(true) else OnDay(days[i..], weekday)
    {
      var today := IsDay(days[i], weekday);
      if today.Err? {
        return today;
      }
      onDay := today.value;
      i := i + 1;
    }
    r := Ok(onDay);
  }

  /** The start and the inclusive end on the day of `now`. */
  method TodaysWindow(shape: Shape, now: LocalTime) returns (r: Result<(int, int), PeriodError>)
    ensures r == Window(shape, now)
  {
    var start := GetTime(shape.startTime, now);
    if start.Err? {
      return Err(start.error);
    }
    var endText := shape.endTime;
    if endText == TimeOfDay("00:00") {
      endText := TimeOfDay("23:59");
    }
    var end := GetTime(endText, now);
    if end.Err? {
      return Err(end.error);
    }
    var endTime := end.value + SECOND * END_TIME_INCLUSIVE_SECONDS;
    if start.value > endTime {
      return Err(StartAfterEnd);
    }
    return Ok((start.value, endTime));
  }

  method IsPeriodActive(shape: Shape, clock: Clock) returns (r: Result<Activity, PeriodError>)
    ensures r == ActivityOf(shape, clock)
  {
    var now := clock.local;
    if shape.timezone.Some? {
      if shape.timezone.value !in clock.zones {
        return Err(BadTimezone);
      }
      now := clock.zones[shape.timezone.value];
    }
    var today := MatchesDay(shape.days, now.weekday);
    if today.Err? {
      return Err(today.error);
    }
    var onDay := today.value;
    if !onDay {
      return Ok(Activity(false, 0, 0, None));
    }
    var window := TodaysWindow(shape, now);
    if window.Err? {
      return Err(window.error);
    }
    var (startTime, endTime) := window.value;
    var isActive := startTime < now.Now() && now.Now() < endTime;
    if shape.reverse.Deref(false) {
      isActive := !isActive;
    }
    r := Ok(Activity(isActive, startTime, endTime, shape.once));
  }

  /** A value that loads as a period, evaluated at `clock`; `sha1` stands for the hash of its JSON text. */
  function Load(p: ScalerPeriod, clock: Clock, sha1: ScalerPeriod -> Digest): Result<Period, PeriodError> {
    var min := p.minReplicas.Deref(1);
    var max := p.maxReplicas.Deref(min);
    if min > max then Err(MinReplicasGreaterThanMax)
    else
      match ShapeOf(p.time)
      case None => Err(NoTime)
      case Some(shape) =>
        match ActivityOf(shape, clock)
        case Err(e) => Err(e)
        case Ok(a) =>
          if shape.gracePeriod == Some(BadDuration) then Err(BadGracePeriod)
          else Ok(Period(p.kind, p.name, p.time, shape.timezone, a.active, sha1(p), a.startTime, a.endTime, a.once, min, max))
  }

  method NewWithClock(p: ScalerPeriod, clock: Clock, sha1: ScalerPeriod -> Digest) returns (r: Result<Period, PeriodError>)
    ensures r == Load(p, clock, sha1)
  {
    var minReplicas := p.minReplicas.Deref(1);
    var maxReplicas := p.maxReplicas.Deref(minReplicas);
    if minReplicas > maxReplicas {
      return Err(MinReplicasGreaterThanMax);
    }
    var shape := ShapeOf(p.time);
    if shape.None? {
      return Err(NoTime);
    }
    var activity := IsPeriodActive(shape.value, clock);
    if activity.Err? {
      return Err(activity.error);
    }
    if shape.value.gracePeriod == Some(BadDuration) {
      return Err(BadGracePeriod);
    }
    var a := activity.value;
    r := Ok(Period(p.kind, p.name, p.time, shape.value.timezone, a.active, sha1(p), a.startTime, a.endTime, a.once,
                   minReplicas, maxReplicas));
  }

  // ---- what a loaded period carries ----

  /** The process's own zone where none is given, the given one otherwise, if it loads; a fixed time wins over a recurring one. */
  lemma ZoneAndShape(timezone: Option<string>, clock: Clock, now: LocalTime, time: TimePeriod)
    ensures LocalTimeIn(timezone, clock) == Ok(now) <==>
      (timezone == None && now == clock.local) || (timezone.Some? && timezone.value in clock.zones && clock.zones[timezone.value] == now)
    ensures time.fixed.Some? ==> ShapeOf(time) == Some(ConvertFixed(time.fixed.value))
    ensures time.fixed.None? && time.recurring.Some? ==> ShapeOf(time) == Some(ShapeOfRecurring(time.recurring.value))
    ensures ShapeOf(time).None? <==> time.fixed.None? && time.recurring.None?
  {
  }

  /** The bounds a period asks for: one replica where no minimum is given, and the minimum where no maximum is. */
  function MinOf(p: ScalerPeriod): int {
    match p.minReplicas
    case Some(n) => n
    case None => 1
  }

  function MaxOf(p: ScalerPeriod): int {
    match p.maxReplicas
    case Some(n) => n
    case None => MinOf(p)
  }

  lemma {:induction false} BadDayIsTheOnlyDayError(days: seq<string>, weekday: nat)
    ensures OnDay(days, weekday).Err? ==> OnDay(days, weekday).error == BadDay
  {
    if days != [] {
      BadDayIsTheOnlyDayError(days[1..], weekday);
    }
  }

  /** No error of the time part is about bounds. */
  lemma ActivityErrors(shape: Shape, clock: Clock)
    ensures ActivityOf(shape, clock).Err? ==>
      ActivityOf(shape, clock).error in {BadTimezone, BadDay, RecurringTimeFormat, FixedTimeFormat, StartAfterEnd}
  {
    if LocalTimeIn(shape.timezone, clock).Ok? {
      BadDayIsTheOnlyDayError(shape.days, LocalTimeIn(shape.timezone, clock).value.weekday);
    }
  }

  /** A period that loads carries what the spec says, its bounds in order; it is refused for its bounds exactly if they are not. */
  lemma LoadedPeriod(p: ScalerPeriod, clock: Clock, sha1: ScalerPeriod -> Digest)
    ensures Load(p, clock, sha1) == Err(MinReplicasGreaterThanMax) <==> MinOf(p) > MaxOf(p)
    ensures Load(p, clock, sha1).Ok? ==>
      var r := Load(p, clock, sha1).value;
      && r.minReplicas == MinOf(p) && r.maxReplicas == MaxOf(p) && r.minReplicas <= r.maxReplicas
      && r.kind == p.kind && r.name == p.name && r.originalTime == p.time && r.hash == sha1(p)
      && ShapeOf(p.time).Some? && r.timezone == ShapeOf(p.time).value.timezone
      && (r.isActive ==> r.once == ShapeOf(p.time).value.once)
      && ActivityOf(ShapeOf(p.time).value, clock) == Ok(Activity(r.isActive, r.startTime, r.endTime, r.once))
    ensures Load(p, clock, sha1).Ok? <==>
      MinOf(p) <= MaxOf(p)
      && match ShapeOf(p.time)
         case None => false
         case Some(shape) => ActivityOf(shape, clock).Ok? && shape.gracePeriod != Some(BadDuration)
  {
    if ShapeOf(p.time).Some? {
      ActivityErrors(ShapeOf(p.time).value, clock);
    }
  }

  // ---- what it means to be active ----

  /** Some listed day matches, and no bad day name comes before it. */
  ghost predicate MatchesToday(days: seq<string>, weekday: nat) {
    exists i :: 0 <= i < |days| && IsDay(days[i], weekday) == Ok(true)
                && forall j :: 0 <= j < i ==> IsDay(days[j], weekday) == Ok(false)
  }

  /** A match in the rest of the list is a match in the list, and conversely, when the first day is no match. */
  lemma MatchInRest(days: seq<string>, weekday: nat)
    requires days != [] && IsDay(days[0], weekday) == Ok(false)
    ensures MatchesToday(days, weekday) <==> MatchesToday(days[1..], weekday)
  {
    var rest := days[1..];
    if MatchesToday(rest, weekday) {
      var i :| 0 <= i < |rest| && IsDay(rest[i], weekday) == Ok(true)
               && forall j :: 0 <= j < i ==> IsDay(rest[j], weekday) == Ok(false);
      assert IsDay(days[i + 1], weekday) == Ok(true);
      assert forall j :: 0 <= j < i + 1 ==> j == 0 || days[j] == rest[j - 1];
    }
    if MatchesToday(days, weekday) {
      var i :| 0 <= i < |days| && IsDay(days[i], weekday) == Ok(true)
               && forall j :: 0 <= j < i ==> IsDay(days[j], weekday) == Ok(false);
      assert days[i] == rest[i - 1];
      assert forall j :: 0 <= j < i - 1 ==> rest[j] == days[j + 1];
    }
  }

  lemma {:induction false} OnDayIsFirstMatch(days: seq<string>, weekday: nat)
    ensures OnDay(days, weekday) == Ok(true) <==> MatchesToday(days, weekday)
    ensures OnDay(days, weekday) == Ok(false) <==> forall day :: day in days ==> IsDay(day, weekday) == Ok(false)
  {
    if days != [] {
      OnDayIsFirstMatch(days[1..], weekday);
      match IsDay(days[0], weekday)
      case Ok(false) => MatchInRest(days, weekday);
      case _ => assert days[0] in days;
    }
  }

  /** The day list of "all" is accepted, and matches every day. */
  lemma EveryDayMatches(weekday: nat)
    ensures IsValidDay(DAY_ALL) && MatchesToday([DAY_ALL], weekday) && ToLower(DAY_ALL) == DAY_ALL
  {
    var days := [DAY_ALL];
    assert ToLower(DAY_ALL) == DAY_ALL;
    assert IsDay(days[0], weekday) == Ok(true);
  }

  /** The abbreviations of the weekdays, Sunday first as in Go's `time.Weekday`, and of all of them. */
  function Abbreviation(i: nat): string {
    match i
    case 0 => "sun"
    case 1 => "mon"
    case 2 => "tue"
    case 3 => "wed"
    case 4 => "thu"
    case 5 => "fri"
    case 6 => "sat"
    case _ => "all"
  }

  /** They tell the days apart by their second and third letters. */
  lemma AbbreviationsDiffer(i: nat, j: nat)
    requires i < j < 8
    ensures Abbreviation(i) != Abbreviation(j)
  {
    var a, b := Abbreviation(i), Abbreviation(j);
    assert a[1] != b[1] || a[2] != b[2];
  }

  lemma WeekDaysAbbreviate(i: nat)
    requires i < 8
    ensures WEEK_DAYS[i] == Abbreviation(i) && |Abbreviation(i)| == 3
  {
  }

  /** Does a day name, by its first three letters in any case, mean the weekday? */
  predicate NamesWeekday(day: string, weekday: nat) {
    |day| >= 3 && (ToLower(day)[..3] == Abbreviation(weekday) || ToLower(day)[..3] == Abbreviation(7))
  }

  lemma IndexOfAbbreviation(i: nat)
    requires i < 8
    ensures IndexOf(WEEK_DAYS, Abbreviation(i)) == Some(i)
  {
    WeekDaysAbbreviate(i);
    assert WEEK_DAYS[i] in WEEK_DAYS;
    var k := IndexOf(WEEK_DAYS, Abbreviation(i)).value;
    WeekDaysAbbreviate(k);
    if k < i {
      AbbreviationsDiffer(k, i);
    } else if i < k {
      AbbreviationsDiffer(i, k);
    }
  }

  /** What `IsDay` makes of a name, by the abbreviation it starts with. */
  lemma DayByAbbreviation(day: string, weekday: nat, i: nat)
    requires |day| >= 3 && i < 8 && ToLower(day)[..3] == Abbreviation(i)
    ensures IsDay(day, weekday) == Ok(i == 7 || i == weekday)
  {
    IndexOfAbbreviation(i);
    if day == DAY_ALL {
      EveryDayMatches(weekday);
      WeekDaysAbbreviate(7);
      assert ToLower(day)[..3] == DAY_ALL == Abbreviation(7);
      if i < 7 {
        AbbreviationsDiffer(i, 7);
      }
    }
  }

  /** A day name is refused exactly if it names none of the seven weekdays; otherwise it matches the ones it names. */
  lemma DayNames(day: string, weekday: nat)
    requires weekday < 7
    ensures IsDay(day, weekday) == Ok(true) <==> NamesWeekday(day, weekday)
    ensures IsDay(day, weekday).Err? <==> forall d: nat :: d < 7 ==> !NamesWeekday(day, d)
  {
    if IsDay(day, weekday).Ok? {
      var i := IndexOfDay(day, weekday);
      DayByAbbreviation(day, weekday, i);
      if i < 7 {
        AbbreviationsDiffer(i, 7);
        assert NamesWeekday(day, i);
        if i < weekday {
          AbbreviationsDiffer(i, weekday);
        } else if weekday < i {
          AbbreviationsDiffer(weekday, i);
        }
      } else {
        assert NamesWeekday(day, weekday);
      }
    } else {
      forall d: nat | d < 7
        ensures !NamesWeekday(day, d)
      {
        if NamesWeekday(day, d) {
          DayByAbbreviation(day, weekday, if ToLower(day)[..3] == Abbreviation(d) then d else 7);
        }
      }
    }
  }

  /** A name that is understood starts with an abbreviation. */
  lemma IndexOfDay(day: string, weekday: nat) returns (i: nat)
    requires IsDay(day, weekday).Ok?
    ensures i < 8 && |day| >= 3 && ToLower(day)[..3] == Abbreviation(i)
  {
    if day == DAY_ALL {
      i := 7;
      WeekDaysAbbreviate(7);
      EveryDayMatches(weekday);
      assert ToLower(day)[..3] == DAY_ALL;
    } else {
      i := IndexOf(WEEK_DAYS, ToLower(day)[..DAY_PREFIX_LENGTH]).value;
      WeekDaysAbbreviate(i);
    }
  }

  /**
   * A recurring period whose zone loads and whose day and window are readable is active exactly when a
   * listed day is today and now is strictly inside (start, last second of the end minute), or strictly
   * not inside when it is reversed. On any other day it is inactive, reversed or not.
   */
  lemma RecurringActiveWindow(r: RecurringPeriod, clock: Clock, now: LocalTime, start: nat, end: nat)
    requires LocalTimeIn(r.timezone, clock) == Ok(now)
    requires ParseClock(r.startTime) == Some(start) && ParseClock(if r.endTime == "00:00" then "23:59" else r.endTime) == Some(end)
    requires start <= end && ValidRecurring(r)
    ensures ActivityOf(ShapeOfRecurring(r), clock).Ok?
    ensures ActivityOf(ShapeOfRecurring(r), clock).value.active <==>
      MatchesToday(r.days, now.weekday)
      && ((start * MINUTE < now.sinceMidnight < end * MINUTE + 59 * SECOND) != r.reverse.Deref(false))
    ensures MatchesToday(r.days, now.weekday) ==>
      var activity := ActivityOf(ShapeOfRecurring(r), clock).value;
      && activity.startTime == now.midnight + start * MINUTE && activity.endTime == now.midnight + end * MINUTE + 59 * SECOND
      && activity.once == r.once
  {
    OnDayIsFirstMatch(r.days, now.weekday);
    ValidDaysNeverFail(r.days, now.weekday);
  }

  /**
   * A fixed period whose zone loads, from one date to another: it fails exactly if the first is after the last
   * second of the other's minute, and otherwise is active strictly between them, whatever the weekday, and
   * whatever its reverse flag says.
   */
  lemma FixedActiveWindow(f: FixedPeriod, clock: Clock, now: LocalTime, start: int, end: int)
    requires LocalTimeIn(f.timezone, clock) == Ok(now) && f.startTime == At(start) && f.endTime == At(end)
    ensures ActivityOf(ConvertFixed(f), clock) ==
      if start > end + 59 * SECOND then Err(StartAfterEnd)
      else Ok(Activity(start < now.midnight + now.sinceMidnight < end + 59 * SECOND, start, end + 59 * SECOND, f.once))
  {
    EveryDayMatches(now.weekday);
    OnDayIsFirstMatch([DAY_ALL], now.weekday);
  }

  lemma {:induction false} ValidDaysNeverFail(days: seq<string>, weekday: nat)
    requires forall day :: day in days ==> IsValidDay(day)
    ensures OnDay(days, weekday).Ok?
  {
    if days != [] {
      ValidDayNeverFails(days[0], weekday);
      ValidDaysNeverFail(days[1..], weekday);
    }
  }

  lemma ValidDayMatches(day: string, weekday: nat)
    requires weekday < 7 && IsValidDay(day)
    ensures IsDay(day, weekday) == Ok(NamesWeekday(day, weekday))
  {
    ValidDayNeverFails(day, weekday);
    DayNames(day, weekday);
  }

  predicate SomeNames(days: seq<string>, weekday: nat) {
    exists day :: day in days && NamesWeekday(day, weekday)
  }

  /** A list of accepted day names matches today exactly if one of them names it. */
  lemma {:induction false} ValidDaysMatch(days: seq<string>, weekday: nat)
    requires weekday < 7 && forall day :: day in days ==> IsValidDay(day)
    ensures OnDay(days, weekday) == Ok(SomeNames(days, weekday))
    ensures MatchesToday(days, weekday) <==> SomeNames(days, weekday)
  {
    OnDayIsFirstMatch(days, weekday);
    if days != [] {
      ValidDayMatches(days[0], weekday);
      ValidDaysMatch(days[1..], weekday);
      assert forall day :: day in days <==> day == days[0] || day in days[1..];
    }
  }

  /** A recurring window that crosses midnight never loads on a matching day, reversed or not. */
  lemma CrossMidnightNeverLoads(r: RecurringPeriod, clock: Clock, now: LocalTime, start: nat, end: nat)
    requires LocalTimeIn(r.timezone, clock) == Ok(now)
    requires ParseClock(r.startTime) == Some(start) && ParseClock(if r.endTime == "00:00" then "23:59" else r.endTime) == Some(end)
    requires MatchesToday(r.days, now.weekday)
    ensures ActivityOf(ShapeOfRecurring(r), clock) == Err(StartAfterEnd) <==> end < start
  {
    OnDayIsFirstMatch(r.days, now.weekday);
  }
}
