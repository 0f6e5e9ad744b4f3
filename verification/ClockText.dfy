/** Times of day as `time.Parse("15:04", …)` reads them and `Format("15:04")` writes them. */
module ClockText {
  import opened Prelude
  import opened Decimal
  import opened PeriodTypes

  /** One or two leading digits; two are required when `fixed`. The rest follows. */
  function LeadingNumber(s: string, fixed: bool): Option<(nat, string)> {
    if s == [] || !IsDigit(s[0]) then None
    else if |s| == 1 || !IsDigit(s[1]) then
      if fixed then None else Some((DigitValue(s[0]), s[1..]))
    else Some((10 * DigitValue(s[0]) + DigitValue(s[1]), s[2..]))
  }

  /** Minutes since midnight: an hour of one or two digits, a colon, a minute of two digits, nothing more. */
  function ParseClock(s: string): (r: Option<nat>)
    ensures r.Some? ==> r.value < MINUTES_PER_DAY
  {
    match LeadingNumber(s, false)
    case None => None
    case Some((hour, rest)) =>
      if hour >= 24 || rest == [] || rest[0] != ':' then None
      else
        match LeadingNumber(rest[1..], true)
        case None => None
        case Some((minute, tail)) =>
          if minute >= 60 || tail != [] then None else Some(60 * hour + minute)
  }

  function TwoDigits(n: nat): string
    requires n < 100
  {
    [DigitChar(n / 10), DigitChar(n % 10)]
  }

  function FormatClock(minutes: nat): string
    requires minutes < MINUTES_PER_DAY
  {
    TwoDigits(minutes / 60) + ":" + TwoDigits(minutes % 60)
  }

  /** Every time of day survives being written and read back. */
  lemma ParseOfFormat(minutes: nat)
    requires minutes < MINUTES_PER_DAY
    ensures ParseClock(FormatClock(minutes)) == Some(minutes)
  {
    var hour, minute := minutes / 60, minutes % 60;
    var s := FormatClock(minutes);
    assert LeadingNumber(s, false) == Some((hour, s[2..]));
    assert s[2] == ':' && s[2..][1..] == TwoDigits(minute);
    assert TwoDigits(minute)[2..] == "";
    assert LeadingNumber(TwoDigits(minute), true) == Some((minute, ""));
  }

  /**
   * `t.Format("15:04")` of an instant `nanos` after some midnight: the day is dropped and the
   * minute is rounded down, also before that midnight.
   */
  function ClockOf(nanos: int): (minutes: nat)
    ensures minutes < MINUTES_PER_DAY
  {
    (nanos / MINUTE) % MINUTES_PER_DAY
  }
}
