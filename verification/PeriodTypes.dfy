/** The period records of api/common and pkg/period, with parsed texts where Go's calendar code would run. */
module PeriodTypes {
  import opened Prelude

  /** A duration text after `time.ParseDuration`: nanoseconds, or rejected. */
  datatype DurationText = BadDuration | Nanos(nanos: int)

  /** A "2006-01-02 15:04:05" text after parsing: nanoseconds on the local time line, or rejected. */
  datatype DateTime = BadDateTime | At(nanos: int)

  /** A period type: "down", "up", the built-in "noaction", or any other text a caller lets through. */
  datatype PeriodKind = Down | Up | Noaction | OtherKind(text: string)

  function KindText(kind: PeriodKind): string {
    match kind
    case Down => "down"
    case Up => "up"
    case Noaction => "noaction"
    case OtherKind(text) => text
  }

  datatype RecurringPeriod = RecurringPeriod(
    days: seq<string>,
    startTime: string,
    endTime: string,
    timezone: Option<string>,
    once: Option<bool>,
    gracePeriod: Option<DurationText>,
    reverse: Option<bool>)

  datatype FixedPeriod = FixedPeriod(
    startTime: DateTime,
    endTime: DateTime,
    timezone: Option<string>,
    once: Option<bool>,
    gracePeriod: Option<DurationText>,
    reverse: Option<bool>)

  datatype TimePeriod = TimePeriod(recurring: Option<RecurringPeriod>, fixed: Option<FixedPeriod>)

  datatype ScalerPeriod = ScalerPeriod(
    kind: PeriodKind,
    time: TimePeriod,
    minReplicas: Option<int>,
    maxReplicas: Option<int>,
    name: string)

  /** The hash of a period, as a text. */
  datatype Digest = Digest(text: string)

  /** The evaluated period handed to the strategies. Instants are nanoseconds on the local time line. */
  datatype Period = Period(
    kind: PeriodKind,
    name: string,
    originalTime: TimePeriod,
    timezone: Option<string>,
    isActive: bool,
    hash: Digest,
    startTime: int,
    endTime: int,
    once: Option<bool>,
    minReplicas: int,
    maxReplicas: int)

  const SECOND := 1_000_000_000
  const MINUTE := 60_000_000_000
  const DAY := 86_400_000_000_000
  const MINUTES_PER_DAY := 1440
}
