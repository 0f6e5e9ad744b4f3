/** internal/utils/utils.go: choosing the active period and noting it in the status. */
module ActivePeriod {
  import opened Prelude
  import opened PeriodTypes
  import opened ClockText
  import opened Periods
  import opened ResourceTypes

  datatype StatusPeriod = StatusPeriod(
    spec: Option<TimePeriod>,
    specSHA: Digest,
    name: string,
    kind: PeriodKind,
    successful: seq<StatusItem>,
    failed: seq<StatusItem>)

  /** The texts a pass may leave in `status.comments`. */
  datatype Comment = TimePeriodProcessed | UnableToLoadPeriod | RunOncePeriod

  class ScalerStatus {
    var currentPeriod: Option<StatusPeriod>
    var comments: Option<Comment>

    constructor (currentPeriod: Option<StatusPeriod>, comments: Option<Comment>)
      ensures this.currentPeriod == currentPeriod && this.comments == comments
    {
      this.currentPeriod := currentPeriod;
      this.comments := comments;
    }
  }

  /** The fallback when nothing is active: all day, every day, not run-once. */
  function NoactionPeriod(): ScalerPeriod {
    ScalerPeriod(
      Noaction,
      TimePeriod(Some(RecurringPeriod([DAY_ALL], "00:00", "23:59", None, Some(false), None, None)), None),
      None, None, "noaction")
  }

  datatype Selection = Selected(period: Period) | RunOnce(period: Period) | LoadFailed

  /** The first active period, if any, unless one before it fails to load. */
  function FirstActive(periods: seq<ScalerPeriod>, clock: Clock, sha1: ScalerPeriod -> Digest): Result<Option<Period>, PeriodError> {
    if periods == [] then Ok(None)
    else
      match Load(periods[0], clock, sha1)
      case Err(e) => Err(e)
      case Ok(p) => if p.isActive then Ok(Some(p)) else FirstActive(periods[1..], clock, sha1)
  }

  /** The period a pass works with, before the run-once test. */
  function Choose(periods: seq<ScalerPeriod>, forceRestore: bool, clock: Clock, sha1: ScalerPeriod -> Digest): Result<Period, PeriodError> {
    match Load(NoactionPeriod(), clock, sha1)
    case Err(e) => Err(e)
    case Ok(fallback) =>
      if forceRestore then Ok(fallback)
      else
        match FirstActive(periods, clock, sha1)
        case Err(e) => Err(e)
        case Ok(None) => Ok(fallback)
        case Ok(Some(p)) => Ok(p)
  }

  predicate AlreadyRan(p: Period, current: Option<StatusPeriod>) {
    p.once.Deref(false) && current.Some? && current.value.specSHA == p.hash
  }

  function Select(periods: seq<ScalerPeriod>, current: Option<StatusPeriod>, forceRestore: bool, clock: Clock,
                  sha1: ScalerPeriod -> Digest): Selection {
    match Choose(periods, forceRestore, clock, sha1)
    case Err(_) => LoadFailed
    case Ok(p) => if AlreadyRan(p, current) then RunOnce(p) else Selected(p)
  }

  /** A fresh status entry: the result lists of the previous pass are dropped. */
  function StatusOf(p: Period): StatusPeriod {
    StatusPeriod(Some(p.originalTime), p.hash, p.name, p.kind, [], [])
  }

  /** The scan over the periods, which stops at the first active one and at the first that fails to load. */
  method FindActive(periods: seq<ScalerPeriod>, clock: Clock, sha1: ScalerPeriod -> Digest)
    returns (r: Result<Option<Period>, PeriodError>)
    ensures r == FirstActive(periods, clock, sha1)
  {
    var i := 0;
    while i < |periods|
      invariant 0 <= i <= |periods|
      invariant FirstActive(periods, clock, sha1) == FirstActive(periods[i..], clock, sha1)
    {
      var curPeriod := NewWithClock(periods[i], clock, sha1);
      if curPeriod.Err? {
        return Err(curPeriod.error);
      }
      if curPeriod.value.isActive {
        return Ok(Some(curPeriod.value));
      }
      i := i + 1;
    }
    return Ok(None);
  }

  method SetActivePeriod(periods: seq<ScalerPeriod>, status: ScalerStatus, forceRestore: bool, clock: Clock,
                         sha1: ScalerPeriod -> Digest)
    returns (selection: Selection)
    modifies status
    ensures selection == Select(periods, old(status.currentPeriod), forceRestore, clock, sha1)
    ensures status.currentPeriod ==
      if selection.Selected? then Some(StatusOf(selection.period)) else old(status.currentPeriod)
    ensures status.comments == old(status.comments)
  {
    var loaded := NewWithClock(NoactionPeriod(), clock, sha1);
    if loaded.Err? {
      return LoadFailed;
    }
    var onPeriod := loaded.value;
    if !forceRestore {
      var active := FindActive(periods, clock, sha1);
      if active.Err? {
        return LoadFailed;
      }
      if active.value.Some? {
        onPeriod := active.value.value;
      }
    }
    if onPeriod.once.Deref(false) && status.currentPeriod.Some? && status.currentPeriod.value.specSHA == onPeriod.hash {
      return RunOnce(onPeriod);
    }
    status.currentPeriod := Some(StatusOf(onPeriod));
    return Selected(onPeriod);
  }

  /** The fallback loads at every instant, is never run-once, and asks for a restore. */
  lemma NoactionAlwaysLoads(clock: Clock, sha1: ScalerPeriod -> Digest)
    ensures Load(NoactionPeriod(), clock, sha1).Ok?
    ensures var p := Load(NoactionPeriod(), clock, sha1).value;
      p.kind == Noaction && !p.once.Deref(false) && p.hash == sha1(NoactionPeriod())
  {
    ParseOfFormat(0);
    ParseOfFormat(1439);
    assert FormatClock(0) == "00:00" && FormatClock(1439) == "23:59";
    var shape := ShapeOf(NoactionPeriod().time).value;
    assert shape.days[0] == DAY_ALL;
    assert OnDay(shape.days, clock.local.weekday) == Ok(true);
    assert Window(shape, clock.local).Ok?;
    assert ActivityOf(shape, clock).Ok? && ActivityOf(shape, clock).value.once == Some(false);
  }

  /** `periods[i]` is reached: everything before it loads and is inactive. */
  ghost predicate ReachedAt(periods: seq<ScalerPeriod>, i: nat, clock: Clock, sha1: ScalerPeriod -> Digest) {
    i <= |periods| && forall j :: 0 <= j < i ==> Load(periods[j], clock, sha1).Ok? && !Load(periods[j], clock, sha1).value.isActive
  }

  lemma {:induction false} ScanStopsAt(periods: seq<ScalerPeriod>, clock: Clock, sha1: ScalerPeriod -> Digest) returns (i: nat)
    ensures ReachedAt(periods, i, clock, sha1)
    ensures if i == |periods| then FirstActive(periods, clock, sha1) == Ok(None)
      else match Load(periods[i], clock, sha1)
        case Err(e) => FirstActive(periods, clock, sha1) == Err(e)
        case Ok(p) => p.isActive && FirstActive(periods, clock, sha1) == Ok(Some(p))
  {
    if periods == [] {
      return 0;
    }
    var first := Load(periods[0], clock, sha1);
    if first.Err? || first.value.isActive {
      return 0;
    }
    var rest := ScanStopsAt(periods[1..], clock, sha1);
    assert forall j :: 1 <= j < |periods| ==> periods[j] == periods[1..][j - 1];
    return rest + 1;
  }

  /**
   * Without a forced restore: the choice is the first active period, else the fallback, and loading
   * fails exactly when some period fails before an active one is met.
   */
  lemma ChoiceIsFirstActive(periods: seq<ScalerPeriod>, clock: Clock, sha1: ScalerPeriod -> Digest) returns (i: nat)
    ensures ReachedAt(periods, i, clock, sha1)
    ensures Choose(periods, false, clock, sha1) ==
      if i == |periods| then Load(NoactionPeriod(), clock, sha1) else Load(periods[i], clock, sha1)
    ensures i == |periods| || Load(periods[i], clock, sha1).Err? || Load(periods[i], clock, sha1).value.isActive
  {
    NoactionAlwaysLoads(clock, sha1);
    i := ScanStopsAt(periods, clock, sha1);
  }

  /** With a forced restore no period of the spec is looked at: the fallback is selected, always. */
  lemma ForcedRestoreSelectsNoaction(periods: seq<ScalerPeriod>, current: Option<StatusPeriod>, clock: Clock, sha1: ScalerPeriod -> Digest)
    ensures var selection := Select(periods, current, true, clock, sha1);
      selection.Selected? && Ok(selection.period) == Load(NoactionPeriod(), clock, sha1) && selection.period.kind == Noaction
  {
    NoactionAlwaysLoads(clock, sha1);
  }

  /** Whatever is selected was loaded from the fallback, or, without force, from an active period of the spec. */
  lemma SelectedIsFromSpec(periods: seq<ScalerPeriod>, current: Option<StatusPeriod>, forceRestore: bool, clock: Clock,
                           sha1: ScalerPeriod -> Digest)
    returns (source: ScalerPeriod)
    requires !Select(periods, current, forceRestore, clock, sha1).LoadFailed?
    ensures var p := Select(periods, current, forceRestore, clock, sha1).period;
      Load(source, clock, sha1) == Ok(p) && (source == NoactionPeriod() || (!forceRestore && source in periods && p.isActive))
  {
    source := NoactionPeriod();
    if !forceRestore {
      var i := ChoiceIsFirstActive(periods, clock, sha1);
      source := if i < |periods| then periods[i] else NoactionPeriod();
    }
  }
}
