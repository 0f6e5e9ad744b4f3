/**
 * pkg/k8s/resources/base/strategies.go: what one pass does to one object. The methods follow the
 * source; `Apply` says, over values, what each of them amounts to.
 */
module Strategies {
  import opened Prelude
  import opened Decimal
  import opened PeriodTypes
  import opened Annotations

  const HIBERNATION_ON := "on"
  const HIBERNATION_OFF := "off"

  /** The spec fields a scaler drives, by kind of object. CNPG clusters are driven by an annotation alone. */
  datatype Live =
    | ReplicaCount(replicas: Option<int>)
    | Bounds(min: Option<int>, max: Option<int>)
    | SuspendFlag(suspend: Option<bool>)
    | NoField

  /** The three objects with min/max bounds; their accessors differ. */
  datatype BoundsKind = Hpa | RunnerSet | ScaledObject

  datatype Strategy =
    | IntReplicas
    | MinMaxReplicas(kind: BoundsKind)
    | BoolSuspend(suspended: bool, upSupported: bool)
    | KedaPause
    | CnpgHibernate

  /** A stored object, as far as a scaler reads or writes it. */
  datatype Obj = Obj(annotations: Annots, live: Live)

  // ---- accessors of the adapters ----

  /** Runner sets hold Go ints and are clamped on the way in; an HPA's maximum is never nil. */
  function GetBounds(kind: BoundsKind, live: Live): (Option<int>, Option<int>) {
    if !live.Bounds? then (None, None)
    else if kind.RunnerSet? then
      (if live.min.Some? then Some(ClampInt32(live.min.value)) else None, Some(ClampInt32(live.max.Deref(0))))
    else (live.min, live.max)
  }

  /** A nil maximum leaves the stored one; a ScaledObject turns a nil minimum into 0. */
  function SetBounds(kind: BoundsKind, live: Live, min: Option<int>, max: Option<int>): Live {
    if !live.Bounds? then live
    else
      Bounds(if kind.ScaledObject? then Some(min.Deref(0)) else min, if max.Some? then max else live.max)
  }

  function GetReplicas(live: Live): Option<int> {
    if live.ReplicaCount? then live.replicas else None
  }

  function SetReplicas(live: Live, replicas: Option<int>): Live {
    if live.ReplicaCount? then ReplicaCount(replicas) else live
  }

  function GetSuspend(live: Live): Option<bool> {
    if live.SuspendFlag? then live.suspend else None
  }

  function SetSuspend(live: Live, suspend: Option<bool>): Live {
    if live.SuspendFlag? then SuspendFlag(suspend) else live
  }

  predicate IsHibernating(annotations: Annots) {
    CnpgHibernation in annotations && annotations[CnpgHibernation] == HIBERNATION_ON
  }

  // ---- the specification ----

  /** The original state of an object as a strategy understands it. */
  datatype Original = Count(n: int) | Range(lo: int, hi: int) | Flag(b: bool)

  function BoundsKindOf(s: Strategy): BoundsKind {
    if s.MinMaxReplicas? then s.kind else ScaledObject
  }

  function UsesBounds(s: Strategy): bool {
    s.MinMaxReplicas? || s.KedaPause?
  }

  /** What a strategy would record if it met `o` for the first time; nil counts as 0 or false. */
  function Observe(s: Strategy, o: Obj): Original {
    if UsesBounds(s) then
      var (min, max) := GetBounds(BoundsKindOf(s), o.live);
      Range(min.Deref(0), max.Deref(0))
    else
      match s
      case IntReplicas => Count(GetReplicas(o.live).Deref(0))
      case BoolSuspend(_, _) => Flag(GetSuspend(o.live).Deref(false))
      case _ => Flag(IsHibernating(o.annotations))
  }

  function Encode(orig: Original): Annots {
    match orig
    case Count(n) => map[Own(OriginalValue) := FormatInt(n)]
    case Range(lo, hi) => map[Own(MinOriginalValue) := FormatInt(lo), Own(MaxOriginalValue) := FormatInt(hi)]
    case Flag(b) => map[Own(OriginalValue) := FormatBool(b)]
  }

  /** The recorded original, with absent entries read as 0 or false. */
  function Decode(s: Strategy, m: Annots): Result<Original, string> {
    if UsesBounds(s) then
      match (ReadInt(m, MinOriginalValue), ReadInt(m, MaxOriginalValue))
      case (Err(e), _) => Err(e)
      case (Ok(_), Err(e)) => Err(e)
      case (Ok(lo), Ok(hi)) => Ok(Range(lo, hi))
    else if s.IntReplicas? then
      match ReadInt(m, OriginalValue)
      case Err(e) => Err(e)
      case Ok(n) => Ok(Count(n))
    else
      match ReadBool(m)
      case Err(e) => Err(e)
      case Ok(b) => Ok(Flag(b))
  }

  predicate NothingRecorded(s: Strategy, m: Annots) {
    if UsesBounds(s) then Lookup(m, MinOriginalValue).None? && Lookup(m, MaxOriginalValue).None?
    else Lookup(m, OriginalValue).None?
  }

  /** A ScaledObject is paused, not resized, exactly on a down pass with a zero minimum. */
  predicate Pauses(s: Strategy, kind: PeriodKind, p: Period) {
    s.KedaPause? && kind == Down && p.minReplicas == 0
  }

  /** The other operators' annotations after a scaling pass: KEDA's pause pair, CNPG's hibernation switch. */
  function ScalingMarks(s: Strategy, kind: PeriodKind, p: Period, m: Annots): Annots {
    if Pauses(s, kind, p) then m[KedaPaused := "true"][KedaPausedReplicas := "0"]
    else if s.KedaPause? then m - {KedaPaused, KedaPausedReplicas}
    else if s.CnpgHibernate? then m[CnpgHibernation := if kind == Down then HIBERNATION_ON else HIBERNATION_OFF]
    else m
  }

  function RestoredMarks(s: Strategy, orig: Original, m: Annots): Annots {
    if s.KedaPause? then m - {KedaPaused, KedaPausedReplicas}
    else if s.CnpgHibernate? then if orig == Flag(true) then m[CnpgHibernation := HIBERNATION_ON] else m - {CnpgHibernation}
    else m
  }

  function ScaledLive(s: Strategy, kind: PeriodKind, p: Period, live: Live): Live {
    if UsesBounds(s) then
      if Pauses(s, kind, p) then live
      else SetBounds(BoundsKindOf(s), live, Some(p.minReplicas), Some(p.maxReplicas))
    else
      match s
      case IntReplicas => SetReplicas(live, Some(if kind == Down then p.minReplicas else p.maxReplicas))
      case BoolSuspend(suspended, _) => SetSuspend(live, Some(if kind == Down then suspended else !suspended))
      case _ => live
  }

  function RestoredLive(s: Strategy, orig: Original, live: Live): Live {
    match orig
    case Count(n) => SetReplicas(live, Some(n))
    case Range(lo, hi) => SetBounds(BoundsKindOf(s), live, Some(lo), Some(hi))
    case Flag(b) => if s.BoolSuspend? then SetSuspend(live, Some(b)) else live
  }

  datatype Outcome = Changed(obj: Obj) | AlreadyRestored | Failed

  predicate IsScaling(kind: PeriodKind) {
    kind == Down || kind == Up
  }

  /** One pass of a strategy: scale on "down" and "up", restore on every other period type. */
  function Apply(s: Strategy, o: Obj, kind: PeriodKind, p: Period): Outcome {
    if s.BoolSuspend? && kind == Up && !s.upSupported then Failed
    else if IsScaling(kind) then
      Changed(Obj(
        ScalingMarks(s, kind, p, Captured(o.annotations, p, Encode(Observe(s, o)))),
        ScaledLive(s, kind, p, o.live)))
    else
      match Decode(s, o.annotations)
      case Err(_) => Failed
      case Ok(orig) =>
        if NothingRecorded(s, o.annotations) then AlreadyRestored
        else Changed(Obj(
          RestoredMarks(s, orig, Cleaned(o.annotations)),
          RestoredLive(s, orig, o.live)))
  }

  // ---- the methods ----

  /** The in-memory copy a getter returns. */
  class ResourceItem {
    var annotations: AnnotationMap?
    var live: Live

    constructor (o: Obj)
      ensures fresh(annotations) && Value() == o
    {
      annotations := new AnnotationMap(o.annotations);
      live := o.live;
    }

    function Value(): Obj
      reads this, annotations
    {
      Obj(Entries(annotations), live)
    }
  }

  /** What a method reports, and the copy it leaves behind, for a given specification outcome. */
  ghost predicate Realizes(outcome: Outcome, before: Obj, after: Obj, alreadyRestored: bool, failed: bool) {
    match outcome
    case Changed(o) => !alreadyRestored && !failed && after == o
    case AlreadyRestored => alreadyRestored && !failed && after == Obj(Cleaned(before.annotations), before.live)
    case Failed => !alreadyRestored && failed && after == before
  }

  method ApplyIntReplicas(resource: ResourceItem, kind: PeriodKind, p: Period) returns (alreadyRestored: bool, failed: bool)
    modifies resource, resource.annotations
    ensures Realizes(Apply(IntReplicas, old(resource.Value()), kind, p), old(resource.Value()), resource.Value(), alreadyRestored, failed)
  {
    alreadyRestored, failed := false, false;
    if kind == Down {
      resource.annotations := AddIntAnnotations(resource.annotations, p, GetReplicas(resource.live));
      resource.live := SetReplicas(resource.live, Some(p.minReplicas));
    } else if kind == Up {
      resource.annotations := AddIntAnnotations(resource.annotations, p, GetReplicas(resource.live));
      resource.live := SetReplicas(resource.live, Some(p.maxReplicas));
    } else {
      var restored, replicas, annotations := RestoreIntAnnotations(resource.annotations);
      if replicas.Err? {
        return false, true;
      }
      if restored {
        return true, false;
      }
      resource.live := SetReplicas(resource.live, Some(replicas.value));
      resource.annotations := annotations;
    }
  }

  method ApplyMinMaxReplicas(bounds: BoundsKind, resource: ResourceItem, kind: PeriodKind, p: Period)
    returns (alreadyRestored: bool, failed: bool)
    modifies resource, resource.annotations
    ensures Realizes(Apply(MinMaxReplicas(bounds), old(resource.Value()), kind, p), old(resource.Value()), resource.Value(), alreadyRestored, failed)
  {
    alreadyRestored, failed := false, false;
    if kind == Down || kind == Up {
      var (minReplicas, maxReplicas) := GetBounds(bounds, resource.live);
      resource.annotations := AddMinMaxAnnotations(resource.annotations, p, minReplicas, maxReplicas.Deref(0));
      resource.live := SetBounds(bounds, resource.live, Some(p.minReplicas), Some(p.maxReplicas));
    } else {
      var restored, range, annotations := RestoreMinMaxAnnotations(resource.annotations);
      if range.Err? {
        return false, true;
      }
      if restored {
        return true, false;
      }
      resource.live := SetBounds(bounds, resource.live, Some(range.value.0), Some(range.value.1));
      resource.annotations := annotations;
    }
  }

  method ApplyBoolSuspend(suspended: bool, upSupported: bool, resource: ResourceItem, kind: PeriodKind, p: Period)
    returns (alreadyRestored: bool, failed: bool)
    modifies resource, resource.annotations
    ensures Realizes(Apply(BoolSuspend(suspended, upSupported), old(resource.Value()), kind, p), old(resource.Value()), resource.Value(), alreadyRestored, failed)
  {
    alreadyRestored, failed := false, false;
    if kind == Down {
      resource.annotations := AddBoolAnnotations(resource.annotations, p, GetSuspend(resource.live).Deref(false));
      resource.live := SetSuspend(resource.live, Some(suspended));
    } else if kind == Up {
      if !upSupported {
        return false, true;
      }
      resource.annotations := AddBoolAnnotations(resource.annotations, p, GetSuspend(resource.live).Deref(false));
      resource.live := SetSuspend(resource.live, Some(!suspended));
    } else {
      var restored, suspend, annotations := RestoreBoolAnnotations(resource.annotations);
      if suspend.Err? {
        return false, true;
      }
      if restored {
        return true, false;
      }
      resource.live := SetSuspend(resource.live, Some(suspend.value));
      resource.annotations := annotations;
    }
  }

  method KedaPauseDown(resource: ResourceItem, p: Period)
    requires p.minReplicas == 0
    modifies resource, resource.annotations
    ensures Realizes(Apply(KedaPause, old(resource.Value()), Down, p), old(resource.Value()), resource.Value(), false, false)
  {
    var (minReplicas, maxReplicas) := GetBounds(ScaledObject, resource.live);
    var annotations := AddMinMaxAnnotations(resource.annotations, p, minReplicas, maxReplicas.Deref(0));
    annotations.entries := annotations.entries[KedaPaused := "true"];
    annotations.entries := annotations.entries[KedaPausedReplicas := "0"];
    resource.annotations := annotations;
  }

  method KedaMinMaxScaling(resource: ResourceItem, ghost kind: PeriodKind, p: Period)
    requires IsScaling(kind) && !Pauses(KedaPause, kind, p)
    modifies resource, resource.annotations
    ensures Realizes(Apply(KedaPause, old(resource.Value()), kind, p), old(resource.Value()), resource.Value(), false, false)
  {
    var (minReplicas, maxReplicas) := GetBounds(ScaledObject, resource.live);
    var annotations := AddMinMaxAnnotations(resource.annotations, p, minReplicas, maxReplicas.Deref(0));
    RemovePauseKeys(annotations);
    resource.annotations := annotations;
    resource.live := SetBounds(ScaledObject, resource.live, Some(p.minReplicas), Some(p.maxReplicas));
  }

  method RemovePauseKeys(annotations: AnnotationMap)
    modifies annotations
    ensures annotations.entries == old(annotations.entries) - {KedaPaused, KedaPausedReplicas}
  {
    annotations.entries := annotations.entries - {KedaPaused};
    annotations.entries := annotations.entries - {KedaPausedReplicas};
  }

  method KedaRestore(resource: ResourceItem, ghost kind: PeriodKind, ghost p: Period) returns (alreadyRestored: bool, failed: bool)
    requires !IsScaling(kind)
    modifies resource, resource.annotations
    ensures Realizes(Apply(KedaPause, old(resource.Value()), kind, p), old(resource.Value()), resource.Value(), alreadyRestored, failed)
  {
    var restored, range, annotations := RestoreMinMaxAnnotations(resource.annotations);
    if range.Err? {
      return false, true;
    }
    if restored {
      return true, false;
    }
    RemovePauseKeys(annotations);
    resource.live := SetBounds(ScaledObject, resource.live, Some(range.value.0), Some(range.value.1));
    resource.annotations := annotations;
    return false, false;
  }

  method ApplyKedaPause(resource: ResourceItem, kind: PeriodKind, p: Period) returns (alreadyRestored: bool, failed: bool)
    modifies resource, resource.annotations
    ensures Realizes(Apply(KedaPause, old(resource.Value()), kind, p), old(resource.Value()), resource.Value(), alreadyRestored, failed)
  {
    alreadyRestored, failed := false, false;
    if kind == Down && p.minReplicas == 0 {
      KedaPauseDown(resource, p);
    } else if kind == Down || kind == Up {
      KedaMinMaxScaling(resource, kind, p);
    } else {
      alreadyRestored, failed := KedaRestore(resource, kind, p);
    }
  }

  method ApplyCnpgHibernate(resource: ResourceItem, kind: PeriodKind, p: Period) returns (alreadyRestored: bool, failed: bool)
    modifies resource, resource.annotations
    ensures Realizes(Apply(CnpgHibernate, old(resource.Value()), kind, p), old(resource.Value()), resource.Value(), alreadyRestored, failed)
  {
    alreadyRestored, failed := false, false;
    if kind == Down || kind == Up {
      var wasHibernating := IsHibernating(Entries(resource.annotations));
      var annotations := AddBoolAnnotations(resource.annotations, p, wasHibernating);
      annotations.entries := annotations.entries[CnpgHibernation := if kind == Down then HIBERNATION_ON else HIBERNATION_OFF];
      resource.annotations := annotations;
    } else {
      var restored, wasHibernating, annotations := RestoreBoolAnnotations(resource.annotations);
      if wasHibernating.Err? {
        return false, true;
      }
      if restored {
        return true, false;
      }
      if wasHibernating.value {
        annotations.entries := annotations.entries[CnpgHibernation := HIBERNATION_ON];
      } else {
        annotations.entries := annotations.entries - {CnpgHibernation};
      }
      resource.annotations := annotations;
    }
  }

  /** The `ScalingStrategy` interface: dispatch to the strategy's own method. */
  method ApplyScaling(s: Strategy, resource: ResourceItem, kind: PeriodKind, p: Period) returns (alreadyRestored: bool, failed: bool)
    modifies resource, resource.annotations
    ensures Realizes(Apply(s, old(resource.Value()), kind, p), old(resource.Value()), resource.Value(), alreadyRestored, failed)
  {
    match s
    case IntReplicas => alreadyRestored, failed := ApplyIntReplicas(resource, kind, p);
    case MinMaxReplicas(bounds) => alreadyRestored, failed := ApplyMinMaxReplicas(bounds, resource, kind, p);
    case BoolSuspend(suspended, upSupported) => alreadyRestored, failed := ApplyBoolSuspend(suspended, upSupported, resource, kind, p);
    case KedaPause => alreadyRestored, failed := ApplyKedaPause(resource, kind, p);
    case CnpgHibernate => alreadyRestored, failed := ApplyCnpgHibernate(resource, kind, p);
  }
}
