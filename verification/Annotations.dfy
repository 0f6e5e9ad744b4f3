/** pkg/k8s/utils/annotation_manager.go: the bookkeeping annotations of a scaled object. */
module Annotations {
  import opened Prelude
  import opened Decimal
  import opened PeriodTypes

  const PREFIX := "kubecloudscaler.cloud"

  /** The bookkeeping annotations the manager itself reads or writes. */
  datatype Field =
    | OriginalValue | MinOriginalValue | MaxOriginalValue
    | PeriodKind | PeriodStart | PeriodEnd | PeriodTimezone

  /**
   * An annotation key, read off its text by `ParseKey`: one of the manager's own, any other key that
   * starts with the scaler's prefix, one of the three keys other operators act on, or a foreign key.
   */
  datatype AnnotationKey =
    | Own(field: Field)
    | Prefixed(rest: string)
    | KedaPaused | KedaPausedReplicas | CnpgHibernation
    | Foreign(text: string)

  function FieldText(f: Field): string {
    match f
    case OriginalValue => "/original-value"
    case MinOriginalValue => "/min-original-value"
    case MaxOriginalValue => "/max-original-value"
    case PeriodKind => "/period-type"
    case PeriodStart => "/period-start-time"
    case PeriodEnd => "/period-end-time"
    case PeriodTimezone => "/period-timezone"
  }

  function KeyText(k: AnnotationKey): string {
    match k
    case Own(f) => PREFIX + FieldText(f)
    case Prefixed(rest) => PREFIX + rest
    case KedaPaused => "autoscaling.keda.sh/paused"
    case KedaPausedReplicas => "autoscaling.keda.sh/paused-replicas"
    case CnpgHibernation => "cnpg.io/hibernation"
    case Foreign(text) => text
  }

  function ParseKey(text: string): AnnotationKey {
    if HasPrefix(text, PREFIX) then
      var rest := text[|PREFIX|..];
      if rest == FieldText(OriginalValue) then Own(OriginalValue)
      else if rest == FieldText(MinOriginalValue) then Own(MinOriginalValue)
      else if rest == FieldText(MaxOriginalValue) then Own(MaxOriginalValue)
      else if rest == FieldText(PeriodKind) then Own(PeriodKind)
      else if rest == FieldText(PeriodStart) then Own(PeriodStart)
      else if rest == FieldText(PeriodEnd) then Own(PeriodEnd)
      else if rest == FieldText(PeriodTimezone) then Own(PeriodTimezone)
      else Prefixed(rest)
    else if text == KeyText(KedaPaused) then KedaPaused
    else if text == KeyText(KedaPausedReplicas) then KedaPausedReplicas
    else if text == KeyText(CnpgHibernation) then CnpgHibernation
    else Foreign(text)
  }

  /** The keys `RemoveAnnotations` deletes. */
  predicate IsBookkeeping(k: AnnotationKey) {
    k.Own? || k.Prefixed?
  }

  /** Reading a key loses nothing, so two texts are read as the same key only if they are equal. */
  lemma ParseKeyIsExact(text: string)
    ensures KeyText(ParseKey(text)) == text
  {
    if HasPrefix(text, PREFIX) {
      assert text == PREFIX + text[|PREFIX|..];
    }
  }

  /** The manager's keys are seven different texts, and reading one of them back finds its field. */
  lemma OwnKeysReadBack(f: Field)
    ensures ParseKey(KeyText(Own(f))) == Own(f)
    ensures ParseKey(KeyText(KedaPaused)) == KedaPaused
    ensures ParseKey(KeyText(KedaPausedReplicas)) == KedaPausedReplicas
    ensures ParseKey(KeyText(CnpgHibernation)) == CnpgHibernation
  {
    var text := KeyText(Own(f));
    assert text[..|PREFIX|] == PREFIX && text[|PREFIX|..] == FieldText(f);
    forall g | FieldText(g) == FieldText(f)
      ensures f == g
    {
      var a, b := FieldText(f), FieldText(g);
      assert a[1] == b[1] && a[2] == b[2] && |a| == |b| && a[8] == b[8] && a[|a| - 1] == b[|b| - 1];
    }
    assert KeyText(KedaPaused)[0] == 'a' && KeyText(KedaPausedReplicas)[0] == 'a' && KeyText(CnpgHibernation)[0] == 'c';
    assert |KeyText(KedaPaused)| != |KeyText(KedaPausedReplicas)|;
  }

  /** The prefix test of the source, on the text, is the test on the key that was read. */
  lemma PrefixTestIsIsBookkeeping(text: string)
    ensures HasPrefix(text, PREFIX) <==> IsBookkeeping(ParseKey(text))
  {
  }

  /** The content of an annotation map. */
  type Annots = map<AnnotationKey, string>

  /** `m` after noting `p`. Instants are rendered by a stand-in text: nothing reads it back. */
  function Stamped(m: Annots, p: Period): Annots {
    var noted := m[Own(PeriodKind) := KindText(p.kind)]
                  [Own(PeriodStart) := FormatInt(p.startTime)]
                  [Own(PeriodEnd) := FormatInt(p.endTime)];
    if p.timezone.Some? then noted[Own(PeriodTimezone) := p.timezone.value] else noted
  }

  /** What noting a period writes: its type, its times, and its zone only if it has one. Every other entry stays. */
  lemma StampedNotes(m: Annots, p: Period, k: AnnotationKey)
    ensures var noted := Stamped(m, p);
      && Own(PeriodKind) in noted && Own(PeriodStart) in noted && Own(PeriodEnd) in noted
      && (p.kind.Down? ==> noted[Own(PeriodKind)] == "down") && (p.kind.Up? ==> noted[Own(PeriodKind)] == "up")
      && (p.kind.Noaction? ==> noted[Own(PeriodKind)] == "noaction") && (p.kind.OtherKind? ==> noted[Own(PeriodKind)] == p.kind.text)
      && Lookup(noted, PeriodTimezone) == (if p.timezone.Some? then p.timezone else Lookup(m, PeriodTimezone))
      && (k !in {Own(PeriodKind), Own(PeriodStart), Own(PeriodEnd), Own(PeriodTimezone)} ==>
          (k in noted <==> k in m) && (k in m ==> noted[k] == m[k]))
  {
  }

  /** Annots after recording `originals` under first-write-wins: entries already present survive. */
  function Captured(m: Annots, p: Period, originals: Annots): Annots {
    originals + Stamped(m, p)
  }

  function Cleaned(m: Annots): Annots {
    map k | k in m && !IsBookkeeping(k) :: m[k]
  }

  /** The text under `f`, if any. */
  function Lookup(m: Annots, f: Field): Option<string> {
    if Own(f) in m then Some(m[Own(f)]) else None
  }

  /** A Go map[string]string: a reference, updated in place by whoever holds it. */
  class AnnotationMap {
    var entries: Annots

    constructor (entries: Annots)
      ensures this.entries == entries
    {
      this.entries := entries;
    }
  }

  /** Reading a nil map is reading an empty one. */
  function Entries(a: AnnotationMap?): Annots
    reads a
  {
    if a == null then map[] else a.entries
  }

  method AddAnnotations(annotations: AnnotationMap?, period: Option<Period>) returns (r: AnnotationMap)
    modifies annotations
    ensures if annotations == null then fresh(r) else r == annotations
    ensures r.entries == if period.Some? then Stamped(old(Entries(annotations)), period.value) else old(Entries(annotations))
  {
    if annotations == null {
      r := new AnnotationMap(map[]);
    } else {
      r := annotations;
    }
    if period == None {
      return;
    }
    var p := period.value;
    r.entries := r.entries[Own(PeriodKind) := KindText(p.kind)];
    r.entries := r.entries[Own(PeriodStart) := FormatInt(p.startTime)];
    r.entries := r.entries[Own(PeriodEnd) := FormatInt(p.endTime)];
    if p.timezone.Some? {
      r.entries := r.entries[Own(PeriodTimezone) := p.timezone.value];
    }
  }

  /** Deletes, in whatever order the map iterates, every key with the scaler's prefix. */
  method RemoveAnnotations(annotations: AnnotationMap?) returns (r: AnnotationMap?)
    modifies annotations
    ensures r == annotations
    ensures Entries(r) == Cleaned(old(Entries(annotations)))
  {
    r := annotations;
    if annotations == null {
      return;
    }
    ghost var before := annotations.entries;
    var todo := annotations.entries.Keys;
    while todo != {}
      invariant annotations.entries == map k | k in before && (k in todo || !IsBookkeeping(k)) :: before[k]
      decreases todo
    {
      var annot :| annot in todo;
      todo := todo - {annot};
      if IsBookkeeping(annot) {
        annotations.entries := annotations.entries - {annot};
      }
    }
  }

  /** Writes `text` under `f` unless something is there already. */
  method RecordOnce(annotations: AnnotationMap, f: Field, text: string)
    modifies annotations
    ensures annotations.entries == map[Own(f) := text] + old(annotations.entries)
  {
    if Own(f) !in annotations.entries {
      annotations.entries := annotations.entries[Own(f) := text];
    }
  }

  lemma RecordedTogether(m: Annots, k: AnnotationKey, v: string, l: AnnotationKey, w: string)
    requires k != l
    ensures map[l := w] + (map[k := v] + m) == map[k := v, l := w] + m
  {
  }

  method AddIntAnnotations(annotations: AnnotationMap?, period: Period, value: Option<int>) returns (r: AnnotationMap)
    modifies annotations
    ensures if annotations == null then fresh(r) else r == annotations
    ensures r.entries == Captured(old(Entries(annotations)), period, map[Own(OriginalValue) := FormatInt(value.Deref(0))])
  {
    r := AddAnnotations(annotations, Some(period));
    RecordOnce(r, OriginalValue, FormatInt(value.Deref(0)));
  }

  method AddBoolAnnotations(annotations: AnnotationMap?, period: Period, value: bool) returns (r: AnnotationMap)
    modifies annotations
    ensures if annotations == null then fresh(r) else r == annotations
    ensures r.entries == Captured(old(Entries(annotations)), period, map[Own(OriginalValue) := FormatBool(value)])
  {
    r := AddAnnotations(annotations, Some(period));
    RecordOnce(r, OriginalValue, FormatBool(value));
  }

  method AddMinMaxAnnotations(annotations: AnnotationMap?, period: Period, minReplicas: Option<int>, maxReplicas: int)
    returns (r: AnnotationMap)
    modifies annotations
    ensures if annotations == null then fresh(r) else r == annotations
    ensures r.entries == Captured(old(Entries(annotations)), period,
      map[Own(MinOriginalValue) := FormatInt(minReplicas.Deref(0)), Own(MaxOriginalValue) := FormatInt(maxReplicas)])
  {
    r := AddAnnotations(annotations, Some(period));
    ghost var stamped := r.entries;
    RecordOnce(r, MinOriginalValue, FormatInt(minReplicas.Deref(0)));
    RecordOnce(r, MaxOriginalValue, FormatInt(maxReplicas));
    RecordedTogether(stamped, Own(MinOriginalValue), FormatInt(minReplicas.Deref(0)),
      Own(MaxOriginalValue), FormatInt(maxReplicas));
  }

  /** A recorded counter: absent reads as 0, a corrupt text is an error. */
  function ReadInt(m: Annots, f: Field): Result<int, string> {
    match Lookup(m, f)
    case None => Ok(0)
    case Some(text) =>
      match Atoi(text)
      case None => Err(text)
      case Some(n) => Ok(ToInt32(n))
  }

  function ReadBool(m: Annots): Result<bool, string> {
    match Lookup(m, OriginalValue)
    case None => Ok(false)
    case Some(text) =>
      match ParseBool(text)
      case None => Err(text)
      case Some(b) => Ok(b)
  }

  /** A failed parse leaves the map alone; otherwise the bookkeeping is cleared even when nothing was recorded. */
  method RestoreIntAnnotations(annotations: AnnotationMap?)
    returns (isRestored: bool, replicas: Result<int, string>, r: AnnotationMap?)
    modifies annotations
    ensures r == annotations
    ensures replicas == ReadInt(old(Entries(annotations)), OriginalValue)
    ensures isRestored <==> Lookup(old(Entries(annotations)), OriginalValue).None?
    ensures Entries(r) == if replicas.Ok? then Cleaned(old(Entries(annotations))) else old(Entries(annotations))
  {
    isRestored, r := false, annotations;
    var value := 0;
    if annotations != null && Own(OriginalValue) in annotations.entries {
      var text := annotations.entries[Own(OriginalValue)];
      var parsed := Atoi(text);
      if parsed.None? {
        replicas := Err(text);
        return;
      }
      value := parsed.value;
    } else {
      isRestored := true;
    }
    r := RemoveAnnotations(annotations);
    replicas := Ok(ToInt32(value));
  }

  method RestoreBoolAnnotations(annotations: AnnotationMap?)
    returns (isRestored: bool, value: Result<bool, string>, r: AnnotationMap?)
    modifies annotations
    ensures r == annotations
    ensures value == ReadBool(old(Entries(annotations)))
    ensures isRestored <==> Lookup(old(Entries(annotations)), OriginalValue).None?
    ensures Entries(r) == if value.Ok? then Cleaned(old(Entries(annotations))) else old(Entries(annotations))
  {
    isRestored, r := false, annotations;
    var flag := false;
    if annotations != null && Own(OriginalValue) in annotations.entries {
      var text := annotations.entries[Own(OriginalValue)];
      var parsed := ParseBool(text);
      if parsed.None? {
        value := Err(text);
        return;
      }
      flag := parsed.value;
    } else {
      isRestored := true;
    }
    r := RemoveAnnotations(annotations);
    value := Ok(flag);
  }

  method RestoreMinMaxAnnotations(annotations: AnnotationMap?)
    returns (isRestored: bool, bounds: Result<(int, int), string>, r: AnnotationMap?)
    modifies annotations
    ensures r == annotations
    ensures bounds ==
      var lo := ReadInt(old(Entries(annotations)), MinOriginalValue);
      var hi := ReadInt(old(Entries(annotations)), MaxOriginalValue);
      if lo.Err? then Err(lo.error) else if hi.Err? then Err(hi.error) else Ok((lo.value, hi.value))
    ensures bounds.Ok? ==>
      (isRestored <==> Lookup(old(Entries(annotations)), MinOriginalValue).None? &&
                       Lookup(old(Entries(annotations)), MaxOriginalValue).None?)
    ensures Entries(r) == if bounds.Ok? then Cleaned(old(Entries(annotations))) else old(Entries(annotations))
  {
    isRestored, r := false, annotations;
    var lo, hi := 0, 0;
    var minAbsent, maxAbsent := false, false;
    if annotations != null && Own(MinOriginalValue) in annotations.entries {
      var text := annotations.entries[Own(MinOriginalValue)];
      var parsed := Atoi(text);
      if parsed.None? {
        bounds := Err(text);
        return;
      }
      lo := parsed.value;
    } else {
      minAbsent := true;
    }
    if annotations != null && Own(MaxOriginalValue) in annotations.entries {
      var text := annotations.entries[Own(MaxOriginalValue)];
      var parsed := Atoi(text);
      if parsed.None? {
        bounds := Err(text);
        return;
      }
      hi := parsed.value;
    } else {
      maxAbsent := true;
    }
    isRestored := minAbsent && maxAbsent;
    r := RemoveAnnotations(annotations);
    bounds := Ok((ToInt32(lo), ToInt32(hi)));
  }
}
