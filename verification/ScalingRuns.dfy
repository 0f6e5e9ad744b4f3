/**
 * Whole runs of scaling passes over one stored object: any sequence of period types and periods, with
 * any of the reads and updates failing. A pass stores annotations and spec in one update, so an update
 * is stored whole or not at all; a failed update may still have been stored.
 */
module ScalingRuns {
  import opened Prelude
  import opened Decimal
  import opened PeriodTypes
  import opened Annotations
  import opened Strategies

  /** What the API server makes of one read and one update; a failure may be a cancelled context. */
  datatype Fate = Stored | StoredButReported(cancelled: bool) | Rejected(cancelled: bool) | NotRead(cancelled: bool)

  datatype Pass = Pass(kind: PeriodKind, period: Period, fate: Fate)

  predicate Reaches(fate: Fate) {
    fate.Stored? || fate.StoredButReported?
  }

  /** The stored object after one pass. */
  function Store(s: Strategy, o: Obj, pass: Pass): Obj {
    match Apply(s, o, pass.kind, pass.period)
    case Changed(updated) => if Reaches(pass.fate) then updated else o
    case _ => o
  }

  function Run(s: Strategy, o: Obj, passes: seq<Pass>): Obj {
    if passes == [] then o
    else Store(s, Run(s, o, passes[..|passes| - 1]), passes[|passes| - 1])
  }

  // ---- where a run may start, and what it must keep ----

  predicate NoBookkeeping(m: Annots) {
    forall k :: k in m ==> !IsBookkeeping(k)
  }

  predicate Unpaused(m: Annots) {
    KedaPaused !in m && KedaPausedReplicas !in m
  }

  predicate OptionalInt32(v: Option<int>) {
    v.Some? ==> IsInt32(v.value)
  }

  /** The field a strategy drives exists on the object. */
  predicate HasField(s: Strategy, live: Live) {
    if UsesBounds(s) then live.Bounds?
    else
      match s
      case IntReplicas => live.ReplicaCount?
      case BoolSuspend(_, _) => live.SuspendFlag?
      case _ => true
  }

  /** Replica fields are int32 in every kind but the runner set, whose Go ints are clamped. */
  predicate FieldInRange(s: Strategy, live: Live) {
    match live
    case ReplicaCount(n) => OptionalInt32(n)
    case Bounds(min, max) => (s.MinMaxReplicas? && s.kind.RunnerSet?) || (OptionalInt32(min) && OptionalInt32(max))
    case _ => true
  }

  /** An object no scaler has touched. */
  predicate Untouched(s: Strategy, o: Obj) {
    NoBookkeeping(o.annotations) && HasField(s, o.live) && FieldInRange(s, o.live) && (s.KedaPause? ==> Unpaused(o.annotations))
  }

  /** Keys that belong to somebody else. */
  predicate IsForeign(s: Strategy, k: AnnotationKey) {
    !IsBookkeeping(k)
    && !(s.KedaPause? && (k.KedaPaused? || k.KedaPausedReplicas?))
    && !(s.CnpgHibernate? && k.CnpgHibernation?)
  }

  ghost predicate SameForeign(s: Strategy, m: Annots, n: Annots) {
    forall k :: IsForeign(s, k) ==> (k in m <==> k in n) && (k in m && k in n ==> m[k] == n[k])
  }

  predicate Holds(m: Annots, part: Annots) {
    forall k :: k in part ==> k in m && m[k] == part[k]
  }

  /** Clean, showing the first object's original: its own field, or the one a restore writes for it. */
  predicate IsRestored(s: Strategy, first: Obj, o: Obj) {
    NoBookkeeping(o.annotations)
    && Observe(s, o) == Observe(s, first)
    && (o.live == first.live || o.live == RestoredLive(s, Observe(s, first), first.live))
    && (s.KedaPause? ==> Unpaused(o.annotations))
  }

  /** Every stored state is clean with the original, or carries the text of the first original. */
  ghost predicate Recoverable(s: Strategy, first: Obj, o: Obj) {
    SameForeign(s, o.annotations, first.annotations)
    && HasField(s, o.live)
    && (s.CnpgHibernate? ==> o.live == first.live)
    && (IsRestored(s, first, o) || Holds(o.annotations, Encode(Observe(s, first))))
  }

  // ---- one pass ----

  /** Recording is first-write-wins: what the map holds survives, and an empty map takes the new texts. */
  lemma CaptureKeepsFirst(m: Annots, p: Period, recorded: Annots, now: Annots)
    requires forall k :: k in recorded ==> k.Own? && k.field in {OriginalValue, MinOriginalValue, MaxOriginalValue}
    requires Holds(m, recorded) || (recorded == now && forall k :: k in now ==> k !in m)
    ensures Holds(Captured(m, p, now), recorded)
  {
  }

  lemma CaptureKeepsOthers(m: Annots, p: Period, originals: Annots, k: AnnotationKey)
    requires !IsBookkeeping(k) && k !in originals
    ensures k in Captured(m, p, originals) <==> k in m
    ensures k in m ==> Captured(m, p, originals)[k] == m[k]
  {
  }

  predicate InRange(orig: Original) {
    match orig
    case Count(n) => IsInt32(n)
    case Range(lo, hi) => IsInt32(lo) && IsInt32(hi)
    case Flag(_) => true
  }

  /** Does a recorded original fit the strategy? */
  predicate Fits(s: Strategy, orig: Original) {
    if UsesBounds(s) then orig.Range? else if s.IntReplicas? then orig.Count? else orig.Flag?
  }

  lemma UntouchedIsInRange(s: Strategy, o: Obj)
    requires Untouched(s, o)
    ensures Fits(s, Observe(s, o)) && InRange(Observe(s, o))
  {
  }

  /** Whatever else the map contains, the recorded texts decode to the original. */
  lemma DecodeOfEncode(s: Strategy, orig: Original, m: Annots)
    requires Fits(s, orig) && InRange(orig) && Holds(m, Encode(orig))
    ensures Decode(s, m) == Ok(orig) && !NothingRecorded(s, m)
  {
    match orig
    case Count(n) =>
      Int32RoundTrip(n);
      assert m[Own(OriginalValue)] == Encode(orig)[Own(OriginalValue)];
    case Range(lo, hi) =>
      Int32RoundTrip(lo);
      Int32RoundTrip(hi);
      assert m[Own(MinOriginalValue)] == Encode(orig)[Own(MinOriginalValue)];
      assert m[Own(MaxOriginalValue)] == Encode(orig)[Own(MaxOriginalValue)];
    case Flag(b) =>
      assert m[Own(OriginalValue)] == Encode(orig)[Own(OriginalValue)];
  }

  /** Observing a restored object finds the original that was restored. */
  lemma ObserveOfRestored(s: Strategy, orig: Original, m: Annots, live: Live)
    requires Fits(s, orig) && InRange(orig) && HasField(s, live)
    ensures Observe(s, Obj(RestoredMarks(s, orig, Cleaned(m)), RestoredLive(s, orig, live))) == orig
  {
  }

  /** Marking touches only the other operators' keys a strategy owns. */
  lemma ScalingMarksKeepOthers(s: Strategy, kind: PeriodKind, p: Period, m: Annots, k: AnnotationKey)
    requires IsForeign(s, k) || k.Own?
    ensures k in ScalingMarks(s, kind, p, m) <==> k in m
    ensures k in m ==> ScalingMarks(s, kind, p, m)[k] == m[k]
  {
  }

  lemma ScalingKeepsRecord(s: Strategy, first: Obj, o: Obj, kind: PeriodKind, p: Period)
    requires Recoverable(s, first, o) && IsScaling(kind) && Apply(s, o, kind, p).Changed?
    ensures Holds(Apply(s, o, kind, p).obj.annotations, Encode(Observe(s, first)))
  {
    var recorded, now := Encode(Observe(s, first)), Encode(Observe(s, o));
    CaptureKeepsFirst(o.annotations, p, recorded, now);
    var captured := Captured(o.annotations, p, now);
    forall k | k in recorded
      ensures k in ScalingMarks(s, kind, p, captured) && ScalingMarks(s, kind, p, captured)[k] == recorded[k]
    {
      ScalingMarksKeepOthers(s, kind, p, captured, k);
    }
  }

  lemma ScalingKeepsForeign(s: Strategy, o: Obj, kind: PeriodKind, p: Period)
    requires IsScaling(kind) && Apply(s, o, kind, p).Changed?
    ensures SameForeign(s, Apply(s, o, kind, p).obj.annotations, o.annotations)
  {
    var now := Encode(Observe(s, o));
    var captured := Captured(o.annotations, p, now);
    forall k | IsForeign(s, k)
      ensures k in ScalingMarks(s, kind, p, captured) <==> k in o.annotations
      ensures k in o.annotations ==> ScalingMarks(s, kind, p, captured)[k] == o.annotations[k]
    {
      CaptureKeepsOthers(o.annotations, p, now, k);
      ScalingMarksKeepOthers(s, kind, p, captured, k);
    }
  }

  lemma RestoringKeepsForeign(s: Strategy, orig: Original, m: Annots)
    ensures SameForeign(s, RestoredMarks(s, orig, Cleaned(m)), m)
    ensures NoBookkeeping(RestoredMarks(s, orig, Cleaned(m)))
    ensures s.KedaPause? ==> Unpaused(RestoredMarks(s, orig, Cleaned(m)))
  {
  }

  lemma ScalingKeepsRecoverable(s: Strategy, first: Obj, o: Obj, kind: PeriodKind, p: Period)
    requires Recoverable(s, first, o) && IsScaling(kind) && Apply(s, o, kind, p).Changed?
    ensures Recoverable(s, first, Apply(s, o, kind, p).obj)
  {
    ScalingKeepsRecord(s, first, o, kind, p);
    ScalingKeepsForeign(s, o, kind, p);
    assert HasField(s, ScaledLive(s, kind, p, o.live));
  }

  /** A restored field depends on the original alone, not on the field it overwrites. */
  lemma RestoredLiveIgnoresField(s: Strategy, orig: Original, live: Live, other: Live)
    requires Fits(s, orig) && HasField(s, live) && HasField(s, other)
    requires s.CnpgHibernate? ==> live == other
    ensures RestoredLive(s, orig, live) == RestoredLive(s, orig, other)
    ensures HasField(s, RestoredLive(s, orig, live))
  {
  }

  /** What a restoring pass makes of an object that carries a record. */
  function RestoredObj(s: Strategy, orig: Original, o: Obj): Obj {
    Obj(RestoredMarks(s, orig, Cleaned(o.annotations)), RestoredLive(s, orig, o.live))
  }

  lemma ApplyToRecorded(s: Strategy, orig: Original, o: Obj, kind: PeriodKind, p: Period)
    requires Fits(s, orig) && InRange(orig) && Holds(o.annotations, Encode(orig)) && !IsScaling(kind)
    ensures Apply(s, o, kind, p) == Changed(RestoredObj(s, orig, o))
  {
    DecodeOfEncode(s, orig, o.annotations);
  }

  lemma RestoredObjIsRestored(s: Strategy, first: Obj, o: Obj)
    requires Untouched(s, first) && Recoverable(s, first, o)
    ensures var after := RestoredObj(s, Observe(s, first), o);
      && Recoverable(s, first, after) && IsRestored(s, first, after)
      && after.live == RestoredLive(s, Observe(s, first), first.live)
  {
    var orig := Observe(s, first);
    UntouchedIsInRange(s, first);
    ObserveOfRestored(s, orig, o.annotations, o.live);
    RestoringKeepsForeign(s, orig, o.annotations);
    RestoredLiveIgnoresField(s, orig, o.live, first.live);
  }

  lemma RestoringRestores(s: Strategy, first: Obj, o: Obj, kind: PeriodKind, p: Period)
    requires Untouched(s, first) && Recoverable(s, first, o) && !IsScaling(kind)
    ensures var outcome := Apply(s, o, kind, p);
      if NothingRecorded(s, o.annotations) then outcome == AlreadyRestored && IsRestored(s, first, o)
      else outcome == Changed(RestoredObj(s, Observe(s, first), o))
  {
    UntouchedIsInRange(s, first);
    if Holds(o.annotations, Encode(Observe(s, first))) {
      DecodeOfEncode(s, Observe(s, first), o.annotations);
      ApplyToRecorded(s, Observe(s, first), o, kind, p);
    } else {
      NothingToDecode(s, o.annotations);
    }
  }

  lemma NothingToDecode(s: Strategy, m: Annots)
    requires NoBookkeeping(m)
    ensures Decode(s, m).Ok? && NothingRecorded(s, m)
  {
  }

  lemma StoreKeepsRecoverable(s: Strategy, first: Obj, o: Obj, pass: Pass)
    requires Untouched(s, first) && Recoverable(s, first, o)
    ensures Recoverable(s, first, Store(s, o, pass))
  {
    if Apply(s, o, pass.kind, pass.period).Changed? && Reaches(pass.fate) {
      if IsScaling(pass.kind) {
        ScalingKeepsRecoverable(s, first, o, pass.kind, pass.period);
      } else {
        RestoringRestores(s, first, o, pass.kind, pass.period);
        RestoredObjIsRestored(s, first, o);
      }
    }
  }

  /** Between passes, an object without a record shows its original. */
  lemma NothingRecordedIsRestored(s: Strategy, first: Obj, o: Obj)
    requires Untouched(s, first) && Recoverable(s, first, o) && NothingRecorded(s, o.annotations)
    ensures IsRestored(s, first, o)
  {
    UntouchedIsInRange(s, first);
    if Holds(o.annotations, Encode(Observe(s, first))) {
      DecodeOfEncode(s, Observe(s, first), o.annotations);
    }
  }

  /** An object without a record is left alone by restoring passes; a stored restoring pass leaves no record. */
  lemma RestoringLeavesNoRecord(s: Strategy, o: Obj, kind: PeriodKind, p: Period)
    requires !IsScaling(kind)
    ensures NothingRecorded(s, o.annotations) ==> Apply(s, o, kind, p) == AlreadyRestored
    ensures Apply(s, o, kind, p).AlreadyRestored? ==> NothingRecorded(s, o.annotations)
    ensures Apply(s, o, kind, p).Changed? ==> NothingRecorded(s, Apply(s, o, kind, p).obj.annotations)
  {
  }

  // ---- whole runs ----

  /**
   * From an untouched object, whatever the passes and whichever reads and updates fail, every stored
   * state is clean with its original value or still carries the text of that first original, and every
   * annotation that belongs to somebody else is as it was.
   */
  lemma {:induction false} RunIsRecoverable(s: Strategy, first: Obj, passes: seq<Pass>)
    requires Untouched(s, first)
    ensures Recoverable(s, first, Run(s, first, passes))
  {
    if passes != [] {
      var before, last := passes[..|passes| - 1], passes[|passes| - 1];
      RunIsRecoverable(s, first, before);
      StoreKeepsRecoverable(s, first, Run(s, first, before), last);
    }
  }

  /**
   * After any run, a restoring pass whose update is stored leaves exactly the first original, no
   * bookkeeping, and every foreign annotation; it never fails to parse; and if it reports the object as
   * already restored, the object does show its original.
   */
  lemma RestoreAfterAnyRun(s: Strategy, first: Obj, passes: seq<Pass>, pass: Pass)
    requires Untouched(s, first) && !IsScaling(pass.kind) && Reaches(pass.fate)
    ensures
      var o := Run(s, first, passes);
      var after := Run(s, first, passes + [pass]);
      && IsRestored(s, first, after) && SameForeign(s, after.annotations, first.annotations)
      && !Apply(s, o, pass.kind, pass.period).Failed?
      && (Apply(s, o, pass.kind, pass.period).AlreadyRestored? ==> after == o)
      && (Apply(s, o, pass.kind, pass.period).Changed? ==> after.live == RestoredLive(s, Observe(s, first), first.live))
  {
    RunIsRecoverable(s, first, passes);
    assert (passes + [pass])[..|passes|] == passes;
    RestoringRestores(s, first, Run(s, first, passes), pass.kind, pass.period);
    RestoredObjIsRestored(s, first, Run(s, first, passes));
  }

  /** The object shows what a scaling pass is for. */
  predicate IsScaledTo(s: Strategy, kind: PeriodKind, p: Period, o: Obj) {
    match s
    case IntReplicas => o.live == ReplicaCount(Some(if kind == Down then p.minReplicas else p.maxReplicas))
    case MinMaxReplicas(_) => o.live == Bounds(Some(p.minReplicas), Some(p.maxReplicas))
    case BoolSuspend(suspended, _) => o.live == SuspendFlag(Some(suspended == (kind == Down)))
    case KedaPause =>
      if Pauses(s, kind, p) then KedaPaused in o.annotations && KedaPausedReplicas in o.annotations
      else o.live == Bounds(Some(p.minReplicas), Some(p.maxReplicas)) && Unpaused(o.annotations)
    case CnpgHibernate => IsHibernating(o.annotations) <==> kind == Down
  }

  /**
   * After any run, a scaling pass whose update is stored shows its target, whatever came before, and carries
   * the text of the first original, not of the state it met. Only "up" on a strategy without it fails, and
   * then nothing is stored.
   */
  lemma ScaleAfterAnyRun(s: Strategy, first: Obj, passes: seq<Pass>, pass: Pass)
    requires Untouched(s, first) && IsScaling(pass.kind) && Reaches(pass.fate)
    ensures
      var o := Run(s, first, passes);
      var after := Run(s, first, passes + [pass]);
      if s.BoolSuspend? && pass.kind == Up && !s.upSupported then
        Apply(s, o, pass.kind, pass.period).Failed? && after == o
      else
        IsScaledTo(s, pass.kind, pass.period, after) && Holds(after.annotations, Encode(Observe(s, first)))
  {
    RunIsRecoverable(s, first, passes);
    assert (passes + [pass])[..|passes|] == passes;
    var o := Run(s, first, passes);
    if Apply(s, o, pass.kind, pass.period).Changed? {
      ScalingKeepsRecord(s, first, o, pass.kind, pass.period);
    }
  }

  /** What "the original" is, field by field: nil comes back as 0 or false, a runner set comes back clamped. */
  lemma RestoredValues(s: Strategy, first: Obj)
    requires Untouched(s, first)
    ensures var live := RestoredLive(s, Observe(s, first), first.live);
      match first.live
      case ReplicaCount(n) => s.IntReplicas? ==> live == ReplicaCount(Some(n.Deref(0)))
      case Bounds(min, max) =>
        if s.MinMaxReplicas? && s.kind.RunnerSet? then
          live == Bounds(Some(ClampInt32(min.Deref(0))), Some(ClampInt32(max.Deref(0))))
          && (live == first.live <==> min.Some? && max.Some? && IsInt32(min.value) && IsInt32(max.value))
        else UsesBounds(s) ==> live == Bounds(Some(min.Deref(0)), Some(max.Deref(0)))
      case SuspendFlag(b) => s.BoolSuspend? ==> live == SuspendFlag(Some(b.Deref(false)))
      case NoField => live == NoField
  {
  }

  // ---- KEDA ----

  /** The last pass of a run whose result was stored. */
  function LastStored(s: Strategy, o: Obj, passes: seq<Pass>): Option<Pass> {
    if passes == [] then None
    else
      var before, last := passes[..|passes| - 1], passes[|passes| - 1];
      if Apply(s, Run(s, o, before), last.kind, last.period).Changed? && Reaches(last.fate) then Some(last)
      else LastStored(s, o, before)
  }

  /** A ScaledObject is paused exactly while the last stored action is a down pass with a zero minimum. */
  lemma {:induction false} KedaPausedExactlyAfterPause(first: Obj, passes: seq<Pass>)
    requires Unpaused(first.annotations)
    ensures
      var m := Run(KedaPause, first, passes).annotations;
      var last := LastStored(KedaPause, first, passes);
      if last.Some? && Pauses(KedaPause, last.value.kind, last.value.period)
      then KedaPaused in m && m[KedaPaused] == "true" && KedaPausedReplicas in m && m[KedaPausedReplicas] == "0"
      else Unpaused(m)
  {
    if passes != [] {
      KedaPausedExactlyAfterPause(first, passes[..|passes| - 1]);
    }
  }

  /** Passes that pause never move the bounds, stored or not, and whatever came before them. */
  lemma {:induction false} KedaPausingKeepsBounds(first: Obj, passes: seq<Pass>, pausing: seq<Pass>)
    requires forall i :: 0 <= i < |pausing| ==> Pauses(KedaPause, pausing[i].kind, pausing[i].period)
    ensures Run(KedaPause, first, passes + pausing).live == Run(KedaPause, first, passes).live
    decreases |pausing|
  {
    if pausing == [] {
      assert passes + pausing == passes;
    } else {
      var before := pausing[..|pausing| - 1];
      KedaPausingKeepsBounds(first, passes, before);
      assert (passes + pausing)[..|passes + pausing| - 1] == passes + before;
    }
  }

  /**
   * In every state without bookkeeping a cluster hibernates iff it did at first, although an original
   * "off", or any other text, comes back as an absent key.
   */
  lemma CnpgHibernationReturns(first: Obj, passes: seq<Pass>)
    requires Untouched(CnpgHibernate, first)
    ensures
      var o := Run(CnpgHibernate, first, passes);
      NoBookkeeping(o.annotations) ==> IsHibernating(o.annotations) == IsHibernating(first.annotations)
    ensures
      var o := Run(CnpgHibernate, first, passes);
      !NoBookkeeping(o.annotations) ==> Decode(CnpgHibernate, o.annotations) == Ok(Flag(IsHibernating(first.annotations)))
  {
    RunIsRecoverable(CnpgHibernate, first, passes);
    var o := Run(CnpgHibernate, first, passes);
    var orig := Observe(CnpgHibernate, first);
    if NoBookkeeping(o.annotations) {
      assert Own(OriginalValue) in Encode(orig);
    } else {
      DecodeOfEncode(CnpgHibernate, orig, o.annotations);
    }
  }
}
