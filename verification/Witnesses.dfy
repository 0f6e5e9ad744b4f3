/**
 * Concrete inputs for the results about scalers that go wrong: one deployment of three replicas, and a
 * "down" period from 08:00 to 18:00 on every day.
 */
module Witnesses {
  import opened Prelude
  import opened PeriodTypes
  import opened ClockText
  import opened Periods
  import opened ActivePeriod
  import opened Strategies
  import opened ScalingRuns
  import opened Processor
  import opened Reconcile
  import opened ReconcileRuns
  import opened Stranding
  import opened ResourceTypes

  const HOURS := RecurringPeriod(["all"], "08:00", "18:00", None, None, None, None)
  const NOON := 720 * MINUTE
  const EVENING := 1200 * MINUTE

  /** One digest for every period: no claim depends on digests that differ. */
  function Sha1(p: ScalerPeriod): Digest {
    Digest("7110eda4d09e062aa5e4a390b0a572ac0d2c0220")
  }

  /** Down to nothing during working hours, once or over and over. */
  function WorkingHours(once: Option<bool>): ScalerPeriod {
    ScalerPeriod(Down, TimePeriod(Some(HOURS.(once := once)), None), Some(0), None, "working-hours")
  }

  function Scaler(once: Option<bool>): ScalerSpec {
    ScalerSpec([WorkingHours(once)], [Deployments], [], false, Sha1)
  }

  function ClockAt(nanos: nat): Clock {
    Clock(map[], LocalTime(0, 1, nanos))
  }

  const WEB := ObjectRef("shop", "web")

  /** A pass at `nanos` after midnight: everything works but for the update of the deployment and the status write. */
  function PassAtTime(nanos: nat, update: Fate, statusPatch: PatchFate): Env {
    Env(Fetched, Patched, Authenticated, ClockAt(nanos), nanos, Patched,
        [Ready(["shop"], ApiBehaviour(map["shop" := Listed([WEB])], [update]))], statusPatch, Patched)
  }

  /** `n` passes in the evening, when everything works. */
  function Evenings(n: nat): seq<Event> {
    seq(n, i => Reconciled(PassAtTime(EVENING, Stored, Patched)))
  }

  const UNTOUCHED := Obj(map[], ReplicaCount(Some(3)))

  /** An untouched deployment under a scaler whose last period was `kind`. */
  function WorldAfter(kind: PeriodKind, digest: Digest, deleting: bool): World {
    World(deleting, true, Some(StatusPeriod(None, digest, "", kind, [], [])), None, map[Deployments := map[WEB := UNTOUCHED]])
  }

  lemma HoursAreReadable()
    ensures ParseClock("08:00") == Some(480) && ParseClock("18:00") == Some(1080)
  {
    ParseOfFormat(480);
    ParseOfFormat(1080);
    assert FormatClock(480) == "08:00" && FormatClock(1080) == "18:00";
  }

  lemma WorkingHoursActivity(once: Option<bool>, nanos: nat)
    ensures var r := Load(WorkingHours(once), ClockAt(nanos), Sha1);
      r.Ok? && r.value.kind == Down && r.value.once == once && r.value.minReplicas == 0 && r.value.hash == Sha1(WorkingHours(once))
    ensures Load(WorkingHours(once), ClockAt(nanos), Sha1).value.isActive <==> 480 * MINUTE < nanos < 1080 * MINUTE + 59 * SECOND
  {
    var r, clock := HOURS.(once := once), ClockAt(nanos);
    HoursAreReadable();
    EveryDayMatches(clock.local.weekday);
    RecurringActiveWindow(r, clock, clock.local, 480, 1080);
  }

  /** At noon the scaler selects the period, unless it ran once already; in the evening it selects the fallback. */
  lemma SelectionAt(once: Option<bool>, nanos: nat, status: Option<StatusPeriod>)
    requires nanos == NOON || nanos == EVENING
    ensures var selection := Select([WorkingHours(once)], status, false, ClockAt(nanos), Sha1);
      if nanos == EVENING then selection.Selected? && selection.period.kind == Noaction
      else
        && !selection.LoadFailed? && selection.period.kind == Down && selection.period.minReplicas == 0
        && (selection.RunOnce? <==> once.Deref(false) && status.Some? && status.value.specSHA == Sha1(WorkingHours(once)))
  {
    var periods := [WorkingHours(once)];
    WorkingHoursActivity(once, nanos);
    NoactionAlwaysLoads(ClockAt(nanos), Sha1);
    assert periods[1..] == [];
    assert FirstActive([], ClockAt(nanos), Sha1) == Ok(None);
  }

  lemma OnlyDeployment(once: Option<bool>, w: World, nanos: nat, update: Fate, statusPatch: PatchFate)
    requires WEB in ObjectsOf(w.objects, Deployments) && ObjectsOf(w.objects, Deployments)[WEB].live.ReplicaCount?
    ensures OneDeployment(Scaler(once), w, PassAtTime(nanos, update, statusPatch), WEB, update)
  {
  }

  lemma SelectsAt(w: World, nanos: nat, update: Fate, statusPatch: PatchFate)
    requires (nanos == NOON || nanos == EVENING) && !w.deleting
    ensures Selects(Scaler(None), w, PassAtTime(nanos, update, statusPatch), if nanos == NOON then Down else Noaction)
    ensures nanos == NOON ==> SelectFor(Scaler(None), w, false, PassAtTime(nanos, update, statusPatch)).period.minReplicas == 0
  {
    SelectionAt(None, nanos, w.status);
  }

  lemma EveningsAskNothing(w: World, n: nat)
    ensures NothingAsked(Scaler(None), w, Evenings(n), n)
  {
    SelectionAt(None, EVENING, w.status);
    assert forall i :: 0 <= i < n ==> Evenings(n)[i] == Reconciled(PassAtTime(EVENING, Stored, Patched));
  }

  /**
   * A lost write: the status of the pass at noon is not stored. However many passes follow in the evening, the
   * deployment keeps no replicas, and the status says that nothing is scaled and nothing failed.
   */
  lemma LostWriteAtNoon(n: nat)
    ensures
      var spec, w := Scaler(None), WorldAfter(Noaction, Digest(""), false);
      var after := RunWorld(spec, ReconcilePass(spec, w, PassAtTime(NOON, Stored, PatchFailed)).world, Evenings(n));
      ScaledAndRecorded(after.objects, WEB, 0) && NotedRestored(after)
  {
    var spec, w, down := Scaler(None), WorldAfter(Noaction, Digest(""), false), PassAtTime(NOON, Stored, PatchFailed);
    OnlyDeployment(None, w, NOON, Stored, PatchFailed);
    SelectsAt(w, NOON, Stored, PatchFailed);
    EveningsAskNothing(ReconcilePass(spec, w, down).world, n);
    LostStatusWriteStrands(spec, w, down, WEB, Evenings(n));
  }

  /** The deployment after a down pass: its record reads back. */
  lemma ScaledReadsBack(p: Period)
    requires p.kind == Down
    ensures Apply(IntReplicas, UNTOUCHED, Down, p).Changed?
    ensures Decode(IntReplicas, Apply(IntReplicas, UNTOUCHED, Down, p).obj.annotations).Ok?
  {
    var pass := Pass(Down, p, Stored);
    ScaleAfterAnyRun(IntReplicas, UNTOUCHED, [], pass);
    assert [] + [pass] == [pass] && [pass][..0] == [] && Run(IntReplicas, UNTOUCHED, [pass]) == Store(IntReplicas, UNTOUCHED, pass);
    DecodeOfEncode(IntReplicas, Observe(IntReplicas, UNTOUCHED), Apply(IntReplicas, UNTOUCHED, Down, p).obj.annotations);
  }

  /** The world after a pass at noon in which everything worked. */
  function AtNoon(): World {
    ReconcilePass(Scaler(None), WorldAfter(Noaction, Digest(""), false), PassAtTime(NOON, Stored, Patched)).world
  }

  lemma NoonScales()
    ensures var w, down := WorldAfter(Noaction, Digest(""), false), PassAtTime(NOON, Stored, Patched);
      var r := ReconcilePass(Scaler(None), w, down);
      && r.scaled.Some? && r.scaled.value.period.kind == Down && !r.world.deleting && ScaledAndRecorded(r.world.objects, WEB, 0)
      && Apply(IntReplicas, UNTOUCHED, Down, r.scaled.value.period) == Changed(ObjectsOf(r.world.objects, Deployments)[WEB])
  {
    var spec, w, down := Scaler(None), WorldAfter(Noaction, Digest(""), false), PassAtTime(NOON, Stored, Patched);
    OnlyDeployment(None, w, NOON, Stored, Patched);
    SelectsAt(w, NOON, Stored, Patched);
    DownPass(spec, w, down, WEB);
  }

  lemma NoonPass()
    ensures var w := AtNoon();
      && !w.deleting && !LastWasNoaction(w.status) && ScaledAndRecorded(w.objects, WEB, 0)
      && Decode(IntReplicas, ObjectsOf(w.objects, Deployments)[WEB].annotations).Ok?
  {
    var spec, w, down := Scaler(None), WorldAfter(Noaction, Digest(""), false), PassAtTime(NOON, Stored, Patched);
    NoonScales();
    PassWritesStatus(spec, w, down);
    ScaledReadsBack(ReconcilePass(spec, w, down).scaled.value.period);
  }

  /**
   * A rejected restore: after a down pass at noon, the update of the first pass in the evening is rejected.
   * However many passes follow, all of them working, the deployment keeps no replicas, and the status keeps
   * the failure.
   */
  lemma RejectedRestoreInTheEvening(n: nat)
    ensures
      var spec, restore := Scaler(None), PassAtTime(EVENING, Rejected(false), Patched);
      var after := RunWorld(spec, ReconcilePass(spec, AtNoon(), restore).world, Evenings(n));
      && ScaledAndRecorded(after.objects, WEB, 0)
      && LastWasNoaction(after.status) && after.status.value.failed == [OneObject(Deployments, "web")]
  {
    var spec, restore := Scaler(None), PassAtTime(EVENING, Rejected(false), Patched);
    NoonPass();
    OnlyDeployment(None, AtNoon(), EVENING, Rejected(false), Patched);
    SelectsAt(AtNoon(), EVENING, Rejected(false), Patched);
    EveningsAskNothing(ReconcilePass(spec, AtNoon(), restore).world, n);
    RejectedRestoreIsNotRetried(spec, AtNoon(), restore, WEB, Evenings(n));
  }

  /** `n` passes at noon, when everything works. */
  function Noons(n: nat): seq<Event> {
    seq(n, i => Reconciled(PassAtTime(NOON, Stored, Patched)))
  }

  /** One pass over a scaler that is being deleted while its run-once period is active and already ran. */
  lemma RefusedAtNoon(w: World)
    requires w.deleting && w.finalizer && w.status == WorldAfter(Down, Sha1(WorkingHours(Some(true))), true).status
    ensures var r := ReconcilePass(Scaler(Some(true)), w, PassAtTime(NOON, Stored, Patched));
      r.error == Critical(false) && r.world.finalizer && r.world.deleting && r.world.status == w.status && r.world.objects == w.objects
  {
    SelectionAt(Some(true), NOON, w.status);
  }

  /**
   * A refused deletion: the run-once period already ran, and is active at noon. However often the controller
   * tries then, the finalizer stays and no workload is restored.
   */
  lemma {:induction false} DeletionRefusedAtNoon(n: nat)
    ensures
      var w := WorldAfter(Down, Sha1(WorkingHours(Some(true))), true);
      var after := RunWorld(Scaler(Some(true)), w, Noons(n));
      && after.finalizer && after.deleting && after.status == w.status && after.objects == w.objects
      && ReconcilePass(Scaler(Some(true)), after, PassAtTime(NOON, Stored, Patched)).error == Critical(false)
  {
    var spec, w := Scaler(Some(true)), WorldAfter(Down, Sha1(WorkingHours(Some(true))), true);
    if n > 0 {
      DeletionRefusedAtNoon(n - 1);
      assert Noons(n)[..n - 1] == Noons(n - 1);
      RefusedAtNoon(RunWorld(spec, w, Noons(n - 1)));
    }
    RefusedAtNoon(RunWorld(spec, w, Noons(n)));
  }
}
