/**
 * Get, edit, patch with a version check, retry on conflict: how the flow and scaler controllers change
 * finalizers and status while other writers change the same object.
 */
module Finalizers {
  import opened Prelude

  datatype Stored = Stored(version: nat, finalizers: seq<string>, deleting: bool, spec: string, status: string)

  /** The API server's view of one name: the object, if any, and the last version it handed out. */
  datatype Server = Server(obj: Option<Stored>, counter: nat)

  predicate ValidServer(s: Server) {
    s.obj.Some? ==> s.obj.value.version <= s.counter
  }

  /** What another writer may commit. */
  datatype Write =
    | SetFinalizers(finalizers: seq<string>) | SetSpec(spec: string) | SetStatus(status: string)
    | RequestDeletion | Vanish | Create(obj: Stored)

  /**
   * A committed object gets a new version, unless nothing of it changed; one that is being deleted goes with
   * its last finalizer.
   */
  function Commit(s: Server, o: Stored): Server {
    if s.obj == Some(o) then s
    else if o.deleting && o.finalizers == [] then Server(None, s.counter + 1)
    else Server(Some(o.(version := s.counter + 1)), s.counter + 1)
  }

  /** What the writer of a commit gets back. */
  function Persisted(s: Server, o: Stored): Stored {
    if s.obj == Some(o) then o else o.(version := s.counter + 1)
  }

  function ApplyWrite(s: Server, w: Write): Server {
    match (s.obj, w)
    case (None, Create(o)) => Commit(s, o)
    case (None, _) => s
    case (Some(o), SetFinalizers(f)) => Commit(s, o.(finalizers := f))
    case (Some(o), SetSpec(spec)) => Commit(s, o.(spec := spec))
    case (Some(o), SetStatus(status)) => Commit(s, o.(status := status))
    case (Some(o), RequestDeletion) => Commit(s, o.(deleting := true))
    case (Some(_), Vanish) => s.(obj := None)
    case (Some(_), Create(_)) => s
  }

  function ApplyWrites(s: Server, ws: seq<Write>): Server
    decreases |ws|
  {
    if ws == [] then s else ApplyWrites(ApplyWrite(s, ws[0]), ws[1..])
  }

  lemma {:induction false} WritesInTwoParts(s: Server, a: seq<Write>, b: seq<Write>)
    ensures ApplyWrites(s, a + b) == ApplyWrites(ApplyWrites(s, a), b)
    decreases |a|
  {
    if a == [] {
      assert a + b == b;
    } else {
      assert (a + b)[1..] == a[1..] + b;
      WritesInTwoParts(ApplyWrite(s, a[0]), a[1..], b);
    }
  }

  lemma {:induction false} WritesKeepValid(s: Server, ws: seq<Write>)
    requires ValidServer(s)
    ensures ValidServer(ApplyWrites(s, ws)) && s.counter <= ApplyWrites(s, ws).counter
    decreases |ws|
  {
    if ws != [] {
      WritesKeepValid(ApplyWrite(s, ws[0]), ws[1..]);
    }
  }

  /** Once an object is gone or has a version above `v`, no sequence of writes brings version `v` back. */
  lemma {:induction false} VersionsNeverReturn(s: Server, ws: seq<Write>, v: nat)
    requires v <= s.counter && (s.obj.Some? ==> s.obj.value.version > v)
    ensures ApplyWrites(s, ws).obj.Some? ==> ApplyWrites(s, ws).obj.value.version > v
    decreases |ws|
  {
    if ws != [] {
      VersionsNeverReturn(ApplyWrite(s, ws[0]), ws[1..], v);
    }
  }

  /** An unchanged version means an unchanged object, whatever was written in between. */
  lemma {:induction false} SameVersionSameObject(s: Server, ws: seq<Write>)
    requires ValidServer(s) && s.obj.Some? && ApplyWrites(s, ws).obj.Some?
    requires ApplyWrites(s, ws).obj.value.version == s.obj.value.version
    ensures ApplyWrites(s, ws).obj == s.obj
    decreases |ws|
  {
    if ws != [] {
      var next := ApplyWrite(s, ws[0]);
      if next.obj == s.obj {
        SameVersionSameObject(next, ws[1..]);
      } else {
        VersionsNeverReturn(next, ws[1..], s.obj.value.version);
      }
    }
  }

  // ---- merge patches ----

  /** The main endpoint ignores status; the status endpoint ignores everything else. */
  datatype Endpoint = Main | StatusOnly

  /** A JSON merge patch with the version it was made from: only changed fields, arrays as a whole. */
  datatype Patch = Patch(version: nat, finalizers: Option<seq<string>>, spec: Option<string>, status: Option<string>)

  function Changed<T(==)>(before: T, after: T): Option<T> {
    if before == after then None else Some(after)
  }

  function MergeFrom(original: Stored, modified: Stored): Patch {
    Patch(original.version, Changed(original.finalizers, modified.finalizers), Changed(original.spec, modified.spec),
          Changed(original.status, modified.status))
  }

  function Merge(endpoint: Endpoint, current: Stored, patch: Patch): Stored {
    match endpoint
    case Main => current.(finalizers := patch.finalizers.Deref(current.finalizers), spec := patch.spec.Deref(current.spec))
    case StatusOnly => current.(status := patch.status.Deref(current.status))
  }

  /** An edit an endpoint can carry: it touches neither version nor deletion mark, and stays on its side. */
  predicate Carries(endpoint: Endpoint, original: Stored, modified: Stored) {
    match endpoint
    case Main => modified == original.(finalizers := modified.finalizers, spec := modified.spec)
    case StatusOnly => modified == original.(status := modified.status)
  }

  lemma MergeOfOwnDiff(endpoint: Endpoint, original: Stored, modified: Stored)
    requires Carries(endpoint, original, modified)
    ensures Merge(endpoint, original, MergeFrom(original, modified)) == modified
  {
  }

  /**
   * Without the version check updates would be lost: a patch made from an older copy drops a finalizer that
   * another writer added meanwhile.
   */
  lemma StalePatchDropsFinalizer(original: Stored, mine: string, theirs: string)
    requires mine != theirs && theirs !in original.finalizers
    ensures var patch := MergeFrom(original, original.(finalizers := original.finalizers + [mine]));
      var current := original.(finalizers := original.finalizers + [theirs]);
      theirs in current.finalizers && theirs !in Merge(Main, current, patch).finalizers
  {
    var patch := MergeFrom(original, original.(finalizers := original.finalizers + [mine]));
    assert |original.finalizers + [mine]| != |original.finalizers|;
    assert patch.finalizers == Some(original.finalizers + [mine]);
    assert (original.finalizers + [theirs])[|original.finalizers|] == theirs;
  }

  // ---- retry on conflict ----

  /** One attempt: what others commit before the read and between the read and the patch, and whether a call fails. */
  datatype Attempt = Attempt(before: seq<Write>, racing: seq<Write>, getFails: bool, patchFails: bool)

  const RETRY_STEPS := 5

  datatype Reply = Accepted(obj: Stored) | Conflict | NotFound | Rejected

  // ---- what becomes of the attempts ----

  /** An object that is being deleted takes no new finalizer. */
  predicate BreaksRule(current: Stored, modified: Stored) {
    current.deleting && exists f :: f in modified.finalizers && f !in current.finalizers
  }

  /** The server when an attempt reads it, and when its patch arrives. */
  function ReadBy(s: Server, a: Attempt): Server {
    ApplyWrites(s, a.before)
  }

  function PatchedBy(s: Server, a: Attempt): Server {
    ApplyWrites(ReadBy(s, a), a.racing)
  }

  /** The attempt finds the object and something to send, and its patch gets to an object that is still there. */
  predicate Patches(edit: Stored -> Option<Stored>, s: Server, a: Attempt) {
    && !a.getFails && !a.patchFails
    && ReadBy(s, a).obj.Some? && edit(ReadBy(s, a).obj.value).Some? && PatchedBy(s, a).obj.Some?
  }

  /** Its patch meets a version that is not the one it read. */
  predicate Conflicts(edit: Stored -> Option<Stored>, s: Server, a: Attempt) {
    Patches(edit, s, a) && PatchedBy(s, a).obj.value.version != ReadBy(s, a).obj.value.version
  }

  /** It finds nothing to do, or its patch meets the version it read and breaks no rule. */
  predicate Succeeds(edit: Stored -> Option<Stored>, s: Server, a: Attempt) {
    || (!a.getFails && ReadBy(s, a).obj.Some? && edit(ReadBy(s, a).obj.value).None?)
    || (Patches(edit, s, a)
        && PatchedBy(s, a).obj.value.version == ReadBy(s, a).obj.value.version
        && !BreaksRule(ReadBy(s, a).obj.value, edit(ReadBy(s, a).obj.value).value))
  }

  /** The server at the start of attempt `k`, if the earlier attempts wrote nothing. */
  function StartOf(s: Server, attempts: nat -> Attempt, k: nat): Server {
    if k == 0 then s else PatchedBy(StartOf(s, attempts, k - 1), attempts(k - 1))
  }

  predicate ConflictsAt(edit: Stored -> Option<Stored>, s: Server, attempts: nat -> Attempt, k: nat) {
    Conflicts(edit, StartOf(s, attempts, k), attempts(k))
  }

  predicate SucceedsAt(edit: Stored -> Option<Stored>, s: Server, attempts: nat -> Attempt, k: nat) {
    Succeeds(edit, StartOf(s, attempts, k), attempts(k))
  }

  /** Attempt `k` is reached: the ones before it end in a conflict, and there are at most five. */
  predicate Reaches(edit: Stored -> Option<Stored>, s: Server, attempts: nat -> Attempt, k: nat) {
    k < 5 && forall j: nat :: j < k ==> ConflictsAt(edit, s, attempts, j)
  }

  /** Some attempt is reached and succeeds. */
  ghost predicate SomeSucceeds(edit: Stored -> Option<Stored>, s: Server, attempts: nat -> Attempt) {
    exists k: nat :: Reaches(edit, s, attempts, k) && SucceedsAt(edit, s, attempts, k)
  }

  predicate AllConflict(edit: Stored -> Option<Stored>, s: Server, attempts: nat -> Attempt) {
    forall j: nat :: j < 5 ==> ConflictsAt(edit, s, attempts, j)
  }

  /** The last attempt decides: no other one is reached without a conflict. */
  lemma LastDecides(edit: Stored -> Option<Stored>, s: Server, attempts: nat -> Attempt, k: nat)
    requires Reaches(edit, s, attempts, k) && (ConflictsAt(edit, s, attempts, k) ==> k == 4)
    ensures SomeSucceeds(edit, s, attempts) <==> SucceedsAt(edit, s, attempts, k)
    ensures AllConflict(edit, s, attempts) <==> ConflictsAt(edit, s, attempts, k)
  {
    forall j: nat | Reaches(edit, s, attempts, j) && SucceedsAt(edit, s, attempts, j)
      ensures j == k
    {
      assert j < k ==> ConflictsAt(edit, s, attempts, j);
      assert k < j ==> ConflictsAt(edit, s, attempts, k);
    }
  }

  /** The end of some attempts: others' writes, and at most one edit of ours on what they left. */
  predicate Outcome(edit: Stored -> Option<Stored>, s: Server, others: seq<Write>, wrote: bool, reply: Reply, end: Server) {
    var theirs := ApplyWrites(s, others);
    && (if wrote then theirs.obj.Some? && edit(theirs.obj.value).Some? && end == Commit(theirs, edit(theirs.obj.value).value)
        else end == theirs)
    && (if reply.Accepted? then
          theirs.obj.Some?
          && (wrote <==> edit(theirs.obj.value).Some?)
          && reply.obj == (if wrote then Persisted(theirs, edit(theirs.obj.value).value) else theirs.obj.value)
        else !wrote)
  }

  class ApiServer {
    var server: Server

    constructor (server: Server)
      ensures this.server == server
    {
      this.server := server;
    }

    /** Others' writes. */
    method Interfere(ws: seq<Write>)
      modifies this
      ensures server == ApplyWrites(old(server), ws)
    {
      var i := 0;
      ghost var start := server;
      while i < |ws|
        invariant 0 <= i <= |ws|
        invariant server == ApplyWrites(start, ws[..i])
      {
        assert ws[..i + 1] == ws[..i] + [ws[i]];
        WritesInTwoParts(start, ws[..i], [ws[i]]);
        server := ApplyWrite(server, ws[i]);
        i := i + 1;
      }
      assert ws[..|ws|] == ws;
    }

    /** The server's side of a patch: version check, no new finalizers during deletion, then the merge. */
    method Send(endpoint: Endpoint, patch: Patch, fails: bool) returns (reply: Reply)
      modifies this
      ensures reply.Accepted? ==>
        && old(server).obj.Some? && old(server).obj.value.version == patch.version
        && reply.obj == Persisted(old(server), Merge(endpoint, old(server).obj.value, patch))
        && server == Commit(old(server), Merge(endpoint, old(server).obj.value, patch))
      ensures !reply.Accepted? ==> server == old(server)
      ensures reply.NotFound? <==> !fails && old(server).obj.None?
      ensures reply.Conflict? <==> !fails && old(server).obj.Some? && old(server).obj.value.version != patch.version
      ensures reply.Accepted? <==>
        && !fails && old(server).obj.Some? && old(server).obj.value.version == patch.version
        && !BreaksRule(old(server).obj.value, Merge(endpoint, old(server).obj.value, patch))
    {
      if fails {
        return Rejected;
      }
      if server.obj.None? {
        return NotFound;
      }
      var current := server.obj.value;
      if current.version != patch.version {
        return Conflict;
      }
      var merged := Merge(endpoint, current, patch);
      if BreaksRule(current, merged) {
        return Rejected;
      }
      var persisted := Persisted(server, merged);
      server := Commit(server, merged);
      return Accepted(persisted);
    }

    /** The function that is retried: get, edit, patch. An edit of `None` means nothing is to be done. */
    method Try(endpoint: Endpoint, edit: Stored -> Option<Stored>, a: Attempt)
      returns (reply: Reply, ghost others: seq<Write>, wrote: bool)
      requires ValidServer(server)
      requires forall o :: edit(o).Some? ==> Carries(endpoint, o, edit(o).value)
      modifies this
      ensures ValidServer(server)
      ensures Outcome(edit, old(server), others, wrote, reply, server)
      ensures reply.Accepted? <==> Succeeds(edit, old(server), a)
      ensures reply.Conflict? <==> Conflicts(edit, old(server), a)
      ensures reply.Conflict? ==> server == PatchedBy(old(server), a)
    {
      others, wrote := a.before, false;
      WritesKeepValid(server, a.before);
      Interfere(a.before);
      if a.getFails {
        return Rejected, others, false;
      }
      if server.obj.None? {
        return NotFound, others, false;
      }
      var latest := server.obj.value;
      var modified := edit(latest);
      if modified.None? {
        return Accepted(latest), others, false;
      }
      ghost var atRead := server;
      WritesInTwoParts(old(server), others, a.racing);
      WritesKeepValid(server, a.racing);
      Interfere(a.racing);
      others := others + a.racing;
      if server.obj.Some? && server.obj.value.version == latest.version {
        SameVersionSameObject(atRead, a.racing);
        MergeOfOwnDiff(endpoint, latest, modified.value);
      }
      reply := Send(endpoint, MergeFrom(latest, modified.value), a.patchFails);
      wrote := reply.Accepted?;
    }

    /**
     * `retry.RetryOnConflict` around it. Whatever the others do, the outcome is theirs followed by at most one
     * edit of ours, made on the object as all their writes left it. It is accepted exactly if one of five
     * attempts is reached, through conflicts alone, and succeeds.
     */
    method RetryOnConflict(endpoint: Endpoint, edit: Stored -> Option<Stored>, attempts: nat -> Attempt)
      returns (reply: Reply, ghost others: seq<Write>, wrote: bool)
      requires ValidServer(server)
      requires forall o :: edit(o).Some? ==> Carries(endpoint, o, edit(o).value)
      modifies this
      ensures ValidServer(server)
      ensures Outcome(edit, old(server), others, wrote, reply, server)
      ensures reply.Accepted? <==> SomeSucceeds(edit, old(server), attempts)
      ensures reply.Conflict? <==> AllConflict(edit, old(server), attempts)
    {
      others, wrote := [], false;
      reply := Conflict;
      var step := 0;
      ghost var s := server;
      while step < RETRY_STEPS
        invariant step <= RETRY_STEPS
        invariant server == ApplyWrites(s, others) == StartOf(s, attempts, step) && ValidServer(server)
        invariant forall j: nat :: j < step ==> ConflictsAt(edit, s, attempts, j)
        invariant !wrote && reply.Conflict?
        decreases RETRY_STEPS - step
      {
        ghost var theirs;
        ghost var before := others;
        reply, theirs, wrote := Try(endpoint, edit, attempts(step));
        others := before + theirs;
        WritesInTwoParts(s, before, theirs);
        if !reply.Conflict? {
          LastDecides(edit, s, attempts, step);
          return;
        }
        step := step + 1;
      }
      LastDecides(edit, s, attempts, 4);
    }

    /** `patchAddFinalizer` and `patchAddFlowFinalizer`. */
    method PatchAddFinalizer(name: string, attempts: nat -> Attempt) returns (reply: Reply, ghost others: seq<Write>)
      requires ValidServer(server)
      modifies this
      ensures ValidServer(server)
      ensures var theirs := ApplyWrites(old(server), others);
        if reply.Accepted? then
          theirs.obj.Some? && server == WithFinalizer(theirs, name) && name in reply.obj.finalizers
        else server == theirs
      ensures reply.Accepted? <==> SomeSucceeds(Adding(name), old(server), attempts)
      ensures reply.Conflict? <==> AllConflict(Adding(name), old(server), attempts)
    {
      var wrote;
      reply, others, wrote := RetryOnConflict(Main, Adding(name), attempts);
    }

    /** `patchRemoveFinalizer` and `patchRemoveFlowFinalizer`, which returns the object only if it removed something. */
    method PatchRemoveFinalizer(name: string, attempts: nat -> Attempt)
      returns (reply: Reply, persisted: Option<Stored>, ghost others: seq<Write>)
      requires ValidServer(server)
      modifies this
      ensures ValidServer(server)
      ensures var theirs := ApplyWrites(old(server), others);
        if reply.Accepted? then
          theirs.obj.Some? && server == WithoutFinalizer(theirs, name)
          && (if name in theirs.obj.value.finalizers then persisted.Some? && name !in persisted.value.finalizers else persisted.None?)
        else server == theirs && persisted.None?
      ensures reply.Accepted? <==> SomeSucceeds(Removing(name), old(server), attempts)
      ensures reply.Conflict? <==> AllConflict(Removing(name), old(server), attempts)
    {
      var removed;
      reply, others, removed := RetryOnConflict(Main, Removing(name), attempts);
      persisted := if reply.Accepted? && removed then Some(reply.obj) else None;
      ghost var theirs := ApplyWrites(old(server), others);
      if theirs.obj.Some? {
        FilteredOut(theirs.obj.value.finalizers, name);
      }
    }

    /** The status write of the status handler, and of the period handler's comments. */
    method PatchStatus(status: string, attempts: nat -> Attempt) returns (reply: Reply, ghost others: seq<Write>)
      requires ValidServer(server)
      modifies this
      ensures ValidServer(server)
      ensures var theirs := ApplyWrites(old(server), others);
        if reply.Accepted? then theirs.obj.Some? && server == Commit(theirs, theirs.obj.value.(status := status))
        else server == theirs
      ensures reply.Accepted? <==> SomeSucceeds(SettingStatus(status), old(server), attempts)
      ensures reply.Conflict? <==> AllConflict(SettingStatus(status), old(server), attempts)
    {
      var wrote;
      reply, others, wrote := RetryOnConflict(StatusOnly, SettingStatus(status), attempts);
    }
  }

  // ---- the two finalizer edits ----

  /** `controllerutil.AddFinalizer`, when it has something to do. */
  function AddFinalizer(o: Stored, name: string): Option<Stored> {
    if name in o.finalizers then None else Some(o.(finalizers := o.finalizers + [name]))
  }

  /** Every occurrence goes. */
  function Without(finalizers: seq<string>, name: string): seq<string> {
    if finalizers == [] then []
    else (if finalizers[0] == name then [] else [finalizers[0]]) + Without(finalizers[1..], name)
  }

  function RemoveFinalizer(o: Stored, name: string): Option<Stored> {
    if name in o.finalizers then Some(o.(finalizers := Without(o.finalizers, name))) else None
  }

  // The edits that are retried.

  function Adding(name: string): Stored -> Option<Stored> {
    (o: Stored) => AddFinalizer(o, name)
  }

  function Removing(name: string): Stored -> Option<Stored> {
    (o: Stored) => RemoveFinalizer(o, name)
  }

  function SettingStatus(status: string): Stored -> Option<Stored> {
    (o: Stored) => Some(o.(status := status))
  }

  /** An attempt that nobody interferes with and whose calls work. */
  predicate Undisturbed(a: Attempt) {
    a.before == [] && a.racing == [] && !a.getFails && !a.patchFails
  }

  /** A first attempt that works decides. */
  lemma FirstAttemptDecides(edit: Stored -> Option<Stored>, s: Server, attempts: nat -> Attempt)
    requires Undisturbed(attempts(0))
    ensures SomeSucceeds(edit, s, attempts) <==>
      s.obj.Some? && (edit(s.obj.value).Some? ==> !BreaksRule(s.obj.value, edit(s.obj.value).value))
  {
    assert StartOf(s, attempts, 0) == s && ReadBy(s, attempts(0)) == s && PatchedBy(s, attempts(0)) == s;
    assert Reaches(edit, s, attempts, 0) && !ConflictsAt(edit, s, attempts, 0);
    LastDecides(edit, s, attempts, 0);
  }

  /**
   * Undisturbed, a request succeeds exactly if the object is there, and, for a finalizer to be added, unless
   * the object is being deleted and lacks it.
   */
  lemma UndisturbedRequests(s: Server, name: string, status: string, attempts: nat -> Attempt)
    requires Undisturbed(attempts(0))
    ensures SomeSucceeds(Adding(name), s, attempts) <==> s.obj.Some? && (s.obj.value.deleting ==> name in s.obj.value.finalizers)
    ensures SomeSucceeds(Removing(name), s, attempts) <==> s.obj.Some?
    ensures SomeSucceeds(SettingStatus(status), s, attempts) <==> s.obj.Some?
  {
    FirstAttemptDecides(Adding(name), s, attempts);
    FirstAttemptDecides(Removing(name), s, attempts);
    FirstAttemptDecides(SettingStatus(status), s, attempts);
    if s.obj.Some? {
      FilteredOut(s.obj.value.finalizers, name);
      var o := s.obj.value;
      if name !in o.finalizers {
        assert name in (o.finalizers + [name]);
      }
    }
  }

  lemma {:induction false} FilteredOut(finalizers: seq<string>, name: string)
    ensures forall f :: f in Without(finalizers, name) <==> f in finalizers && f != name
  {
    if finalizers != [] {
      FilteredOut(finalizers[1..], name);
    }
  }

  function WithFinalizer(s: Server, name: string): Server
    requires s.obj.Some?
  {
    match AddFinalizer(s.obj.value, name)
    case None => s
    case Some(o) => Commit(s, o)
  }

  function WithoutFinalizer(s: Server, name: string): Server
    requires s.obj.Some?
  {
    match RemoveFinalizer(s.obj.value, name)
    case None => s
    case Some(o) => Commit(s, o)
  }

  /** Everything of an object that belongs to others, and their finalizer `other` in particular. */
  predicate SameBut(before: Stored, after: Stored, other: string) {
    after.spec == before.spec && after.status == before.status && after.deleting == before.deleting
    && (other in after.finalizers <==> other in before.finalizers)
  }

  /** Adding or removing our finalizer loses nobody else's: not a finalizer, not the spec, not the status. */
  lemma OthersSurvive(s: Server, name: string, other: string)
    requires s.obj.Some? && other != name
    ensures var o := s.obj.value;
      var added, removed := WithFinalizer(s, name).obj, WithoutFinalizer(s, name).obj;
      && added.Some? && SameBut(o, added.value, other) && name in added.value.finalizers
      && (removed.Some? ==> SameBut(o, removed.value, other) && name !in removed.value.finalizers)
      && (removed.None? ==> o.deleting && other !in o.finalizers)
  {
    FilteredOut(s.obj.value.finalizers, name);
  }

  /** A request that is already met writes nothing: not even a new version. */
  lemma AlreadyMetIsNoOp(s: Server, name: string)
    requires s.obj.Some?
    ensures WithFinalizer(s, name) == s <==> name in s.obj.value.finalizers
    ensures WithoutFinalizer(s, name) == s <==> name !in s.obj.value.finalizers
  {
    FilteredOut(s.obj.value.finalizers, name);
  }
}
