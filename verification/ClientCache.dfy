/** internal/controller/gcp/service/handlers/auth_cache.go: one client per secret, closed on rotation. */
module ClientCache {
  import opened Prelude

  datatype CacheKey = CacheKey(namespace: string, name: string)

  /** A client set, by identity. */
  type Client = nat

  datatype CachedClient = CachedClient(resourceVersion: string, clientSet: Client)

  /** The entries, the clients closed so far, and the clients built so far, each in order. */
  datatype CacheState = CacheState(entries: map<CacheKey, CachedClient>, closed: seq<Client>, built: seq<Client>)

  /** One call: what `build` would return if it were invoked, and whether closing would fail. */
  datatype Call = Call(key: CacheKey, rv: string, build: Result<Client, string>, closeFails: bool)

  datatype Answer = Answer(client: Option<Client>, err: bool)

  predicate Hits(s: CacheState, c: Call) {
    c.key in s.entries && s.entries[c.key].resourceVersion == c.rv
  }

  function Step(s: CacheState, c: Call): (CacheState, Answer) {
    if Hits(s, c) then (s, Answer(Some(s.entries[c.key].clientSet), false))
    else
      match c.build
      case Err(_) => (s, Answer(None, true))
      case Ok(client) =>
        var stale := if c.key in s.entries then [s.entries[c.key].clientSet] else [];
        (CacheState(s.entries[c.key := CachedClient(c.rv, client)], s.closed + stale, s.built + [client]),
         Answer(Some(client), stale != [] && c.closeFails))
  }

  class GcpClientCache {
    var entries: map<CacheKey, CachedClient>
    var closed: seq<Client>
    ghost var built: seq<Client>

    constructor ()
      ensures Value() == CacheState(map[], [], [])
    {
      entries, closed, built := map[], [], [];
    }

    ghost function Value(): CacheState
      reads this
    {
      CacheState(entries, closed, built)
    }

    /** The injected closer: it records what it closes. */
    method Close(client: Client, fails: bool) returns (err: bool)
      modifies this`closed
      ensures closed == old(closed) + [client] && err == fails
    {
      closed := closed + [client];
      err := fails;
    }

    method GetOrBuild(c: Call) returns (answer: Answer)
      modifies this
      ensures (Value(), answer) == Step(old(Value()), c)
    {
      if c.key in entries {
        var entry := entries[c.key];
        if entry.resourceVersion == c.rv {
          return Answer(Some(entry.clientSet), false);
        }
      }
      if c.build.Err? {
        return Answer(None, true);
      }
      built := built + [c.build.value];
      var closeErr := false;
      if c.key in entries {
        closeErr := Close(entries[c.key].clientSet, c.closeFails);
      } else {
        assert closed + [] == closed;
      }
      entries := entries[c.key := CachedClient(c.rv, c.build.value)];
      answer := Answer(Some(c.build.value), closeErr);
    }
  }

  // ---- conservation ----

  predicate NoDuplicates(s: seq<Client>) {
    forall i, j :: 0 <= i < j < |s| ==> s[i] != s[j]
  }

  /** Client `c` is the current one of key `k`. */
  predicate IsCurrent(s: CacheState, k: CacheKey, c: Client) {
    k in s.entries && s.entries[k].clientSet == c
  }

  /** Every built client is the current entry of exactly one key, or has been closed exactly once, and not both. */
  ghost predicate Conserved(s: CacheState) {
    && NoDuplicates(s.built) && NoDuplicates(s.closed)
    && (forall c :: c in s.closed ==> c in s.built)
    && (forall k, c :: IsCurrent(s, k, c) ==> c in s.built && c !in s.closed)
    && (forall k, l, c :: IsCurrent(s, k, c) && IsCurrent(s, l, c) ==> k == l)
    && (forall c :: c in s.built ==> c in s.closed || exists k :: IsCurrent(s, k, c))
  }

  /** A build that is invoked never returns a client it returned before. */
  predicate BuildsFresh(s: CacheState, c: Call) {
    !Hits(s, c) && c.build.Ok? ==> c.build.value !in s.built
  }

  lemma StepConserves(s: CacheState, c: Call)
    requires Conserved(s) && BuildsFresh(s, c)
    ensures Conserved(Step(s, c).0)
  {
    if !Hits(s, c) && c.build.Ok? {
      StaleWasOpen(s, c);
      EachClosedOnce(s, c);
      EachCurrentOfOneKey(s, c);
      NoneLeaked(s, c);
    }
  }

  /** What a call that builds closes and stores. */
  lemma BuildingStep(s: CacheState, c: Call)
    requires !Hits(s, c) && c.build.Ok?
    ensures var after := Step(s, c).0;
      && after.built == s.built + [c.build.value]
      && (forall x :: x in after.closed <==> x in s.closed || IsCurrent(s, c.key, x))
      && (forall k, x :: IsCurrent(after, k, x) <==> if k == c.key then x == c.build.value else IsCurrent(s, k, x))
  {
  }

  lemma EachClosedOnce(s: CacheState, c: Call)
    requires Conserved(s) && !Hits(s, c) && c.build.Ok?
    ensures NoDuplicates(Step(s, c).0.closed)
  {
    StaleWasOpen(s, c);
  }

  lemma EachCurrentOfOneKey(s: CacheState, c: Call)
    requires Conserved(s) && BuildsFresh(s, c) && !Hits(s, c) && c.build.Ok?
    ensures var after := Step(s, c).0;
      && (forall k, x :: IsCurrent(after, k, x) ==> x in after.built && x !in after.closed)
      && (forall k, l, x :: IsCurrent(after, k, x) && IsCurrent(after, l, x) ==> k == l)
  {
    BuildingStep(s, c);
  }

  lemma NoneLeaked(s: CacheState, c: Call)
    requires Conserved(s) && !Hits(s, c) && c.build.Ok?
    ensures var after := Step(s, c).0;
      forall x :: x in after.built ==> x in after.closed || exists k :: IsCurrent(after, k, x)
  {
    BuildingStep(s, c);
    var after := Step(s, c).0;
    forall x | x in after.built
      ensures x in after.closed || exists k :: IsCurrent(after, k, x)
    {
      if x == c.build.value {
        assert IsCurrent(after, c.key, x);
      } else if x !in after.closed {
        var k :| IsCurrent(s, k, x);
        assert IsCurrent(after, k, x);
      }
    }
  }

  lemma StaleWasOpen(s: CacheState, c: Call)
    requires Conserved(s)
    ensures c.key in s.entries ==> s.entries[c.key].clientSet in s.built && s.entries[c.key].clientSet !in s.closed
  {
    if c.key in s.entries {
      assert IsCurrent(s, c.key, s.entries[c.key].clientSet);
    }
  }

  function RunCalls(s: CacheState, calls: seq<Call>): CacheState {
    if calls == [] then s else Step(RunCalls(s, calls[..|calls| - 1]), calls[|calls| - 1]).0
  }

  /** For every sequence of calls whose builds are fresh, no client is leaked and none is closed twice. */
  lemma {:induction false} RunsConserve(calls: seq<Call>)
    requires forall i :: 0 <= i < |calls| ==> BuildsFresh(RunCalls(CacheState(map[], [], []), calls[..i]), calls[i])
    ensures Conserved(RunCalls(CacheState(map[], [], []), calls))
  {
    if calls != [] {
      var before := calls[..|calls| - 1];
      assert forall i :: 0 <= i < |before| ==> before[..i] == calls[..i] && before[i] == calls[i];
      RunsConserve(before);
      StepConserves(RunCalls(CacheState(map[], [], []), before), calls[|calls| - 1]);
    }
  }

  /**
   * A returned client is the stored one of the requested key and version, a hit invokes nothing, and a call
   * that returns no client changed and closed nothing.
   */
  lemma AnswerMatchesRequest(s: CacheState, c: Call)
    ensures var (after, answer) := Step(s, c);
      && (answer.client.Some? ==> c.key in after.entries && after.entries[c.key] == CachedClient(c.rv, answer.client.value))
      && (answer.client.None? ==> after == s && answer.err)
      && (answer.err <==> !Hits(s, c) && (c.build.Err? || (c.key in s.entries && c.closeFails)))
      && (Hits(s, c) ==> after == s && !answer.err)
      && (forall k :: k != c.key ==> (k in after.entries <==> k in s.entries) && (k in s.entries ==> after.entries[k] == s.entries[k]))
  {
  }

  /** An open client answered under the same version later is still the same client. */
  lemma RepeatedCallHits(s: CacheState, c: Call, again: Call)
    requires Step(s, c).1.client.Some? && again.key == c.key && again.rv == c.rv
    ensures Step(Step(s, c).0, again) == (Step(s, c).0, Answer(Step(s, c).1.client, false))
  {
  }
}
