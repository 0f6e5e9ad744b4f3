/**
 * pkg/k8s/utils/namespace_manager.go: the namespaces a scaler works on, read from the configuration, a
 * cache, or a listing, and filtered in place. Slices are modelled with the array they share.
 */
module Namespaces {
  import opened Prelude
  import opened Places

  const CACHE_TTL := 300_000_000_000
  const SYSTEM_NAMESPACES := {"kube-system"}

  /** A Go slice: a backing array and a length. */
  datatype Slice = Slice(data: array<string>, len: nat) {
    predicate Valid() {
      len <= data.Length
    }

    function Names(): seq<string>
      requires Valid()
      reads data
    {
      data[..len]
    }
  }

  /** `names` without the members of `dropped`, in order. */
  function Without(names: seq<string>, dropped: set<string>): (kept: seq<string>)
    ensures |kept| <= |names|
  {
    if names == [] then []
    else Without(names[..|names| - 1], dropped) + (if names[|names| - 1] in dropped then [] else [names[|names| - 1]])
  }

  lemma WithoutLast(before: seq<string>, last: string, dropped: set<string>)
    ensures Without(before + [last], dropped) == Without(before, dropped) + (if last in dropped then [] else [last])
  {
    assert (before + [last])[..|before|] == before;
  }

  lemma KeptOneMore(names: seq<string>, i: nat, dropped: set<string>)
    requires i < |names|
    ensures Without(names[..i + 1], dropped) == Without(names[..i], dropped) + (if names[i] in dropped then [] else [names[i]])
  {
    assert names[..i + 1] == names[..i] + [names[i]];
    WithoutLast(names[..i], names[i], dropped);
  }

  lemma {:induction false} WithoutTwice(names: seq<string>, a: set<string>, b: set<string>)
    ensures Without(Without(names, a), b) == Without(names, a + b)
  {
    if names != [] {
      var before, last := names[..|names| - 1], names[|names| - 1];
      WithoutTwice(before, a, b);
      WithoutLast(Without(before, a), last, b);
      assert Without(before, a) + [] == Without(before, a);
    }
  }

  lemma {:induction false} WithoutLength(names: seq<string>, dropped: set<string>)
    ensures |Without(names, dropped)| == |names| <==> forall n :: n in names ==> n !in dropped
    ensures (forall n :: n in names ==> n !in dropped) ==> Without(names, dropped) == names
  {
    if names != [] {
      var before, last := names[..|names| - 1], names[|names| - 1];
      WithoutLength(before, dropped);
      assert names == before + [last];
    }
  }

  /** Exactly the names that are not dropped remain. */
  lemma {:induction false} WithoutMembers(names: seq<string>, dropped: set<string>)
    ensures forall n :: n in Without(names, dropped) <==> n in names && n !in dropped
  {
    if names != [] {
      var before, last := names[..|names| - 1], names[|names| - 1];
      WithoutMembers(before, dropped);
      assert names == before + [last];
    }
  }

  function Blanks(n: nat): seq<string> {
    seq(n, i => "")
  }

  /** `kept` followed by zeroed elements, `n` in all. */
  function Padded(kept: seq<string>, n: nat): seq<string>
    requires |kept| <= n
  {
    kept + Blanks(n - |kept|)
  }

  lemma PadAgain(kept: seq<string>, m: nat, n: nat)
    requires |kept| <= m <= n
    ensures Padded(kept, m) + Blanks(n - m) == Padded(kept, n)
  {
  }

  /** What the old, longer slice shows after `slices.DeleteFunc`: the kept names, then zeroed elements. */
  function Compacted(names: seq<string>, dropped: set<string>): seq<string> {
    Padded(Without(names, dropped), |names|)
  }

  lemma CompactedTwice(names: seq<string>, a: set<string>, b: set<string>)
    ensures Compacted(Without(names, a), b) + Blanks(|names| - |Without(names, a)|) == Compacted(names, a + b)
  {
    WithoutTwice(names, a, b);
    PadAgain(Without(names, a + b), |Without(names, a)|, |names|);
  }

  lemma PaddingIsBlank(kept: seq<string>, n: nat)
    requires |kept| <= n
    ensures |Padded(kept, n)| == n && Padded(kept, n)[|kept|..] == Blanks(n - |kept|)
  {
  }

  /** The compacting loop of `slices.DeleteFunc`: moves the kept names to the front of the shared array. */
  method MoveKept(s: Slice, dropped: set<string>) returns (kept: nat)
    requires s.Valid()
    modifies s.data
    ensures kept <= s.len && s.data[..kept] == Without(old(s.Names()), dropped)
    ensures s.data[s.len..] == old(s.data[s.len..])
  {
    kept := 0;
    ghost var names, front := s.Names(), [];
    for i := 0 to s.len
      invariant kept == |front| <= i && front == Without(names[..i], dropped)
      invariant forall k :: 0 <= k < kept ==> s.data[k] == front[k]
      invariant forall k :: i <= k < s.data.Length ==> s.data[k] == old(s.data[k])
    {
      KeptOneMore(names, i, dropped);
      if s.data[i] !in dropped {
        s.data[kept] := s.data[i];
        kept, front := kept + 1, front + [names[i]];
      }
    }
    assert names[..s.len] == names;
  }

  /** `slices.DeleteFunc`: compacts the shared array and zeroes the elements that fall out. */
  method DeleteFunc(s: Slice, dropped: set<string>) returns (r: Slice)
    requires s.Valid()
    modifies s.data
    ensures r.data == s.data && r.Valid() && r.len <= s.len
    ensures r.Names() == Without(old(s.Names()), dropped)
    ensures s.Names() == Compacted(old(s.Names()), dropped)
    ensures s.data[s.len..] == old(s.data[s.len..])
  {
    var kept := MoveKept(s, dropped);
    ghost var result := s.data[..kept];
    for i := kept to s.len
      invariant s.data[..kept] == result
      invariant forall k :: kept <= k < i ==> s.data[k] == ""
      invariant s.data[s.len..] == old(s.data[s.len..])
    {
      s.data[i] := "";
    }
    r := Slice(s.data, kept);
    assert s.Names() == Padded(result, s.len);
  }

  /** `DeleteFunc`, which is not called when there is nothing to look for. */
  method DropFrom(s: Slice, dropped: set<string>) returns (r: Slice)
    requires s.Valid()
    modifies s.data
    ensures r.data == s.data && r.Valid() && r.len <= s.len
    ensures r.Names() == Without(old(s.Names()), dropped)
    ensures s.Names() == Compacted(old(s.Names()), dropped)
    ensures s.data[s.len..] == old(s.data[s.len..])
  {
    if dropped == {} {
      WithoutLength(s.Names(), dropped);
      r := s;
    } else {
      r := DeleteFunc(s, dropped);
    }
  }

  /** A fresh slice with the names that are not excluded: the copying loop of both cache paths. */
  method CopyWithout(names: array<string>, excluded: set<string>) returns (r: Slice)
    ensures r.Valid() && fresh(r.data) && r.Names() == Without(names[..], excluded)
  {
    var data := new string[names.Length](i => "");
    var n := 0;
    for i := 0 to names.Length
      invariant 0 <= n <= i
      invariant data[..n] == Without(names[..i], excluded)
    {
      assert names[..i + 1][..i] == names[..i];
      if names[i] !in excluded {
        data[n] := names[i];
        n := n + 1;
      }
    }
    assert names[..names.Length] == names[..];
    r := Slice(data, n);
  }

  /** The caller's configuration. `namespaces` aliases the scaler's own spec. */
  datatype Config = Config(namespaces: Slice, excludeNamespaces: set<string>, forceExcludeSystemNamespaces: bool)

  /** The listed names while they are cached, and until when. */
  datatype CacheView = CacheView(names: Option<seq<string>>, expiry: int)

  /** One call, on values: the configuration, the time, and what listing all namespaces would answer. */
  datatype Request = Request(explicit: seq<string>, excluded: set<string>, force: bool, now: int, listing: Option<seq<string>>)

  /** The names dropped at the end of every path. */
  function AlwaysDropped(own: string, force: bool): set<string> {
    (if force then SYSTEM_NAMESPACES else {}) + (if own == "" then {} else {own})
  }

  predicate Hits(view: CacheView, q: Request) {
    q.explicit == [] && view.names.Some? && q.now < view.expiry
  }

  /** What a call answers and leaves in the cache. */
  function Serve(own: string, view: CacheView, q: Request): (CacheView, Option<seq<string>>) {
    var always := AlwaysDropped(own, q.force);
    if q.explicit != [] then (view, Some(Without(q.explicit, always)))
    else if Hits(view, q) then (view, Some(Without(view.names.value, q.excluded + always)))
    else if q.listing.None? then (view, None)
    else (CacheView(q.listing, q.now + CACHE_TTL), Some(Without(q.listing.value, q.excluded + always)))
  }

  class NamespaceManager {
    const ownNamespace: string
    var cached: array?<string>
    var cacheExpiry: int

    constructor (ownNamespace: string)
      ensures this.ownNamespace == ownNamespace && cached == null
    {
      this.ownNamespace := ownNamespace;
      cached, cacheExpiry := null, 0;
    }

    ghost function View(): CacheView
      reads this, cached
    {
      CacheView(if cached == null then None else Some(cached[..]), cacheExpiry)
    }

    function Dropped(force: bool): set<string> {
      AlwaysDropped(ownNamespace, force)
    }

    /** `excludeSystemNamespaces` and `excludeOwnNamespace`, in place. */
    method ExcludeAlways(s: Slice, force: bool) returns (r: Slice)
      requires s.Valid()
      modifies s.data
      ensures r.data == s.data && r.Valid() && r.len <= s.len
      ensures r.Names() == Without(old(s.Names()), Dropped(force))
      ensures s.Names() == Compacted(old(s.Names()), Dropped(force))
    {
      ghost var names := s.Names();
      var system: set<string> := if force then SYSTEM_NAMESPACES else {};
      var own: set<string> := if ownNamespace == "" then {} else {ownNamespace};
      r := DropFrom(s, system);
      r := DropRest(s, r, names, system, own);
    }

    /** The second of two deletions on the same array. */
    method DropRest(s: Slice, middle: Slice, ghost names: seq<string>, ghost first: set<string>, second: set<string>) returns (r: Slice)
      requires s.Valid() && middle.data == s.data && middle.len <= s.len
      requires middle.Names() == Without(names, first) && s.Names() == Compacted(names, first)
      modifies s.data
      ensures r.data == s.data && r.Valid() && r.len <= s.len
      ensures r.Names() == Without(names, first + second)
      ensures s.Names() == Compacted(names, first + second)
    {
      WithoutTwice(names, first, second);
      PaddingIsBlank(Without(names, first), |names|);
      CompactedTwice(names, first, second);
      ghost var tail := s.data[middle.len..s.len];
      assert tail == s.Names()[middle.len..];
      r := DropFrom(middle, second);
      assert s.data[middle.len..s.len] == tail by {
        assert s.data[middle.len..s.len] == s.data[middle.len..][..s.len - middle.len];
      }
      assert s.Names() == middle.Names() + tail;
    }

    /** The cached names, after refreshing them when there are none or they expired; null if that fails. */
    method CachedOrListed(now: int, listing: Option<seq<string>>) returns (all: array?<string>)
      modifies this
      ensures all == null || (all == cached && (all == old(cached) || fresh(all)))
      ensures (if old(cached) != null && now < old(cacheExpiry) then all == cached == old(cached) && cacheExpiry == old(cacheExpiry)
               else if listing.None? then all == null && cached == old(cached) && cacheExpiry == old(cacheExpiry)
               else all != null && all[..] == listing.value && cacheExpiry == now + CACHE_TTL)
    {
      if cached == null || now >= cacheExpiry {
        if listing.None? {
          return null;
        }
        var allNames := new string[|listing.value|](i requires 0 <= i < |listing.value| => listing.value[i]);
        assert allNames[..] == listing.value;
        cached, cacheExpiry := allNames, now + CACHE_TTL;
      }
      return cached;
    }

    /** The path without an explicit list: every array it filters in place is fresh. */
    method SetFromListing(excluded: set<string>, force: bool, now: int, listing: Option<seq<string>>) returns (r: Option<Slice>)
      modifies this
      ensures r.Some? ==> r.value.Valid() && fresh(r.value.data)
      ensures (View(), if r.None? then None else Some(r.value.Names()))
           == Serve(ownNamespace, old(View()), Request([], excluded, force, now, listing))
    {
      var all := CachedOrListed(now, listing);
      if all == null {
        return None;
      }
      var nsList := CopyWithout(all, excluded);
      WithoutTwice(all[..], excluded, Dropped(force));
      var kept := ExcludeAlways(nsList, force);
      return Some(kept);
    }

    /**
     * `SetNamespaceList` at time `now`, with `listing` as the answer to listing all namespaces. The explicit
     * list is filtered in the caller's own array; the other paths work on a fresh one and leave the cache be.
     */
    method SetNamespaceList(config: Config, now: int, listing: Option<seq<string>>) returns (r: Option<Slice>)
      requires config.namespaces.Valid() && config.namespaces.data != cached
      modifies this, config.namespaces.data
      ensures r.Some? ==> r.value.Valid()
      ensures var q := Request(old(config.namespaces.Names()), config.excludeNamespaces, config.forceExcludeSystemNamespaces, now, listing);
        (View(), if r.None? then None else Some(r.value.Names())) == Serve(ownNamespace, old(View()), q)
      ensures (config.namespaces.len > 0 ==>
                && r.Some? && r.value.data == config.namespaces.data && cached == old(cached)
                && config.namespaces.Names() == Compacted(old(config.namespaces.Names()), Dropped(config.forceExcludeSystemNamespaces)))
      ensures config.namespaces.len == 0 ==> config.namespaces.data[..] == old(config.namespaces.data[..])
      ensures config.namespaces.len == 0 && r.Some? ==> fresh(r.value.data)
    {
      if config.namespaces.len > 0 {
        var kept := ExcludeAlways(config.namespaces, config.forceExcludeSystemNamespaces);
        return Some(kept);
      }
      r := SetFromListing(config.excludeNamespaces, config.forceExcludeSystemNamespaces, now, listing);
    }

    /** The same configuration value twice, as for two resource types: the explicit list was compacted between. */
    method CallTwice(config: Config, now: int) returns (first: seq<string>, second: seq<string>)
      requires config.namespaces.Valid() && config.namespaces.data != cached && config.namespaces.len > 0
      modifies this, config.namespaces.data
      ensures var names, dropped := old(config.namespaces.Names()), Dropped(config.forceExcludeSystemNamespaces);
        first == Without(names, dropped) && second == Without(Compacted(names, dropped), dropped)
    {
      var a := SetNamespaceList(config, now, None);
      first := a.value.Names();
      var b := SetNamespaceList(config, now, None);
      second := b.value.Names();
    }
  }

  // ---- what a call answers ----

  /** The names a call starts from, if it has any. */
  function Source(view: CacheView, q: Request): Option<seq<string>> {
    if q.explicit != [] then Some(q.explicit) else if Hits(view, q) then view.names else q.listing
  }

  /** The name is excluded by the configuration, as long as no explicit list is given, or as a system or own namespace. */
  predicate Excludes(own: string, q: Request, n: string) {
    (q.explicit == [] && n in q.excluded) || (q.force && n == "kube-system") || (own != "" && n == own)
  }

  /** An answer has exactly the names of its source that are not excluded; there is none exactly if there is no source. */
  lemma ServedNames(own: string, view: CacheView, q: Request, n: string)
    ensures var answer := Serve(own, view, q).1;
      && (answer.Some? <==> Source(view, q).Some?)
      && (answer.Some? ==> (n in answer.value <==> n in Source(view, q).value && !Excludes(own, q, n)))
  {
    if Source(view, q).Some? {
      var always := AlwaysDropped(own, q.force);
      WithoutMembers(Source(view, q).value, if q.explicit != [] then always else q.excluded + always);
    }
  }

  /** A listing that was taken is used for five minutes, and no longer. */
  lemma ListingLastsFiveMinutes(own: string, view: CacheView, q: Request, again: Request)
    requires q.explicit == [] && !Hits(view, q) && q.listing.Some? && again.explicit == []
    ensures Hits(Serve(own, view, q).0, again) <==> again.now < q.now + 5 * 60 * 1_000_000_000
    ensures Source(Serve(own, view, q).0, again) == if again.now < q.now + 5 * 60 * 1_000_000_000 then q.listing else again.listing
  {
  }

  function NotIn(dropped: set<string>): string -> bool {
    (n: string) => n !in dropped
  }

  lemma {:induction false} WithoutIsKept(names: seq<string>, dropped: set<string>)
    ensures Without(names, dropped) == Kept(names, NotIn(dropped))
    decreases |names|
  {
    if names != [] {
      WithoutIsKept(names[..|names| - 1], dropped);
    }
  }

  /** What remains is in order, each name as often as it was. */
  lemma WithoutKeepsOrder(names: seq<string>, dropped: set<string>) returns (at: seq<nat>)
    ensures AreIndexes(names, NotIn(dropped), Without(names, dropped), at)
  {
    WithoutIsKept(names, dropped);
    at := KeptIndexes(names, NotIn(dropped));
  }

  // ---- agreement of the cache with a listing ----

  const EMPTY_CACHE := CacheView(None, 0)

  function CacheAfter(own: string, calls: seq<Request>): CacheView {
    if calls == [] then EMPTY_CACHE
    else Serve(own, CacheAfter(own, calls[..|calls| - 1]), calls[|calls| - 1]).0
  }

  /** Call `i` took the listing that is in the cache. */
  predicate CameFrom(view: CacheView, calls: seq<Request>, i: nat) {
    i < |calls| && calls[i].explicit == [] && view == CacheView(calls[i].listing, calls[i].now + CACHE_TTL)
  }

  /** Whatever exclusions the calls had, the cache holds one call's whole listing. */
  lemma {:induction false} CacheIsSomeListing(own: string, calls: seq<Request>)
    ensures var view := CacheAfter(own, calls);
      view == EMPTY_CACHE || exists i :: CameFrom(view, calls, i)
  {
    if calls != [] {
      var before, q := calls[..|calls| - 1], calls[|calls| - 1];
      CacheIsSomeListing(own, before);
      var view := CacheAfter(own, before);
      if Serve(own, view, q).0 == view {
        if view != EMPTY_CACHE {
          var i :| CameFrom(view, before, i);
          assert CameFrom(view, calls, i);
        }
      } else {
        assert CameFrom(Serve(own, view, q).0, calls, |calls| - 1);
      }
    }
  }

  /**
   * Cache agreement over any sequence of calls: a hit answers what a miss would have answered for the listing
   * that some earlier call took less than the cache's lifetime ago.
   */
  lemma HitAgreesWithListing(own: string, calls: seq<Request>, q: Request) returns (i: nat)
    requires Hits(CacheAfter(own, calls), q)
    ensures i < |calls| && calls[i].listing.Some? && q.now < calls[i].now + 5 * 60 * 1_000_000_000
    ensures Serve(own, CacheAfter(own, calls), q).1 == Serve(own, EMPTY_CACHE, q.(listing := calls[i].listing)).1
    ensures Serve(own, CacheAfter(own, calls), q).0 == CacheAfter(own, calls)
  {
    CacheIsSomeListing(own, calls);
    i :| CameFrom(CacheAfter(own, calls), calls, i);
  }

  lemma OneMoreBlank(before: seq<string>, n: nat)
    requires n > 0
    ensures before + Blanks(n) == before + Blanks(n - 1) + [""]
  {
  }

  lemma {:induction false} WithoutOfBlanks(names: seq<string>, n: nat, dropped: set<string>)
    requires "" !in dropped
    ensures Without(names + Blanks(n), dropped) == Without(names, dropped) + Blanks(n)
    decreases n
  {
    if n == 0 {
      assert names + Blanks(0) == names;
    } else {
      WithoutOfBlanks(names, n - 1, dropped);
      WithoutLast(names + Blanks(n - 1), "", dropped);
      OneMoreBlank(names, n);
      OneMoreBlank(Without(names, dropped), n);
    }
  }

  /**
   * With an explicit list, the second resource type of a pass gets the same namespaces as the first exactly
   * when nothing had to be dropped. Otherwise it also gets an empty name, which selects every namespace.
   */
  lemma SecondCallAgreesExactlyWhen(names: seq<string>, dropped: set<string>)
    requires "" !in dropped
    ensures var first, second := Without(names, dropped), Without(Compacted(names, dropped), dropped);
      && (second == first <==> forall n :: n in names ==> n !in dropped)
      && (second != first ==> "" in second)
  {
    WithoutLength(names, dropped);
    var kept := Without(names, dropped);
    WithoutMembers(names, dropped);
    WithoutLength(kept, dropped);
    WithoutOfBlanks(kept, |names| - |kept|, dropped);
    var second := Without(Compacted(names, dropped), dropped);
    assert second == kept + Blanks(|names| - |kept|);
    if |kept| < |names| {
      assert second[|kept|] == "";
    }
  }
}
