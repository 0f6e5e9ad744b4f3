/** The order and the multiplicity in which the objects of a call are listed. */
module ListingOrder {
  import opened Processor
  import opened Places

  /** The listings of the namespaces, one row each. */
  function Rows(nsList: seq<string>, api: ApiBehaviour): seq<seq<ObjectRef>> {
    seq(|nsList|, i requires 0 <= i < |nsList| => if api.List(nsList[i]).Listed? then api.List(nsList[i]).items else [])
  }

  function IsAsked(names: seq<string>): ObjectRef -> bool {
    (ref: ObjectRef) => names == [] || ref.name in names
  }

  lemma {:induction false} AllListedIsFlat(nsList: seq<string>, api: ApiBehaviour)
    requires AllListed(nsList, api).Some?
    ensures AllListed(nsList, api).value == Flat(Rows(nsList, api))
    decreases |nsList|
  {
    if nsList != [] {
      var before := nsList[..|nsList| - 1];
      AllListedIsFlat(before, api);
      assert Rows(nsList, api)[..|nsList| - 1] == Rows(before, api);
    }
  }

  lemma {:induction false} NamedIsKept(names: seq<string>, refs: seq<ObjectRef>)
    requires names != []
    ensures Named(names, refs) == Kept(refs, IsAsked(names))
    decreases |refs|
  {
    if refs != [] {
      NamedIsKept(names, refs[..|refs| - 1]);
    }
  }

  lemma {:induction false} AllAreKept(refs: seq<ObjectRef>)
    ensures Kept(refs, IsAsked([])) == refs
    decreases |refs|
  {
    if refs != [] {
      AllAreKept(refs[..|refs| - 1]);
    }
  }

  /**
   * The result of listing is made of the asked items at certain places of the listings: all such places, in the
   * order of the namespaces and of each listing, each once. So order and multiplicity are those of the listings.
   */
  lemma TargetsKeepOrder(nsList: seq<string>, names: seq<string>, api: ApiBehaviour) returns (places: seq<Place>)
    requires Targets(nsList, names, api).Some?
    ensures AreTheAsked(Rows(nsList, api), IsAsked(names), Targets(nsList, names, api).value, places)
  {
    AllListedIsFlat(nsList, api);
    if names == [] {
      AllAreKept(Flat(Rows(nsList, api)));
    } else {
      NamedIsKept(names, Flat(Rows(nsList, api)));
    }
    places := KeptPlaces(Rows(nsList, api), IsAsked(names));
  }
}
