/** internal/controller/flow/service/resource_creator.go: the child objects of a flow. */
module FlowCreator {
  import opened Prelude
  import opened PeriodTypes
  import opened FlowTypes
  import opened FlowTime

  const MAX_NAME_LENGTH := 253

  /** The ten hexadecimal characters kept of a SHA-256 sum. */
  type ShortHash = s: string | |s| == 10 witness "0000000000"

  function NaiveName(flowName: string, resourceName: string): string {
    "flow-" + flowName + "-" + resourceName
  }

  function ChildName(flowName: string, resourceName: string, sha: string -> ShortHash): (name: string)
    ensures |name| <= MAX_NAME_LENGTH
    ensures |NaiveName(flowName, resourceName)| <= MAX_NAME_LENGTH ==> name == NaiveName(flowName, resourceName)
  {
    var name := NaiveName(flowName, resourceName);
    if |name| <= MAX_NAME_LENGTH then name
    else
      var suffix := "-" + sha(flowName + "\0" + resourceName);
      name[..MAX_NAME_LENGTH - |suffix|] + suffix
  }

  /** A name that is too long keeps as much of itself as fits before a dash and the hash of the two parts. */
  lemma LongChildName(flowName: string, resourceName: string, sha: string -> ShortHash)
    requires |NaiveName(flowName, resourceName)| > 253
    ensures var name := ChildName(flowName, resourceName, sha);
      && |name| == 253 && name[..242] == ("flow-" + flowName + "-" + resourceName)[..242]
      && name[242] == '-' && name[243..] == sha(flowName + "\0" + resourceName)
  {
  }

  /** Within one flow, names that need no truncation are distinct for distinct resources. */
  lemma ChildNamesDiffer(flowName: string, r: string, q: string, sha: string -> ShortHash)
    requires r != q
    requires |NaiveName(flowName, r)| <= MAX_NAME_LENGTH && |NaiveName(flowName, q)| <= MAX_NAME_LENGTH
    ensures ChildName(flowName, r, sha) != ChildName(flowName, q, sha)
  {
    var skip := |"flow-" + flowName + "-"|;
    assert NaiveName(flowName, r)[skip..] == r && NaiveName(flowName, q)[skip..] == q;
  }

  /** The one way in which two flows can reach the same text: the dash between the parts is ambiguous. */
  ghost predicate Overlap(f: string, r: string, g: string, q: string) {
    exists t :: g == f + "-" + t && r == t + "-" + q
  }

  lemma OverlapCollides(f: string, r: string, g: string, q: string)
    requires Overlap(f, r, g, q)
    ensures NaiveName(f, r) == NaiveName(g, q)
  {
    var t :| g == f + "-" + t && r == t + "-" + q;
    assert NaiveName(f, r) == "flow-" + f + "-" + t + "-" + q;
  }

  lemma ShorterFlowOverlaps(f: string, r: string, g: string, q: string)
    requires NaiveName(f, r) == NaiveName(g, q) && |f| < |g|
    ensures Overlap(f, r, g, q)
  {
    var n := NaiveName(f, r);
    var t := g[|f| + 1..];
    assert n[5..][..|f|] == f && n[5..][..|g|] == g && n[5..] == f + "-" + r && n[5..] == g + "-" + q;
    assert g[..|f|] == f && g[|f|] == '-';
    assert g == f + "-" + t;
    assert n[5..][|f| + 1..] == r && n[5..][|f| + 1..] == t + "-" + q;
  }

  /**
   * Across flows, untruncated child names are equal exactly for the same pair, or when one flow's name
   * continues the other's with a dash and the resources make up the difference: flow "a" with resource
   * "b-c", and flow "a-b" with resource "c", write the same child.
   */
  lemma NamesCollideExactlyWhen(f: string, r: string, g: string, q: string)
    ensures NaiveName(f, r) == NaiveName(g, q) <==> (f == g && r == q) || Overlap(f, r, g, q) || Overlap(g, q, f, r)
  {
    if NaiveName(f, r) == NaiveName(g, q) {
      if |f| < |g| {
        ShorterFlowOverlaps(f, r, g, q);
      } else if |g| < |f| {
        ShorterFlowOverlaps(g, q, f, r);
      } else {
        var skip := 5 + |f|;
        assert NaiveName(f, r)[5..skip] == f && NaiveName(g, q)[5..skip] == g;
        assert NaiveName(f, r)[skip + 1..] == r && NaiveName(g, q)[skip + 1..] == q;
      }
    }
    if Overlap(f, r, g, q) {
      OverlapCollides(f, r, g, q);
    }
    if Overlap(g, q, f, r) {
      OverlapCollides(g, q, f, r);
    }
  }

  datatype ChildKey = ChildKey(kind: ResourceKind, name: string)

  datatype ChildSpec = ChildSpec(dryRun: bool, periods: seq<ScalerPeriod>, settings: Settings)

  datatype Child = Child(labels: map<string, string>, annotations: map<string, string>, spec: ChildSpec, owner: Option<string>)

  /** What the flow wants the child of a resource to be. */
  function Desired(flow: Flow, name: string, declared: DeclaredResource, periods: seq<PeriodWithDelay>): Child {
    Child(map["flow" := flow.name, "resource" := name], map[], ChildSpec(false, RewrittenAll(periods), declared.settings), Some(flow.name))
  }

  /** Create, or overlay on what is stored: foreign labels, annotations and an existing owner stay. */
  function Merged(existing: Option<Child>, desired: Child): Child {
    match existing
    case None => desired
    case Some(e) => Child(e.labels + desired.labels, e.annotations + desired.annotations, desired.spec, e.owner)
  }

  /**
   * Whatever was stored: after an overlay the spec is the desired one, and every desired label and annotation
   * has its desired value. A new child is owned by the flow; the owner of a stored one is not changed.
   */
  lemma MergedIsDesired(existing: Option<Child>, desired: Child)
    ensures var child := Merged(existing, desired);
      && child.spec == desired.spec
      && (forall key :: key in desired.labels ==> key in child.labels && child.labels[key] == desired.labels[key])
      && (forall key :: key in desired.annotations ==> key in child.annotations && child.annotations[key] == desired.annotations[key])
      && child.owner == (if existing.Some? then existing.value.owner else desired.owner)
  {
  }

  lemma MergedTwice(existing: Option<Child>, desired: Child)
    ensures Merged(Some(Merged(existing, desired)), desired) == Merged(existing, desired)
  {
    var once := Merged(existing, desired);
    assert once.labels + desired.labels == once.labels;
    assert once.annotations + desired.annotations == once.annotations;
  }

  lemma MergedKeepsForeign(e: Child, desired: Child, key: string)
    ensures key in e.labels && key !in desired.labels ==>
      key in Merged(Some(e), desired).labels && Merged(Some(e), desired).labels[key] == e.labels[key]
    ensures key in e.annotations && key !in desired.annotations ==>
      key in Merged(Some(e), desired).annotations && Merged(Some(e), desired).annotations[key] == e.annotations[key]
  {
  }

  /** What becomes of one owner reference and one create-or-update. A failed write may still have been stored. */
  datatype WriteFate = Accepted | Refused | AcceptedButReported | NoOwnerReference

  type Children = map<ChildKey, Child>

  function ChildAt(children: Children, key: ChildKey): Option<Child> {
    if key in children then Some(children[key]) else None
  }

  class ChildStore {
    var children: Children

    constructor (children: Children)
      ensures this.children == children
    {
      this.children := children;
    }
  }

  predicate Lands(fate: WriteFate) {
    fate.Accepted? || fate.AcceptedButReported?
  }

  /** `createOrUpdateResource`: read the stored child, merge label by label, and write when that changes it. */
  method CreateOrUpdate(store: ChildStore, key: ChildKey, desired: Child, fate: WriteFate) returns (err: Option<FlowError>)
    modifies store
    ensures store.children == if Lands(fate) then old(store.children)[key := Merged(ChildAt(old(store.children), key), desired)] else old(store.children)
    ensures err == if fate.Accepted? then None else Some(ApiError)
  {
    if !Lands(fate) {
      return Some(ApiError);
    }
    if key !in store.children {
      store.children := store.children[key := desired];
    } else {
      var e := store.children[key];
      var obj := Child(e.labels + desired.labels, e.annotations + desired.annotations, desired.spec, e.owner);
      if obj != e {
        store.children := store.children[key := obj];
      } else {
        assert store.children[key := obj] == store.children;
      }
    }
    return if fate.Accepted? then None else Some(ApiError);
  }

  /** `CreateK8sResource` and `CreateGcpResource`, which differ in the kind of the object only. */
  method CreateChild(store: ChildStore, flow: Flow, kind: ResourceKind, name: string, declared: DeclaredResource, periods: seq<PeriodWithDelay>,
                     sha: string -> ShortHash, fate: WriteFate)
    returns (err: Option<FlowError>)
    modifies store
    ensures var key := ChildKey(kind, ChildName(flow.name, name, sha));
      store.children ==
        if Lands(fate) then old(store.children)[key := Merged(ChildAt(old(store.children), key), Desired(flow, name, declared, periods))]
        else old(store.children)
    ensures err == if fate.Accepted? then None else Some(ApiError)
  {
    var allPeriods := BuildPeriods(periods);
    var labels := map["flow" := flow.name, "resource" := name];
    if fate.NoOwnerReference? {
      return Some(ApiError);
    }
    var obj := Child(labels, map[], ChildSpec(false, allPeriods, declared.settings), Some(flow.name));
    err := CreateOrUpdate(store, ChildKey(kind, ChildName(flow.name, name, sha)), obj, fate);
  }
}
