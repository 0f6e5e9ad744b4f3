/** The order in which the mentions of a resource become the periods of its child. */
module MentionOrder {
  import opened FlowTypes
  import opened FlowMapper
  import opened FlowProcessor
  import opened Places

  /** The mentions of the flow items, one row each. */
  function Rows(flows: seq<FlowItem>): seq<seq<Mention>> {
    seq(|flows|, i requires 0 <= i < |flows| =>
      seq(|flows[i].resources|, j requires 0 <= j < |flows[i].resources| => Mention(flows[i].periodName, flows[i].resources[j])))
  }

  function IsOf(name: string): Mention -> bool {
    (m: Mention) => m.resource.name == name
  }

  lemma {:induction false} AllMentionsIsFlat(flows: seq<FlowItem>)
    ensures AllMentions(flows) == Flat(Rows(flows))
    decreases |flows|
  {
    if flows != [] {
      var before, last := flows[..|flows| - 1], flows[|flows| - 1];
      AllMentionsIsFlat(before);
      assert Rows(flows)[..|flows| - 1] == Rows(before);
      assert Rows(flows)[|flows| - 1] == MentionsOf(last);
    }
  }

  lemma {:induction false} NamedIsKept(mentions: seq<Mention>, name: string)
    ensures MentionsNamed(mentions, name) == Kept(mentions, IsOf(name))
    decreases |mentions|
  {
    if mentions != [] {
      NamedIsKept(mentions[..|mentions| - 1], name);
    }
  }

  /**
   * The mentions of a resource, which its child has one period each for: all its mentions in the flow items, in
   * the order of the items and of the resources in each, each once.
   */
  lemma OwnMentionsInOrder(flow: Flow, name: string) returns (places: seq<Place>)
    ensures AreTheAsked(Rows(flow.flows), IsOf(name), OwnMentions(flow, name), places)
  {
    AllMentionsIsFlat(flow.flows);
    NamedIsKept(AllMentions(flow.flows), name);
    places := KeptPlaces(Rows(flow.flows), IsOf(name));
  }
}
