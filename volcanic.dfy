/**
 * Volcanic affix detector: when the affix is active, the first volcanic-spike damage
 * event taken by each player.
 */
module Volcanic {
  import opened Wrappers
  import opened Events
  import Seqs
  import PlayerReducer

  /**
   * A member of the run's `Affixes` set. Only Volcanic matters to this detector, so every
   * other affix is the one value `OtherAffix`, and Volcanic has a single representation.
   */
  datatype Affix = VolcanicAffix | OtherAffix

  const VOLCANIC := 209862

  /** The event query sent upstream: volcanic damage taken by players. */
  const FilterExpression: seq<EventSpec> := [EventSpec(Damage, {VOLCANIC})]

  /** A damage event that carries an ability id, and that id is the volcanic spike. */
  predicate IsVolcanicEvent(e: Event)
    ensures IsVolcanicEvent(e) <==> IsSpecificEvent(FilterExpression[0], e)
  {
    e.kind == Damage && e.abilityGameID.Some? && e.abilityGameID.value == VOLCANIC
  }

  /** The Volcanic hits of a run, in input order. */
  function VolcanicEvents(allEvents: seq<Event>): (r: seq<Event>)
    ensures forall x :: x in r <==> x in allEvents && IsVolcanicEvent(x)
    ensures Seqs.IsSubsequence(r, allEvents)
  {
    Seqs.FilterIsSubsequence(allEvents, IsVolcanicEvent);
    Seqs.Filter(allEvents, IsVolcanicEvent)
  }

  function GetVolcanicEvents(allEvents: seq<Event>, affixSet: set<Affix>): (r: seq<Event>)
    ensures VolcanicAffix !in affixSet ==> r == []
    ensures forall x :: x in r ==> x.kind == Damage && x.abilityGameID == Some(VOLCANIC)
    ensures forall i, j :: 0 <= i < j < |r| ==> r[i].targetID != r[j].targetID
    ensures Seqs.IsSubsequence(r, allEvents)
  {
    if VolcanicAffix !in affixSet then []
    else
      var hits := VolcanicEvents(allEvents);
      PlayerReducer.FirstPerKeySubsequence(hits, TargetID);
      Seqs.FilterIsSubsequence(allEvents, IsVolcanicEvent);
      Seqs.SubsequenceTransitive(PlayerReducer.FirstPerKey(hits, TargetID), hits, allEvents);
      Seqs.SubsequenceMembers(PlayerReducer.FirstPerKey(hits, TargetID), hits);
      PlayerReducer.FirstPerKey(hits, TargetID)
  }

  /**
   * With the affix active, each reported event is the first volcanic hit on its target,
   * and every target hit by a volcanic spike has its first hit reported.
   */
  lemma FirstHitPerTarget(allEvents: seq<Event>, affixSet: set<Affix>)
    requires VolcanicAffix in affixSet
    ensures var hits := VolcanicEvents(allEvents);
      var r := GetVolcanicEvents(allEvents, affixSet);
      && (forall x :: x in r ==>
            var i := PlayerReducer.FirstIndexOfKey(hits, TargetID, x.targetID);
            0 <= i && hits[i] == x)
      && (forall j :: 0 <= j < |hits| ==>
            var i := PlayerReducer.FirstIndexOfKey(hits, TargetID, hits[j].targetID);
            0 <= i && hits[i] in r)
  {
    var hits := VolcanicEvents(allEvents);
    PlayerReducer.FirstPerKeyKeepsFirst(hits, TargetID);
    forall j | 0 <= j < |hits|
      ensures var i := PlayerReducer.FirstIndexOfKey(hits, TargetID, hits[j].targetID);
        0 <= i && hits[i] in GetVolcanicEvents(allEvents, affixSet)
    {
      PlayerReducer.FirstOfEveryKeyKept(hits, TargetID, j);
    }
  }

  /** Two hits on the same player from the same spike reduce to the earlier one. */
  lemma SamePlayerExample(a: Event, b: Event)
    requires IsVolcanicEvent(a) && IsVolcanicEvent(b)
    requires a.targetID == b.targetID && a.timestamp == 100 && b.timestamp == 200
    ensures GetVolcanicEvents([a, b], {VolcanicAffix}) == [a]
  {
    assert [a, b][..1] == [a];
    assert Seqs.Filter([a], IsVolcanicEvent) == [a];
    assert VolcanicEvents([a, b]) == [a, b];
    assert PlayerReducer.FirstPerKey([a], TargetID) == [a];
    assert PlayerReducer.FirstPerKey([a, b], TargetID) == [a];
  }
}
