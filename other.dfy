/**
 * Profession and consumable usage: leatherworking drums, invisibility consumables and
 * the engineering battle-resurrection device.
 */
module Professions {
  import opened Wrappers
  import opened Events
  import Seqs

  const DIMENSIONAL_SHIFTER := 321422
  const POTION_OF_THE_HIDDEN_SPIRIT := 307195
  const ENGINEERING_BATTLE_REZ := 345130
  const LEATHERWORKING_DRUMS := 309658

  const DrumsSpec := EventSpec(ApplyBuff, {LEATHERWORKING_DRUMS})
  const InvisibilitySpec := EventSpec(ApplyBuff, {DIMENSIONAL_SHIFTER, POTION_OF_THE_HIDDEN_SPIRIT})
  const BattleRezSpec := EventSpec(Cast, {ENGINEERING_BATTLE_REZ})

  predicate IsLeatherworkingDrumsEvent(e: Event)
    ensures IsLeatherworkingDrumsEvent(e) <==>
      e.kind == ApplyBuff && e.abilityGameID == Some(LEATHERWORKING_DRUMS)
  {
    IsSpecificEvent(DrumsSpec, e)
  }

  /** The id list is used as a set: either consumable matches. */
  predicate IsInvisibilityEvent(e: Event)
    ensures IsInvisibilityEvent(e) <==>
      e.kind == ApplyBuff &&
      (e.abilityGameID == Some(DIMENSIONAL_SHIFTER) || e.abilityGameID == Some(POTION_OF_THE_HIDDEN_SPIRIT))
  {
    IsSpecificEvent(InvisibilitySpec, e)
  }

  predicate IsEngineeringBattleRezEvent(e: Event)
    ensures IsEngineeringBattleRezEvent(e) <==>
      e.kind == Cast && e.abilityGameID == Some(ENGINEERING_BATTLE_REZ)
  {
    IsSpecificEvent(BattleRezSpec, e)
  }

  /** No event satisfies two of the three classifiers. */
  lemma ClassifiersDisjoint(e: Event)
    ensures !(IsLeatherworkingDrumsEvent(e) && IsInvisibilityEvent(e))
    ensures !(IsLeatherworkingDrumsEvent(e) && IsEngineeringBattleRezEvent(e))
    ensures !(IsInvisibilityEvent(e) && IsEngineeringBattleRezEvent(e))
  {
  }

  /** All drums events, then all invisibility events, then all battle-rez events. */
  function FilterProfessionEvents(allEvents: seq<Event>): (r: seq<Event>)
    ensures forall x :: x in r <==>
      x in allEvents &&
      (IsLeatherworkingDrumsEvent(x) || IsInvisibilityEvent(x) || IsEngineeringBattleRezEvent(x))
    ensures multiset(r) <= multiset(allEvents)
    ensures |r| <= |allEvents|
  {
    var drums := Seqs.Filter(allEvents, IsLeatherworkingDrumsEvent);
    var invisibility := Seqs.Filter(allEvents, IsInvisibilityEvent);
    var battleRez := Seqs.Filter(allEvents, IsEngineeringBattleRezEvent);
    forall x | x in allEvents
      ensures !(IsLeatherworkingDrumsEvent(x) && IsInvisibilityEvent(x))
      ensures !(IsLeatherworkingDrumsEvent(x) && IsEngineeringBattleRezEvent(x))
      ensures !(IsInvisibilityEvent(x) && IsEngineeringBattleRezEvent(x))
    {
      ClassifiersDisjoint(x);
    }
    Seqs.DisjointFiltersBounded(allEvents, IsLeatherworkingDrumsEvent, IsInvisibilityEvent, IsEngineeringBattleRezEvent);
    assert multiset(drums + invisibility + battleRez) == multiset(drums) + multiset(invisibility) + multiset(battleRez);
    Seqs.MultisetSubsetLength(drums + invisibility + battleRez, allEvents);
    drums + invisibility + battleRez
  }

  /** The result is three consecutive groups: drums, then invisibility, then battle-rez. */
  lemma ProfessionEventGroups(allEvents: seq<Event>)
    ensures var r := FilterProfessionEvents(allEvents);
      var d := |Seqs.Filter(allEvents, IsLeatherworkingDrumsEvent)|;
      var i := |Seqs.Filter(allEvents, IsInvisibilityEvent)|;
      && d + i <= |r|
      && (forall k :: 0 <= k < d ==> IsLeatherworkingDrumsEvent(r[k]))
      && (forall k :: d <= k < d + i ==> IsInvisibilityEvent(r[k]))
      && (forall k :: d + i <= k < |r| ==> IsEngineeringBattleRezEvent(r[k]))
  {
    var drums := Seqs.Filter(allEvents, IsLeatherworkingDrumsEvent);
    var invisibility := Seqs.Filter(allEvents, IsInvisibilityEvent);
    var battleRez := Seqs.Filter(allEvents, IsEngineeringBattleRezEvent);
    var r := FilterProfessionEvents(allEvents);
    var d, i := |drums|, |invisibility|;
    assert forall k :: 0 <= k < d ==> r[k] == drums[k];
    assert forall k :: d <= k < d + i ==> r[k] == invisibility[k - d];
    assert forall k :: d + i <= k < |r| ==> r[k] == battleRez[k - d - i];
  }

  /** Each group keeps input order: it is a subsequence of the input, not re-sorted by time. */
  lemma ProfessionEventGroupsInInputOrder(allEvents: seq<Event>)
    ensures var r := FilterProfessionEvents(allEvents);
      var d := |Seqs.Filter(allEvents, IsLeatherworkingDrumsEvent)|;
      var i := |Seqs.Filter(allEvents, IsInvisibilityEvent)|;
      && d + i <= |r|
      && Seqs.IsSubsequence(r[..d], allEvents)
      && Seqs.IsSubsequence(r[d..d + i], allEvents)
      && Seqs.IsSubsequence(r[d + i..], allEvents)
  {
    var drums := Seqs.Filter(allEvents, IsLeatherworkingDrumsEvent);
    var invisibility := Seqs.Filter(allEvents, IsInvisibilityEvent);
    var battleRez := Seqs.Filter(allEvents, IsEngineeringBattleRezEvent);
    var r := FilterProfessionEvents(allEvents);
    var d, i := |drums|, |invisibility|;
    assert r[..d] == drums;
    assert r[d..d + i] == invisibility;
    assert r[d + i..] == battleRez;
    Seqs.FilterIsSubsequence(allEvents, IsLeatherworkingDrumsEvent);
    Seqs.FilterIsSubsequence(allEvents, IsInvisibilityEvent);
    Seqs.FilterIsSubsequence(allEvents, IsEngineeringBattleRezEvent);
  }

  /** An invisibility at 1 ms before drums at 2 ms comes out after the drums. */
  lemma GroupsNotSortedByTime(potion: Event, drums: Event)
    requires potion == Event(ApplyBuff, 1, 7, 7, Some(POTION_OF_THE_HIDDEN_SPIRIT), None)
    requires drums == Event(ApplyBuff, 2, 7, 7, Some(LEATHERWORKING_DRUMS), None)
    ensures FilterProfessionEvents([potion, drums]) == [drums, potion]
  {
    assert [potion, drums][..1] == [potion];
    assert Seqs.Filter([potion], IsLeatherworkingDrumsEvent) == [];
    assert Seqs.Filter([potion], IsInvisibilityEvent) == [potion];
    assert Seqs.Filter([potion], IsEngineeringBattleRezEvent) == [];
  }
}
