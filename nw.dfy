/** The Necrotic Wake: ids and classifiers of the dungeon's usable items. */
module NecroticWake {
  import opened Wrappers
  import opened Events

  const ORB := 328406
  const HAMMER := 328128
  const SPEAR := 328351
  const KYRIAN_ORB_HEAL := 344422
  const KYRIAN_ORB_DAMAGE := 344421

  const OrbSpec := EventSpec(Damage, {ORB})
  const HammerSpec := EventSpec(Damage, {HAMMER})
  const SpearSpec := EventSpec(Damage, {SPEAR})
  const KyrianOrbHealSpec := EventSpec(Heal, {KYRIAN_ORB_HEAL})
  const KyrianOrbDamageSpec := EventSpec(Damage, {KYRIAN_ORB_DAMAGE})

  /**
   * The event queries sent upstream, in their listed order; each also restricts the
   * source to players, a condition the classifiers below do not check.
   */
  const FilterExpression: seq<EventSpec> :=
    [OrbSpec, HammerSpec, SpearSpec, KyrianOrbHealSpec, KyrianOrbDamageSpec]

  predicate IsNwSpearEvent(e: Event)
    ensures IsNwSpearEvent(e) <==> e.kind == Damage && e.abilityGameID == Some(SPEAR)
  {
    IsSpecificEvent(SpearSpec, e)
  }

  predicate IsNwHammerEvent(e: Event)
    ensures IsNwHammerEvent(e) <==> e.kind == Damage && e.abilityGameID == Some(HAMMER)
  {
    IsSpecificEvent(HammerSpec, e)
  }

  predicate IsNwOrbEvent(e: Event)
    ensures IsNwOrbEvent(e) <==> e.kind == Damage && e.abilityGameID == Some(ORB)
  {
    IsSpecificEvent(OrbSpec, e)
  }

  predicate IsNwKyrianOrbDamageEvent(e: Event)
    ensures IsNwKyrianOrbDamageEvent(e) <==> e.kind == Damage && e.abilityGameID == Some(KYRIAN_ORB_DAMAGE)
  {
    IsSpecificEvent(KyrianOrbDamageSpec, e)
  }

  predicate IsNwKyrianOrbHealEvent(e: Event)
    ensures IsNwKyrianOrbHealEvent(e) <==> e.kind == Heal && e.abilityGameID == Some(KYRIAN_ORB_HEAL)
  {
    IsSpecificEvent(KyrianOrbHealSpec, e)
  }

  /** How many of the five classifiers accept `e`. */
  function MatchCount(e: Event): nat {
    (if IsNwOrbEvent(e) then 1 else 0) + (if IsNwHammerEvent(e) then 1 else 0)
    + (if IsNwSpearEvent(e) then 1 else 0) + (if IsNwKyrianOrbHealEvent(e) then 1 else 0)
    + (if IsNwKyrianOrbDamageEvent(e) then 1 else 0)
  }

  /** The five ids are pairwise distinct, so no event satisfies two classifiers. */
  lemma ClassifiersDisjoint(e: Event)
    ensures |{ORB, HAMMER, SPEAR, KYRIAN_ORB_HEAL, KYRIAN_ORB_DAMAGE}| == 5
    ensures MatchCount(e) <= 1
  {
  }

  /** The query list holds five queries: orb, hammer, spear, kyrian heal, kyrian damage. */
  lemma FilterExpressionOrder(e: Event)
    ensures |FilterExpression| == 5
    ensures IsSpecificEvent(FilterExpression[0], e) <==> IsNwOrbEvent(e)
    ensures IsSpecificEvent(FilterExpression[1], e) <==> IsNwHammerEvent(e)
    ensures IsSpecificEvent(FilterExpression[2], e) <==> IsNwSpearEvent(e)
    ensures IsSpecificEvent(FilterExpression[3], e) <==> IsNwKyrianOrbHealEvent(e)
    ensures IsSpecificEvent(FilterExpression[4], e) <==> IsNwKyrianOrbDamageEvent(e)
  {
  }
}
