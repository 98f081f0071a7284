/** The `applydebuff` processor: a record for each tracked debuff. */
module ApplyDebuff {
  import opened Wrappers
  import opened Events
  import opened Records
  import Soa

  /**
   * Debuff ids imported from the Dosage, Mists, Bursting, Necrotic, Tormented and
   * cheat-death modules, whose values are not part of this model.
   */
  const ImportedDebuffIDs: set<int>

  /** The debuffs worth a record: the SoA spear and the imported ones. */
  const DebuffIDs: set<int> := {Soa.SOA_SPEAR} + ImportedDebuffIDs

  /** A record for a tracked debuff, no record otherwise. */
  function ApplyDebuffProcessor(e: Event, actors: Actors): (r: Option<Record>)
    ensures r.None? <==> !(e.abilityGameID.Some? && e.abilityGameID.value in DebuffIDs)
    ensures r.Some? ==>
      && r.value.timestamp == e.timestamp
      && r.value.eventType == ApplyDebuffRecord
      && Some(r.value.abilityID) == e.abilityGameID
      && r.value.targetPlayerID == actors.targetPlayerID
      && r.value.targetNPCID == actors.targetNPCID
      && r.value.sourcePlayerID == actors.sourcePlayerID
      && r.value.stacks.None?
  {
    if e.abilityGameID.Some? && e.abilityGameID.value in DebuffIDs then
      Some(Record(e.timestamp, ApplyDebuffRecord, e.abilityGameID.value,
                  actors.targetPlayerID, actors.targetNPCID, actors.sourcePlayerID, None))
    else None
  }

  /** An SoA spear debuff always produces a record. */
  lemma SpearDebuffRecorded(e: Event, actors: Actors)
    requires e.abilityGameID == Some(Soa.SOA_SPEAR)
    ensures ApplyDebuffProcessor(e, actors).Some?
  {
  }

  /** Whether a record is produced depends on the ability id alone, not on the actors. */
  lemma DebuffDecisionIgnoresActors(e: Event, a1: Actors, a2: Actors)
    ensures ApplyDebuffProcessor(e, a1).Some? == ApplyDebuffProcessor(e, a2).Some?
  {
  }
}
