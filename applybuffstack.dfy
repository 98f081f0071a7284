/** The `applybuffstack` processor: a record for each tracked buff stack on a player. */
module ApplyBuffStack {
  import opened Wrappers
  import opened Events
  import opened Records

  /** The Sanguine Depths lantern buff id, defined outside this model. */
  const SD_LANTERN_BUFF: int

  /** Buff-stack ids imported from the Tormented module, whose values are not part of this model. */
  const ImportedBuffStackIDs: set<int>

  const RelevantBuffStackIDs: set<int> := {SD_LANTERN_BUFF} + ImportedBuffStackIDs

  /** A record for a tracked buff stack on a player, no record otherwise. */
  function ApplyBuffStackProcessor(e: Event, actors: Actors): (r: Option<Record>)
    ensures r.None? <==>
      actors.targetPlayerID.None? || actors.targetPlayerID == Some(0) ||
      !(e.abilityGameID.Some? && e.abilityGameID.value in RelevantBuffStackIDs)
    ensures r.Some? ==>
      && r.value.timestamp == e.timestamp
      && r.value.eventType == ApplyBuffStackRecord
      && Some(r.value.abilityID) == e.abilityGameID
      && r.value.targetPlayerID == actors.targetPlayerID
      && r.value.stacks == e.stack
      && r.value.sourcePlayerID.None? && r.value.targetNPCID.None?
  {
    if IsTruthy(actors.targetPlayerID) && e.abilityGameID.Some? && e.abilityGameID.value in RelevantBuffStackIDs then
      Some(Record(e.timestamp, ApplyBuffStackRecord, e.abilityGameID.value,
                  actors.targetPlayerID, None, None, e.stack))
    else None
  }

  /** A lantern buff stack on a player always produces a record. */
  lemma LanternBuffRecorded(e: Event, actors: Actors)
    requires e.abilityGameID == Some(SD_LANTERN_BUFF) && IsTruthy(actors.targetPlayerID)
    ensures ApplyBuffStackProcessor(e, actors).Some?
  {
  }
}
