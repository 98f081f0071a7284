/**
 * The normalized records produced by the event processors of the transform: each
 * processor maps one raw event, together with the actors it resolved to, to an
 * optional record.
 */
module Records {
  import opened Wrappers

  /** The record types produced here (the persisted `EventType` values). */
  datatype RecordType = ApplyDebuffRecord | ApplyBuffStackRecord

  /** The event's source and target resolved against the roster; absent stays absent. */
  datatype Actors = Actors(targetPlayerID: Option<int>, targetNPCID: Option<int>, sourcePlayerID: Option<int>)

  /** A normalized record. */
  datatype Record = Record(
    timestamp: int,
    eventType: RecordType,
    abilityID: int,
    targetPlayerID: Option<int>,
    targetNPCID: Option<int>,
    sourcePlayerID: Option<int>,
    stacks: Option<int>)

  /** JavaScript truthiness of an optional player id: absent and 0 are both false. */
  predicate IsTruthy(id: Option<int>) {
    id.Some? && id.value != 0
  }
}
