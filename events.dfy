/**
 * Combat-log events as received from the log service, and the generic event classifier
 * (`createIsSpecificEvent`): a classifier fixes one event type and one ability id or a
 * set of ability ids.
 */
module Events {
  import opened Wrappers
  import Seqs

  datatype EventKind =
    | Damage | Heal | Cast | BeginCast
    | ApplyBuff | ApplyBuffStack | ApplyDebuff | ApplyDebuffStack
    | RemoveBuff | RemoveDebuff | Death

  /**
   * One raw event. `abilityGameID` is absent on event shapes that carry no ability
   * (deaths, for one); `stack` is present on the stack-changing kinds.
   */
  datatype Event = Event(
    kind: EventKind,
    timestamp: int,
    sourceID: int,
    targetID: int,
    abilityGameID: Option<int>,
    stack: Option<int>)

  /** The argument of `createIsSpecificEvent`; a single id is the singleton set. */
  datatype EventSpec = EventSpec(kind: EventKind, abilityGameIDs: set<int>)

  /** Exact type match plus membership of the event's ability id; no id never matches. */
  predicate IsSpecificEvent(spec: EventSpec, e: Event) {
    e.kind == spec.kind && e.abilityGameID.Some? && e.abilityGameID.value in spec.abilityGameIDs
  }

  /** The player key of `reduceEventsByPlayer`. */
  datatype KeyField = SourceID | TargetID

  function KeyOf(e: Event, field: KeyField): int {
    match field
    case SourceID => e.sourceID
    case TargetID => e.targetID
  }

  /** Timestamps never decrease along the sequence. */
  ghost predicate SortedByTimestamp(s: seq<Event>) {
    forall i, j :: 0 <= i < j < |s| ==> s[i].timestamp <= s[j].timestamp
  }

  /** An order-preserving selection from a sorted sequence is sorted. */
  lemma {:induction false} SubsequenceOfSortedIsSorted(xs: seq<Event>, ys: seq<Event>)
    requires Seqs.IsSubsequence(xs, ys) && SortedByTimestamp(ys)
    ensures SortedByTimestamp(xs)
    decreases |ys|
  {
    if xs != [] && ys != [] {
      var ys' := ys[..|ys| - 1];
      assert SortedByTimestamp(ys');
      if xs[|xs| - 1] == ys[|ys| - 1] && Seqs.IsSubsequence(xs[..|xs| - 1], ys') {
        var xs' := xs[..|xs| - 1];
        SubsequenceOfSortedIsSorted(xs', ys');
        Seqs.SubsequenceMembers(xs', ys');
        forall i, j | 0 <= i < j < |xs| ensures xs[i].timestamp <= xs[j].timestamp {
          if j == |xs| - 1 {
            assert xs[i] in xs';
            var k :| 0 <= k < |ys'| && ys'[k] == xs[i];
            assert ys[k] == xs[i];
          } else {
            assert xs[i] == xs'[i] && xs[j] == xs'[j];
          }
        }
      } else {
        SubsequenceOfSortedIsSorted(xs, ys');
      }
    }
  }
}
