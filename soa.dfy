/**
 * Spires of Ascension spear detector: keep the spear stun debuffs, chunk them by the
 * stun duration and report the first debuff of each chunk as one spear usage.
 */
module Soa {
  import opened Wrappers
  import opened Events
  import Seqs
  import Chunking

  const SOA_SPEAR := 339917

  /** The spear stun lasts 10 seconds, so distinct usages are at least 10 s apart. */
  const SPEAR_THRESHOLD := 10 * 1000

  /** The event query sent upstream: spear `applydebuff` events. */
  const FilterExpression: seq<EventSpec> := [EventSpec(ApplyDebuff, {SOA_SPEAR})]

  predicate IsSoaSpearEvent(e: Event)
    ensures IsSoaSpearEvent(e) <==> e.kind == ApplyDebuff && e.abilityGameID == Some(SOA_SPEAR)
  {
    IsSpecificEvent(FilterExpression[0], e)
  }

  /** The spear debuffs of a run, in input order. */
  function SpearEvents(allEvents: seq<Event>): (r: seq<Event>)
    ensures forall x :: x in r <==> x in allEvents && IsSoaSpearEvent(x)
    ensures Seqs.IsSubsequence(r, allEvents)
  {
    Seqs.FilterIsSubsequence(allEvents, IsSoaSpearEvent);
    Seqs.Filter(allEvents, IsSoaSpearEvent)
  }

  /**
   * One event per spear usage: the spear debuffs that open a chunk, i.e. the first one
   * and every one that follows the previous spear debuff by at least 10 s.
   */
  function GetSOAEvents(allEvents: seq<Event>): (r: seq<Event>)
    ensures forall x :: x in r ==> x.kind == ApplyDebuff && x.abilityGameID == Some(SOA_SPEAR)
    ensures r == Chunking.ChunkStarts(SpearEvents(allEvents), SPEAR_THRESHOLD)
  {
    var spears := SpearEvents(allEvents);
    Chunking.HeadsAreChunkStarts(spears, SPEAR_THRESHOLD);
    Chunking.Heads(Chunking.Chunks(spears, SPEAR_THRESHOLD))
  }

  /** The reported usages are the first event of each chunk, one per chunk. */
  lemma OneEventPerChunk(allEvents: seq<Event>)
    ensures var chunks := Chunking.Chunks(SpearEvents(allEvents), SPEAR_THRESHOLD);
      var r := GetSOAEvents(allEvents);
      |r| == |chunks| && forall i :: 0 <= i < |r| ==> r[i] == chunks[i][0]
  {
    Chunking.HeadsAt(Chunking.Chunks(SpearEvents(allEvents), SPEAR_THRESHOLD));
  }

  /** The reported usages are a subsequence of the input, in input order. */
  lemma GetSOAEventsSubsequence(allEvents: seq<Event>)
    ensures Seqs.IsSubsequence(GetSOAEvents(allEvents), allEvents)
  {
    var spears := SpearEvents(allEvents);
    Chunking.ChunkStartsSubsequence(spears, SPEAR_THRESHOLD);
    Seqs.FilterIsSubsequence(allEvents, IsSoaSpearEvent);
    Seqs.SubsequenceTransitive(GetSOAEvents(allEvents), spears, allEvents);
  }

  /** For timestamp-sorted input, consecutive reported usages are at least 10 s apart. */
  lemma GetSOAEventsSpacing(allEvents: seq<Event>)
    requires SortedByTimestamp(allEvents)
    ensures Chunking.SpacedBy(GetSOAEvents(allEvents), SPEAR_THRESHOLD)
  {
    var spears := SpearEvents(allEvents);
    Seqs.FilterIsSubsequence(allEvents, IsSoaSpearEvent);
    SubsequenceOfSortedIsSorted(spears, allEvents);
    Chunking.ChunkStartsSpacing(spears, SPEAR_THRESHOLD);
  }

  /** Input without spear debuffs, the empty input included, yields no usage. */
  lemma NoSpearNoUsage(allEvents: seq<Event>)
    requires forall x :: x in allEvents ==> !IsSoaSpearEvent(x)
    ensures GetSOAEvents(allEvents) == []
  {
    Seqs.FilterNone(allEvents, IsSoaSpearEvent);
  }

  /** Three spear debuffs at 0 s, 5 s and 20 s form two chunks and two usages. */
  lemma ChunkExample(a: Event, b: Event, c: Event)
    requires a.timestamp == 0 && b.timestamp == 5000 && c.timestamp == 20000
    ensures Chunking.Chunks([a, b, c], SPEAR_THRESHOLD) == [[a, b], [c]]
    ensures Chunking.ChunkStarts([a, b, c], SPEAR_THRESHOLD) == [a, c]
  {
    assert [a, b, c][..2] == [a, b];
    assert [a, b][..1] == [a];
    assert [a][..0] == [];
    assert Chunking.Chunks([a], SPEAR_THRESHOLD) == [[a]];
    assert Chunking.Last(Chunking.Last([[a]])) == a;
    assert Chunking.Chunks([a, b], SPEAR_THRESHOLD) == [[a]][..0] + [[a] + [b]];
    assert [a] + [b] == [a, b];
    assert [[a]][..0] == [];
    assert Chunking.ChunkStarts([a], SPEAR_THRESHOLD) == [a];
    assert Chunking.ChunkStarts([a, b], SPEAR_THRESHOLD) == [a];
  }
}
