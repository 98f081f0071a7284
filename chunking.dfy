/**
 * The temporal chunker (`createChunkByThresholdReducer`): a left fold over events of
 * one mechanic that appends an event to the current chunk, or opens a new chunk when
 * the event follows the last event of the current chunk by at least the threshold.
 */
module Chunking {
  import opened Events
  import Seqs

  function Last<T>(s: seq<T>): T
    requires s != []
  {
    s[|s| - 1]
  }

  /** All chunks concatenated in order. */
  function Flatten<T>(chunks: seq<seq<T>>): seq<T>
    decreases |chunks|
  {
    if chunks == [] then [] else Flatten(chunks[..|chunks| - 1]) + Last(chunks)
  }

  /** The chunks of `s` for the given threshold in milliseconds. */
  function Chunks(s: seq<Event>, threshold: int): (r: seq<seq<Event>>)
    ensures forall i :: 0 <= i < |r| ==> r[i] != []
    ensures Flatten(r) == s
    ensures s != [] ==> r != [] && Last(Last(r)) == Last(s)
    decreases |s|
  {
    if s == [] then []
    else
      var acc := Chunks(s[..|s| - 1], threshold);
      var e := Last(s);
      assert s == s[..|s| - 1] + [e];
      if acc == [] then [[e]]
      else if e.timestamp - Last(Last(acc)).timestamp >= threshold then
        assert forall i :: 0 <= i < |acc| ==> (acc + [[e]])[i] == acc[i];
        assert (acc + [[e]])[..|acc|] == acc;
        acc + [[e]]
      else
        var r := acc[..|acc| - 1] + [Last(acc) + [e]];
        assert r[..|r| - 1] == acc[..|acc| - 1];
        assert acc == acc[..|acc| - 1] + [Last(acc)];
        assert Flatten(acc) == Flatten(acc[..|acc| - 1]) + Last(acc);
        assert forall i :: 0 <= i < |r| - 1 ==> r[i] == acc[i];
        r
  }

  /** The first event of each chunk (`flatMap((chunk) => chunk[0])`). */
  function Heads(chunks: seq<seq<Event>>): (r: seq<Event>)
    requires forall i :: 0 <= i < |chunks| ==> chunks[i] != []
    ensures |r| == |chunks|
    decreases |chunks|
  {
    if chunks == [] then [] else Heads(chunks[..|chunks| - 1]) + [Last(chunks)[0]]
  }

  /** Position `i` of the heads is the first event of chunk `i`. */
  lemma {:induction false} HeadsAt(chunks: seq<seq<Event>>)
    requires forall i :: 0 <= i < |chunks| ==> chunks[i] != []
    ensures forall i :: 0 <= i < |chunks| ==> Heads(chunks)[i] == chunks[i][0]
    decreases |chunks|
  {
    if chunks != [] {
      var init := chunks[..|chunks| - 1];
      HeadsAt(init);
      assert forall i :: 0 <= i < |init| ==> chunks[i] == init[i];
    }
  }

  /** Adjacent events inside one chunk are less than `threshold` apart. */
  ghost predicate GapsBelow(c: seq<Event>, threshold: int) {
    forall j :: 0 <= j < |c| - 1 ==> c[j + 1].timestamp - c[j].timestamp < threshold
  }

  /** Every chunk is non-empty and its adjacent events are less than `threshold` apart. */
  ghost predicate IntraChunkGaps(r: seq<seq<Event>>, threshold: int) {
    forall i :: 0 <= i < |r| ==> r[i] != [] && GapsBelow(r[i], threshold)
  }

  /** From the last event of one chunk to the first of the next the gap is at least `threshold`. */
  ghost predicate InterChunkGaps(r: seq<seq<Event>>, threshold: int)
    requires forall i :: 0 <= i < |r| ==> r[i] != []
  {
    forall i :: 1 <= i < |r| ==> r[i][0].timestamp - Last(r[i - 1]).timestamp >= threshold
  }

  /**
   * Inside a chunk every gap is below the threshold; from the last event of one chunk
   * to the first of the next the gap is at least the threshold.
   */
  lemma {:induction false} ChunkGaps(s: seq<Event>, threshold: int)
    ensures IntraChunkGaps(Chunks(s, threshold), threshold)
    ensures InterChunkGaps(Chunks(s, threshold), threshold)
    decreases |s|
  {
    if s != [] {
      var s' := s[..|s| - 1];
      var acc := Chunks(s', threshold);
      ChunkGaps(s', threshold);
      var e := Last(s);
      if acc == [] {
        assert Chunks(s, threshold) == [[e]];
      } else if e.timestamp - Last(Last(acc)).timestamp >= threshold {
        OpenChunkGaps(acc, e, threshold);
      } else {
        ExtendChunkGaps(acc, e, threshold);
      }
    }
  }

  /** Opening a new chunk keeps both gap properties. */
  lemma OpenChunkGaps(acc: seq<seq<Event>>, e: Event, threshold: int)
    requires acc != [] && IntraChunkGaps(acc, threshold) && InterChunkGaps(acc, threshold)
    requires e.timestamp - Last(Last(acc)).timestamp >= threshold
    ensures IntraChunkGaps(acc + [[e]], threshold) && InterChunkGaps(acc + [[e]], threshold)
  {
    var r := acc + [[e]];
    assert forall i :: 0 <= i < |acc| ==> r[i] == acc[i];
  }

  /** Appending to the current chunk keeps both gap properties. */
  lemma ExtendChunkGaps(acc: seq<seq<Event>>, e: Event, threshold: int)
    requires acc != [] && IntraChunkGaps(acc, threshold) && InterChunkGaps(acc, threshold)
    requires e.timestamp - Last(Last(acc)).timestamp < threshold
    ensures var r := acc[..|acc| - 1] + [Last(acc) + [e]];
      IntraChunkGaps(r, threshold) && InterChunkGaps(r, threshold)
  {
    var n := |acc|;
    var c := Last(acc) + [e];
    var r := acc[..n - 1] + [c];
    assert acc[n - 1] != [] && GapsBelow(acc[n - 1], threshold);
    forall j | 0 <= j < |c| - 1 ensures c[j + 1].timestamp - c[j].timestamp < threshold {
      if j < |c| - 2 {
        assert c[j] == acc[n - 1][j] && c[j + 1] == acc[n - 1][j + 1];
      }
    }
    assert forall i :: 0 <= i < n - 1 ==> r[i] == acc[i];
    assert r[n - 1][0] == acc[n - 1][0];
  }

  /**
   * Reference definition of the chunk starts: the first event, and every event that
   * follows the event before it by at least `threshold`.
   */
  function ChunkStarts(s: seq<Event>, threshold: int): (r: seq<Event>)
    ensures s != [] ==> r != [] && r[0] == s[0]
    ensures forall x :: x in r ==> x in s
    decreases |s|
  {
    if |s| <= 1 then s
    else
      var init := ChunkStarts(s[..|s| - 1], threshold);
      if Last(s).timestamp - s[|s| - 2].timestamp >= threshold then init + [Last(s)] else init
  }

  /** One event per chunk, the chunk's first, is exactly the reference chunk-start rule. */
  lemma {:induction false} HeadsAreChunkStarts(s: seq<Event>, threshold: int)
    ensures Heads(Chunks(s, threshold)) == ChunkStarts(s, threshold)
    decreases |s|
  {
    if |s| > 1 {
      var s' := s[..|s| - 1];
      HeadsAreChunkStarts(s', threshold);
      var acc := Chunks(s', threshold);
      if Last(s).timestamp - s[|s| - 2].timestamp >= threshold {
        ChunksStep(s, threshold);
        HeadsOpen(acc, Last(s));
      } else {
        ChunksStep(s, threshold);
        HeadsExtend(acc, Last(s));
      }
    }
  }

  /** One step of the fold, stated with the previous event of the input. */
  lemma ChunksStep(s: seq<Event>, threshold: int)
    requires |s| > 1
    ensures var acc := Chunks(s[..|s| - 1], threshold);
      acc != [] &&
      Chunks(s, threshold) ==
        if Last(s).timestamp - s[|s| - 2].timestamp >= threshold then acc + [[Last(s)]]
        else acc[..|acc| - 1] + [Last(acc) + [Last(s)]]
  {
    var s' := s[..|s| - 1];
    assert Last(s') == s[|s| - 2];
  }

  /** Opening a new chunk adds its event to the heads. */
  lemma HeadsOpen(acc: seq<seq<Event>>, e: Event)
    requires forall i :: 0 <= i < |acc| ==> acc[i] != []
    ensures Heads(acc + [[e]]) == Heads(acc) + [e]
  {
    var r := acc + [[e]];
    assert r[..|r| - 1] == acc;
  }

  /** Extending the last chunk leaves the heads unchanged. */
  lemma HeadsExtend(acc: seq<seq<Event>>, e: Event)
    requires acc != [] && forall i :: 0 <= i < |acc| ==> acc[i] != []
    ensures Heads(acc[..|acc| - 1] + [Last(acc) + [e]]) == Heads(acc)
  {
    var init := acc[..|acc| - 1];
    var last := Last(acc) + [e];
    var r := init + [last];
    assert forall i :: 0 <= i < |init| ==> init[i] == acc[i];
    assert r[..|r| - 1] == init && Last(r) == last;
    assert last[0] == Last(acc)[0];
  }

  /** The chunk starts are a subsequence of the input. */
  lemma {:induction false} ChunkStartsSubsequence(s: seq<Event>, threshold: int)
    ensures Seqs.IsSubsequence(ChunkStarts(s, threshold), s)
    decreases |s|
  {
    if |s| <= 1 {
      Seqs.SubsequenceReflexive(s);
    } else {
      var s' := s[..|s| - 1];
      assert s == s' + [Last(s)];
      ChunkStartsSubsequence(s', threshold);
      if Last(s).timestamp - s[|s| - 2].timestamp >= threshold {
        Seqs.SubsequenceAppendBoth(ChunkStarts(s', threshold), s', Last(s));
      } else {
        Seqs.SubsequenceExtend(ChunkStarts(s', threshold), s', Last(s));
      }
    }
  }

  /** Consecutive events of `r` are at least `threshold` apart. */
  ghost predicate SpacedBy(r: seq<Event>, threshold: int) {
    forall i :: 1 <= i < |r| ==> r[i].timestamp - r[i - 1].timestamp >= threshold
  }

  /** On sorted input, consecutive chunk starts are at least `threshold` apart. */
  lemma {:induction false} ChunkStartsSpacing(s: seq<Event>, threshold: int)
    requires SortedByTimestamp(s)
    ensures SpacedBy(ChunkStarts(s, threshold), threshold)
    decreases |s|
  {
    if |s| > 1 {
      var s' := s[..|s| - 1];
      assert SortedByTimestamp(s');
      ChunkStartsSpacing(s', threshold);
      var init := ChunkStarts(s', threshold);
      if Last(s).timestamp - s[|s| - 2].timestamp >= threshold {
        assert Last(init) in s';
        var k :| 0 <= k < |s'| && s'[k] == Last(init);
        assert s[k] == Last(init);
        assert Last(init).timestamp <= s[|s| - 2].timestamp;
        var r := ChunkStarts(s, threshold);
        assert r == init + [Last(s)];
        assert forall i :: 0 <= i < |init| ==> r[i] == init[i];
      }
    }
  }
}
