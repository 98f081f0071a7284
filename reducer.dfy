/**
 * The player reducer (`reduceEventsByPlayer`): a left fold that keeps the first event
 * seen for each value of a player key (`sourceID` or `targetID`) and drops later ones.
 */
module PlayerReducer {
  import opened Events
  import Seqs

  /** The keys carried by the events of `s`. */
  function KeysOf(s: seq<Event>, field: KeyField): set<int> {
    set x | x in s :: KeyOf(x, field)
  }

  /** Whether an event carries key `k`, as a predicate for `findIndex`. */
  function HasKey(field: KeyField, k: int): Event -> bool {
    e => KeyOf(e, field) == k
  }

  /** Position of the first event in `s` whose key is `k`, or -1. */
  function FirstIndexOfKey(s: seq<Event>, field: KeyField, k: int): int {
    Seqs.FindIndex(s, HasKey(field, k))
  }

  function FirstPerKey(s: seq<Event>, field: KeyField): (r: seq<Event>)
    ensures KeysOf(r, field) == KeysOf(s, field)
    ensures forall i, j :: 0 <= i < j < |r| ==> KeyOf(r[i], field) != KeyOf(r[j], field)
    decreases |s|
  {
    if s == [] then []
    else
      var init := s[..|s| - 1];
      var e := s[|s| - 1];
      var r := FirstPerKey(init, field);
      assert s == init + [e];
      assert KeysOf(s, field) == KeysOf(init, field) + {KeyOf(e, field)};
      if KeyOf(e, field) in KeysOf(r, field) then r
      else
        assert KeysOf(r + [e], field) == KeysOf(r, field) + {KeyOf(e, field)};
        assert forall i :: 0 <= i < |r| ==> KeyOf(r[i], field) in KeysOf(r, field);
        r + [e]
  }

  /** The kept events appear in input order. */
  lemma {:induction false} FirstPerKeySubsequence(s: seq<Event>, field: KeyField)
    ensures Seqs.IsSubsequence(FirstPerKey(s, field), s)
    decreases |s|
  {
    if s != [] {
      var init := s[..|s| - 1];
      var e := s[|s| - 1];
      assert s == init + [e];
      FirstPerKeySubsequence(init, field);
      var r := FirstPerKey(init, field);
      if KeyOf(e, field) in KeysOf(r, field) {
        Seqs.SubsequenceExtend(r, init, e);
      } else {
        Seqs.SubsequenceAppendBoth(r, init, e);
      }
    }
  }

  /**
   * Every kept event is the first event of the input with its key, and the first event
   * of the input for each key is kept.
   */
  lemma {:induction false} FirstPerKeyKeepsFirst(s: seq<Event>, field: KeyField)
    ensures var r := FirstPerKey(s, field);
      forall x :: x in r ==>
        0 <= FirstIndexOfKey(s, field, KeyOf(x, field)) && s[FirstIndexOfKey(s, field, KeyOf(x, field))] == x
    decreases |s|
  {
    if s != [] {
      var init := s[..|s| - 1];
      var e := s[|s| - 1];
      assert s == init + [e];
      FirstPerKeyKeepsFirst(init, field);
      var r' := FirstPerKey(init, field);
      var r := FirstPerKey(s, field);
      forall x | x in r
        ensures 0 <= FirstIndexOfKey(s, field, KeyOf(x, field)) && s[FirstIndexOfKey(s, field, KeyOf(x, field))] == x
      {
        var k := KeyOf(x, field);
        Seqs.FindIndexAppend(init, e, HasKey(field, k));
        if x in r' {
          assert s[FirstIndexOfKey(init, field, k)] == init[FirstIndexOfKey(init, field, k)];
        } else {
          assert x == e && k !in KeysOf(init, field);
          assert forall j :: 0 <= j < |init| ==> KeyOf(init[j], field) in KeysOf(init, field);
          assert FirstIndexOfKey(init, field, k) == -1;
        }
      }
    }
  }

  /** For every input event, the first event with the same key is among the kept ones. */
  lemma FirstOfEveryKeyKept(s: seq<Event>, field: KeyField, i: int)
    requires 0 <= i < |s|
    ensures 0 <= FirstIndexOfKey(s, field, KeyOf(s[i], field))
    ensures s[FirstIndexOfKey(s, field, KeyOf(s[i], field))] in FirstPerKey(s, field)
  {
    var r := FirstPerKey(s, field);
    var k := KeyOf(s[i], field);
    assert k in KeysOf(s, field);
    assert k in KeysOf(r, field);
    var y :| y in r && KeyOf(y, field) == k;
    FirstPerKeyKeepsFirst(s, field);
  }
}
