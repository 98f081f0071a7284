/**
 * The summary row of Plaguefall's Violent Detonation canister: the total damage the
 * group dealt with it.
 */
module ViolentDetonation {
  import Seqs

  datatype DamageType = DamageDone | DamageTaken

  /** A damage event of the canister's ability. */
  datatype DamageEvent = DamageEvent(kind: DamageType, damage: int)

  /** `events.reduce((acc, e) => e.type === "DamageDone" ? acc + e.damage : acc, 0)`. */
  function TotalDamageDone(events: seq<DamageEvent>): (total: int)
    ensures (forall i :: 0 <= i < |events| ==> events[i].damage >= 0) ==> total >= 0
    decreases |events|
  {
    if events == [] then 0
    else
      var e := events[|events| - 1];
      TotalDamageDone(events[..|events| - 1]) + (if e.kind == DamageDone then e.damage else 0)
  }

  /** The plain sum of the damage of `events`, whatever their type. */
  function SumDamage(events: seq<DamageEvent>): int
    decreases |events|
  {
    if events == [] then 0 else SumDamage(events[..|events| - 1]) + events[|events| - 1].damage
  }

  function IsDamageDone(e: DamageEvent): bool {
    e.kind == DamageDone
  }

  /** The total is the sum of the damage of exactly the "DamageDone" events. */
  lemma {:induction false} TotalIsSumOfDamageDone(events: seq<DamageEvent>)
    ensures TotalDamageDone(events) == SumDamage(Seqs.Filter(events, IsDamageDone))
    decreases |events|
  {
    if events != [] {
      var init, e := events[..|events| - 1], events[|events| - 1];
      assert events == init + [e];
      assert TotalDamageDone(events) == TotalDamageDone(init) + (if IsDamageDone(e) then e.damage else 0);
      TotalIsSumOfDamageDone(init);
      Seqs.FilterAppend(init, e, IsDamageDone);
      var f := Seqs.Filter(init, IsDamageDone);
      if IsDamageDone(e) {
        assert (f + [e])[..|f + [e]| - 1] == f;
        assert SumDamage(f + [e]) == SumDamage(f) + e.damage;
      }
    }
  }

  /** Without "DamageDone" events the total is 0; in particular for no events. */
  lemma {:induction false} OnlyDamageTakenTotalsZero(events: seq<DamageEvent>)
    requires forall i :: 0 <= i < |events| ==> events[i].kind == DamageTaken
    ensures TotalDamageDone(events) == 0
    decreases |events|
  {
    if events != [] {
      OnlyDamageTakenTotalsZero(events[..|events| - 1]);
    }
  }

  /** The total over a concatenation is the sum of the totals of the parts. */
  lemma {:induction false} TotalAppend(a: seq<DamageEvent>, b: seq<DamageEvent>)
    ensures TotalDamageDone(a + b) == TotalDamageDone(a) + TotalDamageDone(b)
    decreases |b|
  {
    if b == [] {
      assert a + b == a;
    } else {
      var init := b[..|b| - 1];
      assert (a + b)[..|a + b| - 1] == a + init;
      TotalAppend(a, init);
    }
  }

  /** A "DamageTaken" event, wherever it is inserted, leaves the total unchanged. */
  lemma DamageTakenIgnored(a: seq<DamageEvent>, b: seq<DamageEvent>, damage: int)
    ensures TotalDamageDone(a + [DamageEvent(DamageTaken, damage)] + b) == TotalDamageDone(a + b)
  {
    var x := DamageEvent(DamageTaken, damage);
    TotalAppend(a + [x], b);
    TotalAppend(a, [x]);
    TotalAppend(a, b);
    assert [x][..0] == [];
  }

  /** The total does not depend on the order of the events. */
  lemma {:induction false} TotalPermutation(a: seq<DamageEvent>, b: seq<DamageEvent>)
    requires multiset(a) == multiset(b)
    ensures TotalDamageDone(a) == TotalDamageDone(b)
    decreases |a|
  {
    if a == [] {
      assert |b| == |multiset(b)| == 0;
    } else {
      var init, x := a[..|a| - 1], a[|a| - 1];
      assert a == init + [x];
      assert x in multiset(b);
      var i :| 0 <= i < |b| && b[i] == x;
      var left, right := b[..i], b[i + 1..];
      assert b == left + [x] + right;
      assert multiset(left + right) == multiset(b) - multiset{x};
      assert multiset(init) == multiset(a) - multiset{x};
      TotalPermutation(init, left + right);
      TotalAppend(left + [x], right);
      TotalAppend(left, [x]);
      TotalAppend(left, right);
      TotalAppend(init, [x]);
    }
  }
}
