/**
 * Generic sequence operations used by the event pipelines and the report views:
 * `Array.prototype.filter`, `findIndex` and `find`, and the notion of one sequence
 * being an order-preserving subsequence of another.
 */
module Seqs {
  import opened Wrappers

  /** The elements of `s` that satisfy `p`, in order; a left fold like `Array.prototype.filter`. */
  function Filter<T(!new)>(s: seq<T>, p: T -> bool): (r: seq<T>)
    ensures |r| <= |s|
    ensures forall x :: x in r <==> x in s && p(x)
    ensures multiset(r) <= multiset(s)
    decreases |s|
  {
    if s == [] then []
    else
      var init := Filter(s[..|s| - 1], p);
      assert s == s[..|s| - 1] + [s[|s| - 1]];
      if p(s[|s| - 1]) then init + [s[|s| - 1]] else init
  }

  /**
   * `xs` can be obtained from `ys` by deleting elements: every element of `xs` occurs in
   * `ys`, in the same relative order.
   */
  ghost predicate IsSubsequence<T>(xs: seq<T>, ys: seq<T>)
    decreases |ys|
  {
    if xs == [] then true
    else if ys == [] then false
    else
      (xs[|xs| - 1] == ys[|ys| - 1] && IsSubsequence(xs[..|xs| - 1], ys[..|ys| - 1]))
      || IsSubsequence(xs, ys[..|ys| - 1])
  }

  lemma {:induction false} SubsequenceOfEmpty<T>(xs: seq<T>)
    requires IsSubsequence(xs, [])
    ensures xs == []
  {
  }

  /** Appending an element to the longer sequence keeps the relation. */
  lemma SubsequenceExtend<T>(xs: seq<T>, ys: seq<T>, y: T)
    requires IsSubsequence(xs, ys)
    ensures IsSubsequence(xs, ys + [y])
  {
    assert (ys + [y])[..|ys|] == ys;
  }

  /** Appending the same element to both sequences keeps the relation. */
  lemma SubsequenceAppendBoth<T>(xs: seq<T>, ys: seq<T>, y: T)
    requires IsSubsequence(xs, ys)
    ensures IsSubsequence(xs + [y], ys + [y])
  {
    assert (xs + [y])[..|xs|] == xs;
    assert (ys + [y])[..|ys|] == ys;
  }

  lemma {:induction false} SubsequenceReflexive<T>(xs: seq<T>)
    ensures IsSubsequence(xs, xs)
    decreases |xs|
  {
    if xs != [] {
      var init := xs[..|xs| - 1];
      SubsequenceReflexive(init);
      SubsequenceAppendBoth(init, init, xs[|xs| - 1]);
      assert init + [xs[|xs| - 1]] == xs;
    }
  }

  /** Every element of a subsequence occurs in the sequence it was taken from. */
  lemma {:induction false} SubsequenceMembers<T>(xs: seq<T>, ys: seq<T>)
    requires IsSubsequence(xs, ys)
    ensures |xs| <= |ys|
    ensures forall x :: x in xs ==> x in ys
    decreases |ys|
  {
    if xs != [] {
      var ys' := ys[..|ys| - 1];
      assert ys == ys' + [ys[|ys| - 1]];
      if xs[|xs| - 1] == ys[|ys| - 1] && IsSubsequence(xs[..|xs| - 1], ys') {
        SubsequenceMembers(xs[..|xs| - 1], ys');
        assert xs == xs[..|xs| - 1] + [xs[|xs| - 1]];
      } else {
        SubsequenceMembers(xs, ys');
      }
    }
  }

  /** The subsequence relation is transitive. */
  lemma {:induction false} SubsequenceTransitive<T>(a: seq<T>, b: seq<T>, c: seq<T>)
    requires IsSubsequence(a, b) && IsSubsequence(b, c)
    ensures IsSubsequence(a, c)
    decreases |c|
  {
    if c == [] {
      SubsequenceOfEmpty(b);
      SubsequenceOfEmpty(a);
    } else if a == [] {
    } else {
      var c' := c[..|c| - 1];
      assert c == c' + [c[|c| - 1]];
      if IsSubsequence(b, c') {
        SubsequenceTransitive(a, b, c');
        SubsequenceExtend(a, c', c[|c| - 1]);
      } else {
        assert b != [];
        var b' := b[..|b| - 1];
        assert b[|b| - 1] == c[|c| - 1] && IsSubsequence(b', c');
        var a' := a[..|a| - 1];
        assert a == a' + [a[|a| - 1]];
        if a[|a| - 1] == b[|b| - 1] && IsSubsequence(a', b') {
          SubsequenceTransitive(a', b', c');
          SubsequenceAppendBoth(a', c', c[|c| - 1]);
        } else {
          SubsequenceTransitive(a, b', c');
          SubsequenceExtend(a, c', c[|c| - 1]);
        }
      }
    }
  }

  /** A filter keeps its input's order: the result is a subsequence of the input. */
  lemma {:induction false} FilterIsSubsequence<T(!new)>(s: seq<T>, p: T -> bool)
    ensures IsSubsequence(Filter(s, p), s)
    decreases |s|
  {
    if s != [] {
      var init := s[..|s| - 1];
      assert s == init + [s[|s| - 1]];
      FilterIsSubsequence(init, p);
      if p(s[|s| - 1]) {
        SubsequenceAppendBoth(Filter(init, p), init, s[|s| - 1]);
      } else {
        SubsequenceExtend(Filter(init, p), init, s[|s| - 1]);
      }
    }
  }

  /** A filter that matches nothing yields the empty sequence. */
  lemma {:induction false} FilterNone<T(!new)>(s: seq<T>, p: T -> bool)
    requires forall x :: x in s ==> !p(x)
    ensures Filter(s, p) == []
    decreases |s|
  {
    if s != [] {
      assert forall x :: x in s[..|s| - 1] ==> x in s;
      FilterNone(s[..|s| - 1], p);
      assert s[|s| - 1] in s;
    }
  }

  /** Filtering distributes over concatenation. */
  lemma {:induction false} FilterAppend<T(!new)>(s: seq<T>, x: T, p: T -> bool)
    ensures Filter(s + [x], p) == Filter(s, p) + (if p(x) then [x] else [])
  {
    assert (s + [x])[..|s + [x]| - 1] == s;
  }

  /**
   * Three filters with pairwise exclusive predicates never take the same occurrence
   * twice: together they hold at most the input's occurrences.
   */
  lemma {:induction false} DisjointFiltersBounded<T(!new)>(s: seq<T>, p: T -> bool, q: T -> bool, w: T -> bool)
    requires forall x :: x in s ==> !(p(x) && q(x)) && !(p(x) && w(x)) && !(q(x) && w(x))
    ensures multiset(Filter(s, p)) + multiset(Filter(s, q)) + multiset(Filter(s, w)) <= multiset(s)
    decreases |s|
  {
    if s != [] {
      var init := s[..|s| - 1];
      var x := s[|s| - 1];
      assert s == init + [x];
      DisjointFiltersBounded(init, p, q, w);
      FilterAppend(init, x, p);
      FilterAppend(init, x, q);
      FilterAppend(init, x, w);
    }
  }

  /** A sequence whose occurrences are among another's is no longer than it. */
  lemma MultisetSubsetLength<T>(xs: seq<T>, ys: seq<T>)
    requires multiset(xs) <= multiset(ys)
    ensures |xs| <= |ys|
  {
    var rest := multiset(ys) - multiset(xs);
    assert multiset(ys) == multiset(xs) + rest;
    assert |multiset(ys)| == |multiset(xs)| + |rest|;
    assert |multiset(xs)| == |xs| && |multiset(ys)| == |ys|;
  }

  /**
   * `Array.prototype.findIndex`: the position of the first element satisfying `p`,
   * or -1 when there is none.
   */
  function FindIndex<T>(s: seq<T>, p: T -> bool): (i: int)
    ensures -1 <= i < |s|
    ensures i == -1 <==> forall j :: 0 <= j < |s| ==> !p(s[j])
    ensures 0 <= i ==> p(s[i]) && forall j :: 0 <= j < i ==> !p(s[j])
  {
    if s == [] then -1
    else if p(s[0]) then 0
    else
      var j := FindIndex(s[1..], p);
      if j < 0 then -1 else j + 1
  }

  /** Appending an element changes the first match only if there was none before. */
  lemma FindIndexAppend<T>(s: seq<T>, x: T, p: T -> bool)
    ensures FindIndex(s + [x], p) ==
      if FindIndex(s, p) >= 0 then FindIndex(s, p) else if p(x) then |s| else -1
  {
    var t := s + [x];
    var i, k := FindIndex(s, p), FindIndex(t, p);
    assert forall j :: 0 <= j < |s| ==> t[j] == s[j];
    assert t[|s|] == x;
    if i >= 0 {
      assert p(t[i]);
      assert k != -1 && k <= i;
      assert !p(t[k]) || k == i;
    } else if p(x) {
      assert k != -1;
      assert forall j :: 0 <= j < |s| ==> !p(t[j]);
    } else {
      assert forall j :: 0 <= j < |t| ==> !p(t[j]);
    }
  }

  /** `Array.prototype.find`: the first element satisfying `p`, if any. */
  function Find<T(!new)>(s: seq<T>, p: T -> bool): (r: Option<T>)
    ensures r.None? <==> forall x :: x in s ==> !p(x)
    ensures r.Some? ==> r.value in s && p(r.value)
    ensures r.Some? ==> exists i :: 0 <= i < |s| && s[i] == r.value && forall j :: 0 <= j < i ==> !p(s[j])
  {
    var i := FindIndex(s, p);
    if i < 0 then None
    else
      assert s[i] == s[i];
      Some(s[i])
  }
}
