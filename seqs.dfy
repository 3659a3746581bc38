/**
 * Sequence operations the screens use through JavaScript's array methods:
 * `filter`, `includes`, de-duplication through `Array.from(new Set(xs))`, and
 * the facts about order that they keep. Each is built from the front of the
 * array to its end, as the JavaScript loops visit it.
 */
module Seqs {

  /** `xs.filter(p)`. */
  function Filter<T(==)>(xs: seq<T>, p: T -> bool): (r: seq<T>)
    ensures |r| <= |xs|
    ensures forall i :: 0 <= i < |r| ==> r[i] in xs && p(r[i])
    ensures forall i :: 0 <= i < |xs| && p(xs[i]) ==> xs[i] in r
  {
    if xs == [] then []
    else
      var last := xs[|xs| - 1];
      Filter(xs[..|xs| - 1], p) + (if p(last) then [last] else [])
  }

  /** `a` is `b` with some elements left out, the rest in their order. */
  predicate IsSubseq<T(==)>(a: seq<T>, b: seq<T>)
  {
    if a == [] then true
    else if b == [] then false
    else if a[|a| - 1] == b[|b| - 1] then IsSubseq(a[..|a| - 1], b[..|b| - 1])
    else IsSubseq(a, b[..|b| - 1])
  }

  predicate NoDup<T(==)>(xs: seq<T>)
  {
    forall i, j :: 0 <= i < j < |xs| ==> xs[i] != xs[j]
  }

  /** The position of the first occurrence of `x`, as `indexOf` finds it. */
  function FirstIndex<T(==)>(xs: seq<T>, x: T): (i: nat)
    requires x in xs
    ensures i < |xs| && xs[i] == x && x !in xs[..i]
  {
    var init := xs[..|xs| - 1];
    if x in init then FirstIndex(init, x) else |xs| - 1
  }

  /** Any index before which `x` does not occur is the first one. */
  lemma FirstIndexUnique<T>(xs: seq<T>, x: T, i: nat)
    requires i < |xs| && xs[i] == x && x !in xs[..i]
    ensures FirstIndex(xs, x) == i
  {
  }

  /** The first occurrence in a prefix is the first occurrence overall. */
  lemma FirstIndexOfPrefix<T>(xs: seq<T>, n: nat, x: T)
    requires n <= |xs| && x in xs[..n]
    ensures FirstIndex(xs, x) == FirstIndex(xs[..n], x)
  {
    var i := FirstIndex(xs[..n], x);
    assert xs[..n][..i] == xs[..i];
    FirstIndexUnique(xs, x, i);
  }

  lemma {:induction false} FilterIsSubseq<T>(xs: seq<T>, p: T -> bool)
    ensures IsSubseq(Filter(xs, p), xs)
  {
    if xs != [] {
      var init, last := xs[..|xs| - 1], xs[|xs| - 1];
      FilterIsSubseq(init, p);
      if p(last) {
        assert Filter(xs, p)[..|Filter(xs, p)| - 1] == Filter(init, p);
      } else {
        assert Filter(xs, p) == Filter(init, p);
        SubseqOfInit(Filter(init, p), xs);
        assert IsSubseq(Filter(init, p), xs);
      }
    }
  }

  /** A filter that keeps every element gives the list back. */
  lemma {:induction false} FilterKeepsAll<T>(xs: seq<T>, p: T -> bool)
    requires forall i :: 0 <= i < |xs| ==> p(xs[i])
    ensures Filter(xs, p) == xs
  {
    if xs != [] {
      FilterKeepsAll(xs[..|xs| - 1], p);
    }
  }

  /** Two predicates that agree on every element filter alike. */
  lemma {:induction false} FilterExt<T>(xs: seq<T>, p: T -> bool, q: T -> bool)
    requires forall i :: 0 <= i < |xs| ==> p(xs[i]) == q(xs[i])
    ensures Filter(xs, p) == Filter(xs, q)
  {
    if xs != [] {
      FilterExt(xs[..|xs| - 1], p, q);
    }
  }

  /** A subsequence of all but the last element is a subsequence of all. */
  lemma {:induction false} SubseqOfInit<T>(a: seq<T>, b: seq<T>)
    requires b != [] && IsSubseq(a, b[..|b| - 1])
    ensures IsSubseq(a, b)
  {
    var init := b[..|b| - 1];
    if a != [] && a[|a| - 1] == b[|b| - 1] {
      SubseqDropLast(a, init);
    }
  }

  /** Dropping the last element keeps a subsequence a subsequence. */
  lemma {:induction false} SubseqDropLast<T>(a: seq<T>, b: seq<T>)
    requires a != [] && IsSubseq(a, b)
    ensures IsSubseq(a[..|a| - 1], b)
  {
    var aInit := a[..|a| - 1];
    if a[|a| - 1] == b[|b| - 1] {
      SubseqOfInit(aInit, b);
    } else {
      SubseqDropLast(a, b[..|b| - 1]);
      SubseqOfInit(aInit, b);
    }
  }

  lemma {:induction false} FilterNoDup<T>(xs: seq<T>, p: T -> bool)
    requires NoDup(xs)
    ensures NoDup(Filter(xs, p))
  {
    if xs != [] {
      var init := xs[..|xs| - 1];
      assert NoDup(init);
      FilterNoDup(init, p);
    }
  }

  /**
   * Filtering a list without duplicates keeps its order: earlier results
   * come from earlier positions of the source.
   */
  lemma {:induction false} FilterKeepsOrder<T>(xs: seq<T>, p: T -> bool)
    requires NoDup(xs)
    ensures forall i, j :: 0 <= i < j < |Filter(xs, p)| ==>
      FirstIndex(xs, Filter(xs, p)[i]) < FirstIndex(xs, Filter(xs, p)[j])
  {
    if xs != [] {
      var n := |xs| - 1;
      var init, last := xs[..n], xs[n];
      assert NoDup(init);
      FilterKeepsOrder(init, p);
      var r0, r := Filter(init, p), Filter(xs, p);
      forall i, j | 0 <= i < j < |r|
        ensures FirstIndex(xs, r[i]) < FirstIndex(xs, r[j])
      {
        assert r[i] == r0[i];
        FirstIndexOfPrefix(xs, n, r[i]);
        if j < |r0| {
          assert r[j] == r0[j];
          FirstIndexOfPrefix(xs, n, r[j]);
        } else {
          assert r[j] == last;
          assert last !in init;
          FirstIndexUnique(xs, last, n);
        }
      }
    }
  }

  /** `Array.from(new Set(xs))`: each value once, where it was first seen. */
  function Dedupe<T(==)>(xs: seq<T>): (r: seq<T>)
    ensures NoDup(r)
    ensures forall i :: 0 <= i < |r| ==> r[i] in xs
    ensures forall i :: 0 <= i < |xs| ==> xs[i] in r
  {
    if xs == [] then []
    else
      var d, last := Dedupe(xs[..|xs| - 1]), xs[|xs| - 1];
      if last in d then d else d + [last]
  }

  /** The values of `Dedupe(xs)` appear in the order of their first occurrence in `xs`. */
  lemma {:induction false} DedupeFirstSeen<T>(xs: seq<T>)
    ensures forall i, j :: 0 <= i < j < |Dedupe(xs)| ==>
      FirstIndex(xs, Dedupe(xs)[i]) < FirstIndex(xs, Dedupe(xs)[j])
  {
    if xs != [] {
      var n := |xs| - 1;
      var init, last := xs[..n], xs[n];
      DedupeFirstSeen(init);
      var d, r := Dedupe(init), Dedupe(xs);
      forall i, j | 0 <= i < j < |r|
        ensures FirstIndex(xs, r[i]) < FirstIndex(xs, r[j])
      {
        assert r[i] == d[i];
        FirstIndexOfPrefix(xs, n, r[i]);
        if j < |d| {
          assert r[j] == d[j];
          FirstIndexOfPrefix(xs, n, r[j]);
        } else {
          assert r[j] == last && last !in init;
          FirstIndexUnique(xs, last, n);
        }
      }
    }
  }
}
