/** List building blocks shared by the model: filtering and concatenating per-element results, both
    defined element by element from the end so that a loop appending to a list matches them step by step. */
module Seqs {

  /** The entries of `xs` that satisfy `p`, in their original order. */
  function Filter<T(==)>(xs: seq<T>, p: T -> bool): (r: seq<T>)
    ensures |r| <= |xs|
    ensures forall i :: 0 <= i < |r| ==> r[i] in xs && p(r[i])
  {
    if xs == [] then []
    else
      var init := xs[..|xs| - 1];
      assert xs == init + [xs[|xs| - 1]];
      Filter(init, p) + (if p(xs[|xs| - 1]) then [xs[|xs| - 1]] else [])
  }

  /** Exactly the entries satisfying `p` survive. */
  lemma {:induction false} FilterMember<T>(xs: seq<T>, p: T -> bool, x: T)
    ensures x in Filter(xs, p) <==> x in xs && p(x)
  {
    if xs != [] {
      var init := xs[..|xs| - 1];
      assert xs == init + [xs[|xs| - 1]];
      FilterMember(init, p, x);
    }
  }

  lemma FilterSnoc<T>(xs: seq<T>, x: T, p: T -> bool)
    ensures Filter(xs + [x], p) == Filter(xs, p) + (if p(x) then [x] else [])
  {
    assert (xs + [x])[..|xs + [x]| - 1] == xs;
  }

  lemma FilterAll<T>(xs: seq<T>, p: T -> bool)
    requires forall x :: x in xs ==> p(x)
    ensures Filter(xs, p) == xs
  {
    if xs != [] {
      var init := xs[..|xs| - 1];
      assert xs == init + [xs[|xs| - 1]];
      FilterAll(init, p);
    }
  }

  /** Two predicates that agree on the list select the same entries. */
  lemma FilterAgree<T>(xs: seq<T>, p: T -> bool, q: T -> bool)
    requires forall x :: x in xs ==> p(x) == q(x)
    ensures Filter(xs, p) == Filter(xs, q)
  {
    if xs != [] {
      var init := xs[..|xs| - 1];
      assert xs == init + [xs[|xs| - 1]];
      FilterAgree(init, p, q);
    }
  }

  /** No entry occurs twice. */
  predicate Distinct<T(==)>(xs: seq<T>) {
    forall i, j :: 0 <= i < j < |xs| ==> xs[i] != xs[j]
  }

  lemma {:induction false} FilterDistinct<T>(xs: seq<T>, p: T -> bool)
    requires Distinct(xs)
    ensures Distinct(Filter(xs, p))
  {
    if xs != [] {
      var init, last := xs[..|xs| - 1], xs[|xs| - 1];
      assert xs == init + [last];
      FilterDistinct(init, p);
      assert last !in init;
    }
  }

  /** The concatenation of `f(x)` over the entries `x` of `xs`, in order. */
  function ConcatMap<T, U>(xs: seq<T>, f: T -> seq<U>): seq<U> {
    if xs == [] then [] else ConcatMap(xs[..|xs| - 1], f) + f(xs[|xs| - 1])
  }

  lemma ConcatMapSnoc<T, U>(xs: seq<T>, i: nat, f: T -> seq<U>)
    requires i < |xs|
    ensures ConcatMap(xs[..i + 1], f) == ConcatMap(xs[..i], f) + f(xs[i])
  {
    assert xs[..i + 1][..i] == xs[..i];
  }

  lemma ConcatMapAgree<T, U>(xs: seq<T>, f: T -> seq<U>, g: T -> seq<U>)
    requires forall x :: x in xs ==> f(x) == g(x)
    ensures ConcatMap(xs, f) == ConcatMap(xs, g)
  {
    if xs != [] {
      var init := xs[..|xs| - 1];
      assert forall x :: x in init ==> x in xs;
      ConcatMapAgree(init, f, g);
    }
  }

  /** An element is in the concatenation exactly when it comes from one of the entries. */
  lemma {:induction false} ConcatMapMember<T, U>(xs: seq<T>, f: T -> seq<U>, u: U)
    ensures u in ConcatMap(xs, f) <==> exists x :: x in xs && u in f(x)
  {
    if xs != [] {
      var init, last := xs[..|xs| - 1], xs[|xs| - 1];
      assert xs == init + [last];
      ConcatMapMember(init, f, u);
    }
  }

  /** The concatenation has no repeated tag when the entries are distinct, no single block repeats a tag and
      a tag always tells which entry its element came from. */
  lemma {:induction false} ConcatMapDistinct<T, U, K>(xs: seq<T>, f: T -> seq<U>, tag: U -> K)
    requires Distinct(xs)
    requires forall x :: x in xs ==> Distinct(Map(f(x), tag))
    requires forall x, y, u, v :: x in xs && y in xs && u in f(x) && v in f(y) && tag(u) == tag(v) ==> x == y
    ensures Distinct(Map(ConcatMap(xs, f), tag))
  {
    if xs != [] {
      var init, last := xs[..|xs| - 1], xs[|xs| - 1];
      assert xs == init + [last];
      assert forall x :: x in init ==> x in xs;
      ConcatMapDistinct(init, f, tag);
      var a, b := ConcatMap(init, f), f(last);
      MapAppend(a, b, tag);
      forall i, j | 0 <= i < |a| && 0 <= j < |b|
        ensures tag(a[i]) != tag(b[j])
      {
        ConcatMapMember(init, f, a[i]);
        var x :| x in init && a[i] in f(x);
        assert x != last;
      }
    }
  }

  /** `tag` applied entry by entry. */
  function Map<U, K>(xs: seq<U>, tag: U -> K): (r: seq<K>)
    ensures |r| == |xs|
    ensures forall i :: 0 <= i < |xs| ==> r[i] == tag(xs[i])
  {
    seq(|xs|, i requires 0 <= i < |xs| => tag(xs[i]))
  }

  lemma MapAppend<U, K>(a: seq<U>, b: seq<U>, tag: U -> K)
    ensures Map(a + b, tag) == Map(a, tag) + Map(b, tag)
  {
  }

  lemma {:induction false} FilterCons<T>(x: T, xs: seq<T>, p: T -> bool)
    ensures Filter([x] + xs, p) == (if p(x) then [x] else []) + Filter(xs, p)
  {
    if xs != [] {
      var init, last := xs[..|xs| - 1], xs[|xs| - 1];
      FilterCons(x, init, p);
      assert ([x] + xs)[..|[x] + xs| - 1] == [x] + init;
    }
  }

  /** Putting the same entry in front of two lists whose filters differ by a suffix keeps that difference. */
  lemma FilterConsAppend<T>(h: T, a: seq<T>, b: seq<T>, tail: seq<T>, p: T -> bool)
    requires Filter(a, p) == Filter(b, p) + tail
    ensures Filter([h] + a, p) == Filter([h] + b, p) + tail
  {
    FilterCons(h, a, p);
    FilterCons(h, b, p);
    var front, fb := if p(h) then [h] else [], Filter(b, p);
    AppendAssociative(front, fb, tail);
  }

  lemma AppendAssociative<T>(x: seq<T>, y: seq<T>, z: seq<T>)
    ensures x + (y + z) == (x + y) + z
  { }

  lemma {:induction false} FilterNone<T>(xs: seq<T>, p: T -> bool)
    requires forall x :: x in xs ==> !p(x)
    ensures Filter(xs, p) == []
  {
    if xs != [] {
      var init := xs[..|xs| - 1];
      assert forall x :: x in init ==> x in xs;
      FilterNone(init, p);
    }
  }

  /** The set of entries of a list. */
  function Elements<T>(xs: seq<T>): set<T> {
    set x | x in xs
  }

  /** A list without repetitions has as many elements as entries. */
  lemma {:induction false} DistinctCard<T>(xs: seq<T>)
    requires Distinct(xs)
    ensures |Elements(xs)| == |xs|
  {
    if xs != [] {
      var init, last := xs[..|xs| - 1], xs[|xs| - 1];
      assert xs == init + [last];
      DistinctCard(init);
      assert Elements(xs) == Elements(init) + {last};
      assert last !in Elements(init);
    }
  }

  /** A subset as large as its superset is the superset. */
  lemma SubsetSameCard<T>(a: set<T>, b: set<T>)
    requires a <= b && |a| == |b|
    ensures a == b
  {
    assert b == a + (b - a);
    assert |b| == |a| + |b - a|;
  }

  /** Filtering keeps the tags of a list distinct. */
  lemma {:induction false} FilterMapDistinct<T, K>(xs: seq<T>, p: T -> bool, tag: T -> K)
    requires Distinct(Map(xs, tag))
    ensures Distinct(Map(Filter(xs, p), tag))
  {
    if xs != [] {
      var init, last := xs[..|xs| - 1], xs[|xs| - 1];
      assert Map(xs, tag) == Map(init, tag) + [tag(last)];
      FilterMapDistinct(init, p, tag);
      var f := Filter(init, p);
      MapAppend(f, if p(last) then [last] else [], tag);
      forall i | 0 <= i < |f|
        ensures tag(f[i]) != tag(last)
      {
        var j :| 0 <= j < |init| && init[j] == f[i];
        assert Map(xs, tag)[j] == tag(f[i]);
        assert Map(xs, tag)[|xs| - 1] == tag(last);
      }
    }
  }
}
