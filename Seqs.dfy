/**
 * The two loop shapes the client's line readers share: keep what each
 * element gives, or thread a state through the elements.
 */
module Seqs {
  import opened Wrappers

  /** The values `f` gives on the elements of `xs`, in order, skipping `None`. */
  function FilterMap<A, B>(f: A -> Option<B>, xs: seq<A>): seq<B>
    decreases |xs|
  {
    if xs == [] then [] else FilterMap(f, xs[..|xs| - 1]) + ToSeq(f(xs[|xs| - 1]))
  }

  lemma {:induction false} FilterMapAppend<A, B>(f: A -> Option<B>, a: seq<A>, b: seq<A>)
    ensures FilterMap(f, a + b) == FilterMap(f, a) + FilterMap(f, b)
    decreases |b|
  {
    if b == [] {
      assert a + b == a;
    } else {
      var b', x := b[..|b| - 1], b[|b| - 1];
      assert b == b' + [x];
      FilterMapAppend(f, a, b');
      FilterMapAppendStep(f, a, b', x);
    }
  }

  lemma FilterMapAppendStep<A, B>(f: A -> Option<B>, a: seq<A>, b: seq<A>, x: A)
    requires FilterMap(f, a + b) == FilterMap(f, a) + FilterMap(f, b)
    ensures FilterMap(f, a + (b + [x])) == FilterMap(f, a) + FilterMap(f, b + [x])
  {
    Assoc(a, b, [x]);
    FilterMapSnoc(f, a + b, x);
    FilterMapSnoc(f, b, x);
    Assoc(FilterMap(f, a), FilterMap(f, b), ToSeq(f(x)));
  }

  lemma Assoc<A>(x: seq<A>, y: seq<A>, z: seq<A>)
    ensures (x + y) + z == x + (y + z)
  {
  }

  lemma {:induction false} FilterMapBound<A, B>(f: A -> Option<B>, xs: seq<A>)
    ensures |FilterMap(f, xs)| <= |xs|
    decreases |xs|
  {
    if xs != [] {
      FilterMapBound(f, xs[..|xs| - 1]);
    }
  }

  /** Each element contributes exactly what `f` gives on it. */
  lemma FilterMapSnoc<A, B>(f: A -> Option<B>, xs: seq<A>, x: A)
    ensures FilterMap(f, xs + [x]) == FilterMap(f, xs) + ToSeq(f(x))
  {
    assert (xs + [x])[..|xs|] == xs;
  }

  /** The state after stepping through `xs` from `s`. */
  function FoldLeft<S, A>(f: (S, A) -> S, s: S, xs: seq<A>): S
    decreases |xs|
  {
    if xs == [] then s else f(FoldLeft(f, s, xs[..|xs| - 1]), xs[|xs| - 1])
  }

  lemma {:induction false} FoldAppend<S, A>(f: (S, A) -> S, s: S, a: seq<A>, b: seq<A>)
    ensures FoldLeft(f, s, a + b) == FoldLeft(f, FoldLeft(f, s, a), b)
    decreases |b|
  {
    if b == [] {
      assert a + b == a;
    } else {
      var b', x := b[..|b| - 1], b[|b| - 1];
      assert b == b' + [x];
      FoldAppend(f, s, a, b');
      Assoc(a, b', [x]);
      FoldSnoc(f, s, a + b', x);
      FoldSnoc(f, FoldLeft(f, s, a), b', x);
    }
  }

  lemma FoldSnoc<S, A>(f: (S, A) -> S, s: S, xs: seq<A>, x: A)
    ensures FoldLeft(f, s, xs + [x]) == f(FoldLeft(f, s, xs), x)
  {
    assert (xs + [x])[..|xs|] == xs;
  }

  /** The elements that satisfy `p`, in order: a list comprehension with a condition. */
  function Filter<A>(p: A -> bool, xs: seq<A>): (r: seq<A>)
    ensures |r| <= |xs|
    ensures forall k :: 0 <= k < |r| ==> p(r[k])
    decreases |xs|
  {
    if xs == [] then []
    else Filter(p, xs[..|xs| - 1]) + (if p(xs[|xs| - 1]) then [xs[|xs| - 1]] else [])
  }

  lemma {:induction false} FilterAppend<A>(p: A -> bool, a: seq<A>, b: seq<A>)
    ensures Filter(p, a + b) == Filter(p, a) + Filter(p, b)
    decreases |b|
  {
    if b == [] {
      assert a + b == a;
    } else {
      var b', x := b[..|b| - 1], b[|b| - 1];
      assert b == b' + [x];
      FilterAppend(p, a, b');
      Assoc(a, b', [x]);
      FilterSnoc(p, a + b', x);
      FilterSnoc(p, b', x);
      Assoc(Filter(p, a), Filter(p, b'), if p(x) then [x] else []);
    }
  }

  /**
   * Splitting on `p` and on its negation loses and duplicates nothing:
   * together the two parts hold exactly the elements of `xs`.
   */
  lemma {:induction false} FilterPartition<A>(p: A -> bool, q: A -> bool, xs: seq<A>)
    requires forall x :: q(x) == !p(x)
    ensures multiset(Filter(p, xs)) + multiset(Filter(q, xs)) == multiset(xs)
    ensures |Filter(p, xs)| + |Filter(q, xs)| == |xs|
    decreases |xs|
  {
    if xs != [] {
      var xs', x := xs[..|xs| - 1], xs[|xs| - 1];
      FilterPartition(p, q, xs');
      assert xs == xs' + [x];
      FilterSnoc(p, xs', x);
      FilterSnoc(q, xs', x);
    }
  }

  /** Filtering one more element keeps it or drops it. */
  lemma FilterSnoc<A>(p: A -> bool, xs: seq<A>, x: A)
    ensures Filter(p, xs + [x]) == Filter(p, xs) + (if p(x) then [x] else [])
    ensures multiset(Filter(p, xs + [x])) == multiset(Filter(p, xs)) + (if p(x) then multiset{x} else multiset{})
  {
    assert (xs + [x])[..|xs|] == xs;
  }

  /** An element that satisfies `p` is kept, one that does not is dropped. */
  lemma {:induction false} FilterMembers<A>(p: A -> bool, xs: seq<A>, x: A)
    ensures x in Filter(p, xs) <==> x in xs && p(x)
    decreases |xs|
  {
    if xs != [] {
      var xs' := xs[..|xs| - 1];
      FilterMembers(p, xs', x);
      assert xs == xs' + [xs[|xs| - 1]];
    }
  }

  /** How many elements satisfy `p`. */
  function Count<A>(p: A -> bool, xs: seq<A>): nat {
    |Filter(p, xs)|
  }

  /** Two conditions that never hold together count separately what their union counts. */
  lemma {:induction false} CountDisjoint<A>(p: A -> bool, q: A -> bool, pq: A -> bool, xs: seq<A>)
    requires forall x :: !(p(x) && q(x))
    requires forall x :: pq(x) == (p(x) || q(x))
    ensures Count(p, xs) + Count(q, xs) == Count(pq, xs)
    decreases |xs|
  {
    if xs != [] {
      CountDisjoint(p, q, pq, xs[..|xs| - 1]);
    }
  }

  /** `f` applied to each element, in order. */
  function Map<A, B>(f: A -> B, xs: seq<A>): (r: seq<B>)
    ensures |r| == |xs|
    ensures forall k :: 0 <= k < |xs| ==> r[k] == f(xs[k])
  {
    seq(|xs|, k requires 0 <= k < |xs| => f(xs[k]))
  }

  lemma MapAppend<A, B>(f: A -> B, a: seq<A>, b: seq<A>)
    ensures Map(f, a + b) == Map(f, a) + Map(f, b)
  {
    assert forall k :: 0 <= k < |b| ==> (a + b)[|a| + k] == b[k];
  }

  lemma MapSnoc<A, B>(f: A -> B, xs: seq<A>, i: nat)
    requires i < |xs|
    ensures Map(f, xs[..i + 1]) == Map(f, xs[..i]) + [f(xs[i])]
  {
  }

  lemma TakeSnoc<A>(xs: seq<A>, i: nat)
    requires i < |xs|
    ensures xs[..i + 1] == xs[..i] + [xs[i]]
  {
  }
}
