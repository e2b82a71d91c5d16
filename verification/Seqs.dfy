/** Small facts about sequences that several of the models share. */
module Seqs {

  function Map<A, B>(f: A -> B, xs: seq<A>): (ys: seq<B>)
    ensures |ys| == |xs|
    ensures forall i :: 0 <= i < |xs| ==> ys[i] == f(xs[i])
  {
    if xs == [] then [] else Map(f, xs[..|xs| - 1]) + [f(xs[|xs| - 1])]
  }

  function Filter<A>(p: A -> bool, xs: seq<A>): (ys: seq<A>)
    ensures |ys| <= |xs|
  {
    if xs == [] then []
    else Filter(p, xs[..|xs| - 1]) + (if p(xs[|xs| - 1]) then [xs[|xs| - 1]] else [])
  }

  /** Conjunction and composition, named so that every use is the same function value. */
  function And<A>(p: A -> bool, q: A -> bool): A -> bool { (x: A) => p(x) && q(x) }
  function After<A, B, C>(g: B -> C, f: A -> B): A -> C { (x: A) => g(f(x)) }

  ghost predicate Distinct<A>(xs: seq<A>) {
    forall i, j :: 0 <= i < j < |xs| ==> xs[i] != xs[j]
  }

  /** The elements of a sequence, as a set. */
  function ToSet<A>(xs: seq<A>): set<A> { set x | x in xs }

  lemma {:induction false} FilterMembers<A>(p: A -> bool, xs: seq<A>)
    ensures forall y :: y in Filter(p, xs) <==> y in xs && p(y)
  {
    if xs != [] {
      FilterMembers(p, xs[..|xs| - 1]);
      assert xs == xs[..|xs| - 1] + [xs[|xs| - 1]];
    }
  }

  lemma {:induction false} FilterAppend<A>(p: A -> bool, xs: seq<A>, ys: seq<A>)
    ensures Filter(p, xs + ys) == Filter(p, xs) + Filter(p, ys)
  {
    if ys == [] {
      assert xs + ys == xs;
    } else {
      assert (xs + ys)[..|xs + ys| - 1] == xs + ys[..|ys| - 1];
      FilterAppend(p, xs, ys[..|ys| - 1]);
    }
  }

  lemma {:induction false} MapAppend<A, B>(f: A -> B, xs: seq<A>, ys: seq<A>)
    ensures Map(f, xs + ys) == Map(f, xs) + Map(f, ys)
  {
  }

  /** Two filters that agree on the elements present give the same result. */
  lemma {:induction false} FilterCong<A>(p: A -> bool, q: A -> bool, xs: seq<A>)
    requires forall x :: x in xs ==> p(x) == q(x)
    ensures Filter(p, xs) == Filter(q, xs)
  {
    if xs != [] {
      FilterCong(p, q, xs[..|xs| - 1]);
    }
  }

  /** Filtering twice is filtering by the conjunction. */
  lemma {:induction false} FilterFilter<A>(p: A -> bool, q: A -> bool, xs: seq<A>)
    ensures Filter(p, Filter(q, xs)) == Filter(And(q, p), xs)
  {
    if xs != [] {
      var init, x := xs[..|xs| - 1], xs[|xs| - 1];
      FilterFilter(p, q, init);
      FilterAppend(p, Filter(q, init), if q(x) then [x] else []);
      if q(x) {
        assert [x][..0] == [];
        assert Filter(p, [x]) == if p(x) then [x] else [];
      }
    }
  }

  /** Filtering after a map is mapping after the pulled-back filter. */
  lemma {:induction false} FilterMap<A, B>(p: B -> bool, f: A -> B, xs: seq<A>)
    ensures Filter(p, Map(f, xs)) == Map(f, Filter(After(p, f), xs))
  {
    if xs != [] {
      var init, x := xs[..|xs| - 1], xs[|xs| - 1];
      FilterMap(p, f, init);
      assert Map(f, xs)[..|xs| - 1] == Map(f, init);
      var kept := Filter(After(p, f), init);
      if p(f(x)) {
        assert (kept + [x])[..|kept|] == kept;
      }
    }
  }

  lemma {:induction false} MapCong<A, B>(f: A -> B, g: A -> B, xs: seq<A>)
    requires forall x :: x in xs ==> f(x) == g(x)
    ensures Map(f, xs) == Map(g, xs)
  {
  }

  lemma {:induction false} MapMap<A, B, C>(f: A -> B, g: B -> C, xs: seq<A>)
    ensures Map(g, Map(f, xs)) == Map(After(g, f), xs)
  {
  }

  lemma {:induction false} FilterAll<A>(p: A -> bool, xs: seq<A>)
    requires forall x :: x in xs ==> p(x)
    ensures Filter(p, xs) == xs
  {
    if xs != [] {
      FilterAll(p, xs[..|xs| - 1]);
      assert xs == xs[..|xs| - 1] + [xs[|xs| - 1]];
    }
  }

  lemma {:induction false} FilterNone<A>(p: A -> bool, xs: seq<A>)
    requires forall x :: x in xs ==> !p(x)
    ensures Filter(p, xs) == []
  {
    if xs != [] {
      FilterNone(p, xs[..|xs| - 1]);
    }
  }

  /** The results of f over the elements, joined in order. */
  function FlatMap<A, B>(f: A -> seq<B>, xs: seq<A>): seq<B> {
    if xs == [] then [] else FlatMap(f, xs[..|xs| - 1]) + f(xs[|xs| - 1])
  }

  lemma {:induction false} FlatMapMember<A, B>(f: A -> seq<B>, xs: seq<A>, y: B)
    ensures y in FlatMap(f, xs) <==> exists i :: 0 <= i < |xs| && y in f(xs[i])
  {
    if xs != [] {
      FlatMapMember(f, xs[..|xs| - 1], y);
    }
  }

  lemma {:induction false} FlatMapAppend<A, B>(f: A -> seq<B>, xs: seq<A>, ys: seq<A>)
    ensures FlatMap(f, xs + ys) == FlatMap(f, xs) + FlatMap(f, ys)
  {
    if ys == [] {
      assert xs + ys == xs;
    } else {
      assert (xs + ys)[..|xs + ys| - 1] == xs + ys[..|ys| - 1];
      FlatMapAppend(f, xs, ys[..|ys| - 1]);
    }
  }

  lemma {:induction false} FlatMapNonEmpty<A, B>(f: A -> seq<B>, xs: seq<A>)
    ensures FlatMap(f, xs) != [] <==> exists x :: x in xs && f(x) != []
  {
    if xs != [] {
      FlatMapNonEmpty(f, xs[..|xs| - 1]);
      assert xs == xs[..|xs| - 1] + [xs[|xs| - 1]];
    }
  }

  lemma {:induction false} FlatMapCong<A, B>(f: A -> seq<B>, g: A -> seq<B>, xs: seq<A>)
    requires forall x :: x in xs ==> f(x) == g(x)
    ensures FlatMap(f, xs) == FlatMap(g, xs)
  {
    if xs != [] { FlatMapCong(f, g, xs[..|xs| - 1]); }
  }

  lemma FlatMapStep<A, B>(f: A -> seq<B>, xs: seq<A>, i: nat)
    requires i < |xs|
    ensures FlatMap(f, xs[..i + 1]) == FlatMap(f, xs[..i]) + f(xs[i])
  {
    assert xs[..i + 1][..i] == xs[..i];
  }
}
