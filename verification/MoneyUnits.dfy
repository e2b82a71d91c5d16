/** Which output names carry money: a bounded-pass fixpoint over the projections of a query. */
module MoneyUnits {
  import opened Seqs
  import opened SqlAst

  const MAX_PROPAGATION_PASSES := 8

  /** Some column below reads a money name. */
  predicate TouchesMoney(n: Node, money: set<string>) {
    (n.kind.Column? && n.kind.name in money) || exists i :: 0 <= i < |n.kids| && TouchesMoney(n.kids[i], money)
  }

  /** Some division below divides money by money. */
  predicate IsDimensionless(n: Node, money: set<string>) {
    (n.kind.Div? && |n.kids| == 2 && TouchesMoney(n.kids[0], money) && TouchesMoney(n.kids[1], money))
    || exists i :: 0 <= i < |n.kids| && IsDimensionless(n.kids[i], money)
  }

  /** alias_or_name, "" when the expression has neither. */
  function OutputName(n: Node): string {
    match n.kind case Alias(a) => a case Column(_, c) => c case _ => ""
  }

  function OwnProjections(t: Node): Path -> seq<Node> {
    (p: Path) =>
      if Valid(t, p) && At(t, p).kind.Select? && At(t, p).kind.projections <= |At(t, p).kids|
      then At(t, p).kids[..At(t, p).kind.projections] else []
  }

  /** The projections of every SELECT, in traversal order. */
  function Projections(t: Node): seq<Node> { FlatMap(OwnProjections(t), Positions(t)) }

  /** The projection adds its name to the money names. */
  predicate Adds(n: Node, money: set<string>) {
    OutputName(n) != "" && OutputName(n) !in money && TouchesMoney(n, money) && !IsDimensionless(n, money)
  }

  function Pass(ps: seq<Node>, money: set<string>): set<string> {
    if ps == [] then money
    else
      var m := Pass(ps[..|ps| - 1], money);
      if Adds(ps[|ps| - 1], m) then m + {OutputName(ps[|ps| - 1])} else m
  }

  function Passes(ps: seq<Node>, currency: set<string>, k: nat): set<string> {
    if k == 0 then currency else Pass(ps, Passes(ps, currency, k - 1))
  }

  /** Every named projection outside the set touches no money or is a money/money ratio. */
  ghost predicate Closed(ps: seq<Node>, money: set<string>) {
    forall i :: 0 <= i < |ps| && OutputName(ps[i]) != "" && OutputName(ps[i]) !in money ==>
      !TouchesMoney(ps[i], money) || IsDimensionless(ps[i], money)
  }

  /** One pass of the loop over all projections. */
  method RunPass(ps: seq<Node>, before: set<string>) returns (money: set<string>, added: bool)
    ensures money == Pass(ps, before)
    ensures added <==> money != before
  {
    money, added := before, false;
    for i := 0 to |ps|
      invariant money == Pass(ps[..i], before) && before <= money
      invariant added <==> money != before
    {
      assert ps[..i + 1][..i] == ps[..i];
      if Adds(ps[i], money) {
        assert OutputName(ps[i]) !in before;
        money := money + {OutputName(ps[i])};
        added := true;
      }
    }
    assert ps[..|ps|] == ps;
  }

  /** money_output_names. */
  method MoneyOutputNames(t: Node, currency: set<string>) returns (money: set<string>)
    ensures money == Passes(Projections(t), currency, MAX_PROPAGATION_PASSES)
  {
    var ps := Projections(t);
    money := currency;
    for k := 0 to MAX_PROPAGATION_PASSES
      invariant money == Passes(ps, currency, k)
    {
      var added;
      money, added := RunPass(ps, money);
      if !added {
        StaysPut(ps, currency, k, MAX_PROPAGATION_PASSES);
        return;
      }
    }
  }

  // ------------------------------------------------------------------
  // Growth and closure
  // ------------------------------------------------------------------

  lemma {:induction false} PassGrows(ps: seq<Node>, money: set<string>)
    ensures money <= Pass(ps, money)
    ensures Pass(ps, money) <= money + Named(ps)
  {
    if ps != [] {
      PassGrows(ps[..|ps| - 1], money);
      NamedStep(ps);
    }
  }

  /** The names the projections could add. */
  ghost function Named(ps: seq<Node>): set<string> { set n | n in ps && OutputName(n) != "" :: OutputName(n) }

  lemma NamedStep(ps: seq<Node>)
    requires ps != []
    ensures var last := OutputName(ps[|ps| - 1]);
            Named(ps) == Named(ps[..|ps| - 1]) + if last != "" then {last} else {}
  {
    var init, last := ps[..|ps| - 1], ps[|ps| - 1];
    assert ps == init + [last];
    assert forall n :: n in ps <==> n in init || n == last;
  }

  /** A pass that adds nothing is exactly a closed set. */
  lemma {:induction false} PassFixesClosed(ps: seq<Node>, money: set<string>)
    ensures Pass(ps, money) == money <==> Closed(ps, money)
  {
    if ps != [] {
      var init := ps[..|ps| - 1];
      PassFixesClosed(init, money);
      PassGrows(init, money);
      PassGrows(ps, money);
      assert ps == init + [ps[|ps| - 1]];
      assert Closed(ps, money) <==> Closed(init, money) && !Adds(ps[|ps| - 1], money);
      if Pass(ps, money) == money {
        assert Pass(init, money) == money;
      }
    }
  }

  lemma {:induction false} StaysPut(ps: seq<Node>, currency: set<string>, j: nat, k: nat)
    requires j <= k && Pass(ps, Passes(ps, currency, j)) == Passes(ps, currency, j)
    ensures Passes(ps, currency, k) == Passes(ps, currency, j)
    decreases k
  {
    if j < k { StaysPut(ps, currency, j, k - 1); }
  }

  /** The set only grows, pass after pass, and never beyond the projected names. */
  lemma {:induction false} PassesGrow(ps: seq<Node>, currency: set<string>, j: nat, k: nat)
    requires j <= k
    ensures Passes(ps, currency, j) <= Passes(ps, currency, k) <= currency + Named(ps)
    decreases k
  {
    if j < k {
      PassesGrow(ps, currency, j, k - 1);
      PassGrows(ps, Passes(ps, currency, k - 1));
    } else if k > 0 {
      PassesGrow(ps, currency, j - 1, k - 1);
      PassGrows(ps, Passes(ps, currency, k - 1));
    }
  }

  /** After k passes the set is closed, or every pass so far added a name. */
  lemma {:induction false} ClosedOrGrown(ps: seq<Node>, currency: set<string>, k: nat)
    ensures Closed(ps, Passes(ps, currency, k)) || |Passes(ps, currency, k) - currency| >= k
  {
    if k > 0 {
      var before, after := Passes(ps, currency, k - 1), Passes(ps, currency, k);
      ClosedOrGrown(ps, currency, k - 1);
      PassesGrow(ps, currency, 0, k - 1);
      PassFixesClosed(ps, before);
      PassGrows(ps, before);
      if after != before {
        var x :| x in after && x !in before;
        Larger(before - currency, after - currency, x);
      }
    }
  }

  lemma Larger<A>(s: set<A>, t: set<A>, x: A)
    requires s <= t && x in t && x !in s
    ensures |t| >= |s| + 1
  {
    SubsetSize(s + {x}, t);
  }

  lemma {:induction false} SubsetSize<A>(s: set<A>, t: set<A>)
    requires s <= t
    ensures |s| <= |t|
    ensures |s| == |t| ==> s == t
  {
    if s != {} {
      var x :| x in s;
      SubsetSize(s - {x}, t - {x});
    }
  }

  /**
   * The passes suffice whenever at most as many distinct names as there are passes are projected
   * outside the declared currency columns.
   */
  lemma ClosedWithinBound(ps: seq<Node>, currency: set<string>)
    requires |Named(ps) - currency| <= MAX_PROPAGATION_PASSES
    ensures Closed(ps, Passes(ps, currency, MAX_PROPAGATION_PASSES))
  {
    var money := Passes(ps, currency, MAX_PROPAGATION_PASSES);
    ClosedOrGrown(ps, currency, MAX_PROPAGATION_PASSES);
    PassesGrow(ps, currency, 0, MAX_PROPAGATION_PASSES);
    if !Closed(ps, money) {
      SubsetSize(money - currency, Named(ps) - currency);
      assert money - currency == Named(ps) - currency;
      forall i | 0 <= i < |ps| && OutputName(ps[i]) != "" ensures OutputName(ps[i]) in money {
        var x := OutputName(ps[i]);
        assert ps[i] in ps;
        assert x in Named(ps);
        if x !in currency { assert x in Named(ps) - currency; }
      }
    }
  }

  // ------------------------------------------------------------------
  // Derivations
  // ------------------------------------------------------------------

  /** Some column below has this name. */
  predicate Mentions(n: Node, c: string) { TouchesMoney(n, {c}) }

  /** Some projection called `to` reads a column called `from`. */
  ghost predicate Reads(ps: seq<Node>, from: string, to: string) {
    exists n :: n in ps && OutputName(n) == to && Mentions(n, from)
  }

  /** A chain from a currency column to x, each name projected from an expression that reads the one before. */
  ghost predicate Derivation(ps: seq<Node>, currency: set<string>, chain: seq<string>, x: string) {
    && chain != [] && chain[0] in currency && chain[|chain| - 1] == x
    && forall i :: 0 < i < |chain| ==> Reads(ps, chain[i - 1], chain[i])
  }

  lemma {:induction false} TouchesByName(n: Node, money: set<string>) returns (c: string)
    requires TouchesMoney(n, money)
    ensures c in money && Mentions(n, c)
  {
    if n.kind.Column? && n.kind.name in money {
      c := n.kind.name;
    } else {
      var i :| 0 <= i < |n.kids| && TouchesMoney(n.kids[i], money);
      c := TouchesByName(n.kids[i], money);
    }
  }

  ghost predicate AllDerived(ps: seq<Node>, currency: set<string>, money: set<string>) {
    forall x :: x in money ==> exists chain :: Derivation(ps, currency, chain, x)
  }

  lemma ExtendDerivation(ps: seq<Node>, currency: set<string>, chain: seq<string>, c: string, n: Node)
    requires Derivation(ps, currency, chain, c) && n in ps && Mentions(n, c)
    ensures Derivation(ps, currency, chain + [OutputName(n)], OutputName(n))
  {
    var longer := chain + [OutputName(n)];
    assert Reads(ps, c, OutputName(n));
    forall i | 0 < i < |longer| ensures Reads(ps, longer[i - 1], longer[i]) {
      if i < |chain| { assert longer[i] == chain[i] && longer[i - 1] == chain[i - 1]; }
    }
  }

  lemma {:induction false} PassDerives(all: seq<Node>, ps: seq<Node>, currency: set<string>, money: set<string>)
    requires AllDerived(all, currency, money) && forall n :: n in ps ==> n in all
    ensures AllDerived(all, currency, Pass(ps, money))
  {
    if ps != [] {
      var init, n := ps[..|ps| - 1], ps[|ps| - 1];
      PassDerives(all, init, currency, money);
      var m := Pass(init, money);
      if Adds(n, m) {
        var c := TouchesByName(n, m);
        var chain :| Derivation(all, currency, chain, c);
        assert n in ps;
        ExtendDerivation(all, currency, chain, c, n);
      }
    }
  }

  /** No name is called money without a derivation that reaches a declared currency column. */
  lemma {:induction false} MoneyIsDerived(ps: seq<Node>, currency: set<string>, k: nat)
    ensures AllDerived(ps, currency, Passes(ps, currency, k))
  {
    if k == 0 {
      forall x | x in currency ensures exists chain :: Derivation(ps, currency, chain, x) {
        assert Derivation(ps, currency, [x], x);
      }
    } else {
      MoneyIsDerived(ps, currency, k - 1);
      PassDerives(ps, ps, currency, Passes(ps, currency, k - 1));
    }
  }

  // ------------------------------------------------------------------
  // The bound is sharp
  // ------------------------------------------------------------------

  /** SELECT names[i] AS names[i + 1]. */
  function Rename(from: string, to: string): Node { Node(Alias(to), [Node(Column("", from), [])]) }

  /** Renamings listed consumer first: names[n - 1] AS names[n], .., names[0] AS names[1]. */
  function Backwards(names: seq<string>, n: nat): seq<Node>
    requires n < |names|
  {
    if n == 0 then [] else [Rename(names[n - 1], names[n])] + Backwards(names, n - 1)
  }

  function Upto(names: seq<string>, k: nat): set<string>
    requires k < |names|
  {
    set i | 0 <= i <= k :: names[i]
  }

  ghost predicate ChainNames(names: seq<string>) {
    Seqs.Distinct(names) && names != [] && forall i :: 0 <= i < |names| ==> names[i] != ""
  }

  lemma RenameAdds(names: seq<string>, i: nat, k: nat)
    requires ChainNames(names) && i + 1 < |names| && k < |names|
    ensures Adds(Rename(names[i], names[i + 1]), Upto(names, k)) <==> i == k
  {
    var n := Rename(names[i], names[i + 1]);
    assert n.kids[0].kids == [];
    assert TouchesMoney(n.kids[0], Upto(names, k)) <==> names[i] in Upto(names, k);
    assert TouchesMoney(n, Upto(names, k)) <==> TouchesMoney(n.kids[0], Upto(names, k));
    assert !IsDimensionless(n.kids[0], Upto(names, k));
  }

  lemma {:induction false} PassAppendLeft(n: Node, ps: seq<Node>, money: set<string>)
    ensures Pass([n] + ps, money) == Pass(ps, if Adds(n, money) then money + {OutputName(n)} else money)
  {
    if ps == [] {
      assert [n] + ps == [n] && [n][..0] == [];
    } else {
      assert ([n] + ps)[..|ps|] == [n] + ps[..|ps| - 1];
      PassAppendLeft(n, ps[..|ps| - 1], money);
    }
  }

  lemma UptoNext(names: seq<string>, k: nat)
    requires k + 1 < |names|
    ensures Upto(names, k) + {names[k + 1]} == Upto(names, k + 1)
  {
  }

  /** One pass over the consumer-first chain advances money by a single name. */
  lemma {:induction false} BackwardsPass(names: seq<string>, n: nat, k: nat)
    requires ChainNames(names) && n < |names| && k + 1 < |names|
    ensures Pass(Backwards(names, n), Upto(names, k)) == Upto(names, if k < n then k + 1 else k)
  {
    if n > 0 {
      RenameAdds(names, n - 1, k);
      PassAppendLeft(Rename(names[n - 1], names[n]), Backwards(names, n - 1), Upto(names, k));
      if n - 1 == k {
        UptoNext(names, k);
        if k + 2 < |names| {
          BackwardsPass(names, n - 1, k + 1);
        } else {
          BackwardsDone(names, n - 1);
        }
      } else {
        BackwardsPass(names, n - 1, k);
      }
    }
  }

  lemma {:induction false} BackwardsDone(names: seq<string>, n: nat)
    requires ChainNames(names) && n < |names| - 1
    ensures Pass(Backwards(names, n), Upto(names, |names| - 1)) == Upto(names, |names| - 1)
  {
    if n > 0 {
      RenameAdds(names, n - 1, |names| - 1);
      PassAppendLeft(Rename(names[n - 1], names[n]), Backwards(names, n - 1), Upto(names, |names| - 1));
      BackwardsDone(names, n - 1);
    }
  }

  lemma {:induction false} BackwardsPasses(names: seq<string>, k: nat)
    requires ChainNames(names) && k < |names|
    ensures Passes(Backwards(names, |names| - 1), {names[0]}, k) == Upto(names, k)
  {
    if k == 0 {
      assert Upto(names, 0) == {names[0]};
    } else {
      BackwardsPasses(names, k - 1);
      BackwardsPass(names, |names| - 1, k - 1);
    }
  }

  /** After k passes over a chain of more than k renamings there is still one to follow. */
  lemma ChainOutrunsPasses(names: seq<string>, k: nat)
    requires ChainNames(names) && k + 1 < |names|
    ensures var ps := Backwards(names, |names| - 1); !Closed(ps, Passes(ps, {names[0]}, k))
  {
    BackwardsPasses(names, k);
    BackwardsPass(names, |names| - 1, k);
    PassFixesClosed(Backwards(names, |names| - 1), Upto(names, k));
    assert names[k + 1] in Upto(names, k + 1) && names[k + 1] !in Upto(names, k);
  }

  /** With more names than there are passes the result may not be closed, however long the chain. */
  lemma NinthNameEscapes(names: seq<string>)
    requires ChainNames(names) && |names| >= MAX_PROPAGATION_PASSES + 2
    ensures var ps := Backwards(names, |names| - 1); !Closed(ps, Passes(ps, {names[0]}, MAX_PROPAGATION_PASSES))
  {
    ChainOutrunsPasses(names, MAX_PROPAGATION_PASSES);
  }

  // ------------------------------------------------------------------
  // The chain as a query
  // ------------------------------------------------------------------

  /** The projections k levels below n, left to right. */
  function LevelProjections(n: Node, k: nat): seq<Node>
    decreases k, n, 0
  {
    if k == 0 then OwnProjections(n)([]) else AllLevelProjections(n.kids, k - 1)
  }

  function AllLevelProjections(ns: seq<Node>, k: nat): seq<Node>
    decreases k, ns, 1
  {
    if ns == [] then [] else AllLevelProjections(ns[..|ns| - 1], k) + LevelProjections(ns[|ns| - 1], k)
  }

  ghost function Under(i: nat): Path -> Path { (p: Path) => [i] + p }
  ghost function KidLevel(t: Node, k: nat): nat -> seq<Path> {
    (i: nat) => if i < |t.kids| then Map(Under(i), Level(t.kids[i], k)) else []
  }
  ghost function Indices(n: nat): seq<nat> { seq(n, i => i) }

  lemma {:induction false} FlatMapMap<A, B, C>(f: B -> seq<C>, g: A -> B, xs: seq<A>)
    ensures FlatMap(f, Map(g, xs)) == FlatMap(After(f, g), xs)
  {
    if xs != [] {
      FlatMapMap(f, g, xs[..|xs| - 1]);
      assert Map(g, xs)[..|xs| - 1] == Map(g, xs[..|xs| - 1]);
    }
  }

  lemma {:induction false} FlatMapFlatMap<A, B, C>(f: B -> seq<C>, g: A -> seq<B>, h: A -> seq<C>, xs: seq<A>)
    requires forall x :: x in xs ==> FlatMap(f, g(x)) == h(x)
    ensures FlatMap(f, FlatMap(g, xs)) == FlatMap(h, xs)
  {
    if xs != [] {
      FlatMapFlatMap(f, g, h, xs[..|xs| - 1]);
      FlatMapAppend(f, FlatMap(g, xs[..|xs| - 1]), g(xs[|xs| - 1]));
    }
  }

  /** One position's children, seen from a kid of the root. */
  lemma BelowUnder(t: Node, i: nat, p: Path)
    requires i < |t.kids|
    ensures Below(t)([i] + p) == Map(Under(i), Below(t.kids[i])(p))
  {
    var q := [i] + p;
    assert q[1..] == p;
    if Valid(t.kids[i], p) {
      var m := |At(t.kids[i], p).kids|;
      assert At(t, q) == At(t.kids[i], p);
      forall j | 0 <= j < m ensures q + [j] == [i] + (p + [j]) {
      }
    }
  }

  /** A level of a tree is the levels one less of its kids, side by side. */
  ghost predicate ByKids(t: Node, k: nat) { Level(t, k + 1) == FlatMap(KidLevel(t, k), Indices(|t.kids|)) }

  lemma {:induction false} LevelByKids(t: Node, k: nat)
    ensures ByKids(t, k)
  {
    FirstLevelByKids(t);
    for i := 0 to k
      invariant ByKids(t, i)
    {
      NextLevelByKids(t, i);
    }
  }

  lemma FirstLevelByKids(t: Node)
    ensures ByKids(t, 0)
  {
    RootKids(t);
    RootLevel(t);
  }

  lemma NextLevelByKids(t: Node, k: nat)
    requires ByKids(t, k)
    ensures ByKids(t, k + 1)
  {
    DeeperKids(t, k);
  }

  lemma DeeperKids(t: Node, k: nat)
    ensures FlatMap(Below(t), FlatMap(KidLevel(t, k), Indices(|t.kids|)))
         == FlatMap(KidLevel(t, k + 1), Indices(|t.kids|))
  {
    forall i: nat | i in Indices(|t.kids|) ensures FlatMap(Below(t), KidLevel(t, k)(i)) == KidLevel(t, k + 1)(i) {
      KidLevelStep(t, i, k);
    }
    FlatMapFlatMap(Below(t), KidLevel(t, k), KidLevel(t, k + 1), Indices(|t.kids|));
  }

  lemma FlatMapOne<A, B>(f: A -> seq<B>, x: A)
    ensures FlatMap(f, [x]) == f(x)
  {
    assert [x][..0] == [];
  }

  const ROOT: Path := []

  lemma RootLevel(t: Node)
    ensures Level(t, 1) == Below(t)(ROOT)
    ensures |Below(t)(ROOT)| == |t.kids| && forall i :: 0 <= i < |t.kids| ==> Below(t)(ROOT)[i] == [i]
  {
    assert Level(t, 0) == [ROOT];
    FlatMapOne(Below(t), ROOT);
    assert Valid(t, ROOT) && At(t, ROOT) == t;
    forall i | 0 <= i < |t.kids| ensures Below(t)(ROOT)[i] == [i] {
      assert ROOT + [i] == [i];
    }
  }

  lemma MapOne<A, B>(f: A -> B, x: A)
    ensures Map(f, [x]) == [f(x)]
  {
    assert [x][..0] == [];
  }

  ghost predicate FirstKids(t: Node, n: nat) {
    n <= |Below(t)(ROOT)| && FlatMap(KidLevel(t, 0), Indices(n)) == Below(t)(ROOT)[..n]
  }

  lemma RootKids(t: Node)
    ensures FlatMap(KidLevel(t, 0), Indices(|t.kids|)) == Below(t)(ROOT)
  {
    RootLevel(t);
    NoRootKid(t);
    for n := 0 to |t.kids|
      invariant FirstKids(t, n)
    {
      NextRootKid(t, n);
    }
    assert Below(t)(ROOT)[..|t.kids|] == Below(t)(ROOT);
  }

  lemma NoRootKid(t: Node)
    ensures FirstKids(t, 0)
  {
    assert Indices(0) == [];
  }

  lemma NextRootKid(t: Node, n: nat)
    requires FirstKids(t, n) && n < |t.kids|
    ensures FirstKids(t, n + 1)
  {
    RootLevel(t);
    NextIndex(KidLevel(t, 0), n);
    OneRootKid(t, n);
    TakeNext(Below(t)(ROOT), n);
  }

  lemma TakeNext<A>(xs: seq<A>, n: nat)
    requires n < |xs|
    ensures xs[..n + 1] == xs[..n] + [xs[n]]
  {
  }

  lemma NextIndex<A>(f: nat -> seq<A>, n: nat)
    ensures FlatMap(f, Indices(n + 1)) == FlatMap(f, Indices(n)) + f(n)
  {
    assert Indices(n + 1)[..n] == Indices(n);
  }

  lemma OneRootKid(t: Node, i: nat)
    requires i < |t.kids|
    ensures KidLevel(t, 0)(i) == [[i]]
  {
    MapOne(Under(i), ROOT);
    assert Level(t.kids[i], 0) == [ROOT] && [i] + ROOT == [i];
  }

  lemma KidLevelStep(t: Node, i: nat, k: nat)
    requires i < |t.kids|
    ensures FlatMap(Below(t), KidLevel(t, k)(i)) == KidLevel(t, k + 1)(i)
  {
    var kid := t.kids[i];
    FlatMapMap(Below(t), Under(i), Level(kid, k));
    MapFlatMap(Under(i), Below(kid), Level(kid, k));
    forall p ensures After(Below(t), Under(i))(p) == AfterEach(Under(i), Below(kid))(p) {
      BelowUnder(t, i, p);
    }
    FlatMapCong(After(Below(t), Under(i)), AfterEach(Under(i), Below(kid)), Level(kid, k));
  }

  ghost function AfterEach<A, B, C>(g: B -> C, f: A -> seq<B>): A -> seq<C> { (x: A) => Map(g, f(x)) }

  lemma {:induction false} MapFlatMap<A, B, C>(g: B -> C, f: A -> seq<B>, xs: seq<A>)
    ensures Map(g, FlatMap(f, xs)) == FlatMap(AfterEach(g, f), xs)
  {
    if xs != [] {
      MapFlatMap(g, f, xs[..|xs| - 1]);
      MapAppend(g, FlatMap(f, xs[..|xs| - 1]), f(xs[|xs| - 1]));
    }
  }

  lemma OwnUnder(t: Node, i: nat, p: Path)
    requires i < |t.kids|
    ensures OwnProjections(t)([i] + p) == OwnProjections(t.kids[i])(p)
  {
    assert ([i] + p)[1..] == p;
  }

  ghost predicate LevelAgrees(t: Node, k: nat) {
    FlatMap(OwnProjections(t), Level(t, k)) == LevelProjections(t, k)
  }

  /** What a level of the traversal contributes is found level by level from the tree itself. */
  lemma {:induction false} ProjectionsOfLevel(t: Node, k: nat)
    ensures LevelAgrees(t, k)
    decreases k
  {
    if k == 0 {
      ProjectionsOfRoot(t);
    } else {
      forall i: nat | i < |t.kids| ensures LevelAgrees(t.kids[i], k - 1) {
        ProjectionsOfLevel(t.kids[i], k - 1);
      }
      AllKidProjections(t, k - 1);
    }
  }

  lemma ProjectionsOfRoot(t: Node)
    ensures LevelAgrees(t, 0)
  {
    FlatMapOne(OwnProjections(t), ROOT);
  }

  lemma AllKidProjections(t: Node, k: nat)
    requires forall i: nat :: i < |t.kids| ==> LevelAgrees(t.kids[i], k)
    ensures LevelAgrees(t, k + 1)
  {
    LevelByKids(t, k);
    forall i: nat | i in Indices(|t.kids|)
      ensures FlatMap(OwnProjections(t), KidLevel(t, k)(i)) == KidProjections(t, k)(i)
    {
      KidProjectionStep(t, i, k);
    }
    FlatMapFlatMap(OwnProjections(t), KidLevel(t, k), KidProjections(t, k), Indices(|t.kids|));
    KidByKid(t, k, |t.kids|);
    assert t.kids[..|t.kids|] == t.kids;
  }

  lemma KidProjectionStep(t: Node, i: nat, k: nat)
    requires i < |t.kids|
    requires LevelAgrees(t.kids[i], k)
    ensures FlatMap(OwnProjections(t), KidLevel(t, k)(i)) == KidProjections(t, k)(i)
  {
    var kid := t.kids[i];
    FlatMapMap(OwnProjections(t), Under(i), Level(kid, k));
    forall p ensures After(OwnProjections(t), Under(i))(p) == OwnProjections(kid)(p) {
      OwnUnder(t, i, p);
    }
    FlatMapCong(After(OwnProjections(t), Under(i)), OwnProjections(kid), Level(kid, k));
  }

  ghost function KidProjections(t: Node, k: nat): nat -> seq<Node> {
    (i: nat) => if i < |t.kids| then LevelProjections(t.kids[i], k) else []
  }

  lemma {:induction false} KidByKid(t: Node, k: nat, n: nat)
    requires n <= |t.kids|
    ensures FlatMap(KidProjections(t, k), Indices(n)) == AllLevelProjections(t.kids[..n], k)
  {
    if n > 0 {
      KidByKid(t, k, n - 1);
      assert Indices(n)[..n - 1] == Indices(n - 1);
      assert t.kids[..n][..n - 1] == t.kids[..n - 1];
    }
  }

  /** The projections of the first n levels. */
  function UptoLevel(t: Node, n: nat): seq<Node> {
    if n == 0 then [] else UptoLevel(t, n - 1) + LevelProjections(t, n - 1)
  }

  lemma {:induction false} ProjectionsByLevel(t: Node, n: nat)
    ensures FlatMap(OwnProjections(t), Levels(t, n)) == UptoLevel(t, n)
  {
    if n > 0 {
      ProjectionsByLevel(t, n - 1);
      OneMoreLevel(t, n - 1);
    }
  }

  lemma OneMoreLevel(t: Node, n: nat)
    requires FlatMap(OwnProjections(t), Levels(t, n)) == UptoLevel(t, n)
    ensures FlatMap(OwnProjections(t), Levels(t, n + 1)) == UptoLevel(t, n + 1)
  {
    ProjectionsOfLevel(t, n);
    FlatMapAppend(OwnProjections(t), Levels(t, n), Level(t, n));
  }

  /** SELECT names[n - 1] AS names[n] FROM (SELECT .. FROM (SELECT names[0] AS names[1] FROM table)). */
  function NestedRenames(names: seq<string>, n: nat): Node
    requires 0 < n < |names|
    decreases n, 1
  {
    Node(Select(1), [Rename(names[n - 1], names[n]), NestedSource(names, n)])
  }

  function NestedSource(names: seq<string>, n: nat): Node
    requires 0 < n < |names|
    decreases n, 0
  {
    Node(Other("from"), [if n == 1 then Node(Table("fact_sales_daily"), [])
                         else Node(Other("subquery"), [NestedRenames(names, n - 1)])])
  }

  /** A node that is no SELECT has the projections of its kids, one level on. */
  lemma SingleKid(kind: Kind, kid: Node, k: nat)
    requires !kind.Select?
    ensures LevelProjections(Node(kind, [kid]), 0) == []
    ensures LevelProjections(Node(kind, [kid]), k + 1) == LevelProjections(kid, k)
  {
    assert [kid][..0] == [];
    assert AllLevelProjections([kid], k) == AllLevelProjections([], k) + LevelProjections(kid, k);
  }

  lemma RenameHasNone(from: string, to: string, k: nat)
    ensures LevelProjections(Rename(from, to), k) == []
  {
    var column := Node(Column("", from), []);
    if k > 0 {
      SingleKid(Alias(to), column, k - 1);
      if k > 1 { assert AllLevelProjections(column.kids, k - 2) == []; }
    }
  }

  lemma NestedStep(names: seq<string>, n: nat, k: nat)
    requires 1 < n < |names|
    ensures var t := NestedRenames(names, n);
            && LevelProjections(t, 0) == [Rename(names[n - 1], names[n])]
            && LevelProjections(t, 1) == LevelProjections(t, 2) == []
            && LevelProjections(t, k + 3) == LevelProjections(NestedRenames(names, n - 1), k)
  {
    var t, source := NestedRenames(names, n), NestedSource(names, n);
    var inner := NestedRenames(names, n - 1);
    var sub := Node(Other("subquery"), [inner]);
    assert t.kids[..1] == [t.kids[0]];
    TwoKids(t, names, n, 0);
    TwoKids(t, names, n, 1);
    TwoKids(t, names, n, k + 2);
    SingleKid(Other("from"), sub, 0);
    SingleKid(Other("from"), sub, k + 1);
    SingleKid(Other("subquery"), inner, k);
  }

  lemma TwoKids(t: Node, names: seq<string>, n: nat, k: nat)
    requires 0 < n < |names| && t == NestedRenames(names, n)
    ensures LevelProjections(t, k + 1) == LevelProjections(NestedSource(names, n), k)
  {
    var rename, source := t.kids[0], t.kids[1];
    assert t.kids[..1] == [rename] && [rename][..0] == [];
    RenameHasNone(names[n - 1], names[n], k);
    assert AllLevelProjections([rename], k) == AllLevelProjections([], k) + LevelProjections(rename, k) == [];
    assert AllLevelProjections(t.kids, k) == AllLevelProjections([rename], k) + LevelProjections(source, k);
  }

  lemma InnermostStep(names: seq<string>, k: nat)
    requires 1 < |names|
    ensures LevelProjections(NestedRenames(names, 1), 0) == [Rename(names[0], names[1])]
    ensures LevelProjections(NestedRenames(names, 1), k + 1) == []
  {
    var t, table := NestedRenames(names, 1), Node(Table("fact_sales_daily"), []);
    assert t.kids[..1] == [t.kids[0]];
    TwoKids(t, names, 1, k);
    if k > 0 {
      SingleKid(Other("from"), table, k - 1);
      if k > 1 { assert AllLevelProjections(table.kids, k - 2) == []; }
    }
  }

  lemma {:induction false} NestedUpto(names: seq<string>, n: nat, k: nat)
    requires 0 < n < |names| && k >= 3 * n - 2
    ensures UptoLevel(NestedRenames(names, n), k) == Backwards(names, n)
    decreases n, k
  {
    var t := NestedRenames(names, n);
    if n == 1 {
      if k == 1 {
        InnermostStep(names, 0);
        assert UptoLevel(t, 0) == [];
      } else {
        NestedUpto(names, n, k - 1);
        InnermostStep(names, k - 2);
      }
    } else {
      NestedUpto(names, n - 1, k - 3);
      ShiftUpto(names, n, k - 3);
    }
  }

  lemma {:induction false} ShiftUpto(names: seq<string>, n: nat, k: nat)
    requires 1 < n < |names|
    ensures UptoLevel(NestedRenames(names, n), k + 3)
         == [Rename(names[n - 1], names[n])] + UptoLevel(NestedRenames(names, n - 1), k)
  {
    var t, inner := NestedRenames(names, n), NestedRenames(names, n - 1);
    if k == 0 {
      ShiftNone(names, n);
    } else {
      ShiftUpto(names, n, k - 1);
      NestedStep(names, n, k - 1);
      UptoStep(t, k + 2);
      UptoStep(inner, k - 1);
      Regroup([Rename(names[n - 1], names[n])], UptoLevel(inner, k - 1), LevelProjections(inner, k - 1));
    }
  }

  lemma Regroup(a: seq<Node>, b: seq<Node>, c: seq<Node>)
    ensures (a + b) + c == a + (b + c)
  {
  }

  lemma UptoStep(t: Node, n: nat)
    ensures UptoLevel(t, n + 1) == UptoLevel(t, n) + LevelProjections(t, n)
  {
  }

  lemma ShiftNone(names: seq<string>, n: nat)
    requires 1 < n < |names|
    ensures UptoLevel(NestedRenames(names, n), 3) == [Rename(names[n - 1], names[n])]
  {
    var t := NestedRenames(names, n);
    NestedStep(names, n, 0);
    UptoStep(t, 0);
    UptoStep(t, 1);
    UptoStep(t, 2);
  }

  lemma {:induction false} NestedHeight(names: seq<string>, n: nat)
    requires 0 < n < |names|
    ensures Height(NestedRenames(names, n)) >= 3 * n
  {
    var t := NestedRenames(names, n);
    var source := NestedSource(names, n);
    KidHeight(t.kids, 1);
    KidHeight(source.kids, 0);
    if n > 1 {
      NestedHeight(names, n - 1);
      KidHeight(source.kids[0].kids, 0);
    }
  }

  /** The nested query's projections, in traversal order, are the renamings consumer first. */
  lemma NestedProjections(names: seq<string>, n: nat)
    requires 0 < n < |names|
    ensures Projections(NestedRenames(names, n)) == Backwards(names, n)
  {
    var t := NestedRenames(names, n);
    ProjectionsByLevel(t, Height(t));
    NestedHeight(names, n);
    NestedUpto(names, n, Height(t));
  }

  const NINE_RENAMES: seq<string> := ["gmv_amount", "a", "b", "c", "d", "e", "f", "g", "h", "i"]

  lemma FewNames(names: seq<string>, n: nat)
    requires 0 < n < |names|
    ensures |Named(Projections(NestedRenames(names, n))) - {names[0]}| <= n
  {
    NestedProjections(names, n);
    NamesOfChain(names, n);
    var named := Named(Backwards(names, n));
    SubsetSize(named - {names[0]}, named);
  }

  /** Any chain of more renamings than there are passes, as a query. */
  lemma ChainEscapes(names: seq<string>, k: nat)
    requires ChainNames(names) && k + 1 < |names|
    ensures !FollowsAfter(NestedRenames(names, |names| - 1), {names[0]}, k)
  {
    NestedProjections(names, |names| - 1);
    ChainOutrunsPasses(names, k);
  }

  lemma NineNamesChain()
    ensures ChainNames(NINE_RENAMES) && |NINE_RENAMES| == PassLimit() + 2
  {
  }

  /** A query nine SELECTs deep, each renaming the column of the one inside it, is not closed. */
  lemma NineRenamesEscape()
    ensures !Follows(NestedRenames(NINE_RENAMES, 9), {"gmv_amount"})
  {
    NineNamesChain();
    ChainEscapes(NINE_RENAMES, PassLimit());
  }

  lemma {:induction false} NamesOfChain(names: seq<string>, n: nat)
    requires n < |names|
    ensures |Named(Backwards(names, n))| <= n
  {
    if n > 0 {
      NamesOfChain(names, n - 1);
      OneMoreName(Rename(names[n - 1], names[n]), Backwards(names, n - 1));
    }
  }

  lemma OneMoreName(n: Node, ps: seq<Node>)
    ensures |Named([n] + ps)| <= |Named(ps)| + 1
  {
    assert Named([n] + ps) <= Named(ps) + {OutputName(n)};
    SubsetSize(Named([n] + ps), Named(ps) + {OutputName(n)});
  }

  /** k passes follow every name of a query. */
  ghost predicate FollowsAfter(t: Node, currency: set<string>, k: nat) {
    Closed(Projections(t), Passes(Projections(t), currency, k))
  }

  /** The analysis follows every name of a query. */
  ghost predicate Follows(t: Node, currency: set<string>) { FollowsAfter(t, currency, PassLimit()) }

  function PassLimit(): nat { MAX_PROPAGATION_PASSES }

  ghost predicate SufficesFor(b: nat) {
    forall t, currency :: |Named(Projections(t)) - currency| <= b ==> Follows(t, currency)
  }

  lemma NotEnough(b: nat, t: Node, currency: set<string>)
    requires |Named(Projections(t)) - currency| <= b && !Follows(t, currency)
    ensures !SufficesFor(b)
  {
  }

  /** Some query with nine new names is not followed. */
  lemma NineNameQuery() returns (t: Node, currency: set<string>)
    ensures |Named(Projections(t)) - currency| <= PassLimit() + 1 && !Follows(t, currency)
  {
    t, currency := NestedRenames(NINE_RENAMES, 9), {"gmv_amount"};
    NineRenamesEscape();
    FewNames(NINE_RENAMES, 9);
  }

  /** As many new names as passes is exactly what the analysis can promise to follow. */
  lemma SufficesIff(b: nat)
    ensures SufficesFor(b) <==> b <= MAX_PROPAGATION_PASSES
  {
    if b <= MAX_PROPAGATION_PASSES {
      forall t, currency | |Named(Projections(t)) - currency| <= b ensures Follows(t, currency) {
        ClosedWithinBound(Projections(t), currency);
      }
    } else {
      var t, currency := NineNameQuery();
      NotEnough(b, t, currency);
    }
  }
}
