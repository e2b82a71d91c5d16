/** One small syntax tree for the SQL analyses, with positions as paths from the root. */
module SqlAst {
  import opened Seqs

  datatype PredicateOp = Eq | OtherPredicate

  /**
   * Node kinds the analyses tell apart; names are the lower-cased ones they compare. The kids of a
   * node are its argument expressions in order: a Select has its projections first, a Union its two
   * sides, a Cte its query, an Alias and a Count their operand first, a Case its operand (if any), its
   * When entries and its default (if any), a When its condition and its value.
   */
  datatype Kind =
    | Column(table: string, name: string)
    | Table(name: string)
    | Predicate(op: PredicateOp)
    | Count(distinctFlag: bool)
    | Distinct
    | Aggregate(fn: string)
    | Case(hasOperand: bool, hasDefault: bool)
    | When
    | Div
    | Alias(alias: string)
    | Select(projections: nat)
    | Union
    | Where | Join(side: string) | Group | Order
    | With(recursive: bool) | Cte(name: string)
    | Other(tag: string)

  datatype Node = Node(kind: Kind, kids: seq<Node>)

  type Path = seq<nat>

  predicate Valid(t: Node, p: Path) {
    p == [] || (p[0] < |t.kids| && Valid(t.kids[p[0]], p[1..]))
  }

  function At(t: Node, p: Path): Node
    requires Valid(t, p)
  {
    if p == [] then t else At(t.kids[p[0]], p[1..])
  }

  lemma {:induction false} AtAppend(t: Node, p: Path, q: Path)
    requires Valid(t, p)
    ensures Valid(t, p + q) <==> Valid(At(t, p), q)
    ensures Valid(At(t, p), q) ==> At(t, p + q) == At(At(t, p), q)
  {
    if p == [] {
      assert p + q == q;
    } else {
      assert (p + q)[1..] == p[1..] + q;
      AtAppend(t.kids[p[0]], p[1..], q);
    }
  }

  lemma TwoDown(n: Node, i: nat, j: nat)
    requires i < |n.kids| && j < |n.kids[i].kids|
    ensures Valid(n, [i, j]) && At(n, [i, j]) == n.kids[i].kids[j]
  {
    assert [i, j][1..] == [j] && [j][1..] == [];
    assert Valid(n.kids[i], [j]) && At(n.kids[i], [j]) == n.kids[i].kids[j];
  }

  lemma ValidPrefix(t: Node, p: Path, k: nat)
    requires Valid(t, p) && k <= |p|
    ensures Valid(t, p[..k])
  {
    assert p == p[..k] + p[k..];
    PrefixValid(t, p[..k], p[k..]);
  }

  lemma {:induction false} PrefixValid(t: Node, p: Path, q: Path)
    requires Valid(t, p + q)
    ensures Valid(t, p)
  {
    if p != [] {
      assert (p + q)[1..] == p[1..] + q;
      PrefixValid(t.kids[p[0]], p[1..], q);
    }
  }

  // ------------------------------------------------------------------
  // find_all: every position, breadth first
  // ------------------------------------------------------------------

  function Height(t: Node): nat { 1 + MaxHeight(t.kids) }

  function MaxHeight(ns: seq<Node>): nat {
    if ns == [] then 0
    else
      var h, rest := Height(ns[0]), MaxHeight(ns[1..]);
      if h > rest then h else rest
  }

  lemma {:induction false} KidHeight(ns: seq<Node>, i: nat)
    requires i < |ns|
    ensures Height(ns[i]) <= MaxHeight(ns)
  {
    if i > 0 { KidHeight(ns[1..], i - 1); }
  }

  lemma {:induction false} PathHeight(t: Node, p: Path)
    requires Valid(t, p)
    ensures |p| < Height(t)
  {
    if p != [] {
      PathHeight(t.kids[p[0]], p[1..]);
      KidHeight(t.kids, p[0]);
    }
  }

  /** The positions directly under a position. */
  function Below(t: Node): Path -> seq<Path> {
    (p: Path) => if Valid(t, p) then seq(|At(t, p).kids|, i requires 0 <= i => p + [i]) else []
  }

  /** The positions k steps below the root, left to right. */
  function Level(t: Node, k: nat): seq<Path> {
    if k == 0 then [[]] else FlatMap(Below(t), Level(t, k - 1))
  }

  function Levels(t: Node, n: nat): seq<Path> {
    if n == 0 then [] else Levels(t, n - 1) + Level(t, n - 1)
  }

  /** Every position of the tree, in the order find_all visits it. */
  function Positions(t: Node): seq<Path> { Levels(t, Height(t)) }

  lemma BelowMembers(t: Node, q: Path, p: Path)
    ensures p in Below(t)(q) <==> Valid(t, p) && |p| == |q| + 1 && p[..|q|] == q
  {
    if p in Below(t)(q) {
      var j :| 0 <= j < |At(t, q).kids| && p == q + [j];
      AtAppend(t, q, [j]);
      assert p[..|q|] == q;
    }
    if Valid(t, p) && |p| == |q| + 1 && p[..|q|] == q {
      assert p == q + [p[|q|]];
      ValidPrefix(t, p, |q|);
      AtAppend(t, q, [p[|q|]]);
      assert p == Below(t)(q)[p[|q|]];
    }
  }

  lemma {:induction false} LevelMembers(t: Node, k: nat, p: Path)
    ensures p in Level(t, k) <==> Valid(t, p) && |p| == k
  {
    if k > 0 {
      var above := Level(t, k - 1);
      FlatMapMember(Below(t), above, p);
      if p in Level(t, k) {
        var i :| 0 <= i < |above| && p in Below(t)(above[i]);
        assert above[i] in above;
        LevelMembers(t, k - 1, above[i]);
        BelowMembers(t, above[i], p);
      }
      if Valid(t, p) && |p| == k {
        var q := p[..k - 1];
        ValidPrefix(t, p, k - 1);
        LevelMembers(t, k - 1, q);
        var i :| 0 <= i < |above| && above[i] == q;
        BelowMembers(t, q, p);
      }
    }
  }

  lemma {:induction false} LevelsMembers(t: Node, n: nat, p: Path)
    ensures p in Levels(t, n) <==> Valid(t, p) && |p| < n
  {
    if n > 0 {
      LevelsMembers(t, n - 1, p);
      LevelMembers(t, n - 1, p);
    }
  }

  /** The traversal visits every position of the tree and nothing else. */
  lemma PositionsAreAll(t: Node, p: Path)
    ensures p in Positions(t) <==> Valid(t, p)
  {
    LevelsMembers(t, Height(t), p);
    if Valid(t, p) { PathHeight(t, p); }
  }

  /** Two positions of one depth: where their ways part, p goes to the earlier kid. */
  ghost predicate LeftOf(p: Path, q: Path) {
    exists k :: 0 <= k < |p| && k < |q| && p[k] < q[k] && p[..k] == q[..k]
  }

  /** Breadth first: the shallower position, and the left one of two at one depth. */
  ghost predicate Sooner(p: Path, q: Path) { |p| < |q| || (|p| == |q| && LeftOf(p, q)) }

  ghost predicate InOrder(ps: seq<Path>) { forall i, j :: 0 <= i < j < |ps| ==> Sooner(ps[i], ps[j]) }

  lemma KidsInOrder(p: Path, q: Path, i: nat, j: nat)
    requires |p| == |q| && (LeftOf(p, q) || (p == q && i < j))
    ensures Sooner(p + [i], q + [j])
  {
    var a, b := p + [i], q + [j];
    if LeftOf(p, q) {
      var k :| 0 <= k < |p| && k < |q| && p[k] < q[k] && p[..k] == q[..k];
      assert a[..k] == p[..k] && b[..k] == q[..k] && a[k] < b[k];
    } else {
      assert a[..|p|] == p && b[..|p|] == q && a[|p|] < b[|p|];
    }
  }

  ghost predicate AllAt(ps: seq<Path>, k: nat) { forall p :: p in ps ==> |p| == k }

  lemma ChunkInOrder(t: Node, init: seq<Path>, p: Path, q: Path, n: nat)
    requires q in FlatMap(Below(t), init) && n < |Below(t)(p)|
    requires forall o :: o in init ==> |o| == |p| && LeftOf(o, p)
    ensures Sooner(q, Below(t)(p)[n])
  {
    FlatMapMember(Below(t), init, q);
    var m :| 0 <= m < |init| && q in Below(t)(init[m]);
    var o := init[m];
    assert o in init;
    var i :| 0 <= i < |Below(t)(o)| && q == Below(t)(o)[i];
    KidsInOrder(o, p, i, n);
  }

  lemma KidsOfOne(t: Node, p: Path)
    ensures InOrder(Below(t)(p)) && AllAt(Below(t)(p), |p| + 1)
  {
    var kids := Below(t)(p);
    forall i, j | 0 <= i < j < |kids| ensures Sooner(kids[i], kids[j]) { KidsInOrder(p, p, i, j); }
  }

  ghost predicate AllSooner(a: seq<Path>, b: seq<Path>) { forall p, q :: p in a && q in b ==> Sooner(p, q) }

  lemma Joined(a: seq<Path>, b: seq<Path>)
    requires InOrder(a) && InOrder(b) && AllSooner(a, b)
    ensures InOrder(a + b)
  {
    forall i, j | 0 <= i < j < |a + b| ensures Sooner((a + b)[i], (a + b)[j]) {
      if i < |a| <= j { assert a[i] in a && b[j - |a|] in b; }
    }
  }

  lemma {:induction false} BelowAll(t: Node, ps: seq<Path>, k: nat)
    requires InOrder(ps) && AllAt(ps, k)
    ensures InOrder(FlatMap(Below(t), ps)) && AllAt(FlatMap(Below(t), ps), k + 1)
  {
    if ps != [] {
      var init, p := ps[..|ps| - 1], ps[|ps| - 1];
      BelowAll(t, init, k);
      KidsOfOne(t, p);
      assert p in ps && forall o :: o in init ==> o in ps;
      forall o | o in init ensures LeftOf(o, p) {
        var i :| 0 <= i < |init| && init[i] == o;
        assert Sooner(ps[i], p);
      }
      var before, kids := FlatMap(Below(t), init), Below(t)(p);
      forall q, r | q in before && r in kids ensures Sooner(q, r) {
        var n :| 0 <= n < |kids| && kids[n] == r;
        ChunkInOrder(t, init, p, q, n);
      }
      Joined(before, kids);
    }
  }

  lemma {:induction false} LevelInOrder(t: Node, k: nat)
    ensures InOrder(Level(t, k)) && AllAt(Level(t, k), k)
  {
    if k > 0 {
      LevelInOrder(t, k - 1);
      BelowAll(t, Level(t, k - 1), k - 1);
    }
  }

  lemma ShallowerSooner(t: Node, n: nat)
    requires AllAt(Level(t, n), n)
    ensures AllSooner(Levels(t, n), Level(t, n))
  {
    forall p, q | p in Levels(t, n) && q in Level(t, n) ensures Sooner(p, q) {
      LevelsMembers(t, n, p);
    }
  }

  lemma NextLevelInOrder(t: Node, n: nat)
    requires InOrder(Levels(t, n))
    ensures InOrder(Levels(t, n) + Level(t, n))
  {
    LevelInOrder(t, n);
    ShallowerSooner(t, n);
    Joined(Levels(t, n), Level(t, n));
  }

  /** The traversal is breadth first. */
  lemma {:induction false} LevelsInOrder(t: Node, n: nat)
    ensures InOrder(Levels(t, n))
  {
    if n > 0 {
      LevelsInOrder(t, n - 1);
      NextLevelInOrder(t, n - 1);
    }
  }

  // ------------------------------------------------------------------
  // Walking up
  // ------------------------------------------------------------------

  /** The nearest Select strictly above a position: where its path is cut. */
  ghost predicate NearestSelect(t: Node, p: Path, k: nat)
    requires Valid(t, p)
  {
    k < |p| && Valid(t, p[..k]) && At(t, p[..k]).kind.Select?
    && forall j :: k < j < |p| && Valid(t, p[..j]) ==> !At(t, p[..j]).kind.Select?
  }

  lemma NearestSelectUnique(t: Node, p: Path, k: nat, k': nat)
    requires Valid(t, p) && NearestSelect(t, p, k) && NearestSelect(t, p, k')
    ensures k == k'
  {
  }
}
