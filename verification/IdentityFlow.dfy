/**
 * Where the values of a query's result come from, and which identities an accepted query shows.
 * The identity rule follows names; a database resolves them. Everything here holds for every way of
 * resolving them: by alias, by column list, by position in a UNION, by an implied name, or otherwise.
 */
module IdentityFlow {
  import opened Wrappers
  import opened Seqs
  import opened SqlAst
  import opened IdentityRule

  // ------------------------------------------------------------------
  // One step of flow
  // ------------------------------------------------------------------

  /** A place a value stands: column `col` of the node at a position, or a stored column of a base table. */
  datatype Spot = Cell(pos: Path, col: nat) | Stored(column: string)

  /** What the column reference at a position reads: usually one spot, several for a merged column or a whole row. */
  type Reading = Path -> seq<Spot>

  /** Nodes with the columns of their first kid. */
  predicate Passes(k: Kind) { k.Alias? || k.Cte? || k in {Other("subquery"), Other("except"), Other("intersect")} }

  /** The branches of a CASE, up to kid k. */
  function Branches(n: Node, p: Path, k: nat): seq<Spot>
    requires k <= |n.kids|
  {
    if k == 0 then []
    else Branches(n, p, k - 1)
         + if IfEntry(n, k - 1) then [Cell(p + [k - 1, 1], 0)]
           else if n.kind.Case? && n.kind.hasDefault && k == |n.kids| then [Cell(p + [k - 1], 0)] else []
  }

  /** The first n kids of the node at p, in column col. */
  function Kids(p: Path, n: nat, col: nat): seq<Spot> { seq(n, i requires 0 <= i < n => Cell(p + [i], col)) }

  /** The spots a spot's value is made of. Tests and counts are values of their own. */
  function Parts(t: Node, r: Reading, v: Spot): seq<Spot> {
    if v.Stored? || !Valid(t, v.pos) then []
    else
      var n := At(t, v.pos);
      match n.kind
      case Column(_, _) => r(v.pos)
      case Predicate(_) => []
      case Count(_) => []
      case Case(_, _) => Branches(n, v.pos, |n.kids|)
      case Select(k) => if v.col < k && v.col < |n.kids| then [Cell(v.pos + [v.col], 0)] else []
      case Union => Kids(v.pos, if |n.kids| < 2 then |n.kids| else 2, v.col)
      case _ =>
        if Passes(n.kind) then Kids(v.pos, if n.kids == [] then 0 else 1, v.col) else Kids(v.pos, |n.kids|, 0)
  }

  ghost predicate Chain(t: Node, r: Reading, c: seq<Spot>) {
    c != [] && forall i :: 0 <= i < |c| - 1 ==> c[i + 1] in Parts(t, r, c[i])
  }

  predicate Secret(names: set<string>, v: Spot) { v.Stored? && v.column in names }

  ghost predicate LeadsTo(t: Node, r: Reading, names: set<string>, v: Spot, c: seq<Spot>) {
    Chain(t, r, c) && c[0] == v && Secret(names, c[|c| - 1])
  }

  /** Some stored column of these names flows into the spot. */
  ghost predicate Tainted(t: Node, r: Reading, names: set<string>, v: Spot) { exists c :: LeadsTo(t, r, names, v, c) }

  lemma TaintStep(t: Node, r: Reading, names: set<string>, v: Spot, part: Spot)
    requires part in Parts(t, r, v) && Tainted(t, r, names, part)
    ensures Tainted(t, r, names, v)
  {
    var c :| LeadsTo(t, r, names, part, c);
    var d := [v] + c;
    forall i | 0 <= i < |d| - 1 ensures d[i + 1] in Parts(t, r, d[i]) {
      if i > 0 { assert c[i] in Parts(t, r, c[i - 1]); }
    }
    assert LeadsTo(t, r, names, v, d);
  }

  lemma TaintedPart(t: Node, r: Reading, names: set<string>, v: Spot) returns (part: Spot)
    requires Tainted(t, r, names, v) && !Secret(names, v)
    ensures part in Parts(t, r, v) && Tainted(t, r, names, part)
  {
    var c :| LeadsTo(t, r, names, v, c);
    part := c[1];
    ChainTail(t, r, names, v, c);
  }

  lemma ChainTail(t: Node, r: Reading, names: set<string>, v: Spot, c: seq<Spot>)
    requires LeadsTo(t, r, names, v, c) && |c| > 1
    ensures LeadsTo(t, r, names, c[1], c[1..])
  {
    var d := c[1..];
    forall i | 0 <= i < |d| - 1 ensures d[i + 1] in Parts(t, r, d[i]) {
      assert c[i + 1 + 1] in Parts(t, r, c[i + 1]);
    }
  }

  ghost predicate ClosedUnderFlow(t: Node, r: Reading, spots: iset<Spot>) {
    forall v, part :: part in Parts(t, r, v) && part in spots ==> v in spots
  }

  /** The tainted spots are the least set that holds the stored columns and is closed under flow. */
  lemma TaintIsLeast(t: Node, r: Reading, names: set<string>, spots: iset<Spot>)
    ensures ClosedUnderFlow(t, r, iset v | Tainted(t, r, names, v))
    ensures forall v :: Secret(names, v) ==> Tainted(t, r, names, v)
    ensures (forall v :: Secret(names, v) ==> v in spots) && ClosedUnderFlow(t, r, spots) ==>
              forall v :: Tainted(t, r, names, v) ==> v in spots
  {
    forall v, part | part in Parts(t, r, v) && Tainted(t, r, names, part) ensures Tainted(t, r, names, v) {
      TaintStep(t, r, names, v, part);
    }
    forall v | Secret(names, v) ensures Tainted(t, r, names, v) {
      assert LeadsTo(t, r, names, v, [v]);
    }
    if (forall v :: Secret(names, v) ==> v in spots) && ClosedUnderFlow(t, r, spots) {
      forall v | Tainted(t, r, names, v) ensures v in spots {
        var c :| LeadsTo(t, r, names, v, c);
        ChainWithin(t, r, names, spots, v, c);
      }
    }
  }

  lemma {:induction false} ChainWithin(t: Node, r: Reading, names: set<string>, spots: iset<Spot>, v: Spot,
                                       c: seq<Spot>)
    requires LeadsTo(t, r, names, v, c) && ClosedUnderFlow(t, r, spots)
    requires forall w :: Secret(names, w) ==> w in spots
    ensures v in spots
    decreases |c|
  {
    if |c| > 1 {
      ChainTail(t, r, names, v, c);
      ChainWithin(t, r, names, spots, c[1], c[1..]);
      assert c[1] in Parts(t, r, c[0]);
    }
  }

  // ------------------------------------------------------------------
  // The values of a row
  // ------------------------------------------------------------------

  type Value = int

  /** The spots a value was reached through, the spot itself last. */
  type Trail = seq<Spot>

  /**
   * What decides a row: the stored values read, the outcome of each test and count, the branch each CASE
   * takes and the side each UNION row comes from, and a meaning for every other construct.
   */
  datatype World = World(
    stored: Trail -> Value,
    test: Trail -> Value,
    choice: Trail -> nat,
    apply: (Kind, seq<Value>) -> Value,
    missing: Value)

  /** The same row and meanings, except for the stored columns of some names. */
  ghost predicate AgreeExcept(names: set<string>, a: World, b: World) {
    && (forall trail :: trail != [] && !Secret(names, trail[|trail| - 1]) ==> a.stored(trail) == b.stored(trail))
    && (forall trail :: a.test(trail) == b.test(trail) && a.choice(trail) == b.choice(trail))
    && (forall k, vs :: a.apply(k, vs) == b.apply(k, vs))
    && a.missing == b.missing
  }

  /** One part decides the value. */
  predicate Chosen(k: Kind) { k.Case? || k.Union? }

  /** The value of a node from those of its parts. */
  function Combine(k: Kind, w: World, trail: Trail, vs: seq<Value>): Value {
    if k.Predicate? || k.Count? then w.test(trail)
    else if Chosen(k) then if w.choice(trail) < |vs| then vs[w.choice(trail)] else w.missing
    else if |vs| == 1 && (k.Column? || k.Select? || Passes(k)) then vs[0]
    else w.apply(k, vs)
  }

  /** The value at the end of a trail, for a row at most d steps deep. */
  function Show(t: Node, r: Reading, w: World, trail: Trail, d: nat): Value
    requires trail != []
    decreases d, 0
  {
    var v := trail[|trail| - 1];
    if v.Stored? then w.stored(trail)
    else if !Valid(t, v.pos) || d == 0 then w.missing
    else Combine(At(t, v.pos).kind, w, trail, ShowAll(t, r, w, trail, Parts(t, r, v), d - 1))
  }

  function ShowAll(t: Node, r: Reading, w: World, trail: Trail, parts: seq<Spot>, d: nat): (vs: seq<Value>)
    ensures |vs| == |parts|
    decreases d, |parts| + 1
  {
    if parts == [] then [] else [Show(t, r, w, trail + [parts[0]], d)] + ShowAll(t, r, w, trail, parts[1..], d)
  }

  /** However the row came about, the value does not depend on the stored columns of these names. */
  ghost predicate Ignores(t: Node, r: Reading, names: set<string>, v: Spot) {
    forall a, b, d :: AgreeExcept(names, a, b) ==> Show(t, r, a, [v], d) == Show(t, r, b, [v], d)
  }

  lemma {:induction false} UntaintedSame(t: Node, r: Reading, names: set<string>, a: World, b: World, trail: Trail,
                                         d: nat)
    requires AgreeExcept(names, a, b) && trail != [] && !Tainted(t, r, names, trail[|trail| - 1])
    ensures Show(t, r, a, trail, d) == Show(t, r, b, trail, d)
    decreases d, 0
  {
    var v := trail[|trail| - 1];
    if Secret(names, v) { assert LeadsTo(t, r, names, v, [v]); }
    if v.Cell? && Valid(t, v.pos) && d > 0 {
      UntaintedParts(t, r, names, v);
      UntaintedAll(t, r, names, a, b, trail, Parts(t, r, v), d - 1);
      SameCombination(At(t, v.pos).kind, names, a, b, trail, ShowAll(t, r, a, trail, Parts(t, r, v), d - 1));
    }
  }

  lemma UntaintedParts(t: Node, r: Reading, names: set<string>, v: Spot)
    requires !Tainted(t, r, names, v)
    ensures forall part :: part in Parts(t, r, v) ==> !Tainted(t, r, names, part)
  {
    forall part | part in Parts(t, r, v) ensures !Tainted(t, r, names, part) {
      if Tainted(t, r, names, part) { TaintStep(t, r, names, v, part); }
    }
  }

  lemma SameCombination(k: Kind, names: set<string>, a: World, b: World, trail: Trail, vs: seq<Value>)
    requires AgreeExcept(names, a, b)
    ensures Combine(k, a, trail, vs) == Combine(k, b, trail, vs)
  {
  }

  lemma {:induction false} UntaintedAll(t: Node, r: Reading, names: set<string>, a: World, b: World, trail: Trail,
                                        parts: seq<Spot>, d: nat)
    requires AgreeExcept(names, a, b) && forall part :: part in parts ==> !Tainted(t, r, names, part)
    ensures ShowAll(t, r, a, trail, parts, d) == ShowAll(t, r, b, trail, parts, d)
    decreases d, |parts| + 1
  {
    if parts != [] {
      assert parts[0] in parts;
      UntaintedSame(t, r, names, a, b, trail + [parts[0]], d);
      UntaintedAll(t, r, names, a, b, trail, parts[1..], d);
    }
  }

  // A world where secret columns hold a mark, all others 0, and every construct adds up along a chain.

  function AddUp(vs: seq<Value>): Value { if vs == [] then 0 else vs[0] + AddUp(vs[1..]) }

  function IndexOf(x: Spot, xs: seq<Spot>): nat {
    if xs == [] || xs[0] == x then 0 else 1 + IndexOf(x, xs[1..])
  }

  lemma {:induction false} IndexOfFinds(x: Spot, xs: seq<Spot>)
    requires x in xs
    ensures IndexOf(x, xs) < |xs| && xs[IndexOf(x, xs)] == x
  {
    if xs[0] != x { IndexOfFinds(x, xs[1..]); }
  }

  function Along(t: Node, r: Reading, c: seq<Spot>): Trail -> nat {
    (trail: Trail) =>
      if trail != [] && |trail| < |c| && c[..|trail|] == trail then IndexOf(c[|trail|], Parts(t, r, c[|trail| - 1]))
      else 0
  }

  function Marking(t: Node, r: Reading, names: set<string>, mark: Value, c: seq<Spot>): World {
    World((trail: Trail) => if trail != [] && Secret(names, trail[|trail| - 1]) then mark else 0,
          (trail: Trail) => 0, Along(t, r, c), (k: Kind, vs: seq<Value>) => AddUp(vs), 0)
  }

  /** Secret columns hold the mark, others 0, and every construct adds up. */
  ghost predicate AddsUp(w: World, names: set<string>, mark: Value) {
    && w.missing == 0 && (forall trail :: w.test(trail) == 0) && (forall k, vs :: w.apply(k, vs) == AddUp(vs))
    && forall trail :: trail != [] ==> w.stored(trail) == if Secret(names, trail[|trail| - 1]) then mark else 0
  }

  /** Every choice follows the chain. */
  ghost predicate Follows(t: Node, r: Reading, w: World, c: seq<Spot>) {
    forall i :: 0 <= i < |c| - 1 ==> w.choice(c[..i + 1]) == IndexOf(c[i + 1], Parts(t, r, c[i]))
  }

  lemma MarkingMeans(t: Node, r: Reading, names: set<string>, mark: Value, c: seq<Spot>)
    ensures AddsUp(Marking(t, r, names, mark, c), names, mark) && Follows(t, r, Marking(t, r, names, mark, c), c)
  {
    MarkingFollows(t, r, names, mark, c);
  }

  lemma MarkingFollows(t: Node, r: Reading, names: set<string>, mark: Value, c: seq<Spot>)
    ensures Follows(t, r, Marking(t, r, names, mark, c), c)
  {
    forall i | 0 <= i < |c| - 1 ensures Along(t, r, c)(c[..i + 1]) == IndexOf(c[i + 1], Parts(t, r, c[i])) {
      assert c[..|c[..i + 1]|] == c[..i + 1];
    }
  }

  ghost predicate Marked(vs: seq<Value>, mark: Value) {
    forall i :: 0 <= i < |vs| ==> vs[i] >= 0 && (mark == 0 ==> vs[i] == 0)
  }

  lemma {:induction false} SumOfMarks(vs: seq<Value>, mark: Value)
    requires Marked(vs, mark)
    ensures AddUp(vs) >= 0 && (mark == 0 ==> AddUp(vs) == 0)
    ensures forall i :: 0 <= i < |vs| ==> AddUp(vs) >= vs[i]
  {
    if vs != [] {
      SumOfMarks(vs[1..], mark);
      forall i | 0 <= i < |vs| ensures AddUp(vs) >= vs[i] {
        if i > 0 { assert vs[i] == vs[1..][i - 1]; }
      }
    }
  }

  lemma CombineMarks(k: Kind, w: World, names: set<string>, mark: Value, trail: Trail, vs: seq<Value>)
    requires AddsUp(w, names, mark) && Marked(vs, mark)
    ensures var x := Combine(k, w, trail, vs); x >= 0 && (mark == 0 ==> x == 0)
  {
    SumOfMarks(vs, mark);
  }

  lemma {:induction false} MarksAddUp(t: Node, r: Reading, names: set<string>, mark: Value, w: World, trail: Trail,
                                      d: nat)
    requires mark >= 0 && trail != [] && AddsUp(w, names, mark)
    ensures Show(t, r, w, trail, d) >= 0 && (mark == 0 ==> Show(t, r, w, trail, d) == 0)
    decreases d, 0
  {
    var v := trail[|trail| - 1];
    if v.Cell? && Valid(t, v.pos) && d > 0 {
      var parts := Parts(t, r, v);
      AllMarksAddUp(t, r, names, mark, w, trail, parts, d - 1);
      CombineMarks(At(t, v.pos).kind, w, names, mark, trail, ShowAll(t, r, w, trail, parts, d - 1));
    }
  }

  lemma {:induction false} AllMarksAddUp(t: Node, r: Reading, names: set<string>, mark: Value, w: World,
                                         trail: Trail, parts: seq<Spot>, d: nat)
    requires mark >= 0 && AddsUp(w, names, mark)
    ensures Marked(ShowAll(t, r, w, trail, parts, d), mark)
    decreases d, |parts| + 1
  {
    if parts != [] {
      MarksAddUp(t, r, names, mark, w, trail + [parts[0]], d);
      AllMarksAddUp(t, r, names, mark, w, trail, parts[1..], d);
    }
  }

  lemma {:induction false} ShownAt(t: Node, r: Reading, w: World, trail: Trail, parts: seq<Spot>, d: nat, i: nat)
    requires i < |parts|
    ensures ShowAll(t, r, w, trail, parts, d)[i] == Show(t, r, w, trail + [parts[i]], d)
  {
    if i > 0 { ShownAt(t, r, w, trail, parts[1..], d, i - 1); }
  }

  /** A node shows what the part that is chosen, or any part that is added up, shows. */
  lemma CombineShows(k: Kind, w: World, names: set<string>, trail: Trail, vs: seq<Value>, i: nat)
    requires AddsUp(w, names, 1) && Marked(vs, 1) && i < |vs| && vs[i] >= 1 && w.choice(trail) == i
    requires !k.Predicate? && !k.Count?
    ensures Combine(k, w, trail, vs) >= 1
  {
    SumOfMarks(vs, 1);
  }

  /** Along a chain to a marked column the mark shows. */
  lemma {:induction false} ChainShows(t: Node, r: Reading, names: set<string>, w: World, c: seq<Spot>, i: nat)
    requires Chain(t, r, c) && Secret(names, c[|c| - 1]) && i < |c| && AddsUp(w, names, 1) && Follows(t, r, w, c)
    ensures Show(t, r, w, c[..i + 1], |c| - 1 - i) >= 1
    decreases |c| - i
  {
    if i < |c| - 1 {
      ChainShows(t, r, names, w, c, i + 1);
      ChainStepShows(t, r, names, w, c, i);
    }
  }

  lemma ChainStepShows(t: Node, r: Reading, names: set<string>, w: World, c: seq<Spot>, i: nat)
    requires Chain(t, r, c) && i + 1 < |c| && AddsUp(w, names, 1) && Follows(t, r, w, c)
    requires Show(t, r, w, c[..i + 2], |c| - 2 - i) >= 1
    ensures Show(t, r, w, c[..i + 1], |c| - 1 - i) >= 1
  {
    assert c[i + 1] in Parts(t, r, c[i]);
    assert c[..i + 1] + [c[i + 1]] == c[..i + 2];
    PartShows(t, r, names, w, c[..i + 1], c[i + 1], |c| - 2 - i);
  }

  lemma PartShows(t: Node, r: Reading, names: set<string>, w: World, trail: Trail, part: Spot, d: nat)
    requires trail != [] && part in Parts(t, r, trail[|trail| - 1]) && AddsUp(w, names, 1)
    requires w.choice(trail) == IndexOf(part, Parts(t, r, trail[|trail| - 1]))
    requires Show(t, r, w, trail + [part], d) >= 1
    ensures Show(t, r, w, trail, d + 1) >= 1
  {
    var v := trail[|trail| - 1];
    var parts := Parts(t, r, v);
    var next := IndexOf(part, parts);
    IndexOfFinds(part, parts);
    ShownAt(t, r, w, trail, parts, d, next);
    AllMarksAddUp(t, r, names, 1, w, trail, parts, d);
    CombineShows(At(t, v.pos).kind, w, names, trail, ShowAll(t, r, w, trail, parts, d), next);
  }

  /** A value depends on stored columns exactly when one of them flows into it. */
  lemma InfluenceIffTainted(t: Node, r: Reading, names: set<string>, v: Spot)
    ensures Tainted(t, r, names, v) <==> !Ignores(t, r, names, v)
  {
    if c :| LeadsTo(t, r, names, v, c) {
      var a, b := Marking(t, r, names, 0, c), Marking(t, r, names, 1, c);
      assert c[..1] == [v];
      MarkingMeans(t, r, names, 0, c);
      MarkingMeans(t, r, names, 1, c);
      ChainShows(t, r, names, b, c, 0);
      MarksAddUp(t, r, names, 0, a, [v], |c| - 1);
      assert AgreeExcept(names, a, b) && Show(t, r, a, [v], |c| - 1) != Show(t, r, b, [v], |c| - 1);
    } else {
      forall a, b, d | AgreeExcept(names, a, b) ensures Show(t, r, a, [v], d) == Show(t, r, b, [v], d) {
        UntaintedSame(t, r, names, a, b, [v], d);
      }
    }
  }

  // ------------------------------------------------------------------
  // Which columns a value is made of
  // ------------------------------------------------------------------

  /** The value at q below n goes into column col of n, and no column is read on the way. */
  ghost predicate Made(n: Node, col: nat, q: Path)
    requires Valid(n, q)
    decreases |q|
  {
    if q == [] then true
    else if n.kind.Case? && IfEntry(n, q[0]) then
      |q| >= 2 && q[1] == 1 &&
      (var u := q[1..]; assert Valid(n.kids[q[0]], u) && u != []; Made(n.kids[q[0]].kids[1], 0, u[1..]))
    else KidFlows(n, col, q[0], if n.kind.Union? || Passes(n.kind) then col else 0)
         && Made(n.kids[q[0]], if n.kind.Union? || Passes(n.kind) then col else 0, q[1..])
  }

  /** Column c of kid i goes into column col of the node; a WHEN is looked through instead. */
  predicate KidFlows(n: Node, col: nat, i: nat, c: nat) {
    i < |n.kids| &&
    if n.kind.Column? || n.kind.Predicate? || n.kind.Count? then false
    else if n.kind.Case? then n.kind.hasDefault && i == |n.kids| - 1 && c == 0
    else if n.kind.Select? then i == col && col < n.kind.projections && c == 0
    else if n.kind.Union? then i < 2 && c == col
    else if Passes(n.kind) then i == 0 && c == col
    else c == 0
  }

  lemma {:induction false} BranchMembers(n: Node, p: Path, k: nat, v: Spot)
    requires k <= |n.kids| && n.kind.Case?
    ensures v in Branches(n, p, k) <==>
            || (exists i :: 0 <= i < k && IfEntry(n, i) && v == Cell(p + [i, 1], 0))
            || (n.kind.hasDefault && k == |n.kids| > 0 && v == Cell(p + [k - 1], 0))
  {
    if k > 0 { BranchMembers(n, p, k - 1, v); }
  }

  lemma KidMember(p: Path, n: nat, col: nat, i: nat)
    requires i < n
    ensures Cell(p + [i], col) in Kids(p, n, col)
  {
    assert Kids(p, n, col)[i] == Cell(p + [i], col);
  }

  /** The first step of the way down is a step of flow. */
  lemma MadeStep(t: Node, r: Reading, a: Path, col: nat, q: Path) returns (k: nat, col': nat)
    requires Valid(t, a) && Valid(At(t, a), q) && Made(At(t, a), col, q) && q != []
    ensures 0 < k <= |q| && Valid(t, a + q[..k]) && Cell(a + q[..k], col') in Parts(t, r, Cell(a, col))
    ensures Valid(At(t, a + q[..k]), q[k..]) && Made(At(t, a + q[..k]), col', q[k..])
  {
    var n := At(t, a);
    if n.kind.Case? && IfEntry(n, q[0]) {
      k, col' := 2, 0;
      BranchStep(t, r, a, col, q);
    } else {
      k, col' := 1, if n.kind.Union? || Passes(n.kind) then col else 0;
      OneDown(t, a, q);
      assert q[..1] == [q[0]];
      FlowingKid(t, r, a, col, q[0], col');
    }
  }

  lemma FlowingKid(t: Node, r: Reading, a: Path, col: nat, i: nat, c: nat)
    requires Valid(t, a) && KidFlows(At(t, a), col, i, c)
    ensures Cell(a + [i], c) in Parts(t, r, Cell(a, col))
  {
    var n := At(t, a);
    if n.kind.Case? {
      BranchMembers(n, a, |n.kids|, Cell(a + [i], 0));
    } else if n.kind.Union? {
      KidMember(a, if |n.kids| < 2 then |n.kids| else 2, col, i);
    } else if Passes(n.kind) {
      KidMember(a, 1, col, 0);
    } else if !n.kind.Select? {
      KidMember(a, |n.kids|, 0, i);
    }
  }

  lemma OneDown(t: Node, a: Path, q: Path)
    requires Valid(t, a) && Valid(At(t, a), q) && q != []
    ensures Valid(t, a + [q[0]]) && At(t, a + [q[0]]) == At(t, a).kids[q[0]]
  {
    AtAppend(t, a, [q[0]]);
  }

  lemma BranchStep(t: Node, r: Reading, a: Path, col: nat, q: Path)
    requires Valid(t, a) && Valid(At(t, a), q) && |q| >= 2 && q[1] == 1 && IfEntry(At(t, a), q[0])
    ensures Valid(t, a + q[..2]) && At(t, a + q[..2]) == At(t, a).kids[q[0]].kids[1]
    ensures Cell(a + q[..2], 0) in Parts(t, r, Cell(a, col)) && Valid(At(t, a + q[..2]), q[2..])
  {
    var n := At(t, a);
    assert q[..2] == [q[0], 1];
    assert q[1..][1..] == q[2..];
    TwoDown(n, q[0], 1);
    AtAppend(t, a, q[..2]);
    BranchMembers(n, a, |n.kids|, Cell(a + q[..2], 0));
  }

  /** Every step of flow out of a node that is no column goes down. */
  lemma PartIsMade(t: Node, r: Reading, a: Path, col: nat, v: Spot) returns (u: Path)
    requires Valid(t, a) && !At(t, a).kind.Column? && v in Parts(t, r, Cell(a, col))
    ensures v.Cell? && v.pos == a + u && Valid(t, v.pos)
    ensures forall q :: Valid(At(t, v.pos), q) && Made(At(t, v.pos), v.col, q) ==>
              Valid(At(t, a), u + q) && Made(At(t, a), col, u + q)
  {
    var n := At(t, a);
    if n.kind.Case? {
      BranchMembers(n, a, |n.kids|, v);
      if i :| 0 <= i < |n.kids| && IfEntry(n, i) && v == Cell(a + [i, 1], 0) {
        u := [i, 1];
        BranchIsMade(t, a, col, i);
      } else {
        u := [|n.kids| - 1];
        KidIsMade(t, a, col, |n.kids| - 1, 0);
      }
    } else {
      var i := PartKid(t, r, a, col, v);
      u := [i];
      KidIsMade(t, a, col, i, v.col);
    }
  }

  lemma PartKid(t: Node, r: Reading, a: Path, col: nat, v: Spot) returns (i: nat)
    requires Valid(t, a) && !At(t, a).kind.Column? && !At(t, a).kind.Case? && v in Parts(t, r, Cell(a, col))
    ensures v.Cell? && v.pos == a + [i] && KidFlows(At(t, a), col, i, v.col)
  {
    var n, parts := At(t, a), Parts(t, r, Cell(a, col));
    i := if n.kind.Select? then col else 0;
    if !n.kind.Select? { i :| i < |parts| && parts[i] == v; }
  }

  lemma KidIsMade(t: Node, a: Path, col: nat, i: nat, c: nat)
    requires Valid(t, a) && KidFlows(At(t, a), col, i, c)
    ensures Valid(t, a + [i]) && At(t, a + [i]) == At(t, a).kids[i]
    ensures forall q :: Valid(At(t, a + [i]), q) && Made(At(t, a + [i]), c, q) ==>
              Valid(At(t, a), [i] + q) && Made(At(t, a), col, [i] + q)
  {
    AtAppend(t, a, [i]);
    forall q | Valid(At(t, a + [i]), q) && Made(At(t, a + [i]), c, q)
      ensures Valid(At(t, a), [i] + q) && Made(At(t, a), col, [i] + q)
    {
      assert ([i] + q)[1..] == q;
    }
  }

  lemma BranchIsMade(t: Node, a: Path, col: nat, i: nat)
    requires Valid(t, a) && IfEntry(At(t, a), i)
    ensures Valid(t, a + [i, 1]) && At(t, a + [i, 1]) == At(t, a).kids[i].kids[1]
    ensures forall q :: Valid(At(t, a + [i, 1]), q) && Made(At(t, a + [i, 1]), 0, q) ==>
              Valid(At(t, a), [i, 1] + q) && Made(At(t, a), col, [i, 1] + q)
  {
    var n := At(t, a);
    TwoDown(n, i, 1);
    AtAppend(t, a, [i, 1]);
    forall q | Valid(At(t, a + [i, 1]), q) && Made(At(t, a + [i, 1]), 0, q)
      ensures Valid(n, [i, 1] + q) && Made(n, col, [i, 1] + q)
    {
      var w := [i, 1] + q;
      assert w[1..] == [1] + q && w[1..][1..] == q;
      assert Valid(n.kids[i], w[1..]);
    }
  }

  /** The column reference at p reads a stored column of these names, through whatever it is resolved to. */
  ghost predicate ReadsTaint(t: Node, r: Reading, names: set<string>, p: Path) {
    Valid(t, p) && At(t, p).kind.Column? && exists v :: v in r(p) && Tainted(t, r, names, v)
  }

  lemma {:induction false} MadeTaints(t: Node, r: Reading, names: set<string>, a: Path, col: nat, q: Path)
    requires Valid(t, a) && Valid(At(t, a), q) && Made(At(t, a), col, q) && ReadsTaint(t, r, names, a + q)
    ensures Tainted(t, r, names, Cell(a, col))
    decreases |q|
  {
    if q == [] {
      assert a + q == a;
      var v :| v in r(a) && Tainted(t, r, names, v);
      TaintStep(t, r, names, Cell(a, col), v);
    } else {
      var k, c := MadeStep(t, r, a, col, q);
      assert a + q[..k] + q[k..] == a + q;
      MadeTaints(t, r, names, a + q[..k], c, q[k..]);
      TaintStep(t, r, names, Cell(a, col), Cell(a + q[..k], c));
    }
  }

  lemma {:induction false} TaintedMade(t: Node, r: Reading, names: set<string>, a: Path, col: nat, c: seq<Spot>)
    returns (q: Path)
    requires Valid(t, a) && LeadsTo(t, r, names, Cell(a, col), c)
    ensures Valid(At(t, a), q) && Made(At(t, a), col, q) && ReadsTaint(t, r, names, a + q)
    decreases |c|
  {
    ChainTail(t, r, names, Cell(a, col), c);
    assert c[1] in Parts(t, r, c[0]);
    assert Tainted(t, r, names, c[1]);
    if At(t, a).kind.Column? {
      q := [];
      assert a + q == a;
    } else {
      var u := PartIsMade(t, r, a, col, c[1]);
      var below := TaintedMade(t, r, names, c[1].pos, c[1].col, c[1..]);
      q := u + below;
      assert a + u + below == a + q;
    }
  }

  /** A value is tainted exactly when it is made of a column that reads taint. */
  lemma TaintedIffMade(t: Node, r: Reading, names: set<string>, a: Path, col: nat)
    requires Valid(t, a)
    ensures Tainted(t, r, names, Cell(a, col)) <==>
            exists q :: Valid(At(t, a), q) && Made(At(t, a), col, q) && ReadsTaint(t, r, names, a + q)
  {
    if c :| LeadsTo(t, r, names, Cell(a, col), c) {
      var q := TaintedMade(t, r, names, a, col, c);
    }
    if q :| Valid(At(t, a), q) && Made(At(t, a), col, q) && ReadsTaint(t, r, names, a + q) {
      MadeTaints(t, r, names, a, col, q);
    }
  }

  // ------------------------------------------------------------------
  // What the rule's own test means
  // ------------------------------------------------------------------

  /** Whatever goes into a value is carried, in the rule's terms. */
  lemma {:induction false} MadeCarries(n: Node, col: nat, q: Path)
    requires Valid(n, q) && Made(n, col, q)
    ensures Carries(n, q)
    decreases |q|
  {
    if q != [] {
      if n.kind.Case? && IfEntry(n, q[0]) {
        var u := q[1..];
        assert Valid(n.kids[q[0]], u) && u != [];
        MadeCarries(n.kids[q[0]].kids[1], 0, u[1..]);
      } else {
        MadeCarries(n.kids[q[0]], if n.kind.Union? || Passes(n.kind) then col else 0, q[1..]);
      }
    }
  }

  /** An expression with no query in it. */
  predicate QueryFree(n: Node) {
    !n.kind.Select? && !n.kind.Union? && (n.kind.Alias? || !Passes(n.kind))
    && forall i :: 0 <= i < |n.kids| ==> QueryFree(n.kids[i])
  }

  lemma {:induction false} CarriedIsMade(n: Node, q: Path)
    requires Valid(n, q) && Carries(n, q) && QueryFree(n)
    ensures Made(n, 0, q)
    decreases |q|
  {
    if q != [] {
      if n.kind.Case? && IfEntry(n, q[0]) {
        var u := q[1..];
        assert Valid(n.kids[q[0]], u) && u != [];
        assert QueryFree(n.kids[q[0]]);
        CarriedIsMade(n.kids[q[0]].kids[1], u[1..]);
      } else {
        CarriedIsMade(n.kids[q[0]], q[1..]);
      }
    }
  }

  /** Every column reads the stored column of its own name. */
  function Plainly(t: Node): Reading {
    (p: Path) => if Valid(t, p) && At(t, p).kind.Column? then [Stored(At(t, p).kind.name)] else []
  }

  lemma PlainTaint(t: Node, names: set<string>, p: Path)
    requires Valid(t, p) && At(t, p).kind.Column?
    ensures ReadsTaint(t, Plainly(t), names, p) <==> At(t, p).kind.name in names
  {
    var v := Stored(At(t, p).kind.name);
    assert Plainly(t)(p) == [v];
    StoredTaint(t, Plainly(t), names, v.column);
  }

  lemma StoredTaint(t: Node, r: Reading, names: set<string>, column: string)
    ensures Tainted(t, r, names, Stored(column)) <==> column in names
  {
    var v := Stored(column);
    if column in names { assert LeadsTo(t, r, names, v, [v]); }
    if Tainted(t, r, names, v) && column !in names {
      var part := TaintedPart(t, r, names, v);
    }
  }

  /** An expression that returns none of some names does not depend on the columns of those names. */
  lemma NoIdentityNoInfluence(t: Node, p: Path, names: set<string>)
    requires Valid(t, p) && !ReturnsIdentity(At(t, p), names)
    ensures Ignores(t, Plainly(t), names, Cell(p, 0))
  {
    InfluenceIffTainted(t, Plainly(t), names, Cell(p, 0));
    TaintedIffMade(t, Plainly(t), names, p, 0);
    forall q | Valid(At(t, p), q) && Made(At(t, p), 0, q) ensures !ReadsTaint(t, Plainly(t), names, p + q) {
      if ReadsTaint(t, Plainly(t), names, p + q) {
        PlainTaint(t, names, p + q);
        MadeCarries(At(t, p), 0, q);
        AtAppend(t, p, q);
        WitnessReturns(At(t, p), names, q);
      }
    }
  }

  /** For an expression with no query in it, returning a name is exactly depending on its value. */
  lemma ReturnsIffInfluences(t: Node, p: Path, names: set<string>)
    requires Valid(t, p) && QueryFree(At(t, p))
    ensures ReturnsIdentity(At(t, p), names) <==> !Ignores(t, Plainly(t), names, Cell(p, 0))
  {
    if ReturnsIdentity(At(t, p), names) {
      var q := ReturnsHasWitness(At(t, p), names);
      AtAppend(t, p, q);
      CarriedIsMade(At(t, p), q);
      PlainTaint(t, names, p + q);
      InfluenceIffTainted(t, Plainly(t), names, Cell(p, 0));
      TaintedIffMade(t, Plainly(t), names, p, 0);
    } else {
      NoIdentityNoInfluence(t, p, names);
    }
  }

  // ------------------------------------------------------------------
  // What an accepted query shows
  // ------------------------------------------------------------------

  /** Some column of some row of the result depends on an identity. */
  ghost predicate Shows(t: Node, r: Reading) { exists j :: !Ignores(t, r, IDENTITY, Cell([], j)) }

  /** The column at p goes into a column of the result with no other column read on the way. */
  ghost predicate Surfaces(t: Node, p: Path) {
    Valid(t, p) && At(t, p).kind.Column? && exists col :: Made(t, col, p)
  }

  /** The rule's own guards pass the column by: not a name it looks for, or not directly in an outermost SELECT. */
  ghost predicate Overlooked(t: Node, p: Path)
    requires Valid(t, p) && At(t, p).kind.Column?
  {
    || At(t, p).kind.name !in IDENTITY + Derived(t)
    || !exists k: nat :: NearestSelect(t, p, k) && Outermost(t, p[..k])
  }

  /** A query shows an identity exactly when a column that surfaces in its result reads one. */
  lemma ShowsIff(t: Node, r: Reading)
    ensures Shows(t, r) <==> exists p :: Surfaces(t, p) && ReadsTaint(t, r, IDENTITY, p)
  {
    if j :| !Ignores(t, r, IDENTITY, Cell([], j)) {
      var q := ShownSurfaces(t, r, j);
    }
    if p :| Surfaces(t, p) && ReadsTaint(t, r, IDENTITY, p) {
      var col :| Made(t, col, p);
      assert [] + p == p;
      TaintedIffMade(t, r, IDENTITY, [], col);
      InfluenceIffTainted(t, r, IDENTITY, Cell([], col));
    }
  }

  lemma ShownSurfaces(t: Node, r: Reading, j: nat) returns (q: Path)
    requires !Ignores(t, r, IDENTITY, Cell([], j))
    ensures Surfaces(t, q) && ReadsTaint(t, r, IDENTITY, q)
  {
    InfluenceIffTainted(t, r, IDENTITY, Cell([], j));
    TaintedIffMade(t, r, IDENTITY, [], j);
    q :| Valid(At(t, []), q) && Made(At(t, []), j, q) && ReadsTaint(t, r, IDENTITY, [] + q);
    assert [] + q == q;
  }

  /** Through a SELECT a value comes by one of its projections. */
  lemma {:induction false} MadeThroughSelect(n: Node, col: nat, q: Path, k: nat)
    requires Valid(n, q) && Made(n, col, q) && k < |q| && Valid(n, q[..k]) && At(n, q[..k]).kind.Select?
    ensures q[k] < At(n, q[..k]).kind.projections
    ensures Valid(n, q[..k + 1]) && Valid(At(n, q[..k + 1]), q[k + 1..]) && Made(At(n, q[..k + 1]), 0, q[k + 1..])
    ensures At(At(n, q[..k + 1]), q[k + 1..]) == At(n, q)
    decreases |q|
  {
    ValidPrefix(n, q, k + 1);
    assert q == q[..k + 1] + q[k + 1..];
    AtAppend(n, q[..k + 1], q[k + 1..]);
    if k == 0 {
      assert q[..1] == [q[0]] && q[..1][1..] == [];
    } else if n.kind.Case? && IfEntry(n, q[0]) {
      var u := q[1..];
      assert Valid(n.kids[q[0]], u) && u != [] && u[1..] == q[2..];
      DropFirst(q, k);
      DropFirst(q, k + 1);
      if k > 1 {
        DropFirst(u, k - 1);
        DropFirst(u, k);
        assert q[2..][k - 1..] == q[k + 1..];
        MadeThroughSelect(n.kids[q[0]].kids[1], 0, q[2..], k - 2);
      }
    } else {
      DropFirst(q, k);
      DropFirst(q, k + 1);
      assert q[1..][k..] == q[k + 1..];
      MadeThroughSelect(n.kids[q[0]], if n.kind.Union? || Passes(n.kind) then col else 0, q[1..], k - 1);
    }
  }

  lemma NoSelectBelow(t: Node, p: Path, k: nat)
    requires Valid(t, p) && NearestSelect(t, p, k) && Valid(t, p[..k + 1]) && Valid(At(t, p[..k + 1]), p[k + 1..])
    ensures PastNoSelect(At(t, p[..k + 1]), p[k + 1..])
  {
    var c, q := p[..k + 1], p[k + 1..];
    forall i | 0 <= i < |q| && Valid(At(t, c), q[..i]) ensures !At(At(t, c), q[..i]).kind.Select? {
      AtAppend(t, c, q[..i]);
      assert c + q[..i] == p[..k + 1 + i];
    }
  }

  lemma DropFirst(q: Path, k: nat)
    requires 0 < k <= |q|
    ensures q[..k][1..] == q[1..][..k - 1]
  {
  }

  /** A surfacing column of an outermost SELECT, under a name the rule looks for, is refused. */
  lemma SeenIsRefused(t: Node, p: Path)
    requires Surfaces(t, p) && !Overlooked(t, p)
    ensures !Accepts(t)
  {
    var col :| Made(t, col, p);
    var k: nat :| NearestSelect(t, p, k) && Outermost(t, p[..k]);
    MadeThroughSelect(t, col, p, k);
    var s, c, q := p[..k], p[..k + 1], p[k + 1..];
    assert c[..|s|] == s && Clause(t, s, c);
    MadeCarries(At(t, c), 0, q);
    assert Witness(At(t, c), IDENTITY + Derived(t), q);
    NoSelectBelow(t, p, k);
    if Accepts(t) { IdentityRuleSound(t, s, c); }
  }

  /**
   * However names are resolved, an accepted query shows an identity exactly when one reaches its result
   * by a column the rule overlooks.
   */
  lemma AcceptedShowsIff(t: Node, r: Reading)
    requires Accepts(t)
    ensures Shows(t, r) <==>
            exists p :: Surfaces(t, p) && ReadsTaint(t, r, IDENTITY, p) && Overlooked(t, p)
  {
    ShowsIff(t, r);
    forall p | Surfaces(t, p) ensures Overlooked(t, p) {
      if !Overlooked(t, p) { SeenIsRefused(t, p); }
    }
  }

  /** The SELECT of the result that the column at p stands in. */
  ghost predicate ResultSelect(t: Node, p: Path, k: nat)
    requires Valid(t, p)
  {
    k < |p| && Valid(t, p[..k]) && At(t, p[..k]).kind.Select?
    && forall j :: 0 <= j < k && Valid(t, p[..j]) ==> !At(t, p[..j]).kind.Select?
  }

  /** A SELECT is nested between the result's SELECT and the column. */
  ghost predicate NestedBelow(t: Node, p: Path, k: nat)
    requires Valid(t, p)
  {
    exists j :: k < j < |p| && Valid(t, p[..j]) && At(t, p[..j]).kind.Select?
  }

  /** The three ways to be overlooked: an unseen name, a branch not taken for outermost, a nested SELECT. */
  lemma OverlookedWays(t: Node, p: Path, k: nat)
    requires Valid(t, p) && At(t, p).kind.Column? && ResultSelect(t, p, k)
    ensures Overlooked(t, p) ==>
              At(t, p).kind.name !in IDENTITY + Derived(t) || !Outermost(t, p[..k]) || NestedBelow(t, p, k)
    ensures t.kind.Select? || t.kind.Union? ==>
              (Overlooked(t, p) <== At(t, p).kind.name !in IDENTITY + Derived(t) || !Outermost(t, p[..k])
                                    || NestedBelow(t, p, k))
  {
    if !NestedBelow(t, p, k) {
      assert NearestSelect(t, p, k);
      forall k': nat | NearestSelect(t, p, k') ensures k' == k { NearestSelectUnique(t, p, k, k'); }
    } else if t.kind.Select? || t.kind.Union? {
      forall k': nat | NearestSelect(t, p, k') ensures !Outermost(t, p[..k']) {
        var j :| k < j < |p| && Valid(t, p[..j]) && At(t, p[..j]).kind.Select?;
        assert k' >= j;
        assert p[..0] == [];
        if t.kind.Union? { assert k > 0; }
      }
    }
  }

  // ------------------------------------------------------------------
  // When names are resolved by name
  // ------------------------------------------------------------------

  /** Column j of a list of column names that follows a query. */
  function Listed(n: Node, j: nat): Option<string> {
    if |n.kids| > 1 && n.kids[1].kind == Other("columns") && j < |n.kids[1].kids| && n.kids[1].kids[j].kind.Other?
    then Some(n.kids[1].kids[j].kind.tag) else None
  }

  /** The name of column j of a query: from a column list, its first branch, an alias, a column, or implied. */
  function OutputName(t: Node, p: Path, j: nat, implied: Path -> string): string
    requires Valid(t, p)
    decreases At(t, p)
  {
    var n := At(t, p);
    if n.kind.Select? && j < n.kind.projections && j < |n.kids| then
      (match n.kids[j].kind case Alias(a) => a case Column(_, name) => name case _ => implied(p + [j]))
    else if Passes(n.kind) && Listed(n, j).Some? then Listed(n, j).value
    else if (n.kind.Union? || Passes(n.kind)) && n.kids != [] then
      AtAppend(t, p, [0]); OutputName(t, p + [0], j, implied)
    else implied(p)
  }

  /** Every column reads stored columns of its own name and outputs called by it. */
  ghost predicate ByName(t: Node, r: Reading, implied: Path -> string) {
    forall p, v :: Valid(t, p) && At(t, p).kind.Column? && v in r(p) ==>
      match v
      case Stored(c) => c == At(t, p).kind.name
      case Cell(q, j) => Valid(t, q) && OutputName(t, q, j, implied) == At(t, p).kind.name
  }

  /** Every output an identity reaches goes by a name the rule looks for. */
  ghost predicate NamesSeen(t: Node, r: Reading, implied: Path -> string) {
    forall q, j :: Valid(t, q) && Tainted(t, r, IDENTITY, Cell(q, j)) ==>
      OutputName(t, q, j, implied) in IDENTITY + Derived(t)
  }

  /** With only outermost columns in the result and every such name seen, an accepted query shows no identity. */
  lemma AcceptedShowsNone(t: Node, r: Reading, implied: Path -> string)
    requires Accepts(t) && ByName(t, r, implied) && NamesSeen(t, r, implied)
    requires forall p :: Surfaces(t, p) ==> exists k: nat :: NearestSelect(t, p, k) && Outermost(t, p[..k])
    ensures !Shows(t, r)
  {
    AcceptedShowsIff(t, r);
    forall p | Surfaces(t, p) && ReadsTaint(t, r, IDENTITY, p) ensures !Overlooked(t, p) {
      TaintedNameSeen(t, r, implied, p);
    }
  }

  lemma TaintedNameSeen(t: Node, r: Reading, implied: Path -> string, p: Path)
    requires ByName(t, r, implied) && NamesSeen(t, r, implied) && ReadsTaint(t, r, IDENTITY, p)
    ensures At(t, p).kind.name in IDENTITY + Derived(t)
  {
    var v :| v in r(p) && Tainted(t, r, IDENTITY, v);
    if v.Stored? { StoredTaint(t, r, IDENTITY, v.column); }
  }
}
