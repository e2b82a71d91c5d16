/**
 * What a SELECT computes from tables whose rows may repeat, and exactly which of its counts a
 * repeated row can change.
 */
module Repeats {
  import opened Wrappers
  import opened Seqs
  import opened SqlAst

  // ------------------------------------------------------------------
  // Queries
  // ------------------------------------------------------------------

  datatype Fold = CountOf | SumOf | MinOf | MaxOf

  /** An aggregate; COUNT(*) has no argument. */
  datatype Agg = Agg(fold: Fold, distinct: bool, arg: Option<Node>)

  /** A projection with the aggregates it is made of. */
  datatype Item = Item(node: Node, aggs: seq<Agg>)

  /** A condition with the subqueries it tests. */
  datatype Cond = Cond(node: Node, subs: seq<Query>)

  datatype From =
    | Base(table: string)
    | Derived(query: Query)
    | Joining(left: From, right: From, on: Option<Cond>, outer: bool)

  datatype Query = Query(from: From, filter: Option<Cond>, keys: seq<Node>, items: seq<Item>, distinct: bool)

  /** GROUP BY, or an aggregate over everything. */
  predicate Grouped(q: Query) { q.keys != [] || exists i :: 0 <= i < |q.items| && q.items[i].aggs != [] }

  // ------------------------------------------------------------------
  // Rows
  // ------------------------------------------------------------------

  type Row = seq<Option<int>>       // cells; None is NULL
  type Joined = seq<Option<Row>>    // one row per FROM item; None is the missing side of a LEFT JOIN
  type Scope = seq<Joined>          // the rows of this query and the ones around it, innermost last
  type Contents = string -> seq<Row>

  /**
   * What expressions mean: any function of the rows in scope, of the sets of rows its subqueries
   * return, and of the values of its aggregates. A condition holds when its value is 1.
   */
  type Meaning = (Node, Scope, seq<set<Row>>, seq<Option<int>>) -> Option<int>

  /** The elements of a set in an order that the set alone decides. */
  ghost function Listing<T(!new)>(s: set<T>): (xs: seq<T>)
    ensures ToSet(xs) == s
  {
    if s == {} then []
    else
      var x :| x in s;
      var rest := Listing(s - {x});
      assert forall y :: y in [x] + rest <==> y == x || y in ToSet(rest);
      [x] + rest
  }

  function Width(f: From): (n: nat)
    ensures n > 0
  {
    match f
    case Joining(l, r, _, _) => Width(l) + Width(r)
    case _ => 1
  }

  function Missing(f: From, outer: bool): seq<Joined> { if outer then [seq(Width(f), _ => None)] else [] }

  ghost function Alone(): Row -> Joined { (r: Row) => [Some(r)] }
  ghost function Beside(x: Joined): Joined -> Joined { (y: Joined) => x + y }

  ghost function Hits(test: Joined -> bool, x: Joined, right: seq<Joined>): seq<Joined> {
    Filter(test, Map(Beside(x), right))
  }

  /** The rows one left row joins to. */
  ghost function PairsOf(test: Joined -> bool, x: Joined, right: seq<Joined>, missing: seq<Joined>): seq<Joined> {
    if Hits(test, x, right) == [] then Map(Beside(x), missing) else Hits(test, x, right)
  }

  ghost function Pairs(test: Joined -> bool, right: seq<Joined>, missing: seq<Joined>): Joined -> seq<Joined> {
    (x: Joined) => PairsOf(test, x, right, missing)
  }

  ghost function Test(c: Option<Cond>, m: Meaning, db: Contents, scope: Scope): Joined -> bool {
    (z: Joined) =>
      c.None? || m(c.value.node, scope + [z], SubResults(c.value.subs, m, db, scope + [z]), []) == Some(1)
  }

  ghost function SubResults(subs: seq<Query>, m: Meaning, db: Contents, scope: Scope): seq<set<Row>> {
    if subs == [] then [] else [ToSet(Result(subs[0], m, db, scope))] + SubResults(subs[1..], m, db, scope)
  }

  ghost function Sources(f: From, m: Meaning, db: Contents, scope: Scope): seq<Joined> {
    match f
    case Base(t) => Map(Alone(), db(t))
    case Derived(q) => Map(Alone(), Result(q, m, db, scope))
    case Joining(l, r, on, outer) =>
      FlatMap(Pairs(Test(on, m, db, scope), Sources(r, m, db, scope), Missing(r, outer)), Sources(l, m, db, scope))
  }

  /** FROM and WHERE. */
  ghost function Kept(q: Query, m: Meaning, db: Contents, scope: Scope): seq<Joined>
    decreases q, 0
  {
    Filter(Test(q.filter, m, db, scope), Sources(q.from, m, db, scope))
  }

  ghost function ValueIn(m: Meaning, scope: Scope): Node -> Option<int> { (n: Node) => m(n, scope, [], []) }

  ghost function KeyOf(keys: seq<Node>, m: Meaning, scope: Scope): Joined -> Row {
    (z: Joined) => Map(ValueIn(m, scope + [z]), keys)
  }

  ghost function HasKey(keys: seq<Node>, m: Meaning, scope: Scope, key: Row): Joined -> bool {
    (z: Joined) => KeyOf(keys, m, scope)(z) == key
  }

  /** The rows of one group. */
  ghost function GroupRows(keys: seq<Node>, m: Meaning, scope: Scope, rows: seq<Joined>, key: Row): seq<Joined> {
    Filter(HasKey(keys, m, scope, key), rows)
  }

  ghost function ArgIn(arg: Node, m: Meaning, scope: Scope): Joined -> seq<int> {
    (z: Joined) => match m(arg, scope + [z], [], []) case Some(v) => [v] case None => []
  }

  ghost function Values(a: Agg, m: Meaning, scope: Scope, rows: seq<Joined>): seq<int>
    requires a.arg.Some?
  {
    var all := FlatMap(ArgIn(a.arg.value, m, scope), rows);
    if a.distinct then Listing(ToSet(all)) else all
  }

  function Sum(xs: seq<int>): int { if xs == [] then 0 else Sum(xs[..|xs| - 1]) + xs[|xs| - 1] }

  function Extreme(xs: seq<int>, least: bool): (r: int)
    requires xs != []
    ensures r in xs && forall x :: x in xs ==> if least then r <= x else x <= r
  {
    if |xs| == 1 then xs[0]
    else
      var rest := Extreme(xs[1..], least);
      assert xs == [xs[0]] + xs[1..];
      if (xs[0] <= rest) == least then xs[0] else rest
  }

  function Folded(fold: Fold, xs: seq<int>): Option<int> {
    match fold
    case CountOf => Some(|xs|)
    case SumOf => if xs == [] then None else Some(Sum(xs))
    case MinOf => if xs == [] then None else Some(Extreme(xs, true))
    case MaxOf => if xs == [] then None else Some(Extreme(xs, false))
  }

  /** An aggregate over the rows of a group; NULLs are left out. */
  ghost function AggValue(a: Agg, m: Meaning, scope: Scope, rows: seq<Joined>): Option<int> {
    if a.arg.None? then Some(|rows|) else Folded(a.fold, Values(a, m, scope, rows))
  }

  ghost function AggIn(m: Meaning, scope: Scope, rows: seq<Joined>): Agg -> Option<int> {
    (a: Agg) => AggValue(a, m, scope, rows)
  }

  ghost function GroupCell(m: Meaning, scope: Scope, key: Row, rows: seq<Joined>): Item -> Option<int> {
    (it: Item) => m(it.node, scope + [[Some(key)]], [], Map(AggIn(m, scope, rows), it.aggs))
  }

  ghost function GroupRow(q: Query, m: Meaning, scope: Scope, rows: seq<Joined>): Row -> Row {
    (key: Row) => Map(GroupCell(m, scope, key, GroupRows(q.keys, m, scope, rows, key)), q.items)
  }

  ghost function Cell(m: Meaning, scope: Scope): Item -> Option<int> { (it: Item) => m(it.node, scope, [], []) }

  ghost function PlainRow(q: Query, m: Meaning, scope: Scope): Joined -> Row {
    (z: Joined) => Map(Cell(m, scope + [z]), q.items)
  }

  /** The group keys present; an aggregate without GROUP BY has its one group even over no rows. */
  ghost function GroupKeys(keys: seq<Node>, m: Meaning, scope: Scope, rows: seq<Joined>): set<Row> {
    if keys == [] then {[]} else ToSet(Map(KeyOf(keys, m, scope), rows))
  }

  ghost function Projected(q: Query, m: Meaning, scope: Scope, rows: seq<Joined>): seq<Row> {
    if Grouped(q) then Map(GroupRow(q, m, scope, rows), Listing(GroupKeys(q.keys, m, scope, rows)))
    else Map(PlainRow(q, m, scope), rows)
  }

  ghost function Result(q: Query, m: Meaning, db: Contents, scope: Scope): seq<Row>
    decreases q, 1
  {
    var rows := Projected(q, m, scope, Kept(q, m, db, scope));
    if q.distinct then Listing(ToSet(rows)) else rows
  }

  // ------------------------------------------------------------------
  // What repeated rows can change
  // ------------------------------------------------------------------

  /** The same tables up to repetition and order of rows. */
  ghost predicate SameRows(a: Contents, b: Contents) { forall t :: ToSet(a(t)) == ToSet(b(t)) }

  /** A repeated row can change the aggregate. */
  predicate Sensitive(a: Agg) { a.arg.None? || (!a.distinct && (a.fold.CountOf? || a.fold.SumOf?)) }

  predicate HasSensitive(q: Query) {
    exists i, j :: 0 <= i < |q.items| && 0 <= j < |q.items[i].aggs| && Sensitive(q.items[i].aggs[j])
  }

  /** Every table in it is read through a GROUP BY, an aggregate or a DISTINCT. */
  predicate Reduced(f: From) {
    match f
    case Base(_) => false
    case Derived(q) => Grouped(q) || q.distinct || Reduced(q.from)
    case Joining(l, r, _, _) => Reduced(l) && Reduced(r)
  }

  predicate ReducedQuery(q: Query) { Grouped(q) || q.distinct || Reduced(q.from) }

  /** No multiplicity-sensitive aggregate in it, or in a condition of it, is fed rows that may repeat. */
  predicate Settled(f: From) {
    match f
    case Base(_) => true
    case Derived(q) => SettledQuery(q)
    case Joining(l, r, on, _) => Settled(l) && Settled(r) && SettledTest(on)
  }

  predicate SettledTest(c: Option<Cond>) { c.None? || SettledAll(c.value.subs) }

  predicate SettledAll(subs: seq<Query>) { subs == [] || (SettledQuery(subs[0]) && SettledAll(subs[1..])) }

  predicate SettledQuery(q: Query) {
    Settled(q.from) && SettledTest(q.filter) && (HasSensitive(q) ==> Reduced(q.from))
  }

  // ------------------------------------------------------------------
  // Sets of rows
  // ------------------------------------------------------------------

  lemma MapKeepsSet<A, B>(f: A -> B, xs: seq<A>, ys: seq<A>)
    requires ToSet(xs) == ToSet(ys)
    ensures ToSet(Map(f, xs)) == ToSet(Map(f, ys))
  {
    MapInto(f, xs, ys);
    MapInto(f, ys, xs);
  }

  lemma MapInto<A, B>(f: A -> B, xs: seq<A>, ys: seq<A>)
    requires ToSet(xs) <= ToSet(ys)
    ensures ToSet(Map(f, xs)) <= ToSet(Map(f, ys))
  {
    forall z | z in Map(f, xs) ensures z in Map(f, ys) {
      var i :| 0 <= i < |xs| && Map(f, xs)[i] == z;
      assert xs[i] in ToSet(xs);
      var j :| 0 <= j < |ys| && ys[j] == xs[i];
      assert Map(f, ys)[j] == z;
    }
  }

  lemma FilterKeepsSet<A>(p: A -> bool, q: A -> bool, xs: seq<A>, ys: seq<A>)
    requires ToSet(xs) == ToSet(ys) && forall x :: p(x) == q(x)
    ensures ToSet(Filter(p, xs)) == ToSet(Filter(q, ys))
  {
    FilterInto(p, q, xs, ys);
    FilterInto(q, p, ys, xs);
  }

  lemma FilterInto<A>(p: A -> bool, q: A -> bool, xs: seq<A>, ys: seq<A>)
    requires ToSet(xs) <= ToSet(ys) && forall x :: p(x) == q(x)
    ensures ToSet(Filter(p, xs)) <= ToSet(Filter(q, ys))
  {
    forall z | z in Filter(p, xs) ensures z in Filter(q, ys) {
      FilterMember(p, xs, z);
      FilterMember(q, ys, z);
      assert z in ToSet(xs);
    }
  }

  lemma FilterMember<A>(p: A -> bool, xs: seq<A>, z: A)
    ensures z in Filter(p, xs) <==> z in xs && p(z)
  {
    FilterMembers(p, xs);
  }

  lemma FlatMapKeepsSet<A, B>(f: A -> seq<B>, g: A -> seq<B>, xs: seq<A>, ys: seq<A>)
    requires ToSet(xs) == ToSet(ys) && forall x :: ToSet(f(x)) == ToSet(g(x))
    ensures ToSet(FlatMap(f, xs)) == ToSet(FlatMap(g, ys))
  {
    FlatMapInto(f, g, xs, ys);
    FlatMapInto(g, f, ys, xs);
  }

  lemma FlatMapInto<A, B>(f: A -> seq<B>, g: A -> seq<B>, xs: seq<A>, ys: seq<A>)
    requires ToSet(xs) <= ToSet(ys) && forall x :: ToSet(f(x)) == ToSet(g(x))
    ensures ToSet(FlatMap(f, xs)) <= ToSet(FlatMap(g, ys))
  {
    forall z | z in FlatMap(f, xs) ensures z in FlatMap(g, ys) {
      FlatMapMember(f, xs, z);
      FlatMapMember(g, ys, z);
      var i :| 0 <= i < |xs| && z in f(xs[i]);
      assert xs[i] in ToSet(xs) && z in ToSet(f(xs[i]));
      var j :| 0 <= j < |ys| && ys[j] == xs[i];
      assert z in ToSet(g(ys[j]));
    }
  }

  lemma EmptyBySet<A>(xs: seq<A>)
    ensures xs == [] <==> ToSet(xs) == {}
  {
    if xs != [] { assert xs[0] in ToSet(xs); }
  }

  // ------------------------------------------------------------------
  // A settled query returns the same rows
  // ------------------------------------------------------------------

  lemma SameExtreme(xs: seq<int>, ys: seq<int>, least: bool)
    requires ToSet(xs) == ToSet(ys) && xs != [] && ys != []
    ensures Extreme(xs, least) == Extreme(ys, least)
  {
    var a, b := Extreme(xs, least), Extreme(ys, least);
    assert a in ToSet(xs) && b in ToSet(ys);
  }

  lemma SameAggregate(a: Agg, m: Meaning, scope: Scope, xs: seq<Joined>, ys: seq<Joined>)
    requires ToSet(xs) == ToSet(ys) && (Sensitive(a) ==> xs == ys)
    ensures AggValue(a, m, scope, xs) == AggValue(a, m, scope, ys)
  {
    if !Sensitive(a) {
      var f := ArgIn(a.arg.value, m, scope);
      FlatMapKeepsSet(f, f, xs, ys);
      var vs, ws := Values(a, m, scope, xs), Values(a, m, scope, ys);
      assert ToSet(vs) == ToSet(ws);
      EmptyBySet(vs);
      EmptyBySet(ws);
      if !a.distinct && vs != [] { SameExtreme(vs, ws, a.fold.MinOf?); }
    }
  }

  lemma SameGroupRow(q: Query, m: Meaning, scope: Scope, xs: seq<Joined>, ys: seq<Joined>, key: Row)
    requires ToSet(xs) == ToSet(ys) && (HasSensitive(q) ==> xs == ys)
    ensures GroupRow(q, m, scope, xs)(key) == GroupRow(q, m, scope, ys)(key)
  {
    var p := HasKey(q.keys, m, scope, key);
    FilterKeepsSet(p, p, xs, ys);
    var us, vs := GroupRows(q.keys, m, scope, xs, key), GroupRows(q.keys, m, scope, ys, key);
    forall it | it in q.items ensures GroupCell(m, scope, key, us)(it) == GroupCell(m, scope, key, vs)(it) {
      forall a | a in it.aggs ensures AggIn(m, scope, us)(a) == AggIn(m, scope, vs)(a) {
        SameAggregate(a, m, scope, us, vs);
      }
      MapCong(AggIn(m, scope, us), AggIn(m, scope, vs), it.aggs);
    }
    MapCong(GroupCell(m, scope, key, us), GroupCell(m, scope, key, vs), q.items);
  }

  lemma SameProjection(q: Query, m: Meaning, scope: Scope, xs: seq<Joined>, ys: seq<Joined>)
    requires ToSet(xs) == ToSet(ys) && (HasSensitive(q) ==> xs == ys)
    ensures ToSet(Projected(q, m, scope, xs)) == ToSet(Projected(q, m, scope, ys))
    ensures Grouped(q) ==> Projected(q, m, scope, xs) == Projected(q, m, scope, ys)
  {
    MapKeepsSet(KeyOf(q.keys, m, scope), xs, ys);
    var keys := Listing(GroupKeys(q.keys, m, scope, xs));
    forall key | key in keys ensures GroupRow(q, m, scope, xs)(key) == GroupRow(q, m, scope, ys)(key) {
      SameGroupRow(q, m, scope, xs, ys, key);
    }
    MapCong(GroupRow(q, m, scope, xs), GroupRow(q, m, scope, ys), keys);
    MapKeepsSet(PlainRow(q, m, scope), xs, ys);
  }

  lemma {:induction false} SameResult(q: Query, m: Meaning, a: Contents, b: Contents, scope: Scope)
    requires SettledQuery(q) && SameRows(a, b)
    ensures ToSet(Result(q, m, a, scope)) == ToSet(Result(q, m, b, scope))
    ensures ReducedQuery(q) ==> Result(q, m, a, scope) == Result(q, m, b, scope)
    decreases q, 1
  {
    SameKept(q, m, a, b, scope);
    SameProjection(q, m, scope, Kept(q, m, a, scope), Kept(q, m, b, scope));
  }

  lemma {:induction false} SameKept(q: Query, m: Meaning, a: Contents, b: Contents, scope: Scope)
    requires Settled(q.from) && SettledTest(q.filter) && SameRows(a, b)
    ensures ToSet(Kept(q, m, a, scope)) == ToSet(Kept(q, m, b, scope))
    ensures Reduced(q.from) ==> Kept(q, m, a, scope) == Kept(q, m, b, scope)
    decreases q, 0
  {
    var p, p' := Test(q.filter, m, a, scope), Test(q.filter, m, b, scope);
    SameSources(q.from, m, a, b, scope);
    forall z ensures p(z) == p'(z) { SameTest(q.filter, m, a, b, scope, z); }
    FilterKeepsSet(p, p', Sources(q.from, m, a, scope), Sources(q.from, m, b, scope));
    FilterCong(p, p', Sources(q.from, m, a, scope));
  }

  lemma {:induction false} SameTest(c: Option<Cond>, m: Meaning, a: Contents, b: Contents, scope: Scope, z: Joined)
    requires SettledTest(c) && SameRows(a, b)
    ensures Test(c, m, a, scope)(z) == Test(c, m, b, scope)(z)
    decreases c
  {
    if c.Some? { SameSubResults(c.value.subs, m, a, b, scope + [z]); }
  }

  lemma {:induction false} SameSubResults(subs: seq<Query>, m: Meaning, a: Contents, b: Contents, scope: Scope)
    requires SettledAll(subs) && SameRows(a, b)
    ensures SubResults(subs, m, a, scope) == SubResults(subs, m, b, scope)
    decreases subs
  {
    if subs != [] {
      SameResult(subs[0], m, a, b, scope);
      SameSubResults(subs[1..], m, a, b, scope);
    }
  }

  lemma {:induction false} SameSources(f: From, m: Meaning, a: Contents, b: Contents, scope: Scope)
    requires Settled(f) && SameRows(a, b)
    ensures ToSet(Sources(f, m, a, scope)) == ToSet(Sources(f, m, b, scope))
    ensures Reduced(f) ==> Sources(f, m, a, scope) == Sources(f, m, b, scope)
    decreases f
  {
    match f {
      case Base(t) =>
        MapKeepsSet(Alone(), a(t), b(t));
      case Derived(q) =>
        SameResult(q, m, a, b, scope);
        MapKeepsSet(Alone(), Result(q, m, a, scope), Result(q, m, b, scope));
      case Joining(l, r, on, outer) =>
        SameSources(l, m, a, b, scope);
        SameSources(r, m, a, b, scope);
        forall z ensures Test(on, m, a, scope)(z) == Test(on, m, b, scope)(z) { SameTest(on, m, a, b, scope, z); }
        SameJoin(Test(on, m, a, scope), Test(on, m, b, scope), Missing(r, outer),
                 Sources(l, m, a, scope), Sources(l, m, b, scope), Sources(r, m, a, scope), Sources(r, m, b, scope));
    }
  }

  lemma SameJoin(p: Joined -> bool, p': Joined -> bool, missing: seq<Joined>,
                 l: seq<Joined>, l': seq<Joined>, r: seq<Joined>, r': seq<Joined>)
    requires (forall z :: p(z) == p'(z)) && ToSet(l) == ToSet(l') && ToSet(r) == ToSet(r')
    ensures ToSet(FlatMap(Pairs(p, r, missing), l)) == ToSet(FlatMap(Pairs(p', r', missing), l'))
    ensures l == l' && r == r' ==> FlatMap(Pairs(p, r, missing), l) == FlatMap(Pairs(p', r', missing), l')
  {
    forall x
      ensures ToSet(Pairs(p, r, missing)(x)) == ToSet(Pairs(p', r', missing)(x))
      ensures r == r' ==> Pairs(p, r, missing)(x) == Pairs(p', r', missing)(x)
    {
      SamePairs(p, p', missing, r, r', x);
    }
    FlatMapKeepsSet(Pairs(p, r, missing), Pairs(p', r', missing), l, l');
    if r == r' { FlatMapCong(Pairs(p, r, missing), Pairs(p', r', missing), l); }
  }

  lemma SamePairs(p: Joined -> bool, p': Joined -> bool, missing: seq<Joined>, r: seq<Joined>, r': seq<Joined>,
                  x: Joined)
    requires (forall z :: p(z) == p'(z)) && ToSet(r) == ToSet(r')
    ensures ToSet(Pairs(p, r, missing)(x)) == ToSet(Pairs(p', r', missing)(x))
    ensures r == r' ==> Pairs(p, r, missing)(x) == Pairs(p', r', missing)(x)
  {
    MapKeepsSet(Beside(x), r, r');
    FilterKeepsSet(p, p', Map(Beside(x), r), Map(Beside(x), r'));
    FilterCong(p, p', Map(Beside(x), r));
    EmptyBySet(Filter(p, Map(Beside(x), r)));
    EmptyBySet(Filter(p', Map(Beside(x), r')));
  }

  // ------------------------------------------------------------------
  // A world in which every unsettled query shows
  // ------------------------------------------------------------------

  /** Queries whose projections and aggregates read their rows: no COUNT(*), no empty projection list. */
  predicate Explicit(f: From) {
    match f
    case Base(_) => true
    case Derived(q) => ExplicitQuery(q)
    case Joining(l, r, on, _) => Explicit(l) && Explicit(r) && ExplicitTest(on)
  }

  predicate ExplicitTest(c: Option<Cond>) { c.None? || ExplicitAll(c.value.subs) }

  predicate ExplicitAll(subs: seq<Query>) { subs == [] || (ExplicitQuery(subs[0]) && ExplicitAll(subs[1..])) }

  predicate ExplicitQuery(q: Query) {
    && Explicit(q.from) && ExplicitTest(q.filter) && q.items != []
    && forall i, j :: 0 <= i < |q.items| && 0 <= j < |q.items[i].aggs| ==> q.items[i].aggs[j].arg.Some?
  }

  ghost predicate Ones(r: Row) { forall i :: 0 <= i < |r| ==> r[i] == Some(1) }
  ghost predicate Clean(z: Joined) { forall i :: 0 <= i < |z| ==> z[i].Some? && Ones(z[i].value) }
  ghost predicate CleanScope(scope: Scope) { forall i :: 0 <= i < |scope| ==> Clean(scope[i]) }
  ghost predicate AllClean(rows: seq<Joined>) { forall z :: z in rows ==> Clean(z) }
  ghost predicate NoneClean(rows: seq<Joined>) { forall z :: z in rows ==> !Clean(z) }
  ghost predicate AllOnes(rows: seq<Row>) { forall r :: r in rows ==> Ones(r) }
  ghost predicate NoOnes(rows: seq<Row>) { forall r :: r in rows ==> !Ones(r) }
  ghost predicate OnesSet(rows: set<Row>) { rows != {} && forall r :: r in rows ==> Ones(r) }

  ghost predicate AllOnesSets(sets: seq<set<Row>>) { forall i :: 0 <= i < |sets| ==> OnesSet(sets[i]) }

  /** Expressions are 1 as long as everything they see is 1, and NULL otherwise. */
  ghost function Fragile(): Meaning {
    (n: Node, scope: Scope, subs: seq<set<Row>>, aggs: seq<Option<int>>) =>
      if CleanScope(scope) && AllOnesSets(subs) && Ones(aggs) then Some(1) else None
  }

  ghost function Once(): Contents { (t: string) => [[Some(1)]] }
  ghost function Twice(): Contents { (t: string) => [[Some(1)], [Some(1)]] }

  lemma OnceAndTwice()
    ensures SameRows(Once(), Twice())
  {
    forall t ensures ToSet(Once()(t)) == ToSet(Twice()(t)) {
    }
  }

  lemma CleanPush(scope: Scope, z: Joined)
    requires CleanScope(scope)
    ensures CleanScope(scope + [z]) <==> Clean(z)
  {
    if CleanScope(scope + [z]) { assert (scope + [z])[|scope|] == z; }
  }

  lemma FragileSees(n: Node, scope: Scope)
    ensures Fragile()(n, scope, [], []) == if CleanScope(scope) then Some(1) else None
  {
    var sets: seq<set<Row>>, aggs: Row := [], [];
    assert AllOnesSets(sets) && Ones(aggs);
  }

  // Aggregates and projections

  lemma {:induction false} ArgsOfClean(a: Agg, scope: Scope, rows: seq<Joined>)
    requires a.arg.Some? && CleanScope(scope) && AllClean(rows)
    ensures FlatMap(ArgIn(a.arg.value, Fragile(), scope), rows) == seq(|rows|, _ => 1)
  {
    if rows != [] {
      var init, z := rows[..|rows| - 1], rows[|rows| - 1];
      assert z in rows;
      ArgsOfClean(a, scope, init);
      CleanPush(scope, z);
      FragileSees(a.arg.value, scope + [z]);
      assert ArgIn(a.arg.value, Fragile(), scope)(z) == [1];
    }
  }

  lemma {:induction false} ArgsOfUnclean(a: Agg, scope: Scope, rows: seq<Joined>)
    requires a.arg.Some? && CleanScope(scope) && NoneClean(rows)
    ensures FlatMap(ArgIn(a.arg.value, Fragile(), scope), rows) == []
  {
    if rows != [] {
      var init, z := rows[..|rows| - 1], rows[|rows| - 1];
      assert z in rows;
      ArgsOfUnclean(a, scope, init);
      CleanPush(scope, z);
      FragileSees(a.arg.value, scope + [z]);
    }
  }

  lemma {:induction false} SumOfOnes(n: nat)
    ensures Sum(seq(n, _ => 1)) == n
  {
    if n > 0 {
      assert seq(n, _ => 1)[..n - 1] == seq(n - 1, _ => 1);
      SumOfOnes(n - 1);
    }
  }

  lemma SingletonListing<T(!new)>(s: set<T>, x: T)
    requires s == {x}
    ensures Listing(s) == [x]
  {
    assert s - {x} == {};
  }

  /** Over clean rows an aggregate is 1, unless it is sensitive and there are several of them. */
  lemma CleanAggregate(a: Agg, scope: Scope, rows: seq<Joined>)
    requires CleanScope(scope) && AllClean(rows) && rows != []
    ensures AggValue(a, Fragile(), scope, rows) == Some(if Sensitive(a) then |rows| else 1)
  {
    if a.arg.Some? {
      ArgsOfClean(a, scope, rows);
      OnesListed(|rows|);
      SumOfOnes(|rows|);
      SumOfOnes(1);
    }
  }

  lemma OnesListed(n: nat)
    requires n > 0
    ensures Listing(ToSet(seq(n, _ => 1))) == seq(1, _ => 1)
  {
    var ones: seq<int> := seq(n, _ => 1);
    assert ones[0] == 1;
    assert ToSet(ones) == {1};
    SingletonListing(ToSet(ones), 1);
  }

  lemma UncleanAggregate(a: Agg, scope: Scope, rows: seq<Joined>)
    requires a.arg.Some? && CleanScope(scope) && NoneClean(rows)
    ensures AggValue(a, Fragile(), scope, rows) != Some(1)
  {
    ArgsOfUnclean(a, scope, rows);
    var none: seq<int> := [];
    assert ToSet(none) == {};
  }

  lemma KeyOfClean(keys: seq<Node>, scope: Scope, z: Joined)
    requires CleanScope(scope)
    ensures Clean(z) ==> KeyOf(keys, Fragile(), scope)(z) == seq(|keys|, _ => Some(1))
    ensures !Clean(z) && keys != [] ==> !Ones(KeyOf(keys, Fragile(), scope)(z))
  {
    CleanPush(scope, z);
    var key := KeyOf(keys, Fragile(), scope)(z);
    forall i | 0 <= i < |keys| ensures key[i] == if Clean(z) then Some(1) else None {
      FragileSees(keys[i], scope + [z]);
    }
    if !Clean(z) && keys != [] { assert key[0] == None; }
  }

  function OnesKey(keys: seq<Node>): Row { seq(|keys|, _ => Some(1)) }

  /** Clean rows are one group. */
  lemma CleanGroup(keys: seq<Node>, scope: Scope, rows: seq<Joined>)
    requires CleanScope(scope) && AllClean(rows) && rows != []
    ensures GroupKeys(keys, Fragile(), scope, rows) == {OnesKey(keys)}
    ensures GroupRows(keys, Fragile(), scope, rows, OnesKey(keys)) == rows
  {
    forall z | z in rows ensures KeyOf(keys, Fragile(), scope)(z) == OnesKey(keys) { KeyOfClean(keys, scope, z); }
    var found := Map(KeyOf(keys, Fragile(), scope), rows);
    forall k | k in found ensures k == OnesKey(keys) {
      var i :| 0 <= i < |found| && found[i] == k;
      assert rows[i] in rows;
    }
    assert rows[0] in rows && found[0] in found;
    assert keys == [] ==> OnesKey(keys) == [];
    FilterAll(HasKey(keys, Fragile(), scope, OnesKey(keys)), rows);
  }

  lemma GroupScope(keys: seq<Node>, scope: Scope)
    requires CleanScope(scope)
    ensures CleanScope(scope + [[Some(OnesKey(keys))]])
  {
    CleanPush(scope, [Some(OnesKey(keys))]);
  }

  lemma CleanGroupRow(q: Query, scope: Scope, rows: seq<Joined>)
    requires CleanScope(scope) && AllClean(rows) && rows != []
    ensures Ones(GroupRow(q, Fragile(), scope, rows)(OnesKey(q.keys))) <==> (HasSensitive(q) ==> |rows| == 1)
  {
    CleanGroup(q.keys, scope, rows);
    GroupScope(q.keys, scope);
    var row := GroupRow(q, Fragile(), scope, rows)(OnesKey(q.keys));
    forall i | 0 <= i < |q.items|
      ensures row[i] == Some(1) <==>
              forall j :: 0 <= j < |q.items[i].aggs| && Sensitive(q.items[i].aggs[j]) ==> |rows| == 1
    {
      var aggs := q.items[i].aggs;
      var values := Map(AggIn(Fragile(), scope, rows), aggs);
      forall j | 0 <= j < |aggs| ensures values[j] == Some(if Sensitive(aggs[j]) then |rows| else 1) {
        CleanAggregate(aggs[j], scope, rows);
      }
      assert row[i] == Some(1) <==> Ones(values);
    }
  }

  lemma CleanProjection(q: Query, scope: Scope, rows: seq<Joined>)
    requires CleanScope(scope) && AllClean(rows) && rows != []
    ensures |Projected(q, Fragile(), scope, rows)| == if Grouped(q) then 1 else |rows|
    ensures (HasSensitive(q) ==> |rows| == 1) ==> AllOnes(Projected(q, Fragile(), scope, rows))
    ensures HasSensitive(q) && |rows| > 1 ==> NoOnes(Projected(q, Fragile(), scope, rows))
  {
    if Grouped(q) {
      CleanGroups(q, scope, rows);
    } else {
      CleanPlainRows(q, scope, rows);
      NoAggregates(q);
    }
  }

  lemma CleanGroups(q: Query, scope: Scope, rows: seq<Joined>)
    requires CleanScope(scope) && AllClean(rows) && rows != [] && Grouped(q)
    ensures |Projected(q, Fragile(), scope, rows)| == 1
    ensures (HasSensitive(q) ==> |rows| == 1) ==> AllOnes(Projected(q, Fragile(), scope, rows))
    ensures HasSensitive(q) && |rows| > 1 ==> NoOnes(Projected(q, Fragile(), scope, rows))
  {
    OneGroup(q, scope, rows);
    CleanGroupRow(q, scope, rows);
    OneRow(GroupRow(q, Fragile(), scope, rows)(OnesKey(q.keys)));
  }

  lemma OneGroup(q: Query, scope: Scope, rows: seq<Joined>)
    requires CleanScope(scope) && AllClean(rows) && rows != [] && Grouped(q)
    ensures Projected(q, Fragile(), scope, rows) == [GroupRow(q, Fragile(), scope, rows)(OnesKey(q.keys))]
  {
    CleanGroup(q.keys, scope, rows);
    SingletonListing(GroupKeys(q.keys, Fragile(), scope, rows), OnesKey(q.keys));
    var out := Map(GroupRow(q, Fragile(), scope, rows), [OnesKey(q.keys)]);
    assert |out| == 1 && out[0] == GroupRow(q, Fragile(), scope, rows)(OnesKey(q.keys));
  }

  lemma OneRow(r: Row)
    ensures AllOnes([r]) <==> Ones(r)
    ensures NoOnes([r]) <==> !Ones(r)
  {
    assert r in [r];
  }

  lemma NoAggregates(q: Query)
    requires !Grouped(q)
    ensures !HasSensitive(q)
  {
  }

  lemma CleanPlainRows(q: Query, scope: Scope, rows: seq<Joined>)
    requires CleanScope(scope) && AllClean(rows) && !Grouped(q)
    ensures AllOnes(Map(PlainRow(q, Fragile(), scope), rows))
  {
    forall r | r in Map(PlainRow(q, Fragile(), scope), rows) ensures Ones(r) {
      var i :| 0 <= i < |rows| && Map(PlainRow(q, Fragile(), scope), rows)[i] == r;
      assert rows[i] in rows;
      CleanPush(scope, rows[i]);
      forall j | 0 <= j < |q.items| ensures r[j] == Some(1) { FragileSees(q.items[j].node, scope + [rows[i]]); }
    }
  }

  lemma UncleanProjection(q: Query, scope: Scope, rows: seq<Joined>)
    requires CleanScope(scope) && NoneClean(rows) && ExplicitQuery(q)
    ensures NoOnes(Projected(q, Fragile(), scope, rows))
  {
    if Grouped(q) { UncleanGroups(q, scope, rows); } else { UncleanPlainRows(q, scope, rows); }
  }

  lemma UncleanGroups(q: Query, scope: Scope, rows: seq<Joined>)
    requires CleanScope(scope) && NoneClean(rows) && ExplicitQuery(q) && Grouped(q)
    ensures NoOnes(Projected(q, Fragile(), scope, rows))
  {
    var keys := Listing(GroupKeys(q.keys, Fragile(), scope, rows));
    forall r | r in Map(GroupRow(q, Fragile(), scope, rows), keys) ensures !Ones(r) {
      var key := MappedFrom(GroupRow(q, Fragile(), scope, rows), keys, r);
      assert key in ToSet(keys);
      UncleanGroupRow(q, scope, rows, key);
    }
  }

  lemma MappedFrom<A, B>(f: A -> B, xs: seq<A>, y: B) returns (x: A)
    requires y in Map(f, xs)
    ensures x in xs && f(x) == y
  {
    var i :| 0 <= i < |xs| && Map(f, xs)[i] == y;
    x := xs[i];
  }

  lemma UncleanPlainRows(q: Query, scope: Scope, rows: seq<Joined>)
    requires CleanScope(scope) && NoneClean(rows) && q.items != []
    ensures NoOnes(Map(PlainRow(q, Fragile(), scope), rows))
  {
    var out := Map(PlainRow(q, Fragile(), scope), rows);
    forall r | r in out ensures !Ones(r) {
      var i :| 0 <= i < |rows| && out[i] == r;
      assert rows[i] in rows;
      CleanPush(scope, rows[i]);
      FragileSees(q.items[0].node, scope + [rows[i]]);
      assert r[0] == None;
    }
  }

  lemma UncleanGroupRow(q: Query, scope: Scope, rows: seq<Joined>, key: Row)
    requires CleanScope(scope) && NoneClean(rows) && ExplicitQuery(q) && Grouped(q)
    requires key in GroupKeys(q.keys, Fragile(), scope, rows)
    ensures !Ones(GroupRow(q, Fragile(), scope, rows)(key))
  {
    var row := GroupRow(q, Fragile(), scope, rows)(key);
    if q.keys != [] {
      UncleanKey(q.keys, scope, rows, key);
      var z: Joined := [Some(key)];
      assert z[0] == Some(key) && !Clean(z);
      CleanPush(scope, z);
      assert row[0] == None;
    } else {
      var i :| 0 <= i < |q.items| && q.items[i].aggs != [];
      var group := GroupRows(q.keys, Fragile(), scope, rows, key);
      FilterMembers(HasKey(q.keys, Fragile(), scope, key), rows);
      UncleanAggregate(q.items[i].aggs[0], scope, group);
      assert Map(AggIn(Fragile(), scope, group), q.items[i].aggs)[0] != Some(1);
      assert row[i] == None;
    }
  }

  lemma UncleanKey(keys: seq<Node>, scope: Scope, rows: seq<Joined>, key: Row)
    requires CleanScope(scope) && NoneClean(rows) && keys != [] && key in GroupKeys(keys, Fragile(), scope, rows)
    ensures !Ones(key)
  {
    var found := Map(KeyOf(keys, Fragile(), scope), rows);
    var i :| 0 <= i < |found| && found[i] == key;
    assert rows[i] in rows;
    KeyOfClean(keys, scope, rows[i]);
  }

  // One row in every table: every query returns one row of ones

  lemma {:induction false} OnceResult(q: Query, scope: Scope)
    requires CleanScope(scope)
    ensures |Result(q, Fragile(), Once(), scope)| == 1 && AllOnes(Result(q, Fragile(), Once(), scope))
    decreases q, 1
  {
    OnceKept(q, scope);
    var rows := Kept(q, Fragile(), Once(), scope);
    CleanProjection(q, scope, rows);
    DistinctOnes(Projected(q, Fragile(), scope, rows));
  }

  lemma DistinctOnes(rows: seq<Row>)
    ensures AllOnes(rows) ==> AllOnes(Listing(ToSet(rows)))
    ensures NoOnes(rows) ==> NoOnes(Listing(ToSet(rows)))
    ensures |rows| == 1 ==> Listing(ToSet(rows)) == rows
  {
    forall r ensures r in Listing(ToSet(rows)) <==> r in rows {
      assert r in ToSet(Listing(ToSet(rows))) <==> r in ToSet(rows);
    }
    if |rows| == 1 {
      assert rows == [rows[0]];
      SingletonListing(ToSet(rows), rows[0]);
    }
  }

  lemma {:induction false} OnceKept(q: Query, scope: Scope)
    requires CleanScope(scope)
    ensures |Kept(q, Fragile(), Once(), scope)| == 1 && AllClean(Kept(q, Fragile(), Once(), scope))
    decreases q, 0
  {
    OnceSources(q.from, scope);
    var rows := Sources(q.from, Fragile(), Once(), scope);
    forall z | z in rows ensures Test(q.filter, Fragile(), Once(), scope)(z) { OnceTest(q.filter, scope, z); }
    FilterAll(Test(q.filter, Fragile(), Once(), scope), rows);
  }

  lemma {:induction false} OnceTest(c: Option<Cond>, scope: Scope, z: Joined)
    requires CleanScope(scope) && Clean(z)
    ensures Test(c, Fragile(), Once(), scope)(z)
    decreases c
  {
    CleanPush(scope, z);
    if c.Some? { OnceSubResults(c.value.subs, scope + [z]); }
  }

  lemma {:induction false} OnceSubResults(subs: seq<Query>, scope: Scope)
    requires CleanScope(scope)
    ensures AllOnesSets(SubResults(subs, Fragile(), Once(), scope))
    decreases subs
  {
    if subs != [] {
      OnceResult(subs[0], scope);
      OnesAsSet(Result(subs[0], Fragile(), Once(), scope));
      OnceSubResults(subs[1..], scope);
      OnesSetsCons(ToSet(Result(subs[0], Fragile(), Once(), scope)),
                   SubResults(subs[1..], Fragile(), Once(), scope));
    }
  }

  lemma OnesSetsCons(set0: set<Row>, sets: seq<set<Row>>)
    ensures AllOnesSets([set0] + sets) <==> OnesSet(set0) && AllOnesSets(sets)
  {
    var all := [set0] + sets;
    if AllOnesSets(all) {
      assert all[0] == set0;
      forall i | 0 <= i < |sets| ensures OnesSet(sets[i]) { assert all[i + 1] == sets[i]; }
    }
  }

  lemma OnesAsSet(rows: seq<Row>)
    ensures AllOnes(rows) && rows != [] ==> OnesSet(ToSet(rows))
    ensures NoOnes(rows) ==> !OnesSet(ToSet(rows))
  {
    EmptyBySet(rows);
    forall r ensures r in ToSet(rows) <==> r in rows {
    }
  }

  lemma {:induction false} OnceSources(f: From, scope: Scope)
    requires CleanScope(scope)
    ensures |Sources(f, Fragile(), Once(), scope)| == 1 && AllClean(Sources(f, Fragile(), Once(), scope))
    decreases f
  {
    match f {
      case Base(t) =>
        OnesAlone(Once()(t));
      case Derived(q) =>
        OnceResult(q, scope);
        OnesAlone(Result(q, Fragile(), Once(), scope));
      case Joining(l, r, on, outer) =>
        OnceSources(l, scope);
        OnceSources(r, scope);
        forall z | Clean(z) ensures Test(on, Fragile(), Once(), scope)(z) { OnceTest(on, scope, z); }
        CleanJoin(Test(on, Fragile(), Once(), scope), Sources(l, Fragile(), Once(), scope),
                  Sources(r, Fragile(), Once(), scope), Missing(r, outer));
    }
  }

  lemma OnesAlone(rows: seq<Row>)
    ensures AllOnes(rows) ==> AllClean(Map(Alone(), rows))
    ensures NoOnes(rows) ==> NoneClean(Map(Alone(), rows))
  {
    var out := Map(Alone(), rows);
    forall z | z in out ensures exists r :: r in rows && z == [Some(r)] {
      var i :| 0 <= i < |out| && out[i] == z;
      assert rows[i] in rows && z == [Some(rows[i])];
    }
    forall r: Row ensures Clean([Some(r)]) <==> Ones(r) {
      var z: Joined := [Some(r)];
      assert z[0].value == r;
    }
  }

  /** Clean rows under a condition that holds of clean rows join in every combination. */
  lemma CleanJoin(test: Joined -> bool, left: seq<Joined>, right: seq<Joined>, missing: seq<Joined>)
    requires (forall z :: Clean(z) ==> test(z)) && AllClean(left) && AllClean(right) && right != []
    ensures AllClean(FlatMap(Pairs(test, right, missing), left))
    ensures |left| <= |FlatMap(Pairs(test, right, missing), left)|
    ensures left != [] ==> |right| <= |FlatMap(Pairs(test, right, missing), left)|
    ensures |left| == |right| == 1 ==> |FlatMap(Pairs(test, right, missing), left)| == 1
  {
    var f := Pairs(test, right, missing);
    forall x | x in left ensures AllClean(f(x)) && |f(x)| == |right| { CleanPairs(test, x, right, missing); }
    forall w | w in FlatMap(f, left) ensures Clean(w) {
      FlatMapMember(f, left, w);
      var i :| 0 <= i < |left| && w in f(left[i]);
      assert left[i] in left;
    }
    FlatMapSize(f, left, |right|);
  }

  lemma {:induction false} FlatMapSize<A, B>(f: A -> seq<B>, xs: seq<A>, n: nat)
    requires n > 0 && forall x :: x in xs ==> |f(x)| == n
    ensures |xs| <= |FlatMap(f, xs)|
    ensures xs != [] ==> n <= |FlatMap(f, xs)|
    ensures |xs| == n == 1 ==> |FlatMap(f, xs)| == 1
  {
    if xs != [] { FlatMapSize(f, xs[..|xs| - 1], n); }
  }

  lemma CleanPairs(test: Joined -> bool, x: Joined, right: seq<Joined>, missing: seq<Joined>)
    requires (forall z :: Clean(z) ==> test(z)) && Clean(x) && AllClean(right) && right != []
    ensures PairsOf(test, x, right, missing) == Map(Beside(x), right) && AllClean(Map(Beside(x), right))
  {
    CleanBeside(x, right);
    FilterAll(test, Map(Beside(x), right));
    assert |Map(Beside(x), right)| == |right|;
  }

  lemma CleanBeside(x: Joined, right: seq<Joined>)
    requires Clean(x) && AllClean(right)
    ensures AllClean(Map(Beside(x), right))
  {
    var all := Map(Beside(x), right);
    forall z | z in all ensures Clean(z) {
      var i :| 0 <= i < |all| && all[i] == z;
      assert right[i] in right;
      CleanConcat(x, right[i]);
    }
  }

  lemma CleanConcat(x: Joined, y: Joined)
    ensures Clean(x + y) <==> Clean(x) && Clean(y)
  {
    if Clean(x + y) {
      forall i | 0 <= i < |x| ensures x[i].Some? && Ones(x[i].value) { assert (x + y)[i] == x[i]; }
      forall i | 0 <= i < |y| ensures y[i].Some? && Ones(y[i].value) { assert (x + y)[|x| + i] == y[i]; }
    }
  }

  // Every row twice: an unsettled query returns no row of ones

  lemma {:induction false} TwiceResult(q: Query, scope: Scope)
    requires CleanScope(scope) && ExplicitQuery(q)
    ensures SettledQuery(q) && !ReducedQuery(q) ==> |Result(q, Fragile(), Twice(), scope)| > 1
    ensures !SettledQuery(q) ==> NoOnes(Result(q, Fragile(), Twice(), scope))
    decreases q, 1
  {
    TwiceKept(q, scope);
    var rows := Kept(q, Fragile(), Twice(), scope);
    if Settled(q.from) && SettledTest(q.filter) {
      SettledKept(q, scope);
      CleanProjection(q, scope, rows);
    } else {
      UncleanProjection(q, scope, rows);
    }
    DistinctOnes(Projected(q, Fragile(), scope, rows));
  }

  /** Settled rows are clean: they are those of the tables without repeats. */
  lemma SettledKept(q: Query, scope: Scope)
    requires CleanScope(scope) && Settled(q.from) && SettledTest(q.filter)
    ensures AllClean(Kept(q, Fragile(), Twice(), scope)) && Kept(q, Fragile(), Twice(), scope) != []
    ensures Reduced(q.from) ==> |Kept(q, Fragile(), Twice(), scope)| == 1
  {
    OnceAndTwice();
    OnceKept(q, scope);
    SameKept(q, Fragile(), Once(), Twice(), scope);
    SameClean(Kept(q, Fragile(), Once(), scope), Kept(q, Fragile(), Twice(), scope));
  }

  lemma SettledSources(f: From, scope: Scope)
    requires CleanScope(scope) && Settled(f)
    ensures AllClean(Sources(f, Fragile(), Twice(), scope)) && Sources(f, Fragile(), Twice(), scope) != []
  {
    OnceAndTwice();
    OnceSources(f, scope);
    SameSources(f, Fragile(), Once(), Twice(), scope);
    SameClean(Sources(f, Fragile(), Once(), scope), Sources(f, Fragile(), Twice(), scope));
  }

  lemma SameClean(xs: seq<Joined>, ys: seq<Joined>)
    requires ToSet(xs) == ToSet(ys) && AllClean(xs) && xs != []
    ensures AllClean(ys) && ys != []
  {
    assert xs[0] in ToSet(xs);
    forall z | z in ys ensures Clean(z) { assert z in ToSet(ys); }
  }

  lemma {:induction false} TwiceKept(q: Query, scope: Scope)
    requires CleanScope(scope) && Explicit(q.from) && ExplicitTest(q.filter)
    ensures Settled(q.from) && SettledTest(q.filter) && !Reduced(q.from) ==>
              |Kept(q, Fragile(), Twice(), scope)| > 1
    ensures !(Settled(q.from) && SettledTest(q.filter)) ==> NoneClean(Kept(q, Fragile(), Twice(), scope))
    decreases q, 0
  {
    TwiceSources(q.from, scope);
    var rows, test := Sources(q.from, Fragile(), Twice(), scope), Test(q.filter, Fragile(), Twice(), scope);
    forall z | Clean(z) ensures test(z) <==> SettledTest(q.filter) { TwiceTest(q.filter, scope, z); }
    if Settled(q.from) && SettledTest(q.filter) {
      SettledSources(q.from, scope);
      FilterAll(test, rows);
    } else {
      UncleanFilter(test, rows);
    }
  }

  lemma UncleanFilter(test: Joined -> bool, rows: seq<Joined>)
    requires NoneClean(rows) || forall z :: Clean(z) ==> !test(z)
    ensures NoneClean(Filter(test, rows))
  {
    forall z | z in Filter(test, rows) ensures !Clean(z) { FilterMember(test, rows, z); }
  }

  lemma {:induction false} TwiceTest(c: Option<Cond>, scope: Scope, z: Joined)
    requires CleanScope(scope) && Clean(z) && ExplicitTest(c)
    ensures Test(c, Fragile(), Twice(), scope)(z) <==> SettledTest(c)
    decreases c
  {
    CleanPush(scope, z);
    if c.Some? { TwiceSubResults(c.value.subs, scope + [z]); }
  }

  lemma {:induction false} TwiceSubResults(subs: seq<Query>, scope: Scope)
    requires CleanScope(scope) && ExplicitAll(subs)
    ensures SettledAll(subs) <==> AllOnesSets(SubResults(subs, Fragile(), Twice(), scope))
    decreases subs
  {
    if subs != [] {
      TwiceSubResults(subs[1..], scope);
      TwiceSet(subs[0], scope);
      OnesSetsCons(ToSet(Result(subs[0], Fragile(), Twice(), scope)),
                   SubResults(subs[1..], Fragile(), Twice(), scope));
    }
  }

  lemma {:induction false} TwiceSet(q: Query, scope: Scope)
    requires CleanScope(scope) && ExplicitQuery(q)
    ensures SettledQuery(q) <==> OnesSet(ToSet(Result(q, Fragile(), Twice(), scope)))
    decreases q, 2
  {
    TwiceResult(q, scope);
    OnceAndTwice();
    OnceResult(q, scope);
    OnesAsSet(Result(q, Fragile(), Once(), scope));
    OnesAsSet(Result(q, Fragile(), Twice(), scope));
    if SettledQuery(q) { SameResult(q, Fragile(), Once(), Twice(), scope); }
  }

  lemma {:induction false} TwiceSources(f: From, scope: Scope)
    requires CleanScope(scope) && Explicit(f)
    ensures Settled(f) && !Reduced(f) ==> |Sources(f, Fragile(), Twice(), scope)| > 1
    ensures !Settled(f) ==> NoneClean(Sources(f, Fragile(), Twice(), scope))
    decreases f
  {
    match f {
      case Base(_) =>
      case Derived(q) =>
        TwiceResult(q, scope);
        OnesAlone(Result(q, Fragile(), Twice(), scope));
      case Joining(l, r, on, outer) =>
        TwiceSources(l, scope);
        TwiceSources(r, scope);
        forall z | Clean(z) ensures Test(on, Fragile(), Twice(), scope)(z) <==> SettledTest(on) {
          TwiceTest(on, scope, z);
        }
        if Settled(f) {
          SettledSources(l, scope);
          SettledSources(r, scope);
          CleanJoin(Test(on, Fragile(), Twice(), scope), Sources(l, Fragile(), Twice(), scope),
                    Sources(r, Fragile(), Twice(), scope), Missing(r, outer));
        } else {
          UncleanMissing(r, outer);
          UncleanJoin(Test(on, Fragile(), Twice(), scope), Sources(l, Fragile(), Twice(), scope),
                      Sources(r, Fragile(), Twice(), scope), Missing(r, outer));
        }
    }
  }

  lemma UncleanMissing(f: From, outer: bool)
    ensures NoneClean(Missing(f, outer))
  {
    var nulls: Joined := seq(Width(f), _ => None);
    assert nulls[0] == None;
  }

  /** No clean row joins from unclean sides, from a condition that fails on clean rows, or from a missing side. */
  lemma UncleanJoin(test: Joined -> bool, left: seq<Joined>, right: seq<Joined>, missing: seq<Joined>)
    requires NoneClean(left) || NoneClean(right) || forall z :: Clean(z) ==> !test(z)
    requires NoneClean(missing)
    ensures NoneClean(FlatMap(Pairs(test, right, missing), left))
  {
    var f := Pairs(test, right, missing);
    forall w | w in FlatMap(f, left) ensures !Clean(w) {
      FlatMapMember(f, left, w);
      var i :| 0 <= i < |left| && w in f(left[i]);
      assert left[i] in left;
      UncleanPairs(test, left[i], right, missing, w);
    }
  }

  lemma UncleanPairs(test: Joined -> bool, x: Joined, right: seq<Joined>, missing: seq<Joined>, w: Joined)
    requires !Clean(x) || NoneClean(right) || forall z :: Clean(z) ==> !test(z)
    requires NoneClean(missing) && w in PairsOf(test, x, right, missing)
    ensures !Clean(w)
  {
    if Hits(test, x, right) != [] {
      FilterMember(test, Map(Beside(x), right), w);
      BesideMember(x, right, w);
    } else {
      BesideMember(x, missing, w);
    }
  }

  lemma BesideMember(x: Joined, ys: seq<Joined>, w: Joined)
    requires w in Map(Beside(x), ys)
    ensures exists y :: y in ys && w == x + y
    ensures Clean(w) ==> Clean(x) && !NoneClean(ys)
  {
    var j :| 0 <= j < |ys| && Map(Beside(x), ys)[j] == w;
    assert ys[j] in ys && w == x + ys[j];
    CleanConcat(x, ys[j]);
  }

  // ------------------------------------------------------------------
  // Which aggregates repeats can change
  // ------------------------------------------------------------------

  /** The value of an aggregate of a query in one of its groups. */
  ghost function GroupValue(q: Query, a: Agg, m: Meaning, db: Contents, scope: Scope, key: Row): Option<int> {
    AggValue(a, m, scope, GroupRows(q.keys, m, scope, Kept(q, m, db, scope), key))
  }

  /** However its expressions are read and whatever the tables hold, repeating rows does not change the aggregate. */
  ghost predicate IgnoresRepeats(q: Query, a: Agg) {
    forall m, x, y, scope, key :: SameRows(x, y) ==>
      GroupValue(q, a, m, x, scope, key) == GroupValue(q, a, m, y, scope, key)
  }

  lemma SettledIgnoresRepeats(q: Query, a: Agg)
    requires Settled(q.from) && SettledTest(q.filter) && (Sensitive(a) ==> Reduced(q.from))
    ensures IgnoresRepeats(q, a)
  {
    forall m, x, y, scope, key | SameRows(x, y)
      ensures GroupValue(q, a, m, x, scope, key) == GroupValue(q, a, m, y, scope, key)
    {
      SameKept(q, m, x, y, scope);
      var p := HasKey(q.keys, m, scope, key);
      FilterKeepsSet(p, p, Kept(q, m, x, scope), Kept(q, m, y, scope));
      SameAggregate(a, m, scope, GroupRows(q.keys, m, scope, Kept(q, m, x, scope), key),
                    GroupRows(q.keys, m, scope, Kept(q, m, y, scope), key));
    }
  }

  /** In the fragile world the aggregate is 1 over single rows, and not over repeated ones. */
  lemma RepeatsShow(q: Query, a: Agg)
    requires Explicit(q.from) && ExplicitTest(q.filter)
    requires a.arg.Some? || (Settled(q.from) && SettledTest(q.filter))
    requires !(Settled(q.from) && SettledTest(q.filter) && (Sensitive(a) ==> Reduced(q.from)))
    ensures GroupValue(q, a, Fragile(), Once(), [], OnesKey(q.keys)) == Some(1)
    ensures GroupValue(q, a, Fragile(), Twice(), [], OnesKey(q.keys)) != Some(1)
  {
    OnceKept(q, []);
    var single := Kept(q, Fragile(), Once(), []);
    CleanGroup(q.keys, [], single);
    CleanAggregate(a, [], single);
    TwiceKept(q, []);
    var rows := Kept(q, Fragile(), Twice(), []);
    if Settled(q.from) && SettledTest(q.filter) {
      SettledKept(q, []);
      CleanGroup(q.keys, [], rows);
      CleanAggregate(a, [], rows);
    } else {
      FilterMembers(HasKey(q.keys, Fragile(), [], OnesKey(q.keys)), rows);
      UncleanAggregate(a, [], GroupRows(q.keys, Fragile(), [], rows, OnesKey(q.keys)));
    }
  }

  /**
   * An aggregate ignores repeated rows exactly when every multiplicity-sensitive aggregate below its
   * FROM and WHERE, and the aggregate itself if it is one, is fed rows that cannot repeat.
   */
  lemma IgnoresRepeatsIff(q: Query, a: Agg)
    requires Explicit(q.from) && ExplicitTest(q.filter)
    requires a.arg.Some? || (Settled(q.from) && SettledTest(q.filter))
    ensures IgnoresRepeats(q, a) <==>
            Settled(q.from) && SettledTest(q.filter) && (Sensitive(a) ==> Reduced(q.from))
  {
    if Settled(q.from) && SettledTest(q.filter) && (Sensitive(a) ==> Reduced(q.from)) {
      SettledIgnoresRepeats(q, a);
    } else {
      RepeatsShow(q, a);
      OnceAndTwice();
    }
  }
}
