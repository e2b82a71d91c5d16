/**
 * An accepted COUNT(DISTINCT ..) on a grain view that a repeated row changes:
 *   SELECT COUNT(DISTINCT x.total) FROM v_customer_opco_monthly v
 *   JOIN (SELECT customer_key, SUM(total_revenue) AS total FROM v_customer_opco_monthly GROUP BY customer_key) x
 *     ON v.customer_key = x.customer_key
 */
module GrainEscape {
  import opened Wrappers
  import opened Seqs
  import opened SqlAst
  import opened QueryShape
  import opened CustomerGrain
  import opened IdentityRule
  import opened Repeats

  const VIEW := "v_customer_opco_monthly"
  const KEY := Node(Column("", "customer_key"), [])
  const REVENUE := Node(Column("", "total_revenue"), [])
  const TOTAL := Node(Alias("total"), [Node(Aggregate("sum"), [REVENUE])])
  const VIEW_FROM := Node(Other("from"), [Node(Table(VIEW), [])])
  const TOTALS := Node(Select(2), [KEY, TOTAL, VIEW_FROM, Node(Group, [KEY])])
  const SAME_CUSTOMER :=
    Node(Predicate(Eq), [Node(Column("v", "customer_key"), []), Node(Column("x", "customer_key"), [])])
  const COUNTED := Node(Distinct, [Node(Column("x", "total"), [])])
  const COUNT_TOTALS := Node(Count(false), [COUNTED])
  const TOTALS_JOIN := Node(Join(""), [Node(Other("subquery"), [TOTALS]), SAME_CUSTOMER])
  const DISTINCT_TOTALS := Node(Select(1), [COUNT_TOTALS, VIEW_FROM, TOTALS_JOIN])

  // As a query

  const SUM_REVENUE := Agg(SumOf, false, Some(REVENUE))
  const COUNT_DISTINCT := Agg(CountOf, true, Some(COUNTED))
  const TOTALS_QUERY := Query(Base(VIEW), None, [KEY], [Item(KEY, []), Item(TOTAL, [SUM_REVENUE])], false)
  const JOINED := Joining(Base(VIEW), Derived(TOTALS_QUERY), Some(Cond(SAME_CUSTOMER, [])), false)
  const COUNTING := Query(JOINED, None, [], [], false)

  lemma ColumnIsScalar(n: Node, env: Bindings)
    requires n.kind.Column? && n.kids == []
    ensures Scalar(n) && AggsOf(n) == Some([]) && SubsOf(n, env) == Some([]) && Tableless(n)
  {
  }

  lemma TotalsRead(env: Bindings)
    requires VIEW !in env
    ensures ShapeOf(TOTALS, env) == Some(TOTALS_QUERY)
  {
    var kids := TOTALS.kids;
    ColumnIsScalar(KEY, map[]);
    ColumnIsScalar(REVENUE, map[]);
    assert TablesEnd(TOTALS) == 3 && FilterEnd(TOTALS) == 3 && KeysEnd(TOTALS) == 4;
    assert kids[2..3] == [VIEW_FROM] && FromOf([VIEW_FROM], env) == Some(Base(VIEW));
    assert KeysOf(TOTALS) == [KEY] && [KEY][1..] == [];
    assert kids[..2] == [KEY, TOTAL] && kids[4..] == [];
    SumIsAgg();
    ScopeWithoutWith(kids, env);
    assert CoreOf(TOTALS, env) == Some(Query(Base(VIEW), None, [KEY], [], false));
    assert [KEY, TOTAL][1..] == [TOTAL] && [TOTAL][1..] == [];
    var none: seq<Item> := [];
    assert [Item(TOTAL, [SUM_REVENUE])] + none == [Item(TOTAL, [SUM_REVENUE])];
    assert [Item(KEY, [])] + [Item(TOTAL, [SUM_REVENUE])] == [Item(KEY, []), Item(TOTAL, [SUM_REVENUE])];
    assert ItemsOf([TOTAL]) == Some([Item(TOTAL, [SUM_REVENUE])]);
    assert ItemsOf([KEY, TOTAL]) == Some([Item(KEY, []), Item(TOTAL, [SUM_REVENUE])]);
  }

  lemma SumIsAgg()
    ensures AggsOf(TOTAL) == Some([SUM_REVENUE]) && TablelessAll([KEY, TOTAL])
  {
    var sum := Node(Aggregate("sum"), [REVENUE]);
    ColumnIsScalar(KEY, map[]);
    ColumnIsScalar(REVENUE, map[]);
    assert [REVENUE][1..] == [] && ScalarAll([REVENUE]) && TablelessAll([REVENUE]);
    assert AggsOf(sum) == Some([SUM_REVENUE]);
    var none: seq<Agg> := [];
    assert [SUM_REVENUE] + none == [SUM_REVENUE];
    assert [sum][1..] == [] && AggsOfAll([sum]) == Some([SUM_REVENUE]) && TablelessAll([sum]);
    assert [KEY, TOTAL][1..] == [TOTAL] && [TOTAL][1..] == [] && TablelessAll([TOTAL]);
  }

  lemma CountRead()
    ensures CoreAt(DISTINCT_TOTALS, []) == Some(COUNTING) && AggOf(COUNT_TOTALS) == Some(COUNT_DISTINCT)
  {
    var kids := DISTINCT_TOTALS.kids;
    FromRead(map[]);
    CountedRead();
    ScopeWithoutWith(kids, map[]);
    assert TablesEnd(DISTINCT_TOTALS) == FilterEnd(DISTINCT_TOTALS) == KeysEnd(DISTINCT_TOTALS) == 3;
    assert kids[1..3] == [VIEW_FROM, TOTALS_JOIN] && kids[..1] == [COUNT_TOTALS] && kids[3..] == [];
  }

  lemma FromRead(env: Bindings)
    requires VIEW !in env
    ensures FromOf([VIEW_FROM, TOTALS_JOIN], env) == Some(JOINED)
  {
    var clauses := [VIEW_FROM, TOTALS_JOIN];
    TotalsRead(env);
    ConditionRead(env);
    assert clauses[..1] == [VIEW_FROM] && FromOf([VIEW_FROM], env) == Some(Base(VIEW));
    assert TOTALS_JOIN.kids[1..] == [SAME_CUSTOMER];
    assert SourceOf(TOTALS_JOIN.kids[0], env) == Some(Derived(TOTALS_QUERY));
  }

  lemma ConditionRead(env: Bindings)
    ensures FilterOf([SAME_CUSTOMER], env) == Some(Some(Cond(SAME_CUSTOMER, [])))
  {
    var left, right := SAME_CUSTOMER.kids[0], SAME_CUSTOMER.kids[1];
    ColumnIsScalar(left, env);
    ColumnIsScalar(right, env);
    assert [left, right][1..] == [right] && [right][1..] == [];
    var none: seq<Query> := [];
    assert none + none == none;
    assert SubsOfAll([right], env) == Some(none);
    assert SubsOfAll([left, right], env) == Some(none);
    assert SubsOf(SAME_CUSTOMER, env) == Some(none);
  }

  lemma CountedRead()
    ensures AggOf(COUNT_TOTALS) == Some(COUNT_DISTINCT) && TablelessAll([COUNT_TOTALS])
  {
    var total := COUNTED.kids[0];
    ColumnIsScalar(total, map[]);
    assert [total][1..] == [] && ScalarAll([total]) && TablelessAll([total]);
    assert [COUNTED][1..] == [] && Scalar(COUNTED) && ScalarAll([COUNTED]) && TablelessAll([COUNTED]);
    assert [COUNT_TOTALS][1..] == [];
  }

  // As the rule sees it

  /** What stands below a SELECT with none between belongs to it. */
  lemma BelongsBelow(t: Node, s: Path, q: Path)
    requires Valid(t, s) && At(t, s).kind.Select? && Valid(At(t, s), q) && q != []
    requires forall i :: 0 < i < |q| && Valid(At(t, s), q[..i]) ==> !At(At(t, s), q[..i]).kind.Select?
    ensures BelongsTo(t, s + q, s) && At(t, s + q) == At(At(t, s), q)
  {
    var p := s + q;
    AtAppend(t, s, q);
    assert p[..|s|] == s;
    forall j | |s| < j < |p| && Valid(t, p[..j]) ensures !At(t, p[..j]).kind.Select? {
      var i := j - |s|;
      assert p[..j] == s + q[..i];
      AtAppend(t, s, q[..i]);
    }
  }

  predicate Countless(n: Node) { !n.kind.Count? && forall i :: 0 <= i < |n.kids| ==> Countless(n.kids[i]) }

  /** Every COUNT in it is the one of the totals. */
  predicate OneCount(n: Node) {
    n == COUNT_TOTALS || (!n.kind.Count? && forall i :: 0 <= i < |n.kids| ==> OneCount(n.kids[i]))
  }

  lemma {:induction false} NothingCounted(n: Node, p: Path)
    requires Countless(n) && Valid(n, p)
    ensures !At(n, p).kind.Count?
  {
    if p != [] { NothingCounted(n.kids[p[0]], p[1..]); }
  }

  lemma {:induction false} OnlyCount(n: Node, p: Path)
    requires Valid(n, p) && At(n, p).kind.Count? && OneCount(n)
    ensures At(n, p) == COUNT_TOTALS
  {
    if p != [] {
      if n == COUNT_TOTALS {
        assert Countless(COUNTED.kids[0]) && Countless(COUNTED);
        NothingCounted(COUNTED, p[1..]);
      } else {
        OnlyCount(n.kids[p[0]], p[1..]);
      }
    }
  }

  lemma OneCountAccepted(t: Node)
    requires OneCount(t)
    ensures GrainAccepts(t)
  {
    forall s, c | GrainCount(t, s, c) ensures DistinctCount(At(t, c)) { OnlyCount(t, c); }
  }

  lemma PartsCounted()
    ensures OneCount(TOTALS) && OneCount(VIEW_FROM) && OneCount(SAME_CUSTOMER) && OneCount(COUNT_TOTALS)
  {
    assert OneCount(REVENUE) && OneCount(KEY) && OneCount(VIEW_FROM.kids[0]);
    assert OneCount(TOTAL.kids[0]) && OneCount(TOTAL) && OneCount(Node(Group, [KEY]));
    assert OneCount(SAME_CUSTOMER.kids[0]) && OneCount(SAME_CUSTOMER.kids[1]);
  }

  lemma GrainRuleAccepts()
    ensures GrainAccepts(DISTINCT_TOTALS) && GrainCount(DISTINCT_TOTALS, [], [0])
  {
    var t := DISTINCT_TOTALS;
    PartsCounted();
    assert OneCount(TOTALS_JOIN.kids[0]) && OneCount(TOTALS_JOIN);
    OneCountAccepted(t);
    var q: Path := [0];
    assert q[1..] == [] && t.kids[0] == COUNT_TOTALS && At(t, q) == At(t.kids[0], q[1..]);
    BelongsBelow(t, [], q);
    assert [] + q == q;
    ViewBelow(t, []);
  }

  /** The view stands in the FROM of a SELECT. */
  lemma ViewBelow(t: Node, s: Path)
    requires Valid(t, s) && At(t, s).kind.Select? && |At(t, s).kids| > 1 && At(t, s).kids[1] == VIEW_FROM
    ensures ReadsGrainView(t, s)
  {
    var q: Path := [1, 0];
    TwoDown(At(t, s), 1, 0);
    forall i | 0 < i < |q| && Valid(At(t, s), q[..i]) ensures At(At(t, s), q[..i]) == VIEW_FROM {
      assert q[..i] == [1] && [1][1..] == [];
    }
    BelongsBelow(t, s, q);
  }

  // What it counts

  /** Cell j of FROM item i in the innermost row. */
  function CellAt(scope: Scope, i: nat, j: nat): Option<int> {
    if scope == [] then None
    else
      var z := scope[|scope| - 1];
      if i < |z| && z[i].Some? && j < |z[i].value| then z[i].value[j] else None
  }

  /** What the expressions of the query mean; the view's rows are (customer_key, total_revenue). */
  ghost function Reading(): Meaning {
    (n: Node, scope: Scope, subs: seq<set<Row>>, aggs: seq<Option<int>>) =>
      if n == KEY then CellAt(scope, 0, 0)
      else if n == REVENUE then CellAt(scope, 0, 1)
      else if n == TOTAL then (if aggs == [] then None else aggs[0])
      else if n == SAME_CUSTOMER then Some(if CellAt(scope, 0, 0) == CellAt(scope, 1, 0) then 1 else 0)
      else if n == COUNTED then CellAt(scope, 1, 1)
      else None
  }

  const ANNE: Row := [Some(1), Some(1)]
  const BEN: Row := [Some(2), Some(2)]

  function Copies(n: nat): seq<Row> { seq(n, _ => ANNE) }

  /** Anne's row, of revenue 1, n times; Ben's, of revenue 2, once. */
  function Visits(n: nat): Contents { (t: string) => Copies(n) + [BEN] }

  lemma RepeatedVisits(m: nat, n: nat)
    requires m > 0 && n > 0
    ensures SameRows(Visits(m), Visits(n))
  {
    forall t ensures ToSet(Visits(m)(t)) == ToSet(Visits(n)(t)) {
      VisitsAre(m);
      VisitsAre(n);
    }
  }

  lemma VisitsAre(n: nat)
    requires n > 0
    ensures ToSet(Copies(n) + [BEN]) == {ANNE, BEN}
  {
    var rows := Copies(n) + [BEN];
    assert rows[0] == ANNE && rows[n] == BEN;
  }

  ghost function VisitRows(n: nat): seq<Joined> { Map(Alone(), Copies(n)) + [[Some(BEN)]] }

  lemma ViewRows(n: nat)
    ensures Sources(Base(VIEW), Reading(), Visits(n), []) == VisitRows(n)
    ensures Kept(TOTALS_QUERY, Reading(), Visits(n), []) == VisitRows(n)
  {
    MapAppend(Alone(), Copies(n), [BEN]);
    assert Map(Alone(), [BEN]) == [Alone()(BEN)];
    NoFilter(n, VisitRows(n));
  }

  lemma KeyOfRow(r: Row)
    requires |r| == 2
    ensures KeyOf([KEY], Reading(), [])([Some(r)]) == [r[0]]
    ensures ArgIn(REVENUE, Reading(), [])([Some(r)]) == match r[1] case Some(v) => [v] case None => []
  {
    var z: Joined := [Some(r)];
    var scope: Scope := [z];
    assert [] + [z] == scope;
    assert CellAt(scope, 0, 0) == r[0] && CellAt(scope, 0, 1) == r[1];
    assert KeyOf([KEY], Reading(), [])(z)[0] == r[0];
  }

  lemma {:induction false} AnnesRevenues(n: nat)
    ensures FlatMap(ArgIn(REVENUE, Reading(), []), Map(Alone(), Copies(n))) == seq(n, _ => 1)
  {
    if n > 0 {
      var rows := Map(Alone(), Copies(n));
      assert rows[..n - 1] == Map(Alone(), Copies(n - 1));
      AnnesRevenues(n - 1);
      KeyOfRow(ANNE);
    }
  }

  lemma AnnesKey(n: nat, z: Joined)
    requires z in Map(Alone(), Copies(n))
    ensures KeyOf([KEY], Reading(), [])(z) == [Some(1)]
  {
    var a := MappedFrom(Alone(), Copies(n), z);
    assert a == ANNE && z == [Some(ANNE)];
    KeyOfRow(ANNE);
  }

  /** Each customer's rows are a group. */
  lemma AnnesGroup(n: nat)
    ensures GroupRows([KEY], Reading(), [], VisitRows(n), [Some(1)]) == Map(Alone(), Copies(n))
  {
    var annes: seq<Joined>, bens: seq<Joined> := Map(Alone(), Copies(n)), [[Some(BEN)]];
    var one := HasKey([KEY], Reading(), [], [Some(1)]);
    KeyOfRow(BEN);
    forall z | z in annes ensures one(z) { AnnesKey(n, z); }
    FilterAppend(one, annes, bens);
    FilterAll(one, annes);
    FilterNone(one, bens);
  }

  lemma BensGroup(n: nat)
    ensures GroupRows([KEY], Reading(), [], VisitRows(n), [Some(2)]) == [[Some(BEN)]]
  {
    var annes: seq<Joined>, bens: seq<Joined> := Map(Alone(), Copies(n)), [[Some(BEN)]];
    var two := HasKey([KEY], Reading(), [], [Some(2)]);
    KeyOfRow(BEN);
    forall z | z in annes ensures !two(z) { AnnesKey(n, z); }
    FilterAppend(two, annes, bens);
    FilterNone(two, annes);
    FilterAll(two, bens);
  }

  lemma AnnesTotal(n: nat)
    requires n > 0
    ensures AggValue(SUM_REVENUE, Reading(), [], Map(Alone(), Copies(n))) == Some(n)
  {
    AnnesRevenues(n);
    SumOfOnes(n);
  }

  lemma BensTotal()
    ensures AggValue(SUM_REVENUE, Reading(), [], [[Some(BEN)]]) == Some(2)
  {
    var none: seq<Joined>, rows: seq<Joined> := [], [[Some(BEN)]];
    KeyOfRow(BEN);
    assert rows[..0] == none;
    assert FlatMap(ArgIn(REVENUE, Reading(), []), none) == [];
    assert FlatMap(ArgIn(REVENUE, Reading(), []), rows) == [2];
    assert [2][..0] == [] && Sum([2]) == 2;
  }

  lemma GroupTotal(n: nat, key: int, total: int)
    requires AggValue(SUM_REVENUE, Reading(), [],
                      GroupRows([KEY], Reading(), [], VisitRows(n), [Some(key)])) == Some(total)
    ensures GroupRow(TOTALS_QUERY, Reading(), [], VisitRows(n))([Some(key)]) == [Some(key), Some(total)]
  {
    var k: Row, rows := [Some(key)], GroupRows([KEY], Reading(), [], VisitRows(n), [Some(key)]);
    var scope: Scope := [[Some(k)]];
    assert [] + [[Some(k)]] == scope && CellAt(scope, 0, 0) == Some(key);
    var row := GroupRow(TOTALS_QUERY, Reading(), [], VisitRows(n))(k);
    assert row[0] == Some(key);
    assert Map(AggIn(Reading(), [], rows), [SUM_REVENUE])[0] == Some(total);
    assert row[1] == Some(total);
  }

  /** The derived table has one row per customer, with the customer's total. */
  lemma TotalRows(n: nat)
    requires n > 0
    ensures ToSet(Result(TOTALS_QUERY, Reading(), Visits(n), [])) == {[Some(1), Some(n)], [Some(2), Some(2)]}
  {
    ViewRows(n);
    var rows := VisitRows(n);
    KeysFound(n);
    AnnesGroup(n);
    AnnesTotal(n);
    GroupTotal(n, 1, n);
    BensGroup(n);
    BensTotal();
    GroupTotal(n, 2, 2);
    MapOfTwo(GroupRow(TOTALS_QUERY, Reading(), [], rows), Listing(GroupKeys([KEY], Reading(), [], rows)),
             [Some(1)], [Some(2)]);
  }

  lemma MapOfTwo<A, B>(f: A -> B, xs: seq<A>, a: A, b: A)
    requires ToSet(xs) == {a, b}
    ensures ToSet(Map(f, xs)) == {f(a), f(b)}
  {
    forall y | y in Map(f, xs) ensures y in {f(a), f(b)} {
      var x := MappedFrom(f, xs, y);
      assert x in ToSet(xs);
    }
    assert a in ToSet(xs) && b in ToSet(xs);
    var i :| 0 <= i < |xs| && xs[i] == a;
    var j :| 0 <= j < |xs| && xs[j] == b;
    assert Map(f, xs)[i] == f(a) && Map(f, xs)[j] == f(b);
  }

  lemma KeysFound(n: nat)
    requires n > 0
    ensures GroupKeys([KEY], Reading(), [], VisitRows(n)) == {[Some(1)], [Some(2)]}
  {
    VisitMembers(n);
    KeyOfRow(ANNE);
    KeyOfRow(BEN);
    MapOfTwo(KeyOf([KEY], Reading(), []), VisitRows(n), [Some(ANNE)], [Some(BEN)]);
  }

  ghost function TotalRowsOf(n: nat): seq<Joined> { Map(Alone(), Result(TOTALS_QUERY, Reading(), Visits(n), [])) }
  ghost function OnCustomer(n: nat): Joined -> bool { Test(Some(Cond(SAME_CUSTOMER, [])), Reading(), Visits(n), []) }

  lemma KeptIs(n: nat)
    ensures Kept(COUNTING, Reading(), Visits(n), [])
         == FlatMap(Pairs(OnCustomer(n), TotalRowsOf(n), []), VisitRows(n))
  {
    ViewRows(n);
    var rows := FlatMap(Pairs(OnCustomer(n), TotalRowsOf(n), []), VisitRows(n));
    assert Sources(JOINED, Reading(), Visits(n), []) == rows;
    NoFilter(n, rows);
  }

  lemma NoFilter(n: nat, rows: seq<Joined>)
    ensures Filter(Test(None, Reading(), Visits(n), []), rows) == rows
  {
    FilterAll(Test(None, Reading(), Visits(n), []), rows);
  }

  /** The rows the COUNT ranges over: each visit beside its customer's total. */
  lemma CountedRows(n: nat, w: Joined)
    requires n > 0
    ensures w in Kept(COUNTING, Reading(), Visits(n), []) <==>
            w == AnnesLine(n) || w == BensLine()
  {
    var f := Pairs(OnCustomer(n), TotalRowsOf(n), []);
    KeptIs(n);
    VisitMembers(n);
    FlatMapOfTwo(f, VisitRows(n), [Some(ANNE)], [Some(BEN)], w);
    AnnesPair(n, w);
    BensPair(n, w);
  }

  function AnnesLine(n: nat): Joined { [Some(ANNE), Some([Some(1), Some(n)])] }
  function BensLine(): Joined { [Some(BEN), Some([Some(2), Some(2)])] }

  lemma AnnesPair(n: nat, w: Joined)
    requires n > 0
    ensures w in Pairs(OnCustomer(n), TotalRowsOf(n), [])([Some(ANNE)]) <==> w == AnnesLine(n)
  {
    PairsAre(n, [Some(ANNE)], w);
    assert [Some(ANNE)] + [Some(TotalFor(n, [Some(ANNE)]))] == AnnesLine(n);
  }

  lemma BensPair(n: nat, w: Joined)
    requires n > 0
    ensures w in Pairs(OnCustomer(n), TotalRowsOf(n), [])([Some(BEN)]) <==> w == BensLine()
  {
    PairsAre(n, [Some(BEN)], w);
    assert [Some(BEN)] + [Some(TotalFor(n, [Some(BEN)]))] == BensLine();
  }

  lemma VisitMembers(n: nat)
    requires n > 0
    ensures ToSet(VisitRows(n)) == {[Some(ANNE)], [Some(BEN)]}
  {
    var rows := VisitRows(n);
    assert rows[0] == [Some(ANNE)] && rows[n] == [Some(BEN)];
    forall z | z in rows ensures z == [Some(ANNE)] || z == [Some(BEN)] {
      var i :| 0 <= i < |rows| && rows[i] == z;
      assert rows[i] == if i < n then [Some(ANNE)] else [Some(BEN)];
    }
  }

  function TotalFor(n: nat, x: Joined): Row { if x == [Some(ANNE)] then [Some(1), Some(n)] else [Some(2), Some(2)] }

  lemma PairsAre(n: nat, x: Joined, w: Joined)
    requires n > 0 && (x == [Some(ANNE)] || x == [Some(BEN)])
    ensures w in PairsOf(OnCustomer(n), x, TotalRowsOf(n), []) <==> w == x + [Some(TotalFor(n, x))]
  {
    var none: seq<Joined> := [];
    assert Map(Beside(x), none) == [];
    FilterMember(OnCustomer(n), Map(Beside(x), TotalRowsOf(n)), w);
    TotalMembers(n, x, w);
    MatchesTotal(n, x, [Some(1), Some(n)]);
    MatchesTotal(n, x, [Some(2), Some(2)]);
  }

  lemma TotalsAlone(n: nat)
    requires n > 0
    ensures ToSet(TotalRowsOf(n)) == {[Some([Some(1), Some(n)])], [Some([Some(2), Some(2)])]}
  {
    TotalRows(n);
    MapOfTwo(Alone(), Result(TOTALS_QUERY, Reading(), Visits(n), []), [Some(1), Some(n)], [Some(2), Some(2)]);
  }

  lemma TotalMembers(n: nat, x: Joined, w: Joined)
    requires n > 0
    ensures w in Map(Beside(x), TotalRowsOf(n)) <==>
            w == x + [Some([Some(1), Some(n)])] || w == x + [Some([Some(2), Some(2)])]
  {
    TotalsAlone(n);
    BesideTwo(x, TotalRowsOf(n), [Some([Some(1), Some(n)])], [Some([Some(2), Some(2)])], w);
  }

  lemma BesideTwo(x: Joined, ys: seq<Joined>, a: Joined, b: Joined, w: Joined)
    requires ToSet(ys) == {a, b}
    ensures w in Map(Beside(x), ys) <==> w == x + a || w == x + b
  {
    MapOfTwo(Beside(x), ys, a, b);
    var all := Map(Beside(x), ys);
    assert w in all <==> w in ToSet(all);
  }

  lemma FlatMapOfTwo<A, B>(f: A -> seq<B>, xs: seq<A>, a: A, b: A, w: B)
    requires ToSet(xs) == {a, b}
    ensures w in FlatMap(f, xs) <==> w in f(a) || w in f(b)
  {
    FlatMapMember(f, xs, w);
    if i :| 0 <= i < |xs| && w in f(xs[i]) { assert xs[i] in ToSet(xs); }
    assert a in ToSet(xs) && b in ToSet(xs);
    var i :| 0 <= i < |xs| && xs[i] == a;
    var j :| 0 <= j < |xs| && xs[j] == b;
  }

  /** The ON condition holds of a visit and a total of the same customer. */
  lemma MatchesTotal(n: nat, x: Joined, total: Row)
    requires (x == [Some(ANNE)] || x == [Some(BEN)]) && |total| == 2
    ensures OnCustomer(n)(x + [Some(total)]) <==> x[0].value[0] == total[0]
  {
    var z := x + [Some(total)];
    var scope: Scope := [z];
    assert [] + [z] == scope;
    assert z[0] == x[0] && z[1] == Some(total);
    assert CellAt(scope, 0, 0) == x[0].value[0] && CellAt(scope, 1, 0) == total[0];
    assert SAME_CUSTOMER != KEY && SAME_CUSTOMER != REVENUE && SAME_CUSTOMER != TOTAL;
  }

  /** Repeating Anne's row n times makes the number of distinct totals that of {n, 2}. */
  lemma TotalsCounted(n: nat)
    requires n > 0
    ensures GroupValue(COUNTING, COUNT_DISTINCT, Reading(), Visits(n), [], []) == Some(if n == 2 then 1 else 2)
  {
    var rows := Kept(COUNTING, Reading(), Visits(n), []);
    var arg := ArgIn(COUNTED, Reading(), []);
    NoKey(rows);
    var all := FlatMap(arg, rows);
    forall v ensures v in all <==> v == n || v == 2 {
      FlatMapMember(arg, rows, v);
      TotalCell(AnnesLine(n), n);
      TotalCell(BensLine(), 2);
      CountedRows(n, AnnesLine(n));
      CountedRows(n, BensLine());
      if i :| 0 <= i < |rows| && v in arg(rows[i]) { CountedRows(n, rows[i]); }
    }
    assert ToSet(all) == {n, 2};
    ListingSize(ToSet(all));
    assert n == 2 ==> {n, 2} == {2};
  }

  lemma NoKey(rows: seq<Joined>)
    ensures GroupRows([], Reading(), [], rows, []) == rows
  {
    var keys: seq<Node>, key: Row := [], [];
    forall z | z in rows ensures HasKey(keys, Reading(), [], key)(z) {
      assert KeyOf(keys, Reading(), [])(z) == key;
    }
    FilterAll(HasKey(keys, Reading(), [], key), rows);
  }

  lemma Unsettled()
    ensures !SettledQuery(TOTALS_QUERY) && !Settled(JOINED)
  {
    assert Sensitive(TOTALS_QUERY.items[1].aggs[0]);
    assert HasSensitive(TOTALS_QUERY);
  }

  lemma TotalCell(w: Joined, v: int)
    requires |w| == 2 && w[1].Some? && |w[1].value| == 2 && w[1].value[1] == Some(v)
    ensures ArgIn(COUNTED, Reading(), [])(w) == [v]
  {
    var scope: Scope := [w];
    assert [] + [w] == scope;
    assert CellAt(scope, 1, 1) == Some(v);
  }

  lemma {:induction false} ListingSize<T(!new)>(s: set<T>)
    ensures |Listing(s)| == |s|
  {
    if s != {} {
      var xs := Listing(s);
      assert xs[0] in ToSet(xs);
      var x := xs[0];
      assert xs == [x] + Listing(s - {x});
      ListingSize(s - {x});
    }
  }

  /** The rule accepts the query, and repeating one row of the view turns its answer from 2 to 1. */
  lemma DistinctTotalsEscape()
    ensures GrainAccepts(DISTINCT_TOTALS) && GrainCount(DISTINCT_TOTALS, [], [0])
    ensures CoreAt(DISTINCT_TOTALS, []) == Some(COUNTING) && AggOf(COUNT_TOTALS) == Some(COUNT_DISTINCT)
    ensures SameRows(Visits(1), Visits(2))
    ensures GroupValue(COUNTING, COUNT_DISTINCT, Reading(), Visits(1), [], []) == Some(2)
    ensures GroupValue(COUNTING, COUNT_DISTINCT, Reading(), Visits(2), [], []) == Some(1)
    ensures !SettledSelect(DISTINCT_TOTALS, [])
  {
    GrainRuleAccepts();
    CountRead();
    RepeatedVisits(1, 2);
    TotalsCounted(1);
    TotalsCounted(2);
    Unsettled();
  }

  // ------------------------------------------------------------------
  // The same query with the derived table named by WITH
  // ------------------------------------------------------------------

  // WITH x AS (SELECT customer_key, SUM(total_revenue) AS total ..) SELECT a FROM
  //   (SELECT COUNT(DISTINCT x.total) AS a FROM v_customer_opco_monthly v JOIN x ON ..) y
  const X_JOIN := Node(Join(""), [Node(Table("x"), []), SAME_CUSTOMER])
  const COUNT_X := Node(Select(1), [Node(Alias("a"), [COUNT_TOTALS]), VIEW_FROM, X_JOIN])
  const OUTER_A := Node(Column("", "a"), [])
  const FROM_COUNT := Node(Other("from"), [Node(Other("subquery"), [COUNT_X])])
  const WITH_X := Node(With(false), [Node(Cte("x"), [TOTALS])])
  const WITH_TOTALS := Node(Select(1), [OUTER_A, FROM_COUNT, WITH_X])

  function BoundX(): Bindings { map["x" := Some(TOTALS_QUERY)] }

  lemma ScopeOfX()
    ensures InScope(WITH_TOTALS.kids, map[]) == BoundX()
  {
    var kids, ctes := WITH_TOTALS.kids, WITH_X.kids;
    assert kids[..2] == [OUTER_A, FROM_COUNT];
    ScopeWithoutWith(kids[..2], map[]);
    TotalsRead(map[]);
    assert ctes[..0] == [];
    assert Bind(ctes[..0], map[]) == map[];
    assert Bind(ctes, map[]) == map[]["x" := ShapeOf(TOTALS, map[])];
  }

  lemma BoundAtCount()
    ensures Valid(WITH_TOTALS, [1, 0, 0]) && At(WITH_TOTALS, [1, 0, 0]) == COUNT_X
    ensures BoundAt(WITH_TOTALS, map[], [1, 0, 0]) == BoundX()
  {
    var sub := FROM_COUNT.kids[0];
    assert [1, 0, 0][1..] == [0, 0] && [0, 0][1..] == [0] && [0][1..] == [];
    TwoDown(FROM_COUNT, 0, 0);
    assert Valid(WITH_TOTALS, [1, 0, 0]) && WITH_TOTALS.kids[1] == FROM_COUNT;
    ScopeOfX();
    ScopeWithoutWith(sub.kids, BoundX());
    ScopeWithoutWith(FROM_COUNT.kids, BoundX());
    assert sub.kids[0] == COUNT_X && BoundAt(sub, BoundX(), [0]) == BoundAt(COUNT_X, BoundX(), []);
    assert BoundAt(FROM_COUNT, BoundX(), [0, 0]) == BoundAt(sub, BoundX(), [0]);
  }

  lemma CountXRead()
    ensures CoreOf(COUNT_X, BoundX()) == Some(COUNTING)
  {
    var kids := COUNT_X.kids;
    CountedRead();
    XFromRead();
    ScopeWithoutWith(kids, BoundX());
    assert TablesEnd(COUNT_X) == FilterEnd(COUNT_X) == KeysEnd(COUNT_X) == 3;
    assert kids[1..3] == [VIEW_FROM, X_JOIN] && kids[..1] == [kids[0]] && kids[3..] == [];
    assert [kids[0]][1..] == [] && Tableless(kids[0]);
  }

  lemma XFromRead()
    ensures FromOf([VIEW_FROM, X_JOIN], BoundX()) == Some(JOINED)
  {
    var clauses, env := [VIEW_FROM, X_JOIN], BoundX();
    ConditionRead(env);
    assert VIEW !in env;
    assert clauses[..1] == [VIEW_FROM] && FromOf([VIEW_FROM], env) == Some(Base(VIEW));
    assert X_JOIN.kids[1..] == [SAME_CUSTOMER];
    assert SourceOf(X_JOIN.kids[0], env) == Some(Derived(TOTALS_QUERY));
  }

  lemma WithCounted()
    ensures OneCount(WITH_TOTALS)
  {
    PartsCounted();
    var alias, sub, cte := COUNT_X.kids[0], FROM_COUNT.kids[0], WITH_X.kids[0];
    assert alias.kids[0] == COUNT_TOTALS && OneCount(alias);
    assert OneCount(X_JOIN.kids[0]) && OneCount(X_JOIN);
    assert OneCount(COUNT_X);
    assert sub.kids[0] == COUNT_X && OneCount(sub);
    assert OneCount(FROM_COUNT);
    assert cte.kids[0] == TOTALS && OneCount(cte);
    assert OneCount(WITH_X) && OneCount(OUTER_A);
  }

  lemma WithRuleAccepts()
    ensures GrainAccepts(WITH_TOTALS) && GrainCount(WITH_TOTALS, [1, 0, 0], [1, 0, 0, 0, 0])
    ensures At(WITH_TOTALS, [1, 0, 0, 0, 0]) == COUNT_TOTALS
  {
    var t, alias := WITH_TOTALS, COUNT_X.kids[0];
    WithCounted();
    OneCountAccepted(t);
    BoundAtCount();
    TwoDown(COUNT_X, 0, 0);
    var q: Path := [0, 0];
    forall i | 0 < i < |q| && Valid(COUNT_X, q[..i]) ensures At(COUNT_X, q[..i]) == alias {
      assert q[..i] == [0] && [0][1..] == [];
    }
    BelongsBelow(t, [1, 0, 0], q);
    assert [1, 0, 0] + q == [1, 0, 0, 0, 0];
    ViewBelow(t, [1, 0, 0]);
  }

  /** Named by WITH, the same query is accepted and reads as the same, and its answer changes the same way. */
  lemma WithTotalsEscape()
    ensures GrainAccepts(WITH_TOTALS) && GrainCount(WITH_TOTALS, [1, 0, 0], [1, 0, 0, 0, 0])
    ensures CoreAt(WITH_TOTALS, [1, 0, 0]) == Some(COUNTING)
    ensures AggOf(At(WITH_TOTALS, [1, 0, 0, 0, 0])) == Some(COUNT_DISTINCT)
    ensures SameRows(Visits(1), Visits(2)) && !SettledSelect(WITH_TOTALS, [1, 0, 0])
    ensures GroupValue(COUNTING, COUNT_DISTINCT, Reading(), Visits(1), [], []) == Some(2)
    ensures GroupValue(COUNTING, COUNT_DISTINCT, Reading(), Visits(2), [], []) == Some(1)
  {
    WithRuleAccepts();
    BoundAtCount();
    CountXRead();
    CountedRead();
    RepeatedVisits(1, 2);
    TotalsCounted(1);
    TotalsCounted(2);
    Unsettled();
  }
}
