/**
 * Reading a SELECT of the syntax tree as a query: its FROM, WHERE and GROUP BY, with the derived
 * tables, names bound by WITH and subqueries in them. Trees outside the SQL modelled here read as None.
 */
module QueryShape {
  import opened Wrappers
  import opened Seqs
  import opened SqlAst
  import Repeats

  /** Constructs that are more than a value per row. */
  const NOT_SCALAR: set<string> := {"window", "rollup", "cube", "grouping_sets"}

  /** An expression over one row: no query, table or aggregate in it. */
  predicate Scalar(n: Node) {
    && (match n.kind
        case Column(_, _) => true
        case Predicate(_) => true
        case Distinct => true
        case Case(_, _) => true
        case When => true
        case Div => true
        case Alias(_) => true
        case Other(tag) => tag !in NOT_SCALAR
        case _ => false)
    && ScalarAll(n.kids)
  }

  predicate ScalarAll(ns: seq<Node>) { ns == [] || (Scalar(ns[0]) && ScalarAll(ns[1..])) }

  function ArgOf(n: Node): Option<Node> {
    if n.kids == [] || n.kids[0].kind == Other("star") then None else Some(n.kids[0])
  }

  function DistinctFlag(n: Node): bool {
    (n.kids != [] && n.kids[0].kind.Distinct?) || (n.kind.Count? && n.kind.distinctFlag)
  }

  /** COUNT, SUM, MIN or MAX of something per row. */
  function AggOf(n: Node): Option<Repeats.Agg> {
    if !ScalarAll(n.kids) || (DistinctFlag(n) && ArgOf(n).None?) then None
    else if n.kind.Count? then Some(Repeats.Agg(Repeats.CountOf, DistinctFlag(n), ArgOf(n)))
    else if !n.kind.Aggregate? || ArgOf(n).None? then None
    else if n.kind.fn == "sum" then Some(Repeats.Agg(Repeats.SumOf, DistinctFlag(n), ArgOf(n)))
    else if n.kind.fn == "min" then Some(Repeats.Agg(Repeats.MinOf, DistinctFlag(n), ArgOf(n)))
    else if n.kind.fn == "max" then Some(Repeats.Agg(Repeats.MaxOf, DistinctFlag(n), ArgOf(n)))
    else None
  }

  /** The aggregates of a projection. */
  function AggsOf(n: Node): Option<seq<Repeats.Agg>> {
    if n.kind.Count? || n.kind.Aggregate? then
      match AggOf(n) case Some(a) => Some([a]) case None => None
    else if Scalar(Node(n.kind, [])) then AggsOfAll(n.kids)
    else None
  }

  function AggsOfAll(ns: seq<Node>): Option<seq<Repeats.Agg>> {
    if ns == [] then Some([])
    else
      match (AggsOf(ns[0]), AggsOfAll(ns[1..]))
      case (Some(first), Some(rest)) => Some(first + rest)
      case _ => None
  }

  function ItemsOf(ns: seq<Node>): Option<seq<Repeats.Item>> {
    if ns == [] then Some([])
    else
      match (AggsOf(ns[0]), ItemsOf(ns[1..]))
      case (Some(aggs), Some(rest)) => Some([Repeats.Item(ns[0], aggs)] + rest)
      case _ => None
  }

  // ------------------------------------------------------------------
  // The clauses of a SELECT: projections, FROM, JOINs, WHERE, GROUP BY, and what follows
  // ------------------------------------------------------------------

  function JoinsEnd(ns: seq<Node>, i: nat): (e: nat)
    ensures i <= |ns| ==> i <= e <= |ns|
    decreases |ns| - i
  {
    if i < |ns| && ns[i].kind.Join? then JoinsEnd(ns, i + 1) else i
  }

  function WhereEnd(ns: seq<Node>, i: nat): (e: nat)
    ensures i <= |ns| ==> i <= e <= |ns| && e <= i + 1
  {
    if i < |ns| && ns[i].kind.Where? then i + 1 else i
  }

  function GroupEnd(ns: seq<Node>, i: nat): (e: nat)
    ensures i <= |ns| ==> i <= e <= |ns| && e <= i + 1
  {
    if i < |ns| && ns[i].kind.Group? then i + 1 else i
  }

  /** No table stands in it outside a nested SELECT. */
  predicate Tableless(n: Node) { !n.kind.Table? && (n.kind.Select? || TablelessAll(n.kids)) }
  predicate TablelessAll(ns: seq<Node>) { ns == [] || (Tableless(ns[0]) && TablelessAll(ns[1..])) }

  /** The clauses after the groups. */
  predicate EndsQuery(n: Node) {
    && Tableless(n)
    && (n.kind.Order? || n.kind.Distinct? || n.kind.With? || n.kind == Other("having") || n.kind == Other("limit"))
  }

  predicate EndsQueryAll(ns: seq<Node>) { ns == [] || (EndsQuery(ns[0]) && EndsQueryAll(ns[1..])) }

  /** Of those, the ones that keep a group per row: ORDER BY, WITH and a plain DISTINCT. */
  predicate KeepsGroups(ns: seq<Node>) {
    ns == [] || ((ns[0].kind.Order? || ns[0].kind.With? || ns[0] == Node(Distinct, [])) && KeepsGroups(ns[1..]))
  }

  /** Where the clauses of a SELECT end: FROM and JOINs, WHERE, GROUP BY. */
  function TablesEnd(n: Node): nat
    requires n.kind.Select?
  {
    JoinsEnd(n.kids, n.kind.projections + 1)
  }

  function FilterEnd(n: Node): nat
    requires n.kind.Select?
  {
    WhereEnd(n.kids, TablesEnd(n))
  }

  function KeysEnd(n: Node): nat
    requires n.kind.Select?
  {
    GroupEnd(n.kids, FilterEnd(n))
  }

  function KeysOf(n: Node): seq<Node>
    requires n.kind.Select? && n.kind.projections < |n.kids|
  {
    if KeysEnd(n) > FilterEnd(n) then n.kids[FilterEnd(n)].kids else []
  }

  // ------------------------------------------------------------------
  // Reading a query under the names WITH binds
  // ------------------------------------------------------------------

  /** What the names bound by WITH stand for; None for a query outside the SQL modelled here. */
  type Bindings = map<string, Option<Repeats.Query>>

  /** Under WITH RECURSIVE a name may stand for itself, until its query is read without it. */
  function Unread(ctes: seq<Node>, env: Bindings): Bindings {
    if ctes == [] then env
    else
      var last, rest := ctes[|ctes| - 1], Unread(ctes[..|ctes| - 1], env);
      if last.kind.Cte? then rest[last.kind.name := None] else rest
  }

  /** The names bound by the CTEs of a WITH, each read under the ones before it. */
  function Bind(ctes: seq<Node>, env: Bindings): Bindings
    decreases ctes
  {
    if ctes == [] then env
    else
      var last, before := ctes[|ctes| - 1], Bind(ctes[..|ctes| - 1], env);
      if !last.kind.Cte? then before
      else before[last.kind.name := if last.kids == [] then None else ShapeOf(last.kids[0], before)]
  }

  /** The names in scope below a node: those around it, and those its own WITH binds. */
  function InScope(ns: seq<Node>, env: Bindings): Bindings
    decreases ns
  {
    if ns == [] then env
    else
      var last, before := ns[|ns| - 1], InScope(ns[..|ns| - 1], env);
      if !last.kind.With? then before
      else Bind(last.kids, if last.kind.recursive then Unread(last.kids, before) else before)
  }

  /** The names in scope around the node at s. */
  function BoundAt(n: Node, env: Bindings, s: Path): Bindings
    requires Valid(n, s)
    decreases |s|
  {
    if s == [] then env
    else
      var kid := n.kids[s[0]];
      if kid.kind.With? && |s| > 1 then
        var q := s[1..];
        assert Valid(kid, q) && q[0] == s[1];
        var before := InScope(n.kids[..s[0]], env);
        BoundAt(kid.kids[q[0]],
                Bind(kid.kids[..q[0]], if kid.kind.recursive then Unread(kid.kids, before) else before), q[1..])
      else BoundAt(kid, InScope(n.kids, env), s[1..])
  }

  /** The FROM, WHERE and GROUP BY of a SELECT, which decide the rows its aggregates range over. */
  function CoreOf(n: Node, env: Bindings): Option<Repeats.Query>
    decreases n, 0
  {
    if !n.kind.Select? || |n.kids| <= n.kind.projections then None
    else
      var k, e, w, g := n.kind.projections, TablesEnd(n), FilterEnd(n), KeysEnd(n);
      assert n.kids[..e] == if e < |n.kids| then n.kids[..e] else n.kids;
      assert n.kids[k..e] == if k > 0 then n.kids[..e][k..] else n.kids[..e];
      var scope := InScope(n.kids, env);
      var from := FromOf(n.kids[k..e], scope);
      var filter := if w == e then Some(None) else FilterOf(n.kids[e].kids, scope);
      if from.None? || filter.None? || !ScalarAll(KeysOf(n)) then None
      else if !TablelessAll(n.kids[..k]) || !EndsQueryAll(n.kids[g..]) then None
      else Some(Repeats.Query(from.value, filter.value, KeysOf(n), [], false))
  }

  /** A whole derived table or subquery. */
  function ShapeOf(n: Node, env: Bindings): Option<Repeats.Query>
    decreases n, 1
  {
    var core := CoreOf(n, env);
    if core.None? || n.kind.projections == 0 || !KeepsGroups(n.kids[KeysEnd(n)..]) then None
    else
      var items := ItemsOf(n.kids[..n.kind.projections]);
      if items.None? then None
      else Some(core.value.(items := items.value, distinct := n.kids[KeysEnd(n)..] != []
                                                           && Node(Distinct, []) in n.kids[KeysEnd(n)..]))
  }

  function DerivedFrom(q: Option<Repeats.Query>): Option<Repeats.From> {
    match q case Some(query) => Some(Repeats.Derived(query)) case None => None
  }

  /** What stands in FROM or JOIN: a table, a name bound by WITH, or a derived table. */
  function SourceOf(n: Node, env: Bindings): Option<Repeats.From>
    decreases n, 2
  {
    match n.kind
    case Table(name) =>
      if !TablelessAll(n.kids) then None
      else if name in env then DerivedFrom(env[name]) else Some(Repeats.Base(name))
    case Select(_) => DerivedFrom(ShapeOf(n, env))
    case Other(tag) =>
      if tag != "subquery" || |n.kids| != 1 || !n.kids[0].kind.Select? then None
      else DerivedFrom(ShapeOf(n.kids[0], env))
    case _ => None
  }

  function FromOf(ns: seq<Node>, env: Bindings): Option<Repeats.From>
    decreases ns
  {
    if ns == [] then None
    else
      var last := ns[|ns| - 1];
      if |ns| == 1 then
        if last.kind == Other("from") && |last.kids| == 1 then SourceOf(last.kids[0], env) else None
      else if !last.kind.Join? || last.kids == [] || last.kind.side !in {"", "LEFT"} then None
      else
        var left := FromOf(ns[..|ns| - 1], env);
        var right, on := SourceOf(last.kids[0], env), FilterOf(last.kids[1..], env);
        if left.None? || right.None? || on.None? then None
        else Some(Repeats.Joining(left.value, right.value, on.value, last.kind.side == "LEFT"))
  }

  /** The condition of a WHERE or ON, if there is one. */
  function FilterOf(ns: seq<Node>, env: Bindings): Option<Option<Repeats.Cond>>
    decreases ns
  {
    if ns == [] then Some(None)
    else if |ns| > 1 then None
    else match SubsOf(ns[0], env) case Some(subs) => Some(Some(Repeats.Cond(ns[0], subs))) case None => None
  }

  /** The subqueries a condition tests. */
  function SubsOf(n: Node, env: Bindings): Option<seq<Repeats.Query>>
    decreases n, 2
  {
    if n.kind.Select? then (match ShapeOf(n, env) case Some(q) => Some([q]) case None => None)
    else if Scalar(Node(n.kind, [])) then SubsOfAll(n.kids, env)
    else None
  }

  function SubsOfAll(ns: seq<Node>, env: Bindings): Option<seq<Repeats.Query>>
    decreases ns
  {
    if ns == [] then Some([])
    else
      match (SubsOf(ns[0], env), SubsOfAll(ns[1..], env))
      case (Some(first), Some(rest)) => Some(first + rest)
      case _ => None
  }

  lemma {:induction false} ScopeWithoutWith(ns: seq<Node>, env: Bindings)
    requires forall i :: 0 <= i < |ns| ==> !ns[i].kind.With?
    ensures InScope(ns, env) == env
  {
    if ns != [] { ScopeWithoutWith(ns[..|ns| - 1], env); }
  }

  /** The SELECT at s of a query. */
  function CoreAt(t: Node, s: Path): Option<Repeats.Query>
    requires Valid(t, s)
  {
    CoreOf(At(t, s), BoundAt(t, map[], s))
  }

  /** The names the tables of the SELECT at s may stand for. */
  function NamesAt(t: Node, s: Path): Bindings
    requires Valid(t, s)
  {
    InScope(At(t, s).kids, BoundAt(t, map[], s))
  }

  // ------------------------------------------------------------------
  // What is read
  // ------------------------------------------------------------------

  /** A node that may stand in an expression over one row. */
  predicate PerRow(k: Kind) {
    match k
    case Table(_) => false
    case Count(_) => false
    case Aggregate(_) => false
    case Select(_) => false
    case Union => false
    case Where => false
    case Join(_) => false
    case Group => false
    case Order => false
    case With(_) => false
    case Cte(_) => false
    case Other(tag) => tag != "window" && tag != "rollup" && tag != "cube" && tag != "grouping_sets"
    case _ => true
  }

  lemma PerRowIsScalar(k: Kind)
    requires PerRow(k)
    ensures Scalar(Node(k, []))
  {
    if k.Other? {
      assert NOT_SCALAR == {"window", "rollup", "cube", "grouping_sets"};
    }
  }

  ghost predicate AllPerRow(n: Node) { forall p :: Valid(n, p) ==> PerRow(At(n, p).kind) }

  lemma AllPerRowKids(n: Node)
    ensures AllPerRow(n) <==> PerRow(n.kind) && forall i :: 0 <= i < |n.kids| ==> AllPerRow(n.kids[i])
  {
    if AllPerRow(n) {
      assert Valid(n, []) && At(n, []) == n;
      forall i, p | 0 <= i < |n.kids| && Valid(n.kids[i], p) ensures PerRow(At(n.kids[i], p).kind) {
        assert ([i] + p)[1..] == p;
        assert Valid(n, [i] + p) && At(n, [i] + p) == At(n.kids[i], p);
      }
    }
    if PerRow(n.kind) && forall i :: 0 <= i < |n.kids| ==> AllPerRow(n.kids[i]) {
      forall p | Valid(n, p) ensures PerRow(At(n, p).kind) {
        if p != [] { assert AllPerRow(n.kids[p[0]]) && At(n, p) == At(n.kids[p[0]], p[1..]); }
      }
    }
  }

  /** An expression is over one row exactly when every node of it may stand in one. */
  lemma {:induction false} ScalarIff(n: Node)
    ensures Scalar(n) <==> AllPerRow(n)
  {
    ScalarAllIff(n.kids);
    AllPerRowKids(n);
    forall i | 0 <= i < |n.kids| ensures Scalar(n.kids[i]) <==> AllPerRow(n.kids[i]) { ScalarIff(n.kids[i]); }
    if PerRow(n.kind) { PerRowIsScalar(n.kind); }
  }

  lemma {:induction false} ScalarAllIff(ns: seq<Node>)
    ensures ScalarAll(ns) <==> forall i :: 0 <= i < |ns| ==> Scalar(ns[i])
  {
    if ns != [] {
      ScalarAllIff(ns[1..]);
      assert ns == [ns[0]] + ns[1..];
      forall i | 0 <= i < |ns[1..]| ensures ns[i + 1] == ns[1..][i] { }
    }
  }

  /** COUNT, SUM, MIN and MAX are read as such, over their first operand, and COUNT(*) over none. */
  lemma AggReads(n: Node, a: Repeats.Agg)
    requires AggOf(n) == Some(a)
    ensures a.fold == Repeats.CountOf <==> n.kind == Count(true) || n.kind == Count(false)
    ensures a.fold == Repeats.SumOf <==> n.kind == Aggregate("sum")
    ensures a.fold == Repeats.MinOf <==> n.kind == Aggregate("min")
    ensures a.fold == Repeats.MaxOf <==> n.kind == Aggregate("max")
    ensures a.distinct <==> n.kind == Count(true) || (n.kids != [] && n.kids[0].kind == Distinct)
    ensures a.arg.None? <==> n.kids == [] || n.kids[0].kind == Other("star")
    ensures a.arg.Some? ==> a.arg.value == n.kids[0]
  {
  }

  /** And all of them are read whose operands are over one row, but for the DISTINCT of nothing. */
  lemma AggIsRead(n: Node)
    requires n.kind in {Count(true), Count(false), Aggregate("sum"), Aggregate("min"), Aggregate("max")}
    requires n.kids != [] && n.kids[0].kind != Other("star") && ScalarAll(n.kids)
    ensures AggOf(n).Some?
  {
  }

  /** A derived table is read only if nothing but ORDER BY, WITH and a plain DISTINCT follows its groups. */
  lemma {:induction false} KeepsGroupsIff(ns: seq<Node>)
    ensures KeepsGroups(ns) <==>
            forall i :: 0 <= i < |ns| ==> ns[i].kind == Order || ns[i].kind.With? || ns[i] == Node(Distinct, [])
  {
    if ns != [] {
      KeepsGroupsIff(ns[1..]);
      forall i | 0 <= i < |ns[1..]| ensures ns[i + 1] == ns[1..][i] { }
    }
  }

  // ------------------------------------------------------------------
  // Tables stand in FROM and JOIN only
  // ------------------------------------------------------------------

  lemma {:induction false} ScalarTableless(ns: seq<Node>)
    requires ScalarAll(ns)
    ensures TablelessAll(ns)
    decreases ns
  {
    if ns != [] {
      ScalarTableless(ns[0].kids);
      ScalarTableless(ns[1..]);
    }
  }

  lemma {:induction false} SubsTableless(ns: seq<Node>, env: Bindings)
    requires SubsOfAll(ns, env).Some?
    ensures TablelessAll(ns)
    decreases ns
  {
    if ns != [] {
      if !ns[0].kind.Select? { SubsTableless(ns[0].kids, env); }
      SubsTableless(ns[1..], env);
    }
  }

  lemma {:induction false} EndsTableless(ns: seq<Node>)
    requires EndsQueryAll(ns)
    ensures TablelessAll(ns)
  {
    if ns != [] { EndsTableless(ns[1..]); }
  }

  lemma {:induction false} TablelessAt(ns: seq<Node>, i: nat)
    requires TablelessAll(ns) && i < |ns|
    ensures Tableless(ns[i])
  {
    if i > 0 { TablelessAt(ns[1..], i - 1); }
  }

  /** A table found without entering a SELECT. */
  ghost predicate Finds(n: Node, p: Path) {
    Valid(n, p) && At(n, p).kind.Table? && forall j :: 0 <= j < |p| && Valid(n, p[..j]) ==> !At(n, p[..j]).kind.Select?
  }

  lemma FindsBelow(n: Node, p: Path)
    requires Finds(n, p) && p != []
    ensures !n.kind.Select? && Finds(n.kids[p[0]], p[1..])
  {
    assert Valid(n, p[..0]) && At(n, p[..0]) == n;
    forall j | 0 <= j < |p[1..]| && Valid(n.kids[p[0]], p[1..][..j])
      ensures !At(n.kids[p[0]], p[1..][..j]).kind.Select?
    {
      assert p[..j + 1][0] == p[0] && p[..j + 1][1..] == p[1..][..j];
    }
  }

  lemma {:induction false} TablelessFindsNone(n: Node, p: Path)
    requires Tableless(n)
    ensures !Finds(n, p)
  {
    if Finds(n, p) && p != [] {
      FindsBelow(n, p);
      TablelessAt(n.kids, p[0]);
      TablelessFindsNone(n.kids[p[0]], p[1..]);
    }
  }

  /** A FROM with a base table of its own is not reduced. */
  lemma {:induction false} OwnTableRepeats(ns: seq<Node>, env: Bindings, i: nat, p: Path)
    requires FromOf(ns, env).Some? && i < |ns| && Finds(ns[i], p) && At(ns[i], p).kind.name !in env
    ensures !Repeats.Reduced(FromOf(ns, env).value)
  {
    var last := ns[|ns| - 1];
    if |ns| == 1 {
      FindsBelow(ns[i], p);
      SourceWithTable(last.kids[0], env, p[1..]);
    } else if i < |ns| - 1 {
      OwnTableRepeats(ns[..|ns| - 1], env, i, p);
    } else {
      FindsBelow(ns[i], p);
      if p[0] == 0 {
        SourceWithTable(last.kids[0], env, p[1..]);
      } else {
        SubsTableless(last.kids[1..], env);
        TablelessAt(last.kids[1..], p[0] - 1);
        TablelessFindsNone(last.kids[p[0]], p[1..]);
      }
    }
  }

  lemma SourceWithTable(n: Node, env: Bindings, p: Path)
    requires SourceOf(n, env).Some? && Finds(n, p) && At(n, p).kind.name !in env
    ensures !Repeats.Reduced(SourceOf(n, env).value)
  {
    if p != [] {
      FindsBelow(n, p);
      if n.kind.Table? {
        TablelessAt(n.kids, p[0]);
        TablelessFindsNone(n.kids[p[0]], p[1..]);
      } else if p[1..] != [] {
        FindsBelow(n.kids[0], p[1..]);
      }
    }
  }

  /** A SELECT with a base table of its own has a FROM that is not reduced. */
  lemma OwnTableInFrom(n: Node, env: Bindings, p: Path)
    requires CoreOf(n, env).Some? && p != [] && Valid(n, p) && Finds(n.kids[p[0]], p[1..])
    requires At(n, p).kind.name !in InScope(n.kids, env)
    ensures !Repeats.Reduced(CoreOf(n, env).value.from)
  {
    var k, e, w, g := n.kind.projections, TablesEnd(n), FilterEnd(n), KeysEnd(n);
    var i := p[0];
    if k <= i < e {
      OwnTableRepeats(n.kids[k..e], InScope(n.kids, env), i - k, p[1..]);
    } else {
      if i < k {
        TablelessAt(n.kids[..k], i);
      } else if i < w {
        SubsTableless(n.kids[e].kids, InScope(n.kids, env));
      } else if i < g {
        ScalarTableless(n.kids[w].kids);
      } else {
        EndsTableless(n.kids[g..]);
        TablelessAt(n.kids[g..], i - g);
      }
      TablelessFindsNone(n.kids[i], p[1..]);
    }
  }
}
