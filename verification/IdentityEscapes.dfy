/** Accepted queries that show an identity, one for each way a column is overlooked. */
module IdentityEscapes {
  import opened Wrappers
  import opened Seqs
  import opened SqlAst
  import opened IdentityRule
  import opened IdentityFlow

  // ------------------------------------------------------------------
  // Reading a tree from its structure
  // ------------------------------------------------------------------

  predicate Unaggregated(n: Node) {
    !n.kind.Aggregate? && !n.kind.Count? && forall i :: 0 <= i < |n.kids| ==> Unaggregated(n.kids[i])
  }

  lemma {:induction false} NothingAggregated(n: Node, p: Path)
    requires Unaggregated(n) && Valid(n, p)
    ensures !At(n, p).kind.Aggregate? && !At(n, p).kind.Count?
  {
    if p != [] { NothingAggregated(n.kids[p[0]], p[1..]); }
  }

  /** The names aliased below n to an expression that returns identity. */
  function DerivedIn(n: Node): set<string> {
    (if NamesIdentity(n, []) then {n.kind.alias} else {}) + DerivedInAll(n.kids)
  }

  function DerivedInAll(ns: seq<Node>): set<string> {
    if ns == [] then {} else DerivedIn(ns[0]) + DerivedInAll(ns[1..])
  }

  lemma {:induction false} DerivedInMembers(n: Node, x: string)
    ensures x in DerivedIn(n) <==> exists p :: NamesIdentity(n, p) && AliasAt(n, p) == x
    decreases n, 0
  {
    DerivedInAllMembers(n.kids, x);
    if i, p :| 0 <= i < |n.kids| && NamesIdentity(n.kids[i], p) && AliasAt(n.kids[i], p) == x {
      assert ([i] + p)[1..] == p;
      assert NamesIdentity(n, [i] + p);
    }
    if p :| NamesIdentity(n, p) && AliasAt(n, p) == x {
      if p != [] { assert NamesIdentity(n.kids[p[0]], p[1..]); }
    }
  }

  lemma {:induction false} DerivedInAllMembers(ns: seq<Node>, x: string)
    ensures x in DerivedInAll(ns) <==>
            exists i, p :: 0 <= i < |ns| && NamesIdentity(ns[i], p) && AliasAt(ns[i], p) == x
    decreases ns, 1
  {
    if ns != [] {
      DerivedInMembers(ns[0], x);
      DerivedInAllMembers(ns[1..], x);
      if i, p :| 0 <= i < |ns[1..]| && NamesIdentity(ns[1..][i], p) && AliasAt(ns[1..][i], p) == x {
        assert ns[i + 1] == ns[1..][i];
      }
      if i, p :| 0 <= i < |ns| && NamesIdentity(ns[i], p) && AliasAt(ns[i], p) == x {
        if i > 0 { assert ns[1..][i - 1] == ns[i]; }
      }
    }
  }

  lemma DerivedByStructure(t: Node)
    ensures Derived(t) == DerivedIn(t)
  {
    forall x ensures x in Derived(t) <==> x in DerivedIn(t) {
      DerivedInMembers(t, x);
      if p :| NamesIdentity(t, p) && AliasAt(t, p) == x { PositionsAreAll(t, p); }
    }
  }

  /** No column of these names outside a nested SELECT. */
  predicate Quiet(n: Node, names: set<string>) {
    (n.kind.Column? ==> n.kind.name !in names)
    && (n.kind.Select? || forall i :: 0 <= i < |n.kids| ==> Quiet(n.kids[i], names))
  }

  lemma {:induction false} QuietColumn(n: Node, names: set<string>, q: Path) returns (j: nat)
    requires Quiet(n, names) && Valid(n, q) && At(n, q).kind.Column? && At(n, q).kind.name in names
    ensures j < |q| && Valid(n, q[..j]) && At(n, q[..j]).kind.Select?
    decreases |q|
  {
    if n.kind.Select? || q == [] {
      j := 0;
    } else {
      var k := QuietColumn(n.kids[q[0]], names, q[1..]);
      j := k + 1;
      assert q[..j][1..] == q[1..][..k];
    }
  }

  /** The kids of every outermost SELECT, and what stands beside them, hold no column the rule looks for. */
  predicate QuietOutside(t: Node, names: set<string>) {
    if t.kind.Select? then forall i :: 0 <= i < |t.kids| ==> Quiet(t.kids[i], names)
    else t.kind.Union? && forall i :: 0 <= i < |t.kids| ==>
           if t.kids[i].kind.Select? then forall j :: 0 <= j < |t.kids[i].kids| ==> Quiet(t.kids[i].kids[j], names)
           else Quiet(t.kids[i], names)
  }

  lemma InnerSelect(t: Node, names: set<string>, p: Path) returns (j: nat)
    requires QuietOutside(t, names) && Valid(t, p) && At(t, p).kind.Column? && At(t, p).kind.name in names
    ensures 0 < j < |p| && Valid(t, p[..j]) && At(t, p[..j]).kind.Select? && (t.kind.Union? ==> j > 1)
  {
    var kid, q := t.kids[p[0]], p[1..];
    if t.kind.Union? && kid.kind.Select? {
      var k := QuietColumn(kid.kids[q[0]], names, q[1..]);
      j := k + 2;
      assert p[..j][1..] == q[..k + 1] && q[..k + 1][1..] == q[1..][..k];
    } else {
      var k := QuietColumn(kid, names, q);
      j := k + 1;
      assert p[..j][1..] == q[..k];
      if t.kind.Union? { assert q[..0] == []; }
    }
  }

  /** A tree without aggregates whose outermost SELECTs are quiet is accepted. */
  lemma QuietAccepted(t: Node)
    requires Unaggregated(t) && QuietOutside(t, IDENTITY + Derived(t))
    ensures Accepts(t)
  {
    var names := IDENTITY + Derived(t);
    forall p | Valid(t, p) && At(t, p).kind.Column? ensures ColumnAllowed(t, Derived(t), p) {
      if At(t, p).kind.name in names {
        var j := InnerSelect(t, names, p);
        InnerColumnAllowed(t, p, j);
      }
    }
  }

  lemma InnerColumnAllowed(t: Node, p: Path, j: nat)
    requires Unaggregated(t) && (t.kind.Select? || t.kind.Union?) && Valid(t, p) && At(t, p).kind.Column?
    requires 0 < j < |p| && Valid(t, p[..j]) && At(t, p[..j]).kind.Select? && (t.kind.Union? ==> j > 1)
    ensures ColumnAllowed(t, Derived(t), p)
  {
    forall k | 0 <= k < |p| && Valid(t, p[..k])
      ensures !At(t, p[..k]).kind.Aggregate? && !At(t, p[..k]).kind.Count?
    {
      NothingAggregated(t, p[..k]);
    }
    var k := LastSelect(t, p, j, |p|);
    assert NearestSelect(t, p, k) && !Outermost(t, p[..k]);
  }

  lemma {:induction false} LastSelect(t: Node, p: Path, j: nat, n: nat) returns (k: nat)
    requires Valid(t, p) && j < n <= |p| && Valid(t, p[..j]) && At(t, p[..j]).kind.Select?
    requires forall i :: n <= i < |p| && Valid(t, p[..i]) ==> !At(t, p[..i]).kind.Select?
    ensures j <= k && NearestSelect(t, p, k)
    decreases n
  {
    ValidPrefix(t, p, n - 1);
    if At(t, p[..n - 1]).kind.Select? { k := n - 1; } else { k := LastSelect(t, p, j, n - 1); }
  }

  // ------------------------------------------------------------------
  // Building trees
  // ------------------------------------------------------------------

  const KEY := "customer_key"
  const CODE := "opco_code"
  const GRAIN_TABLE := Node(Other("from"), [Node(Table("v_customer_opco_monthly"), [])])

  function ColumnOf(name: string): Node { Node(Column("", name), []) }
  function AliasOf(name: string, from: string): Node { Node(Alias(name), [ColumnOf(from)]) }
  function SelectOf(item: Node, source: Node): Node { Node(Select(1), [item, source]) }
  function Subquery(query: Node): Node { Node(Other("subquery"), [query]) }
  function FromNode(item: Node): Node { Node(Other("from"), [item]) }
  function Nested(query: Node): Node { FromNode(Subquery(query)) }
  function Columns(name: string): Node { Node(Other("columns"), [Node(Other(name), [])]) }

  const KEYS := SelectOf(ColumnOf(KEY), GRAIN_TABLE)
  const CODES := SelectOf(ColumnOf(CODE), GRAIN_TABLE)

  lemma LeafFacts(n: Node)
    requires n.kids == [] && !n.kind.Aggregate? && !n.kind.Count? && !n.kind.Alias?
    ensures DerivedIn(n) == {} && Unaggregated(n)
  {
  }

  lemma OneKid(n: Node)
    requires |n.kids| == 1 && !n.kind.Aggregate? && !n.kind.Count?
    ensures DerivedIn(n) == (if NamesIdentity(n, []) then {n.kind.alias} else {}) + DerivedIn(n.kids[0])
    ensures Unaggregated(n) <==> Unaggregated(n.kids[0])
  {
    assert n.kids[1..] == [];
    assert DerivedInAll(n.kids) == DerivedIn(n.kids[0]) + DerivedInAll(n.kids[1..]);
  }

  lemma TwoKids(n: Node)
    requires |n.kids| == 2 && !n.kind.Aggregate? && !n.kind.Count? && !n.kind.Alias?
    ensures DerivedIn(n) == DerivedIn(n.kids[0]) + DerivedIn(n.kids[1])
    ensures Unaggregated(n) <==> Unaggregated(n.kids[0]) && Unaggregated(n.kids[1])
  {
    var rest := n.kids[1..];
    assert rest == [n.kids[1]] && rest[1..] == [];
    assert DerivedInAll(rest) == DerivedIn(n.kids[1]) + DerivedInAll(rest[1..]);
    assert DerivedInAll(n.kids) == DerivedIn(n.kids[0]) + DerivedInAll(rest);
  }

  lemma TableFacts()
    ensures DerivedIn(GRAIN_TABLE) == {} && Unaggregated(GRAIN_TABLE)
  {
    LeafFacts(GRAIN_TABLE.kids[0]);
    OneKid(GRAIN_TABLE);
  }

  lemma SelectFacts(item: Node, source: Node)
    ensures DerivedIn(SelectOf(item, source)) == DerivedIn(item) + DerivedIn(source)
    ensures Unaggregated(SelectOf(item, source)) <==> Unaggregated(item) && Unaggregated(source)
  {
    TwoKids(SelectOf(item, source));
  }

  lemma ColumnSelectFacts(name: string, source: Node)
    ensures DerivedIn(SelectOf(ColumnOf(name), source)) == DerivedIn(source)
    ensures Unaggregated(SelectOf(ColumnOf(name), source)) <==> Unaggregated(source)
  {
    LeafFacts(ColumnOf(name));
    SelectFacts(ColumnOf(name), source);
  }

  lemma AliasSelectFacts(name: string, from: string, source: Node)
    ensures DerivedIn(SelectOf(AliasOf(name, from), source))
         == (if from in IDENTITY then {name} else {}) + DerivedIn(source)
    ensures Unaggregated(SelectOf(AliasOf(name, from), source)) <==> Unaggregated(source)
  {
    LeafFacts(ColumnOf(from));
    OneKid(AliasOf(name, from));
    SelectFacts(AliasOf(name, from), source);
  }

  lemma NestedFacts(query: Node)
    ensures DerivedIn(Nested(query)) == DerivedIn(query) && (Unaggregated(Nested(query)) <==> Unaggregated(query))
  {
    OneKid(Subquery(query));
    OneKid(Nested(query));
  }

  lemma KeysFacts()
    ensures DerivedIn(KEYS) == {} && Unaggregated(KEYS) && DerivedIn(CODES) == {} && Unaggregated(CODES)
  {
    TableFacts();
    ColumnSelectFacts(KEY, GRAIN_TABLE);
    ColumnSelectFacts(CODE, GRAIN_TABLE);
  }

  /** Nothing but SELECTs, tables and columns of other names beside the projection. */
  lemma QuietSource(query: Node, names: set<string>)
    requires query.kind.Select?
    ensures Quiet(query, names) && Quiet(Subquery(query), names) && Quiet(Nested(query), names)
    ensures Quiet(GRAIN_TABLE, names)
  {
    assert Quiet(GRAIN_TABLE.kids[0], names);
  }

  // ------------------------------------------------------------------
  // Showing what flows
  // ------------------------------------------------------------------

  /** Plain reading, but for one column. */
  function Onto(r: Reading, p: Path, v: Spot): Reading { (q: Path) => if q == p then [v] else r(q) }

  lemma Down(n: Node, p: Path)
    requires Valid(n, p) && p != []
    ensures Valid(n.kids[p[0]], p[1..]) && At(n, p) == At(n.kids[p[0]], p[1..])
  {
  }

  /** A way down that starts with a kid which flows into the node. */
  lemma Push(n: Node, col: nat, i: nat, q: Path)
    requires !n.kind.Case? && KidFlows(n, col, i, if n.kind.Union? || Passes(n.kind) then col else 0)
    requires Valid(n.kids[i], q) && Made(n.kids[i], if n.kind.Union? || Passes(n.kind) then col else 0, q)
    ensures Valid(n, [i] + q) && At(n, [i] + q) == At(n.kids[i], q) && Made(n, col, [i] + q)
  {
    assert ([i] + q)[1..] == q;
  }

  /** The column of a one-column SELECT. */
  lemma OwnColumn(name: string, source: Node)
    ensures var n := SelectOf(ColumnOf(name), source);
            Valid(n, [0]) && At(n, [0]) == ColumnOf(name) && Made(n, 0, [0])
  {
    Push(SelectOf(ColumnOf(name), source), 0, 0, []);
    assert [0] + [] == [0];
  }

  /** A SELECT of one column, or of one renamed column, is tainted by what the column reads. */
  lemma SelectTaint(t: Node, r: Reading, p: Path, item: Node, source: Node, name: string)
    requires Valid(t, p) && At(t, p) == SelectOf(item, source)
    requires item == ColumnOf(name) ==> ReadsTaint(t, r, IDENTITY, p + [0])
    requires item != ColumnOf(name) ==>
               (|item.kids| == 1 && item.kids[0] == ColumnOf(name) && (item.kind.Alias? || item.kind.Other?)
                && ReadsTaint(t, r, IDENTITY, p + [0, 0]))
    ensures Tainted(t, r, IDENTITY, Cell(p, 0))
  {
    var n := At(t, p);
    TaintedIffMade(t, r, IDENTITY, p, 0);
    if item == ColumnOf(name) {
      assert [0][1..] == [] && Valid(n, [0]) && Made(n, 0, [0]);
    } else {
      assert [0, 0][1..] == [0] && [0][1..] == [];
      assert Valid(item, [0]) && Made(item, 0, [0]);
      assert Valid(n, [0, 0]) && Made(n, 0, [0, 0]);
    }
  }

  lemma PlainColumnTaint(t: Node, r: Reading, p: Path)
    requires Valid(t, p) && At(t, p) == ColumnOf(KEY) && r(p) == [Stored(KEY)]
    ensures ReadsTaint(t, r, IDENTITY, p)
  {
    StoredTaint(t, r, IDENTITY, KEY);
    assert Stored(KEY) in r(p);
  }

  lemma ReadsThrough(t: Node, r: Reading, p: Path, v: Spot)
    requires Valid(t, p) && At(t, p).kind.Column? && r(p) == [v] && Tainted(t, r, IDENTITY, v)
    ensures ReadsTaint(t, r, IDENTITY, p)
  {
    assert v in r(p);
  }

  lemma ResultTainted(t: Node, r: Reading)
    requires Tainted(t, r, IDENTITY, Cell([], 0))
    ensures Shows(t, r)
  {
    InfluenceIffTainted(t, r, IDENTITY, Cell([], 0));
  }

  /** A query whose only column reads one spot otherwise plainly. */
  lemma OneReadByName(t: Node, p: Path, q: Path, implied: Path -> string)
    requires Valid(t, p) && At(t, p).kind.Column? && Valid(t, q)
    requires OutputName(t, q, 0, implied) == At(t, p).kind.name
    ensures ByName(t, Onto(Plainly(t), p, Cell(q, 0)), implied)
  {
  }

  // ------------------------------------------------------------------
  // What the rule does refuse
  // ------------------------------------------------------------------

  lemma KeyIsReturned()
    ensures KEYS.kind.Select? && ClauseOf(KEYS, ColumnOf(KEY)) && SelectFree(ColumnOf(KEY))
    ensures forall names :: KEY in names ==> ReturnsIdentity(ColumnOf(KEY), names)
  {
    assert KEYS.kids[0] == ColumnOf(KEY);
  }

  lemma SideRefused(t: Node, i: nat)
    requires t.kind.Union? && i < 2 && i < |t.kids| && t.kids[i] == KEYS
    ensures !Accepts(t)
  {
    KeyIsReturned();
    NamesAre(t);
    if Accepts(t) { UnionSidesReturnNone(t, IDENTITY + Derived(t), i, ColumnOf(KEY)); }
  }

  /** SELECT opco_code .. UNION ALL SELECT customer_key .., in either order of the sides. */
  lemma EitherSideRefused()
    ensures !Accepts(Node(Union, [CODES, KEYS])) && !Accepts(Node(Union, [KEYS, CODES]))
    ensures Accepts(Node(Union, [CODES, CODES])) && !Accepts(KEYS) && Accepts(CODES)
  {
    KeyIsReturned();
    SideRefused(Node(Union, [CODES, KEYS]), 1);
    SideRefused(Node(Union, [KEYS, CODES]), 0);
    if Accepts(KEYS) { KeysRefused(); }
    CodesAccepted();
    TwoCodesAccepted();
  }

  lemma KeysRefused()
    ensures !Accepts(KEYS)
  {
    KeyIsReturned();
    ClausesAreFound(KEYS, [], ColumnOf(KEY));
    var c :| Clause(KEYS, [], c) && At(KEYS, c) == ColumnOf(KEY);
    if Accepts(KEYS) { IdentityRuleSound(KEYS, [], c); }
  }

  lemma CodesAccepted()
    ensures Accepts(CODES)
  {
    KeysFacts();
    DerivedByStructure(CODES);
    assert IDENTITY + {} == IDENTITY;
    QuietSource(CODES, IDENTITY);
    QuietAccepted(CODES);
  }

  lemma TwoCodesAccepted()
    ensures Accepts(Node(Union, [CODES, CODES]))
  {
    var both := Node(Union, [CODES, CODES]);
    KeysFacts();
    TwoKids(both);
    DerivedByStructure(both);
    assert IDENTITY + {} == IDENTITY;
    QuietSource(CODES, IDENTITY);
    QuietAccepted(both);
  }

  // ------------------------------------------------------------------
  // A branch not taken for outermost
  // ------------------------------------------------------------------

  // (SELECT customer_key .. UNION ALL SELECT opco_code ..) UNION ALL SELECT opco_code ..
  const THREE_BRANCHES := Node(Union, [Node(Union, [KEYS, CODES]), CODES])

  lemma UnionQuiet(left: Node, names: set<string>)
    requires !left.kind.Select? && Quiet(left, names) && CODE !in names
    ensures QuietOutside(Node(Union, [left, CODES]), names)
  {
    QuietSource(CODES, names);
    assert Quiet(ColumnOf(CODE), names);
  }

  /** Three branches parse as a UNION on the left of a UNION: its SELECTs count as inner. */
  lemma ThreeBranchesEscape()
    ensures var t := THREE_BRANCHES;
            && Accepts(t) && Derived(t) == {} && Shows(t, Plainly(t))
            && Surfaces(t, [0, 0, 0]) && At(t, [0, 0, 0]) == ColumnOf(KEY)
            && ResultSelect(t, [0, 0, 0], 2) && !Outermost(t, [0, 0])
  {
    var t, left := THREE_BRANCHES, Node(Union, [KEYS, CODES]);
    KeysFacts();
    TwoKids(left);
    TwoKids(t);
    DerivedByStructure(t);
    QuietSource(KEYS, IDENTITY);
    QuietSource(CODES, IDENTITY);
    assert IDENTITY + {} == IDENTITY && Quiet(left, IDENTITY);
    UnionQuiet(left, IDENTITY);
    QuietAccepted(t);
    ThreeBranchesShow();
  }

  lemma ThreeBranchesShow()
    ensures var t := THREE_BRANCHES;
            && Shows(t, Plainly(t)) && Surfaces(t, [0, 0, 0]) && At(t, [0, 0, 0]) == ColumnOf(KEY)
            && ResultSelect(t, [0, 0, 0], 2) && !Outermost(t, [0, 0])
  {
    var t, left := THREE_BRANCHES, Node(Union, [KEYS, CODES]);
    OwnColumn(KEY, GRAIN_TABLE);
    Push(left, 0, 0, [0]);
    assert [0] + [0] == [0, 0];
    Push(t, 0, 0, [0, 0]);
    assert [0] + [0, 0] == [0, 0, 0];
    PlainSurface(t, [0, 0, 0]);
    TwoAbove(t, 0, 0);
  }

  /** A key that surfaces and is read plainly shows. */
  lemma PlainSurface(t: Node, p: Path)
    requires Valid(t, p) && At(t, p) == ColumnOf(KEY) && Made(t, 0, p)
    ensures Surfaces(t, p) && Shows(t, Plainly(t))
  {
    PlainColumnTaint(t, Plainly(t), p);
    ShowsIff(t, Plainly(t));
  }

  lemma TwoAbove(t: Node, i: nat, j: nat)
    requires i < |t.kids| && j < |t.kids[i].kids| && t.kids[i].kids[j].kind.Select? && t.kids[i].kids[j].kids != []
    requires t.kind.Union? && !t.kids[i].kind.Select?
    ensures Valid(t, [i, j, 0]) && ResultSelect(t, [i, j, 0], 2) && !Outermost(t, [i, j])
  {
    var p := [i, j, 0];
    assert p[1..] == [j, 0] && [j, 0][1..] == [0] && [0][1..] == [];
    assert Valid(t.kids[i].kids[j], [0]) && Valid(t.kids[i], [j, 0]);
    assert p[..2] == [i, j] && p[..1] == [i] && p[..0] == [];
    TwoDown(t, i, j);
    ValidPrefix(t, p, 1);
    Down(t, p[..1]);
  }

  // SELECT opco_code .. UNION ALL (SELECT customer_key ..)
  const PARENTHESISED := Node(Union, [CODES, Subquery(KEYS)])

  /** A side in parentheses is no SELECT, so its SELECT counts as inner. */
  lemma ParenthesisedEscapes()
    ensures var t := PARENTHESISED;
            && Accepts(t) && Derived(t) == {} && Shows(t, Plainly(t))
            && Surfaces(t, [1, 0, 0]) && At(t, [1, 0, 0]) == ColumnOf(KEY)
            && ResultSelect(t, [1, 0, 0], 2) && !Outermost(t, [1, 0])
  {
    var t := PARENTHESISED;
    KeysFacts();
    OneKid(Subquery(KEYS));
    TwoKids(t);
    DerivedByStructure(t);
    assert IDENTITY + {} == IDENTITY;
    QuietSource(KEYS, IDENTITY);
    assert Quiet(ColumnOf(CODE), IDENTITY);
    QuietAccepted(t);
    OwnColumn(KEY, GRAIN_TABLE);
    Push(Subquery(KEYS), 0, 0, [0]);
    assert [0] + [0] == [0, 0];
    Push(t, 0, 1, [0, 0]);
    assert [1] + [0, 0] == [1, 0, 0];
    PlainSurface(t, [1, 0, 0]);
    TwoAbove(t, 1, 0);
  }

  // ------------------------------------------------------------------
  // A name the scan does not see
  // ------------------------------------------------------------------

  /** The outer column reads a spot the key is carried to. */
  lemma EscapesVia(t: Node, r: Reading, name: string, source: Node, u: Path, q: Path)
    requires t.kind.Select? && t.kind.projections == 1 && |t.kids| > 1 && t.kids[0] == ColumnOf(name)
    requires Valid(t, u) && Valid(At(t, u), q) && Made(At(t, u), 0, q) && At(At(t, u), q) == ColumnOf(KEY)
    requires r == Onto(Plainly(t), [0], Cell(u, 0)) && u + q != [0]
    ensures Valid(t, [0]) && At(t, [0]) == ColumnOf(name) && Surfaces(t, [0])
    ensures ReadsTaint(t, r, IDENTITY, [0]) && Shows(t, r)
  {
    AtAppend(t, u, q);
    PlainColumnTaint(t, r, u + q);
    TaintedIffMade(t, r, IDENTITY, u, 0);
    Push(t, 0, 0, []);
    assert [0] + [] == [0];
    ReadsThrough(t, r, [0], Cell(u, 0));
    ShowsIff(t, r);
  }

  /** A SELECT of one column of an unseen name over nested queries. */
  lemma UnseenAccepted(t: Node, name: string)
    requires t.kind.Select? && |t.kids| > 1 && t.kids[0] == ColumnOf(name) && name !in IDENTITY
    requires Unaggregated(t) && DerivedIn(t) == {} && forall i :: 1 <= i < |t.kids| ==> Quiet(t.kids[i], IDENTITY)
    ensures Accepts(t) && Derived(t) == {}
  {
    DerivedByStructure(t);
    assert IDENTITY + {} == IDENTITY && Quiet(ColumnOf(name), IDENTITY);
    QuietAccepted(t);
  }

  lemma NestedAt(t: Node, query: Node)
    requires |t.kids| > 1 && t.kids[1] == Nested(query)
    ensures Valid(t, [1, 0, 0]) && At(t, [1, 0, 0]) == query
  {
    var sub := Subquery(query);
    assert [1, 0, 0][1..] == [0, 0] && [0, 0][1..] == [0] && [0][1..] == [];
    assert Valid(sub, [0]) && At(sub, [0]) == query;
    assert Valid(Nested(query), [0, 0]) && At(Nested(query), [0, 0]) == query;
  }

  // SELECT x FROM (SELECT opco_code AS x .. UNION ALL SELECT customer_key ..) u
  const CODES_AS_X := SelectOf(AliasOf("x", CODE), GRAIN_TABLE)
  const BOTH := Node(Union, [CODES_AS_X, KEYS])
  const UNION_POSITION := SelectOf(ColumnOf("x"), Nested(BOTH))

  function UnionReading(): Reading { Onto(Plainly(UNION_POSITION), [0], Cell([1, 0, 0], 0)) }

  lemma UnionPositionAccepted()
    ensures Accepts(UNION_POSITION) && Derived(UNION_POSITION) == {}
  {
    KeysFacts();
    TableFacts();
    AliasSelectFacts("x", CODE, GRAIN_TABLE);
    TwoKids(BOTH);
    NestedFacts(BOTH);
    ColumnSelectFacts("x", Nested(BOTH));
    assert Quiet(BOTH, IDENTITY) && Quiet(Subquery(BOTH), IDENTITY);
    UnseenAccepted(UNION_POSITION, "x");
  }

  lemma UnionPositionByName(implied: Path -> string)
    ensures ByName(UNION_POSITION, UnionReading(), implied)
  {
    var t := UNION_POSITION;
    NestedAt(t, BOTH);
    AtAppend(t, [1, 0, 0], [0]);
    Down(BOTH, [0]);
    assert OutputName(t, [1, 0, 0] + [0], 0, implied) == "x";
    Down(t, [0]);
    OneReadByName(t, [0], [1, 0, 0], implied);
  }

  /** The identity takes its name from the other branch. */
  lemma UnionPositionEscapes(implied: Path -> string)
    ensures var t := UNION_POSITION;
            && Accepts(t) && Derived(t) == {} && ByName(t, UnionReading(), implied)
            && Shows(t, UnionReading()) && Surfaces(t, [0]) && At(t, [0]) == ColumnOf("x")
  {
    UnionPositionAccepted();
    UnionPositionByName(implied);
    OwnColumn(KEY, GRAIN_TABLE);
    Push(BOTH, 0, 1, [0]);
    assert [1] + [0] == [1, 0];
    NestedAt(UNION_POSITION, BOTH);
    EscapesVia(UNION_POSITION, UnionReading(), "x", Nested(BOTH), [1, 0, 0], [1, 0]);
  }

  // SELECT x FROM (SELECT customer_key ..) AS q(x)
  const LISTED_KEYS := Node(Other("subquery"), [KEYS, Columns("x")])
  const COLUMN_LIST := SelectOf(ColumnOf("x"), FromNode(LISTED_KEYS))

  function ListReading(): Reading { Onto(Plainly(COLUMN_LIST), [0], Cell([1, 0], 0)) }

  lemma ListFacts(n: Node)
    requires n.kids == [KEYS, Columns("x")] && !n.kind.Aggregate? && !n.kind.Count? && !n.kind.Alias?
    requires !n.kind.Column?
    ensures DerivedIn(n) == {} && Unaggregated(n) && Quiet(n, IDENTITY)
  {
    KeysFacts();
    LeafFacts(Columns("x").kids[0]);
    OneKid(Columns("x"));
    TwoKids(n);
    QuietSource(KEYS, IDENTITY);
    assert Quiet(Columns("x").kids[0], IDENTITY) && Quiet(Columns("x"), IDENTITY);
  }

  lemma ListNames(n: Node, t: Node, u: Path, implied: Path -> string)
    requires Valid(t, u) && At(t, u) == n && n.kids == [KEYS, Columns("x")] && Passes(n.kind)
    ensures OutputName(t, u, 0, implied) == "x"
  {
    assert Listed(n, 0) == Some("x");
  }

  lemma ListMakes(n: Node)
    requires n.kids == [KEYS, Columns("x")] && Passes(n.kind)
    ensures Valid(n, [0, 0]) && Made(n, 0, [0, 0]) && At(n, [0, 0]) == ColumnOf(KEY)
  {
    OwnColumn(KEY, GRAIN_TABLE);
    Push(n, 0, 0, [0]);
    assert [0] + [0] == [0, 0];
  }

  /** The column list after a derived table names the identity. */
  lemma ColumnListEscapes(implied: Path -> string)
    ensures var t := COLUMN_LIST;
            && Accepts(t) && Derived(t) == {} && ByName(t, ListReading(), implied)
            && Shows(t, ListReading()) && Surfaces(t, [0]) && At(t, [0]) == ColumnOf("x")
  {
    var t := COLUMN_LIST;
    ListFacts(LISTED_KEYS);
    OneKid(FromNode(LISTED_KEYS));
    ColumnSelectFacts("x", FromNode(LISTED_KEYS));
    UnseenAccepted(t, "x");
    TwoDown(t, 1, 0);
    ListMakes(LISTED_KEYS);
    EscapesVia(t, ListReading(), "x", FromNode(LISTED_KEYS), [1, 0], [0, 0]);
    ListNames(LISTED_KEYS, t, [1, 0], implied);
    OneReadByName(t, [0], [1, 0], implied);
  }

  // WITH b(x) AS (SELECT customer_key ..) SELECT x FROM b
  const LISTED_CTE := Node(Cte("b"), [KEYS, Columns("x")])
  const FROM_B := FromNode(Node(Table("b"), []))
  const WITH_LIST := Node(Select(1), [ColumnOf("x"), FROM_B, Node(With(false), [LISTED_CTE])])

  function WithReading(): Reading { Onto(Plainly(WITH_LIST), [0], Cell([2, 0], 0)) }

  lemma ThreeKids(n: Node)
    requires |n.kids| == 3 && !n.kind.Aggregate? && !n.kind.Count? && !n.kind.Alias?
    ensures DerivedIn(n) == DerivedIn(n.kids[0]) + DerivedIn(n.kids[1]) + DerivedIn(n.kids[2])
    ensures Unaggregated(n) <==> Unaggregated(n.kids[0]) && Unaggregated(n.kids[1]) && Unaggregated(n.kids[2])
  {
    var rest := Node(Other(""), n.kids[1..]);
    TwoKids(rest);
    assert DerivedInAll(n.kids) == DerivedIn(n.kids[0]) + DerivedInAll(n.kids[1..]);
  }

  lemma WithListAccepted()
    ensures Accepts(WITH_LIST) && Derived(WITH_LIST) == {}
  {
    var w := Node(With(false), [LISTED_CTE]);
    ListFacts(LISTED_CTE);
    OneKid(w);
    LeafFacts(FROM_B.kids[0]);
    OneKid(FROM_B);
    LeafFacts(ColumnOf("x"));
    ThreeKids(WITH_LIST);
    assert Quiet(w, IDENTITY) && Quiet(FROM_B.kids[0], IDENTITY) && Quiet(FROM_B, IDENTITY);
    UnseenAccepted(WITH_LIST, "x");
  }

  /** So does the column list of a CTE. */
  lemma WithListEscapes(implied: Path -> string)
    ensures var t := WITH_LIST;
            && Accepts(t) && Derived(t) == {} && ByName(t, WithReading(), implied)
            && Shows(t, WithReading()) && Surfaces(t, [0]) && At(t, [0]) == ColumnOf("x")
  {
    var t := WITH_LIST;
    WithListAccepted();
    TwoDown(t, 2, 0);
    ListMakes(LISTED_CTE);
    EscapesVia(t, WithReading(), "x", FROM_B, [2, 0], [0, 0]);
    ListNames(LISTED_CTE, t, [2, 0], implied);
    OneReadByName(t, [0], [2, 0], implied);
  }

  // SELECT substr FROM (SELECT substr(customer_key, ..) ..) q
  const PIECE := Node(Other("substr"), [ColumnOf(KEY)])
  const PIECES := SelectOf(PIECE, GRAIN_TABLE)
  const IMPLIED_NAME := SelectOf(ColumnOf("substr"), Nested(PIECES))

  function ImpliedReading(): Reading { Onto(Plainly(IMPLIED_NAME), [0], Cell([1, 0, 0], 0)) }

  lemma ImpliedAccepted()
    ensures Accepts(IMPLIED_NAME) && Derived(IMPLIED_NAME) == {}
  {
    TableFacts();
    LeafFacts(ColumnOf(KEY));
    OneKid(PIECE);
    SelectFacts(PIECE, GRAIN_TABLE);
    NestedFacts(PIECES);
    ColumnSelectFacts("substr", Nested(PIECES));
    QuietSource(PIECES, IDENTITY);
    UnseenAccepted(IMPLIED_NAME, "substr");
  }

  lemma ImpliedByName(implied: Path -> string)
    requires implied([1, 0, 0, 0]) == "substr"
    ensures ByName(IMPLIED_NAME, ImpliedReading(), implied)
  {
    NestedAt(IMPLIED_NAME, PIECES);
    assert [1, 0, 0] + [0] == [1, 0, 0, 0];
    Down(IMPLIED_NAME, [0]);
    assert OutputName(IMPLIED_NAME, [1, 0, 0], 0, implied) == "substr";
    OneReadByName(IMPLIED_NAME, [0], [1, 0, 0], implied);
  }

  lemma PieceMakes()
    ensures Valid(PIECES, [0, 0]) && Made(PIECES, 0, [0, 0]) && At(PIECES, [0, 0]) == ColumnOf(KEY)
  {
    Push(PIECE, 0, 0, []);
    assert [0] + [] == [0];
    Push(PIECES, 0, 0, [0]);
    assert [0] + [0] == [0, 0];
  }

  /** An expression without an alias goes by the name the database gives it. */
  lemma ImpliedNameEscapes(implied: Path -> string)
    requires implied([1, 0, 0, 0]) == "substr"
    ensures var t := IMPLIED_NAME;
            && Accepts(t) && Derived(t) == {} && ByName(t, ImpliedReading(), implied)
            && Shows(t, ImpliedReading()) && Surfaces(t, [0]) && At(t, [0]) == ColumnOf("substr")
  {
    var t := IMPLIED_NAME;
    ImpliedAccepted();
    NestedAt(t, PIECES);
    PieceMakes();
    EscapesVia(t, ImpliedReading(), "substr", Nested(PIECES), [1, 0, 0], [0, 0]);
    ImpliedByName(implied);
  }

  // SELECT y FROM (SELECT x AS y FROM (SELECT customer_key AS x FROM v_customer_opco_monthly) a) b
  const FIRST := SelectOf(AliasOf("x", KEY), GRAIN_TABLE)
  const SECOND := SelectOf(AliasOf("y", "x"), Nested(FIRST))
  const RENAMED_TWICE := SelectOf(ColumnOf("y"), Nested(SECOND))

  function TwiceReading(): Reading {
    Onto(Onto(Plainly(RENAMED_TWICE), [1, 0, 0, 0, 0], Cell([1, 0, 0, 1, 0, 0], 0)), [0], Cell([1, 0, 0], 0))
  }

  lemma FirstFacts()
    ensures DerivedIn(FIRST) == {"x"} && Unaggregated(FIRST)
  {
    TableFacts();
    AliasSelectFacts("x", KEY, GRAIN_TABLE);
  }

  lemma SecondFacts()
    ensures DerivedIn(SECOND) == {"x"} && Unaggregated(SECOND)
  {
    FirstFacts();
    NestedFacts(FIRST);
    AliasSelectFacts("y", "x", Nested(FIRST));
  }

  lemma TwiceAccepted()
    ensures Accepts(RENAMED_TWICE) && Derived(RENAMED_TWICE) == {"x"}
  {
    SecondFacts();
    NestedFacts(SECOND);
    ColumnSelectFacts("y", Nested(SECOND));
    DerivedByStructure(RENAMED_TWICE);
    TwiceQuiet();
    QuietAccepted(RENAMED_TWICE);
  }

  lemma TwiceQuiet()
    ensures QuietOutside(RENAMED_TWICE, IDENTITY + {"x"})
  {
    var names := IDENTITY + {"x"};
    QuietSource(SECOND, names);
    assert "y" !in names && Quiet(ColumnOf("y"), names);
  }

  /** The column of an alias in a one-column SELECT. */
  lemma AliasedColumn(name: string, from: string, source: Node)
    ensures var n := SelectOf(AliasOf(name, from), source);
            Valid(n, [0, 0]) && At(n, [0, 0]) == ColumnOf(from) && Made(n, 0, [0, 0])
  {
    Push(AliasOf(name, from), 0, 0, []);
    assert [0] + [] == [0];
    Push(SelectOf(AliasOf(name, from), source), 0, 0, [0]);
    assert [0] + [0] == [0, 0];
  }

  /** Positions in the query. */
  lemma TwicePlaces()
    ensures var t := RENAMED_TWICE;
            && Valid(t, [1, 0, 0]) && At(t, [1, 0, 0]) == SECOND
            && Valid(t, [1, 0, 0, 1, 0, 0]) && At(t, [1, 0, 0, 1, 0, 0]) == FIRST
            && Valid(t, [1, 0, 0, 0, 0]) && At(t, [1, 0, 0, 0, 0]) == ColumnOf("x")
            && Valid(t, [1, 0, 0, 1, 0, 0, 0, 0]) && At(t, [1, 0, 0, 1, 0, 0, 0, 0]) == ColumnOf(KEY)
  {
    var t := RENAMED_TWICE;
    NestedAt(t, SECOND);
    NestedAt(SECOND, FIRST);
    AtAppend(t, [1, 0, 0], [1, 0, 0]);
    assert [1, 0, 0] + [1, 0, 0] == [1, 0, 0, 1, 0, 0];
    AliasedColumn("y", "x", Nested(FIRST));
    AtAppend(t, [1, 0, 0], [0, 0]);
    assert [1, 0, 0] + [0, 0] == [1, 0, 0, 0, 0];
    AliasedColumn("x", KEY, GRAIN_TABLE);
    AtAppend(t, [1, 0, 0, 1, 0, 0], [0, 0]);
    assert [1, 0, 0, 1, 0, 0] + [0, 0] == [1, 0, 0, 1, 0, 0, 0, 0];
  }

  lemma TwiceTaint()
    ensures Tainted(RENAMED_TWICE, TwiceReading(), IDENTITY, Cell([1, 0, 0], 0))
  {
    var t, r := RENAMED_TWICE, TwiceReading();
    TwicePlaces();
    PlainColumnTaint(t, r, [1, 0, 0, 1, 0, 0, 0, 0]);
    assert [1, 0, 0, 1, 0, 0] + [0, 0] == [1, 0, 0, 1, 0, 0, 0, 0];
    SelectTaint(t, r, [1, 0, 0, 1, 0, 0], AliasOf("x", KEY), GRAIN_TABLE, KEY);
    ReadsThrough(t, r, [1, 0, 0, 0, 0], Cell([1, 0, 0, 1, 0, 0], 0));
    assert [1, 0, 0] + [0, 0] == [1, 0, 0, 0, 0];
    SelectTaint(t, r, [1, 0, 0], AliasOf("y", "x"), Nested(FIRST), "x");
  }

  lemma TwiceByName(implied: Path -> string)
    ensures ByName(RENAMED_TWICE, TwiceReading(), implied)
  {
    var t := RENAMED_TWICE;
    TwicePlaces();
    Down(t, [0]);
    assert OutputName(t, [1, 0, 0], 0, implied) == "y" && OutputName(t, [1, 0, 0, 1, 0, 0], 0, implied) == "x";
    OneReadByName(t, [1, 0, 0, 0, 0], [1, 0, 0, 1, 0, 0], implied);
  }

  /** A second renaming hides the identity. */
  lemma RenamedTwiceEscapes(implied: Path -> string)
    ensures var t := RENAMED_TWICE;
            && Accepts(t) && Derived(t) == {"x"} && ByName(t, TwiceReading(), implied)
            && Shows(t, TwiceReading()) && Surfaces(t, [0]) && At(t, [0]) == ColumnOf("y")
  {
    var t := RENAMED_TWICE;
    TwiceAccepted();
    TwiceByName(implied);
    TwiceShown();
  }

  lemma TwiceShown()
    ensures var t := RENAMED_TWICE; Shows(t, TwiceReading()) && Surfaces(t, [0]) && At(t, [0]) == ColumnOf("y")
  {
    var t := RENAMED_TWICE;
    TwiceTaint();
    OwnColumn("y", Nested(SECOND));
    ReadsThrough(t, TwiceReading(), [0], Cell([1, 0, 0], 0));
    assert Surfaces(t, [0]);
    ShowsIff(t, TwiceReading());
  }

  // ------------------------------------------------------------------
  // A nested SELECT
  // ------------------------------------------------------------------

  // SELECT (SELECT customer_key FROM v_customer_opco_monthly) FROM v_customer_opco_monthly
  const SCALAR_SUBQUERY := SelectOf(Subquery(KEYS), GRAIN_TABLE)

  /** A scalar subquery of the projection hands its column on. */
  lemma ScalarSubqueryEscapes()
    ensures var t := SCALAR_SUBQUERY;
            && Accepts(t) && Derived(t) == {} && Shows(t, Plainly(t))
            && Surfaces(t, [0, 0, 0]) && At(t, [0, 0, 0]) == ColumnOf(KEY)
            && ResultSelect(t, [0, 0, 0], 0) && NestedBelow(t, [0, 0, 0], 0)
  {
    var t := SCALAR_SUBQUERY;
    ScalarAccepted();
    OwnColumn(KEY, GRAIN_TABLE);
    Push(Subquery(KEYS), 0, 0, [0]);
    assert [0] + [0] == [0, 0];
    Push(t, 0, 0, [0, 0]);
    assert [0] + [0, 0] == [0, 0, 0];
    PlainSurface(t, [0, 0, 0]);
    assert [0, 0, 0][..2] == [0, 0] && [0, 0, 0][..0] == [];
    TwoDown(t, 0, 0);
  }

  lemma ScalarAccepted()
    ensures Accepts(SCALAR_SUBQUERY) && Derived(SCALAR_SUBQUERY) == {}
  {
    KeysFacts();
    TableFacts();
    OneKid(Subquery(KEYS));
    SelectFacts(Subquery(KEYS), GRAIN_TABLE);
    DerivedByStructure(SCALAR_SUBQUERY);
    assert IDENTITY + {} == IDENTITY;
    QuietSource(KEYS, IDENTITY);
    QuietAccepted(SCALAR_SUBQUERY);
  }
}
