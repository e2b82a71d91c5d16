/**
 * The identity rule: an identity column may be counted, joined on or tested, but no outermost
 * expression may return it.
 */
module IdentityRule {
  import opened Wrappers
  import opened Seqs
  import opened SqlAst

  const IDENTITY: set<string> := {"customer_key"}

  // ------------------------------------------------------------------
  // Downwards: what an expression returns
  // ------------------------------------------------------------------

  /** Kid i of a Case is one of its WHEN .. THEN .. entries. */
  predicate IfEntry(n: Node, i: nat) {
    n.kind.Case? && i < |n.kids| && !(n.kind.hasOperand && i == 0) && !(n.kind.hasDefault && i == |n.kids| - 1)
    && n.kids[i].kind.When? && |n.kids[i].kids| > 1
  }

  /** _returns_identity. */
  predicate ReturnsIdentity(n: Node, names: set<string>) {
    match n.kind
    case Column(_, name) => name in names
    case Predicate(_) => false
    case Count(_) => false
    case Case(_, hasDefault) =>
      (exists i :: 0 <= i < |n.kids| && IfEntry(n, i) && ReturnsIdentity(n.kids[i].kids[1], names))
      || (hasDefault && n.kids != [] && ReturnsIdentity(n.kids[|n.kids| - 1], names))
    case Alias(_) => n.kids != [] && ReturnsIdentity(n.kids[0], names)
    case _ => exists i :: 0 <= i < |n.kids| && ReturnsIdentity(n.kids[i], names)
  }

  /** A kid between the operand and the default, where the Case has them, with a condition and a value. */
  ghost predicate EntryOf(n: Node, i: nat)
    requires n.kind.Case?
  {
    var first, last := if n.kind.hasOperand then 1 else 0, |n.kids| - if n.kind.hasDefault then 1 else 0;
    first <= i < last && n.kids[i].kind == When && |n.kids[i].kids| >= 2
  }

  /** The value found at p becomes part of n's value: p never enters a test, a count or a condition. */
  ghost predicate Carries(n: Node, p: Path)
    requires Valid(n, p)
    decreases |p|
  {
    p == [] ||
    match n.kind
    case Column(_, _) => false
    case Predicate(_) => false
    case Count(_) => false
    case Case(_, hasDefault) =>
      (hasDefault && p[0] == |n.kids| - 1 && Carries(n.kids[p[0]], p[1..]))
      || (EntryOf(n, p[0]) && |p| >= 2 && p[1] == 1 &&
          (var q := p[1..]; assert Valid(n.kids[p[0]], q) && q != []; Carries(n.kids[p[0]].kids[1], q[1..])))
    case Alias(_) => p[0] == 0 && Carries(n.kids[0], p[1..])
    case _ => Carries(n.kids[p[0]], p[1..])
  }

  ghost predicate Witness(n: Node, names: set<string>, p: Path) {
    Valid(n, p) && Carries(n, p) && At(n, p).kind.Column? && At(n, p).kind.name in names
  }

  lemma ConsWitness(n: Node, names: set<string>, i: nat, p: Path)
    requires i < |n.kids| && Witness(n.kids[i], names, p)
    requires !n.kind.Column? && !n.kind.Predicate? && !n.kind.Count?
    requires n.kind.Case? ==> n.kind.hasDefault && i == |n.kids| - 1
    requires n.kind.Alias? ==> i == 0
    ensures Witness(n, names, [i] + p)
  {
    assert ([i] + p)[1..] == p;
  }

  lemma ConsBranchWitness(n: Node, names: set<string>, i: nat, p: Path)
    requires IfEntry(n, i) && Witness(n.kids[i].kids[1], names, p)
    ensures Witness(n, names, [i, 1] + p)
  {
    var q := [i, 1] + p;
    assert q[1..] == [1] + p && q[2..] == p && q[1..][1..] == p;
    assert Valid(n.kids[i], q[1..]);
  }

  lemma {:induction false} ReturnsHasWitness(n: Node, names: set<string>) returns (p: Path)
    requires ReturnsIdentity(n, names)
    ensures Witness(n, names, p)
    decreases n
  {
    if n.kind.Column? {
      p := [];
    } else if n.kind.Case? {
      if i :| 0 <= i < |n.kids| && IfEntry(n, i) && ReturnsIdentity(n.kids[i].kids[1], names) {
        var q := ReturnsHasWitness(n.kids[i].kids[1], names);
        p := [i, 1] + q;
        ConsBranchWitness(n, names, i, q);
      } else {
        var q := ReturnsHasWitness(n.kids[|n.kids| - 1], names);
        p := [|n.kids| - 1] + q;
        ConsWitness(n, names, |n.kids| - 1, q);
      }
    } else {
      var i :| 0 <= i < |n.kids| && ReturnsIdentity(n.kids[i], names) && (n.kind.Alias? ==> i == 0);
      var q := ReturnsHasWitness(n.kids[i], names);
      p := [i] + q;
      ConsWitness(n, names, i, q);
    }
  }

  lemma {:induction false} WitnessReturns(n: Node, names: set<string>, p: Path)
    requires Witness(n, names, p)
    ensures ReturnsIdentity(n, names)
    decreases |p|
  {
    if p != [] {
      if n.kind.Case? {
        if n.kind.hasDefault && p[0] == |n.kids| - 1 && Carries(n.kids[p[0]], p[1..]) {
          WitnessReturns(n.kids[p[0]], names, p[1..]);
        } else {
          var q := p[1..];
          assert Valid(n.kids[p[0]], q) && q[0] == 1 && q[1..] == p[2..];
          assert At(n, p) == At(n.kids[p[0]], q) == At(n.kids[p[0]].kids[1], q[1..]);
          WitnessReturns(n.kids[p[0]].kids[1], names, p[2..]);
        }
      } else {
        WitnessReturns(n.kids[p[0]], names, p[1..]);
      }
    }
  }

  /** An expression returns identity exactly when one of its columns is carried through to its value. */
  lemma ReturnsIffCarried(n: Node, names: set<string>)
    ensures ReturnsIdentity(n, names) <==> exists p :: Witness(n, names, p)
  {
    if ReturnsIdentity(n, names) {
      var p := ReturnsHasWitness(n, names);
    }
    if p :| Witness(n, names, p) {
      WitnessReturns(n, names, p);
    }
  }

  /** On the way down to a carried value no node is a test or a count. */
  lemma {:induction false} CarriedPathIsOpen(n: Node, p: Path, k: nat)
    requires Valid(n, p) && Carries(n, p) && k < |p|
    ensures Valid(n, p[..k]) && !At(n, p[..k]).kind.Predicate? && !At(n, p[..k]).kind.Count?
    decreases |p|
  {
    if k > 0 {
      assert p[..k][1..] == p[1..][..k - 1];
      if n.kind.Case? && !(n.kind.hasDefault && p[0] == |n.kids| - 1 && Carries(n.kids[p[0]], p[1..])) {
        var when := n.kids[p[0]];
        if k > 1 {
          assert p[1..][..k - 1][1..] == p[2..][..k - 2];
          CarriedPathIsOpen(when.kids[1], p[2..], k - 2);
        }
      } else {
        CarriedPathIsOpen(n.kids[p[0]], p[1..], k - 1);
      }
    }
  }

  // ------------------------------------------------------------------
  // Upwards: where a column sits
  // ------------------------------------------------------------------

  /** Whether a Count is a COUNT(DISTINCT ..). */
  predicate DistinctCount(n: Node) {
    n.kind.Count? && ((n.kids != [] && n.kids[0].kind.Distinct?) || n.kind.distinctFlag)
  }

  /** A clause boundary: the column is being used, not merely counted. */
  predicate Boundary(k: Kind) { k.Select? || k.Where? || k.Join? || k.Group? || k.Order? }

  /** The nearest Count or boundary above p is a COUNT(DISTINCT ..). */
  ghost predicate InsideCountDistinct(t: Node, p: Path)
    requires Valid(t, p)
  {
    exists k :: 0 <= k < |p| && Valid(t, p[..k]) && DistinctCount(At(t, p[..k]))
      && forall j :: k < j < |p| && Valid(t, p[..j]) ==> !At(t, p[..j]).kind.Count? && !Boundary(At(t, p[..j]).kind)
  }

  /** Some aggregate, a Count included, stands above p within its own SELECT. */
  ghost predicate InsideAggregate(t: Node, p: Path)
    requires Valid(t, p)
  {
    exists k :: 0 <= k < |p| && Valid(t, p[..k]) && (At(t, p[..k]).kind.Aggregate? || At(t, p[..k]).kind.Count?)
      && forall j :: k < j < |p| && Valid(t, p[..j]) ==> !At(t, p[..j]).kind.Select?
  }

  ghost predicate InsideDisallowedAggregate(t: Node, p: Path)
    requires Valid(t, p)
  {
    !InsideCountDistinct(t, p) && InsideAggregate(t, p)
  }

  /** `a.c = b.c`: an equality between two columns of the same name as the one at p. */
  predicate JoinEquality(t: Node, p: Path)
    requires Valid(t, p) && At(t, p).kind.Column?
  {
    p != [] && Valid(t, p[..|p| - 1]) &&
    var parent := At(t, p[..|p| - 1]);
    parent.kind == Predicate(Eq) && |parent.kids| == 2
    && parent.kids[0].kind.Column? && parent.kids[1].kind.Column?
    && parent.kids[0].kind.name == parent.kids[1].kind.name == At(t, p).kind.name
  }

  /** _is_inside_count_distinct. */
  method IsInsideCountDistinct(t: Node, p: Path) returns (r: bool)
    requires Valid(t, p)
    ensures r <==> InsideCountDistinct(t, p)
  {
    var k := |p|;
    while k > 0
      invariant 0 <= k <= |p|
      invariant forall j :: k <= j < |p| && Valid(t, p[..j]) ==>
                !At(t, p[..j]).kind.Count? && !Boundary(At(t, p[..j]).kind)
    {
      k := k - 1;
      ValidPrefix(t, p, k);
      var node := At(t, p[..k]);
      if node.kind.Count? {
        r := DistinctCount(node);
        return;
      }
      if Boundary(node.kind) {
        r := false;
        return;
      }
    }
    r := false;
  }

  /** _is_inside_disallowed_aggregate. */
  method IsInsideDisallowedAggregate(t: Node, p: Path) returns (r: bool)
    requires Valid(t, p)
    ensures r <==> InsideDisallowedAggregate(t, p)
  {
    var counted := IsInsideCountDistinct(t, p);
    if counted { return false; }
    var k := |p|;
    while k > 0
      invariant 0 <= k <= |p|
      invariant forall j :: k <= j < |p| && Valid(t, p[..j]) ==>
        !At(t, p[..j]).kind.Aggregate? && !At(t, p[..j]).kind.Count? && !At(t, p[..j]).kind.Select?
    {
      k := k - 1;
      ValidPrefix(t, p, k);
      var parent := At(t, p[..k]);
      if parent.kind.Select? { return false; }
      if parent.kind.Aggregate? || parent.kind.Count? { return true; }
    }
    r := false;
  }

  /** _enclosing_select, as the position of that Select. */
  method EnclosingSelect(t: Node, p: Path) returns (r: Option<Path>)
    requires Valid(t, p)
    ensures r.Some? ==> |r.value| < |p| && r.value == p[..|r.value|] && NearestSelect(t, p, |r.value|)
    ensures r.None? ==> forall k: nat :: !NearestSelect(t, p, k)
  {
    var k := |p|;
    while k > 0
      invariant 0 <= k <= |p|
      invariant forall j :: k <= j < |p| && Valid(t, p[..j]) ==> !At(t, p[..j]).kind.Select?
    {
      k := k - 1;
      ValidPrefix(t, p, k);
      if At(t, p[..k]).kind.Select? { return Some(p[..k]); }
    }
    r := None;
  }

  // ------------------------------------------------------------------
  // The rule
  // ------------------------------------------------------------------

  /** The positions whose Selects feed the result set directly. */
  predicate Outermost(t: Node, s: Path) {
    match t.kind
    case Union => |s| == 1 && s[0] < 2 && s[0] < |t.kids| && t.kids[s[0]].kind.Select?
    case Select(_) => s == []
    case _ => FirstSelect(t) == Some(s)
  }

  /** tree.find(Select): the first Select the traversal meets. */
  function FirstSelect(t: Node): Option<Path> { FirstSelectIn(t, Positions(t)) }

  function FirstSelectIn(t: Node, ps: seq<Path>): Option<Path> {
    if ps == [] then None
    else if Valid(t, ps[0]) && At(t, ps[0]).kind.Select? then Some(ps[0])
    else FirstSelectIn(t, ps[1..])
  }

  /** c is a projection or a GROUP BY expression of the Select at s. */
  predicate Clause(t: Node, s: Path, c: Path) {
    Valid(t, s) && At(t, s).kind.Select? && Valid(t, c) && |s| < |c| && c[..|s|] == s &&
    if c[|s|] < At(t, s).kind.projections then |c| == |s| + 1
    else |c| == |s| + 2 && c[|s|] < |At(t, s).kids| && At(t, s).kids[c[|s|]].kind.Group?
  }

  /** The position holds an alias of an expression that returns identity. */
  predicate NamesIdentity(t: Node, p: Path) {
    Valid(t, p) && At(t, p).kind.Alias? && At(t, p).kids != [] && ReturnsIdentity(At(t, p).kids[0], IDENTITY)
  }

  function AliasAt(t: Node, p: Path): string
    requires NamesIdentity(t, p)
  {
    At(t, p).kind.alias
  }

  /** Names aliased to an expression that returns identity. */
  function DerivedAmong(t: Node, ps: seq<Path>): set<string> {
    set p | p in ps && NamesIdentity(t, p) :: AliasAt(t, p)
  }

  function Derived(t: Node): set<string> { DerivedAmong(t, Positions(t)) }

  /** What the rule asks of the column at p. */
  ghost predicate ColumnAllowed(t: Node, derived: set<string>, p: Path)
    requires Valid(t, p) && At(t, p).kind.Column?
  {
    var name := At(t, p).kind.name;
    name in IDENTITY + derived ==>
      && (name in IDENTITY ==> !InsideDisallowedAggregate(t, p))
      && (!(name in IDENTITY && (InsideCountDistinct(t, p) || JoinEquality(t, p))) ==>
            exists k: nat :: NearestSelect(t, p, k)
              && (Outermost(t, p[..k]) ==>
                    forall c :: Clause(t, p[..k], c) && |c| <= |p| && p[..|c|] == c ==>
                           !ReturnsIdentity(At(t, c), IDENTITY + derived)))
  }

  ghost predicate Accepts(t: Node) {
    forall p :: Valid(t, p) && At(t, p).kind.Column? ==> ColumnAllowed(t, Derived(t), p)
  }

  method DerivedNames(t: Node) returns (derived: set<string>)
    ensures derived == Derived(t)
  {
    derived := {};
    var ps := Positions(t);
    for i := 0 to |ps|
      invariant derived == DerivedAmong(t, ps[..i])
    {
      DerivedStep(t, ps, i);
      if NamesIdentity(t, ps[i]) {
        derived := derived + {AliasAt(t, ps[i])};
      }
    }
    assert ps[..|ps|] == ps;
  }

  lemma DerivedStep(t: Node, ps: seq<Path>, i: nat)
    requires i < |ps|
    ensures DerivedAmong(t, ps[..i + 1])
         == DerivedAmong(t, ps[..i]) + if NamesIdentity(t, ps[i]) then {AliasAt(t, ps[i])} else {}
  {
    assert ps[..i + 1] == ps[..i] + [ps[i]];
    forall n ensures n in DerivedAmong(t, ps[..i + 1]) <==>
                     n in DerivedAmong(t, ps[..i]) || (NamesIdentity(t, ps[i]) && n == AliasAt(t, ps[i]))
    {
      if NamesIdentity(t, ps[i]) && n == AliasAt(t, ps[i]) {
        assert ps[i] in ps[..i + 1];
      }
    }
  }

  /** Whether some clause of the Select at s that holds the column at p returns identity. */
  method ReturnedByClause(t: Node, names: set<string>, s: Path, p: Path) returns (r: bool)
    requires Valid(t, p) && |s| < |p| && p[..|s|] == s
    ensures r <==> exists c :: Clause(t, s, c) && |c| <= |p| && p[..|c|] == c && ReturnsIdentity(At(t, c), names)
  {
    r := false;
    for n := 0 to |p| + 1
      invariant r <==>
        exists c :: Clause(t, s, c) && |c| < n && |c| <= |p| && p[..|c|] == c && ReturnsIdentity(At(t, c), names)
    {
      ValidPrefix(t, p, n);
      if Clause(t, s, p[..n]) && ReturnsIdentity(At(t, p[..n]), names) {
        r := true;
      }
    }
  }

  method CheckColumn(t: Node, derived: set<string>, p: Path) returns (ok: bool)
    requires Valid(t, p) && At(t, p).kind.Column?
    ensures ok <==> ColumnAllowed(t, derived, p)
  {
    var name := At(t, p).kind.name;
    if name !in IDENTITY + derived { return true; }
    if name in IDENTITY {
      var bad := IsInsideDisallowedAggregate(t, p);
      if bad { return false; }
      var counted := IsInsideCountDistinct(t, p);
      if counted || JoinEquality(t, p) { return true; }
    }
    var select := EnclosingSelect(t, p);
    if select.None? { return false; }
    var k := |select.value|;
    forall k': nat | NearestSelect(t, p, k') ensures k' == k {
      NearestSelectUnique(t, p, k, k');
    }
    if !Outermost(t, select.value) { return true; }
    var returned := ReturnedByClause(t, IDENTITY + derived, select.value, p);
    ok := !returned;
  }

  /** _validate_identity_columns. */
  method ValidateIdentityColumns(t: Node) returns (ok: bool)
    ensures ok <==> Accepts(t)
  {
    var derived := DerivedNames(t);
    var ps := Positions(t);
    for i := 0 to |ps|
      invariant forall j :: 0 <= j < i && Valid(t, ps[j]) && At(t, ps[j]).kind.Column? ==>
                ColumnAllowed(t, derived, ps[j])
    {
      if Valid(t, ps[i]) && At(t, ps[i]).kind.Column? {
        var allowed := CheckColumn(t, derived, ps[i]);
        if !allowed { return false; }
      }
    }
    forall p | Valid(t, p) && At(t, p).kind.Column? ensures ColumnAllowed(t, derived, p) {
      PositionsAreAll(t, p);
      var i :| 0 <= i < |ps| && ps[i] == p;
    }
    ok := true;
  }

  // ------------------------------------------------------------------
  // Soundness: the two directions agree
  // ------------------------------------------------------------------

  /** No SELECT is nested in this expression. */
  ghost predicate SelectFree(n: Node) {
    forall q :: Valid(n, q) ==> !At(n, q).kind.Select?
  }

  /** The way down to q meets no SELECT. */
  ghost predicate PastNoSelect(n: Node, q: Path)
    requires Valid(n, q)
  {
    forall i :: 0 <= i < |q| && Valid(n, q[..i]) ==> !At(n, q[..i]).kind.Select?
  }

  /** Between a clause's Select and a column carried past no SELECT there is no test or count either. */
  lemma WalkFromWitness(t: Node, s: Path, c: Path, q: Path)
    requires Clause(t, s, c) && Valid(t, c + q) && Valid(At(t, c), q) && Carries(At(t, c), q)
    requires PastNoSelect(At(t, c), q) && At(t, c + q) == At(At(t, c), q)
    ensures NearestSelect(t, c + q, |s|)
    ensures At(t, c + q).kind.Column? ==> !InsideCountDistinct(t, c + q) && !JoinEquality(t, c + q)
  {
    var p := c + q;
    forall j | |s| < j < |p| && Valid(t, p[..j])
      ensures !At(t, p[..j]).kind.Select?
      ensures !At(t, p[..j]).kind.Count?
      ensures !At(t, p[..j]).kind.Predicate?
    {
      if j < |c| {
        assert p[..j] == s + [c[|s|]];
        AtAppend(t, s, [c[|s|]]);
      } else {
        var i := j - |c|;
        assert p[..j] == c + q[..i];
        CarriedPathIsOpen(At(t, c), q, i);
        AtAppend(t, c, q[..i]);
        assert Valid(At(t, c), q[..i]);
      }
    }
    assert p[..|s|] == s;
    assert NearestSelect(t, p, |s|);
    forall k | 0 <= k < |p| && Valid(t, p[..k]) && DistinctCount(At(t, p[..k]))
      ensures k < |s| && Boundary(At(t, p[..|s|]).kind)
    {
    }
  }

  /** An identity name carried past no SELECT in a clause of an outermost SELECT is refused. */
  lemma CarriedColumnRefused(t: Node, s: Path, c: Path, q: Path)
    requires Outermost(t, s) && Clause(t, s, c)
    requires Witness(At(t, c), IDENTITY + Derived(t), q) && PastNoSelect(At(t, c), q)
    ensures Valid(t, c + q) && At(t, c + q).kind.Column? && !ColumnAllowed(t, Derived(t), c + q)
  {
    var p := c + q;
    AtAppend(t, c, q);
    WalkFromWitness(t, s, c, q);
    WitnessReturns(At(t, c), IDENTITY + Derived(t), q);
    assert p[..|s|] == s && p[..|c|] == c;
    forall k: nat | NearestSelect(t, p, k) ensures k == |s| {
      NearestSelectUnique(t, p, k, |s|);
    }
  }

  /**
   * In an accepted query no projection or GROUP BY expression of an outermost SELECT returns an
   * identity column, or a name aliased to one, except through a SELECT nested in that expression.
   */
  lemma IdentityRuleSound(t: Node, s: Path, c: Path)
    requires Accepts(t) && Outermost(t, s) && Clause(t, s, c)
    ensures forall q :: Witness(At(t, c), IDENTITY + Derived(t), q) ==> !PastNoSelect(At(t, c), q)
    ensures SelectFree(At(t, c)) ==> !ReturnsIdentity(At(t, c), IDENTITY + Derived(t))
  {
    forall q | Witness(At(t, c), IDENTITY + Derived(t), q) ensures !PastNoSelect(At(t, c), q) {
      if PastNoSelect(At(t, c), q) { CarriedColumnRefused(t, s, c, q); }
    }
    if ReturnsIdentity(At(t, c), IDENTITY + Derived(t)) {
      var q := ReturnsHasWitness(At(t, c), IDENTITY + Derived(t));
      assert !PastNoSelect(At(t, c), q);
    }
  }

  /** A COUNT over DISTINCT, in either spelling. */
  ghost predicate CountsDistinct(n: Node) {
    n.kind == Count(true) || (n.kind == Count(false) && n.kids != [] && n.kids[0].kind == Distinct)
  }

  /** Between the node k steps down the path and its end stands neither a clause of a query nor a COUNT. */
  ghost predicate NothingBetween(t: Node, p: Path, k: nat) {
    forall j :: k < j < |p| && Valid(t, p[..j]) ==>
      match At(t, p[..j]).kind
      case Select(_) => false
      case Where => false
      case Join(_) => false
      case Group => false
      case Order => false
      case Count(_) => false
      case _ => true
  }

  /** No customer_key stands under an aggregate of its own SELECT, unless a COUNT(DISTINCT) is the nearest. */
  ghost predicate IdentityUnaggregated(t: Node) {
    forall p :: Valid(t, p) && At(t, p).kind.Column? && At(t, p).kind.name == "customer_key" && InsideAggregate(t, p)
      ==> Counted(t, p)
  }

  ghost predicate Counted(t: Node, p: Path) {
    exists k :: 0 <= k < |p| && Valid(t, p[..k]) && CountsDistinct(At(t, p[..k])) && NothingBetween(t, p, k)
  }

  lemma CountedIff(t: Node, p: Path)
    requires Valid(t, p)
    ensures InsideCountDistinct(t, p) <==> Counted(t, p)
  {
    if InsideCountDistinct(t, p) {
      var k :| 0 <= k < |p| && Valid(t, p[..k]) && DistinctCount(At(t, p[..k])) && (forall j ::
        k < j < |p| && Valid(t, p[..j]) ==> !At(t, p[..j]).kind.Count? && !Boundary(At(t, p[..j]).kind));
      assert CountsDistinct(At(t, p[..k])) && NothingBetween(t, p, k);
    }
    if Counted(t, p) {
      var k :| 0 <= k < |p| && Valid(t, p[..k]) && CountsDistinct(At(t, p[..k])) && NothingBetween(t, p, k);
      assert DistinctCount(At(t, p[..k]));
    }
  }

  lemma UnaggregatedIff(t: Node)
    ensures IdentityUnaggregated(t) <==>
            forall p :: Valid(t, p) && At(t, p).kind.Column? && At(t, p).kind.name in IDENTITY ==>
              !InsideDisallowedAggregate(t, p)
  {
    forall p | Valid(t, p) ensures InsideDisallowedAggregate(t, p) <==> InsideAggregate(t, p) && !Counted(t, p) {
      CountedIff(t, p);
    }
    if IdentityUnaggregated(t) {
      forall p | Valid(t, p) && At(t, p).kind.Column? && At(t, p).kind.name in IDENTITY
        ensures !InsideDisallowedAggregate(t, p)
      {
        assert At(t, p).kind.name == "customer_key";
      }
    }
  }

  ghost predicate AliasesIdentity(t: Node, p: Path, x: string) {
    && Valid(t, p) && At(t, p).kind == Alias(x) && At(t, p).kids != []
    && ReturnsIdentity(At(t, p).kids[0], {"customer_key"})
  }

  /** customer_key, and every name the query gives as an alias to an expression that returns it. */
  ghost predicate IdentityNames(t: Node, names: set<string>) {
    forall x :: x in names <==> x == "customer_key" || exists p :: AliasesIdentity(t, p, x)
  }

  lemma NamesAre(t: Node)
    ensures IdentityNames(t, IDENTITY + Derived(t))
  {
    forall x ensures x in Derived(t) <==> exists p :: AliasesIdentity(t, p, x) {
      if p :| AliasesIdentity(t, p, x) {
        PositionsAreAll(t, p);
        assert p in Positions(t) && NamesIdentity(t, p) && AliasAt(t, p) == x;
      }
      if x in Derived(t) {
        var p :| p in Positions(t) && NamesIdentity(t, p) && AliasAt(t, p) == x;
        assert AliasesIdentity(t, p, x);
      }
    }
  }

  lemma SameNames(t: Node, names: set<string>)
    requires IdentityNames(t, names)
    ensures names == IDENTITY + Derived(t)
  {
    NamesAre(t);
    forall x ensures x in names <==> x in IDENTITY + Derived(t) { }
  }

  /** An expression the SELECT projects or groups by. */
  ghost predicate ClauseOf(select: Node, e: Node)
    requires select.kind.Select?
  {
    var n := select.kind.projections;
    || (exists i :: 0 <= i < |select.kids| && i < n && select.kids[i] == e)
    || (exists i, j :: n <= i < |select.kids| && select.kids[i].kind.Group? && 0 <= j < |select.kids[i].kids|
                       && select.kids[i].kids[j] == e)
  }

  lemma ClausesAreFound(t: Node, s: Path, e: Node)
    requires Valid(t, s) && At(t, s).kind.Select? && ClauseOf(At(t, s), e)
    ensures exists c :: Clause(t, s, c) && At(t, c) == e
  {
    var select := At(t, s);
    var n := select.kind.projections;
    if i :| 0 <= i < |select.kids| && i < n && select.kids[i] == e {
      assert [i][1..] == [] && At(select, [i]) == e;
      AtAppend(t, s, [i]);
      assert Clause(t, s, s + [i]) && At(t, s + [i]) == e;
    } else {
      var i, j :| n <= i < |select.kids| && select.kids[i].kind.Group? && 0 <= j < |select.kids[i].kids|
                  && select.kids[i].kids[j] == e;
      TwoDown(select, i, j);
      AtAppend(t, s, [i, j]);
      assert Clause(t, s, s + [i, j]) && At(t, s + [i, j]) == e;
    }
  }

  lemma FoundIsClause(t: Node, s: Path, c: Path)
    requires Clause(t, s, c)
    ensures ClauseOf(At(t, s), At(t, c))
  {
    var select, q := At(t, s), c[|s|..];
    assert c == s + q;
    AtAppend(t, s, q);
    if |q| == 1 {
      assert q == [q[0]] && q[1..] == [] && select.kids[q[0]] == At(t, c);
    } else {
      assert q == [q[0], q[1]];
      TwoDown(select, q[0], q[1]);
      assert select.kids[q[0]].kids[q[1]] == At(t, c);
    }
  }

  /** Nothing the SELECT projects or groups by returns one of these names. */
  ghost predicate ReturnsNone(select: Node, names: set<string>)
    requires select.kind.Select?
  {
    forall e :: ClauseOf(select, e) ==> !ReturnsIdentity(e, names)
  }

  /** No SELECT is nested in what the SELECT projects or groups by. */
  ghost predicate NestsNone(select: Node)
    requires select.kind.Select?
  {
    forall e :: ClauseOf(select, e) ==> SelectFree(e)
  }

  /** No looked-for column stands outside every SELECT, unless it is counted or equated with its like. */
  ghost predicate NoneOutside(t: Node, names: set<string>) {
    forall p :: Valid(t, p) && At(t, p).kind.Column? && At(t, p).kind.name in names && !UnderSelect(t, p) ==>
      At(t, p).kind.name == "customer_key" && (EquatedWithItsLike(t, p) || Counted(t, p))
  }

  ghost predicate UnderSelect(t: Node, p: Path) {
    exists k :: 0 <= k < |p| && Valid(t, p[..k]) && At(t, p[..k]).kind.Select?
  }

  /** Its parent is `a.c = b.c`, and c is its name. */
  ghost predicate EquatedWithItsLike(t: Node, p: Path)
    requires Valid(t, p) && At(t, p).kind.Column?
  {
    exists a, b :: p != [] && EquatesAt(t, p[..|p| - 1], Column(a, At(t, p).kind.name), Column(b, At(t, p).kind.name))
  }

  ghost predicate EquatesAt(t: Node, q: Path, left: Kind, right: Kind) {
    Valid(t, q) && At(t, q).kind == Predicate(Eq) && |At(t, q).kids| == 2
    && At(t, q).kids[0].kind == left && At(t, q).kids[1].kind == right
  }

  lemma JoinEqualityIs(t: Node, p: Path)
    requires Valid(t, p) && At(t, p).kind.Column?
    ensures JoinEquality(t, p) <==> EquatedWithItsLike(t, p)
  {
    if JoinEquality(t, p) {
      var kids := At(t, p[..|p| - 1]).kids;
      assert EquatesAt(t, p[..|p| - 1], Column(kids[0].kind.table, At(t, p).kind.name),
                                        Column(kids[1].kind.table, At(t, p).kind.name));
    }
  }

  /** What an accepted query satisfies, and what suffices, in terms of its outermost SELECTs. */
  lemma AcceptedIff(t: Node)
    requires forall s :: Outermost(t, s) ==> Valid(t, s) && At(t, s).kind.Select? && NestsNone(At(t, s))
    ensures Accepts(t) <==>
            && IdentityUnaggregated(t) && NoneOutside(t, IDENTITY + Derived(t))
            && forall s :: Outermost(t, s) ==> ReturnsNone(At(t, s), IDENTITY + Derived(t))
  {
    var names := IDENTITY + Derived(t);
    UnaggregatedIff(t);
    if Accepts(t) {
      forall p | Valid(t, p) && At(t, p).kind.Column? && At(t, p).kind.name in names
        ensures At(t, p).kind.name in IDENTITY ==> !InsideDisallowedAggregate(t, p)
        ensures !UnderSelect(t, p) ==> At(t, p).kind.name in IDENTITY && (Counted(t, p) || EquatedWithItsLike(t, p))
      {
        CountedIff(t, p);
        AllowedColumn(t, p);
      }
      forall s | Outermost(t, s) ensures ReturnsNone(At(t, s), names) {
        forall e | ClauseOf(At(t, s), e) ensures !ReturnsIdentity(e, names) {
          ClausesAreFound(t, s, e);
          var c :| Clause(t, s, c) && At(t, c) == e;
          IdentityRuleSound(t, s, c);
        }
      }
    }
    if && IdentityUnaggregated(t) && NoneOutside(t, names)
       && forall s :: Outermost(t, s) ==> ReturnsNone(At(t, s), names)
    {
      forall p | Valid(t, p) && At(t, p).kind.Column? ensures ColumnAllowed(t, Derived(t), p) {
        QuietColumnAllowed(t, p);
      }
    }
  }

  lemma AllowedColumn(t: Node, p: Path)
    requires Accepts(t) && Valid(t, p) && At(t, p).kind.Column? && At(t, p).kind.name in IDENTITY + Derived(t)
    ensures At(t, p).kind.name in IDENTITY ==> !InsideDisallowedAggregate(t, p)
    ensures !UnderSelect(t, p) ==>
              At(t, p).kind.name in IDENTITY && (InsideCountDistinct(t, p) || EquatedWithItsLike(t, p))
  {
    JoinEqualityIs(t, p);
    assert ColumnAllowed(t, Derived(t), p);
  }

  lemma QuietColumnAllowed(t: Node, p: Path)
    requires Valid(t, p) && At(t, p).kind.Column?
    requires IdentityUnaggregated(t) && NoneOutside(t, IDENTITY + Derived(t))
    requires forall s :: Outermost(t, s) ==>
               Valid(t, s) && At(t, s).kind.Select? && ReturnsNone(At(t, s), IDENTITY + Derived(t))
    ensures ColumnAllowed(t, Derived(t), p)
  {
    UnaggregatedIff(t);
    CountedIff(t, p);
    JoinEqualityIs(t, p);
    if UnderSelect(t, p) {
      var k := HasNearestSelect(t, p, |p|);
      assert NearestSelect(t, p, k);
      if Outermost(t, p[..k]) {
        forall c | Clause(t, p[..k], c) ensures !ReturnsIdentity(At(t, c), IDENTITY + Derived(t)) {
          FoundIsClause(t, p[..k], c);
        }
      }
    }
  }

  lemma {:induction false} HasNearestSelect(t: Node, p: Path, n: nat) returns (k: nat)
    requires Valid(t, p) && UnderSelect(t, p) && 1 <= n <= |p|
    requires forall j :: n <= j < |p| && Valid(t, p[..j]) ==> !At(t, p[..j]).kind.Select?
    ensures NearestSelect(t, p, k)
  {
    ValidPrefix(t, p, n - 1);
    if At(t, p[..n - 1]).kind.Select? {
      k := n - 1;
    } else {
      k := HasNearestSelect(t, p, n - 1);
    }
  }

  /**
   * For a single SELECT whose projections and grouping nest no SELECT, the rule accepts exactly when
   * identity is under no aggregate but COUNT(DISTINCT) and neither returns it or a derived name.
   */
  lemma IdentityRuleExact(t: Node, names: set<string>)
    requires t.kind.Select? && NestsNone(t) && IdentityNames(t, names)
    ensures Accepts(t) <==> IdentityUnaggregated(t) && ReturnsNone(t, names)
  {
    SameNames(t, names);
    forall p | Valid(t, p) && At(t, p).kind.Column? ensures UnderSelect(t, p) {
      assert p[..0] == [];
    }
    AcceptedIff(t);
    assert Outermost(t, []);
  }

  /** For a UNION, the same of each side that is a SELECT, and of what stands beside the sides. */
  lemma UnionRuleExact(t: Node, names: set<string>)
    requires t.kind.Union? && IdentityNames(t, names)
    requires forall i :: 0 <= i < 2 && i < |t.kids| && t.kids[i].kind.Select? ==> NestsNone(t.kids[i])
    ensures Accepts(t) <==>
            && IdentityUnaggregated(t) && NoneOutside(t, names)
            && forall i :: 0 <= i < 2 && i < |t.kids| && t.kids[i].kind.Select? ==> ReturnsNone(t.kids[i], names)
  {
    SameNames(t, names);
    forall s | Outermost(t, s) ensures s == [s[0]] && Valid(t, s) && At(t, s) == t.kids[s[0]] {
      assert s[1..] == [];
    }
    AcceptedIff(t);
    forall i | 0 <= i < 2 && i < |t.kids| && t.kids[i].kind.Select?
      ensures Outermost(t, [i]) && At(t, [i]) == t.kids[i]
    {
      assert [i][1..] == [];
    }
  }

  /** Whatever the sides nest: no projection or grouping of a side without a SELECT in it returns identity. */
  lemma UnionSidesReturnNone(t: Node, names: set<string>, i: nat, e: Node)
    requires Accepts(t) && t.kind.Union? && i < 2 && i < |t.kids| && t.kids[i].kind.Select?
    requires IdentityNames(t, names) && ClauseOf(t.kids[i], e) && SelectFree(e)
    ensures !ReturnsIdentity(e, names)
  {
    SameNames(t, names);
    assert [i][1..] == [] && At(t, [i]) == t.kids[i] && Outermost(t, [i]);
    ClausesAreFound(t, [i], e);
    var c :| Clause(t, [i], c) && At(t, c) == e;
    IdentityRuleSound(t, [i], c);
  }

  lemma {:induction false} FirstIn(t: Node, ps: seq<Path>, i: nat)
    requires i < |ps| && Valid(t, ps[i]) && At(t, ps[i]).kind.Select?
    requires forall j :: 0 <= j < i && Valid(t, ps[j]) ==> !At(t, ps[j]).kind.Select?
    ensures FirstSelectIn(t, ps) == Some(ps[i])
    decreases i
  {
    if i > 0 { FirstIn(t, ps[1..], i - 1); }
  }

  lemma FirstSelectIs(t: Node, s: Path)
    requires Valid(t, s) && At(t, s).kind.Select?
    requires forall q :: Valid(t, q) && Sooner(q, s) ==> !At(t, q).kind.Select?
    ensures FirstSelect(t) == Some(s)
  {
    var ps := Positions(t);
    PositionsAreAll(t, s);
    var i :| 0 <= i < |ps| && ps[i] == s;
    LevelsInOrder(t, Height(t));
    FirstIn(t, ps, i);
  }

  /** For any other root, such as a query in parentheses, the same of the first SELECT met breadth first. */
  lemma OtherRootRuleExact(t: Node, names: set<string>, s: Path)
    requires !t.kind.Union? && !t.kind.Select? && Valid(t, s) && At(t, s).kind.Select? && NestsNone(At(t, s))
    requires IdentityNames(t, names) && forall q :: Valid(t, q) && Sooner(q, s) ==> !At(t, q).kind.Select?
    ensures Accepts(t) <==> IdentityUnaggregated(t) && NoneOutside(t, names) && ReturnsNone(At(t, s), names)
  {
    SameNames(t, names);
    FirstSelectIs(t, s);
    AcceptedIff(t);
    assert Outermost(t, s);
  }
}
