/** The grain rule: on a view where a customer repeats, only COUNT(DISTINCT ..) counts customers. */
module CustomerGrain {
  import opened Wrappers
  import opened Seqs
  import opened SqlAst
  import opened IdentityRule
  import opened QueryShape
  import Repeats

  const CUSTOMER_GRAIN_VIEWS: set<string> := {"v_customer_opco_monthly", "v_customer_category_monthly"}

  /** The node at p belongs to the Select at s: that is its parent_select. */
  ghost predicate BelongsTo(t: Node, p: Path, s: Path) {
    Valid(t, p) && |s| < |p| && p[..|s|] == s && NearestSelect(t, p, |s|)
  }

  /** The Select at s reads a customer-grain view directly. */
  ghost predicate ReadsGrainView(t: Node, s: Path) {
    exists p :: BelongsTo(t, p, s) && At(t, p).kind.Table? && At(t, p).kind.name in CUSTOMER_GRAIN_VIEWS
  }

  /** COUNT c of a SELECT s that reads a grain view. */
  ghost predicate GrainCount(t: Node, s: Path, c: Path) {
    && Valid(t, s) && At(t, s).kind.Select? && ReadsGrainView(t, s)
    && BelongsTo(t, c, s) && At(t, c).kind.Count?
  }

  /** Every COUNT of a Select that reads a customer-grain view is a COUNT(DISTINCT ..). */
  ghost predicate GrainAccepts(t: Node) {
    forall s, c :: GrainCount(t, s, c) ==> DistinctCount(At(t, c))
  }

  /** The Select a node belongs to. */
  method ParentSelect(t: Node, p: Path) returns (s: Option<Path>)
    requires Valid(t, p)
    ensures s.Some? ==> BelongsTo(t, p, s.value)
    ensures forall s' :: BelongsTo(t, p, s') ==> s == Some(s')
  {
    s := EnclosingSelect(t, p);
    if s.Some? {
      forall s' | BelongsTo(t, p, s') ensures s' == s.value {
        NearestSelectUnique(t, p, |s.value|, |s'|);
      }
    } else {
      forall s' ensures !BelongsTo(t, p, s') {
      }
    }
  }

  method SelectReadsGrainView(t: Node, s: Path, ps: seq<Path>) returns (hit: bool)
    requires ps == Positions(t)
    ensures hit <==> ReadsGrainView(t, s)
  {
    for i := 0 to |ps|
      invariant forall j :: 0 <= j < i && BelongsTo(t, ps[j], s) && At(t, ps[j]).kind.Table? ==>
                  At(t, ps[j]).kind.name !in CUSTOMER_GRAIN_VIEWS
    {
      var p := ps[i];
      if Valid(t, p) && At(t, p).kind.Table? && At(t, p).kind.name in CUSTOMER_GRAIN_VIEWS {
        var parent := ParentSelect(t, p);
        if parent == Some(s) { return true; }
      }
    }
    forall p | BelongsTo(t, p, s) && At(t, p).kind.Table? ensures At(t, p).kind.name !in CUSTOMER_GRAIN_VIEWS {
      PositionsAreAll(t, p);
      var j :| 0 <= j < |ps| && ps[j] == p;
    }
    hit := false;
  }

  method PlainCountOf(t: Node, s: Path, ps: seq<Path>) returns (found: bool)
    requires ps == Positions(t)
    ensures found <==> exists c :: BelongsTo(t, c, s) && At(t, c).kind.Count? && !DistinctCount(At(t, c))
  {
    for i := 0 to |ps|
      invariant forall j :: 0 <= j < i && BelongsTo(t, ps[j], s) && At(t, ps[j]).kind.Count? ==>
                DistinctCount(At(t, ps[j]))
    {
      var c := ps[i];
      if Valid(t, c) && At(t, c).kind.Count? && !DistinctCount(At(t, c)) {
        var parent := ParentSelect(t, c);
        if parent == Some(s) { return true; }
      }
    }
    forall c | BelongsTo(t, c, s) && At(t, c).kind.Count? ensures DistinctCount(At(t, c)) {
      PositionsAreAll(t, c);
      var j :| 0 <= j < |ps| && ps[j] == c;
    }
    found := false;
  }

  /** _validate_customer_grain. */
  method ValidateCustomerGrain(t: Node) returns (ok: bool)
    ensures ok <==> GrainAccepts(t)
  {
    var ps := Positions(t);
    for i := 0 to |ps|
      invariant forall j, c :: 0 <= j < i && GrainCount(t, ps[j], c) ==> DistinctCount(At(t, c))
    {
      if Valid(t, ps[i]) && At(t, ps[i]).kind.Select? {
        var hit := SelectReadsGrainView(t, ps[i], ps);
        if hit {
          var plain := PlainCountOf(t, ps[i], ps);
          if plain {
            ghost var c :| BelongsTo(t, c, ps[i]) && At(t, c).kind.Count? && !DistinctCount(At(t, c));
            assert GrainCount(t, ps[i], c);
            return false;
          }
        }
      }
    }
    forall s, c | GrainCount(t, s, c) ensures DistinctCount(At(t, c)) {
      PositionsAreAll(t, s);
      var j :| 0 <= j < |ps| && ps[j] == s;
    }
    ok := true;
  }

  // ------------------------------------------------------------------
  // What the rule achieves
  // ------------------------------------------------------------------

  /** The modelled SQL: the SELECT at s, under the names WITH binds around it, reads as a query. */
  ghost predicate Modelled(t: Node, s: Path, count: Node)
    requires Valid(t, s)
  {
    && CoreAt(t, s).Some? && AggOf(count).Some?
    && Repeats.Explicit(CoreAt(t, s).value.from) && Repeats.ExplicitTest(CoreAt(t, s).value.filter)
  }

  /** No multiplicity-sensitive aggregate in the FROM or WHERE of a SELECT is fed rows that may repeat. */
  predicate SettledSelect(t: Node, s: Path)
    requires Valid(t, s) && CoreAt(t, s).Some?
  {
    Repeats.Settled(CoreAt(t, s).value.from) && Repeats.SettledTest(CoreAt(t, s).value.filter)
  }

  /** Every table the SELECT reads is under a GROUP BY, an aggregate or a DISTINCT. */
  predicate ReducedSelect(t: Node, s: Path)
    requires Valid(t, s) && CoreAt(t, s).Some?
  {
    Repeats.Reduced(CoreAt(t, s).value.from)
  }

  ghost predicate CountIgnoresRepeats(t: Node, s: Path, count: Node)
    requires Valid(t, s) && CoreAt(t, s).Some? && AggOf(count).Some?
  {
    Repeats.IgnoresRepeats(CoreAt(t, s).value, AggOf(count).value)
  }

  /** No CTE in scope at s takes the name of a grain view. */
  predicate Unshadowed(t: Node, s: Path)
    requires Valid(t, s)
  {
    NamesAt(t, s).Keys !! CUSTOMER_GRAIN_VIEWS
  }

  /** A grain view stands in the FROM itself, so its rows reach the COUNT as they are. */
  lemma GrainViewRepeats(t: Node, s: Path)
    requires Valid(t, s) && CoreAt(t, s).Some? && ReadsGrainView(t, s) && Unshadowed(t, s)
    ensures !ReducedSelect(t, s)
  {
    var p :| BelongsTo(t, p, s) && At(t, p).kind.Table? && At(t, p).kind.name in CUSTOMER_GRAIN_VIEWS;
    var n, q := At(t, s), p[|s|..];
    assert p == s + q;
    AtAppend(t, s, q);
    forall j | 0 <= j < |q[1..]| && Valid(n.kids[q[0]], q[1..][..j])
      ensures !At(n.kids[q[0]], q[1..][..j]).kind.Select?
    {
      var r := q[..j + 1];
      assert r[0] == q[0] && r[1..] == q[1..][..j];
      AtAppend(t, s, r);
      assert p[..|s| + j + 1] == s + r;
    }
    OwnTableInFrom(n, BoundAt(t, map[], s), q);
  }

  /**
   * A COUNT of a SELECT that reads a grain view, accepted or not, ignores repeated rows exactly when
   * its FROM and WHERE are settled and it is a COUNT(DISTINCT ..), or no table reaches it unreduced.
   */
  lemma CountIgnoresRepeatsIff(t: Node, s: Path, c: Path)
    requires GrainCount(t, s, c) && Modelled(t, s, At(t, c))
    requires AggOf(At(t, c)).value.arg.Some? || SettledSelect(t, s)
    ensures CountIgnoresRepeats(t, s, At(t, c)) <==>
            SettledSelect(t, s) && (DistinctCount(At(t, c)) || ReducedSelect(t, s))
    ensures Unshadowed(t, s) ==> !ReducedSelect(t, s)
  {
    if Unshadowed(t, s) { GrainViewRepeats(t, s); }
    Repeats.IgnoresRepeatsIff(CoreAt(t, s).value, AggOf(At(t, c)).value);
  }

  /**
   * What the rule promises: in an accepted query a COUNT on a customer-grain view is independent of
   * row multiplicity. It is, for every meaning of its expressions, exactly when its FROM and WHERE,
   * with the CTEs they name, are settled.
   */
  lemma AcceptedCountIgnoresRepeatsIff(t: Node, s: Path, c: Path)
    requires GrainAccepts(t) && GrainCount(t, s, c) && Modelled(t, s, At(t, c))
    ensures CountIgnoresRepeats(t, s, At(t, c)) <==> SettledSelect(t, s)
  {
    assert DistinctCount(At(t, c));
    CountIgnoresRepeatsIff(t, s, c);
  }

  /** On queries whose grain-view SELECTs are all settled, the rule refuses exactly those a repeated row can change. */
  lemma GrainRuleIff(t: Node)
    requires forall s, c :: GrainCount(t, s, c) ==>
               Modelled(t, s, At(t, c)) && SettledSelect(t, s) && Unshadowed(t, s)
    ensures GrainAccepts(t) <==>
            forall s, c :: GrainCount(t, s, c) && Modelled(t, s, At(t, c)) ==> CountIgnoresRepeats(t, s, At(t, c))
  {
    forall s, c | GrainCount(t, s, c)
      ensures CountIgnoresRepeats(t, s, At(t, c)) <==> DistinctCount(At(t, c))
    {
      CountIgnoresRepeatsIff(t, s, c);
    }
  }

  // ------------------------------------------------------------------
  // The rule in full
  // ------------------------------------------------------------------

  /** Both nodes have the same nearest SELECT above them. */
  ghost predicate SameSelect(t: Node, p: Path, c: Path, k: nat) {
    && Valid(t, p) && Valid(t, c) && NearestSelect(t, p, k) && NearestSelect(t, c, k) && p[..k] == c[..k]
  }

  /** A COUNT without DISTINCT, in either spelling, whose SELECT reads one of the two views a customer repeats on. */
  ghost predicate PlainCountBeside(t: Node, p: Path, c: Path, k: nat) {
    && SameSelect(t, p, c, k)
    && (At(t, p).kind == Table("v_customer_opco_monthly") || At(t, p).kind == Table("v_customer_category_monthly"))
    && At(t, c).kind == Count(false) && (At(t, c).kids == [] || At(t, c).kids[0].kind != Distinct)
  }

  /** The rule refuses exactly the queries with such a COUNT. */
  lemma GrainRuleReads(t: Node)
    ensures GrainAccepts(t) <==> forall p, c, k :: !PlainCountBeside(t, p, c, k)
  {
    if p, c, k :| PlainCountBeside(t, p, c, k) {
      var s := p[..k];
      assert BelongsTo(t, p, s) && BelongsTo(t, c, s);
      assert GrainCount(t, s, c);
    }
    if !GrainAccepts(t) {
      var s, c :| GrainCount(t, s, c) && !DistinctCount(At(t, c));
      var p :| BelongsTo(t, p, s) && At(t, p).kind.Table? && At(t, p).kind.name in CUSTOMER_GRAIN_VIEWS;
      assert PlainCountBeside(t, p, c, |s|);
    }
  }
}
