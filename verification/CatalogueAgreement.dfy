/** The catalogue files exactly the columns the compiled views project, for each role. */
module CatalogueAgreement {
  import opened Wrappers
  import opened Seqs
  import opened Relations
  import opened PersonaViews
  import opened Catalogue

  /** Base-table columns, by table. */
  type Columns = map<string, seq<string>>

  /** The compiled body of a view. */
  function Body(cfg: Config, cols: Columns, view: string, base: string, includeMoney: bool): ViewBody
    requires base in cols
  {
    if view in cfg.aggregates then AggregateBody(cfg.aggregates[view], includeMoney)
    else ProjectionBody(cols[base], MoneyOf(cfg, base), SplitsOf(cfg, base), includeMoney)
  }

  // ------------------------------------------------------------------
  // What the configuration and the glossary must satisfy
  // ------------------------------------------------------------------

  /** Splits read existing columns, have names of their own, and are marked by what they read. */
  ghost predicate ProjectionWellFormed(cfg: Config, cols: Columns, base: string)
    requires base in cols
  {
    && (forall s :: s in SplitsOf(cfg, base) ==>
          s.source in cols[base] && s.alias !in cols[base] && (s.source in MoneyOf(cfg, base) ==> s.needsMoney))
    && (forall s, t :: s in SplitsOf(cfg, base) && t in SplitsOf(cfg, base) && s.alias == t.alias ==>
        s.needsMoney == t.needsMoney)
  }

  /** An alias every role gets: a non-money base column, the month, or a member_ of a non-money column. */
  ghost predicate PlainAlias(cfg: Config, cols: Columns, view: string, base: string, a: string)
    requires base in cols && view in cfg.aggregates
  {
    && a !in RollupMoney(cfg, view, cfg.aggregates[view])
    && (a in cols[base] || a == MONTH || HasPrefix("member_", a))
    && (a in cols[base] ==> a !in MoneyOf(cfg, base))
    && (a == MONTH ==> "calendar_date" !in MoneyOf(cfg, base))
    && (a != MONTH && HasPrefix("member_", a) && WithoutMember(a) in cols[base] ==>
        WithoutMember(a) !in MoneyOf(cfg, base))
  }

  /** A money alias: a money base column, or a member_ name. */
  ghost predicate MoneyAlias(cfg: Config, cols: Columns, base: string, a: string)
    requires base in cols
  {
    a != MONTH && (a in cols[base] || HasPrefix("member_", a)) && (a in cols[base] ==> a in MoneyOf(cfg, base))
  }

  ghost predicate RollupWellFormed(cfg: Config, cols: Columns, view: string, base: string)
    requires base in cols && view in cfg.aggregates
  {
    var s := cfg.aggregates[view];
    && (forall a :: a in GrainNames(s) + MeasureNames(s) ==> PlainAlias(cfg, cols, view, base, a))
    && (forall a :: a in MoneyNames(s) ==> MoneyAlias(cfg, cols, base, a))
    && (forall a :: a in WindowNames(s) ==>
          a in RollupMoney(cfg, view, s) && a !in cols[base] && a != MONTH && !HasPrefix("member_", a))
  }

  ghost predicate WellFormed(cfg: Config, cols: Columns) {
    && "" !in cols
    && (forall b :: b in cols ==> "" !in cols[b])
    && (forall v :: v in cfg.views ==>
          && v.1 in cols && v.0 !in cfg.forbidden && !HasPrefix("copilot_", v.0)
          && (if v.0 in cfg.aggregates then RollupWellFormed(cfg, cols, v.0, v.1)
              else ProjectionWellFormed(cfg, cols, v.1)))
    && (forall v, w :: v in cfg.views && w in cfg.views && v.0 == w.0 ==> v == w)
  }

  /** One glossary row or more per base column, marked HOD exactly on the table's money columns. */
  ghost predicate GlossaryMatches(cfg: Config, cols: Columns, rows: seq<GlossaryRow>) {
    && (forall b, c :: b in cols && c in cols[b] ==> exists r :: r in rows && r.table == b && r.column == c)
    && (forall r :: r in rows && r.table in cols ==>
          r.column in cols[r.table] && (r.minRole == Some(HodOnly) <==> r.column in MoneyOf(cfg, r.table)))
    && (forall r, v :: r in rows && v in cfg.views ==> r.table != v.0)
  }

  // ------------------------------------------------------------------
  // What is filed for one view
  // ------------------------------------------------------------------

  ghost predicate IsHod(role: Option<Role>) { role == Some(HodOnly) }

  lemma {:induction false} LastRoleOf(cfg: Config, cols: Columns, rows: seq<GlossaryRow>, base: string, c: string)
    requires base in cols
    requires forall r :: r in rows && r.table in cols ==>
          r.column in cols[r.table] && (r.minRole == Some(HodOnly) <==> r.column in MoneyOf(cfg, r.table))
    ensures IsHod(LastRole(rows, base, c)) ==> c in cols[base] && c in MoneyOf(cfg, base)
    ensures c in cols[base] && c in MoneyOf(cfg, base) && (exists r :: r in rows && r.table == base && r.column == c)
            ==> IsHod(LastRole(rows, base, c))
  {
    if rows != [] {
      var init, r := rows[..|rows| - 1], rows[|rows| - 1];
      LastRoleOf(cfg, cols, init, base, c);
      assert rows == init + [r] && r in rows;
    }
  }

  /** A derived entry is HOD-only iff it says so, or says nothing and reads a money column. */
  lemma InheritedIsHod(cfg: Config, cols: Columns, rows: seq<GlossaryRow>, base: string, d: Derived)
    requires base in cols && GlossaryMatches(cfg, cols, rows)
    ensures IsHod(Inherited(rows, base, d)) <==>
            if d.minRole.Some? then d.minRole.value == HodOnly
            else d.source.Some? && d.source.value in cols[base] && d.source.value in MoneyOf(cfg, base)
  {
    if d.source.Some? { LastRoleOf(cfg, cols, rows, base, d.source.value); }
  }

  /** Some entry files this column under this view, HOD-only or not as asked. */
  ghost predicate FiledAs(cfg: Config, rows: seq<GlossaryRow>, view: string, c: string, hod: bool) {
    exists e :: Yields(cfg, rows, e) && e.view == view && e.column == c && IsHod(e.minRole) == hod
  }

  /** A base column reaches the view through its glossary row. */
  ghost predicate ByRow(cfg: Config, cols: Columns, view: string, base: string, c: string, hod: bool)
    requires base in cols
  {
    c in cols[base] && Surfaces(cfg, view, c) && hod == (c in MoneyOf(cfg, base))
  }

  ghost predicate ByDerived(cfg: Config, cols: Columns, rows: seq<GlossaryRow>, view: string, base: string,
                            c: string, hod: bool)
  {
    exists d :: d in DerivedOf(cfg, view, base) && d.alias == c && IsHod(Inherited(rows, base, d)) == hod
  }

  lemma AllForView<A>(f: A -> seq<Derived>, xs: seq<A>, view: string, d: Derived)
    requires forall x, e :: x in xs && e in f(x) ==> e.view == view
    ensures d in FlatMap(f, xs) ==> d.view == view
  {
    FlatMapMember(f, xs, d);
  }

  lemma DerivedView(cfg: Config, view: string, base: string, d: Derived)
    requires d in DerivedOf(cfg, view, base)
    ensures d.view == view
  {
    if view in cfg.aggregates {
      var s := cfg.aggregates[view];
      var money := RollupMoney(cfg, view, s);
      var aliases := GrainNames(s) + MeasureNames(s) + MoneyNames(s);
      if d in FlatMap(AliasSpec(view, money), aliases) {
        AllForView(AliasSpec(view, money), aliases, view, d);
      } else {
        AllForView(WindowSpec(view, money), WindowNames(s), view, d);
      }
    } else {
      AllForView(SplitSpec(view), SplitsOf(cfg, base), view, d);
    }
  }

  lemma RowEntryReachesView(cfg: Config, cols: Columns, rows: seq<GlossaryRow>, v: (string, string), r: GlossaryRow,
                            e: Entry)
    requires WellFormed(cfg, cols) && GlossaryMatches(cfg, cols, rows) && v in cfg.views && r in rows
    ensures FromRow(cfg, r, e) && e.view == v.0 <==>
            r.table == v.1 && Surfaces(cfg, v.0, r.column) && e == Entry(v.0, r.column, r.minRole)
  {
    ViewsOnMembers(cfg.views, r.table);
    if r.table == v.1 {
      assert v.0 in ViewsOn(cfg.views, r.table);
    }
  }

  lemma FiledAsMeans(cfg: Config, cols: Columns, rows: seq<GlossaryRow>, v: (string, string), c: string, hod: bool)
    requires WellFormed(cfg, cols) && GlossaryMatches(cfg, cols, rows) && v in cfg.views
    ensures FiledAs(cfg, rows, v.0, c, hod) <==>
            ByRow(cfg, cols, v.0, v.1, c, hod) || ByDerived(cfg, cols, rows, v.0, v.1, c, hod)
  {
    if FiledAs(cfg, rows, v.0, c, hod) {
      FiledHasOrigin(cfg, cols, rows, v, c, hod);
    } else {
      if ByRow(cfg, cols, v.0, v.1, c, hod) { RowIsFiled(cfg, cols, rows, v, c, hod); }
      if ByDerived(cfg, cols, rows, v.0, v.1, c, hod) { DerivedIsFiled(cfg, cols, rows, v, c, hod); }
    }
  }

  lemma FiledHasOrigin(cfg: Config, cols: Columns, rows: seq<GlossaryRow>, v: (string, string), c: string, hod: bool)
    requires WellFormed(cfg, cols) && GlossaryMatches(cfg, cols, rows) && v in cfg.views
    requires FiledAs(cfg, rows, v.0, c, hod)
    ensures ByRow(cfg, cols, v.0, v.1, c, hod) || ByDerived(cfg, cols, rows, v.0, v.1, c, hod)
  {
    var e :| Yields(cfg, rows, e) && e.view == v.0 && e.column == c && IsHod(e.minRole) == hod;
    if r :| r in rows && FromRow(cfg, r, e) {
      RowEntryReachesView(cfg, cols, rows, v, r, e);
    } else {
      var w, d :| w in cfg.views && FromView(cfg, rows, w, d, e);
      DerivedView(cfg, w.0, w.1, d);
    }
  }

  lemma RowIsFiled(cfg: Config, cols: Columns, rows: seq<GlossaryRow>, v: (string, string), c: string, hod: bool)
    requires WellFormed(cfg, cols) && GlossaryMatches(cfg, cols, rows) && v in cfg.views
    requires ByRow(cfg, cols, v.0, v.1, c, hod)
    ensures FiledAs(cfg, rows, v.0, c, hod)
  {
    var r :| r in rows && r.table == v.1 && r.column == c;
    var e := Entry(v.0, c, r.minRole);
    RowEntryReachesView(cfg, cols, rows, v, r, e);
    assert Yields(cfg, rows, e);
  }

  lemma DerivedIsFiled(cfg: Config, cols: Columns, rows: seq<GlossaryRow>, v: (string, string), c: string, hod: bool)
    requires WellFormed(cfg, cols) && v in cfg.views && ByDerived(cfg, cols, rows, v.0, v.1, c, hod)
    ensures FiledAs(cfg, rows, v.0, c, hod)
  {
    var d :| d in DerivedOf(cfg, v.0, v.1) && d.alias == c && IsHod(Inherited(rows, v.1, d)) == hod;
    DerivedView(cfg, v.0, v.1, d);
    var e := Entry(d.view, d.alias, Inherited(rows, v.1, d));
    assert FromView(cfg, rows, v, d, e);
    assert Yields(cfg, rows, e);
  }

  // ------------------------------------------------------------------
  // Projection views
  // ------------------------------------------------------------------

  lemma SplitDerived(cfg: Config, cols: Columns, rows: seq<GlossaryRow>, v: (string, string), c: string, hod: bool)
    requires WellFormed(cfg, cols) && GlossaryMatches(cfg, cols, rows) && v in cfg.views && v.0 !in cfg.aggregates
    ensures ByDerived(cfg, cols, rows, v.0, v.1, c, hod) <==>
            exists s :: s in SplitsOf(cfg, v.1) && s.alias == c && s.needsMoney == hod
  {
    var splits, f := SplitsOf(cfg, v.1), SplitSpec(v.0);
    forall s | s in splits
      ensures f(s)[0] in DerivedOf(cfg, v.0, v.1) && (IsHod(Inherited(rows, v.1, f(s)[0])) <==> s.needsMoney)
    {
      var i :| 0 <= i < |splits| && splits[i] == s;
      FlatMapMember(f, splits, f(s)[0]);
      assert f(s)[0] in f(splits[i]);
      InheritedIsHod(cfg, cols, rows, v.1, f(s)[0]);
    }
    if ByDerived(cfg, cols, rows, v.0, v.1, c, hod) {
      var d :| d in DerivedOf(cfg, v.0, v.1) && d.alias == c && IsHod(Inherited(rows, v.1, d)) == hod;
      FlatMapMember(f, splits, d);
      var i :| 0 <= i < |splits| && d in f(splits[i]);
      assert splits[i] in splits && d == f(splits[i])[0];
    }
    if exists s :: s in splits && s.alias == c && s.needsMoney == hod {
      var s :| s in splits && s.alias == c && s.needsMoney == hod;
      assert f(s)[0].alias == c;
    }
  }

  lemma ProjectionColumns(columns: seq<string>, money: set<string>, splits: seq<Split>, includeMoney: bool, c: string)
    ensures c in Names(ProjectionBody(columns, money, splits, includeMoney)) <==>
            (c in columns && (includeMoney || c !in money))
            || exists s :: s in splits && s.alias == c && s.source in columns && (includeMoney || !s.needsMoney)
  {
    var shown, kept := Filter(Shown(money, includeMoney), columns), Filter(Kept(columns, includeMoney), splits);
    FilterMembers(Shown(money, includeMoney), columns);
    FilterMembers(Kept(columns, includeMoney), splits);
    NamesOfTerms(shown, kept, c);
  }

  lemma NamesOfTerms(shown: seq<string>, kept: seq<Split>, c: string)
    ensures c in Names(Projection(Map(ToColumn(), shown) + Map(ToSplit(), kept)))
            <==> c in shown || exists s :: s in kept && s.alias == c
  {
    var names := Names(Projection(Map(ToColumn(), shown) + Map(ToSplit(), kept)));
    assert |names| == |shown| + |kept|;
    assert forall i :: 0 <= i < |names| ==> names[i] == if i < |shown| then shown[i] else kept[i - |shown|].alias;
    if c in names { NameHasTerm(shown, kept, names, c); }
    if c in shown {
      var i :| 0 <= i < |shown| && shown[i] == c;
      assert names[i] == c;
    }
    if s :| s in kept && s.alias == c {
      var i :| 0 <= i < |kept| && kept[i] == s;
      assert names[|shown| + i] == c;
    }
  }

  lemma NameHasTerm(shown: seq<string>, kept: seq<Split>, names: seq<string>, c: string)
    requires |names| == |shown| + |kept| && c in names
    requires forall i :: 0 <= i < |names| ==> names[i] == if i < |shown| then shown[i] else kept[i - |shown|].alias
    ensures c in shown || exists s :: s in kept && s.alias == c
  {
    var i :| 0 <= i < |names| && names[i] == c;
    if i < |shown| { assert shown[i] in shown; } else { assert kept[i - |shown|] in kept; }
  }

  lemma ProjectionAgrees(cfg: Config, cols: Columns, rows: seq<GlossaryRow>, v: (string, string), c: string)
    requires WellFormed(cfg, cols) && GlossaryMatches(cfg, cols, rows) && v in cfg.views && v.0 !in cfg.aggregates
    ensures (exists hod :: FiledAs(cfg, rows, v.0, c, hod)) <==> c in Names(Body(cfg, cols, v.0, v.1, true))
    ensures FiledAs(cfg, rows, v.0, c, false) <==> c in Names(Body(cfg, cols, v.0, v.1, false))
  {
    FiledAsMeans(cfg, cols, rows, v, c, true);
    FiledAsMeans(cfg, cols, rows, v, c, false);
    SplitDerived(cfg, cols, rows, v, c, true);
    SplitDerived(cfg, cols, rows, v, c, false);
    ProjectionColumns(cols[v.1], MoneyOf(cfg, v.1), SplitsOf(cfg, v.1), true, c);
    ProjectionColumns(cols[v.1], MoneyOf(cfg, v.1), SplitsOf(cfg, v.1), false, c);
    if c in Names(Body(cfg, cols, v.0, v.1, true)) {
      if c in cols[v.1] {
        assert FiledAs(cfg, rows, v.0, c, c in MoneyOf(cfg, v.1));
      } else {
        var s :| s in SplitsOf(cfg, v.1) && s.alias == c;
        assert FiledAs(cfg, rows, v.0, c, s.needsMoney);
      }
    }
    if hod :| FiledAs(cfg, rows, v.0, c, hod) {
      assert || ByRow(cfg, cols, v.0, v.1, c, hod)
             || exists s :: s in SplitsOf(cfg, v.1) && s.alias == c && s.needsMoney == hod;
    }
  }

  // ------------------------------------------------------------------
  // Aggregating views
  // ------------------------------------------------------------------

  lemma AliasDerived(cfg: Config, cols: Columns, rows: seq<GlossaryRow>, v: (string, string), a: string)
    requires WellFormed(cfg, cols) && GlossaryMatches(cfg, cols, rows) && v in cfg.views && v.0 in cfg.aggregates
    ensures var s := cfg.aggregates[v.0];
            var specs := AliasSpec(v.0, RollupMoney(cfg, v.0, s))(a);
            && (specs == [] <==> a != MONTH && !HasPrefix("member_", a))
            && (a in GrainNames(s) + MeasureNames(s) && specs != [] ==>
                  |specs| == 1 && specs[0].alias == a && !IsHod(Inherited(rows, v.1, specs[0])))
            && (a in MoneyNames(s) && specs != [] ==>
                  |specs| == 1 && specs[0].alias == a && IsHod(Inherited(rows, v.1, specs[0])))
  {
    var s := cfg.aggregates[v.0];
    var specs := AliasSpec(v.0, RollupMoney(cfg, v.0, s))(a);
    if specs != [] {
      InheritedIsHod(cfg, cols, rows, v.1, specs[0]);
      assert a in MoneyNames(s) ==> MoneyAlias(cfg, cols, v.1, a) && a in RollupMoney(cfg, v.0, s);
      assert a in GrainNames(s) + MeasureNames(s) ==> PlainAlias(cfg, cols, v.0, v.1, a);
    }
  }

  /** The aliases an aggregating view derives an entry for, and whether it is HOD-only. */
  ghost predicate DerivedAlias(s: AggregateViewSpec, c: string, hod: bool) {
    || (c in GrainNames(s) + MeasureNames(s) && (c == MONTH || HasPrefix("member_", c)) && !hod)
    || (c in MoneyNames(s) && HasPrefix("member_", c) && hod)
    || (c in WindowNames(s) && hod)
  }

  lemma DerivedHasAlias(cfg: Config, cols: Columns, rows: seq<GlossaryRow>, v: (string, string), d: Derived)
    requires WellFormed(cfg, cols) && GlossaryMatches(cfg, cols, rows) && v in cfg.views && v.0 in cfg.aggregates
    requires d in DerivedOf(cfg, v.0, v.1)
    ensures DerivedAlias(cfg.aggregates[v.0], d.alias, IsHod(Inherited(rows, v.1, d)))
  {
    var s := cfg.aggregates[v.0];
    var money := RollupMoney(cfg, v.0, s);
    var aliases := GrainNames(s) + MeasureNames(s) + MoneyNames(s);
    assert d in FlatMap(AliasSpec(v.0, money), aliases) || d in FlatMap(WindowSpec(v.0, money), WindowNames(s));
    FlatMapMember(AliasSpec(v.0, money), aliases, d);
    FlatMapMember(WindowSpec(v.0, money), WindowNames(s), d);
    if d in FlatMap(AliasSpec(v.0, money), aliases) {
      var i :| 0 <= i < |aliases| && d in AliasSpec(v.0, money)(aliases[i]);
      AliasDerived(cfg, cols, rows, v, aliases[i]);
      assert aliases[i] in aliases;
      assert aliases[i] in MoneyNames(s) ==> MoneyAlias(cfg, cols, v.1, aliases[i]);
    } else {
      var i :| 0 <= i < |WindowNames(s)| && d in WindowSpec(v.0, money)(WindowNames(s)[i]);
      assert WindowNames(s)[i] in WindowNames(s);
      InheritedIsHod(cfg, cols, rows, v.1, d);
    }
  }

  lemma AliasHasDerived(cfg: Config, cols: Columns, rows: seq<GlossaryRow>, v: (string, string), c: string, hod: bool)
    requires WellFormed(cfg, cols) && GlossaryMatches(cfg, cols, rows) && v in cfg.views && v.0 in cfg.aggregates
    requires DerivedAlias(cfg.aggregates[v.0], c, hod)
    ensures ByDerived(cfg, cols, rows, v.0, v.1, c, hod)
  {
    var s := cfg.aggregates[v.0];
    var money := RollupMoney(cfg, v.0, s);
    var aliases := GrainNames(s) + MeasureNames(s) + MoneyNames(s);
    if c in WindowNames(s) && hod {
      var i :| 0 <= i < |WindowNames(s)| && WindowNames(s)[i] == c;
      var d := WindowSpec(v.0, money)(c)[0];
      FlatMapMember(WindowSpec(v.0, money), WindowNames(s), d);
      assert d in WindowSpec(v.0, money)(WindowNames(s)[i]);
      assert d in DerivedOf(cfg, v.0, v.1);
      InheritedIsHod(cfg, cols, rows, v.1, d);
    } else {
      AliasDerived(cfg, cols, rows, v, c);
      assert c in GrainNames(s) + MeasureNames(s) || c in MoneyNames(s);
      assert c in aliases;
      var i :| 0 <= i < |aliases| && aliases[i] == c;
      var d := AliasSpec(v.0, money)(c)[0];
      FlatMapMember(AliasSpec(v.0, money), aliases, d);
      assert d in AliasSpec(v.0, money)(aliases[i]);
      assert d in DerivedOf(cfg, v.0, v.1);
    }
  }

  /** Every derived entry of an aggregating view, by the group its alias belongs to. */
  lemma RollupDerived(cfg: Config, cols: Columns, rows: seq<GlossaryRow>, v: (string, string), c: string, hod: bool)
    requires WellFormed(cfg, cols) && GlossaryMatches(cfg, cols, rows) && v in cfg.views && v.0 in cfg.aggregates
    ensures ByDerived(cfg, cols, rows, v.0, v.1, c, hod) <==> DerivedAlias(cfg.aggregates[v.0], c, hod)
  {
    if ByDerived(cfg, cols, rows, v.0, v.1, c, hod) {
      var d :| d in DerivedOf(cfg, v.0, v.1) && d.alias == c && IsHod(Inherited(rows, v.1, d)) == hod;
      DerivedHasAlias(cfg, cols, rows, v, d);
    }
    if DerivedAlias(cfg.aggregates[v.0], c, hod) {
      AliasHasDerived(cfg, cols, rows, v, c, hod);
    }
  }

  lemma RollupColumns(s: AggregateViewSpec, c: string)
    ensures c in Names(AggregateBody(s, true)) <==> c in Projected(s)
    ensures c in Names(AggregateBody(s, false)) <==> c in GrainNames(s) + MeasureNames(s)
  {
    MapAppend((a: (Agg, string)) => a.1, s.measures, s.money);
    assert s.measures + [] == s.measures;
  }

  lemma RollupAgrees(cfg: Config, cols: Columns, rows: seq<GlossaryRow>, v: (string, string), c: string)
    requires WellFormed(cfg, cols) && GlossaryMatches(cfg, cols, rows) && v in cfg.views && v.0 in cfg.aggregates
    ensures (exists hod :: FiledAs(cfg, rows, v.0, c, hod)) <==> c in Names(Body(cfg, cols, v.0, v.1, true))
    ensures FiledAs(cfg, rows, v.0, c, false) <==> c in Names(Body(cfg, cols, v.0, v.1, false))
  {
    var s := cfg.aggregates[v.0];
    RollupColumns(s, c);
    FiledAsMeans(cfg, cols, rows, v, c, true);
    FiledAsMeans(cfg, cols, rows, v, c, false);
    RollupDerived(cfg, cols, rows, v, c, true);
    RollupDerived(cfg, cols, rows, v, c, false);
    assert c in GrainNames(s) + MeasureNames(s) ==> PlainAlias(cfg, cols, v.0, v.1, c);
    assert c in MoneyNames(s) ==> MoneyAlias(cfg, cols, v.1, c);
    if c in MoneyNames(s) && c in cols[v.1] { assert ByRow(cfg, cols, v.0, v.1, c, true); }
  }

  // ------------------------------------------------------------------
  // The agreement
  // ------------------------------------------------------------------

  /** The rows an ingested service shows a caller. */
  function ShownRows(cfg: Config, rows: seq<GlossaryRow>, canSeeMoney: bool): seq<Item> {
    VisibleOf(FlatMap(Shows(cfg), EntriesOf(cfg, rows)), canSeeMoney)
  }

  /**
   * In a service that has ingested the glossary, for every view: the columns filed are the columns
   * the HOD view projects, and the rows each caller is shown name the columns that caller's view
   * projects, apart from the hidden system columns.
   */
  lemma CatalogueAgreesWithCompiler(g: GlossaryService, cfg: Config, cols: Columns, rows: seq<GlossaryRow>,
                                    v: (string, string), c: string)
    requires g.Ingested(cfg, rows) && WellFormed(cfg, cols) && GlossaryMatches(cfg, cols, rows) && v in cfg.views
    ensures c in g.ColumnsOf(v.0) <==> c in Names(Body(cfg, cols, v.0, v.1, true))
    ensures g.Visible(true, v.0, c) <==> c in Names(Body(cfg, cols, v.0, v.1, true)) && !Hidden(c)
    ensures g.Visible(false, v.0, c) <==> c in Names(Body(cfg, cols, v.0, v.1, false)) && !Hidden(c)
  {
    if v.0 in cfg.aggregates { RollupAgrees(cfg, cols, rows, v, c); } else { ProjectionAgrees(cfg, cols, rows, v, c); }
    FiledIffFiledAs(cfg, rows, v, c);
    ShownIffFiledAs(cfg, rows, v, c, true);
    ShownIffFiledAs(cfg, rows, v, c, false);
  }

  lemma FiledIffFiledAs(cfg: Config, rows: seq<GlossaryRow>, v: (string, string), c: string)
    requires v in cfg.views && v.0 !in cfg.forbidden && !HasPrefix("copilot_", v.0)
    ensures Filed(cfg, EntriesOf(cfg, rows), v.0, c) <==> exists hod :: FiledAs(cfg, rows, v.0, c, hod)
  {
    if Filed(cfg, EntriesOf(cfg, rows), v.0, c) {
      var e :| e in EntriesOf(cfg, rows) && e.view == v.0 && e.column == c;
      EntryOrigin(cfg, rows, e);
      assert FiledAs(cfg, rows, v.0, c, IsHod(e.minRole));
    }
    if hod :| FiledAs(cfg, rows, v.0, c, hod) {
      var e :| Yields(cfg, rows, e) && e.view == v.0 && e.column == c && IsHod(e.minRole) == hod;
      EntryOrigin(cfg, rows, e);
      assert Queryable(cfg, v.0);
    }
  }

  lemma ShownIffFiledAs(cfg: Config, rows: seq<GlossaryRow>, v: (string, string), c: string, canSeeMoney: bool)
    requires v in cfg.views && v.0 !in cfg.forbidden && !HasPrefix("copilot_", v.0)
    ensures NamesColumn(ShownRows(cfg, rows, canSeeMoney), v.0, c) <==>
            !Hidden(c) && exists hod :: FiledAs(cfg, rows, v.0, c, hod) && (hod ==> canSeeMoney)
  {
    var items := FlatMap(Shows(cfg), EntriesOf(cfg, rows));
    FilterMembers(ForEveryone(), items);
    if it :| it in ShownRows(cfg, rows, canSeeMoney) && it.table == v.0 && it.field == c {
      ShownItemIsFiled(cfg, rows, it);
    }
    if hod :| FiledAs(cfg, rows, v.0, c, hod) && (hod ==> canSeeMoney) && !Hidden(c) {
      var it := FiledIsShown(cfg, rows, v, c, hod);
      assert it in ShownRows(cfg, rows, canSeeMoney);
    }
  }

  lemma FiledIsShown(cfg: Config, rows: seq<GlossaryRow>, v: (string, string), c: string, hod: bool) returns (it: Item)
    requires v in cfg.views && v.0 !in cfg.forbidden && !HasPrefix("copilot_", v.0)
    requires FiledAs(cfg, rows, v.0, c, hod) && !Hidden(c)
    ensures it in FlatMap(Shows(cfg), EntriesOf(cfg, rows)) && it.table == v.0 && it.field == c
    ensures it.minRole.HodOnly? <==> hod
  {
    var e :| Yields(cfg, rows, e) && e.view == v.0 && e.column == c && IsHod(e.minRole) == hod;
    assert Queryable(cfg, v.0);
    FiledEntryIsShown(cfg, rows, e);
    it := ItemOf(e);
  }

  lemma ShownItemIsFiled(cfg: Config, rows: seq<GlossaryRow>, it: Item)
    requires it in FlatMap(Shows(cfg), EntriesOf(cfg, rows))
    ensures FiledAs(cfg, rows, it.table, it.field, it.minRole == HodOnly) && !Hidden(it.field)
  {
    var entries := EntriesOf(cfg, rows);
    FlatMapMember(Shows(cfg), entries, it);
    var i :| 0 <= i < |entries| && it in Shows(cfg)(entries[i]);
    var e := entries[i];
    assert e in entries;
    EntryOrigin(cfg, rows, e);
    assert it == ItemOf(e) && !Hidden(e.column);
    assert Yields(cfg, rows, e) && e.view == it.table && e.column == it.field;
  }

  lemma FiledEntryIsShown(cfg: Config, rows: seq<GlossaryRow>, e: Entry)
    requires Yields(cfg, rows, e) && Queryable(cfg, e.view) && !Hidden(e.column)
    ensures ItemOf(e) in FlatMap(Shows(cfg), EntriesOf(cfg, rows))
  {
    var entries := EntriesOf(cfg, rows);
    EntryOrigin(cfg, rows, e);
    var i :| 0 <= i < |entries| && entries[i] == e;
    FlatMapMember(Shows(cfg), entries, ItemOf(e));
    assert ItemOf(e) in Shows(cfg)(entries[i]);
  }

  // ------------------------------------------------------------------
  // Tables without a view
  // ------------------------------------------------------------------

  /** A table that is no view, and that none is built on, has exactly its own glossary rows, as they are. */
  lemma PlainTableYields(cfg: Config, rows: seq<GlossaryRow>, e: Entry)
    requires forall v :: v in cfg.views ==> v.0 != e.view && v.1 != e.view
    requires e.view !in cfg.aggregates
    ensures Yields(cfg, rows, e) <==>
            GlossaryRow(e.view, e.column, e.minRole) in rows && e.view != "" && e.column != ""
  {
    forall r | r in rows ensures FromRow(cfg, r, e) <==>
                                 r == GlossaryRow(e.view, e.column, e.minRole) && e.view != "" && e.column != ""
    {
      PlainTableRow(cfg, r, e);
    }
    forall v, d | v in cfg.views && FromView(cfg, rows, v, d, e) ensures e.view == v.0 {
      DerivedView(cfg, v.0, v.1, d);
    }
  }
}
