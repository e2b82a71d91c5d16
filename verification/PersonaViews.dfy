/** The persona-view compiler: one HOD and one EXEC body per view. */
module PersonaViews {
  import opened Wrappers
  import opened Seqs
  import opened Relations
  import opened Calendar

  /** A generated member split: CASE over `source`, emitted as `alias`. */
  datatype Split = Split(source: string, alias: string, needsMoney: bool)

  datatype AggregateViewSpec = AggregateViewSpec(
    baseTable: string,
    grain: Grain,
    measures: seq<(Agg, string)>,
    money: seq<(Agg, string)>,
    windows: seq<(Window, string)>)

  function SplitTerm(s: Split): Term { MemberCase(s.source, s.alias) }

  // The selections below are named so that every use of one is the same function value.
  function ToColumn(): string -> Term { c => Column(c) }
  function ToSplit(): Split -> Term { s => SplitTerm(s) }
  function Shown(money: set<string>, includeMoney: bool): string -> bool { c => includeMoney || c !in money }
  function Kept(columns: seq<string>, includeMoney: bool): Split -> bool {
    (s: Split) => !(s.needsMoney && !includeMoney) && s.source in columns
  }

  function SplitTerms(columns: seq<string>, includeMoney: bool, splits: seq<Split>): seq<Term> {
    Map(ToSplit(), Filter(Kept(columns, includeMoney), splits))
  }

  /** The body of a view over one base table, at that table's own grain. */
  function ProjectionBody(columns: seq<string>, money: set<string>, splits: seq<Split>, includeMoney: bool): ViewBody {
    Projection(
      Map(ToColumn(), Filter(Shown(money, includeMoney), columns))
      + SplitTerms(columns, includeMoney, splits))
  }

  /** The body of an aggregating view. */
  function AggregateBody(spec: AggregateViewSpec, includeMoney: bool): ViewBody {
    Grouped(spec.grain,
            spec.measures + (if includeMoney then spec.money else []),
            if includeMoney then spec.windows else [])
  }

  /** _projection_view_body: None is the RuntimeError for a table without columns. */
  method ProjectionViewBody(columns: seq<string>, money: set<string>, splits: seq<Split>, includeMoney: bool)
    returns (body: Option<ViewBody>, dropped: set<string>)
    ensures body == if columns == [] then None else Some(ProjectionBody(columns, money, splits, includeMoney))
    ensures body.Some? ==> dropped == money - ToSet(Names(body.value))
  {
    if columns == [] { return None, {}; }
    var selected := Filter(Shown(money, includeMoney), columns);
    var projection := Map(ToColumn(), selected);
    ghost var start := projection;
    var produced := ToSet(selected);
    ColumnNames(selected);
    var i := 0;
    while i < |splits|
      invariant 0 <= i <= |splits|
      invariant projection == start + SplitTerms(columns, includeMoney, splits[..i])
      invariant produced == TermNames(projection)
    {
      var s := splits[i];
      ghost var before := SplitTerms(columns, includeMoney, splits[..i]);
      SplitTermsStep(columns, includeMoney, splits, i);
      if !((s.needsMoney && !includeMoney) || s.source !in columns) {
        TermNamesStep(projection, SplitTerm(s));
        projection := projection + [MemberCase(s.source, s.alias)];
        produced := produced + {s.alias};
        assert projection == start + (before + [SplitTerm(s)]);
      } else {
        assert before + [] == before;
      }
      i := i + 1;
    }
    assert splits[..|splits|] == splits;
    body := Some(Projection(projection));
    ProjectionNames(projection);
    dropped := money - produced;
  }

  lemma SplitTermsStep(columns: seq<string>, includeMoney: bool, splits: seq<Split>, i: nat)
    requires i < |splits|
    ensures SplitTerms(columns, includeMoney, splits[..i + 1])
         == SplitTerms(columns, includeMoney, splits[..i])
            + (if Kept(columns, includeMoney)(splits[i]) then [SplitTerm(splits[i])] else [])
  {
    assert splits[..i + 1][..i] == splits[..i];
    var before := Filter(Kept(columns, includeMoney), splits[..i]);
    if Kept(columns, includeMoney)(splits[i]) {
      assert (before + [splits[i]])[..|before|] == before;
    } else {
      assert before + [] == before;
    }
  }

  lemma TermNamesStep(terms: seq<Term>, t: Term)
    ensures TermNames(terms + [t]) == TermNames(terms) + {TermName(t)}
  {
    assert forall x :: x in terms + [t] <==> x in terms || x == t;
  }

  ghost function TermNames(terms: seq<Term>): set<string> { set t | t in terms :: TermName(t) }

  lemma ColumnNames(columns: seq<string>)
    ensures TermNames(Map(ToColumn(), columns)) == ToSet(columns)
  {
    var terms := Map(ToColumn(), columns);
    forall c | c in columns ensures c in TermNames(terms) {
      var i :| 0 <= i < |columns| && columns[i] == c;
      assert terms[i] in terms && TermName(terms[i]) == c;
    }
  }

  lemma ProjectionNames(terms: seq<Term>)
    ensures TermNames(terms) == ToSet(Names(Projection(terms)))
  {
    var names := Names(Projection(terms));
    forall n | n in names ensures n in TermNames(terms) {
      var i :| 0 <= i < |names| && names[i] == n;
      assert terms[i] in terms;
    }
    forall t | t in terms ensures TermName(t) in names {
      var i :| 0 <= i < |terms| && terms[i] == t;
      assert names[i] == TermName(t);
    }
  }

  /** _aggregate_view_body. */
  method AggregateViewBody(spec: AggregateViewSpec, money: set<string>, includeMoney: bool)
    returns (body: ViewBody, dropped: set<string>)
    ensures body == AggregateBody(spec, includeMoney)
    ensures dropped == money - ToSet(Names(body))
  {
    var aggs := spec.measures;
    var windows: seq<(Window, string)> := [];
    var produced := (set g | g in spec.grain :: g.1) + (set a | a in spec.measures :: a.1);
    if includeMoney {
      aggs := aggs + spec.money;
      windows := windows + spec.windows;
      produced := produced + (set a | a in spec.money :: a.1) + (set w | w in spec.windows :: w.1);
    }
    body := Grouped(spec.grain, aggs, windows);
    assert ToSet(Names(body)) == produced by {
      GroupedNames(body);
      if includeMoney { JoinedNames(spec.measures, spec.money); }
    }
    assert windows == if includeMoney then spec.windows else [];
    dropped := money - produced;
  }

  lemma JoinedNames(xs: seq<(Agg, string)>, ys: seq<(Agg, string)>)
    ensures (set a | a in xs + ys :: a.1) == (set a | a in xs :: a.1) + (set a | a in ys :: a.1)
  {
  }

  lemma GroupedNames(body: ViewBody)
    requires body.Grouped?
    ensures ToSet(Names(body)) ==
            (set g | g in body.grain :: g.1) + (set a | a in body.aggs :: a.1) + (set w | w in body.windows :: w.1)
  {
    var gs := Map((g: (GrainExpr, string)) => g.1, body.grain);
    var ags := Map((a: (Agg, string)) => a.1, body.aggs);
    var ws := Map((w: (Window, string)) => w.1, body.windows);
    forall n ensures n in gs <==> n in set g | g in body.grain :: g.1 {
      if n in gs { var i :| 0 <= i < |gs| && gs[i] == n; assert body.grain[i] in body.grain; }
    }
    forall n ensures n in ags <==> n in set a | a in body.aggs :: a.1 {
      if n in ags { var i :| 0 <= i < |ags| && ags[i] == n; assert body.aggs[i] in body.aggs; }
    }
    forall n ensures n in ws <==> n in set w | w in body.windows :: w.1 {
      if n in ws { var i :| 0 <= i < |ws| && ws[i] == n; assert body.windows[i] in body.windows; }
    }
  }

  // ------------------------------------------------------------------
  // Role refinement
  // ------------------------------------------------------------------

  function NotNamed(money: set<string>): ((string, Value)) -> bool { (cell: (string, Value)) => cell.0 !in money }
  function SplitNotNamed(money: set<string>): Split -> bool { (s: Split) => s.alias !in money }
  function TermNotNamed(money: set<string>): Term -> bool { (t: Term) => TermName(t) !in money }

  /** A view row with the cells of these names projected away. */
  function Strip(money: set<string>, r: NamedRow): NamedRow { Filter(NotNamed(money), r) }

  /** The flag on every generated split agrees with the money list. */
  ghost predicate SplitsMarked(columns: seq<string>, money: set<string>, splits: seq<Split>) {
    forall s :: s in splits && s.source in columns ==> (s.needsMoney <==> s.alias in money)
  }

  lemma StripProjectedRow(money: set<string>, terms: seq<Term>, r: Row)
    ensures Strip(money, ProjectRow(terms, r)) == ProjectRow(Filter(TermNotNamed(money), terms), r)
  {
    var cell := (t: Term) => (TermName(t), EvalTerm(t, r));
    FilterMap(NotNamed(money), cell, terms);
    FilterCong(After(NotNamed(money), cell), TermNotNamed(money), terms);
  }

  lemma ExecColumnsAreFiltered(columns: seq<string>, money: set<string>)
    ensures Map(ToColumn(), Filter(Shown(money, false), columns))
         == Filter(TermNotNamed(money), Map(ToColumn(), Filter(Shown(money, true), columns)))
  {
    FilterAll(Shown(money, true), columns);
    FilterMap(TermNotNamed(money), ToColumn(), columns);
    FilterCong(After(TermNotNamed(money), ToColumn()), Shown(money, false), columns);
  }

  lemma ExecSplitsAreFiltered(columns: seq<string>, money: set<string>, splits: seq<Split>)
    requires SplitsMarked(columns, money, splits)
    ensures Map(ToSplit(), Filter(Kept(columns, false), splits))
         == Filter(TermNotNamed(money), Map(ToSplit(), Filter(Kept(columns, true), splits)))
  {
    UnnamedSplits(columns, money, splits);
    FilterCong(And(Kept(columns, true), SplitNotNamed(money)), Kept(columns, false), splits);
  }

  lemma ExecTermsAreFiltered(columns: seq<string>, money: set<string>, splits: seq<Split>)
    requires SplitsMarked(columns, money, splits)
    ensures ProjectionBody(columns, money, splits, false).terms
         == Filter(TermNotNamed(money), ProjectionBody(columns, money, splits, true).terms)
  {
    ExecColumnsAreFiltered(columns, money);
    ExecSplitsAreFiltered(columns, money, splits);
    FilterAppend(TermNotNamed(money), Map(ToColumn(), Filter(Shown(money, true), columns)),
                 Map(ToSplit(), Filter(Kept(columns, true), splits)));
  }

  /** Over every content the EXEC projection is the HOD one without the money columns, row for row. */
  lemma ExecIsHodWithoutMoney(columns: seq<string>, money: set<string>, splits: seq<Split>, rows: seq<Row>)
    requires SplitsMarked(columns, money, splits)
    ensures var exec := Run(ProjectionBody(columns, money, splits, false), rows);
            var hod := Run(ProjectionBody(columns, money, splits, true), rows);
            |exec| == |hod| == |rows| && forall i :: 0 <= i < |rows| ==> exec[i] == Strip(money, hod[i])
  {
    ExecTermsAreFiltered(columns, money, splits);
    forall i | 0 <= i < |rows| {
      StripProjectedRow(money, ProjectionBody(columns, money, splits, true).terms, rows[i]);
    }
  }

  /** Over every content the EXEC projection is the HOD one without the names of a money list. */
  ghost predicate ExecStripsHod(columns: seq<string>, money: set<string>, splits: seq<Split>) {
    forall rows ::
      Run(ProjectionBody(columns, money, splits, false), rows)
      == Map(Stripped(money), Run(ProjectionBody(columns, money, splits, true), rows))
  }

  function Stripped(money: set<string>): NamedRow -> NamedRow { (r: NamedRow) => Strip(money, r) }

  /** It is, exactly when every split that applies is flagged as its alias is listed. */
  lemma ExecIsHodWithoutMoneyIff(columns: seq<string>, money: set<string>, splits: seq<Split>)
    ensures ExecStripsHod(columns, money, splits) <==> SplitsMarked(columns, money, splits)
  {
    if SplitsMarked(columns, money, splits) {
      forall rows
        ensures Run(ProjectionBody(columns, money, splits, false), rows)
             == Map(Stripped(money), Run(ProjectionBody(columns, money, splits, true), rows))
      {
        ExecIsHodWithoutMoney(columns, money, splits, rows);
      }
    } else {
      MismarkedShows(columns, money, splits);
    }
  }

  lemma MismarkedShows(columns: seq<string>, money: set<string>, splits: seq<Split>)
    requires !SplitsMarked(columns, money, splits)
    ensures var rows: seq<Row> := [map[]];
            Run(ProjectionBody(columns, money, splits, false), rows)
            != Map(Stripped(money), Run(ProjectionBody(columns, money, splits, true), rows))
  {
    var exec := ProjectionBody(columns, money, splits, false).terms;
    var hod := ProjectionBody(columns, money, splits, true).terms;
    var row: Row := map[];
    StripProjectedRow(money, hod, row);
    var kept := Filter(TermNotNamed(money), hod);
    if s :| s in splits && s.source in columns && !s.needsMoney && s.alias in money {
      ShownSplit(columns, money, splits, s);
      var i :| 0 <= i < |exec| && exec[i] == SplitTerm(s);
      assert ProjectRow(exec, row)[i].0 in money;
      KeptOutside(money, hod, row);
    } else {
      var s :| s in splits && s.source in columns && s.needsMoney && s.alias !in money;
      FewerShown(columns, money, splits, s);
      assert |ProjectRow(exec, row)| < |ProjectRow(kept, row)|;
    }
    assert Run(ProjectionBody(columns, money, splits, false), [row])[0] == ProjectRow(exec, row);
    assert Map(Stripped(money), Run(ProjectionBody(columns, money, splits, true), [row]))[0] == ProjectRow(kept, row);
  }

  lemma KeptOutside(money: set<string>, terms: seq<Term>, r: Row)
    ensures var cells := ProjectRow(Filter(TermNotNamed(money), terms), r);
            forall i :: 0 <= i < |cells| ==> cells[i].0 !in money
  {
    var kept := Filter(TermNotNamed(money), terms);
    FilterMembers(TermNotNamed(money), terms);
    forall i | 0 <= i < |kept| ensures ProjectRow(kept, r)[i].0 !in money { assert kept[i] in kept; }
  }

  lemma ShownSplit(columns: seq<string>, money: set<string>, splits: seq<Split>, s: Split)
    requires s in splits && Kept(columns, false)(s)
    ensures SplitTerm(s) in ProjectionBody(columns, money, splits, false).terms
  {
    var kept := Filter(Kept(columns, false), splits);
    FilterMembers(Kept(columns, false), splits);
    var i :| 0 <= i < |kept| && kept[i] == s;
    assert Map(ToSplit(), kept)[i] == SplitTerm(s);
  }

  /** A money split whose alias is not listed survives the stripping but not the compiler. */
  lemma FewerShown(columns: seq<string>, money: set<string>, splits: seq<Split>, s: Split)
    requires s in splits && s.source in columns && s.needsMoney && s.alias !in money
    requires forall x :: x in splits && x.source in columns && !x.needsMoney ==> x.alias !in money
    ensures |ProjectionBody(columns, money, splits, false).terms|
          < |Filter(TermNotNamed(money), ProjectionBody(columns, money, splits, true).terms)|
  {
    ExecColumnsAreFiltered(columns, money);
    FilterAppend(TermNotNamed(money), Map(ToColumn(), Filter(Shown(money, true), columns)),
                 Map(ToSplit(), Filter(Kept(columns, true), splits)));
    UnnamedSplits(columns, money, splits);
    FewerSplits(columns, money, splits, s);
  }

  lemma FewerSplits(columns: seq<string>, money: set<string>, splits: seq<Split>, s: Split)
    requires s in splits && s.source in columns && s.needsMoney && s.alias !in money
    requires forall x :: x in splits && x.source in columns && !x.needsMoney ==> x.alias !in money
    ensures |Filter(Kept(columns, false), splits)|
          < |Filter(And(Kept(columns, true), SplitNotNamed(money)), splits)|
  {
    FilterFewer(Kept(columns, false), And(Kept(columns, true), SplitNotNamed(money)), splits);
  }

  lemma UnnamedSplits(columns: seq<string>, money: set<string>, splits: seq<Split>)
    ensures Filter(TermNotNamed(money), Map(ToSplit(), Filter(Kept(columns, true), splits)))
         == Map(ToSplit(), Filter(And(Kept(columns, true), SplitNotNamed(money)), splits))
  {
    var shown := Filter(Kept(columns, true), splits);
    FilterMap(TermNotNamed(money), ToSplit(), shown);
    FilterCong(After(TermNotNamed(money), ToSplit()), SplitNotNamed(money), shown);
    FilterFilter(SplitNotNamed(money), Kept(columns, true), splits);
  }

  lemma {:induction false} FilterFewer<A>(p: A -> bool, q: A -> bool, xs: seq<A>)
    requires forall x :: x in xs && p(x) ==> q(x)
    ensures |Filter(p, xs)| <= |Filter(q, xs)|
    ensures (exists x :: x in xs && q(x) && !p(x)) ==> |Filter(p, xs)| < |Filter(q, xs)|
  {
    if xs != [] {
      var init, x := xs[..|xs| - 1], xs[|xs| - 1];
      FilterFewer(p, q, init);
      assert xs == init + [x];
    }
  }

  /** An aggregating view's money list names its money and window columns and nothing else of it. */
  ghost predicate RollupMarked(spec: AggregateViewSpec, money: set<string>) {
    && (forall g :: g in spec.grain ==> g.1 !in money)
    && (forall a :: a in spec.measures ==> a.1 !in money)
    && (forall a :: a in spec.money ==> a.1 in money)
    && (forall w :: w in spec.windows ==> w.1 in money)
  }

  lemma KeepsNamed(names: set<string>, cells: NamedRow)
    ensures (forall i :: 0 <= i < |cells| ==> cells[i].0 !in names) ==> Filter(NotNamed(names), cells) == cells
    ensures (forall i :: 0 <= i < |cells| ==> cells[i].0 in names) ==> Filter(NotNamed(names), cells) == []
  {
    if forall i :: 0 <= i < |cells| ==> cells[i].0 !in names { FilterAll(NotNamed(names), cells); }
    if forall i :: 0 <= i < |cells| ==> cells[i].0 in names { FilterNone(NotNamed(names), cells); }
  }

  lemma NamedCells(spec: AggregateViewSpec, money: set<string>, k: Key, group: seq<Row>)
    requires RollupMarked(spec, money) && |k| == |spec.grain|
    ensures var base := KeyCells(spec.grain, k) + AggCells(spec.measures, group);
            Filter(NotNamed(money), base) == base
    ensures Filter(NotNamed(money), AggCells(spec.money, group)) == []
  {
    var base := KeyCells(spec.grain, k) + AggCells(spec.measures, group);
    forall i | 0 <= i < |base| ensures base[i].0 !in money {
      if i < |k| { assert spec.grain[i] in spec.grain; }
      else { assert spec.measures[i - |k|] in spec.measures; }
    }
    KeepsNamed(money, base);
    var ms := AggCells(spec.money, group);
    forall i | 0 <= i < |ms| ensures ms[i].0 in money {
      assert spec.money[i] in spec.money;
    }
    KeepsNamed(money, ms);
  }

  lemma WindowCells(spec: AggregateViewSpec, money: set<string>, rel: seq<NamedRow>, row: NamedRow)
    requires RollupMarked(spec, money)
    ensures Filter(NotNamed(money), WindowRow(spec.windows, rel, row)) == []
  {
    var ws := WindowRow(spec.windows, rel, row);
    forall i | 0 <= i < |ws| ensures ws[i].0 in money {
      assert spec.windows[i] in spec.windows;
    }
    KeepsNamed(money, ws);
  }

  lemma StripParts(names: set<string>, base: NamedRow, money: NamedRow, windows: NamedRow)
    requires Filter(NotNamed(names), base) == base
    requires Filter(NotNamed(names), money) == [] && Filter(NotNamed(names), windows) == []
    ensures Strip(names, base + (money + windows)) == base
  {
    FilterAppend(NotNamed(names), money, windows);
    FilterAppend(NotNamed(names), base, money + windows);
  }

  lemma AggCellsAppend(a: seq<(Agg, string)>, b: seq<(Agg, string)>, group: seq<Row>)
    ensures AggCells(a + b, group) == AggCells(a, group) + AggCells(b, group)
  {
    MapAppend((x: (Agg, string)) => (x.1, EvalAgg(x.0, group)), a, b);
  }

  /** The cells an executive keeps of a rolled-up row. */
  function ExecCells(spec: AggregateViewSpec, k: Key, rows: seq<Row>): NamedRow {
    InnerRow(spec.grain, spec.measures, rows, k)
  }

  lemma HodRowParts(spec: AggregateViewSpec, k: Key, rows: seq<Row>)
    ensures InnerRow(spec.grain, spec.measures + spec.money, rows, k)
         == ExecCells(spec, k, rows) + AggCells(spec.money, Group(spec.grain, rows, k))
  {
    AggCellsAppend(spec.measures, spec.money, Group(spec.grain, rows, k));
  }

  lemma StripRollupRow(spec: AggregateViewSpec, money: set<string>, k: Key, rows: seq<Row>, rel: seq<NamedRow>,
                       row: NamedRow)
    requires RollupMarked(spec, money) && |k| == |spec.grain|
    requires row == InnerRow(spec.grain, spec.measures + spec.money, rows, k)
    ensures Strip(money, OuterRow(spec.windows, rel, row)) == ExecCells(spec, k, rows)
  {
    var ms, ws := AggCells(spec.money, Group(spec.grain, rows, k)), WindowRow(spec.windows, rel, row);
    var base := ExecCells(spec, k, rows);
    HodRowParts(spec, k, rows);
    assert row + ws == base + (ms + ws);
    NamedCells(spec, money, k, Group(spec.grain, rows, k));
    WindowCells(spec, money, rel, row);
    StripParts(money, base, ms, ws);
  }

  /** The same for an aggregating view: EXEC is HOD without the money and window columns. */
  lemma ExecRollupIsHodWithoutMoney(spec: AggregateViewSpec, money: set<string>, rows: seq<Row>)
    requires RollupMarked(spec, money)
    ensures var exec, hod := Run(AggregateBody(spec, false), rows), Run(AggregateBody(spec, true), rows);
            |exec| == |hod| && forall i :: 0 <= i < |exec| ==> exec[i] == Strip(money, hod[i])
  {
    forall i | 0 <= i < |Keys(spec.grain, rows)|
      ensures Run(AggregateBody(spec, false), rows)[i] == Strip(money, Run(AggregateBody(spec, true), rows)[i])
    {
      ExecRollupRow(spec, rows, i);
      StripRollupRow(spec, money, Keys(spec.grain, rows)[i], rows, Inner(spec.grain, spec.measures + spec.money, rows),
                     Inner(spec.grain, spec.measures + spec.money, rows)[i]);
    }
  }

  /** Without windows a rolled-up row is the group's own. */
  lemma ExecRollupRow(spec: AggregateViewSpec, rows: seq<Row>, i: nat)
    requires i < |Keys(spec.grain, rows)|
    ensures |Keys(spec.grain, rows)[i]| == |spec.grain|
    ensures Run(AggregateBody(spec, false), rows)[i] == ExecCells(spec, Keys(spec.grain, rows)[i], rows)
  {
    var k := Keys(spec.grain, rows)[i];
    assert k in Keys(spec.grain, rows);
    assert spec.measures + [] == spec.measures;
    var rel := Inner(spec.grain, spec.measures, rows);
    assert OuterRow([], rel, rel[i]) == rel[i];
  }

  /** A content whose single row separates the two values of a money-reading member split. */
  lemma MemberCaseSeparates(s: Split, money: set<string>) returns (t: Row, u: Row)
    requires s.source in money || CUSTOMER_TYPE in money
    ensures SameExcept(money, [t], [u])
    ensures EvalTerm(SplitTerm(s), t) != EvalTerm(SplitTerm(s), u)
  {
    if s.source == CUSTOMER_TYPE {
      t, u := map[CUSTOMER_TYPE := MEMBER], map[CUSTOMER_TYPE := Null];
    } else if s.source in money {
      t, u := map[CUSTOMER_TYPE := MEMBER, s.source := Num(1)], map[CUSTOMER_TYPE := MEMBER, s.source := Num(2)];
    } else {
      t, u := map[CUSTOMER_TYPE := MEMBER, s.source := Num(1)], map[CUSTOMER_TYPE := Null, s.source := Num(1)];
    }
  }

  ghost predicate IgnoresColumns(body: ViewBody, cols: set<string>) {
    forall t, u :: SameExcept(cols, t, u) ==> Run(body, t) == Run(body, u)
  }

  /** No split an executive receives is computed from a money column. */
  ghost predicate SplitsMoneyFree(columns: seq<string>, money: set<string>, splits: seq<Split>) {
    forall s :: s in splits && s.source in columns && !s.needsMoney ==>
      s.source !in money && CUSTOMER_TYPE !in money
  }

  /** What an executive sees is independent of the money columns exactly when the splits are. */
  lemma ExecIgnoresMoneyIff(columns: seq<string>, money: set<string>, splits: seq<Split>)
    ensures IgnoresColumns(ProjectionBody(columns, money, splits, false), money)
            <==> SplitsMoneyFree(columns, money, splits)
  {
    var body := ProjectionBody(columns, money, splits, false);
    var kept := Filter(Kept(columns, false), splits);
    var cols := Filter(Shown(money, false), columns);
    FilterMembers(Kept(columns, false), splits);
    FilterMembers(Shown(money, false), columns);
    if SplitsMoneyFree(columns, money, splits) {
      forall e, c | e in body.terms && c in TermReads(e) ensures c !in money {
        var i :| 0 <= i < |body.terms| && body.terms[i] == e;
        if i < |cols| { assert cols[i] in cols; } else { assert kept[i - |cols|] in kept; }
      }
      forall t, u | SameExcept(money, t, u) ensures Run(body, t) == Run(body, u) {
        RunReadsOnly(body, money, t, u);
      }
    } else {
      var s :| s in splits && s.source in columns && !s.needsMoney && (s.source in money || CUSTOMER_TYPE in money);
      assert s in kept;
      var i :| 0 <= i < |kept| && kept[i] == s;
      var t, u := MemberCaseSeparates(s, money);
      assert body.terms[|cols| + i] == SplitTerm(s);
      assert Run(body, [t])[0][|cols| + i] == (s.alias, EvalTerm(SplitTerm(s), t));
      assert Run(body, [u])[0][|cols| + i] == (s.alias, EvalTerm(SplitTerm(s), u));
    }
  }

  // ------------------------------------------------------------------
  // Aggregating views
  // ------------------------------------------------------------------

  /** SUM takes numbers; customer_type is text. */
  ghost predicate Summable(spec: AggregateViewSpec) { forall a :: a in spec.measures ==> a.0.column != CUSTOMER_TYPE }

  /** Two contents of one row that differ in one of these columns and in what the group key or a measure makes of it. */
  lemma GrainSeparates(g: GrainExpr) returns (t: Row, u: Row)
    ensures SameExcept({g.column}, [t], [u]) && EvalGrain(g, t) != EvalGrain(g, u)
  {
    t, u := map[g.column := Day(Date(2025, 6, 1))], map[g.column := Null];
  }

  lemma AggSeparates(a: Agg, cols: set<string>) returns (t: Row, u: Row)
    requires a.column != CUSTOMER_TYPE && (a.column in cols || (a.membersOnly && CUSTOMER_TYPE in cols))
    ensures SameExcept(cols, [t], [u]) && Plus(Null, AggArg(a, t)) != Plus(Null, AggArg(a, u))
  {
    t := map[CUSTOMER_TYPE := MEMBER, a.column := Num(1)];
    if a.column in cols {
      u := map[CUSTOMER_TYPE := MEMBER, a.column := Num(2)];
    } else {
      u := map[CUSTOMER_TYPE := Null, a.column := Num(1)];
    }
  }

  lemma OneRowRun(body: ViewBody, r: Row)
    requires body.Grouped? && body.windows == []
    ensures Run(body, [r]) == [KeyCells(body.grain, KeyOf(body.grain, r)) + AggCells(body.aggs, [r])]
  {
    var k := KeyOf(body.grain, r);
    assert [r][..0] == [] && Keys(body.grain, [r]) == [k];
    assert Group(body.grain, [r], k) == [r];
    var row := InnerRow(body.grain, body.aggs, [r], k);
    assert Inner(body.grain, body.aggs, [r])[0] == row;
    assert OuterRow([], Inner(body.grain, body.aggs, [r]), row) == row;
  }

  lemma OneRowSum(a: Agg, r: Row)
    ensures EvalAgg(a, [r]) == Plus(Null, AggArg(a, r))
  {
    var rows: seq<Row>, k: Key := [], [];
    GroupAppend([], rows, r, k, a);
    assert rows + [r] == [r] && [r][..0] == rows;
    assert KeyOf([], r) == k;
    assert Group([], [r], k) == [r] && Group([], rows, k) == rows;
  }

  lemma ReadGrainShows(spec: AggregateViewSpec, cols: set<string>, i: nat)
    requires i < |spec.grain| && spec.grain[i].0.column in cols
    ensures !IgnoresColumns(AggregateBody(spec, false), cols)
  {
    var body, g := AggregateBody(spec, false), spec.grain[i].0;
    var t, u := GrainSeparates(g);
    SameExceptMore({g.column}, cols, [t], [u]);
    OneRowRun(body, t);
    OneRowRun(body, u);
    assert Run(body, [t])[0][i].1 == EvalGrain(g, t) && Run(body, [u])[0][i].1 == EvalGrain(g, u);
  }

  lemma SameExceptMore(few: set<string>, more: set<string>, t: seq<Row>, u: seq<Row>)
    requires few <= more && SameExcept(few, t, u)
    ensures SameExcept(more, t, u)
  {
  }

  lemma ReadMeasureShows(spec: AggregateViewSpec, cols: set<string>, j: nat)
    requires j < |spec.measures| && spec.measures[j].0.column != CUSTOMER_TYPE
    requires AggReads(spec.measures[j].0) * cols != {}
    ensures !IgnoresColumns(AggregateBody(spec, false), cols)
  {
    var t, u := AggSeparates(spec.measures[j].0, cols);
    MeasureCell(spec, j, t);
    MeasureCell(spec, j, u);
    OneExecRow(spec, t);
    OneExecRow(spec, u);
    CellsDiffer(SingleRow(spec, t), SingleRow(spec, u), |spec.grain| + j);
    Separated(AggregateBody(spec, false), cols, t, u);
  }

  lemma Separated(body: ViewBody, cols: set<string>, t: Row, u: Row)
    requires SameExcept(cols, [t], [u]) && Run(body, [t]) != Run(body, [u])
    ensures !IgnoresColumns(body, cols)
  {
  }

  lemma CellsDiffer(a: NamedRow, b: NamedRow, i: nat)
    requires i < |a| && i < |b| && a[i].1 != b[i].1
    ensures [a] != [b]
  {
    assert [a][0] == a && [b][0] == b;
  }

  /** The one row an executive sees over a single fact row. */
  function SingleRow(spec: AggregateViewSpec, r: Row): NamedRow {
    KeyCells(spec.grain, KeyOf(spec.grain, r)) + AggCells(spec.measures, [r])
  }

  lemma OneExecRow(spec: AggregateViewSpec, r: Row)
    ensures Run(AggregateBody(spec, false), [r]) == [SingleRow(spec, r)]
  {
    OneRowRun(AggregateBody(spec, false), r);
    assert spec.measures + [] == spec.measures;
  }

  lemma MeasureCell(spec: AggregateViewSpec, j: nat, r: Row)
    requires j < |spec.measures|
    ensures |SingleRow(spec, r)| == |spec.grain| + |spec.measures|
    ensures SingleRow(spec, r)[|spec.grain| + j].1 == Plus(Null, AggArg(spec.measures[j].0, r))
  {
    var cells := AggCells(spec.measures, [r]);
    assert |cells| == |spec.measures| && cells[j].1 == EvalAgg(spec.measures[j].0, [r]);
    OneRowSum(spec.measures[j].0, r);
  }

  /** An executive's rollup is independent of the money columns exactly when no group key or measure reads one. */
  lemma ExecRollupIgnoresMoneyIff(spec: AggregateViewSpec, money: set<string>)
    requires Summable(spec)
    ensures IgnoresColumns(AggregateBody(spec, false), money) <==> Reads(AggregateBody(spec, false)) !! money
  {
    var body := AggregateBody(spec, false);
    assert body.aggs == spec.measures;
    if Reads(body) !! money {
      forall t, u | SameExcept(money, t, u) ensures Run(body, t) == Run(body, u) {
        RunReadsOnly(body, money, t, u);
      }
    } else {
      var c :| c in Reads(body) && c in money;
      if g :| g in spec.grain && g.0.column == c {
        var i :| 0 <= i < |spec.grain| && spec.grain[i] == g;
        ReadGrainShows(spec, money, i);
      } else {
        var a :| a in spec.measures && c in AggReads(a.0);
        var j :| 0 <= j < |spec.measures| && spec.measures[j] == a;
        assert c in AggReads(a.0) * money;
        ReadMeasureShows(spec, money, j);
      }
    }
  }

  // ------------------------------------------------------------------
  // What a projecting view shows
  // ------------------------------------------------------------------

  lemma {:induction false} GetColumn(selected: seq<string>, r: Row, c: string)
    requires c in selected
    ensures Get(ProjectRow(Map(ToColumn(), selected), r), c) == Cell(r, c)
  {
    var cells := ProjectRow(Map(ToColumn(), selected), r);
    assert cells[0] == (selected[0], Cell(r, selected[0]));
    if selected[0] != c {
      assert cells[1..] == ProjectRow(Map(ToColumn(), selected[1..]), r);
      assert selected == [selected[0]] + selected[1..];
      GetColumn(selected[1..], r, c);
    }
  }

  lemma {:induction false} GetSplit(kept: seq<Split>, r: Row, s: Split)
    requires s in kept && forall o :: o in kept && o.alias == s.alias ==> o == s
    ensures Get(ProjectRow(Map(ToSplit(), kept), r), s.alias) == EvalTerm(MemberCase(s.source, s.alias), r)
  {
    SplitCells(kept, r);
    assert kept[0] in kept;
    if kept[0] != s {
      assert kept == [kept[0]] + kept[1..];
      GetSplit(kept[1..], r, s);
    }
  }

  lemma SplitCells(kept: seq<Split>, r: Row)
    requires kept != []
    ensures var cells := ProjectRow(Map(ToSplit(), kept), r);
            && cells != [] && cells[0] == (kept[0].alias, EvalTerm(MemberCase(kept[0].source, kept[0].alias), r))
            && cells[1..] == ProjectRow(Map(ToSplit(), kept[1..]), r)
  {
  }

  /** A row of the view in its two parts. */
  lemma ShownRowOf(columns: seq<string>, money: set<string>, splits: seq<Split>, includeMoney: bool,
                   rows: seq<Row>, i: nat)
    requires i < |rows|
    ensures |Run(ProjectionBody(columns, money, splits, includeMoney), rows)| == |rows|
    ensures Run(ProjectionBody(columns, money, splits, includeMoney), rows)[i]
         == ProjectRow(Map(ToColumn(), Filter(Shown(money, includeMoney), columns)), rows[i])
            + ProjectRow(SplitTerms(columns, includeMoney, splits), rows[i])
  {
    MapAppend((t: Term) => (TermName(t), EvalTerm(t, rows[i])),
              Map(ToColumn(), Filter(Shown(money, includeMoney), columns)),
              SplitTerms(columns, includeMoney, splits));
  }

  lemma ColumnPart(selected: seq<string>, r: Row)
    ensures var cells := ProjectRow(Map(ToColumn(), selected), r);
            |cells| == |selected| && forall j :: 0 <= j < |cells| ==> cells[j].0 == selected[j]
  {
  }

  /** A base column the role may see shows the cell of the row as it is. */
  lemma ColumnShows(columns: seq<string>, money: set<string>, splits: seq<Split>, includeMoney: bool,
                    rows: seq<Row>, i: nat, c: string)
    requires i < |rows| && c in columns && (includeMoney || c !in money)
    ensures var view := Run(ProjectionBody(columns, money, splits, includeMoney), rows);
            |view| == |rows| && Get(view[i], c) == Cell(rows[i], c)
  {
    var selected := Filter(Shown(money, includeMoney), columns);
    ShownRowOf(columns, money, splits, includeMoney, rows, i);
    FilterMembers(Shown(money, includeMoney), columns);
    ColumnPart(selected, rows[i]);
    GetColumn(selected, rows[i], c);
    var j :| 0 <= j < |selected| && selected[j] == c;
    GetLeft(ProjectRow(Map(ToColumn(), selected), rows[i]),
            ProjectRow(SplitTerms(columns, includeMoney, splits), rows[i]), c);
  }

  /** Which columns and splits a role's view keeps. */
  lemma KeptNames(columns: seq<string>, money: set<string>, splits: seq<Split>, includeMoney: bool)
    ensures forall c :: c in Filter(Shown(money, includeMoney), columns) <==>
              c in columns && (includeMoney || c !in money)
    ensures forall s :: s in Filter(Kept(columns, includeMoney), splits) <==>
              s in splits && s.source in columns && (includeMoney || !s.needsMoney)
  {
    FilterMembers(Shown(money, includeMoney), columns);
    FilterMembers(Kept(columns, includeMoney), splits);
  }

  lemma GetPastColumns(selected: seq<string>, kept: seq<Split>, r: Row, s: Split)
    requires s.alias !in selected && s in kept && forall o :: o in kept && o.alias == s.alias ==> o == s
    ensures Get(ProjectRow(Map(ToColumn(), selected), r) + ProjectRow(Map(ToSplit(), kept), r), s.alias)
         == EvalTerm(MemberCase(s.source, s.alias), r)
  {
    ColumnPart(selected, r);
    GetRight(ProjectRow(Map(ToColumn(), selected), r), ProjectRow(Map(ToSplit(), kept), r), s.alias);
    GetSplit(kept, r, s);
  }

  /** A member split the role may see shows its source for a member's row and 0 for any other. */
  lemma SplitShows(columns: seq<string>, money: set<string>, splits: seq<Split>, includeMoney: bool,
                   rows: seq<Row>, i: nat, s: Split)
    requires i < |rows| && s in splits && s.source in columns && (includeMoney || !s.needsMoney)
    requires s.alias !in columns && forall o :: o in splits && o.alias == s.alias ==> o == s
    ensures var view := Run(ProjectionBody(columns, money, splits, includeMoney), rows);
            && |view| == |rows|
            && Get(view[i], s.alias)
               == if Cell(rows[i], "customer_type") == Text("Member") then Cell(rows[i], s.source) else Num(0)
  {
    KeptNames(columns, money, splits, includeMoney);
    ShownRowOf(columns, money, splits, includeMoney, rows, i);
    GetPastColumns(Filter(Shown(money, includeMoney), columns), Filter(Kept(columns, includeMoney), splits),
                   rows[i], s);
  }

  /** A column the role may not see is not in the row at all, unless a split takes its name. */
  lemma HiddenShowsNothing(columns: seq<string>, money: set<string>, splits: seq<Split>, rows: seq<Row>, i: nat, j: nat)
    requires i < |rows| && forall s :: s in splits ==> s.alias !in money || s.needsMoney
    requires var view := Run(ProjectionBody(columns, money, splits, false), rows);
             i < |view| && j < |view[i]|
    ensures Run(ProjectionBody(columns, money, splits, false), rows)[i][j].0 !in money
  {
    var selected, kept := Filter(Shown(money, false), columns), Filter(Kept(columns, false), splits);
    ShownRowOf(columns, money, splits, false, rows, i);
    FilterMembers(Shown(money, false), columns);
    FilterMembers(Kept(columns, false), splits);
    ColumnPart(selected, rows[i]);
    if j < |selected| {
      assert selected[j] in selected;
    } else {
      assert kept[j - |selected|] in kept;
    }
  }
}
