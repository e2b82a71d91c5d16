/** The glossary's own derivation of which columns each persona view has, for whom. */
module Catalogue {
  import opened Wrappers
  import opened Seqs
  import opened Relations
  import opened PersonaViews
  import TextUtils

  datatype Role = HodOnly | Everyone

  /** A governed glossary row: one column of one base table. A blank role level is None. */
  datatype GlossaryRow = GlossaryRow(table: string, column: string, minRole: Option<Role>)

  /** What the service files: a column of a view and who may be shown it. */
  datatype Item = Item(table: string, field: string, minRole: Role)

  /** Raw entry for a column only the view has: None inherits from the source column's row. */
  datatype Derived = Derived(view: string, alias: string, source: Option<string>, minRole: Option<Role>)

  datatype Config = Config(
    views: seq<(string, string)>,                  // PERSONA_VIEWS, in order
    aggregates: map<string, AggregateViewSpec>,    // AGGREGATE_VIEWS
    splits: map<string, seq<Split>>,               // MEMBER_SPLITS
    money: map<string, set<string>>,               // MONEY_COLUMNS
    dimensions: set<string>,                       // JOINABLE_DIMENSIONS
    forbidden: set<string>)                        // FORBIDDEN_TABLES

  const SYSTEM_HIDDEN: set<string> := {"updated_at", "created_at"}
  const MONTH := "month_start_date"

  predicate Hidden(column: string) { TextUtils.Lower(column) in SYSTEM_HIDDEN }

  function MoneyOf(cfg: Config, name: string): set<string> { if name in cfg.money then cfg.money[name] else {} }
  function SplitsOf(cfg: Config, base: string): seq<Split> { if base in cfg.splits then cfg.splits[base] else [] }

  predicate HasPrefix(prefix: string, s: string) { |prefix| <= |s| && s[..|prefix|] == prefix }

  /** "member_quantity" -> "quantity". */
  function WithoutMember(s: string): string
    requires HasPrefix("member_", s)
  {
    s[7..]
  }

  // ------------------------------------------------------------------
  // Base table -> views
  // ------------------------------------------------------------------

  function BasedOn(base: string): ((string, string)) -> bool { (v: (string, string)) => v.1 == base }
  function ViewName(): ((string, string)) -> string { (v: (string, string)) => v.0 }

  /** The views built on a base table, in declaration order. */
  function ViewsOn(views: seq<(string, string)>, base: string): seq<string> {
    Map(ViewName(), Filter(BasedOn(base), views))
  }

  /** m lists, under every base table, the views built on it. */
  ghost predicate ListsViews(m: map<string, seq<string>>, views: seq<(string, string)>) {
    forall b :: ViewsOn(views, b) == if b in m then m[b] else []
  }

  /** _BASE_TO_VIEWS: every view stays listed under its base, however many share it. */
  method BuildBaseToViews(views: seq<(string, string)>) returns (m: map<string, seq<string>>)
    ensures ListsViews(m, views)
    ensures forall b :: b in m ==> m[b] != []
  {
    m := map[];
    for i := 0 to |views|
      invariant ListsViews(m, views[..i])
      invariant forall b :: b in m ==> m[b] != []
    {
      ListsViewsStep(m, views, i);
      var (view, base) := views[i];
      m := m[base := (if base in m then m[base] else []) + [view]];
    }
    assert views[..|views|] == views;
  }

  lemma ListsViewsStep(m: map<string, seq<string>>, views: seq<(string, string)>, i: nat)
    requires i < |views| && ListsViews(m, views[..i])
    ensures ListsViews(m[views[i].1 := (if views[i].1 in m then m[views[i].1] else []) + [views[i].0]], views[..i + 1])
  {
    var m' := m[views[i].1 := (if views[i].1 in m then m[views[i].1] else []) + [views[i].0]];
    forall b ensures ViewsOn(views[..i + 1], b) == if b in m' then m'[b] else [] {
      ViewsOnStep(views, i, b);
      assert ViewsOn(views[..i], b) == if b in m then m[b] else [];
    }
  }

  lemma ViewsOnStep(views: seq<(string, string)>, i: nat, b: string)
    requires i < |views|
    ensures ViewsOn(views[..i + 1], b) == ViewsOn(views[..i], b) + if views[i].1 == b then [views[i].0] else []
  {
    assert views[..i + 1][..i] == views[..i];
    var before := Filter(BasedOn(b), views[..i]);
    if views[i].1 == b {
      assert (before + [views[i]])[..|before|] == before;
    } else {
      assert before + [] == before;
    }
  }

  /** _BASE_TO_VIEWS.get(base, (base,)): a table without views keeps its own name. */
  function Targets(cfg: Config, table: string): seq<string> {
    if ViewsOn(cfg.views, table) == [] then [table] else ViewsOn(cfg.views, table)
  }

  lemma {:induction false} ViewsOnMembers(views: seq<(string, string)>, base: string)
    ensures forall v :: v in ViewsOn(views, base) <==> (v, base) in views
  {
    FilterMembers(BasedOn(base), views);
    var on := Filter(BasedOn(base), views);
    forall v ensures v in ViewsOn(views, base) <==> (v, base) in views {
      if (v, base) in views {
        assert (v, base) in on;
        var i :| 0 <= i < |on| && on[i] == (v, base);
        assert ViewsOn(views, base)[i] == v;
      }
      if v in ViewsOn(views, base) {
        var i :| 0 <= i < |on| && ViewsOn(views, base)[i] == v;
        assert on[i] in on;
      }
    }
  }

  // ------------------------------------------------------------------
  // Columns only a view has
  // ------------------------------------------------------------------

  /** The (expression, alias) names of an aggregating view, in its four groups. */
  function GrainNames(s: AggregateViewSpec): seq<string> { Map((g: (GrainExpr, string)) => g.1, s.grain) }
  function MeasureNames(s: AggregateViewSpec): seq<string> { Map((a: (Agg, string)) => a.1, s.measures) }
  function MoneyNames(s: AggregateViewSpec): seq<string> { Map((a: (Agg, string)) => a.1, s.money) }
  function WindowNames(s: AggregateViewSpec): seq<string> { Map((w: (Window, string)) => w.1, s.windows) }

  /** Every output name of an aggregating view. */
  function Projected(s: AggregateViewSpec): seq<string> {
    GrainNames(s) + MeasureNames(s) + MoneyNames(s) + WindowNames(s)
  }

  /** What the glossary treats as money on an aggregating view. */
  function RollupMoney(cfg: Config, view: string, s: AggregateViewSpec): set<string> {
    ToSet(MoneyNames(s)) + MoneyOf(cfg, view)
  }

  // Each loop of the generator appends what one of these functions gives for one element.

  function SplitSpec(view: string): Split -> seq<Derived> {
    (s: Split) => [Derived(view, s.alias, Some(s.source), if s.needsMoney then Some(HodOnly) else None)]
  }

  function AliasSpec(view: string, money: set<string>): string -> seq<Derived> {
    (alias: string) =>
      if alias == MONTH then [Derived(view, alias, Some("calendar_date"), None)]
      else if HasPrefix("member_", alias) then
        [Derived(view, alias, Some(WithoutMember(alias)), if alias in money then Some(HodOnly) else None)]
      else []
  }

  function WindowSpec(view: string, money: set<string>): string -> seq<Derived> {
    (alias: string) => [Derived(view, alias, None, Some(if alias in money then HodOnly else Everyone))]
  }

  /** The entries for one view, as a function of the configuration. */
  function DerivedOf(cfg: Config, view: string, base: string): seq<Derived> {
    if view in cfg.aggregates then
      var s := cfg.aggregates[view];
      var money := RollupMoney(cfg, view, s);
      FlatMap(AliasSpec(view, money), GrainNames(s) + MeasureNames(s) + MoneyNames(s))
      + FlatMap(WindowSpec(view, money), WindowNames(s))
    else FlatMap(SplitSpec(view), SplitsOf(cfg, base))
  }

  /** One of the generator's loops over a list. */
  method Collect<A, B>(f: A -> seq<B>, xs: seq<A>) returns (out: seq<B>)
    ensures out == FlatMap(f, xs)
  {
    out := [];
    for i := 0 to |xs|
      invariant out == FlatMap(f, xs[..i])
    {
      FlatMapStep(f, xs, i);
      out := out + f(xs[i]);
    }
    assert xs[..|xs|] == xs;
  }

  /** _derived_column_specs: its three loops, in order. */
  method DerivedColumnSpecs(cfg: Config, view: string, base: string) returns (specs: seq<Derived>)
    ensures specs == DerivedOf(cfg, view, base)
  {
    if view !in cfg.aggregates {
      specs := Collect(SplitSpec(view), SplitsOf(cfg, base));
      return;
    }
    var s := cfg.aggregates[view];
    var money := RollupMoney(cfg, view, s);
    specs := Collect(AliasSpec(view, money), GrainNames(s) + MeasureNames(s) + MoneyNames(s));
    var windows := Collect(WindowSpec(view, money), WindowNames(s));
    specs := specs + windows;
  }

  // ------------------------------------------------------------------
  // Rows by view, and ingest
  // ------------------------------------------------------------------

  /** A column is dropped for an aggregating view that does not project it. */
  predicate Surfaces(cfg: Config, view: string, column: string) {
    view in cfg.aggregates ==> column in Projected(cfg.aggregates[view])
  }

  /** The role level of the last row for a column; None when there is no row. */
  function LastRole(rows: seq<GlossaryRow>, table: string, column: string): Option<Role> {
    if rows == [] then None
    else
      var r := rows[|rows| - 1];
      if r.table == table && r.column == column then r.minRole else LastRole(rows[..|rows| - 1], table, column)
  }

  /** The role level a derived entry ends up with: its own, else its source column's, else blank. */
  function Inherited(rows: seq<GlossaryRow>, base: string, d: Derived): Option<Role> {
    if d.minRole.Some? then d.minRole
    else if d.source.None? then None
    else LastRole(rows, base, d.source.value)
  }

  datatype Entry = Entry(view: string, column: string, minRole: Option<Role>)

  /** One glossary row under one view. */
  function UnderView(cfg: Config, r: GlossaryRow): string -> seq<Entry> {
    (view: string) => if Surfaces(cfg, view, r.column) then [Entry(view, r.column, r.minRole)] else []
  }

  /** One glossary row under every view built on its table. */
  function OfRow(cfg: Config): GlossaryRow -> seq<Entry> {
    (r: GlossaryRow) =>
      if r.table == "" || r.column == "" then [] else FlatMap(UnderView(cfg, r), Targets(cfg, r.table))
  }

  function WithRole(rows: seq<GlossaryRow>, base: string): Derived -> seq<Entry> {
    (d: Derived) => [Entry(d.view, d.alias, Inherited(rows, base, d))]
  }

  /** The columns only one view has. */
  function OfView(cfg: Config, rows: seq<GlossaryRow>): ((string, string)) -> seq<Entry> {
    (v: (string, string)) => FlatMap(WithRole(rows, v.1), DerivedOf(cfg, v.0, v.1))
  }

  function EntriesOf(cfg: Config, rows: seq<GlossaryRow>): seq<Entry> {
    FlatMap(OfRow(cfg), rows) + FlatMap(OfView(cfg, rows), cfg.views)
  }

  /** _rows_by_view. */
  method RowsByView(cfg: Config, rows: seq<GlossaryRow>) returns (out: seq<Entry>)
    ensures out == EntriesOf(cfg, rows)
  {
    var targets := BuildBaseToViews(cfg.views);
    out := [];
    for i := 0 to |rows|
      invariant out == FlatMap(OfRow(cfg), rows[..i])
    {
      FlatMapStep(OfRow(cfg), rows, i);
      var r := rows[i];
      if r.table != "" && r.column != "" {
        var views := if r.table in targets then targets[r.table] else [r.table];
        assert ViewsOn(cfg.views, r.table) == if r.table in targets then targets[r.table] else [];
        var surfaced := Collect(UnderView(cfg, r), views);
        out := out + surfaced;
      }
    }
    assert rows[..|rows|] == rows;
    var derived := DerivedRows(cfg, rows);
    out := out + derived;
  }

  method DerivedRows(cfg: Config, rows: seq<GlossaryRow>) returns (derived: seq<Entry>)
    ensures derived == FlatMap(OfView(cfg, rows), cfg.views)
  {
    derived := [];
    for i := 0 to |cfg.views|
      invariant derived == FlatMap(OfView(cfg, rows), cfg.views[..i])
    {
      FlatMapStep(OfView(cfg, rows), cfg.views, i);
      var specs := DerivedColumnSpecs(cfg, cfg.views[i].0, cfg.views[i].1);
      var inherited := Collect(WithRole(rows, cfg.views[i].1), specs);
      derived := derived + inherited;
    }
    assert cfg.views[..|cfg.views|] == cfg.views;
  }

  /** This glossary row is surfaced as this entry. */
  ghost predicate FromRow(cfg: Config, r: GlossaryRow, e: Entry) {
    r.table != "" && r.column != "" && e.view in Targets(cfg, r.table)
    && Surfaces(cfg, e.view, r.column) && e == Entry(e.view, r.column, r.minRole)
  }

  /** This view's own column is filed as this entry. */
  ghost predicate FromView(cfg: Config, rows: seq<GlossaryRow>, v: (string, string), d: Derived, e: Entry) {
    d in DerivedOf(cfg, v.0, v.1) && e == Entry(d.view, d.alias, Inherited(rows, v.1, d))
  }

  lemma OfRowMember(cfg: Config, r: GlossaryRow, e: Entry)
    ensures e in OfRow(cfg)(r) <==> FromRow(cfg, r, e)
  {
    var views := Targets(cfg, r.table);
    FlatMapMember(UnderView(cfg, r), views, e);
    if FromRow(cfg, r, e) {
      var i :| 0 <= i < |views| && views[i] == e.view;
      assert e in UnderView(cfg, r)(views[i]);
    }
  }

  lemma OfViewMember(cfg: Config, rows: seq<GlossaryRow>, v: (string, string), e: Entry)
    ensures e in OfView(cfg, rows)(v) <==> exists d :: FromView(cfg, rows, v, d, e)
  {
    var specs := DerivedOf(cfg, v.0, v.1);
    FlatMapMember(WithRole(rows, v.1), specs, e);
    if e in OfView(cfg, rows)(v) {
      var i :| 0 <= i < |specs| && e in WithRole(rows, v.1)(specs[i]);
      assert FromView(cfg, rows, v, specs[i], e);
    }
    if exists d :: FromView(cfg, rows, v, d, e) {
      var d :| FromView(cfg, rows, v, d, e);
      var i :| 0 <= i < |specs| && specs[i] == d;
      assert e in WithRole(rows, v.1)(specs[i]);
    }
  }

  lemma RowOrigin(cfg: Config, rows: seq<GlossaryRow>, e: Entry)
    ensures e in FlatMap(OfRow(cfg), rows) <==> exists r :: r in rows && FromRow(cfg, r, e)
  {
    FlatMapMember(OfRow(cfg), rows, e);
    forall i | 0 <= i < |rows| { OfRowMember(cfg, rows[i], e); }
    if exists r :: r in rows && FromRow(cfg, r, e) {
      var r :| r in rows && FromRow(cfg, r, e);
      var i :| 0 <= i < |rows| && rows[i] == r;
      assert e in OfRow(cfg)(rows[i]);
    }
  }

  lemma ViewOrigin(cfg: Config, rows: seq<GlossaryRow>, e: Entry)
    ensures e in FlatMap(OfView(cfg, rows), cfg.views) <==>
            exists v, d :: v in cfg.views && FromView(cfg, rows, v, d, e)
  {
    FlatMapMember(OfView(cfg, rows), cfg.views, e);
    if e in FlatMap(OfView(cfg, rows), cfg.views) {
      var i :| 0 <= i < |cfg.views| && e in OfView(cfg, rows)(cfg.views[i]);
      OfViewMember(cfg, rows, cfg.views[i], e);
    }
    if v, d :| v in cfg.views && FromView(cfg, rows, v, d, e) {
      OfViewMember(cfg, rows, v, e);
      var i :| 0 <= i < |cfg.views| && cfg.views[i] == v;
      assert e in OfView(cfg, rows)(cfg.views[i]);
    }
  }

  /** Where an entry can come from. */
  lemma EntryOrigin(cfg: Config, rows: seq<GlossaryRow>, e: Entry)
    ensures e in EntriesOf(cfg, rows) <==> Yields(cfg, rows, e)
  {
    RowOrigin(cfg, rows, e);
    ViewOrigin(cfg, rows, e);
  }

  /** The entries a table name gets: surfaced glossary rows, and columns only the view has. */
  ghost predicate Yields(cfg: Config, rows: seq<GlossaryRow>, e: Entry) {
    (exists r :: r in rows && FromRow(cfg, r, e))
    || (exists v, d :: v in cfg.views && FromView(cfg, rows, v, d, e))
  }

  predicate Queryable(cfg: Config, name: string) {
    !(name in cfg.forbidden || HasPrefix("copilot_", name))
    && ((exists v :: v in cfg.views && v.0 == name) || name in cfg.dimensions)
  }

  lemma FiledStep(cfg: Config, entries: seq<Entry>, i: nat)
    requires i < |entries|
    ensures forall t, c :: Filed(cfg, entries[..i + 1], t, c) <==>
              Filed(cfg, entries[..i], t, c)
              || (Queryable(cfg, t) && t == entries[i].view && c == entries[i].column)
  {
    assert entries[..i + 1] == entries[..i] + [entries[i]];
  }

  /** A blank role level means EXEC: everyone. */
  function ItemOf(e: Entry): Item {
    Item(e.view, e.column, if e.minRole.Some? then e.minRole.value else Everyone)
  }

  function Shows(cfg: Config): Entry -> seq<Item> {
    (e: Entry) => if Queryable(cfg, e.view) && !Hidden(e.column) then [ItemOf(e)] else []
  }

  /** The columns of a table among some entries. */
  ghost predicate Filed(cfg: Config, entries: seq<Entry>, t: string, c: string) {
    Queryable(cfg, t) && exists e :: e in entries && e.view == t && e.column == c
  }

  function ForEveryone(): Item -> bool { (it: Item) => it.minRole != HodOnly }
  function OfTable(t: string): Item -> bool { (it: Item) => it.table == t }

  /** The rows of a dictionary a caller who may, or may not, see money is shown. */
  function VisibleOf(rows: seq<Item>, canSeeMoney: bool): seq<Item> {
    if canSeeMoney then rows else Filter(ForEveryone(), rows)
  }

  class GlossaryService {
    var allTables: set<string>
    var columnsByTable: map<string, set<string>>
    var dictionaryRows: seq<Item>
    var rowsByTable: map<string, seq<Item>>

    constructor ()
      ensures Empty()
    {
      allTables, columnsByTable, dictionaryRows, rowsByTable := {}, map[], [], map[];
    }

    predicate Empty()
      reads this
    {
      allTables == {} && columnsByTable == map[] && dictionaryRows == [] && rowsByTable == map[]
    }

    function ColumnsOf(table: string): set<string>
      reads this
    {
      if table in columnsByTable then columnsByTable[table] else {}
    }

    function RowsOf(table: string): seq<Item>
      reads this
    {
      if table in rowsByTable then rowsByTable[table] else []
    }

    /** rows_by_table splits the dictionary by table. */
    ghost predicate RowsByTable()
      reads this
    {
      forall t :: RowsOf(t) == Filter(OfTable(t), dictionaryRows)
    }

    ghost predicate Consistent()
      reads this
    {
      RowsByTable() && forall t :: t in allTables <==> ColumnsOf(t) != {}
    }

    /** The state after ingesting these glossary rows. */
    ghost predicate Ingested(cfg: Config, rows: seq<GlossaryRow>)
      reads this
    {
      && (forall t, c :: c in ColumnsOf(t) <==> Filed(cfg, EntriesOf(cfg, rows), t, c))
      && dictionaryRows == FlatMap(Shows(cfg), EntriesOf(cfg, rows))
      && Consistent()
    }

    /** One round of the ingest loop. */
    method FileEntry(cfg: Config, e: Entry)
      requires Consistent()
      modifies this
      ensures Consistent()
      ensures dictionaryRows == old(dictionaryRows) + Shows(cfg)(e)
      ensures forall t, c :: c in ColumnsOf(t) <==>
                c in old(ColumnsOf(t)) || (Queryable(cfg, t) && t == e.view && c == e.column)
    {
      if !Queryable(cfg, e.view) { return; }
      allTables := allTables + {e.view};
      columnsByTable := columnsByTable[e.view := ColumnsOf(e.view) + {e.column}];
      assert e.column in ColumnsOf(e.view);
      if Hidden(e.column) { return; }
      AddRow(ItemOf(e));
    }

    method AddRow(it: Item)
      requires RowsByTable()
      modifies this`dictionaryRows, this`rowsByTable
      ensures RowsByTable() && dictionaryRows == old(dictionaryRows) + [it]
    {
      OneMoreRow(it);
      dictionaryRows := dictionaryRows + [it];
      rowsByTable := rowsByTable[it.table := RowsOf(it.table) + [it]];
    }

    lemma OneMoreRow(it: Item)
      ensures forall t :: Filter(OfTable(t), dictionaryRows + [it])
                       == Filter(OfTable(t), dictionaryRows) + if it.table == t then [it] else []
    {
      assert (dictionaryRows + [it])[..|dictionaryRows|] == dictionaryRows;
    }

    /** _ingest. */
    method Ingest(cfg: Config, rows: seq<GlossaryRow>)
      requires Empty()
      modifies this
      ensures Ingested(cfg, rows)
    {
      var entries := RowsByView(cfg, rows);
      for i := 0 to |entries|
        invariant forall t, c :: c in ColumnsOf(t) <==> Filed(cfg, entries[..i], t, c)
        invariant dictionaryRows == FlatMap(Shows(cfg), entries[..i])
        invariant Consistent()
      {
        FlatMapStep(Shows(cfg), entries, i);
        FiledStep(cfg, entries, i);
        FileEntry(cfg, entries[i]);
      }
      assert entries[..|entries|] == entries;
    }

    /** visible_rows. */
    function VisibleRows(canSeeMoney: bool): seq<Item>
      reads this
    {
      VisibleOf(dictionaryRows, canSeeMoney)
    }

    /** Some row this caller is shown names this column of this table. */
    ghost predicate Visible(canSeeMoney: bool, table: string, c: string)
      reads this
    {
      NamesColumn(VisibleRows(canSeeMoney), table, c)
    }
  }

  ghost predicate NamesColumn(items: seq<Item>, table: string, c: string) {
    exists it :: it in items && it.table == table && it.field == c
  }

  // ------------------------------------------------------------------
  // What a caller is shown
  // ------------------------------------------------------------------

  /** A view or joinable dimension, unless forbidden or one of the copilot's own tables. */
  ghost predicate Subject(cfg: Config, t: string) {
    && ((exists i :: 0 <= i < |cfg.views| && cfg.views[i].0 == t) || t in cfg.dimensions)
    && t !in cfg.forbidden && !exists rest :: t == "copilot_" + rest
  }

  lemma PrefixIff(prefix: string, s: string)
    ensures HasPrefix(prefix, s) <==> exists rest :: s == prefix + rest
  {
    if HasPrefix(prefix, s) { assert s == prefix + s[|prefix|..]; }
  }

  lemma SubjectIff(cfg: Config, t: string)
    ensures Queryable(cfg, t) <==> Subject(cfg, t)
  {
    PrefixIff("copilot_", t);
  }

  lemma ShowsMember(cfg: Config, entries: seq<Entry>, it: Item)
    ensures it in FlatMap(Shows(cfg), entries) <==>
            exists e :: e in entries && Queryable(cfg, e.view) && !Hidden(e.column) && it == ItemOf(e)
  {
    FlatMapMember(Shows(cfg), entries, it);
    if e :| e in entries && Queryable(cfg, e.view) && !Hidden(e.column) && it == ItemOf(e) {
      var i :| 0 <= i < |entries| && entries[i] == e;
      assert it in Shows(cfg)(entries[i]);
    }
  }

  /** This entry is for this column, and not reserved from the caller. */
  predicate FilesFor(e: Entry, canSeeMoney: bool, t: string, c: string) {
    e.view == t && e.column == c && (canSeeMoney || e.minRole != Some(HodOnly))
  }

  lemma VisibleMember(rows: seq<Item>, canSeeMoney: bool, it: Item)
    ensures it in VisibleOf(rows, canSeeMoney) <==> it in rows && (canSeeMoney || it.minRole != HodOnly)
  {
    FilterMembers(ForEveryone(), rows);
  }

  lemma EntryIsVisible(cfg: Config, entries: seq<Entry>, canSeeMoney: bool, t: string, c: string, e: Entry)
    requires e in entries && FilesFor(e, canSeeMoney, t, c) && Queryable(cfg, t) && !Hidden(c)
    ensures NamesColumn(VisibleOf(FlatMap(Shows(cfg), entries), canSeeMoney), t, c)
  {
    ShowsMember(cfg, entries, ItemOf(e));
    VisibleMember(FlatMap(Shows(cfg), entries), canSeeMoney, ItemOf(e));
  }

  lemma VisibleHasEntry(cfg: Config, entries: seq<Entry>, canSeeMoney: bool, t: string, c: string)
    requires NamesColumn(VisibleOf(FlatMap(Shows(cfg), entries), canSeeMoney), t, c)
    ensures Queryable(cfg, t) && !Hidden(c) && exists e :: e in entries && FilesFor(e, canSeeMoney, t, c)
  {
    var it :| it in VisibleOf(FlatMap(Shows(cfg), entries), canSeeMoney) && it.table == t && it.field == c;
    VisibleMember(FlatMap(Shows(cfg), entries), canSeeMoney, it);
    ShowsMember(cfg, entries, it);
  }

  /** What the items made of some entries show, in terms of the entries. */
  lemma VisibleIff(cfg: Config, entries: seq<Entry>, canSeeMoney: bool, t: string, c: string)
    ensures NamesColumn(VisibleOf(FlatMap(Shows(cfg), entries), canSeeMoney), t, c) <==>
            Queryable(cfg, t) && !Hidden(c) && exists e :: e in entries && FilesFor(e, canSeeMoney, t, c)
  {
    if NamesColumn(VisibleOf(FlatMap(Shows(cfg), entries), canSeeMoney), t, c) {
      VisibleHasEntry(cfg, entries, canSeeMoney, t, c);
    }
    if Queryable(cfg, t) && !Hidden(c) {
      forall e | e in entries && FilesFor(e, canSeeMoney, t, c)
        ensures NamesColumn(VisibleOf(FlatMap(Shows(cfg), entries), canSeeMoney), t, c)
      {
        EntryIsVisible(cfg, entries, canSeeMoney, t, c, e);
      }
    }
  }

  /** The glossary and the configuration yield an entry for this column that the caller may see. */
  ghost predicate FiledFor(cfg: Config, rows: seq<GlossaryRow>, canSeeMoney: bool, t: string, c: string) {
    exists e :: Yields(cfg, rows, e) && FilesFor(e, canSeeMoney, t, c)
  }

  lemma FilesForYields(cfg: Config, rows: seq<GlossaryRow>, canSeeMoney: bool, t: string, c: string)
    ensures (exists e :: e in EntriesOf(cfg, rows) && FilesFor(e, canSeeMoney, t, c)) <==>
            FiledFor(cfg, rows, canSeeMoney, t, c)
  {
    forall e: Entry ensures e in EntriesOf(cfg, rows) <==> Yields(cfg, rows, e) { EntryOrigin(cfg, rows, e); }
  }

  lemma EntriesShown(cfg: Config, rows: seq<GlossaryRow>, canSeeMoney: bool, t: string, c: string)
    ensures NamesColumn(VisibleOf(FlatMap(Shows(cfg), EntriesOf(cfg, rows)), canSeeMoney), t, c) <==>
            Queryable(cfg, t) && !Hidden(c) && FiledFor(cfg, rows, canSeeMoney, t, c)
  {
    VisibleIff(cfg, EntriesOf(cfg, rows), canSeeMoney, t, c);
    FilesForYields(cfg, rows, canSeeMoney, t, c);
  }

  /**
   * A caller is shown a column of a table exactly when the table is a subject, the column is not one of
   * the two timestamps, and some entry files it without reserving it for money holders the caller is not.
   */
  lemma ShownIff(service: GlossaryService, cfg: Config, rows: seq<GlossaryRow>, canSeeMoney: bool,
                 t: string, c: string)
    requires service.Ingested(cfg, rows)
    ensures service.Visible(canSeeMoney, t, c) <==>
            && Subject(cfg, t) && TextUtils.Lower(c) != "updated_at" && TextUtils.Lower(c) != "created_at"
            && FiledFor(cfg, rows, canSeeMoney, t, c)
  {
    SubjectIff(cfg, t);
    EntriesShown(cfg, rows, canSeeMoney, t, c);
  }

  lemma NoViewOn(views: seq<(string, string)>, base: string)
    requires forall v :: v in views ==> v.1 != base
    ensures ViewsOn(views, base) == []
  {
    FilterNone(BasedOn(base), views);
  }

  lemma PlainTableRow(cfg: Config, r: GlossaryRow, e: Entry)
    requires forall v :: v in cfg.views ==> v.0 != e.view && v.1 != e.view
    requires e.view !in cfg.aggregates
    ensures FromRow(cfg, r, e) <==> r == GlossaryRow(e.view, e.column, e.minRole) && e.view != "" && e.column != ""
  {
    NoViewOn(cfg.views, e.view);
    ViewsOnMembers(cfg.views, r.table);
  }
}
