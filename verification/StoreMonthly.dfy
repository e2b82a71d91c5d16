/**
 * What v_sales_store_monthly shows over any content of fact_sales_daily, read off its rows: which facts
 * a row stands for, what its cells hold, and how it ranks.
 */
module StoreMonthly {
  import opened Calendar
  import opened Seqs
  import opened Relations
  import opened PersonaViews
  import opened Rollup
  import opened ServingSchema

  // ------------------------------------------------------------------
  // Which facts a row stands for
  // ------------------------------------------------------------------

  const KEPT: seq<string> :=
    ["opco_code", "store_id", "category_key", "category_l1_key", "category_l2_key", "category_l3_key",
     "category_l4_key", "customer_type"]

  /** The cell is the first day of the month of a day, and NULL for no day. */
  predicate FirstOfMonth(cell: Value, day: Value) {
    if day.Day? then cell == Day(Date(day.d.year, day.d.month, 1)) else cell == Null
  }

  /** The view row shows the fact's month and its other grain columns as they are. */
  predicate Covers(v: NamedRow, r: Row) {
    FirstOfMonth(Get(v, "month_start_date"), Cell(r, "calendar_date"))
    && forall i :: 0 <= i < |KEPT| ==> Get(v, KEPT[i]) == Cell(r, KEPT[i])
  }

  function CoveredBy(v: NamedRow): Row -> bool { (r: Row) => Covers(v, r) }

  /** What the proofs below use of the view's definition. */
  ghost predicate RollsByMonth(body: ViewBody) {
    && body.Grouped? && |body.grain| == |KEPT| + 1
    && body.grain[0] == (MonthOf("calendar_date"), "month_start_date")
    && (forall i :: 0 <= i < |KEPT| ==> body.grain[i + 1] == (Plain(KEPT[i]), KEPT[i]))
    && (forall i, j :: 0 <= i < j < |body.grain| ==> body.grain[i].1 != body.grain[j].1)
    && DistinctAliases(body)
  }

  lemma FactViewRolls()
    ensures RollsByMonth(FACT_VIEW)
  {
    AliasesDiffer();
    forall i | 0 <= i < |KEPT| { KeptIsGrain(i); }
    forall i, j | 0 <= i < j < |FACT_VIEW.grain| { GrainAliasesDiffer(i, j); }
  }

  lemma KeptIsGrain(i: nat)
    requires i < |KEPT|
    ensures FACT_VIEW.grain[i + 1] == (Plain(KEPT[i]), KEPT[i])
  {
  }

  lemma GrainAliasesDiffer(i: nat, j: nat)
    requires i < j < |FACT_VIEW.grain|
    ensures FACT_VIEW.grain[i].1 != FACT_VIEW.grain[j].1
  {
  }

  lemma {:induction false} GetKey(grain: Grain, k: Key, i: nat, rest: NamedRow)
    requires |k| == |grain| && i < |k| && forall j :: 0 <= j < i ==> grain[j].1 != grain[i].1
    ensures Get(KeyCells(grain, k) + rest, grain[i].1) == k[i]
  {
    var cells := KeyCells(grain, k) + rest;
    assert cells[0] == (grain[0].1, k[0]);
    if i > 0 {
      assert cells[1..] == KeyCells(grain[1..], k[1..]) + rest;
      GetKey(grain[1..], k[1..], i - 1, rest);
    }
  }

  /** A view row's grain cells are its key. */
  lemma KeyCell(body: ViewBody, rows: seq<Row>, k: Key, i: nat)
    requires body.Grouped? && k in Keys(body.grain, rows) && i < |body.grain|
    requires forall j :: 0 <= j < i ==> body.grain[j].1 != body.grain[i].1
    ensures |k| == |body.grain|
    ensures Get(ShownRow(body, rows)(k), body.grain[i].1) == k[i]
  {
    KeyLength(body.grain, rows);
    var rest := StartsWithKey(body, rows, k);
    GetKey(body.grain, k, i, rest);
  }

  lemma StartsWithKey(body: ViewBody, rows: seq<Row>, k: Key) returns (rest: NamedRow)
    requires body.Grouped? && |k| == |body.grain|
    ensures ShownRow(body, rows)(k) == KeyCells(body.grain, k) + rest
  {
    var aggs := AggCells(body.aggs, Group(body.grain, rows, k));
    var windows := WindowRow(body.windows, WholeRel(body, rows), PlainRow(body, rows)(k));
    rest := aggs + windows;
    ShownRowParts(body, rows, k);
    PlainRowParts(body, rows, k);
    Regroup(KeyCells(body.grain, k), aggs, windows);
  }

  lemma PlainRowParts(body: ViewBody, rows: seq<Row>, k: Key)
    requires body.Grouped? && |k| == |body.grain|
    ensures PlainRow(body, rows)(k) == KeyCells(body.grain, k) + AggCells(body.aggs, Group(body.grain, rows, k))
  {
  }

  lemma Regroup(a: NamedRow, b: NamedRow, c: NamedRow)
    ensures a + b + c == a + (b + c)
  {
  }

  lemma FirstOfMonthIff(cell: Value, r: Row, c: string)
    ensures FirstOfMonth(cell, Cell(r, c)) <==> cell == EvalGrain(MonthOf(c), r)
  {
  }

  lemma KeyAt(grain: Grain, r: Row, i: nat)
    requires i < |grain|
    ensures |KeyOf(grain, r)| == |grain| && KeyOf(grain, r)[i] == EvalGrain(grain[i].0, r)
  {
  }

  /** A row covers exactly the facts of its own key. */
  lemma CoversIffKey(body: ViewBody, rows: seq<Row>, k: Key, r: Row)
    requires RollsByMonth(body) && k in Keys(body.grain, rows)
    ensures Covers(ShownRow(body, rows)(k), r) <==> KeyOf(body.grain, r) == k
  {
    var v, key, grain := ShownRow(body, rows)(k), KeyOf(body.grain, r), body.grain;
    KeyCell(body, rows, k, 0);
    KeyAt(grain, r, 0);
    FirstOfMonthIff(k[0], r, "calendar_date");
    forall i | 0 <= i < |KEPT| ensures Get(v, KEPT[i]) == Cell(r, KEPT[i]) <==> k[i + 1] == key[i + 1] {
      KeyCell(body, rows, k, i + 1);
      KeyAt(grain, r, i + 1);
    }
    if Covers(v, r) {
      forall j | 0 <= j < |k| ensures k[j] == key[j] {
        if j > 0 { assert Get(v, KEPT[j - 1]) == Cell(r, KEPT[j - 1]); }
      }
      assert k == key;
    }
  }

  lemma FactHasOneRow(body: ViewBody, rows: seq<Row>, r: Row)
    requires RollsByMonth(body) && r in rows
    ensures exists i :: 0 <= i < |Run(body, rows)| && Covers(Run(body, rows)[i], r)
    ensures forall i, j :: 0 <= i < j < |Run(body, rows)| ==>
              !(Covers(Run(body, rows)[i], r) && Covers(Run(body, rows)[j], r))
  {
    var keys := Keys(body.grain, rows);
    RunIsPerKey(body, rows);
    forall i | 0 <= i < |keys| ensures Covers(Run(body, rows)[i], r) <==> keys[i] == KeyOf(body.grain, r) {
      assert keys[i] in keys;
      CoversIffKey(body, rows, keys[i], r);
    }
    var i :| 0 <= i < |keys| && keys[i] == KeyOf(body.grain, r);
    assert Covers(Run(body, rows)[i], r);
  }

  /** Every fact is in exactly one row of the view. */
  lemma EveryFactHasOneRow(rows: seq<Row>, r: Row)
    requires r in rows
    ensures exists i :: 0 <= i < |Run(FACT_VIEW, rows)| && Covers(Run(FACT_VIEW, rows)[i], r)
    ensures forall i, j :: 0 <= i < j < |Run(FACT_VIEW, rows)| ==>
              !(Covers(Run(FACT_VIEW, rows)[i], r) && Covers(Run(FACT_VIEW, rows)[j], r))
  {
    FactViewRolls();
    FactHasOneRow(FACT_VIEW, rows, r);
  }

  lemma RowHasAFact(body: ViewBody, rows: seq<Row>, i: nat)
    requires RollsByMonth(body) && i < |Run(body, rows)|
    ensures exists r :: r in rows && Covers(Run(body, rows)[i], r)
  {
    var keys := Keys(body.grain, rows);
    RunIsPerKey(body, rows);
    assert keys[i] in keys;
    var r :| r in rows && KeyOf(body.grain, r) == keys[i];
    CoversIffKey(body, rows, keys[i], r);
  }

  /** And every row of the view has a fact. */
  lemma EveryRowHasAFact(rows: seq<Row>, i: nat)
    requires i < |Run(FACT_VIEW, rows)|
    ensures exists r :: r in rows && Covers(Run(FACT_VIEW, rows)[i], r)
  {
    FactViewRolls();
    RowHasAFact(FACT_VIEW, rows, i);
  }

  /** The facts agree in year and month of the date and in the other grain columns. */
  predicate SameGroup(r: Row, s: Row)
    requires Cell(r, "calendar_date").Day? && Cell(s, "calendar_date").Day?
  {
    && Cell(r, "calendar_date").d.year == Cell(s, "calendar_date").d.year
    && Cell(r, "calendar_date").d.month == Cell(s, "calendar_date").d.month
    && forall i :: 0 <= i < |KEPT| ==> Cell(r, KEPT[i]) == Cell(s, KEPT[i])
  }

  lemma CoveredTogether(v: NamedRow, r: Row, s: Row)
    requires Cell(r, "calendar_date").Day? && Cell(s, "calendar_date").Day? && Covers(v, r)
    ensures Covers(v, s) <==> SameGroup(r, s)
  {
  }

  /** Two facts land in one row exactly when they agree in year, month and the other grain columns. */
  lemma TwoFactsOneRowIff(rows: seq<Row>, r: Row, s: Row)
    requires r in rows && s in rows
    requires Cell(r, "calendar_date").Day? && Cell(s, "calendar_date").Day?
    ensures (exists i :: 0 <= i < |Run(FACT_VIEW, rows)| && Covers(Run(FACT_VIEW, rows)[i], r)
                         && Covers(Run(FACT_VIEW, rows)[i], s))
            <==> SameGroup(r, s)
  {
    var view := Run(FACT_VIEW, rows);
    EveryFactHasOneRow(rows, r);
    forall v | v in view && Covers(v, r) ensures Covers(v, s) <==> SameGroup(r, s) {
      CoveredTogether(v, r, s);
    }
    var i :| 0 <= i < |view| && Covers(view[i], r);
    assert view[i] in view;
  }

  /** Over two facts the view has one row or two, accordingly. */
  lemma OneRowOrTwo(r: Row, s: Row)
    requires Cell(r, "calendar_date").Day? && Cell(s, "calendar_date").Day?
    ensures |Run(FACT_VIEW, [r, s])| == if SameGroup(r, s) then 1 else 2
  {
    FactViewRolls();
    RowsOfTwo(FACT_VIEW, r, s);
  }

  lemma RowsOfTwo(body: ViewBody, r: Row, s: Row)
    requires RollsByMonth(body)
    requires Cell(r, "calendar_date").Day? && Cell(s, "calendar_date").Day?
    ensures |Run(body, [r, s])| == if SameGroup(r, s) then 1 else 2
  {
    KeysOfTwo(body.grain, r, s);
    RunIsPerKey(body, [r, s]);
    var k := KeyOf(body.grain, r);
    assert k in Keys(body.grain, [r, s]);
    CoversIffKey(body, [r, s], k, r);
    CoversIffKey(body, [r, s], k, s);
    CoveredTogether(ShownRow(body, [r, s])(k), r, s);
  }

  lemma KeysOfTwo(grain: Grain, r: Row, s: Row)
    ensures |Keys(grain, [r, s])| == if KeyOf(grain, r) == KeyOf(grain, s) then 1 else 2
  {
    assert [r, s][..1] == [r] && [r][..0] == [];
    assert Keys(grain, [r]) == [KeyOf(grain, r)];
  }

  // ------------------------------------------------------------------
  // What its cells hold
  // ------------------------------------------------------------------

  // The sum of the numbers among some values, and how many they are.
  function NumberTotal(vs: seq<Value>): int {
    if vs == [] then 0 else NumberTotal(vs[1..]) + if vs[0].Num? then vs[0].n else 0
  }

  function NumberCount(vs: seq<Value>): nat {
    if vs == [] then 0 else NumberCount(vs[1..]) + if vs[0].Num? then 1 else 0
  }

  lemma {:induction false} NumbersAppend(vs: seq<Value>, v: Value)
    ensures NumberCount(vs + [v]) == NumberCount(vs) + if v.Num? then 1 else 0
    ensures NumberTotal(vs + [v]) == NumberTotal(vs) + if v.Num? then v.n else 0
  {
    if vs == [] {
      assert vs + [v] == [v] && [v][1..] == [];
    } else {
      assert (vs + [v])[1..] == vs[1..] + [v];
      NumbersAppend(vs[1..], v);
    }
  }

  lemma {:induction false} SumIsTotal(vs: seq<Value>)
    ensures Sum(vs) == if NumberCount(vs) == 0 then Null else Num(NumberTotal(vs))
    ensures NumberCount(vs) == 0 ==> NumberTotal(vs) == 0
  {
    if vs != [] {
      var init, v := vs[..|vs| - 1], vs[|vs| - 1];
      SumIsTotal(init);
      NumbersAppend(init, v);
      assert vs == init + [v];
    }
  }

  /** What a fact adds to a total of a column, taken over all facts or over those of members. */
  function Adds(column: string, ofMembers: bool): Row -> Value {
    (r: Row) => if ofMembers && Cell(r, "customer_type") != Text("Member") then Null else Cell(r, column)
  }

  /** The cell is the total of a column over the facts the row covers. */
  ghost predicate Totals(rows: seq<Row>, v: NamedRow, alias: string, column: string, ofMembers: bool) {
    var vs := Map(Adds(column, ofMembers), Filter(CoveredBy(v), rows));
    Get(v, alias) == if NumberCount(vs) == 0 then Null else Num(NumberTotal(vs))
  }

  lemma GroupIsCovered(body: ViewBody, rows: seq<Row>, k: Key)
    requires RollsByMonth(body) && k in Keys(body.grain, rows)
    ensures Group(body.grain, rows, k) == Filter(CoveredBy(ShownRow(body, rows)(k)), rows)
  {
    var v, inGroup := ShownRow(body, rows)(k), (r: Row) => KeyOf(body.grain, r) == k;
    forall r | r in rows ensures inGroup(r) == CoveredBy(v)(r) { CoversIffKey(body, rows, k, r); }
    FilterCong(inGroup, CoveredBy(v), rows);
    FilterCong(inGroup, (r: Row) => KeyOf(body.grain, r) == k, rows);
  }

  lemma AggAsTotal(a: Agg, group: seq<Row>)
    ensures var vs := Map(Adds(a.column, a.membersOnly), group);
            EvalAgg(a, group) == if NumberCount(vs) == 0 then Null else Num(NumberTotal(vs))
  {
    MapCong((r: Row) => AggArg(a, r), Adds(a.column, a.membersOnly), group);
    SumIsTotal(Map(Adds(a.column, a.membersOnly), group));
  }

  lemma AggTotals(body: ViewBody, rows: seq<Row>, k: Key, j: nat)
    requires RollsByMonth(body) && k in Keys(body.grain, rows) && j < |body.aggs|
    ensures var a := body.aggs[j]; Totals(rows, ShownRow(body, rows)(k), a.1, a.0.column, a.0.membersOnly)
  {
    ShownRowParts(body, rows, k);
    AggCellOf(body, rows, k, j, WindowRow(body.windows, WholeRel(body, rows), PlainRow(body, rows)(k)));
    GroupIsCovered(body, rows, k);
    AggAsTotal(body.aggs[j].0, Group(body.grain, rows, k));
  }

  lemma RowTotals(body: ViewBody, rows: seq<Row>, i: nat, j: nat)
    requires RollsByMonth(body) && i < |Run(body, rows)| && j < |body.aggs|
    ensures var a := body.aggs[j]; Totals(rows, Run(body, rows)[i], a.1, a.0.column, a.0.membersOnly)
  {
    RunIsPerKey(body, rows);
    assert Keys(body.grain, rows)[i] in Keys(body.grain, rows);
    AggTotals(body, rows, Keys(body.grain, rows)[i], j);
  }

  lemma ShippedAggs()
    ensures |FACT_VIEW.aggs| == 6
    ensures FACT_VIEW.aggs[0] == (SumOf("transaction_count", false), "transaction_count")
    ensures FACT_VIEW.aggs[1] == (SumOf("quantity", false), "quantity")
    ensures FACT_VIEW.aggs[2] == (SumOf("transaction_count", true), "member_transaction_count")
    ensures FACT_VIEW.aggs[3] == (SumOf("gross_sales_amount", false), "gross_sales_amount")
    ensures FACT_VIEW.aggs[4] == (SumOf("gmv_amount", false), "gmv_amount")
    ensures FACT_VIEW.aggs[5] == (SumOf("gross_sales_amount", true), "member_sales_amount")
  {
  }

  /** Every total of the view is that of its column over the facts of its row. */
  lemma CellsAreTotals(rows: seq<Row>, i: nat)
    requires i < |Run(FACT_VIEW, rows)|
    ensures var v := Run(FACT_VIEW, rows)[i];
            && Totals(rows, v, "transaction_count", "transaction_count", false)
            && Totals(rows, v, "quantity", "quantity", false)
            && Totals(rows, v, "member_transaction_count", "transaction_count", true)
            && Totals(rows, v, "gross_sales_amount", "gross_sales_amount", false)
            && Totals(rows, v, "gmv_amount", "gmv_amount", false)
            && Totals(rows, v, "member_sales_amount", "gross_sales_amount", true)
  {
    FactViewRolls();
    ShippedAggs();
    CellsAreTotalsOf(FACT_VIEW, rows, i);
  }

  lemma CellsAreTotalsOf(body: ViewBody, rows: seq<Row>, i: nat)
    requires RollsByMonth(body) && |body.aggs| == 6 && i < |Run(body, rows)|
    ensures forall j :: 0 <= j < 6 ==>
              Totals(rows, Run(body, rows)[i], body.aggs[j].1, body.aggs[j].0.column, body.aggs[j].0.membersOnly)
  {
    forall j | 0 <= j < 6 { RowTotals(body, rows, i, j); }
  }

  // ------------------------------------------------------------------
  // How it ranks
  // ------------------------------------------------------------------

  /** One row of the view stands above another in its category of the month: NULL first, then the larger amount. */
  predicate Outsells(o: NamedRow, v: NamedRow) {
    && Get(o, "month_start_date") == Get(v, "month_start_date") && Get(o, "opco_code") == Get(v, "opco_code")
    && Get(o, "category_key") == Get(v, "category_key")
    && var a, b := Get(o, "gross_sales_amount"), Get(v, "gross_sales_amount");
       (a == Null && b != Null) || (a.Num? && b.Num? && a.n > b.n)
  }

  function OutsellersOf(v: NamedRow): NamedRow -> bool { (o: NamedRow) => Outsells(o, v) }

  ghost function Places<A>(p: A -> bool, xs: seq<A>): set<int> { set i | 0 <= i < |xs| && p(xs[i]) }

  lemma {:induction false} FilterCount<A>(p: A -> bool, xs: seq<A>)
    ensures |Filter(p, xs)| == |Places(p, xs)|
  {
    if xs != [] {
      var init := xs[..|xs| - 1];
      FilterCount(p, init);
      assert Places(p, xs) == Places(p, init) + if p(xs[|xs| - 1]) then {|xs| - 1} else {};
    }
  }

  const RANKED_BY: seq<string> := ["month_start_date", "opco_code", "category_key"]

  /** What the proofs below use of the view's windows. */
  ghost predicate RanksSales(body: ViewBody) {
    && body.Grouped? && |body.windows| == 2
    && body.windows[0] == (Rank(RANKED_BY, "gross_sales_amount"), "category_sales_rank")
    && body.windows[1] == (RankAtMost(RANKED_BY, "gross_sales_amount", 100), "is_top_100")
    && IsPlainCell(body, "month_start_date") && IsPlainCell(body, "opco_code")
    && IsPlainCell(body, "category_key") && IsPlainCell(body, "gross_sales_amount")
    && !IsPlainCell(body, "category_sales_rank") && !IsPlainCell(body, "is_top_100")
  }

  ghost predicate IsPlainCell(body: ViewBody, c: string)
    requires body.Grouped?
  {
    || (exists i :: 0 <= i < |body.grain| && body.grain[i].1 == c)
    || (exists j :: 0 <= j < |body.aggs| && body.aggs[j].1 == c)
  }

  lemma WindowNames(j: nat)
    ensures j < |FACT_VIEW.grain| ==>
              FACT_VIEW.grain[j].1 != "category_sales_rank" && FACT_VIEW.grain[j].1 != "is_top_100"
    ensures j < |FACT_VIEW.aggs| ==>
              FACT_VIEW.aggs[j].1 != "category_sales_rank" && FACT_VIEW.aggs[j].1 != "is_top_100"
  {
    ShippedAggs();
  }

  lemma ShippedWindows()
    ensures FACT_VIEW.windows == [(Rank(RANKED_BY, "gross_sales_amount"), "category_sales_rank"),
                                  (RankAtMost(RANKED_BY, "gross_sales_amount", 100), "is_top_100")]
  {
  }

  lemma FactViewRanks()
    ensures RanksSales(FACT_VIEW)
  {
    ShippedWindows();
    ShippedAggs();
    forall j | 0 <= j < |FACT_VIEW.grain| || 0 <= j < |FACT_VIEW.aggs| { WindowNames(j); }
    assert FACT_VIEW.grain[0].1 == "month_start_date" && FACT_VIEW.grain[1].1 == "opco_code";
    assert FACT_VIEW.grain[3].1 == "category_key" && FACT_VIEW.aggs[3].1 == "gross_sales_amount";
  }

  lemma PlainNames(body: ViewBody, rows: seq<Row>, k: Key, c: string)
    requires body.Grouped? && |k| == |body.grain|
    ensures IsPlainCell(body, c) <==>
              exists i :: 0 <= i < |PlainRow(body, rows)(k)| && PlainRow(body, rows)(k)[i].0 == c
  {
    var plain, n := PlainRow(body, rows)(k), |body.grain|;
    assert forall i :: 0 <= i < n ==> plain[i].0 == body.grain[i].1;
    assert forall j :: 0 <= j < |body.aggs| ==> plain[n + j].0 == body.aggs[j].1;
    assert forall i :: n <= i < |plain| ==> plain[i].0 == body.aggs[i - n].1;
  }

  /** The windows read grain and total cells only, which stand before the window cells of a row. */
  lemma ShownAsPlain(body: ViewBody, rows: seq<Row>, k: Key, c: string)
    requires body.Grouped? && k in Keys(body.grain, rows) && IsPlainCell(body, c)
    ensures Get(ShownRow(body, rows)(k), c) == Get(PlainRow(body, rows)(k), c)
  {
    KeyLength(body.grain, rows);
    PlainNames(body, rows, k, c);
    ShownRowParts(body, rows, k);
    GetLeft(PlainRow(body, rows)(k),
            WindowRow(body.windows, WholeRel(body, rows), PlainRow(body, rows)(k)), c);
  }

  lemma SamePartitionCells(o: NamedRow, v: NamedRow)
    ensures PartitionOf(RANKED_BY, o) == PartitionOf(RANKED_BY, v) <==>
            && Get(o, "month_start_date") == Get(v, "month_start_date")
            && Get(o, "opco_code") == Get(v, "opco_code") && Get(o, "category_key") == Get(v, "category_key")
  {
    var a, b := PartitionOf(RANKED_BY, o), PartitionOf(RANKED_BY, v);
    assert |a| == |b| == 3;
    assert a == b <==> a[0] == b[0] && a[1] == b[1] && a[2] == b[2];
  }

  lemma OutsellsIsAbove(body: ViewBody, rows: seq<Row>, w: Window, o: Key, k: Key)
    requires RanksSales(body) && o in Keys(body.grain, rows) && k in Keys(body.grain, rows)
    requires w.partition == RANKED_BY && w.order == "gross_sales_amount"
    ensures RankedAbove(w, PlainRow(body, rows)(o), PlainRow(body, rows)(k))
            <==> Outsells(ShownRow(body, rows)(o), ShownRow(body, rows)(k))
  {
    var so, po := ShownRow(body, rows)(o), PlainRow(body, rows)(o);
    var sk, pk := ShownRow(body, rows)(k), PlainRow(body, rows)(k);
    SameRankCells(body, rows, o);
    SameRankCells(body, rows, k);
    SameOutsells(so, po, sk, pk);
    OutsellsPlain(w, po, pk);
  }

  predicate SameRanked(a: NamedRow, b: NamedRow) {
    && Get(a, "month_start_date") == Get(b, "month_start_date") && Get(a, "opco_code") == Get(b, "opco_code")
    && Get(a, "category_key") == Get(b, "category_key") && Get(a, "gross_sales_amount") == Get(b, "gross_sales_amount")
  }

  lemma SameOutsells(so: NamedRow, po: NamedRow, sk: NamedRow, pk: NamedRow)
    requires SameRanked(so, po) && SameRanked(sk, pk)
    ensures Outsells(so, sk) <==> Outsells(po, pk)
  {
  }

  lemma SameRankCells(body: ViewBody, rows: seq<Row>, k: Key)
    requires RanksSales(body) && k in Keys(body.grain, rows)
    ensures SameRanked(ShownRow(body, rows)(k), PlainRow(body, rows)(k))
  {
    RankCellsArePlain(body);
    ShownAsPlain(body, rows, k, "month_start_date");
    ShownAsPlain(body, rows, k, "opco_code");
    ShownAsPlain(body, rows, k, "category_key");
    ShownAsPlain(body, rows, k, "gross_sales_amount");
  }

  lemma RankCellsArePlain(body: ViewBody)
    requires RanksSales(body)
    ensures IsPlainCell(body, "month_start_date") && IsPlainCell(body, "opco_code")
    ensures IsPlainCell(body, "category_key") && IsPlainCell(body, "gross_sales_amount")
  {
  }

  lemma OutsellsPlain(w: Window, o: NamedRow, v: NamedRow)
    requires w.partition == RANKED_BY && w.order == "gross_sales_amount"
    ensures RankedAbove(w, o, v) <==> Outsells(o, v)
  {
    SamePartitionCells(o, v);
  }

  /** How many rows of the view outsell one of them. */
  ghost function Outsellers(view: seq<NamedRow>, i: nat): nat
    requires i < |view|
  {
    |set o | 0 <= o < |view| && Outsells(view[o], view[i])|
  }

  lemma OutsellersCounted(view: seq<NamedRow>, i: nat)
    requires i < |view|
    ensures Outsellers(view, i) == |Filter(OutsellersOf(view[i]), view)|
  {
    FilterCount(OutsellersOf(view[i]), view);
    assert Places(OutsellersOf(view[i]), view) == set o | 0 <= o < |view| && Outsells(view[o], view[i]);
  }

  /** The rank of a row is one more than the number of rows of the view that outsell it. */
  lemma RankCounts(body: ViewBody, rows: seq<Row>, w: Window, i: nat)
    requires RanksSales(body) && i < |Run(body, rows)|
    requires w.partition == RANKED_BY && w.order == "gross_sales_amount"
    ensures i < |Keys(body.grain, rows)|
    ensures RankOf(w, WholeRel(body, rows), PlainRow(body, rows)(Keys(body.grain, rows)[i]))
         == 1 + Outsellers(Run(body, rows), i)
  {
    var keys, plain, shown := Keys(body.grain, rows), PlainRow(body, rows), ShownRow(body, rows);
    RunIsPerKey(body, rows);
    var v, k := Run(body, rows)[i], keys[i];
    assert k in keys && v == shown(k);
    RankIsCount(w, WholeRel(body, rows), plain(k));
    FilterMap(AboveRow(w, plain(k)), plain, keys);
    FilterMap(OutsellersOf(v), shown, keys);
    forall o | o in keys ensures After(AboveRow(w, plain(k)), plain)(o) == After(OutsellersOf(v), shown)(o) {
      OutsellsIsAbove(body, rows, w, o, k);
    }
    FilterCong(After(AboveRow(w, plain(k)), plain), After(OutsellersOf(v), shown), keys);
    OutsellersCounted(Run(body, rows), i);
  }

  lemma WindowCell(body: ViewBody, rows: seq<Row>, i: nat, j: nat)
    requires body.Grouped? && |body.windows| == 2 && body.windows[0].1 != body.windows[1].1
    requires i < |Run(body, rows)| && j < 2 && !IsPlainCell(body, body.windows[j].1)
    ensures i < |Keys(body.grain, rows)|
    ensures Get(Run(body, rows)[i], body.windows[j].1)
         == EvalWindow(body.windows[j].0, WholeRel(body, rows), PlainRow(body, rows)(Keys(body.grain, rows)[i]))
  {
    RowOfKey(body, rows, i);
    WindowCellOf(body, rows, Keys(body.grain, rows)[i], j);
  }

  lemma RowOfKey(body: ViewBody, rows: seq<Row>, i: nat)
    requires body.Grouped? && i < |Run(body, rows)|
    ensures i < |Keys(body.grain, rows)| && Keys(body.grain, rows)[i] in Keys(body.grain, rows)
    ensures Run(body, rows)[i] == ShownRow(body, rows)(Keys(body.grain, rows)[i])
  {
    RunIsPerKey(body, rows);
  }

  lemma WindowNamesDiffer(body: ViewBody)
    requires RanksSales(body)
    ensures |body.windows| == 2 && body.windows[0].1 != body.windows[1].1
    ensures !IsPlainCell(body, body.windows[0].1) && !IsPlainCell(body, body.windows[1].1)
  {
  }

  lemma WindowCellOf(body: ViewBody, rows: seq<Row>, k: Key, j: nat)
    requires body.Grouped? && |body.windows| == 2 && body.windows[0].1 != body.windows[1].1
    requires k in Keys(body.grain, rows) && j < 2 && !IsPlainCell(body, body.windows[j].1)
    ensures Get(ShownRow(body, rows)(k), body.windows[j].1)
         == EvalWindow(body.windows[j].0, WholeRel(body, rows), PlainRow(body, rows)(k))
  {
    KeyLength(body.grain, rows);
    var plain := PlainRow(body, rows)(k);
    PlainNames(body, rows, k, body.windows[j].1);
    ShownRowParts(body, rows, k);
    WindowRight(body.windows, WholeRel(body, rows), plain, j);
  }

  lemma WindowRight(windows: seq<(Window, string)>, rel: seq<NamedRow>, plain: NamedRow, j: nat)
    requires |windows| == 2 && windows[0].1 != windows[1].1 && j < 2
    requires forall i :: 0 <= i < |plain| ==> plain[i].0 != windows[j].1
    ensures Get(plain + WindowRow(windows, rel, plain), windows[j].1) == EvalWindow(windows[j].0, rel, plain)
  {
    var cells := WindowRow(windows, rel, plain);
    GetRight(plain, cells, windows[j].1);
    GetOfTwo(cells, j);
  }

  lemma GetOfTwo(cells: NamedRow, j: nat)
    requires |cells| == 2 && cells[0].0 != cells[1].0 && j < 2
    ensures Get(cells, cells[j].0) == cells[j].1
  {
    assert cells[1..][0] == cells[1];
  }

  lemma RanksBySales(body: ViewBody, rows: seq<Row>, i: nat)
    requires RanksSales(body) && i < |Run(body, rows)|
    ensures var view := Run(body, rows);
            && Get(view[i], "category_sales_rank") == Num(1 + Outsellers(view, i))
            && Get(view[i], "is_top_100") == Flag(1 + Outsellers(view, i) <= 100)
  {
    WindowNamesDiffer(body);
    WindowCell(body, rows, i, 0);
    WindowCell(body, rows, i, 1);
    RankCounts(body, rows, body.windows[0].0, i);
    RankCounts(body, rows, body.windows[1].0, i);
  }

  /**
   * category_sales_rank is one more than the number of rows that outsell a row among those of its
   * month, OpCo and category, and is_top_100 says whether that is at most 100.
   */
  lemma RanksAreByMonth(rows: seq<Row>, i: nat)
    requires i < |Run(FACT_VIEW, rows)|
    ensures var view := Run(FACT_VIEW, rows);
            && Get(view[i], "category_sales_rank") == Num(1 + Outsellers(view, i))
            && Get(view[i], "is_top_100") == Flag(1 + Outsellers(view, i) <= 100)
  {
    FactViewRanks();
    RanksBySales(FACT_VIEW, rows, i);
  }
}
