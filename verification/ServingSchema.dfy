/** The configuration the service ships: its views, member splits and money columns. */
module ServingSchema {
  import opened Seqs
  import opened Relations
  import opened PersonaViews
  import opened Rollup
  import opened Catalogue
  import opened CatalogueAgreement

  const PARTITION := ["month_start_date", "opco_code", "category_key"]

  /** v_sales_store_monthly. */
  const STORE_MONTHLY: AggregateViewSpec := AggregateViewSpec(
    "fact_sales_daily",
    [(MonthOf("calendar_date"), "month_start_date"), (Plain("opco_code"), "opco_code"),
     (Plain("store_id"), "store_id"), (Plain("category_key"), "category_key"),
     (Plain("category_l1_key"), "category_l1_key"), (Plain("category_l2_key"), "category_l2_key"),
     (Plain("category_l3_key"), "category_l3_key"), (Plain("category_l4_key"), "category_l4_key"),
     (Plain("customer_type"), "customer_type")],
    [(SumOf("transaction_count", false), "transaction_count"), (SumOf("quantity", false), "quantity"),
     (SumOf("transaction_count", true), "member_transaction_count")],
    [(SumOf("gross_sales_amount", false), "gross_sales_amount"), (SumOf("gmv_amount", false), "gmv_amount"),
     (SumOf("gross_sales_amount", true), "member_sales_amount")],
    [(Rank(PARTITION, "gross_sales_amount"), "category_sales_rank"),
     (RankAtMost(PARTITION, "gross_sales_amount", 100), "is_top_100")])

  const FACT_SALES_DAILY: seq<string> :=
    ["calendar_date", "daypart", "daypart_seq", "opco_code", "store_id", "category_key",
     "category_l1_key", "category_l2_key", "category_l3_key", "category_l4_key", "customer_type", "payment_type",
     "transaction_count", "line_item_count", "quantity", "customer_count",
     "gross_sales_amount", "net_sales_amount", "discount_amount", "gmv_amount", "updated_at"]

  const AGG_SALES_DAILY: seq<string> :=
    ["calendar_date", "daypart", "daypart_seq", "opco_code", "category_l1_key", "category_l2_key", "customer_type",
     "transaction_count", "quantity", "customer_count", "gross_sales_amount", "net_sales_amount", "gmv_amount"]

  const AGG_SALES_SKU_MONTHLY: seq<string> :=
    ["month_start_date", "opco_code", "sku_key", "category_key", "category_l1_key", "category_l2_key",
     "category_l3_key", "category_l4_key", "store_id", "brand_name", "customer_type",
     "transaction_count", "quantity", "gross_sales_amount"]

  const MONEY_FACT_SALES: set<string> :=
    {"gross_sales_amount", "net_sales_amount", "discount_amount", "gmv_amount", "member_sales_amount"}
  const MONEY_AGG_SALES: set<string> := {"gross_sales_amount", "net_sales_amount", "gmv_amount", "member_sales_amount"}
  const MONEY_SKU: set<string> := {"gross_sales_amount", "member_sales_amount"}
  const MONEY_STORE_MONTHLY: set<string> :=
    {"gross_sales_amount", "gmv_amount", "member_sales_amount", "category_sales_rank", "is_top_100"}

  const SALES_SPLITS: seq<Split> :=
    [Split("transaction_count", "member_transaction_count", false), Split("quantity", "member_quantity", false),
     Split("gross_sales_amount", "member_sales_amount", true)]
  const SKU_SPLITS: seq<Split> :=
    [Split("transaction_count", "member_transaction_count", false),
     Split("gross_sales_amount", "member_sales_amount", true)]

  const FACT_VIEW: ViewBody := AggregateBody(STORE_MONTHLY, true)

  // ------------------------------------------------------------------
  // Role refinement, for the shipped sales views
  // ------------------------------------------------------------------

  lemma GrainIsNoMoney(i: nat)
    requires i < |STORE_MONTHLY.grain|
    ensures STORE_MONTHLY.grain[i].1 !in MONEY_STORE_MONTHLY
  {
  }

  lemma MeasuresAreNoMoney(i: nat)
    requires i < |STORE_MONTHLY.measures|
    ensures STORE_MONTHLY.measures[i].1 !in MONEY_STORE_MONTHLY
  {
  }

  lemma StoreMonthlyMarked()
    ensures RollupMarked(STORE_MONTHLY, MONEY_STORE_MONTHLY)
  {
    var s, money := STORE_MONTHLY, MONEY_STORE_MONTHLY;
    forall i | 0 <= i < |s.grain| { GrainIsNoMoney(i); }
    forall i | 0 <= i < |s.measures| { MeasuresAreNoMoney(i); }
    assert forall i :: 0 <= i < |s.money| ==> s.money[i].1 in money;
    assert forall i :: 0 <= i < |s.windows| ==> s.windows[i].1 in money;
    MarkedByIndex(s, money);
  }

  lemma MarkedByIndex(s: AggregateViewSpec, money: set<string>)
    requires forall i :: 0 <= i < |s.grain| ==> s.grain[i].1 !in money
    requires forall i :: 0 <= i < |s.measures| ==> s.measures[i].1 !in money
    requires forall i :: 0 <= i < |s.money| ==> s.money[i].1 in money
    requires forall i :: 0 <= i < |s.windows| ==> s.windows[i].1 in money
    ensures RollupMarked(s, money)
  {
  }

  lemma StoreMonthlyExecRefinesHod(rows: seq<Row>)
    ensures var exec, hod := Run(AggregateBody(STORE_MONTHLY, false), rows), Run(FACT_VIEW, rows);
            |exec| == |hod| && forall i :: 0 <= i < |exec| ==> exec[i] == Strip(MONEY_STORE_MONTHLY, hod[i])
  {
    StoreMonthlyMarked();
    ExecRollupIsHodWithoutMoney(STORE_MONTHLY, MONEY_STORE_MONTHLY, rows);
  }

  lemma GrainReadsNoMoney(i: nat)
    requires i < |STORE_MONTHLY.grain|
    ensures STORE_MONTHLY.grain[i].0.column !in MONEY_FACT_SALES
  {
  }

  lemma MeasuresReadNoMoney(j: nat)
    requires j < |STORE_MONTHLY.measures|
    ensures STORE_MONTHLY.measures[j].0.column != CUSTOMER_TYPE
    ensures AggReads(STORE_MONTHLY.measures[j].0) !! MONEY_FACT_SALES
  {
  }

  lemma ReadsByIndex(spec: AggregateViewSpec, cols: set<string>)
    requires forall i :: 0 <= i < |spec.grain| ==> spec.grain[i].0.column !in cols
    requires forall j :: 0 <= j < |spec.measures| ==>
               spec.measures[j].0.column != CUSTOMER_TYPE && AggReads(spec.measures[j].0) !! cols
    ensures Summable(spec) && Reads(AggregateBody(spec, false)) !! cols
  {
    assert spec.measures + [] == spec.measures;
    forall c | c in Reads(AggregateBody(spec, false)) ensures c !in cols {
      if a :| a in spec.measures && c in AggReads(a.0) {
        var j :| 0 <= j < |spec.measures| && spec.measures[j] == a;
      }
    }
  }

  lemma StoreMonthlyExecIgnoresMoney()
    ensures IgnoresColumns(AggregateBody(STORE_MONTHLY, false), MONEY_FACT_SALES)
  {
    forall i | 0 <= i < |STORE_MONTHLY.grain| { GrainReadsNoMoney(i); }
    forall j | 0 <= j < |STORE_MONTHLY.measures| { MeasuresReadNoMoney(j); }
    ReadsByIndex(STORE_MONTHLY, MONEY_FACT_SALES);
    ExecRollupIgnoresMoneyIff(STORE_MONTHLY, MONEY_FACT_SALES);
  }

  // ------------------------------------------------------------------
  // v_sales_store_monthly
  // ------------------------------------------------------------------

  lemma AliasesDiffer()
    ensures DistinctAliases(FACT_VIEW)
  {
  }

  lemma PartitionIsGrain()
    ensures WindowsOverGrain(FACT_VIEW)
  {
    var g := FACT_VIEW.grain;
    assert g[0].1 == PARTITION[0] && g[1].1 == PARTITION[1] && g[3].1 == PARTITION[2];
    forall w, c | w in FACT_VIEW.windows && c in w.0.partition
      ensures exists i :: 0 <= i < |g| && g[i].1 == c
    {
      assert c in PARTITION;
    }
  }

  lemma StoreMonthlyAliases()
    ensures RanksByFreeSum(FACT_VIEW, 3)
  {
    AliasesDiffer();
    PartitionIsGrain();
  }

  /**
   * A predicate on the group key may be applied to the facts or to the ranked view, over every
   * content of the fact table, exactly when it is a function of month, OpCo and category.
   */
  lemma StoreMonthlyRankCommutesIff(p: Key -> bool)
    ensures (forall rows :: FilterCommutes(FACT_VIEW, p, rows))
            <==> RespectsPartition(FACT_VIEW, FACT_VIEW.windows[0].0, p)
  {
    StoreMonthlyAliases();
    FilterRankCommuteIff(FACT_VIEW, 3, p);
  }

  /** Totals of transactions, quantity, gross and GMV over the view equal those over the facts. */
  lemma StoreMonthlyTotals(rows: seq<Row>, p: Key -> bool, j: nat)
    requires j < |FACT_VIEW.aggs|
    ensures Sum(Map(CellOf(FACT_VIEW.aggs[j].1), Filter(RowHolds(p, |FACT_VIEW.grain|), Run(FACT_VIEW, rows))))
         == Sum(Map(ArgOf(FACT_VIEW.aggs[j].0), Filter(KeyHolds(p, FACT_VIEW.grain), rows)))
  {
    StoreMonthlyAliases();
    RollupPreservesTotals(FACT_VIEW, rows, p, j);
  }

  /** Its member totals equal those of the member splits v_sales_daily generates, NULL counted as 0. */
  lemma StoreMonthlyMemberTotals(rows: seq<Row>, p: Key -> bool)
    ensures OrZero(Sum(Map(CellOf("member_transaction_count"), Filter(RowHolds(p, 9), Run(FACT_VIEW, rows)))))
         == OrZero(Sum(Map(CaseOf(SplitTerm(SALES_SPLITS[0])), Filter(KeyHolds(p, FACT_VIEW.grain), rows))))
    ensures OrZero(Sum(Map(CellOf("member_sales_amount"), Filter(RowHolds(p, 9), Run(FACT_VIEW, rows)))))
         == OrZero(Sum(Map(CaseOf(SplitTerm(SALES_SPLITS[2])), Filter(KeyHolds(p, FACT_VIEW.grain), rows))))
  {
    StoreMonthlyAliases();
    MemberTotalsAgree(FACT_VIEW, rows, p, 2, "member_transaction_count");
    MemberTotalsAgree(FACT_VIEW, rows, p, 5, "member_sales_amount");
  }

  // ------------------------------------------------------------------
  // The catalogue, for the shipped configuration
  // ------------------------------------------------------------------

  const VIEWS: seq<(string, string)> :=
    [("v_sales_daily", "fact_sales_daily"), ("v_sales_summary_daily", "agg_sales_daily"),
     ("v_sales_store_monthly", "fact_sales_daily"), ("v_sales_sku_monthly", "agg_sales_sku_monthly"),
     ("v_customer_opco_monthly", "fact_customer_opco_monthly"),
     ("v_customer_traits_monthly", "fact_customer_traits_monthly"),
     ("v_customer_category_monthly", "bridge_customer_category_monthly")]

  const SHIPPED: Config := Config(
    VIEWS,
    map["v_sales_store_monthly" := STORE_MONTHLY],
    map["fact_sales_daily" := SALES_SPLITS, "agg_sales_daily" := SALES_SPLITS, "agg_sales_sku_monthly" := SKU_SPLITS],
    map["fact_sales_daily" := MONEY_FACT_SALES, "agg_sales_daily" := MONEY_AGG_SALES,
        "v_sales_store_monthly" := MONEY_STORE_MONTHLY, "agg_sales_sku_monthly" := MONEY_SKU,
        "fact_customer_opco_monthly" := {"total_revenue", "total_gmv"},
        "bridge_customer_category_monthly" := {"gross_sales_amount"}],
    {"dim_opco", "dim_store", "dim_product_category", "dim_product"},
    {"copilot_access_log"})

  // ------------------------------------------------------------------
  // Role refinement, for every shipped view
  // ------------------------------------------------------------------

  /** Splits are flagged as listed, and an unflagged one reads no money. */
  ghost predicate SplitsFit(money: set<string>, splits: seq<Split>) {
    && CUSTOMER_TYPE !in money
    && forall i :: 0 <= i < |splits| ==>
         (splits[i].needsMoney <==> splits[i].alias in money) && (!splits[i].needsMoney ==> splits[i].source !in money)
  }

  lemma ShippedSplitsFit(i: nat)
    requires i < |VIEWS|
    ensures SplitsFit(MoneyOf(SHIPPED, VIEWS[i].1), SplitsOf(SHIPPED, VIEWS[i].1))
  {
    ShippedLookups();
    MoneyOfCustomers();
  }

  lemma MoneyOfCustomers()
    ensures MoneyOf(SHIPPED, "fact_customer_opco_monthly") == {"total_revenue", "total_gmv"}
    ensures MoneyOf(SHIPPED, "fact_customer_traits_monthly") == {}
    ensures MoneyOf(SHIPPED, "bridge_customer_category_monthly") == {"gross_sales_amount"}
  {
  }

  lemma FitRefines(columns: seq<string>, money: set<string>, splits: seq<Split>, rows: seq<Row>)
    requires SplitsFit(money, splits)
    ensures var exec := ProjectionBody(columns, money, splits, false);
            && Run(exec, rows) == Map(Stripped(money), Run(ProjectionBody(columns, money, splits, true), rows))
            && IgnoresColumns(exec, money)
  {
    forall s | s in splits
      ensures (s.needsMoney <==> s.alias in money) && (!s.needsMoney ==> s.source !in money)
    {
      var i :| 0 <= i < |splits| && splits[i] == s;
    }
    ExecIsHodWithoutMoneyIff(columns, money, splits);
    ExecIgnoresMoneyIff(columns, money, splits);
  }

  /** The money names an HOD's rows of a view carry. */
  function ViewMoney(v: (string, string)): set<string> {
    MoneyOf(SHIPPED, if v.0 in SHIPPED.aggregates then v.0 else v.1)
  }

  /**
   * Every shipped view, whatever columns and rows its base table has: an executive's rows are the
   * HOD's without the money, and do not depend on the money columns of the base table.
   */
  lemma EveryExecViewRefinesHod(cols: Columns, i: nat, rows: seq<Row>)
    requires i < |VIEWS| && VIEWS[i].1 in cols
    ensures var v := VIEWS[i];
            && Run(Body(SHIPPED, cols, v.0, v.1, false), rows)
               == Map(Stripped(ViewMoney(v)), Run(Body(SHIPPED, cols, v.0, v.1, true), rows))
            && IgnoresColumns(Body(SHIPPED, cols, v.0, v.1, false), MoneyOf(SHIPPED, v.1))
  {
    var v := VIEWS[i];
    if i == 2 {
      StoreView(rows);
      StoreBodies(cols);
    } else {
      PlainView(i);
      ShippedSplitsFit(i);
      FitRefines(cols[v.1], MoneyOf(SHIPPED, v.1), SplitsOf(SHIPPED, v.1), rows);
    }
  }

  /** The amounts, and the ranks made of them, that a view withholds from an executive. */
  predicate AmountOf(view: string, name: string) {
    || (view == "v_sales_daily" &&
        name in {"gross_sales_amount", "net_sales_amount", "discount_amount", "gmv_amount", "member_sales_amount"})
    || (view == "v_sales_summary_daily" &&
        name in {"gross_sales_amount", "net_sales_amount", "gmv_amount", "member_sales_amount"})
    || (view == "v_sales_store_monthly" &&
        name in {"gross_sales_amount", "gmv_amount", "member_sales_amount", "category_sales_rank", "is_top_100"})
    || (view == "v_sales_sku_monthly" && name in {"gross_sales_amount", "member_sales_amount"})
    || (view == "v_customer_opco_monthly" && name in {"total_revenue", "total_gmv"})
    || (view == "v_customer_category_monthly" && name == "gross_sales_amount")
  }

  lemma AmountsAreMoney(i: nat, name: string)
    requires i < |VIEWS| && AmountOf(VIEWS[i].0, name)
    ensures name in ViewMoney(VIEWS[i])
  {
    ShippedLookups();
    MoneyOfCustomers();
  }

  lemma StrippedHasNone(money: set<string>, r: NamedRow, j: nat)
    requires j < |Strip(money, r)|
    ensures Strip(money, r)[j].0 !in money
  {
    FilterMembers(NotNamed(money), r);
    assert Strip(money, r)[j] in Strip(money, r);
  }

  /** Over every content of every base table, no row an executive is shown has a cell of such a name. */
  lemma ExecSeesNoAmounts(cols: Columns, i: nat, rows: seq<Row>, r: nat, j: nat)
    requires i < |VIEWS| && VIEWS[i].1 in cols
    requires var view := Run(Body(SHIPPED, cols, VIEWS[i].0, VIEWS[i].1, false), rows);
             r < |view| && j < |view[r]|
    ensures !AmountOf(VIEWS[i].0, Run(Body(SHIPPED, cols, VIEWS[i].0, VIEWS[i].1, false), rows)[r][j].0)
  {
    var v := VIEWS[i];
    var hod := Run(Body(SHIPPED, cols, v.0, v.1, true), rows);
    EveryExecViewRefinesHod(cols, i, rows);
    StrippedHasNone(ViewMoney(v), hod[r], j);
    if AmountOf(v.0, Strip(ViewMoney(v), hod[r])[j].0) { AmountsAreMoney(i, Strip(ViewMoney(v), hod[r])[j].0); }
  }

  lemma StoreView(rows: seq<Row>)
    ensures Run(AggregateBody(STORE_MONTHLY, false), rows) == Map(Stripped(MONEY_STORE_MONTHLY), Run(FACT_VIEW, rows))
    ensures IgnoresColumns(AggregateBody(STORE_MONTHLY, false), MONEY_FACT_SALES)
  {
    StoreMonthlyExecRefinesHod(rows);
    StoreMonthlyExecIgnoresMoney();
  }

  lemma StoreBodies(cols: Columns)
    requires FACT in cols
    ensures VIEWS[2] == (STORE_VIEW, FACT) && ViewMoney(VIEWS[2]) == MONEY_STORE_MONTHLY
    ensures MoneyOf(SHIPPED, FACT) == MONEY_FACT_SALES
    ensures Body(SHIPPED, cols, STORE_VIEW, FACT, false) == AggregateBody(STORE_MONTHLY, false)
    ensures Body(SHIPPED, cols, STORE_VIEW, FACT, true) == FACT_VIEW
  {
    ShippedLookups();
  }

  /** The base tables as migrated; the customer tables may have any columns. */
  ghost predicate Migrated(cols: Columns) {
    && "" !in cols && (forall b :: b in cols ==> "" !in cols[b])
    && (forall i :: 0 <= i < |VIEWS| ==> VIEWS[i].1 in cols)
    && ("fact_sales_daily" in cols && cols["fact_sales_daily"] == FACT_SALES_DAILY)
    && ("agg_sales_daily" in cols && cols["agg_sales_daily"] == AGG_SALES_DAILY)
    && ("agg_sales_sku_monthly" in cols && cols["agg_sales_sku_monthly"] == AGG_SALES_SKU_MONTHLY)
  }

  lemma FactSalesSplit(i: nat)
    requires i < |SALES_SPLITS|
    ensures var s := SALES_SPLITS[i];
            s.source in FACT_SALES_DAILY && s.alias !in FACT_SALES_DAILY
            && (s.source in MONEY_FACT_SALES ==> s.needsMoney)
  {
    assert FACT_SALES_DAILY[12] == SALES_SPLITS[0].source;
    assert FACT_SALES_DAILY[14] == SALES_SPLITS[1].source;
    assert FACT_SALES_DAILY[16] == SALES_SPLITS[2].source;
  }

  lemma AggSalesSplits()
    ensures forall s :: s in SALES_SPLITS ==>
              s.source in AGG_SALES_DAILY && s.alias !in AGG_SALES_DAILY
              && (s.source in MONEY_AGG_SALES ==> s.needsMoney)
  {
  }

  lemma SkuSplits()
    ensures forall s :: s in SKU_SPLITS ==>
              s.source in AGG_SALES_SKU_MONTHLY && s.alias !in AGG_SALES_SKU_MONTHLY
              && (s.source in MONEY_SKU ==> s.needsMoney)
  {
  }

  lemma ViewNamesDiffer()
    ensures forall i, j :: 0 <= i < j < |VIEWS| ==> VIEWS[i].0 != VIEWS[j].0
  {
  }

  lemma ShippedLookups()
    ensures MoneyOf(SHIPPED, "fact_sales_daily") == MONEY_FACT_SALES
    ensures MoneyOf(SHIPPED, "agg_sales_daily") == MONEY_AGG_SALES
    ensures MoneyOf(SHIPPED, "agg_sales_sku_monthly") == MONEY_SKU
    ensures MoneyOf(SHIPPED, "v_sales_store_monthly") == MONEY_STORE_MONTHLY
    ensures SplitsOf(SHIPPED, "fact_sales_daily") == SplitsOf(SHIPPED, "agg_sales_daily") == SALES_SPLITS
    ensures SplitsOf(SHIPPED, "agg_sales_sku_monthly") == SKU_SPLITS
    ensures SplitsOf(SHIPPED, "fact_customer_opco_monthly") == []
    ensures SplitsOf(SHIPPED, "fact_customer_traits_monthly") == []
    ensures SplitsOf(SHIPPED, "bridge_customer_category_monthly") == []
  {
  }

  lemma NoMemberPrefix(s: string)
    requires |s| >= 2 && (s[0] != 'm' || s[1] != 'e')
    ensures !HasPrefix("member_", s)
  {
    if 7 <= |s| {
      assert s[..7][0] == s[0] && s[..7][1] == s[1];
    }
  }

  lemma GrainInBase(i: nat)
    requires 1 <= i < |STORE_MONTHLY.grain|
    ensures STORE_MONTHLY.grain[i].1 in FACT_SALES_DAILY
    ensures !HasPrefix("member_", STORE_MONTHLY.grain[i].1) && STORE_MONTHLY.grain[i].1 != MONTH
  {
    var f := FACT_SALES_DAILY;
    assert f[3] == "opco_code" && f[4] == "store_id" && f[5] == "category_key" && f[6] == "category_l1_key";
    assert f[7] == "category_l2_key" && f[8] == "category_l3_key" && f[9] == "category_l4_key"
           && f[10] == "customer_type";
    NoMemberPrefix(STORE_MONTHLY.grain[i].1);
  }

  lemma GrainNotMoney(i: nat)
    requires 1 <= i < |STORE_MONTHLY.grain|
    ensures STORE_MONTHLY.grain[i].1 !in MONEY_FACT_SALES
  {
  }

  lemma MonthIsDerived()
    ensures MONTH !in FACT_SALES_DAILY && "calendar_date" !in MONEY_FACT_SALES && MONTH !in MONEY_STORE_MONTHLY
    ensures !HasPrefix("member_", MONTH)
  {
    NoMemberPrefix(MONTH);
  }

  lemma MeasuresInBase()
    ensures "transaction_count" in FACT_SALES_DAILY && "quantity" in FACT_SALES_DAILY
    ensures !HasPrefix("member_", "transaction_count") && !HasPrefix("member_", "quantity")
    ensures HasPrefix("member_", "member_transaction_count")
            && WithoutMember("member_transaction_count") == "transaction_count"
  {
    assert FACT_SALES_DAILY[12] == "transaction_count" && FACT_SALES_DAILY[14] == "quantity";
    NoMemberPrefix("transaction_count");
    NoMemberPrefix("quantity");
  }

  lemma MeasuresNotMoney()
    ensures "transaction_count" !in MONEY_FACT_SALES && "quantity" !in MONEY_FACT_SALES
    ensures "member_transaction_count" !in FACT_SALES_DAILY
  {
  }

  lemma MoneyInBase()
    ensures "gross_sales_amount" in FACT_SALES_DAILY && "gmv_amount" in FACT_SALES_DAILY
    ensures "gross_sales_amount" in MONEY_FACT_SALES && "gmv_amount" in MONEY_FACT_SALES
    ensures "member_sales_amount" !in FACT_SALES_DAILY && HasPrefix("member_", "member_sales_amount")
  {
    assert FACT_SALES_DAILY[16] == "gross_sales_amount" && FACT_SALES_DAILY[19] == "gmv_amount";
  }

  lemma WindowsAreOwn()
    ensures "category_sales_rank" !in FACT_SALES_DAILY && "is_top_100" !in FACT_SALES_DAILY
    ensures !HasPrefix("member_", "category_sales_rank") && !HasPrefix("member_", "is_top_100")
  {
    NoMemberPrefix("category_sales_rank");
    NoMemberPrefix("is_top_100");
  }

  /** The names of the aggregating view that count as money are those of its money list. */
  lemma StoreMonthlyMoney()
    ensures RollupMoney(SHIPPED, "v_sales_store_monthly", STORE_MONTHLY) == MONEY_STORE_MONTHLY
  {
    ShippedLookups();
    var ms := MoneyNames(STORE_MONTHLY);
    assert ms == ["gross_sales_amount", "gmv_amount", "member_sales_amount"];
    forall c | c in ms ensures c in MONEY_STORE_MONTHLY {
    }
  }

  const STORE_VIEW := "v_sales_store_monthly"
  const FACT := "fact_sales_daily"

  lemma GrainIsPlain(cols: Columns, i: nat)
    requires Migrated(cols) && i < |STORE_MONTHLY.grain|
    ensures PlainAlias(SHIPPED, cols, STORE_VIEW, FACT, STORE_MONTHLY.grain[i].1)
  {
    ShippedLookups();
    StoreMonthlyMoney();
    GrainIsNoMoney(i);
    if i > 0 { GrainInBase(i); GrainNotMoney(i); } else { MonthIsDerived(); }
  }

  lemma MeasureIsPlain(cols: Columns, i: nat)
    requires Migrated(cols) && i < |STORE_MONTHLY.measures|
    ensures PlainAlias(SHIPPED, cols, STORE_VIEW, FACT, STORE_MONTHLY.measures[i].1)
  {
    ShippedLookups();
    StoreMonthlyMoney();
    MeasuresAreNoMoney(i);
    MeasuresInBase();
    MeasuresNotMoney();
  }

  lemma MoneyIsMoney(cols: Columns, i: nat)
    requires Migrated(cols) && i < |STORE_MONTHLY.money|
    ensures MoneyAlias(SHIPPED, cols, FACT, STORE_MONTHLY.money[i].1)
  {
    ShippedLookups();
    MoneyInBase();
  }

  lemma WindowIsMoney(cols: Columns, i: nat)
    requires Migrated(cols) && i < |STORE_MONTHLY.windows|
    ensures var a := STORE_MONTHLY.windows[i].1;
            a in RollupMoney(SHIPPED, STORE_VIEW, STORE_MONTHLY) && a !in cols[FACT] && a != MONTH
                && !HasPrefix("member_", a)
  {
    StoreMonthlyMoney();
    WindowsAreOwn();
  }

  lemma StoreMonthlyWellFormed(cols: Columns)
    requires Migrated(cols)
    ensures RollupWellFormed(SHIPPED, cols, STORE_VIEW, FACT)
  {
    forall i | 0 <= i < |STORE_MONTHLY.grain| { GrainIsPlain(cols, i); }
    forall i | 0 <= i < |STORE_MONTHLY.measures| { MeasureIsPlain(cols, i); }
    forall i | 0 <= i < |STORE_MONTHLY.money| { MoneyIsMoney(cols, i); }
    forall i | 0 <= i < |STORE_MONTHLY.windows| { WindowIsMoney(cols, i); }
    RollupByIndex(SHIPPED, cols, STORE_VIEW, FACT);
  }

  lemma RollupByIndex(cfg: Config, cols: Columns, view: string, base: string)
    requires base in cols && view in cfg.aggregates
    requires var s := cfg.aggregates[view];
             && (forall i :: 0 <= i < |s.grain| ==> PlainAlias(cfg, cols, view, base, s.grain[i].1))
             && (forall i :: 0 <= i < |s.measures| ==> PlainAlias(cfg, cols, view, base, s.measures[i].1))
             && (forall i :: 0 <= i < |s.money| ==> MoneyAlias(cfg, cols, base, s.money[i].1))
             && (forall i :: 0 <= i < |s.windows| ==>
                   var a := s.windows[i].1;
                   a in RollupMoney(cfg, view, s) && a !in cols[base] && a != MONTH && !HasPrefix("member_", a))
    ensures RollupWellFormed(cfg, cols, view, base)
  {
    var s := cfg.aggregates[view];
    forall a | a in GrainNames(s) + MeasureNames(s) ensures PlainAlias(cfg, cols, view, base, a) {
      if a in GrainNames(s) {
        var i :| 0 <= i < |s.grain| && GrainNames(s)[i] == a;
      } else {
        var i :| 0 <= i < |s.measures| && MeasureNames(s)[i] == a;
      }
    }
  }

  lemma FactWellFormed(cols: Columns)
    requires Migrated(cols)
    ensures ProjectionWellFormed(SHIPPED, cols, FACT)
  {
    ShippedLookups();
    forall i | 0 <= i < |SALES_SPLITS| { FactSalesSplit(i); }
    SplitAliasesDiffer();
  }

  lemma AggWellFormed(cols: Columns)
    requires Migrated(cols)
    ensures ProjectionWellFormed(SHIPPED, cols, "agg_sales_daily")
  {
    ShippedLookups();
    AggSalesSplits();
    SplitAliasesDiffer();
  }

  lemma SkuWellFormed(cols: Columns)
    requires Migrated(cols)
    ensures ProjectionWellFormed(SHIPPED, cols, "agg_sales_sku_monthly")
  {
    ShippedLookups();
    SkuSplits();
    SplitAliasesDiffer();
  }

  lemma SplitAliasesDiffer()
    ensures forall s, t :: s in SALES_SPLITS && t in SALES_SPLITS && s.alias == t.alias ==> s == t
    ensures forall s, t :: s in SKU_SPLITS && t in SKU_SPLITS && s.alias == t.alias ==> s == t
  {
  }

  lemma ViewsAreQueryable(i: nat)
    requires i < |VIEWS|
    ensures VIEWS[i].0 !in SHIPPED.forbidden && !HasPrefix("copilot_", VIEWS[i].0)
  {
    assert VIEWS[i].0[0] == 'v';
  }

  /** What the catalogue theorem asks of one view. */
  ghost predicate ViewOk(cfg: Config, cols: Columns, v: (string, string)) {
    v.1 in cols
    && if v.0 in cfg.aggregates then RollupWellFormed(cfg, cols, v.0, v.1) else ProjectionWellFormed(cfg, cols, v.1)
  }

  lemma OnlyStoreAggregates(v: string)
    requires v != STORE_VIEW
    ensures v !in SHIPPED.aggregates
  {
  }

  lemma ViewsOk(cols: Columns, i: nat)
    requires Migrated(cols) && i < |VIEWS|
    ensures ViewOk(SHIPPED, cols, VIEWS[i])
  {
    if i == 2 {
      StoreMonthlyWellFormed(cols);
    } else if i >= 4 {
      CustomerViewsOk(cols, i);
    } else {
      SalesViewsOk(cols, i);
    }
  }

  lemma SalesViewsOk(cols: Columns, i: nat)
    requires Migrated(cols) && (i == 0 || i == 1 || i == 3)
    ensures ViewOk(SHIPPED, cols, VIEWS[i])
  {
    PlainView(i);
    if i == 0 { FactWellFormed(cols); }
    else if i == 1 { AggWellFormed(cols); }
    else { SkuWellFormed(cols); }
  }

  lemma PlainView(i: nat)
    requires i < |VIEWS| && i != 2
    ensures VIEWS[i].0 !in SHIPPED.aggregates
  {
    ViewNamesDiffer();
    assert VIEWS[2].0 == STORE_VIEW && VIEWS[2].0 != VIEWS[i].0;
    OnlyStoreAggregates(VIEWS[i].0);
  }

  lemma CustomerViewsOk(cols: Columns, i: nat)
    requires Migrated(cols) && 4 <= i < |VIEWS|
    ensures ViewOk(SHIPPED, cols, VIEWS[i])
  {
    ShippedLookups();
    PlainView(i);
  }

  /** The shipped configuration is one the catalogue theorem applies to. */
  lemma ShippedWellFormed(cols: Columns)
    requires Migrated(cols)
    ensures WellFormed(SHIPPED, cols)
  {
    ViewNamesDiffer();
    forall i | 0 <= i < |VIEWS|
      ensures ViewOk(SHIPPED, cols, VIEWS[i]) && VIEWS[i].0 !in SHIPPED.forbidden && !HasPrefix("copilot_", VIEWS[i].0)
    {
      ViewsAreQueryable(i);
      ViewsOk(cols, i);
    }
    WellFormedByIndex(SHIPPED, cols);
  }

  lemma WellFormedByIndex(cfg: Config, cols: Columns)
    requires "" !in cols && (forall b :: b in cols ==> "" !in cols[b])
    requires forall i :: 0 <= i < |cfg.views| ==>
      ViewOk(cfg, cols, cfg.views[i]) && cfg.views[i].0 !in cfg.forbidden && !HasPrefix("copilot_", cfg.views[i].0)
    requires forall i, j :: 0 <= i < j < |cfg.views| ==> cfg.views[i].0 != cfg.views[j].0
    ensures WellFormed(cfg, cols)
  {
    forall v, w | v in cfg.views && w in cfg.views && v.0 == w.0 ensures v == w {
      var i :| 0 <= i < |cfg.views| && cfg.views[i] == v;
      var j :| 0 <= j < |cfg.views| && cfg.views[j] == w;
    }
  }

  /** The shipped catalogue and the shipped views agree, for both roles and every column name. */
  lemma ShippedCatalogueAgrees(g: GlossaryService, cols: Columns, rows: seq<GlossaryRow>, v: (string, string),
                               c: string)
    requires Migrated(cols) && GlossaryMatches(SHIPPED, cols, rows) && v in VIEWS && v.1 in cols
    requires g.Ingested(SHIPPED, rows)
    ensures c in g.ColumnsOf(v.0) <==> c in Names(Body(SHIPPED, cols, v.0, v.1, true))
    ensures g.Visible(true, v.0, c) <==> c in Names(Body(SHIPPED, cols, v.0, v.1, true)) && !Hidden(c)
    ensures g.Visible(false, v.0, c) <==> c in Names(Body(SHIPPED, cols, v.0, v.1, false)) && !Hidden(c)
  {
    ShippedWellFormed(cols);
    CatalogueAgreesWithCompiler(g, SHIPPED, cols, rows, v, c);
  }
}
