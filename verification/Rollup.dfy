/** What rolling a table up preserves, and when a filter may move below the rank windows. */
module Rollup {
  import opened Seqs
  import opened Relations

  /** The group key a rolled-up row carries in its first cells. */
  function KeyPart(n: nat, r: NamedRow): Key {
    Map((c: (string, Value)) => c.1, if n <= |r| then r[..n] else r)
  }

  function KeyHolds(p: Key -> bool, grain: Grain): Row -> bool { (r: Row) => p(KeyOf(grain, r)) }
  function RowHolds(p: Key -> bool, n: nat): NamedRow -> bool { (r: NamedRow) => p(KeyPart(n, r)) }
  function CellOf(alias: string): NamedRow -> Value { (r: NamedRow) => Get(r, alias) }
  function ArgOf(a: Agg): Row -> Value { (r: Row) => AggArg(a, r) }
  function GroupSum(grain: Grain, a: Agg, rows: seq<Row>): Key -> Value {
    (k: Key) => EvalAgg(a, Group(grain, rows, k))
  }

  // ------------------------------------------------------------------
  // Totals
  // ------------------------------------------------------------------

  lemma SumAfterMap<A>(f: A -> Value, init: seq<A>, x: A)
    ensures Sum(Map(f, init + [x])) == Plus(Sum(Map(f, init)), f(x))
  {
    assert (init + [x])[..|init|] == init;
    var vs := Map(f, init);
    assert Map(f, init + [x]) == vs + [f(x)];
    assert (vs + [f(x)])[..|vs|] == vs;
  }

  /** The sum of the group totals over the keys a predicate selects. */
  ghost function KeySum(grain: Grain, a: Agg, p: Key -> bool, ks: seq<Key>, rows: seq<Row>): (v: Value)
    ensures Total(v)
  {
    if ks == [] then Null
    else
      var k := ks[|ks| - 1];
      Plus(KeySum(grain, a, p, ks[..|ks| - 1], rows), if p(k) then EvalAgg(a, Group(grain, rows, k)) else Null)
  }

  lemma {:induction false} KeySumIsSum(grain: Grain, a: Agg, p: Key -> bool, ks: seq<Key>, rows: seq<Row>)
    ensures Sum(Map(GroupSum(grain, a, rows), Filter(p, ks))) == KeySum(grain, a, p, ks, rows)
  {
    if ks != [] {
      var init, k := ks[..|ks| - 1], ks[|ks| - 1];
      KeySumIsSum(grain, a, p, init, rows);
      var kept := Filter(p, init);
      if p(k) {
        SumAfterMap(GroupSum(grain, a, rows), kept, k);
      } else {
        assert kept + [] == kept;
      }
    }
  }

  /** Adding a row adds its value to the total exactly when its key is listed and selected. */
  lemma {:induction false} KeySumAppend(grain: Grain, a: Agg, p: Key -> bool, ks: seq<Key>, rows: seq<Row>, r: Row)
    requires Distinct(ks)
    ensures KeySum(grain, a, p, ks, rows + [r])
         == if KeyOf(grain, r) in ks && p(KeyOf(grain, r))
            then Plus(KeySum(grain, a, p, ks, rows), AggArg(a, r)) else KeySum(grain, a, p, ks, rows)
  {
    if ks != [] {
      var init, k := ks[..|ks| - 1], ks[|ks| - 1];
      KeySumAppend(grain, a, p, init, rows, r);
      GroupAppend(grain, rows, r, k, a);
      assert ks == init + [k] && k !in init;
      var g := if p(k) then EvalAgg(a, Group(grain, rows, k)) else Null;
      PlusRegroups(KeySum(grain, a, p, init, rows), g, AggArg(a, r));
    }
  }

  lemma {:induction false} EmptyGroup(grain: Grain, rows: seq<Row>, k: Key)
    requires forall r :: r in rows ==> KeyOf(grain, r) != k
    ensures Group(grain, rows, k) == []
  {
    FilterNone((r: Row) => KeyOf(grain, r) == k, rows);
  }

  /** One more row: the listed keys' total gains its value, whether or not its key is new. */
  lemma KeySumStep(grain: Grain, a: Agg, p: Key -> bool, rows: seq<Row>, r: Row)
    ensures KeySum(grain, a, p, Keys(grain, rows + [r]), rows + [r])
         == if p(KeyOf(grain, r)) then Plus(KeySum(grain, a, p, Keys(grain, rows), rows), AggArg(a, r))
            else KeySum(grain, a, p, Keys(grain, rows), rows)
  {
    var k, ks := KeyOf(grain, r), Keys(grain, rows);
    assert (rows + [r])[..|rows|] == rows;
    KeySumAppend(grain, a, p, ks, rows, r);
    if k !in ks { NewKeySum(grain, a, p, ks, rows, r); }
  }

  /** A key not seen before adds a group of its one row. */
  lemma NewKeySum(grain: Grain, a: Agg, p: Key -> bool, ks: seq<Key>, rows: seq<Row>, r: Row)
    requires ks == Keys(grain, rows) && KeyOf(grain, r) !in ks
    ensures KeySum(grain, a, p, ks + [KeyOf(grain, r)], rows + [r])
         == if p(KeyOf(grain, r)) then Plus(KeySum(grain, a, p, ks, rows + [r]), AggArg(a, r))
            else KeySum(grain, a, p, ks, rows + [r])
  {
    var k := KeyOf(grain, r);
    assert (ks + [k])[..|ks|] == ks;
    EmptyGroup(grain, rows, k);
    GroupAppend(grain, rows, r, k, a);
    PlusRegroups(KeySum(grain, a, p, ks, rows + [r]), Null, AggArg(a, r));
  }

  lemma SelectedSumStep(grain: Grain, a: Agg, p: Key -> bool, rows: seq<Row>, r: Row)
    ensures Sum(Map(ArgOf(a), Filter(KeyHolds(p, grain), rows + [r])))
         == if p(KeyOf(grain, r)) then Plus(Sum(Map(ArgOf(a), Filter(KeyHolds(p, grain), rows))), AggArg(a, r))
            else Sum(Map(ArgOf(a), Filter(KeyHolds(p, grain), rows)))
  {
    assert (rows + [r])[..|rows|] == rows;
    var kept := Filter(KeyHolds(p, grain), rows);
    if p(KeyOf(grain, r)) {
      SumOfMap(ArgOf(a), kept, r);
    } else {
      assert kept + [] == kept;
    }
  }

  /** Grouping and then adding up selected groups is adding up the selected rows. */
  lemma {:induction false} GroupTotals(grain: Grain, a: Agg, p: Key -> bool, rows: seq<Row>)
    ensures KeySum(grain, a, p, Keys(grain, rows), rows)
         == Sum(Map(ArgOf(a), Filter(KeyHolds(p, grain), rows)))
  {
    if rows != [] {
      var init, r := rows[..|rows| - 1], rows[|rows| - 1];
      assert rows == init + [r];
      GroupTotals(grain, a, p, init);
      KeySumStep(grain, a, p, init, r);
      SelectedSumStep(grain, a, p, init, r);
    }
  }

  ghost predicate DistinctAliases(body: ViewBody)
    requires body.Grouped?
  {
    && (forall i, j :: 0 <= i < |body.grain| && 0 <= j < |body.aggs| ==> body.grain[i].1 != body.aggs[j].1)
    && (forall i, j :: 0 <= i < j < |body.aggs| ==> body.aggs[i].1 != body.aggs[j].1)
  }

  lemma {:induction false} GetAgg(aggs: seq<(Agg, string)>, group: seq<Row>, j: nat)
    requires j < |aggs| && forall i :: 0 <= i < j ==> aggs[i].1 != aggs[j].1
    ensures Get(AggCells(aggs, group), aggs[j].1) == EvalAgg(aggs[j].0, group)
    decreases j
  {
    var cells := AggCells(aggs, group);
    assert cells[0] == (aggs[0].1, EvalAgg(aggs[0].0, group));
    if j > 0 {
      GetAgg(aggs[1..], group, j - 1);
      assert AggCells(aggs[1..], group) == cells[1..];
    }
  }

  /** A rolled-up row's cell for an aggregate is that aggregate over its group. */
  lemma AggCellOf(body: ViewBody, rows: seq<Row>, k: Key, j: nat, windows: NamedRow)
    requires body.Grouped? && DistinctAliases(body) && j < |body.aggs|
    ensures Get(InnerRow(body.grain, body.aggs, rows, k) + windows, body.aggs[j].1)
         == EvalAgg(body.aggs[j].0, Group(body.grain, rows, k))
  {
    var alias, group := body.aggs[j].1, Group(body.grain, rows, k);
    var keys := if |k| == |body.grain| then KeyCells(body.grain, k) else [];
    var aggs := AggCells(body.aggs, group);
    assert aggs[j].0 == alias;
    assert keys + aggs + windows == keys + (aggs + windows);
    GetRight(keys, aggs + windows, alias);
    GetLeft(aggs, windows, alias);
    GetAgg(body.aggs, group, j);
  }

  lemma KeyPartOf(body: ViewBody, rows: seq<Row>, k: Key, windows: NamedRow)
    requires body.Grouped? && |k| == |body.grain|
    ensures KeyPart(|body.grain|, InnerRow(body.grain, body.aggs, rows, k) + windows) == k
  {
    var row := InnerRow(body.grain, body.aggs, rows, k) + windows;
    assert row[..|k|] == KeyCells(body.grain, k);
  }

  /** The row a rollup shows for a key. */
  function ShownRow(body: ViewBody, rows: seq<Row>): Key -> NamedRow
    requires body.Grouped?
  {
    (k: Key) => OuterRow(body.windows, Inner(body.grain, body.aggs, rows), InnerRow(body.grain, body.aggs, rows, k))
  }

  lemma RunIsPerKey(body: ViewBody, rows: seq<Row>)
    requires body.Grouped?
    ensures Run(body, rows) == Map(ShownRow(body, rows), Keys(body.grain, rows))
  {
  }

  lemma KeyLength(grain: Grain, rows: seq<Row>)
    ensures forall k :: k in Keys(grain, rows) ==> |k| == |grain|
  {
  }

  lemma SelectedRows(body: ViewBody, rows: seq<Row>, p: Key -> bool)
    requires body.Grouped?
    ensures Filter(RowHolds(p, |body.grain|), Run(body, rows))
         == Map(ShownRow(body, rows), Filter(p, Keys(body.grain, rows)))
  {
    var keys, shown, holds := Keys(body.grain, rows), ShownRow(body, rows), RowHolds(p, |body.grain|);
    RunIsPerKey(body, rows);
    KeyLength(body.grain, rows);
    FilterMap(holds, shown, keys);
    forall k | k in keys ensures After(holds, shown)(k) == p(k) {
      KeyPartOf(body, rows, k, WindowRow(body.windows, Inner(body.grain, body.aggs, rows),
                                            InnerRow(body.grain, body.aggs, rows, k)));
    }
    FilterCong(After(holds, shown), p, keys);
  }

  /**
   * For every predicate on the grain columns: adding up an aggregate column over the view's
   * selected rows gives what adding it up over the selected base rows gives, NULL included.
   */
  lemma RollupPreservesTotals(body: ViewBody, rows: seq<Row>, p: Key -> bool, j: nat)
    requires body.Grouped? && DistinctAliases(body) && j < |body.aggs|
    ensures Sum(Map(CellOf(body.aggs[j].1), Filter(RowHolds(p, |body.grain|), Run(body, rows))))
         == Sum(Map(ArgOf(body.aggs[j].0), Filter(KeyHolds(p, body.grain), rows)))
  {
    var (a, alias) := body.aggs[j];
    var keys, shown := Filter(p, Keys(body.grain, rows)), ShownRow(body, rows);
    SelectedRows(body, rows, p);
    MapMap(shown, CellOf(alias), keys);
    forall k | k in keys ensures After(CellOf(alias), shown)(k) == GroupSum(body.grain, a, rows)(k) {
      AggCellOf(body, rows, k, j, WindowRow(body.windows, Inner(body.grain, body.aggs, rows),
                                            InnerRow(body.grain, body.aggs, rows, k)));
    }
    MapCong(After(CellOf(alias), shown), GroupSum(body.grain, a, rows), keys);
    KeySumIsSum(body.grain, a, p, Keys(body.grain, rows), rows);
    GroupTotals(body.grain, a, p, rows);
  }

  /** The CASE .. ELSE 0 column of a projection view. */
  function CaseOf(t: Term): Row -> Value { (r: Row) => EvalTerm(t, r) }

  lemma SumOfMap(f: Row -> Value, init: seq<Row>, r: Row)
    ensures Sum(Map(f, init + [r])) == Plus(Sum(Map(f, init)), f(r))
    ensures OrZero(Sum(Map(f, init + [r]))) == OrZero(Sum(Map(f, init))) + OrZero(f(r))
  {
    SumAfterMap(f, init, r);
  }

  lemma CaseMatchesArg(source: string, alias: string, r: Row)
    ensures OrZero(CaseOf(MemberCase(source, alias))(r)) == OrZero(ArgOf(SumOf(source, true))(r))
  {
  }

  lemma {:induction false} SumsAgree(f: Row -> Value, g: Row -> Value, rows: seq<Row>)
    requires forall i :: 0 <= i < |rows| ==> OrZero(f(rows[i])) == OrZero(g(rows[i]))
    ensures OrZero(Sum(Map(f, rows))) == OrZero(Sum(Map(g, rows)))
  {
    if rows != [] {
      var init, r := rows[..|rows| - 1], rows[|rows| - 1];
      SumsAgree(f, g, init);
      SumOfMap(f, init, r);
      SumOfMap(g, init, r);
      assert rows == init + [r];
    }
  }

  /** The CASE-built split and the FILTERed SUM agree once NULL counts as 0. */
  lemma CaseMatchesFilter(source: string, alias: string, rows: seq<Row>)
    ensures OrZero(Sum(Map(CaseOf(MemberCase(source, alias)), rows)))
         == OrZero(Sum(Map(ArgOf(SumOf(source, true)), rows)))
  {
    forall i | 0 <= i < |rows| {
      CaseMatchesArg(source, alias, rows[i]);
    }
    SumsAgree(CaseOf(MemberCase(source, alias)), ArgOf(SumOf(source, true)), rows);
  }

  /** Member totals over the rollup equal the totals of the daily view's generated member split. */
  lemma MemberTotalsAgree(body: ViewBody, rows: seq<Row>, p: Key -> bool, j: nat, alias: string)
    requires body.Grouped? && DistinctAliases(body) && j < |body.aggs| && body.aggs[j].0.membersOnly
    ensures OrZero(Sum(Map(CellOf(body.aggs[j].1), Filter(RowHolds(p, |body.grain|), Run(body, rows)))))
         == OrZero(Sum(Map(CaseOf(MemberCase(body.aggs[j].0.column, alias)), Filter(KeyHolds(p, body.grain), rows))))
  {
    RollupPreservesTotals(body, rows, p, j);
    CaseMatchesFilter(body.aggs[j].0.column, alias, Filter(KeyHolds(p, body.grain), rows));
  }

  // ------------------------------------------------------------------
  // Filters and rank windows
  // ------------------------------------------------------------------

  /** Every window partitions by grain columns. */
  ghost predicate WindowsOverGrain(body: ViewBody)
    requires body.Grouped?
  {
    forall w, c :: w in body.windows && c in w.0.partition ==> exists i :: 0 <= i < |body.grain| && body.grain[i].1 == c
  }

  /** p only looks at the columns this window partitions by, as far as table rows can tell. */
  ghost predicate RespectsPartition(body: ViewBody, w: Window, p: Key -> bool)
    requires body.Grouped?
  {
    forall r: Row, s: Row ::
      PartitionOf(w.partition, KeyCells(body.grain, KeyOf(body.grain, r)))
      == PartitionOf(w.partition, KeyCells(body.grain, KeyOf(body.grain, s)))
      ==> p(KeyOf(body.grain, r)) == p(KeyOf(body.grain, s))
  }

  /** Filtering the base rows and filtering the view's rows give the same view rows. */
  ghost predicate FilterCommutes(body: ViewBody, p: Key -> bool, rows: seq<Row>)
    requires body.Grouped?
  {
    Run(body, Filter(KeyHolds(p, body.grain), rows)) == Filter(RowHolds(p, |body.grain|), Run(body, rows))
  }

  lemma {:induction false} KeysOfFiltered(grain: Grain, p: Key -> bool, rows: seq<Row>)
    ensures Keys(grain, Filter(KeyHolds(p, grain), rows)) == Filter(p, Keys(grain, rows))
  {
    if rows != [] {
      var init, r := rows[..|rows| - 1], rows[|rows| - 1];
      KeysOfFiltered(grain, p, init);
      var kept := Filter(KeyHolds(p, grain), init);
      var k, ks := KeyOf(grain, r), Keys(grain, init);
      FilterMembers(p, ks);
      if p(k) {
        assert (kept + [r])[..|kept|] == kept;
      } else {
        assert kept + [] == kept;
      }
      if k !in ks {
        assert (ks + [k])[..|ks|] == ks;
        assert Filter(p, ks) + [] == Filter(p, ks);
      }
    }
  }

  lemma GroupOfFiltered(grain: Grain, p: Key -> bool, rows: seq<Row>, k: Key)
    requires p(k)
    ensures Group(grain, Filter(KeyHolds(p, grain), rows), k) == Group(grain, rows, k)
  {
    var inGroup := (r: Row) => KeyOf(grain, r) == k;
    FilterFilter(inGroup, KeyHolds(p, grain), rows);
    FilterCong(And(KeyHolds(p, grain), inGroup), inGroup, rows);
  }

  lemma InnerOfFiltered(body: ViewBody, p: Key -> bool, rows: seq<Row>)
    requires body.Grouped?
    ensures Inner(body.grain, body.aggs, Filter(KeyHolds(p, body.grain), rows))
         == Map(PlainRow(body, rows), Filter(p, Keys(body.grain, rows)))
  {
    KeysOfFiltered(body.grain, p, rows);
    var keys := Filter(p, Keys(body.grain, rows));
    FilterMembers(p, Keys(body.grain, rows));
    forall i | 0 <= i < |keys|
      ensures InnerRow(body.grain, body.aggs, Filter(KeyHolds(p, body.grain), rows), keys[i])
           == InnerRow(body.grain, body.aggs, rows, keys[i])
    {
      assert keys[i] in keys;
      GroupOfFiltered(body.grain, p, rows, keys[i]);
    }
  }

  function PlainRow(body: ViewBody, rows: seq<Row>): Key -> NamedRow
    requires body.Grouped?
  {
    (k: Key) => InnerRow(body.grain, body.aggs, rows, k)
  }

  /** Which window a row of the full relation sits in depends only on its key. */
  lemma PartitionOfRow(body: ViewBody, rows: seq<Row>, w: Window, k: Key)
    requires body.Grouped? && |k| == |body.grain|
    requires forall c :: c in w.partition ==> exists i :: 0 <= i < |body.grain| && body.grain[i].1 == c
    ensures PartitionOf(w.partition, PlainRow(body, rows)(k)) == PartitionOf(w.partition, KeyCells(body.grain, k))
  {
    var cells, aggs := KeyCells(body.grain, k), AggCells(body.aggs, Group(body.grain, rows, k));
    forall c | c in w.partition ensures Get(cells + aggs, c) == Get(cells, c) {
      var i :| 0 <= i < |body.grain| && body.grain[i].1 == c;
      assert cells[i].0 == c;
      GetLeft(cells, aggs, c);
    }
  }

  function AboveRow(w: Window, r: NamedRow): NamedRow -> bool { (o: NamedRow) => RankedAbove(w, o, r) }

  lemma RankIsCount(w: Window, rel: seq<NamedRow>, r: NamedRow)
    ensures RankOf(w, rel, r) == 1 + |Filter(AboveRow(w, r), rel)|
  {
    FilterCong(AboveRow(w, r), (o: NamedRow) => RankedAbove(w, o, r), rel);
  }

  /** A selected row keeps its rank when only unselected keys, all of other partitions, go away. */
  lemma RankOfSelected(body: ViewBody, p: Key -> bool, rows: seq<Row>, w: Window, k: Key)
    requires body.Grouped? && RespectsPartition(body, w, p) && k in Keys(body.grain, rows) && p(k)
    requires forall c :: c in w.partition ==> exists i :: 0 <= i < |body.grain| && body.grain[i].1 == c
    ensures var row, keys := PlainRow(body, rows)(k), Keys(body.grain, rows);
            RankOf(w, Map(PlainRow(body, rows), Filter(p, keys)), row)
            == RankOf(w, Map(PlainRow(body, rows), keys), row)
  {
    var plain, keys := PlainRow(body, rows), Keys(body.grain, rows);
    var row := plain(k);
    var above := AboveRow(w, row);
    RankIsCount(w, Map(plain, keys), row);
    RankIsCount(w, Map(plain, Filter(p, keys)), row);
    FilterMap(above, plain, keys);
    FilterMap(above, plain, Filter(p, keys));
    FilterFilter(After(above, plain), p, keys);
    KeyLength(body.grain, rows);
    forall o | o in keys ensures And(p, After(above, plain))(o) == After(above, plain)(o) {
      PartitionOfRow(body, rows, w, o);
      PartitionOfRow(body, rows, w, k);
      var r :| r in rows && KeyOf(body.grain, r) == o;
      var s :| s in rows && KeyOf(body.grain, s) == k;
      if above(plain(o)) {
        assert PartitionOf(w.partition, KeyCells(body.grain, KeyOf(body.grain, r)))
            == PartitionOf(w.partition, KeyCells(body.grain, KeyOf(body.grain, s)));
      }
    }
    FilterCong(And(p, After(above, plain)), After(above, plain), keys);
  }

  /** The relation a filter leaves, before its rows get their window cells. */
  function SelectedRel(body: ViewBody, p: Key -> bool, rows: seq<Row>): seq<NamedRow>
    requires body.Grouped?
  {
    Map(PlainRow(body, rows), Filter(p, Keys(body.grain, rows)))
  }

  function WholeRel(body: ViewBody, rows: seq<Row>): seq<NamedRow>
    requires body.Grouped?
  {
    Map(PlainRow(body, rows), Keys(body.grain, rows))
  }

  lemma WindowOfSelected(body: ViewBody, p: Key -> bool, rows: seq<Row>, k: Key, j: nat)
    requires body.Grouped? && WindowsOverGrain(body) && k in Keys(body.grain, rows) && p(k) && j < |body.windows|
    requires RespectsPartition(body, body.windows[j].0, p)
    ensures EvalWindow(body.windows[j].0, SelectedRel(body, p, rows), PlainRow(body, rows)(k))
         == EvalWindow(body.windows[j].0, WholeRel(body, rows), PlainRow(body, rows)(k))
  {
    assert body.windows[j] in body.windows;
    RankOfSelected(body, p, rows, body.windows[j].0, k);
  }

  lemma WindowsOfSelected(body: ViewBody, p: Key -> bool, rows: seq<Row>, k: Key)
    requires body.Grouped? && WindowsOverGrain(body) && k in Keys(body.grain, rows) && p(k)
    requires forall j :: 0 <= j < |body.windows| ==> RespectsPartition(body, body.windows[j].0, p)
    ensures WindowRow(body.windows, SelectedRel(body, p, rows), PlainRow(body, rows)(k))
         == WindowRow(body.windows, WholeRel(body, rows), PlainRow(body, rows)(k))
  {
    forall j | 0 <= j < |body.windows| {
      WindowOfSelected(body, p, rows, k, j);
    }
    SameWindowCells(body.windows, SelectedRel(body, p, rows), WholeRel(body, rows), PlainRow(body, rows)(k));
  }

  lemma SameWindowCells(windows: seq<(Window, string)>, a: seq<NamedRow>, b: seq<NamedRow>, r: NamedRow)
    requires forall j :: 0 <= j < |windows| ==> EvalWindow(windows[j].0, a, r) == EvalWindow(windows[j].0, b, r)
    ensures WindowRow(windows, a, r) == WindowRow(windows, b, r)
  {
  }

  lemma RunFromInner(body: ViewBody, rows: seq<Row>, rel: seq<NamedRow>)
    requires body.Grouped? && rel == Inner(body.grain, body.aggs, rows)
    ensures |Run(body, rows)| == |rel|
    ensures forall i :: 0 <= i < |rel| ==> Run(body, rows)[i] == rel[i] + WindowRow(body.windows, rel, rel[i])
  {
  }

  /** A filter on partition columns may be applied before or after grouping and ranking. */
  lemma FilterRankCommute(body: ViewBody, p: Key -> bool, rows: seq<Row>)
    requires body.Grouped? && WindowsOverGrain(body)
    requires forall j :: 0 <= j < |body.windows| ==> RespectsPartition(body, body.windows[j].0, p)
    ensures FilterCommutes(body, p, rows)
  {
    var keys := Keys(body.grain, rows);
    var selected := Filter(p, keys);
    var some := SelectedRel(body, p, rows);
    InnerOfFiltered(body, p, rows);
    RunFromInner(body, Filter(KeyHolds(p, body.grain), rows), some);
    SelectedRows(body, rows, p);
    FilterMembers(p, keys);
    var before, after := Run(body, Filter(KeyHolds(p, body.grain), rows)), Map(ShownRow(body, rows), selected);
    forall i | 0 <= i < |selected| ensures before[i] == after[i] {
      assert selected[i] in selected;
      WindowsOfSelected(body, p, rows, selected[i]);
      ShownRowParts(body, rows, selected[i]);
    }
    assert before == after;
  }

  lemma ShownRowParts(body: ViewBody, rows: seq<Row>, k: Key)
    requires body.Grouped?
    ensures ShownRow(body, rows)(k)
         == PlainRow(body, rows)(k)
            + WindowRow(body.windows, WholeRel(body, rows), PlainRow(body, rows)(k))
  {
    assert Inner(body.grain, body.aggs, rows) == WholeRel(body, rows);
  }

  // ------------------------------------------------------------------
  // .. and only then
  // ------------------------------------------------------------------

  /** The first window ranks by the plain SUM of a column no grain expression reads. */
  ghost predicate RanksByFreeSum(body: ViewBody, j: nat)
    requires body.Grouped?
  {
    && DistinctAliases(body) && WindowsOverGrain(body) && j < |body.aggs| && body.windows != []
    && body.windows[0].0.Rank? && body.windows[0].0.order == body.aggs[j].1
    && !body.aggs[j].0.membersOnly
    && (forall g :: g in body.grain ==> g.0.column != body.aggs[j].0.column)
  }

  lemma KeyWithoutColumn(grain: Grain, r: Row, c: string, v: Value)
    requires forall g :: g in grain ==> g.0.column != c
    ensures KeyOf(grain, r[c := v]) == KeyOf(grain, r)
  {
    forall i | 0 <= i < |grain| ensures EvalGrain(grain[i].0, r[c := v]) == EvalGrain(grain[i].0, r) {
      assert grain[i] in grain;
    }
  }

  lemma OneGroupSum(grain: Grain, a: Agg, r: Row)
    ensures EvalAgg(a, Group(grain, [r], KeyOf(grain, r))) == Plus(Null, AggArg(a, r))
  {
    GroupAppend(grain, [], r, KeyOf(grain, r), a);
    assert [] + [r] == [r];
  }

  lemma TwoGroupSums(grain: Grain, a: Agg, r: Row, s: Row)
    requires KeyOf(grain, r) != KeyOf(grain, s)
    ensures EvalAgg(a, Group(grain, [r, s], KeyOf(grain, r))) == Plus(Null, AggArg(a, r))
    ensures EvalAgg(a, Group(grain, [r, s], KeyOf(grain, s))) == Plus(Null, AggArg(a, s))
  {
    OneGroupSum(grain, a, r);
    assert [r] + [s] == [r, s] && [] + [r] == [r];
    GroupAppend(grain, [r], s, KeyOf(grain, r), a);
    GroupAppend(grain, [r], s, KeyOf(grain, s), a);
    GroupAppend(grain, [], r, KeyOf(grain, s), a);
  }

  lemma TwoKeys(grain: Grain, r: Row, s: Row)
    requires KeyOf(grain, r) != KeyOf(grain, s)
    ensures Keys(grain, [r]) == [KeyOf(grain, r)]
    ensures Keys(grain, [r, s]) == [KeyOf(grain, r), KeyOf(grain, s)]
  {
    assert [r][..0] == [] && [r, s][..1] == [r];
  }

  lemma KeepsFirst<A>(q: A -> bool, x: A, y: A)
    requires q(x) && !q(y)
    ensures Filter(q, [x, y]) == [x]
  {
    assert [x, y][..1] == [x] && [x][..0] == [];
  }

  lemma RankAlone(body: ViewBody, j: nat, r: Row)
    requires body.Grouped? && RanksByFreeSum(body, j) && Cell(r, body.aggs[j].0.column) == Num(0)
    ensures |Run(body, [r])| == 1 && |Run(body, [r])[0]| == |body.grain| + |body.aggs| + |body.windows|
    ensures Run(body, [r])[0][|body.grain| + |body.aggs|] == (body.windows[0].1, Num(1))
  {
    var k := KeyOf(body.grain, r);
    assert [r][..0] == [];
    assert Keys(body.grain, [r]) == [k];
    var row := PlainRow(body, [r])(k);
    assert Inner(body.grain, body.aggs, [r]) == [row];
    RunFromInner(body, [r], [row]);
    AggCellOf(body, [r], k, j, []);
    assert row + [] == row;
    OneGroupSum(body.grain, body.aggs[j].0, r);
    RankOfOne(body.windows[0].0, row);
  }

  /** Two keys of one rank partition: the row with the smaller sum is second. */
  lemma RankBehind(body: ViewBody, j: nat, r: Row, s: Row)
    requires body.Grouped? && RanksByFreeSum(body, j) && KeyOf(body.grain, r) != KeyOf(body.grain, s)
    requires Cell(r, body.aggs[j].0.column) == Num(0) && Cell(s, body.aggs[j].0.column) == Num(1)
    requires PartitionOf(body.windows[0].0.partition, KeyCells(body.grain, KeyOf(body.grain, r)))
          == PartitionOf(body.windows[0].0.partition, KeyCells(body.grain, KeyOf(body.grain, s)))
    ensures var plain := PlainRow(body, [r, s]);
            RankOf(body.windows[0].0, Map(plain, Keys(body.grain, [r, s])), plain(KeyOf(body.grain, r))) == 2
  {
    var rows, w := [r, s], body.windows[0].0;
    var kr, ks := KeyOf(body.grain, r), KeyOf(body.grain, s);
    var rowR, rowS := PlainRow(body, rows)(kr), PlainRow(body, rows)(ks);
    assert Map(PlainRow(body, rows), Keys(body.grain, rows)) == [rowR, rowS] by {
      TwoKeys(body.grain, r, s);
    }
    OrderOfTwo(body, j, r, s);
    assert PartitionOf(w.partition, rowR) == PartitionOf(w.partition, rowS) by {
      assert body.windows[0] in body.windows;
      PartitionOfRow(body, rows, w, kr);
      PartitionOfRow(body, rows, w, ks);
    }
    RanksOfTwo(w, rowR, rowS);
  }

  lemma OrderOfTwo(body: ViewBody, j: nat, r: Row, s: Row)
    requires body.Grouped? && RanksByFreeSum(body, j) && KeyOf(body.grain, r) != KeyOf(body.grain, s)
    requires Cell(r, body.aggs[j].0.column) == Num(0) && Cell(s, body.aggs[j].0.column) == Num(1)
    ensures Get(PlainRow(body, [r, s])(KeyOf(body.grain, r)), body.windows[0].0.order) == Num(0)
    ensures Get(PlainRow(body, [r, s])(KeyOf(body.grain, s)), body.windows[0].0.order) == Num(1)
  {
    var rows, kr, ks := [r, s], KeyOf(body.grain, r), KeyOf(body.grain, s);
    AggCellOf(body, rows, kr, j, []);
    AggCellOf(body, rows, ks, j, []);
    assert PlainRow(body, rows)(kr) + [] == PlainRow(body, rows)(kr);
    assert PlainRow(body, rows)(ks) + [] == PlainRow(body, rows)(ks);
    TwoGroupSums(body.grain, body.aggs[j].0, r, s);
  }

  /** Two rows of one rank partition, of which the filter keeps only the one with the smaller sum. */
  lemma LoserLosesRank(body: ViewBody, j: nat, p: Key -> bool, r: Row, s: Row)
    requires body.Grouped? && RanksByFreeSum(body, j)
    requires Cell(r, body.aggs[j].0.column) == Num(0) && Cell(s, body.aggs[j].0.column) == Num(1)
    requires PartitionOf(body.windows[0].0.partition, KeyCells(body.grain, KeyOf(body.grain, r)))
          == PartitionOf(body.windows[0].0.partition, KeyCells(body.grain, KeyOf(body.grain, s)))
    requires p(KeyOf(body.grain, r)) && !p(KeyOf(body.grain, s))
    ensures !FilterCommutes(body, p, [r, s])
  {
    assert Filter(KeyHolds(p, body.grain), [r, s]) == [r] by {
      KeepsFirst(KeyHolds(p, body.grain), r, s);
    }
    RankAlone(body, j, r);
    ShownBehind(body, j, r, s);
    assert Filter(RowHolds(p, |body.grain|), Run(body, [r, s])) == [ShownRow(body, [r, s])(KeyOf(body.grain, r))] by {
      SelectedRows(body, [r, s], p);
      TwoKeys(body.grain, r, s);
      KeepsFirst(p, KeyOf(body.grain, r), KeyOf(body.grain, s));
    }
  }

  lemma ShownBehind(body: ViewBody, j: nat, r: Row, s: Row)
    requires body.Grouped? && RanksByFreeSum(body, j) && KeyOf(body.grain, r) != KeyOf(body.grain, s)
    requires Cell(r, body.aggs[j].0.column) == Num(0) && Cell(s, body.aggs[j].0.column) == Num(1)
    requires PartitionOf(body.windows[0].0.partition, KeyCells(body.grain, KeyOf(body.grain, r)))
          == PartitionOf(body.windows[0].0.partition, KeyCells(body.grain, KeyOf(body.grain, s)))
    ensures var shown := ShownRow(body, [r, s])(KeyOf(body.grain, r));
            var n := |body.grain| + |body.aggs|;
            |shown| > n && shown[n] == (body.windows[0].1, Num(2))
  {
    ShownRowParts(body, [r, s], KeyOf(body.grain, r));
    RankBehind(body, j, r, s);
  }

  lemma RanksOfTwo(w: Window, r: NamedRow, s: NamedRow)
    requires PartitionOf(w.partition, r) == PartitionOf(w.partition, s)
    requires Ahead(Get(s, w.order), Get(r, w.order)) && !Ahead(Get(r, w.order), Get(r, w.order))
    ensures RankOf(w, [r, s], r) == 2
  {
    RankIsCount(w, [r, s], r);
    assert [r, s][..1] == [r] && [r][..0] == [];
    assert Filter(AboveRow(w, r), [r]) == [];
  }

  lemma RankOfOne(w: Window, r: NamedRow)
    requires !Ahead(Get(r, w.order), Get(r, w.order))
    ensures RankOf(w, [r], r) == 1
  {
    RankIsCount(w, [r], r);
    assert [r][..0] == [];
  }

  ghost predicate SamePartition(body: ViewBody, r: Row, s: Row)
    requires body.Grouped? && body.windows != []
  {
    PartitionOf(body.windows[0].0.partition, KeyCells(body.grain, KeyOf(body.grain, r)))
    == PartitionOf(body.windows[0].0.partition, KeyCells(body.grain, KeyOf(body.grain, s)))
  }

  lemma CommutingKeepsPartners(body: ViewBody, j: nat, p: Key -> bool, r: Row, s: Row)
    requires body.Grouped? && RanksByFreeSum(body, j) && SamePartition(body, r, s)
    requires forall rows :: FilterCommutes(body, p, rows)
    ensures p(KeyOf(body.grain, r)) ==> p(KeyOf(body.grain, s))
  {
    if p(KeyOf(body.grain, r)) && !p(KeyOf(body.grain, s)) {
      var _ := Separator(body, j, p, r, s);
    }
  }

  lemma Separator(body: ViewBody, j: nat, p: Key -> bool, r: Row, s: Row) returns (rows: seq<Row>)
    requires body.Grouped? && RanksByFreeSum(body, j) && SamePartition(body, r, s)
    requires p(KeyOf(body.grain, r)) && !p(KeyOf(body.grain, s))
    ensures !FilterCommutes(body, p, rows)
  {
    var c := body.aggs[j].0.column;
    KeyWithoutColumn(body.grain, r, c, Num(0));
    KeyWithoutColumn(body.grain, s, c, Num(1));
    rows := [r[c := Num(0)], s[c := Num(1)]];
    LoserLosesRank(body, j, p, rows[0], rows[1]);
  }

  /**
   * A filter on the group key may move below the rank windows, over every table content, exactly
   * when it is a function of the columns the windows partition by.
   */
  lemma FilterRankCommuteIff(body: ViewBody, j: nat, p: Key -> bool)
    requires body.Grouped? && RanksByFreeSum(body, j)
    requires forall w :: w in body.windows ==> w.0.partition == body.windows[0].0.partition
    ensures (forall rows :: FilterCommutes(body, p, rows)) <==> RespectsPartition(body, body.windows[0].0, p)
  {
    if RespectsPartition(body, body.windows[0].0, p) {
      RespectingCommutes(body, p);
    }
    if forall rows :: FilterCommutes(body, p, rows) {
      CommutingRespects(body, j, p);
    }
  }

  lemma RespectingCommutes(body: ViewBody, p: Key -> bool)
    requires body.Grouped? && body.windows != [] && WindowsOverGrain(body)
    requires forall w :: w in body.windows ==> w.0.partition == body.windows[0].0.partition
    requires RespectsPartition(body, body.windows[0].0, p)
    ensures forall rows :: FilterCommutes(body, p, rows)
  {
    forall j | 0 <= j < |body.windows| ensures RespectsPartition(body, body.windows[j].0, p) {
      assert body.windows[j] in body.windows;
      SameWindowRespected(body, body.windows[j].0, p);
    }
    forall rows ensures FilterCommutes(body, p, rows) {
      FilterRankCommute(body, p, rows);
    }
  }

  lemma CommutingRespects(body: ViewBody, j: nat, p: Key -> bool)
    requires body.Grouped? && RanksByFreeSum(body, j)
    requires forall rows :: FilterCommutes(body, p, rows)
    ensures RespectsPartition(body, body.windows[0].0, p)
  {
    forall r: Row, s: Row | SamePartition(body, r, s)
      ensures p(KeyOf(body.grain, r)) == p(KeyOf(body.grain, s))
    {
      CommutingKeepsPartners(body, j, p, r, s);
      CommutingKeepsPartners(body, j, p, s, r);
    }
  }

  lemma SameWindowRespected(body: ViewBody, w: Window, p: Key -> bool)
    requires body.Grouped? && body.windows != [] && w.partition == body.windows[0].0.partition
    requires RespectsPartition(body, body.windows[0].0, p)
    ensures RespectsPartition(body, w, p)
  {
  }
}
