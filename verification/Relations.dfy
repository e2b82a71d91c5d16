/** A small relational semantics for the SELECT shapes the view compiler emits. */
module Relations {
  import opened Calendar
  import opened Seqs

  datatype Value = Null | Num(n: int) | Text(s: string) | Day(d: Date) | Flag(b: bool)

  /** A base-table row: values by column. */
  type Row = map<string, Value>

  /** A row a view emits: (column name, value) pairs in output order. */
  type NamedRow = seq<(string, Value)>

  function Cell(r: Row, c: string): Value { if c in r then r[c] else Null }

  /** The first cell with this name. */
  function Get(r: NamedRow, c: string): Value {
    if r == [] then Null else if r[0].0 == c then r[0].1 else Get(r[1..], c)
  }

  lemma {:induction false} GetLeft(a: NamedRow, b: NamedRow, c: string)
    requires exists i :: 0 <= i < |a| && a[i].0 == c
    ensures Get(a + b, c) == Get(a, c)
  {
    if a[0].0 != c {
      assert (a + b)[1..] == a[1..] + b;
      GetLeft(a[1..], b, c);
    }
  }

  lemma {:induction false} GetRight(a: NamedRow, b: NamedRow, c: string)
    requires forall i :: 0 <= i < |a| ==> a[i].0 != c
    ensures Get(a + b, c) == Get(b, c)
  {
    if a == [] {
      assert a + b == b;
    } else {
      assert (a + b)[1..] == a[1..] + b;
      GetRight(a[1..], b, c);
    }
  }

  // ------------------------------------------------------------------
  // SUM
  // ------------------------------------------------------------------

  /** How SUM accumulates: NULLs are skipped, and nothing at all sums to NULL. */
  function Plus(a: Value, b: Value): Value {
    match (a, b)
    case (Num(x), Num(y)) => Num(x + y)
    case (Num(x), _) => a
    case (_, Num(y)) => b
    case _ => Null
  }

  predicate Total(v: Value) { v.Num? || v.Null? }

  lemma PlusRegroups(s: Value, g: Value, v: Value)
    requires Total(s) && Total(g)
    ensures Plus(s, Plus(g, v)) == Plus(Plus(s, g), v)
    ensures Plus(Plus(s, v), g) == Plus(Plus(s, g), v)
  {
  }

  function Sum(vs: seq<Value>): (s: Value)
    ensures Total(s)
  {
    if vs == [] then Null else Plus(Sum(vs[..|vs| - 1]), vs[|vs| - 1])
  }

  /** COALESCE(v, 0). */
  function OrZero(v: Value): int { if v.Num? then v.n else 0 }

  /** SUM(b.column), or SUM(b.column) FILTER (WHERE b.customer_type = 'Member'). */
  datatype Agg = SumOf(column: string, membersOnly: bool)

  const CUSTOMER_TYPE := "customer_type"
  const MEMBER := Text("Member")

  /** What a row hands to the SUM: a row the FILTER rejects adds nothing, as a NULL does. */
  function AggArg(a: Agg, r: Row): Value {
    if a.membersOnly && Cell(r, CUSTOMER_TYPE) != MEMBER then Null else Cell(r, a.column)
  }

  function EvalAgg(a: Agg, rows: seq<Row>): Value { Sum(Map((r: Row) => AggArg(a, r), rows)) }

  // ------------------------------------------------------------------
  // GROUP BY
  // ------------------------------------------------------------------

  /** date_trunc('month', b.column)::date, or b.column. */
  datatype GrainExpr = MonthOf(column: string) | Plain(column: string)

  function EvalGrain(g: GrainExpr, r: Row): Value {
    match g
    case MonthOf(c) => (match Cell(r, c) case Day(d) => Day(MonthFloor(d)) case _ => Null)
    case Plain(c) => Cell(r, c)
  }

  type Grain = seq<(GrainExpr, string)>
  type Key = seq<Value>

  function KeyOf(grain: Grain, r: Row): Key { Map((g: (GrainExpr, string)) => EvalGrain(g.0, r), grain) }

  /** The group keys present, each once. */
  function Keys(grain: Grain, rows: seq<Row>): (ks: seq<Key>)
    ensures Distinct(ks)
    ensures forall k :: k in ks ==> exists r :: r in rows && KeyOf(grain, r) == k
    ensures forall r :: r in rows ==> KeyOf(grain, r) in ks
  {
    if rows == [] then []
    else
      var ks := Keys(grain, rows[..|rows| - 1]);
      var k := KeyOf(grain, rows[|rows| - 1]);
      assert rows[|rows| - 1] in rows;
      if k in ks then ks else ks + [k]
  }

  function Group(grain: Grain, rows: seq<Row>, k: Key): seq<Row> {
    Filter((r: Row) => KeyOf(grain, r) == k, rows)
  }

  function KeyCells(grain: Grain, k: Key): NamedRow
    requires |k| == |grain|
  {
    seq(|k|, i requires 0 <= i < |k| => (grain[i].1, k[i]))
  }

  function AggCells(aggs: seq<(Agg, string)>, rows: seq<Row>): NamedRow {
    Map((a: (Agg, string)) => (a.1, EvalAgg(a.0, rows)), aggs)
  }

  /** One row of the inner SELECT .. GROUP BY. Total in k for convenience; keys have the grain's length. */
  function InnerRow(grain: Grain, aggs: seq<(Agg, string)>, rows: seq<Row>, k: Key): NamedRow {
    (if |k| == |grain| then KeyCells(grain, k) else []) + AggCells(aggs, Group(grain, rows, k))
  }

  function Inner(grain: Grain, aggs: seq<(Agg, string)>, rows: seq<Row>): seq<NamedRow> {
    Map((k: Key) => InnerRow(grain, aggs, rows, k), Keys(grain, rows))
  }

  // ------------------------------------------------------------------
  // RANK() OVER (PARTITION BY .. ORDER BY .. DESC)
  // ------------------------------------------------------------------

  datatype Window =
    | Rank(partition: seq<string>, order: string)
    | RankAtMost(partition: seq<string>, order: string, limit: int)

  /** a comes strictly before b in descending order; NULLs come first. */
  predicate Ahead(a: Value, b: Value) {
    (a.Null? && !b.Null?) || (a.Num? && b.Num? && a.n > b.n)
  }

  function PartitionOf(partition: seq<string>, r: NamedRow): seq<Value> {
    Map((c: string) => Get(r, c), partition)
  }

  predicate RankedAbove(w: Window, other: NamedRow, r: NamedRow) {
    PartitionOf(w.partition, other) == PartitionOf(w.partition, r) && Ahead(Get(other, w.order), Get(r, w.order))
  }

  /** One more than the number of rows of r's partition strictly ahead of it. */
  function RankOf(w: Window, rel: seq<NamedRow>, r: NamedRow): int {
    1 + |Filter((o: NamedRow) => RankedAbove(w, o, r), rel)|
  }

  function EvalWindow(w: Window, rel: seq<NamedRow>, r: NamedRow): Value {
    match w
    case Rank(_, _) => Num(RankOf(w, rel, r))
    case RankAtMost(_, _, limit) => Flag(RankOf(w, rel, r) <= limit)
  }

  function WindowRow(windows: seq<(Window, string)>, rel: seq<NamedRow>, r: NamedRow): NamedRow {
    Map((w: (Window, string)) => (w.1, EvalWindow(w.0, rel, r)), windows)
  }

  function OuterRow(windows: seq<(Window, string)>, rel: seq<NamedRow>, r: NamedRow): NamedRow {
    r + WindowRow(windows, rel, r)
  }

  // ------------------------------------------------------------------
  // View bodies
  // ------------------------------------------------------------------

  /** b."column", or CASE WHEN b.customer_type = 'Member' THEN b."source" ELSE 0 END AS "alias". */
  datatype Term = Column(name: string) | MemberCase(source: string, alias: string)

  function TermName(t: Term): string { match t case Column(n) => n case MemberCase(_, a) => a }

  function EvalTerm(t: Term, r: Row): Value {
    match t
    case Column(n) => Cell(r, n)
    case MemberCase(s, _) => if Cell(r, CUSTOMER_TYPE) == MEMBER then Cell(r, s) else Num(0)
  }

  datatype ViewBody =
    | Projection(terms: seq<Term>)
    | Grouped(grain: Grain, aggs: seq<(Agg, string)>, windows: seq<(Window, string)>)

  function ProjectRow(terms: seq<Term>, r: Row): NamedRow {
    Map((t: Term) => (TermName(t), EvalTerm(t, r)), terms)
  }

  /** The rows a view shows over a table content. */
  function Run(body: ViewBody, rows: seq<Row>): seq<NamedRow> {
    match body
    case Projection(terms) => Map((r: Row) => ProjectRow(terms, r), rows)
    case Grouped(grain, aggs, windows) =>
      var rel := Inner(grain, aggs, rows);
      Map((r: NamedRow) => OuterRow(windows, rel, r), rel)
  }

  /** The output column names, in order. */
  function Names(body: ViewBody): seq<string> {
    match body
    case Projection(terms) => Map((t: Term) => TermName(t), terms)
    case Grouped(grain, aggs, windows) =>
      Map((g: (GrainExpr, string)) => g.1, grain) + Map((a: (Agg, string)) => a.1, aggs)
      + Map((w: (Window, string)) => w.1, windows)
  }

  // ------------------------------------------------------------------
  // What a body reads
  // ------------------------------------------------------------------

  function TermReads(t: Term): set<string> {
    match t case Column(n) => {n} case MemberCase(s, _) => {s, CUSTOMER_TYPE}
  }

  function AggReads(a: Agg): set<string> { {a.column} + if a.membersOnly then {CUSTOMER_TYPE} else {} }

  /** The base columns a body's result can depend on. */
  ghost function Reads(body: ViewBody): set<string> {
    match body
    case Projection(terms) => set t, c | t in terms && c in TermReads(t) :: c
    case Grouped(grain, aggs, _) =>
      (set g | g in grain :: g.0.column) + (set a, c | a in aggs && c in AggReads(a.0) :: c)
  }

  /** Two contents with the same rows except in the columns of a set. */
  ghost predicate SameExcept(cols: set<string>, t: seq<Row>, u: seq<Row>) {
    |t| == |u| && forall i, c :: 0 <= i < |t| && c !in cols ==> Cell(t[i], c) == Cell(u[i], c)
  }

  /** A body that reads none of some columns shows the same rows whatever those columns hold. */
  lemma RunReadsOnly(body: ViewBody, cols: set<string>, t: seq<Row>, u: seq<Row>)
    requires Reads(body) !! cols && SameExcept(cols, t, u)
    ensures Run(body, t) == Run(body, u)
  {
    match body {
      case Projection(terms) =>
        forall i | 0 <= i < |t| ensures ProjectRow(terms, t[i]) == ProjectRow(terms, u[i]) {
          forall k | 0 <= k < |terms| ensures EvalTerm(terms[k], t[i]) == EvalTerm(terms[k], u[i]) {
            TermReadsOnly(body, terms[k], cols, t, u, i);
          }
        }
      case Grouped(grain, aggs, windows) =>
        InnerReadsOnly(grain, aggs, windows, cols, t, u);
    }
  }

  lemma TermReadsOnly(body: ViewBody, e: Term, cols: set<string>, t: seq<Row>, u: seq<Row>, i: nat)
    requires body.Projection? && e in body.terms
    requires Reads(body) !! cols && SameExcept(cols, t, u) && i < |t|
    ensures EvalTerm(e, t[i]) == EvalTerm(e, u[i])
  {
    assert forall c :: c in TermReads(e) ==> c in Reads(body);
    match e {
      case Column(n) => assert n in TermReads(e);
      case MemberCase(s, _) => assert s in TermReads(e) && CUSTOMER_TYPE in TermReads(e);
    }
  }

  lemma KeyReadsOnly(grain: Grain, r: Row, s: Row)
    requires forall g :: g in grain ==> Cell(r, g.0.column) == Cell(s, g.0.column)
    ensures KeyOf(grain, r) == KeyOf(grain, s)
  {
  }

  lemma {:induction false} KeysReadOnly(grain: Grain, t: seq<Row>, u: seq<Row>)
    requires |t| == |u| && forall i :: 0 <= i < |t| ==> KeyOf(grain, t[i]) == KeyOf(grain, u[i])
    ensures Keys(grain, t) == Keys(grain, u)
  {
    if t != [] {
      KeysReadOnly(grain, t[..|t| - 1], u[..|u| - 1]);
    }
  }

  lemma {:induction false} GroupSumReadsOnly(grain: Grain, a: Agg, t: seq<Row>, u: seq<Row>, k: Key)
    requires |t| == |u|
    requires forall i :: 0 <= i < |t| ==> KeyOf(grain, t[i]) == KeyOf(grain, u[i]) && AggArg(a, t[i]) == AggArg(a, u[i])
    ensures EvalAgg(a, Group(grain, t, k)) == EvalAgg(a, Group(grain, u, k))
  {
    if t != [] {
      var n := |t| - 1;
      GroupSumReadsOnly(grain, a, t[..n], u[..n], k);
      assert t[..n] + [t[n]] == t && u[..n] + [u[n]] == u;
      GroupAppend(grain, t[..n], t[n], k, a);
      GroupAppend(grain, u[..n], u[n], k, a);
    }
  }

  /** One more row: its own group's SUM gains its value, every other group is unchanged. */
  lemma GroupAppend(grain: Grain, rows: seq<Row>, r: Row, k: Key, a: Agg)
    ensures EvalAgg(a, Group(grain, rows + [r], k))
         == if KeyOf(grain, r) == k then Plus(EvalAgg(a, Group(grain, rows, k)), AggArg(a, r))
            else EvalAgg(a, Group(grain, rows, k))
  {
    assert (rows + [r])[..|rows|] == rows;
    var g := Group(grain, rows, k);
    if KeyOf(grain, r) == k {
      assert Group(grain, rows + [r], k) == g + [r];
      assert (g + [r])[..|g|] == g;
      var f := (x: Row) => AggArg(a, x);
      assert Map(f, g + [r]) == Map(f, g) + [f(r)];
      assert (Map(f, g) + [f(r)])[..|g|] == Map(f, g);
    } else {
      assert Group(grain, rows + [r], k) == g + [] == g;
    }
  }

  lemma InnerReadsOnly(grain: Grain, aggs: seq<(Agg, string)>, windows: seq<(Window, string)>,
                       cols: set<string>, t: seq<Row>, u: seq<Row>)
    requires Reads(Grouped(grain, aggs, windows)) !! cols && SameExcept(cols, t, u)
    ensures Inner(grain, aggs, t) == Inner(grain, aggs, u)
  {
    GrainReadsOnly(grain, aggs, windows, cols, t, u);
    KeysReadOnly(grain, t, u);
    forall i | 0 <= i < |Keys(grain, t)|
      ensures InnerRow(grain, aggs, t, Keys(grain, t)[i]) == InnerRow(grain, aggs, u, Keys(grain, t)[i])
    {
      InnerRowReadsOnly(grain, aggs, windows, cols, t, u, Keys(grain, t)[i]);
    }
  }

  lemma GrainReadsOnly(grain: Grain, aggs: seq<(Agg, string)>, windows: seq<(Window, string)>,
                       cols: set<string>, t: seq<Row>, u: seq<Row>)
    requires Reads(Grouped(grain, aggs, windows)) !! cols && SameExcept(cols, t, u)
    ensures forall i :: 0 <= i < |t| ==> KeyOf(grain, t[i]) == KeyOf(grain, u[i])
  {
    var body := Grouped(grain, aggs, windows);
    forall i | 0 <= i < |t| ensures KeyOf(grain, t[i]) == KeyOf(grain, u[i]) {
      forall g | g in grain ensures Cell(t[i], g.0.column) == Cell(u[i], g.0.column) {
        assert g.0.column in Reads(body);
      }
      KeyReadsOnly(grain, t[i], u[i]);
    }
  }

  lemma InnerRowReadsOnly(grain: Grain, aggs: seq<(Agg, string)>, windows: seq<(Window, string)>,
                          cols: set<string>, t: seq<Row>, u: seq<Row>, k: Key)
    requires Reads(Grouped(grain, aggs, windows)) !! cols && SameExcept(cols, t, u)
    ensures InnerRow(grain, aggs, t, k) == InnerRow(grain, aggs, u, k)
  {
    GrainReadsOnly(grain, aggs, windows, cols, t, u);
    forall j | 0 <= j < |aggs|
      ensures EvalAgg(aggs[j].0, Group(grain, t, k)) == EvalAgg(aggs[j].0, Group(grain, u, k))
    {
      assert aggs[j] in aggs;
      AggArgReadsOnly(grain, aggs, windows, cols, t, u, aggs[j]);
      GroupSumReadsOnly(grain, aggs[j].0, t, u, k);
    }
    assert AggCells(aggs, Group(grain, t, k)) == AggCells(aggs, Group(grain, u, k));
  }

  lemma AggArgReadsOnly(grain: Grain, aggs: seq<(Agg, string)>, windows: seq<(Window, string)>,
                        cols: set<string>, t: seq<Row>, u: seq<Row>, a: (Agg, string))
    requires Reads(Grouped(grain, aggs, windows)) !! cols && SameExcept(cols, t, u) && a in aggs
    ensures forall i :: 0 <= i < |t| ==> AggArg(a.0, t[i]) == AggArg(a.0, u[i])
  {
    assert forall c :: c in AggReads(a.0) ==> c in Reads(Grouped(grain, aggs, windows));
    assert a.0.column in AggReads(a.0);
    assert a.0.membersOnly ==> CUSTOMER_TYPE in AggReads(a.0);
  }
}
