/** The monthly partition window of the fact tables. */
module Partitions {
  import opened Wrappers
  import opened Calendar

  function Abs(n: int): nat { if n < 0 then -n else n }

  /** n consecutive month starts, the first one with index `first`. */
  function MonthsFrom(first: int, n: nat): (r: seq<Date>)
    requires 12 <= first && first + n <= 120000
    ensures |r| == n
    ensures forall i :: 0 <= i < n ==> r[i] == FirstOf(first + i).value
  {
    seq(n, i requires 0 <= i < n => FirstOf(first + i).value)
  }

  /** The window the settings ask for, anchored at a date: its first index and its length. */
  function WindowStart(anchor: Date, back: int): int { MonthIndex(anchor) - Abs(back) }
  function WindowLength(back: int, forward: int): nat { Abs(back) + Abs(forward) + 1 }

  /** Every month of the window, and the month after it, is a date Python can build. */
  predicate WindowFits(anchor: Date, back: int, forward: int) {
    12 <= WindowStart(anchor, back)
    && WindowStart(anchor, back) + WindowLength(back, forward) < 120000
  }

  /** partition_months: None exactly when some add_months call raises. */
  method PartitionMonths(anchor: Date, back: int, forward: int) returns (out: Option<seq<Date>>)
    requires Valid(anchor)
    ensures out.Some? <==> WindowFits(anchor, back, forward)
    ensures out.Some? ==>
              out.value == MonthsFrom(WindowStart(anchor, back), WindowLength(back, forward))
  {
    var start := AddMonths(MonthFloor(anchor), 0 - Abs(back));
    var end := AddMonths(MonthFloor(anchor), Abs(forward));
    if start.None? || end.None? { return None; }
    var months: seq<Date> := [];
    var cursor := start.value;
    while AtMost(cursor, end.value)
      invariant Valid(cursor) && cursor.day == 1
      invariant 12 <= WindowStart(anchor, back)
      invariant MonthIndex(cursor) == WindowStart(anchor, back) + |months|
      invariant |months| <= WindowLength(back, forward)
      invariant months == MonthsFrom(WindowStart(anchor, back), |months|)
      decreases WindowLength(back, forward) - |months|
    {
      MonthIndexInjective(cursor, end.value);
      MonthIndexInjective(end.value, cursor);
      MonthIndexInjective(cursor, FirstOf(MonthIndex(cursor)).value);
      months := months + [cursor];
      var next := AddMonths(cursor, 1);
      if next.None? { return None; }
      cursor := next.value;
    }
    MonthIndexInjective(cursor, end.value);
    out := Some(months);
  }

  /** A partitioned table: child partitions by name, each with its FROM / TO bounds. */
  class PartitionedTable {
    var children: map<int, (Date, Date)>
    var hasDefault: bool

    /** Every child was attached by a monthly run: it is named after the month it spans. */
    ghost predicate Monthly()
      reads this
    {
      forall k :: k in children ==>
        12 <= k < 119999 && children[k] == (FirstOf(k).value, FirstOf(k + 1).value)
    }

    constructor ()
      ensures children == map[] && !hasDefault
    {
      children, hasDefault := map[], false;
    }

    /** CREATE TABLE IF NOT EXISTS t_pYYYYMM PARTITION OF t FOR VALUES FROM .. TO .. */
    method Attach(start: Date, end: Date)
      modifies this
      ensures hasDefault == old(hasDefault)
      ensures children == if MonthIndex(start) in old(children) then old(children)
                          else old(children)[MonthIndex(start) := (start, end)]
    {
      if MonthIndex(start) !in children {
        children := children[MonthIndex(start) := (start, end)];
      }
    }

    method AttachMonth(start: Date, end: Date)
      requires Monthly() && 12 <= MonthIndex(start) < 119999
      requires start == FirstOf(MonthIndex(start)).value && end == FirstOf(MonthIndex(start) + 1).value
      modifies this
      ensures Monthly() && hasDefault == old(hasDefault)
      ensures children.Keys == old(children.Keys) + {MonthIndex(start)}
    {
      Attach(start, end);
    }

    /** create_monthly_partitions, including a replay over a table that already has children. */
    method CreateMonthlyPartitions(anchor: Date, back: int, forward: int)
      returns (created: Option<nat>)
      requires Valid(anchor) && Monthly()
      modifies this
      ensures created.Some? <==> WindowFits(anchor, back, forward)
      ensures created.None? ==> children == old(children) && hasDefault == old(hasDefault)
      ensures created.Some? ==>
                && created.value == WindowLength(back, forward)
                && Monthly() && hasDefault
                && children.Keys == old(children.Keys) + WindowIndices(anchor, back, forward)
    {
      var months := PartitionMonths(anchor, back, forward);
      if months.None? { return None; }
      AttachAll(months.value, WindowStart(anchor, back));
      hasDefault := true;
      created := Some(|months.value|);
    }

    method AttachAll(months: seq<Date>, first: int)
      requires Monthly() && 12 <= first && first + |months| < 120000 && months == MonthsFrom(first, |months|)
      modifies this
      ensures Monthly() && hasDefault == old(hasDefault)
      ensures children.Keys == old(children.Keys) + Indices(first, |months|)
    {
      var i := 0;
      while i < |months|
        invariant 0 <= i <= |months|
        invariant Monthly() && hasDefault == old(hasDefault)
        invariant children.Keys == old(children.Keys) + Indices(first, i)
      {
        var start := months[i];
        assert start == FirstOf(first + i).value;
        AttachMonth(start, AddMonths(start, 1).value);
        i := i + 1;
      }
    }
  }

  /** The n indices that start at first. */
  ghost function Indices(first: int, n: nat): (r: set<int>)
    ensures forall k :: k in r <==> first <= k < first + n
  {
    if n == 0 then {} else Indices(first, n - 1) + {first + n - 1}
  }

  /** The month indices of the window. */
  ghost function WindowIndices(anchor: Date, back: int, forward: int): set<int> {
    Indices(WindowStart(anchor, back), WindowLength(back, forward))
  }

  /** The children whose half-open bounds contain a date: where PostgreSQL may route it. */
  ghost function Routes(children: map<int, (Date, Date)>, d: Date): set<int> {
    set k | k in children && AtMost(children[k].0, d) && Before(d, children[k].1)
  }

  /** After any replays, a date of a created month has exactly that month's child; any other goes to DEFAULT. */
  lemma PartitionCover(t: PartitionedTable, d: Date)
    requires t.Monthly() && Valid(d)
    ensures Routes(t.children, d) == if MonthIndex(d) in t.children then {MonthIndex(d)} else {}
  {
    forall k | k in t.children
      ensures AtMost(t.children[k].0, d) && Before(d, t.children[k].1) <==> k == MonthIndex(d)
    {
      MonthRangeIsMonth(FirstOf(k).value, d);
    }
  }
}
