/** The category hierarchy: flat catalogue rows turned into a keyed forest of at most 4 levels. */
module CategoryTree {
  import opened Wrappers
  import opened Ordering
  import opened Seqs

  const CATEGORY_KEY_BASE := 1000
  const LEVELS := 4

  /** A catalogue record after cleaning: the OpCo and the four level columns, "" for a blank. */
  datatype CatalogueRow = CatalogueRow(opco: string, line: string, division: string, grp: string, category: string) {
    function Codes(): seq<string> { [line, division, grp, category] }
  }

  /** (opco, *path): what identifies a node. Its level is one less than its length. */
  type NodeId = id: seq<string> | id != [] witness [""]

  /** What a finished CategoryNode object holds. */
  datatype NodeView = NodeView(opco: string, level: int, code: string, name: string, path: seq<string>,
                               key: int, parentKey: Option<int>, isLeaf: bool,
                               ancestors: map<int, int>, ancestorNames: map<int, string>)

  // ------------------------------------------------------------------
  // Which nodes there are
  // ------------------------------------------------------------------

  /** How many leading codes are not blank: the level at which a branch bottoms out. */
  function Depth(codes: seq<string>): (d: nat)
    ensures d <= |codes|
    ensures forall i :: 0 <= i < d ==> codes[i] != ""
    ensures d < |codes| ==> codes[d] == ""
  {
    if codes == [] || codes[0] == "" then 0 else 1 + Depth(codes[1..])
  }

  /** id names a node on the path of row r. */
  ghost predicate OnPath(r: CatalogueRow, id: NodeId) {
    r.opco != "" && 2 <= |id| <= 1 + Depth(r.Codes()) && id == [r.opco] + r.Codes()[..|id| - 1]
  }

  /** id names a node of the catalogue. */
  ghost predicate Listed(rows: seq<CatalogueRow>, id: NodeId) {
    exists r :: r in rows && OnPath(r, id)
  }

  // ------------------------------------------------------------------
  // The sort order
  // ------------------------------------------------------------------

  /** sorted(..., key=(opco_code, level, path_codes)), as an order on node ids. */
  predicate IdLess(a: NodeId, b: NodeId) {
    StringLess(a[0], b[0])
    || (a[0] == b[0] && (|a| < |b| || (|a| == |b| && TupleLess(a[1..], b[1..]))))
  }

  lemma IdLessIrreflexive(a: NodeId)
    ensures !IdLess(a, a)
  {
    StringLessIrreflexive(a[0]);
    TupleLessIrreflexive(a[1..]);
  }

  lemma IdLessTransitive(a: NodeId, b: NodeId, c: NodeId)
    requires IdLess(a, b) && IdLess(b, c)
    ensures IdLess(a, c)
  {
    if StringLess(a[0], b[0]) && StringLess(b[0], c[0]) {
      StringLessTransitive(a[0], b[0], c[0]);
    }
    if |a| == |b| == |c| && TupleLess(a[1..], b[1..]) && TupleLess(b[1..], c[1..]) {
      TupleLessTransitive(a[1..], b[1..], c[1..]);
    }
  }

  /** No two nodes tie: the sort key tells every pair of distinct ids apart. */
  lemma IdLessTotal(a: NodeId, b: NodeId)
    ensures IdLess(a, b) || a == b || IdLess(b, a)
  {
    StringLessTotal(a[0], b[0]);
    TupleLessTotal(a[1..], b[1..]);
    assert a == [a[0]] + a[1..] && b == [b[0]] + b[1..];
  }

  ghost predicate Increasing(ids: seq<NodeId>) {
    forall i, j :: 0 <= i < j < |ids| ==> IdLess(ids[i], ids[j])
  }

  function Insert(x: NodeId, ids: seq<NodeId>): seq<NodeId> {
    if ids == [] || IdLess(x, ids[0]) then [x] + ids else [ids[0]] + Insert(x, ids[1..])
  }

  function Sort(ids: seq<NodeId>): seq<NodeId> {
    if ids == [] then [] else Insert(ids[0], Sort(ids[1..]))
  }

  lemma {:induction false} InsertElements(x: NodeId, ids: seq<NodeId>)
    ensures forall y :: y in Insert(x, ids) <==> y == x || y in ids
    ensures |Insert(x, ids)| == |ids| + 1
  {
    if ids != [] {
      assert ids == [ids[0]] + ids[1..];
      InsertElements(x, ids[1..]);
    }
  }

  lemma {:induction false} InsertSorts(x: NodeId, ids: seq<NodeId>)
    requires Increasing(ids) && x !in ids
    ensures Increasing(Insert(x, ids))
  {
    if ids != [] {
      IdLessTotal(x, ids[0]);
      if IdLess(x, ids[0]) {
        forall j | 1 <= j < |ids| ensures IdLess(x, ids[j]) {
          IdLessTransitive(x, ids[0], ids[j]);
        }
      } else {
        var rest := Insert(x, ids[1..]);
        InsertSorts(x, ids[1..]);
        InsertElements(x, ids[1..]);
        forall y | y in rest ensures IdLess(ids[0], y) {
        }
      }
    }
  }

  lemma {:induction false} SortSorts(ids: seq<NodeId>)
    requires Distinct(ids)
    ensures Increasing(Sort(ids))
    ensures |Sort(ids)| == |ids|
    ensures forall x :: x in Sort(ids) <==> x in ids
  {
    if ids != [] {
      assert ids == [ids[0]] + ids[1..];
      SortSorts(ids[1..]);
      InsertSorts(ids[0], Sort(ids[1..]));
      InsertElements(ids[0], Sort(ids[1..]));
    }
  }

  /** A set of ids has only one increasing listing. */
  lemma {:induction false} IncreasingIsUnique(a: seq<NodeId>, b: seq<NodeId>)
    requires Increasing(a) && Increasing(b)
    requires forall x :: x in a <==> x in b
    ensures a == b
  {
    if a == [] {
      assert forall i :: 0 <= i < |b| ==> b[i] in b;
    } else {
      assert a[0] in b && (b == [] || b[0] in a);
      if a[0] != b[0] {
        var i :| 0 <= i < |b| && b[i] == a[0];
        var j :| 0 <= j < |a| && a[j] == b[0];
        IdLessTransitive(a[0], b[0], a[0]);
        IdLessIrreflexive(a[0]);
      }
      assert a == [a[0]] + a[1..] && b == [b[0]] + b[1..];
      IdLessIrreflexive(a[0]);
      forall x ensures x in a[1..] <==> x in b[1..] {
        assert x in a <==> x in b;
        assert a[0] !in a[1..] && b[0] !in b[1..];
      }
      IncreasingIsUnique(a[1..], b[1..]);
      assert a == [a[0]] + a[1..] && b == [b[0]] + b[1..];
    }
  }

  // ------------------------------------------------------------------
  // What each node holds, given the ordered ids
  // ------------------------------------------------------------------

  ghost function IndexOf(ids: seq<NodeId>, id: NodeId): (i: nat)
    requires id in ids
    ensures i < |ids| && ids[i] == id
  {
    var i :| 0 <= i < |ids| && ids[i] == id; i
  }

  ghost function KeyOf(ids: seq<NodeId>, id: NodeId): int
    requires id in ids
  {
    CATEGORY_KEY_BASE + IndexOf(ids, id)
  }

  function Last(id: NodeId): string { id[|id| - 1] }

  /** The id of the level-d node above (or at) a node. */
  function Prefix(id: NodeId, d: int): NodeId
    requires 1 <= d < |id|
  {
    id[..d + 1]
  }

  ghost predicate ChildOf(c: NodeId, p: NodeId) { |c| > 2 && c[..|c| - 1] == p }

  ghost function ParentKey(ids: seq<NodeId>, id: NodeId): Option<int> {
    if |id| > 2 && id[..|id| - 1] in ids then Some(KeyOf(ids, id[..|id| - 1])) else None
  }

  ghost function Ancestors(ids: seq<NodeId>, id: NodeId, depth: int): map<int, int> {
    map d | 1 <= d <= depth && d < |id| && Prefix(id, d) in ids :: KeyOf(ids, Prefix(id, d))
  }

  ghost function AncestorNames(ids: seq<NodeId>, id: NodeId, depth: int): map<int, string> {
    map d | 1 <= d <= depth && d < |id| && Prefix(id, d) in ids :: Last(Prefix(id, d))
  }

  /** The node at position i of the ordered ids, read off the ids alone. */
  ghost function NodeAt(ids: seq<NodeId>, i: nat): NodeView
    requires i < |ids|
  {
    var id := ids[i];
    NodeView(id[0], |id| - 1, Last(id), Last(id), id[1..],
             CATEGORY_KEY_BASE + i,
             ParentKey(ids, id),
             !(exists c :: c in ids && ChildOf(c, id)),
             Ancestors(ids, id, |id| - 1),
             AncestorNames(ids, id, |id| - 1))
  }

  /** Strictly sorted, at most 4 levels deep, and closed under taking the parent path. */
  ghost predicate Forest(ids: seq<NodeId>) {
    && (forall i :: 0 <= i < |ids| ==> 2 <= |ids[i]| <= LEVELS + 1)
    && Increasing(ids)
    && (forall id :: id in ids && |id| > 2 ==> id[..|id| - 1] in ids)
  }

  // ------------------------------------------------------------------
  // The builder
  // ------------------------------------------------------------------

  class CategoryNode {
    const opco: string
    const level: int
    const code: string
    const name: string
    const path: seq<string>
    var key: int
    var parentKey: Option<int>
    var isLeaf: bool
    var ancestors: map<int, int>
    var ancestorNames: map<int, string>

    constructor (opco: string, level: int, code: string, path: seq<string>)
      ensures this.opco == opco && this.level == level && this.code == code && this.name == code
      ensures this.path == path
      ensures key == 0 && parentKey == None && isLeaf && ancestors == map[] && ancestorNames == map[]
    {
      this.opco, this.level, this.code, this.name, this.path := opco, level, code, code, path;
      key, parentKey, isLeaf, ancestors, ancestorNames := 0, None, true, map[], map[];
    }

    function PathId(): NodeId { [opco] + path }

    function View(): NodeView
      reads this
    {
      NodeView(opco, level, code, name, path, key, parentKey, isLeaf, ancestors, ancestorNames)
    }

    /** Created for this id and not otherwise touched, apart from the key. */
    ghost predicate For(id: NodeId) {
      PathId() == id && level == |id| - 1 && |id| > 1 && code == name == Last(id)
    }
  }

  /** The ids known after the first n levels of one row, in the order they were first seen. */
  ghost function Seen(order: seq<NodeId>, r: CatalogueRow, n: nat): seq<NodeId>
    requires n <= LEVELS
  {
    if n == 0 then order
    else
      var before := Seen(order, r, n - 1);
      var id := [r.opco] + r.Codes()[..n];
      if n <= Depth(r.Codes()) && id !in before then before + [id] else before
  }

  ghost function FirstSeen(rows: seq<CatalogueRow>): seq<NodeId> {
    if rows == [] then []
    else
      var before := FirstSeen(rows[..|rows| - 1]);
      var r := rows[|rows| - 1];
      if r.opco == "" then before else Seen(before, r, LEVELS)
  }

  lemma {:induction false} SeenIds(order: seq<NodeId>, r: CatalogueRow, n: nat)
    requires n <= LEVELS && r.opco != "" && Distinct(order)
    ensures Distinct(Seen(order, r, n))
    ensures forall id :: id in Seen(order, r, n) <==> id in order || (OnPath(r, id) && |id| <= n + 1)
    ensures Depth(r.Codes()) < n ==> Seen(order, r, n) == Seen(order, r, n - 1)
  {
    if n > 0 {
      SeenIds(order, r, n - 1);
      var id := [r.opco] + r.Codes()[..n];
      forall x | OnPath(r, x) && |x| == n + 1 ensures x == id && n <= Depth(r.Codes()) {
      }
      assert n <= Depth(r.Codes()) ==> OnPath(r, id);
    }
  }

  lemma {:induction false} FirstSeenListed(rows: seq<CatalogueRow>)
    ensures Distinct(FirstSeen(rows))
    ensures forall id :: id in FirstSeen(rows) <==> Listed(rows, id)
  {
    if rows != [] {
      var init, r := rows[..|rows| - 1], rows[|rows| - 1];
      FirstSeenListed(init);
      assert rows == init + [r];
      if r.opco != "" {
        SeenIds(FirstSeen(init), r, LEVELS);
      }
      forall id ensures Listed(rows, id) <==> Listed(init, id) || OnPath(r, id) {
        if Listed(rows, id) {
          var w :| w in rows && OnPath(w, id);
          assert w in init || w == r;
        }
        if OnPath(r, id) { assert r in rows; }
      }
    }
  }

  /** The first loop: one object per distinct path, in first-seen order. */
  method CollectNodes(rows: seq<CatalogueRow>)
    returns (nodes: map<NodeId, CategoryNode>, order: seq<NodeId>)
    ensures order == FirstSeen(rows) && (forall id :: id in nodes <==> id in order)
    ensures forall id :: id in nodes ==> fresh(nodes[id]) && Untouched(nodes[id], id)
  {
    nodes, order := map[], [];
    for i := 0 to |rows|
      invariant order == FirstSeen(rows[..i]) && (forall id :: id in nodes <==> id in order)
      invariant forall id :: id in nodes ==> fresh(nodes[id]) && Untouched(nodes[id], id)
    {
      assert rows[..i + 1][..i] == rows[..i];
      var r := rows[i];
      if r.opco == "" { continue; }
      FirstSeenListed(rows[..i]);
      ghost var start := order;
      var path: seq<string> := [];
      var n := 0;
      while n < LEVELS
        invariant 0 <= n <= LEVELS && n <= Depth(r.Codes()) && path == r.Codes()[..n]
        invariant order == Seen(start, r, n) && (forall id :: id in nodes <==> id in order)
        invariant forall id :: id in nodes ==> fresh(nodes[id]) && Untouched(nodes[id], id)
      {
        var value := r.Codes()[n];
        if value == "" { break; }
        path := path + [value];
        assert path == r.Codes()[..n + 1];
        var id := [r.opco] + path;
        if id !in nodes {
          var node := new CategoryNode(r.opco, n + 1, value, path);
          nodes, order := nodes[id := node], order + [id];
        }
        n := n + 1;
      }
      SeenStops(start, r, n);
    }
    assert rows[..|rows|] == rows;
  }

  ghost predicate Untouched(n: CategoryNode, id: NodeId)
    reads n
  {
    n.For(id) && n.key == 0 && n.parentKey == None && n.isLeaf
    && n.ancestors == map[] && n.ancestorNames == map[]
  }

  lemma {:induction false} SeenStops(order: seq<NodeId>, r: CatalogueRow, n: nat)
    requires n <= LEVELS && (n < LEVELS ==> Depth(r.Codes()) == n)
    ensures Seen(order, r, LEVELS) == Seen(order, r, n)
    decreases LEVELS - n
  {
    if n < LEVELS {
      var k := n + 1;
      assert Seen(order, r, k) == Seen(order, r, n);
      SeenTail(order, r, k);
    }
  }

  lemma {:induction false} SeenTail(order: seq<NodeId>, r: CatalogueRow, k: nat)
    requires Depth(r.Codes()) < k <= LEVELS
    ensures Seen(order, r, LEVELS) == Seen(order, r, k)
    decreases LEVELS - k
  {
    if k < LEVELS { SeenTail(order, r, k + 1); }
  }

  // The second and third loops, over the sorted nodes.

  /** byId holds, for every id, its own object; objects of different ids therefore differ. */
  ghost predicate Indexed(byId: map<NodeId, CategoryNode>, ids: seq<NodeId>) {
    (forall id :: id in byId <==> id in ids)
    && (forall id :: id in byId ==> byId[id].For(id))
  }

  ghost predicate Keyed(byId: map<NodeId, CategoryNode>, ids: seq<NodeId>)
    reads byId.Values
  {
    Indexed(byId, ids) && forall id :: id in byId ==> byId[id].key == KeyOf(ids, id)
  }

  ghost predicate Unlinked(n: CategoryNode)
    reads n
  {
    n.parentKey == None && n.ancestors == map[] && n.ancestorNames == map[]
  }

  /** The links of a node are final. */
  ghost predicate Linked(n: CategoryNode, ids: seq<NodeId>)
    reads n
  {
    var id := n.PathId();
    n.parentKey == ParentKey(ids, id)
    && n.ancestors == Ancestors(ids, id, |id| - 1)
    && n.ancestorNames == AncestorNames(ids, id, |id| - 1)
  }

  /** p has no child among the first n ids. */
  ghost predicate Childless(ids: seq<NodeId>, n: nat, p: NodeId)
    requires n <= |ids|
  {
    forall j :: 0 <= j < n ==> !ChildOf(ids[j], p)
  }

  lemma AncestorsStep(ids: seq<NodeId>, id: NodeId, d: int)
    requires 1 <= d < |id|
    ensures Ancestors(ids, id, d) ==
            if Prefix(id, d) in ids then Ancestors(ids, id, d - 1)[d := KeyOf(ids, Prefix(id, d))]
            else Ancestors(ids, id, d - 1)
    ensures AncestorNames(ids, id, d) ==
            if Prefix(id, d) in ids then AncestorNames(ids, id, d - 1)[d := Last(Prefix(id, d))]
            else AncestorNames(ids, id, d - 1)
  {
  }

  lemma PositionOf(ids: seq<NodeId>, i: nat)
    requires Distinct(ids) && i < |ids|
    ensures IndexOf(ids, ids[i]) == i
  {
  }

  method AssignKeys(ordered: seq<CategoryNode>, byId: map<NodeId, CategoryNode>, ids: seq<NodeId>)
    requires |ordered| == |ids| && Distinct(ids) && Indexed(byId, ids)
    requires forall i :: 0 <= i < |ids| ==> ordered[i] == byId[ids[i]]
    modifies byId.Values
    ensures Keyed(byId, ids)
    ensures forall id :: id in byId ==>
              byId[id].isLeaf == old(byId[id].isLeaf) && (old(Unlinked(byId[id])) ==> Unlinked(byId[id]))
  {
    for i := 0 to |ordered|
      invariant forall j :: 0 <= j < i ==> byId[ids[j]].key == CATEGORY_KEY_BASE + j
      invariant forall id :: id in byId ==>
        byId[id].isLeaf == old(byId[id].isLeaf) && (old(Unlinked(byId[id])) ==> Unlinked(byId[id]))
    {
      ordered[i].key := CATEGORY_KEY_BASE + i;
    }
    forall id | id in byId ensures byId[id].key == KeyOf(ids, id) {
      assert ids[IndexOf(ids, id)] == id;
    }
  }

  /** The ancestor chain of one node, itself included. */
  method LinkAncestors(node: CategoryNode, byId: map<NodeId, CategoryNode>, ids: seq<NodeId>)
    requires Keyed(byId, ids) && node.level == |node.PathId()| - 1
    requires node.ancestors == map[] && node.ancestorNames == map[]
    modifies node`ancestors, node`ancestorNames
    ensures node.ancestors == Ancestors(ids, node.PathId(), node.level)
    ensures node.ancestorNames == AncestorNames(ids, node.PathId(), node.level)
  {
    var id := node.PathId();
    var depth := 1;
    while depth <= node.level
      invariant 1 <= depth <= node.level + 1
      invariant node.ancestors == Ancestors(ids, id, depth - 1)
      invariant node.ancestorNames == AncestorNames(ids, id, depth - 1)
    {
      AncestorsStep(ids, id, depth);
      var up := Prefix(id, depth);
      if up in byId {
        node.ancestors := node.ancestors[depth := byId[up].key];
        node.ancestorNames := node.ancestorNames[depth := byId[up].name];
      }
      depth := depth + 1;
    }
  }

  /** One round of the linking loop: settles this node and marks its parent. */
  method LinkOne(node: CategoryNode, byId: map<NodeId, CategoryNode>, ids: seq<NodeId>)
    requires Keyed(byId, ids) && Unlinked(node) && node.PathId() in byId && byId[node.PathId()] == node
    modifies byId.Values
    ensures Keyed(byId, ids) && Linked(node, ids)
    ensures forall id :: id in byId && id != node.PathId() ==>
              (old(Unlinked(byId[id])) ==> Unlinked(byId[id]))
              && (old(Linked(byId[id], ids)) ==> Linked(byId[id], ids))
    ensures forall id :: id in byId ==>
              byId[id].isLeaf == (old(byId[id].isLeaf) && !ChildOf(node.PathId(), id))
  {
    MarkParent(node, byId, ids);
    LinkAncestors(node, byId, ids);
  }

  method LinkNodes(ordered: seq<CategoryNode>, byId: map<NodeId, CategoryNode>, ids: seq<NodeId>)
    requires |ordered| == |ids| && Distinct(ids) && Keyed(byId, ids)
    requires forall i :: 0 <= i < |ids| ==> ordered[i] == byId[ids[i]]
    requires forall id :: id in byId ==> Unlinked(byId[id]) && byId[id].isLeaf
    modifies byId.Values
    ensures Keyed(byId, ids)
    ensures forall id :: id in byId ==>
              Linked(byId[id], ids) && byId[id].isLeaf == Childless(ids, |ids|, id)
  {
    for i := 0 to |ordered|
      invariant Keyed(byId, ids)
      invariant forall id :: id in byId ==> byId[id].isLeaf == Childless(ids, i, id)
      invariant forall id :: id in byId ==> if IndexOf(ids, id) < i then Linked(byId[id], ids) else Unlinked(byId[id])
    {
      PositionOf(ids, i);
      ChildlessStep(ids, i);
      LinkOne(ordered[i], byId, ids);
      forall id | id in byId
        ensures if IndexOf(ids, id) < i + 1 then Linked(byId[id], ids) else Unlinked(byId[id])
      {
        if id == ids[i] {
          assert Linked(byId[id], ids);
        } else {
          assert IndexOf(ids, id) != i;
        }
      }
    }
  }

  lemma ChildlessStep(ids: seq<NodeId>, i: nat)
    requires i < |ids|
    ensures forall p: NodeId :: Childless(ids, i + 1, p) <==> Childless(ids, i, p) && !ChildOf(ids[i], p)
  {
  }

  /** Record the parent's key on the node, and on the parent that it is no leaf. */
  method MarkParent(node: CategoryNode, byId: map<NodeId, CategoryNode>, ids: seq<NodeId>)
    requires Keyed(byId, ids) && node.level == |node.PathId()| - 1 && node.parentKey == None
    modifies node`parentKey, byId.Values`isLeaf
    ensures node.parentKey == ParentKey(ids, node.PathId())
    ensures forall id :: id in byId ==>
              byId[id].isLeaf == (old(byId[id].isLeaf) && !ChildOf(node.PathId(), id))
  {
    var id := node.PathId();
    if node.level > 1 && id[..|id| - 1] in byId {
      var parent := byId[id[..|id| - 1]];
      node.parentKey := Some(parent.key);
      parent.isLeaf := false;
    }
  }

  /** build_category_nodes: the nodes it returns are those NodeAt reads off the sorted ids. */
  method BuildCategoryNodes(rows: seq<CatalogueRow>) returns (ordered: seq<CategoryNode>)
    ensures fresh(ordered) && |ordered| == |Sort(FirstSeen(rows))|
    ensures forall i :: 0 <= i < |ordered| ==>
              ordered[i].View() == NodeAt(Sort(FirstSeen(rows)), i)
  {
    var nodes, order := CollectNodes(rows);
    FirstSeenListed(rows);
    SortSorts(order);
    var ids := Sort(order);
    IncreasingDistinct(ids);
    ordered := seq(|ids|, i requires 0 <= i < |ids| => nodes[ids[i]]);
    AssignKeys(ordered, nodes, ids);
    LinkNodes(ordered, nodes, ids);
    forall i | 0 <= i < |ids| ensures ordered[i].View() == NodeAt(ids, i) {
      PositionOf(ids, i);
      ChildlessMeaning(ids, ids[i]);
      ViewOf(ordered[i], ids, i);
    }
  }

  lemma ViewOf(n: CategoryNode, ids: seq<NodeId>, i: nat)
    requires i < |ids| && n.For(ids[i]) && Linked(n, ids) && n.key == CATEGORY_KEY_BASE + i
    requires n.isLeaf <==> !(exists c :: c in ids && ChildOf(c, ids[i]))
    ensures n.View() == NodeAt(ids, i)
  {
    assert n.path == ids[i][1..];
  }

  lemma IncreasingDistinct(ids: seq<NodeId>)
    requires Increasing(ids)
    ensures Distinct(ids)
  {
    forall i, j | 0 <= i < j < |ids| ensures ids[i] != ids[j] {
      IdLessIrreflexive(ids[i]);
    }
  }

  lemma ChildlessMeaning(ids: seq<NodeId>, p: NodeId)
    ensures Childless(ids, |ids|, p) <==> !(exists c :: c in ids && ChildOf(c, p))
  {
  }

  // ------------------------------------------------------------------
  // What the catalogue means
  // ------------------------------------------------------------------

  /** The sorted ids of a catalogue form a forest of at most four levels. */
  lemma CatalogueIsForest(rows: seq<CatalogueRow>)
    ensures Forest(Sort(FirstSeen(rows)))
  {
    var ids := Sort(FirstSeen(rows));
    assert Increasing(ids) && forall id :: id in ids <==> Listed(rows, id) by {
      FirstSeenListed(rows);
      SortSorts(FirstSeen(rows));
    }
    forall i | 0 <= i < |ids| ensures 2 <= |ids[i]| <= LEVELS + 1 {
      assert ids[i] in ids;
      ListedPrefix(rows, ids[i]);
    }
    forall id | id in ids && |id| > 2 ensures id[..|id| - 1] in ids {
      ListedPrefix(rows, id);
    }
  }

  lemma ListedPrefix(rows: seq<CatalogueRow>, id: NodeId)
    requires Listed(rows, id)
    ensures 2 <= |id| <= LEVELS + 1
    ensures |id| > 2 ==> Listed(rows, id[..|id| - 1])
  {
    var r :| r in rows && OnPath(r, id);
    if |id| > 2 {
      var up := id[..|id| - 1];
      assert up == [r.opco] + r.Codes()[..|up| - 1];
      assert OnPath(r, up);
    }
  }

  /** The record fills its level columns down to this one, and they are the path. */
  predicate Fills(r: CatalogueRow, path: seq<string>) {
    || (path == [r.line] && r.line != "")
    || (path == [r.line, r.division] && r.line != "" && r.division != "")
    || (path == [r.line, r.division, r.grp] && r.line != "" && r.division != "" && r.grp != "")
    || (path == [r.line, r.division, r.grp, r.category]
        && r.line != "" && r.division != "" && r.grp != "" && r.category != "")
  }

  lemma DepthOf(r: CatalogueRow)
    ensures var c := r.Codes();
            Depth(c) == if c[0] == "" then 0 else if c[1] == "" then 1 else if c[2] == "" then 2
                        else if c[3] == "" then 3 else 4
  {
    var c := r.Codes();
    assert c[1..] == [c[1], c[2], c[3]] && c[1..][1..] == [c[2], c[3]] && c[1..][1..][1..] == [c[3]];
  }

  lemma OnPathIff(r: CatalogueRow, id: NodeId)
    ensures OnPath(r, id) <==> id[0] == r.opco != "" && Fills(r, id[1..])
  {
    var c, path := r.Codes(), id[1..];
    DepthOf(r);
    assert id == [id[0]] + path;
    assert c[..1] == [r.line] && c[..2] == [r.line, r.division] && c[..3] == [r.line, r.division, r.grp];
    assert c[..4] == [r.line, r.division, r.grp, r.category];
    if OnPath(r, id) { assert path == c[..|id| - 1]; }
  }

  /** The nodes are one for each OpCo and run of filled level columns of some record, and no others. */
  lemma NodesAreFilledPaths(rows: seq<CatalogueRow>, id: NodeId)
    ensures id in Sort(FirstSeen(rows)) <==> exists r :: r in rows && id[0] == r.opco != "" && Fills(r, id[1..])
  {
    FirstSeenListed(rows);
    SortSorts(FirstSeen(rows));
    forall r | r in rows ensures OnPath(r, id) <==> id[0] == r.opco != "" && Fills(r, id[1..]) { OnPathIff(r, id); }
  }

  /** a comes before b: by OpCo, then by level, then by the first path code in which they differ. */
  ghost predicate Filed(a: NodeView, b: NodeView) {
    || Earlier(a.opco, b.opco)
    || (a.opco == b.opco && a.level < b.level)
    || (a.opco == b.opco && a.level == b.level
        && exists k :: 0 <= k < |a.path| && k < |b.path| && a.path[..k] == b.path[..k] && Earlier(a.path[k], b.path[k]))
  }

  lemma IdLessIffFiled(a: NodeId, b: NodeId, x: NodeView, y: NodeView)
    requires x.opco == a[0] && x.level == |a| - 1 && x.path == a[1..]
    requires y.opco == b[0] && y.level == |b| - 1 && y.path == b[1..]
    ensures IdLess(a, b) <==> Filed(x, y)
  {
    StringLessIffEarlier(a[0], b[0]);
    if |a| == |b| {
      TupleLessIffEarlier(a[1..], b[1..]);
      if k: nat :| TupleEarlierAt(a[1..], b[1..], k) { assert Earlier(x.path[k], y.path[k]); }
      if k :| 0 <= k < |x.path| && k < |y.path| && x.path[..k] == y.path[..k] && Earlier(x.path[k], y.path[k]) {
        assert TupleEarlierAt(a[1..], b[1..], k);
      }
    }
  }

  /** Keys count up from 1000 in that order. */
  lemma KeysFollowTheOrder(ids: seq<NodeId>, i: nat, j: nat)
    requires Forest(ids) && i < |ids| && j < |ids|
    ensures NodeAt(ids, i).key == 1000 + i
    ensures NodeAt(ids, i).key < NodeAt(ids, j).key <==> Filed(NodeAt(ids, i), NodeAt(ids, j))
  {
    IdLessIffFiled(ids[i], ids[j], NodeAt(ids, i), NodeAt(ids, j));
    IdLessIrreflexive(ids[i]);
    if j < i && IdLess(ids[i], ids[j]) { IdLessTransitive(ids[i], ids[j], ids[i]); }
  }

  /** Keys, parents, leaves and ancestors do not depend on the order or repetition of the rows. */
  lemma KeysAreDeterministic(rows: seq<CatalogueRow>, rows': seq<CatalogueRow>)
    requires forall r :: r in rows <==> r in rows'
    ensures Sort(FirstSeen(rows)) == Sort(FirstSeen(rows'))
  {
    FirstSeenListed(rows);
    FirstSeenListed(rows');
    SortSorts(FirstSeen(rows));
    SortSorts(FirstSeen(rows'));
    forall id ensures Listed(rows, id) <==> Listed(rows', id) {
    }
    IncreasingIsUnique(Sort(FirstSeen(rows)), Sort(FirstSeen(rows')));
  }

  lemma PositionIsUnique(ids: seq<NodeId>, i: nat, j: nat)
    requires Forest(ids) && i < |ids| && j < |ids| && ids[i] == ids[j]
    ensures i == j
  {
    IdLessIrreflexive(ids[i]);
  }

  /** Where a node's parent stands among the sorted ids. */
  ghost function ParentPosition(ids: seq<NodeId>, i: nat): (p: nat)
    requires Forest(ids) && i < |ids| && |ids[i]| > 2
    ensures p < i && ids[p] == ids[i][..|ids[i]| - 1]
  {
    var p := IndexOf(ids, ids[i][..|ids[i]| - 1]);
    assert p < i by {
      assert IdLess(ids[p], ids[i]);
      if i <= p {
        if i < p { IdLessTransitive(ids[p], ids[i], ids[p]); }
        IdLessIrreflexive(ids[p]);
      }
    }
    p
  }

  /** Below level 1 the parent exists, one level up, with a strictly smaller key; level 1 has none. */
  lemma ParentsPrecede(ids: seq<NodeId>, i: nat)
    requires Forest(ids) && i < |ids|
    ensures NodeAt(ids, i).parentKey.None? <==> NodeAt(ids, i).level == 1
    ensures NodeAt(ids, i).level > 1 ==>
              var p := ParentPosition(ids, i);
              && NodeAt(ids, i).parentKey == Some(NodeAt(ids, p).key)
              && NodeAt(ids, p).key < NodeAt(ids, i).key
              && NodeAt(ids, p).level == NodeAt(ids, i).level - 1
              && NodeAt(ids, p).opco == NodeAt(ids, i).opco
  {
    if |ids[i]| > 2 {
      PositionIsUnique(ids, ParentPosition(ids, i), IndexOf(ids, ids[i][..|ids[i]| - 1]));
    }
  }

  /** x is a, or some chain of parent keys leads from x to a. */
  ghost predicate Under(ids: seq<NodeId>, x: nat, a: nat)
    requires Forest(ids) && x < |ids| && a < |ids|
    decreases x
  {
    x == a
    || exists p :: 0 <= p < x && NodeAt(ids, x).parentKey == Some(NodeAt(ids, p).key) && Under(ids, p, a)
  }

  ghost predicate Starts(x: NodeId, a: NodeId) { |a| <= |x| && x[..|a|] == a }

  lemma UnderStep(ids: seq<NodeId>, x: nat, a: nat)
    requires Forest(ids) && x < |ids| && a < |ids|
    ensures Under(ids, x, a) <==>
            x == a || (|ids[x]| > 2 && Under(ids, ParentPosition(ids, x), a))
  {
    ParentsPrecede(ids, x);
  }

  lemma {:induction false} UnderIffStarts(ids: seq<NodeId>, x: nat, a: nat)
    requires Forest(ids) && x < |ids| && a < |ids|
    ensures Under(ids, x, a) <==> Starts(ids[x], ids[a])
    decreases x
  {
    UnderStep(ids, x, a);
    if |ids[a]| == |ids[x]| && Starts(ids[x], ids[a]) {
      assert ids[x] == ids[a];
      PositionIsUnique(ids, x, a);
    }
    if |ids[x]| > 2 {
      var p := ParentPosition(ids, x);
      UnderIffStarts(ids, p, a);
      if |ids[a]| <= |ids[p]| {
        assert ids[x][..|ids[a]|] == ids[p][..|ids[a]|];
      }
    }
  }

  /** x's ancestor key at a's level is a's key exactly when a's path starts x's path. */
  lemma AncestorKeyIsPrefix(ids: seq<NodeId>, x: nat, a: nat)
    requires Forest(ids) && x < |ids| && a < |ids|
    ensures var nx, na := NodeAt(ids, x), NodeAt(ids, a);
            (na.level in nx.ancestors && nx.ancestors[na.level] == na.key) <==> Starts(ids[x], ids[a])
  {
    if |ids[a]| <= |ids[x]| && ids[x][..|ids[a]|] in ids {
      assert Prefix(ids[x], |ids[a]| - 1) == ids[x][..|ids[a]|];
      var k := IndexOf(ids, ids[x][..|ids[a]|]);
      if ids[k] == ids[a] { PositionIsUnique(ids, k, a); }
    }
  }

  /** The denormalised ancestor index answers exactly the question the parent chain answers. */
  lemma IndexEqualsTree(ids: seq<NodeId>, x: nat, a: nat)
    requires Forest(ids) && x < |ids| && a < |ids|
    ensures var nx, na := NodeAt(ids, x), NodeAt(ids, a);
            Under(ids, x, a) <==> na.level in nx.ancestors && nx.ancestors[na.level] == na.key
  {
    AncestorKeyIsPrefix(ids, x, a);
    UnderIffStarts(ids, x, a);
  }

  /** A node is a leaf exactly when no node names it as parent. */
  lemma LeafIffNoChild(ids: seq<NodeId>, i: nat)
    requires Forest(ids) && i < |ids|
    ensures NodeAt(ids, i).isLeaf
            <==> forall j :: 0 <= j < |ids| ==> NodeAt(ids, j).parentKey != Some(NodeAt(ids, i).key)
  {
    forall j | 0 <= j < |ids|
      ensures NodeAt(ids, j).parentKey == Some(NodeAt(ids, i).key) <==> ChildOf(ids[j], ids[i])
    {
      ParentsPrecede(ids, j);
      if |ids[j]| > 2 {
        var p := ParentPosition(ids, j);
        if ids[p] == ids[i] { PositionIsUnique(ids, p, i); }
      }
    }
    if !NodeAt(ids, i).isLeaf {
      var c :| c in ids && ChildOf(c, ids[i]);
      assert ids[IndexOf(ids, c)] == c;
    }
  }

  /** ck_dim_product_category_levels and the NOT NULL on l1: level keys exist to the node's level only. */
  lemma LevelKeysMatchLevel(ids: seq<NodeId>, i: nat, d: int)
    requires Forest(ids) && i < |ids| && 1 <= d <= LEVELS
    ensures var n := NodeAt(ids, i);
            && 1 <= n.level <= LEVELS
            && (d <= n.level <==> d in n.ancestors)
            && n.level in n.ancestors && n.level in n.ancestorNames
            && (d in n.ancestors <==> d in n.ancestorNames)
            && n.ancestors[n.level] == n.key && n.ancestorNames[n.level] == n.name
  {
    PrefixListed(ids, ids[i], |ids[i]| - 1);
    if d <= |ids[i]| - 1 { PrefixListed(ids, ids[i], d); }
    assert Prefix(ids[i], |ids[i]| - 1) == ids[i];
    PositionIsUnique(ids, i, IndexOf(ids, ids[i]));
  }

  lemma {:induction false} PrefixListed(ids: seq<NodeId>, id: NodeId, d: nat)
    requires Forest(ids) && id in ids && 1 <= d < |id|
    ensures Prefix(id, d) in ids
    decreases |id|
  {
    if d == |id| - 1 {
      assert Prefix(id, d) == id;
    } else {
      var up := id[..|id| - 1];
      PrefixListed(ids, up, d);
      assert Prefix(up, d) == Prefix(id, d);
    }
  }

  /** uq_dim_prodcat_sibling_code: (opco, level, parent or 0, code) tells nodes apart. */
  lemma SiblingCodesAreUnique(ids: seq<NodeId>, i: nat, j: nat)
    requires Forest(ids) && i < |ids| && j < |ids|
    requires NodeAt(ids, i).opco == NodeAt(ids, j).opco
    requires NodeAt(ids, i).parentKey == NodeAt(ids, j).parentKey
    requires NodeAt(ids, i).code == NodeAt(ids, j).code
    ensures i == j
  {
    ParentPath(ids, i);
    ParentPath(ids, j);
    SameUpAndCode(ids[i], ids[j]);
    PositionIsUnique(ids, i, j);
  }

  /** The parent key (or, at level 1, the OpCo) determines the path above a node. */
  lemma ParentPath(ids: seq<NodeId>, i: nat)
    requires Forest(ids) && i < |ids|
    ensures var n := NodeAt(ids, i);
            if n.parentKey.None? then ids[i][..|ids[i]| - 1] == [n.opco]
            else 0 <= n.parentKey.value - CATEGORY_KEY_BASE < |ids|
                 && ids[i][..|ids[i]| - 1] == ids[n.parentKey.value - CATEGORY_KEY_BASE]
  {
    ParentsPrecede(ids, i);
    if |ids[i]| == 2 { assert ids[i][..1] == [ids[i][0]]; }
  }

  lemma SameUpAndCode(a: NodeId, b: NodeId)
    requires |a| >= 2 && |b| >= 2 && a[..|a| - 1] == b[..|b| - 1] && Last(a) == Last(b)
    ensures a == b
  {
    assert a == a[..|a| - 1] + [Last(a)] && b == b[..|b| - 1] + [Last(b)];
  }
}
