/** The metric registry: which metric a phrase means for a caller, and what was withheld from them. */
module MetricRegistry {
  import opened Wrappers
  import opened Seqs
  import opened Ordering
  import opened TextUtils

  datatype Metric = Metric(key: string, name: string, metricClass: string, minRole: string, synonyms: seq<string>) {
    predicate NeedsMoney() { metricClass == "money" || metricClass == "ratio_money" }
    function Names(): seq<string> { [name] + synonyms }
  }

  // ------------------------------------------------------------------
  // What a list of rows means, whatever their order
  // ------------------------------------------------------------------

  /** The (normalised synonym, key) pairs that the first n names of a metric claim. */
  function ClaimsUpTo(m: Metric, n: nat): set<(string, string)>
    requires n <= |m.Names()|
  {
    set j | 0 <= j < n && Normalize(m.Names()[j]) != "" :: (Normalize(m.Names()[j]), m.key)
  }

  function MetricClaims(m: Metric): set<(string, string)> { ClaimsUpTo(m, |m.Names()|) }

  function Claims(rows: seq<Metric>): set<(string, string)> {
    if rows == [] then {} else Claims(rows[..|rows| - 1]) + MetricClaims(rows[|rows| - 1])
  }

  /** The entries the first n names of a metric add under a synonym. */
  function ListUpTo(m: Metric, n: nat, s: string): seq<string>
    requires n <= |m.Names()|
  {
    if n == 0 then []
    else ListUpTo(m, n - 1, s) + if s != "" && Normalize(m.Names()[n - 1]) == s then [m.key] else []
  }

  function MetricList(m: Metric, s: string): seq<string> { ListUpTo(m, |m.Names()|, s) }

  /** The keys that claim a synonym, in registry order. */
  function ClaimList(rows: seq<Metric>, s: string): seq<string> {
    if rows == [] then [] else ClaimList(rows[..|rows| - 1], s) + MetricList(rows[|rows| - 1], s)
  }

  /** Later rows replace earlier ones of the same key. */
  function Table(rows: seq<Metric>): map<string, Metric> {
    if rows == [] then map[]
    else var m := rows[|rows| - 1]; Table(rows[..|rows| - 1])[m.key := m]
  }

  function Allowed(table: map<string, Metric>, seesMoney: bool): set<string> {
    set k | k in table && (seesMoney || table[k].minRole != "HOD")
  }

  ghost predicate Exact(claims: set<(string, string)>, allowed: set<string>, norm: string, k: string) {
    k in allowed && (norm, k) in claims
  }

  /** An allowed key claims synonym s, which occurs in the phrase. */
  ghost predicate Hit(claims: set<(string, string)>, allowed: set<string>, norm: string, s: string, k: string) {
    k in allowed && (s, k) in claims && Contains(norm, s)
  }

  /** s is among the longest synonyms hit. */
  ghost predicate LongestHit(claims: set<(string, string)>, allowed: set<string>, norm: string, s: string, k: string) {
    && Hit(claims, allowed, norm, s, k)
    && forall t, j :: Hit(claims, allowed, norm, t, j) ==> |t| <= |s|
  }

  /** The keys that tie for a phrase: its exact claimants, else the claimants of a longest contained synonym. */
  ghost function Tied(claims: set<(string, string)>, allowed: set<string>, norm: string): set<string> {
    if exists k :: Exact(claims, allowed, norm, k)
    then set k | k in allowed && Exact(claims, allowed, norm, k)
    else set k | k in allowed && exists s :: LongestHit(claims, allowed, norm, s, k)
  }

  function MoneyKeys(table: map<string, Metric>, keys: set<string>): set<string> {
    set k | k in keys && k in table && table[k].NeedsMoney()
  }

  /** The tie-break: the least money key when money is preferred and there is one, else the least key. */
  ghost predicate Preferred(table: map<string, Metric>, keys: set<string>, preferMoney: bool, k: string) {
    IsLeast(k, if preferMoney && MoneyKeys(table, keys) != {} then MoneyKeys(table, keys) else keys)
  }

  ghost predicate Matched(table: map<string, Metric>, claims: set<(string, string)>, allowed: set<string>,
                          norm: string, preferMoney: bool, r: Option<string>)
  {
    var tied := Tied(claims, allowed, norm);
    if tied == {} then r == None else r.Some? && Preferred(table, tied, preferMoney, r.value)
  }

  /** A key looked up in the registry; Python's empty key counts as no key. */
  function Lookup(table: map<string, Metric>, key: Option<string>): Option<Metric> {
    if key.Some? && key.value != "" && key.value in table then Some(table[key.value]) else None
  }

  ghost predicate Resolved(rows: seq<Metric>, phrase: string, seesMoney: bool, r: Option<Metric>) {
    var allowed := Allowed(Table(rows), seesMoney);
    if Normalize(phrase) == "" || allowed == {} then r == None
    else exists key :: Matched(Table(rows), Claims(rows), allowed, Normalize(phrase), seesMoney, key)
                       && r == Lookup(Table(rows), key)
  }

  /** k may stand in for metric m: this caller may use it, it needs no money, and it shares a synonym. */
  ghost predicate Twin(rows: seq<Metric>, m: Metric, seesMoney: bool, k: string) {
    && k in Allowed(Table(rows), seesMoney) && !Table(rows)[k].NeedsMoney()
    && exists s :: s in Synonyms(m) && (s, k) in Claims(rows)
  }

  function Synonyms(m: Metric): set<string> {
    set j | 0 <= j < |m.Names()| && Normalize(m.Names()[j]) != "" :: Normalize(m.Names()[j])
  }

  /** A key that may stand in for money: this caller may use it and it needs none. */
  function Usable(table: map<string, Metric>, seesMoney: bool): string -> bool {
    (k: string) => k in Allowed(table, seesMoney) && !table[k].NeedsMoney()
  }

  /** The keys _volume_twin tries: name by name, and for each name in registry order. */
  function TwinOrder(rows: seq<Metric>, names: seq<string>): seq<string> {
    if names == [] then []
    else TwinOrder(rows, names[..|names| - 1]) + ClaimList(rows, Normalize(names[|names| - 1]))
  }

  function First(xs: seq<string>, p: string -> bool): Option<string> {
    if xs == [] then None else if p(xs[0]) then Some(xs[0]) else First(xs[1..], p)
  }

  /** The stand-in the caller is told of. */
  function TwinOf(rows: seq<Metric>, m: Metric, seesMoney: bool): Option<string> {
    First(TwinOrder(rows, m.Names()), Usable(Table(rows), seesMoney))
  }

  /** The money metric a caller without money asked for. */
  ghost predicate Withheld(rows: seq<Metric>, phrase: string, seesMoney: bool, r: Option<Metric>) {
    if seesMoney || Normalize(phrase) == "" then r == None
    else exists key ::
      && Matched(Table(rows), Claims(rows), Table(rows).Keys, Normalize(phrase), true, key)
      && var asked := Lookup(Table(rows), key);
         r == if asked.Some? && asked.value.NeedsMoney() then asked else None
  }

  // ------------------------------------------------------------------
  // The service
  // ------------------------------------------------------------------

  ghost predicate Indexes(bySynonym: map<string, seq<string>>, claims: set<(string, string)>) {
    forall s, k :: (s, k) in claims <==> s in bySynonym && k in bySynonym[s]
  }

  function Listed(index: map<string, seq<string>>, s: string): seq<string> { if s in index then index[s] else [] }

  function Grown(bySynonym: map<string, seq<string>>, norm: string, key: string): map<string, seq<string>> {
    if norm == "" then bySynonym
    else bySynonym[norm := Listed(bySynonym, norm) + [key]]
  }

  function IndexUpTo(index: map<string, seq<string>>, m: Metric, n: nat): map<string, seq<string>>
    requires n <= |m.Names()|
  {
    if n == 0 then index else Grown(IndexUpTo(index, m, n - 1), Normalize(m.Names()[n - 1]), m.key)
  }

  /** The synonym index after the rows. */
  function Index(rows: seq<Metric>): map<string, seq<string>> {
    if rows == [] then map[]
    else var m := rows[|rows| - 1]; IndexUpTo(Index(rows[..|rows| - 1]), m, |m.Names()|)
  }

  function InSet(keys: set<string>): string -> bool { (k: string) => k in keys }

  ghost predicate Increasing(keys: seq<string>) {
    forall i, j :: 0 <= i < j < |keys| ==> StringLess(keys[i], keys[j])
  }

  function Insert(k: string, keys: seq<string>): seq<string> {
    if keys == [] then [k]
    else if k == keys[0] then keys
    else if StringLess(k, keys[0]) then [k] + keys
    else [keys[0]] + Insert(k, keys[1..])
  }

  lemma {:induction false} InsertMembers(k: string, keys: seq<string>)
    ensures forall x :: x in Insert(k, keys) <==> x in keys || x == k
  {
    if keys != [] && k != keys[0] {
      assert keys == [keys[0]] + keys[1..];
      if !StringLess(k, keys[0]) { InsertMembers(k, keys[1..]); }
    }
  }

  lemma {:induction false} InsertKeepsOrder(k: string, keys: seq<string>)
    requires Increasing(keys)
    ensures Increasing(Insert(k, keys))
  {
    if keys != [] && k != keys[0] {
      if StringLess(k, keys[0]) {
        forall j | 0 <= j < |keys| ensures StringLess(k, keys[j]) {
          if j > 0 { StringLessTransitive(k, keys[0], keys[j]); }
        }
      } else {
        StringLessTotal(k, keys[0]);
        InsertKeepsOrder(k, keys[1..]);
        InsertMembers(k, keys[1..]);
        HeadBeforeAll(keys[0], Insert(k, keys[1..]));
      }
    }
  }

  lemma HeadBeforeAll(head: string, rest: seq<string>)
    requires Increasing(rest) && forall x :: x in rest ==> StringLess(head, x)
    ensures Increasing([head] + rest)
  {
  }

  /** sorted(set(keys)). */
  method SortedSet(keys: seq<string>) returns (ordered: seq<string>)
    ensures Increasing(ordered) && ToSet(ordered) == ToSet(keys)
  {
    ordered := [];
    for i := 0 to |keys|
      invariant Increasing(ordered) && forall x :: x in ordered <==> x in keys[..i]
    {
      InsertKeepsOrder(keys[i], ordered);
      InsertMembers(keys[i], ordered);
      ordered := Insert(keys[i], ordered);
      assert keys[..i + 1] == keys[..i] + [keys[i]];
    }
    assert keys[..|keys|] == keys;
  }

  ghost predicate NoneWith(xs: seq<string>, p: string -> bool) { forall x :: x in xs ==> !p(x) }

  /** The first element of a list that satisfies p, with something in front that has none. */
  lemma {:induction false} FirstAfter(tried: seq<string>, xs: seq<string>, p: string -> bool)
    requires NoneWith(tried, p)
    ensures First(tried + xs, p) == First(xs, p)
  {
    if tried == [] {
      assert tried + xs == xs;
    } else {
      assert (tried + xs)[0] == tried[0] && (tried + xs)[1..] == tried[1..] + xs;
      assert tried[0] in tried;
      FirstAfter(tried[1..], xs, p);
    }
  }

  lemma {:induction false} FirstIn(xs: seq<string>, p: string -> bool)
    ensures First(xs, p).None? <==> NoneWith(xs, p)
    ensures First(xs, p).Some? ==> First(xs, p).value in xs && p(First(xs, p).value)
  {
    if xs != [] {
      FirstIn(xs[1..], p);
      assert xs == [xs[0]] + xs[1..];
    }
  }

  lemma {:induction false} FirstOfPrefix(xs: seq<string>, ys: seq<string>, p: string -> bool)
    requires First(xs, p).Some?
    ensures First(xs + ys, p) == First(xs, p)
  {
    assert (xs + ys)[0] == xs[0] && (xs + ys)[1..] == xs[1..] + ys;
    if !p(xs[0]) { FirstOfPrefix(xs[1..], ys, p); }
  }

  class MetricService {
    var metrics: map<string, Metric>
    var order: seq<string>                      // the keys of metrics, in insertion order
    var bySynonym: map<string, seq<string>>
    var synonymOrder: seq<string>               // the keys of bySynonym, in insertion order
    ghost var rows: seq<Metric>

    ghost predicate Valid()
      reads this
    {
      && metrics == Table(rows) && Distinct(order) && ToSet(order) == metrics.Keys
      && bySynonym == Index(rows) && ToSet(synonymOrder) == bySynonym.Keys
    }

    /** The loading loop of _load. */
    constructor (loaded: seq<Metric>)
      ensures Valid() && rows == loaded
    {
      metrics, order, bySynonym, synonymOrder, rows := map[], [], map[], [], [];
      new;
      for i := 0 to |loaded|
        invariant Valid() && rows == loaded[..i]
      {
        Register(loaded[i]);
        assert loaded[..i + 1] == loaded[..i] + [loaded[i]];
      }
      assert loaded[..|loaded|] == loaded;
    }

    /** One row of the loading loop. */
    method Register(m: Metric)
      requires Valid()
      modifies this
      ensures Valid() && rows == old(rows) + [m]
    {
      if m.key !in metrics { order := order + [m.key]; }
      metrics := metrics[m.key := m];
      ghost var table, listed := metrics, order;
      assert Distinct(listed) && ToSet(listed) == table.Keys;
      var names := m.Names();
      for j := 0 to |names|
        invariant metrics == table && order == listed && rows == old(rows)
        invariant bySynonym == IndexUpTo(Index(old(rows)), m, j) && ToSet(synonymOrder) == bySynonym.Keys
      {
        var norm := Normalize(names[j]);
        if norm != "" { FileSynonym(norm, m.key); }
      }
      rows := rows + [m];
      assert rows[..|rows| - 1] == old(rows);
    }

    /** setdefault(norm, []).append(key). */
    method FileSynonym(norm: string, key: string)
      requires norm != "" && ToSet(synonymOrder) == bySynonym.Keys
      modifies this`bySynonym, this`synonymOrder
      ensures bySynonym == Grown(old(bySynonym), norm, key) && ToSet(synonymOrder) == bySynonym.Keys
    {
      if norm in bySynonym {
        bySynonym := bySynonym[norm := bySynonym[norm] + [key]];
      } else {
        assert [] + [key] == [key];
        bySynonym := bySynonym[norm := [key]];
        synonymOrder := synonymOrder + [norm];
      }
    }

    method Available(seesMoney: bool) returns (r: seq<Metric>)
      requires Valid()
      ensures forall m :: m in r <==> m.key in Allowed(metrics, seesMoney) && m == metrics[m.key]
    {
      r := [];
      KeysMatch(rows);
      for i := 0 to |order|
        invariant forall m :: m in r <==>
                    m.key in order[..i] && m.key in Allowed(metrics, seesMoney) && m == metrics[m.key]
      {
        assert order[i] in ToSet(order);
        assert order[..i + 1] == order[..i] + [order[i]];
        var m := metrics[order[i]];
        if seesMoney || m.minRole != "HOD" { r := r + [m]; }
      }
      assert order[..|order|] == order;
      assert forall k :: k in metrics ==> k in ToSet(order);
    }

    method AllowedKeys(seesMoney: bool) returns (keys: set<string>)
      requires Valid()
      ensures keys == Allowed(metrics, seesMoney)
    {
      var available := Available(seesMoney);
      KeysMatch(rows);
      keys := set m | m in available :: m.key;
      forall k | k in Allowed(metrics, seesMoney) ensures k in keys {
        assert metrics[k] in available;
      }
    }

    /** _prefer. */
    method Prefer(keys: seq<string>, preferMoney: bool) returns (k: string)
      requires Valid() && keys != []
      ensures Preferred(metrics, ToSet(keys), preferMoney, k)
    {
      var ordered := SortedSet(keys);
      assert keys[0] in ToSet(keys);
      if preferMoney {
        for i := 0 to |ordered|
          invariant forall j :: 0 <= j < i ==> ordered[j] !in MoneyKeys(metrics, ToSet(keys))
        {
          assert ordered[i] in ToSet(ordered);
          if ordered[i] in metrics && metrics[ordered[i]].NeedsMoney() {
            FirstIsLeast(ordered, i, MoneyKeys(metrics, ToSet(keys)));
            return ordered[i];
          }
        }
        assert MoneyKeys(metrics, ToSet(keys)) == {} by {
          forall x | x in ToSet(keys) ensures x !in MoneyKeys(metrics, ToSet(keys)) { assert x in ToSet(ordered); }
        }
      }
      FirstIsLeast(ordered, 0, ToSet(keys));
      k := ordered[0];
    }

    /** _match. */
    method Match(norm: string, allowed: set<string>, preferMoney: bool) returns (r: Option<string>)
      requires Valid()
      ensures Matched(metrics, Claims(rows), allowed, norm, preferMoney, r)
    {
      var exact := Filter(InSet(allowed), if norm in bySynonym then bySynonym[norm] else []);
      ExactKeys(norm, allowed, exact);
      if exact != [] {
        assert exact[0] in ToSet(exact);
        var k := Prefer(exact, preferMoney);
        return Some(k);
      }
      var bestLen: nat, tied := 0, [];
      for i := 0 to |synonymOrder|
        invariant BestSoFar(Claims(rows), allowed, norm, synonymOrder[..i], bestLen, tied)
      {
        var s := synonymOrder[i];
        assert s in ToSet(synonymOrder);
        var candidates := if s != "" && Contains(norm, s) then Filter(InSet(allowed), bySynonym[s]) else [];
        SynonymStep(norm, allowed, i, bestLen, tied, candidates);
        if candidates != [] {
          if |s| > bestLen {
            bestLen, tied := |s|, candidates;
          } else if |s| == bestLen {
            tied := tied + candidates;
          }
        }
      }
      assert synonymOrder[..|synonymOrder|] == synonymOrder;
      TiedKeys(norm, allowed, bestLen, tied);
      if tied == [] { return None; }
      assert tied[0] in ToSet(tied);
      var k := Prefer(tied, preferMoney);
      return Some(k);
    }

    method Resolve(phrase: string, seesMoney: bool) returns (r: Option<Metric>)
      requires Valid()
      ensures Resolved(rows, phrase, seesMoney, r)
    {
      var norm := Normalize(phrase);
      if norm == "" { return None; }
      var allowed := AllowedKeys(seesMoney);
      if allowed == {} { return None; }
      var key := Match(norm, allowed, seesMoney);
      r := Lookup(metrics, key);
    }

    /** withheld_for: the metric asked for, and its stand-in. */
    method WithheldFor(phrase: string, seesMoney: bool) returns (requested: Option<Metric>, substitute: Option<string>)
      requires Valid()
      ensures Withheld(rows, phrase, seesMoney, requested)
      ensures requested.None? ==> substitute.None?
      ensures requested.Some? ==> substitute == TwinOf(rows, requested.value, seesMoney)
      ensures requested.Some? ==> (substitute.Some? <==> exists k :: Twin(rows, requested.value, seesMoney, k))
    {
      if seesMoney { return None, None; }
      var norm := Normalize(phrase);
      if norm == "" { return None, None; }
      var key := Match(norm, metrics.Keys, true);
      var asked := Lookup(metrics, key);
      if asked.None? || !asked.value.NeedsMoney() { return None, None; }
      requested := asked;
      substitute := VolumeTwin(asked.value, seesMoney);
      TwinOfIsTwin(rows, asked.value, seesMoney);
    }

    /** _volume_twin. */
    method VolumeTwin(m: Metric, seesMoney: bool) returns (r: Option<string>)
      requires Valid()
      ensures r == TwinOf(rows, m, seesMoney)
    {
      var allowed := AllowedKeys(seesMoney);
      var names := m.Names();
      ghost var p := Usable(metrics, seesMoney);
      if allowed == {} {
        FirstIn(TwinOrder(rows, names), p);
        return None;
      }
      for j := 0 to |names|
        invariant NoneWith(TwinOrder(rows, names[..j]), p)
      {
        var norm := Normalize(names[j]);
        IndexListsInOrder(rows, norm);
        r := FirstVolume(Listed(bySynonym, norm), allowed, seesMoney);
        if r.Some? {
          FirstOfNames(rows, names, j, p);
          return;
        }
        NameHasNone(rows, names, j, p);
      }
      assert names[..|names|] == names;
      FirstIn(TwinOrder(rows, names), p);
      r := None;
    }

    /** The inner loop of _volume_twin. */
    method FirstVolume(keys: seq<string>, allowed: set<string>, seesMoney: bool) returns (r: Option<string>)
      requires Valid() && allowed == Allowed(metrics, seesMoney)
      ensures r == First(keys, Usable(metrics, seesMoney))
    {
      ghost var p := Usable(metrics, seesMoney);
      for i := 0 to |keys|
        invariant First(keys, p) == First(keys[i..], p)
      {
        if keys[i] in allowed && !metrics[keys[i]].NeedsMoney() { return Some(keys[i]); }
        assert keys[i..][1..] == keys[i + 1..];
      }
      r := None;
    }

    lemma SynonymStep(norm: string, allowed: set<string>, i: nat, bestLen: nat, tied: seq<string>,
                      candidates: seq<string>)
      requires Valid() && i < |synonymOrder| && synonymOrder[i] in bySynonym
      requires BestSoFar(Claims(rows), allowed, norm, synonymOrder[..i], bestLen, tied)
      requires var s := synonymOrder[i];
               candidates == if s != "" && Contains(norm, s) then Filter(InSet(allowed), bySynonym[s]) else []
      ensures var s := synonymOrder[i];
              BestSoFar(Claims(rows), allowed, norm, synonymOrder[..i + 1],
                        if candidates != [] && |s| > bestLen then |s| else bestLen,
                        if candidates == [] || |s| < bestLen then tied
                        else if |s| > bestLen then candidates else tied + candidates)
    {
      var s := synonymOrder[i];
      CandidatesAreHits(norm, allowed, s, candidates);
      Extend(Claims(rows), allowed, norm, synonymOrder[..i], bestLen, tied, s, candidates);
      assert synonymOrder[..i + 1] == synonymOrder[..i] + [s];
    }

    lemma CandidatesAreHits(norm: string, allowed: set<string>, s: string, candidates: seq<string>)
      requires Valid() && s in bySynonym
      requires candidates == if s != "" && Contains(norm, s) then Filter(InSet(allowed), bySynonym[s]) else []
      ensures forall k :: k in candidates <==> Hit(Claims(rows), allowed, norm, s, k)
      ensures candidates != [] ==> s != "" && candidates[0] in candidates
    {
      FilterMembers(InSet(allowed), bySynonym[s]);
      NoBlankClaims(rows);
      IndexMeans(rows);
    }

    lemma ExactKeys(norm: string, allowed: set<string>, exact: seq<string>)
      requires Valid()
      requires exact == Filter(InSet(allowed), if norm in bySynonym then bySynonym[norm] else [])
      ensures exact != [] ==> ToSet(exact) == Tied(Claims(rows), allowed, norm)
      ensures exact == [] ==> !exists k :: Exact(Claims(rows), allowed, norm, k)
    {
      FilterMembers(InSet(allowed), if norm in bySynonym then bySynonym[norm] else []);
      IndexMeans(rows);
      forall k ensures k in exact <==> Exact(Claims(rows), allowed, norm, k) {
      }
      if exact != [] { assert exact[0] in exact; }
    }

    lemma TiedKeys(norm: string, allowed: set<string>, bestLen: nat, tied: seq<string>)
      requires Valid() && BestSoFar(Claims(rows), allowed, norm, synonymOrder, bestLen, tied)
      requires !exists k :: Exact(Claims(rows), allowed, norm, k)
      ensures ToSet(tied) == Tied(Claims(rows), allowed, norm)
    {
      IndexMeans(rows);
      forall s, k | Hit(Claims(rows), allowed, norm, s, k) ensures s in synonymOrder && |s| <= bestLen {
        assert s in ToSet(synonymOrder);
      }
      NoBlankClaims(rows);
      forall k | k in tied ensures exists s :: LongestHit(Claims(rows), allowed, norm, s, k) {
        var s :| s in synonymOrder && |s| == bestLen && Hit(Claims(rows), allowed, norm, s, k);
        assert LongestHit(Claims(rows), allowed, norm, s, k);
      }
      forall s, k | LongestHit(Claims(rows), allowed, norm, s, k) ensures k in tied {
        assert s in synonymOrder && 0 < |s| <= bestLen;
        assert tied[0] in tied;
        var t :| t in synonymOrder && |t| == bestLen && Hit(Claims(rows), allowed, norm, t, tied[0]);
        assert |t| <= |s|;
      }
    }
  }

  /** The state of the longest-synonym loop after the synonyms seen. */
  ghost predicate BestSoFar(claims: set<(string, string)>, allowed: set<string>, norm: string, seen: seq<string>,
                            bestLen: nat, tied: seq<string>)
  {
    && (bestLen == 0 <==> tied == [])
    && (forall s, k :: s in seen && Hit(claims, allowed, norm, s, k) ==> |s| <= bestLen)
    && (forall k :: k in tied <==> BestHit(claims, allowed, norm, seen, bestLen, k))
  }

  ghost predicate BestHit(claims: set<(string, string)>, allowed: set<string>, norm: string, seen: seq<string>,
                          bestLen: nat, k: string)
  {
    exists s :: s in seen && |s| == bestLen && Hit(claims, allowed, norm, s, k)
  }

  lemma Extend(claims: set<(string, string)>, allowed: set<string>, norm: string, seen: seq<string>,
               bestLen: nat, tied: seq<string>, s: string, candidates: seq<string>)
    requires BestSoFar(claims, allowed, norm, seen, bestLen, tied)
    requires forall k :: k in candidates <==> Hit(claims, allowed, norm, s, k)
    requires candidates != [] ==> s != "" && candidates[0] in candidates
    ensures BestSoFar(claims, allowed, norm, seen + [s],
                      if candidates != [] && |s| > bestLen then |s| else bestLen,
                      if candidates == [] || |s| < bestLen then tied
                      else if |s| > bestLen then candidates else tied + candidates)
  {
    var newLen := if candidates != [] && |s| > bestLen then |s| else bestLen;
    forall k
      ensures BestHit(claims, allowed, norm, seen + [s], newLen, k) <==>
              || (newLen == bestLen && BestHit(claims, allowed, norm, seen, bestLen, k))
              || (|s| == newLen && k in candidates)
    {
      HitsAfter(claims, allowed, norm, seen, s, newLen, k);
      assert newLen > bestLen ==> !BestHit(claims, allowed, norm, seen, newLen, k);
    }
  }

  lemma HitsAfter(claims: set<(string, string)>, allowed: set<string>, norm: string, seen: seq<string>, s: string,
                  n: nat, k: string)
    ensures BestHit(claims, allowed, norm, seen + [s], n, k) <==>
            BestHit(claims, allowed, norm, seen, n, k) || (|s| == n && Hit(claims, allowed, norm, s, k))
  {
    if t :| t in seen && |t| == n && Hit(claims, allowed, norm, t, k) { assert t in seen + [s]; }
    assert s in seen + [s];
  }

  lemma FirstIsLeast(ordered: seq<string>, i: nat, keys: set<string>)
    requires Increasing(ordered) && i < |ordered| && ordered[i] in keys
    requires keys <= ToSet(ordered) && forall j :: 0 <= j < i ==> ordered[j] !in keys
    ensures IsLeast(ordered[i], keys)
  {
    forall x | x in keys && x != ordered[i] ensures StringLess(ordered[i], x) {
      assert x in ToSet(ordered);
      var j :| 0 <= j < |ordered| && ordered[j] == x;
    }
  }

  lemma {:induction false} NamesListed(index: map<string, seq<string>>, m: Metric, n: nat, s: string)
    requires n <= |m.Names()|
    ensures Listed(IndexUpTo(index, m, n), s) == Listed(index, s) + ListUpTo(m, n, s)
  {
    if n > 0 { NamesListed(index, m, n - 1, s); }
  }

  /** The index lists under a synonym the keys that claim it, in registry order. */
  lemma {:induction false} IndexListsInOrder(rows: seq<Metric>, s: string)
    ensures Listed(Index(rows), s) == ClaimList(rows, s)
  {
    if rows != [] {
      var init, m := rows[..|rows| - 1], rows[|rows| - 1];
      IndexListsInOrder(init, s);
      NamesListed(Index(init), m, |m.Names()|, s);
    }
  }

  lemma IndexMeans(rows: seq<Metric>)
    ensures Indexes(Index(rows), Claims(rows))
  {
    forall s, k ensures k in Listed(Index(rows), s) <==> (s, k) in Claims(rows) {
      IndexListsInOrder(rows, s);
      ClaimListMembers(rows, s, k);
    }
  }

  lemma ClaimsStep(m: Metric, j: nat)
    requires j < |m.Names()|
    ensures ClaimsUpTo(m, j + 1) == ClaimsUpTo(m, j)
            + if Normalize(m.Names()[j]) != "" then {(Normalize(m.Names()[j]), m.key)} else {}
  {
  }

  lemma {:induction false} NoBlankClaims(rows: seq<Metric>)
    ensures forall s, k :: (s, k) in Claims(rows) ==> s != ""
  {
    if rows != [] { NoBlankClaims(rows[..|rows| - 1]); }
  }

  /** Every metric is filed under its own key, and every claimed key is registered. */
  lemma {:induction false} KeysMatch(rows: seq<Metric>)
    ensures forall k :: k in Table(rows) ==> Table(rows)[k].key == k
    ensures forall s, k :: (s, k) in Claims(rows) ==> k in Table(rows)
  {
    if rows != [] { KeysMatch(rows[..|rows| - 1]); }
  }

  // ------------------------------------------------------------------
  // Order does not matter
  // ------------------------------------------------------------------

  ghost predicate DistinctKeys(rows: seq<Metric>) {
    forall i, j :: 0 <= i < j < |rows| ==> rows[i].key != rows[j].key
  }

  lemma {:induction false} TableMembers(rows: seq<Metric>)
    requires DistinctKeys(rows)
    ensures forall k, m :: (k in Table(rows) && Table(rows)[k] == m) <==> m in rows && m.key == k
  {
    if rows != [] {
      var init, last := rows[..|rows| - 1], rows[|rows| - 1];
      TableMembers(init);
      OtherKeys(rows);
      assert rows == init + [last];
    }
  }

  lemma OtherKeys(rows: seq<Metric>)
    requires DistinctKeys(rows) && rows != []
    ensures forall m :: m in rows[..|rows| - 1] ==> m.key != rows[|rows| - 1].key
  {
  }

  lemma {:induction false} ClaimMembers(rows: seq<Metric>)
    ensures forall c :: c in Claims(rows) <==> exists m :: m in rows && c in MetricClaims(m)
  {
    if rows != [] {
      ClaimMembers(rows[..|rows| - 1]);
      assert rows == rows[..|rows| - 1] + [rows[|rows| - 1]];
    }
  }

  lemma SameTable(rows: seq<Metric>, other: seq<Metric>)
    requires (forall m :: m in rows <==> m in other) && DistinctKeys(rows) && DistinctKeys(other)
    ensures Table(rows) == Table(other)
  {
    TableMembers(rows);
    TableMembers(other);
    var a, b := Table(rows), Table(other);
    forall k | k in a ensures k in b && a[k] == b[k] {
      var m := a[k];
      assert m in rows && m.key == k;
    }
    forall k | k in b ensures k in a {
      var m := b[k];
      assert m in other && m.key == k;
    }
  }

  lemma SameClaims(rows: seq<Metric>, other: seq<Metric>)
    requires forall m :: m in rows <==> m in other
    ensures Claims(rows) == Claims(other)
  {
    ClaimMembers(rows);
    ClaimMembers(other);
    forall c ensures c in Claims(rows) <==> c in Claims(other) {
    }
  }

  /** Both load paths give one registry: a permutation of rows with distinct keys means the same. */
  lemma PermutedRegistry(rows: seq<Metric>, other: seq<Metric>)
    requires multiset(rows) == multiset(other) && DistinctKeys(rows) && DistinctKeys(other)
    ensures Table(rows) == Table(other) && Claims(rows) == Claims(other)
  {
    forall m ensures m in rows <==> m in other {
      assert m in rows <==> m in multiset(rows);
      assert m in other <==> m in multiset(other);
    }
    SameTable(rows, other);
    SameClaims(rows, other);
  }

  /** Distinctness of keys is itself kept by a permutation. */
  lemma {:induction false} PermutedKeysDistinct(rows: seq<Metric>, other: seq<Metric>)
    requires multiset(rows) == multiset(other) && DistinctKeys(rows)
    ensures DistinctKeys(other)
  {
    forall i, j | 0 <= i < j < |other| ensures other[i].key != other[j].key {
      if other[i].key == other[j].key {
        assert other[i] in multiset(other) && other[j] in multiset(other);
        var a :| 0 <= a < |rows| && rows[a] == other[i];
        var b :| 0 <= b < |rows| && rows[b] == other[j];
        assert a == b;
        OnceEach(rows, other[i]);
        TwiceAt(other, i, j);
      }
    }
  }

  lemma {:induction false} OnceEach(rows: seq<Metric>, m: Metric)
    requires DistinctKeys(rows)
    ensures multiset(rows)[m] <= 1
  {
    if rows != [] {
      var init, last := rows[..|rows| - 1], rows[|rows| - 1];
      OnceEach(init, m);
      assert rows == init + [last];
      forall i | 0 <= i < |init| ensures init[i] != last {
        assert rows[i].key != rows[|rows| - 1].key;
      }
      assert last !in init;
    }
  }

  lemma TwiceAt(xs: seq<Metric>, i: nat, j: nat)
    requires i < j < |xs| && xs[i] == xs[j]
    ensures multiset(xs)[xs[i]] >= 2
  {
    assert xs == xs[..j] + [xs[j]] + xs[j + 1..];
    assert xs[..j][i] == xs[i];
    assert xs[i] in multiset(xs[..j]);
  }

  /** A phrase has one match. */
  lemma MatchedIsUnique(table: map<string, Metric>, claims: set<(string, string)>, allowed: set<string>,
                        norm: string, preferMoney: bool, a: Option<string>, b: Option<string>)
    requires Matched(table, claims, allowed, norm, preferMoney, a)
    requires Matched(table, claims, allowed, norm, preferMoney, b)
    ensures a == b
  {
    var tied := Tied(claims, allowed, norm);
    if tied != {} {
      var pool := if preferMoney && MoneyKeys(table, tied) != {} then MoneyKeys(table, tied) else tied;
      LeastIsUnique(a.value, b.value, pool);
    }
  }

  /** resolve answers the same metric from any permutation of the registry. */
  lemma ResolveIgnoresOrder(rows: seq<Metric>, other: seq<Metric>, phrase: string, seesMoney: bool,
                            a: Option<Metric>, b: Option<Metric>)
    requires multiset(rows) == multiset(other) && DistinctKeys(rows)
    requires Resolved(rows, phrase, seesMoney, a) && Resolved(other, phrase, seesMoney, b)
    ensures a == b
  {
    PermutedKeysDistinct(rows, other);
    PermutedRegistry(rows, other);
    var allowed := Allowed(Table(rows), seesMoney);
    if Normalize(phrase) != "" && allowed != {} {
      var x :| Matched(Table(rows), Claims(rows), allowed, Normalize(phrase), seesMoney, x)
          && a == Lookup(Table(rows), x);
      var y :| Matched(Table(other), Claims(other), allowed, Normalize(phrase), seesMoney, y)
          && b == Lookup(Table(other), y);
      MatchedIsUnique(Table(rows), Claims(rows), allowed, Normalize(phrase), seesMoney, x, y);
    }
  }

  /** withheld_for reports the same metric, with a substitute or without one, from any permutation. */
  lemma WithheldIgnoresOrder(rows: seq<Metric>, other: seq<Metric>, phrase: string, seesMoney: bool,
                             a: Option<Metric>, b: Option<Metric>)
    requires multiset(rows) == multiset(other) && DistinctKeys(rows)
    requires Withheld(rows, phrase, seesMoney, a) && Withheld(other, phrase, seesMoney, b)
    ensures a == b
    ensures a.Some? ==> forall k :: Twin(rows, a.value, seesMoney, k) <==> Twin(other, a.value, seesMoney, k)
  {
    PermutedKeysDistinct(rows, other);
    PermutedRegistry(rows, other);
    if !seesMoney && Normalize(phrase) != "" {
      var norm, keys := Normalize(phrase), Table(rows).Keys;
      var x :| Matched(Table(rows), Claims(rows), keys, norm, true, x)
               && var asked := Lookup(Table(rows), x);
                  a == if asked.Some? && asked.value.NeedsMoney() then asked else None;
      var y :| Matched(Table(other), Claims(other), keys, norm, true, y)
               && var asked := Lookup(Table(other), y);
                  b == if asked.Some? && asked.value.NeedsMoney() then asked else None;
      MatchedIsUnique(Table(rows), Claims(rows), keys, norm, true, x, y);
    }
  }

  /** What an executive is told was withheld is exactly what an HOD's resolve returns, when that is money. */
  lemma WithheldIsTheHodAnswer(rows: seq<Metric>, phrase: string, hod: Option<Metric>, withheld: Option<Metric>)
    requires Resolved(rows, phrase, true, hod) && Withheld(rows, phrase, false, withheld)
    ensures withheld == if hod.Some? && hod.value.NeedsMoney() then hod else None
  {
    var norm := Normalize(phrase);
    if norm != "" {
      assert Allowed(Table(rows), true) == Table(rows).Keys;
      var x :| Matched(Table(rows), Claims(rows), Table(rows).Keys, norm, true, x)
               && var asked := Lookup(Table(rows), x);
                  withheld == if asked.Some? && asked.value.NeedsMoney() then asked else None;
      if Table(rows).Keys != {} {
        var y :| Matched(Table(rows), Claims(rows), Table(rows).Keys, norm, true, y) && hod == Lookup(Table(rows), y);
        MatchedIsUnique(Table(rows), Claims(rows), Table(rows).Keys, norm, true, x, y);
      }
    }
  }

  /** The loader's rule: a money metric is marked HOD. */
  ghost predicate MoneyIsHod(rows: seq<Metric>) {
    forall m :: m in rows && m.NeedsMoney() ==> m.minRole == "HOD"
  }

  lemma {:induction false} TableFromRows(rows: seq<Metric>)
    ensures forall k :: k in Table(rows) ==> Table(rows)[k] in rows
  {
    if rows != [] {
      TableFromRows(rows[..|rows| - 1]);
      assert rows == rows[..|rows| - 1] + [rows[|rows| - 1]];
    }
  }

  /** With the loader's rule an executive never resolves to a money metric. */
  lemma ExecNeverGetsMoney(rows: seq<Metric>, phrase: string, r: Option<Metric>)
    requires MoneyIsHod(rows) && Resolved(rows, phrase, false, r)
    ensures r.Some? ==> !r.value.NeedsMoney() && r.value.minRole != "HOD"
  {
    TableFromRows(rows);
    var allowed := Allowed(Table(rows), false);
    if Normalize(phrase) != "" && allowed != {} {
      var key :| Matched(Table(rows), Claims(rows), allowed, Normalize(phrase), false, key)
          && r == Lookup(Table(rows), key);
      if key.Some? {
        assert key.value in Tied(Claims(rows), allowed, Normalize(phrase));
        assert key.value in allowed;
      }
    }
  }

  // ------------------------------------------------------------------
  // Which stand-in is picked
  // ------------------------------------------------------------------

  lemma {:induction false} ListUpToMembers(m: Metric, n: nat, s: string, k: string)
    requires n <= |m.Names()| && s != ""
    ensures k in ListUpTo(m, n, s) <==> (s, k) in ClaimsUpTo(m, n)
  {
    if n > 0 {
      ListUpToMembers(m, n - 1, s, k);
      ClaimsStep(m, n - 1);
    }
  }

  lemma {:induction false} ListOfBlank(m: Metric, n: nat)
    requires n <= |m.Names()|
    ensures ListUpTo(m, n, "") == []
  {
    if n > 0 { ListOfBlank(m, n - 1); }
  }

  /** The list of a synonym holds exactly the keys that claim it. */
  lemma {:induction false} ClaimListMembers(rows: seq<Metric>, s: string, k: string)
    ensures k in ClaimList(rows, s) <==> (s, k) in Claims(rows)
  {
    NoBlankClaims(rows);
    if rows != [] {
      var m := rows[|rows| - 1];
      ClaimListMembers(rows[..|rows| - 1], s, k);
      if s == "" { ListOfBlank(m, |m.Names()|); } else { ListUpToMembers(m, |m.Names()|, s, k); }
    }
  }

  lemma TwinOrderStep(rows: seq<Metric>, names: seq<string>, j: nat)
    requires j < |names|
    ensures TwinOrder(rows, names[..j + 1]) == TwinOrder(rows, names[..j]) + ClaimList(rows, Normalize(names[j]))
  {
    assert names[..j + 1][..j] == names[..j];
  }

  lemma {:induction false} TwinOrderPrefix(rows: seq<Metric>, names: seq<string>, n: nat) returns (rest: seq<string>)
    requires n <= |names|
    ensures TwinOrder(rows, names) == TwinOrder(rows, names[..n]) + rest
  {
    if n < |names| {
      var init := names[..|names| - 1];
      assert init[..n] == names[..n];
      var before := TwinOrderPrefix(rows, init, n);
      rest := before + ClaimList(rows, Normalize(names[|names| - 1]));
      assert TwinOrder(rows, names[..n]) + before + ClaimList(rows, Normalize(names[|names| - 1]))
          == TwinOrder(rows, names[..n]) + rest;
    } else {
      assert names[..n] == names;
      rest := [];
    }
  }

  lemma NameHasNone(rows: seq<Metric>, names: seq<string>, j: nat, p: string -> bool)
    requires j < |names| && NoneWith(TwinOrder(rows, names[..j]), p)
    requires First(ClaimList(rows, Normalize(names[j])), p).None?
    ensures NoneWith(TwinOrder(rows, names[..j + 1]), p)
  {
    TwinOrderStep(rows, names, j);
    FirstIn(ClaimList(rows, Normalize(names[j])), p);
  }

  /** The first eligible key is found under the first name that has one. */
  lemma FirstOfNames(rows: seq<Metric>, names: seq<string>, j: nat, p: string -> bool)
    requires j < |names| && NoneWith(TwinOrder(rows, names[..j]), p)
    requires First(ClaimList(rows, Normalize(names[j])), p).Some?
    ensures First(TwinOrder(rows, names), p) == First(ClaimList(rows, Normalize(names[j])), p)
  {
    var tried, keys := TwinOrder(rows, names[..j]), ClaimList(rows, Normalize(names[j]));
    TwinOrderStep(rows, names, j);
    var rest := TwinOrderPrefix(rows, names, j + 1);
    FirstAfter(tried, keys, p);
    FirstOfPrefix(tried + keys, rest, p);
  }

  lemma {:induction false} TwinOrderMembers(rows: seq<Metric>, names: seq<string>, k: string)
    ensures k in TwinOrder(rows, names) <==>
            exists j :: 0 <= j < |names| && (Normalize(names[j]), k) in Claims(rows)
  {
    if names != [] {
      var init, last := names[..|names| - 1], names[|names| - 1];
      TwinOrderMembers(rows, init, k);
      ClaimListMembers(rows, Normalize(last), k);
      assert names == init + [last];
    }
  }

  /** The stand-in is a twin, and its absence means there is none. */
  lemma TwinOfIsTwin(rows: seq<Metric>, m: Metric, seesMoney: bool)
    ensures TwinOf(rows, m, seesMoney).Some? ==> Twin(rows, m, seesMoney, TwinOf(rows, m, seesMoney).value)
    ensures TwinOf(rows, m, seesMoney).None? ==> forall k :: !Twin(rows, m, seesMoney, k)
  {
    var p := Usable(Table(rows), seesMoney);
    FirstIn(TwinOrder(rows, m.Names()), p);
    forall k ensures k in TwinOrder(rows, m.Names()) && p(k) <==> Twin(rows, m, seesMoney, k) {
      TwinOrderMembers(rows, m.Names(), k);
      NoBlankClaims(rows);
      if j :| 0 <= j < |m.Names()| && (Normalize(m.Names()[j]), k) in Claims(rows) {
        assert Normalize(m.Names()[j]) in Synonyms(m);
      }
      if s :| s in Synonyms(m) && (s, k) in Claims(rows) {
        var j :| 0 <= j < |m.Names()| && Normalize(m.Names()[j]) == s;
      }
    }
  }

  /** The usable keys that claim name j of a metric. */
  ghost function Claimants(rows: seq<Metric>, m: Metric, seesMoney: bool, j: nat): set<string>
    requires j < |m.Names()|
  {
    set k | k in Table(rows) && Usable(Table(rows), seesMoney)(k) && (Normalize(m.Names()[j]), k) in Claims(rows)
  }

  /** Name j is the first one that any usable key claims. */
  ghost predicate FirstShared(rows: seq<Metric>, m: Metric, seesMoney: bool, j: nat) {
    j < |m.Names()| && Claimants(rows, m, seesMoney, j) != {}
    && forall i :: 0 <= i < j ==> Claimants(rows, m, seesMoney, i) == {}
  }

  lemma NoneBefore(rows: seq<Metric>, m: Metric, seesMoney: bool, j: nat)
    requires j <= |m.Names()| && forall i :: 0 <= i < j ==> Claimants(rows, m, seesMoney, i) == {}
    ensures NoneWith(TwinOrder(rows, m.Names()[..j]), Usable(Table(rows), seesMoney))
  {
    var names, p := m.Names()[..j], Usable(Table(rows), seesMoney);
    KeysMatch(rows);
    forall k | k in TwinOrder(rows, names) ensures !p(k) {
      TwinOrderMembers(rows, names, k);
      var i :| 0 <= i < |names| && (Normalize(names[i]), k) in Claims(rows);
      assert k !in Claimants(rows, m, seesMoney, i);
    }
  }

  /** The stand-in is the registry's first claimant of the first shared name. */
  lemma TwinAtFirstShared(rows: seq<Metric>, m: Metric, seesMoney: bool, j: nat)
    requires FirstShared(rows, m, seesMoney, j)
    ensures TwinOf(rows, m, seesMoney)
         == First(ClaimList(rows, Normalize(m.Names()[j])), Usable(Table(rows), seesMoney))
    ensures TwinOf(rows, m, seesMoney).Some? && TwinOf(rows, m, seesMoney).value in Claimants(rows, m, seesMoney, j)
  {
    var p, s := Usable(Table(rows), seesMoney), Normalize(m.Names()[j]);
    NoneBefore(rows, m, seesMoney, j);
    var k :| k in Claimants(rows, m, seesMoney, j);
    ClaimListMembers(rows, s, k);
    FirstIn(ClaimList(rows, s), p);
    FirstOfNames(rows, m.Names(), j, p);
    ClaimListMembers(rows, s, First(ClaimList(rows, s), p).value);
  }

  lemma {:induction false} ClaimListCons(m: Metric, rows: seq<Metric>, s: string)
    ensures ClaimList([m] + rows, s) == MetricList(m, s) + ClaimList(rows, s)
  {
    if rows == [] {
      assert [m] + rows == [m] && [m][..0] == [];
      assert ClaimList([m], s) == ClaimList([], s) + MetricList(m, s);
    } else {
      var init, last := rows[..|rows| - 1], rows[|rows| - 1];
      assert ([m] + rows)[..|rows|] == [m] + init;
      ClaimListCons(m, init, s);
      assert MetricList(m, s) + (ClaimList(init, s) + MetricList(last, s))
          == MetricList(m, s) + ClaimList(init, s) + MetricList(last, s);
    }
  }

  lemma {:induction false} OwnKeyOnly(m: Metric, n: nat, s: string)
    requires n <= |m.Names()|
    ensures forall k :: k in ListUpTo(m, n, s) ==> k == m.key
  {
    if n > 0 { OwnKeyOnly(m, n - 1, s); }
  }

  /** A list that starts with a claimant's row lists that claimant first. */
  lemma RowListsItself(row: Metric, rest: seq<Metric>, s: string, p: string -> bool)
    requires (s, row.key) in MetricClaims(row) && s != "" && p(row.key)
    ensures First(ClaimList([row] + rest, s), p) == Some(row.key)
  {
    ClaimListCons(row, rest, s);
    ListUpToMembers(row, |row.Names()|, s, row.key);
    OwnKeyOnly(row, |row.Names()|, s);
    FirstIn(MetricList(row, s), p);
    FirstOfPrefix(MetricList(row, s), ClaimList(rest, s), p);
  }

  lemma ToFront(rows: seq<Metric>, row: Metric) returns (rest: seq<Metric>)
    requires row in rows
    ensures multiset([row] + rest) == multiset(rows)
  {
    var i :| 0 <= i < |rows| && rows[i] == row;
    rest := rows[..i] + rows[i + 1..];
    assert rows == rows[..i] + [row] + rows[i + 1..];
  }

  /** A permutation changes no claimant, so the first shared name stays the first. */
  lemma SameClaimants(rows: seq<Metric>, other: seq<Metric>, m: Metric, seesMoney: bool)
    requires DistinctKeys(rows) && multiset(other) == multiset(rows)
    ensures Table(other) == Table(rows) && Claims(other) == Claims(rows)
    ensures forall x: nat :: x < |m.Names()| ==>
              Claimants(other, m, seesMoney, x) == Claimants(rows, m, seesMoney, x)
  {
    PermutedKeysDistinct(rows, other);
    PermutedRegistry(rows, other);
  }

  /** With a claimant's row moved to the front, that claimant is the stand-in. */
  lemma FrontRowWins(rows: seq<Metric>, m: Metric, seesMoney: bool, j: nat, k: string) returns (other: seq<Metric>)
    requires DistinctKeys(rows) && FirstShared(rows, m, seesMoney, j) && k in Claimants(rows, m, seesMoney, j)
    ensures multiset(other) == multiset(rows) && TwinOf(other, m, seesMoney) == Some(k)
  {
    var s := Normalize(m.Names()[j]);
    ClaimMembers(rows);
    var row :| row in rows && (s, k) in MetricClaims(row);
    var rest := ToFront(rows, row);
    other := [row] + rest;
    SameClaimants(rows, other, m, seesMoney);
    TwinAtFirstShared(other, m, seesMoney, j);
    RowListsItself(row, rest, s, Usable(Table(rows), seesMoney));
  }

  ghost predicate TwinIgnoresOrder(rows: seq<Metric>, m: Metric, seesMoney: bool) {
    forall other :: multiset(other) == multiset(rows) ==> TwinOf(other, m, seesMoney) == TwinOf(rows, m, seesMoney)
  }

  /**
   * Which stand-in is reported depends on the order of the registry, unless at the first name of the
   * metric that any usable volume metric claims exactly one claims it.
   */
  lemma TwinIgnoresOrderIff(rows: seq<Metric>, m: Metric, seesMoney: bool)
    requires DistinctKeys(rows)
    ensures TwinIgnoresOrder(rows, m, seesMoney) <==>
            forall j: nat :: FirstShared(rows, m, seesMoney, j) ==> |Claimants(rows, m, seesMoney, j)| == 1
  {
    if j: nat :| FirstShared(rows, m, seesMoney, j) && |Claimants(rows, m, seesMoney, j)| != 1 {
      var keys := Claimants(rows, m, seesMoney, j);
      var a :| a in keys;
      var b := Another(keys, a);
      var first := FrontRowWins(rows, m, seesMoney, j, a);
      var second := FrontRowWins(rows, m, seesMoney, j, b);
    } else {
      forall other | multiset(other) == multiset(rows)
        ensures TwinOf(other, m, seesMoney) == TwinOf(rows, m, seesMoney)
      {
        OneTwin(rows, other, m, seesMoney);
      }
    }
  }

  lemma OneTwin(rows: seq<Metric>, other: seq<Metric>, m: Metric, seesMoney: bool)
    requires DistinctKeys(rows) && multiset(other) == multiset(rows)
    requires forall j: nat :: FirstShared(rows, m, seesMoney, j) ==> |Claimants(rows, m, seesMoney, j)| == 1
    ensures TwinOf(other, m, seesMoney) == TwinOf(rows, m, seesMoney)
  {
    SameClaimants(rows, other, m, seesMoney);
    var j := FirstSharedOrNone(rows, m, seesMoney, 0);
    if j < |m.Names()| {
      TwinAtFirstShared(rows, m, seesMoney, j);
      TwinAtFirstShared(other, m, seesMoney, j);
      var keys := Claimants(rows, m, seesMoney, j);
      OnlyElement(keys, TwinOf(rows, m, seesMoney).value, TwinOf(other, m, seesMoney).value);
    } else {
      NoneBefore(rows, m, seesMoney, j);
      NoneBefore(other, m, seesMoney, j);
      assert m.Names()[..j] == m.Names();
      FirstIn(TwinOrder(rows, m.Names()), Usable(Table(rows), seesMoney));
      FirstIn(TwinOrder(other, m.Names()), Usable(Table(rows), seesMoney));
    }
  }

  lemma OnlyElement(keys: set<string>, a: string, b: string)
    requires |keys| == 1 && a in keys && b in keys
    ensures a == b
  {
    assert |keys - {a}| == 0;
    assert b !in keys - {a};
  }

  lemma Another(keys: set<string>, a: string) returns (b: string)
    requires a in keys && |keys| != 1
    ensures b in keys && b != a
  {
    var others := keys - {a};
    assert keys == others + {a};
    assert others != {};
    b :| b in others;
  }

  lemma {:induction false} FirstSharedOrNone(rows: seq<Metric>, m: Metric, seesMoney: bool, i: nat) returns (j: nat)
    requires i <= |m.Names()| && forall x :: 0 <= x < i ==> Claimants(rows, m, seesMoney, x) == {}
    ensures j <= |m.Names()| && forall x :: 0 <= x < j ==> Claimants(rows, m, seesMoney, x) == {}
    ensures j < |m.Names()| ==> FirstShared(rows, m, seesMoney, j)
    decreases |m.Names()| - i
  {
    if i < |m.Names()| && Claimants(rows, m, seesMoney, i) == {} {
      j := FirstSharedOrNone(rows, m, seesMoney, i + 1);
    } else {
      j := i;
    }
  }

  const SALES := Metric("m", "s", "money", "HOD", [])
  const VISITS := Metric("a", "s", "volume", "EXEC", [])
  const UNITS := Metric("b", "s", "volume", "EXEC", [])

  /** Two volume metrics named like a money metric: the one listed first is reported. */
  lemma TwinDependsOnOrder()
    ensures TwinOf([SALES, VISITS, UNITS], SALES, false) == Some("a")
    ensures TwinOf([SALES, UNITS, VISITS], SALES, false) == Some("b")
  {
    TwinOfThree(VISITS, UNITS);
    TwinOfThree(UNITS, VISITS);
  }

  lemma OneNameList(m: Metric)
    requires m.name == "s" && m.synonyms == []
    ensures MetricList(m, "s") == [m.key] && Normalize("s") == "s"
  {
    assert Lower("s") == "s" && "s"[1..] == "";
    assert m.Names() == ["s"];
    assert ListUpTo(m, 1, "s") == ListUpTo(m, 0, "s") + [m.key];
  }

  lemma TableOfThree(a: Metric, b: Metric, c: Metric)
    requires a.key != b.key && c.key != a.key && c.key != b.key
    ensures a.key in Table([a, b, c]) && Table([a, b, c])[a.key] == a
    ensures b.key in Table([a, b, c]) && Table([a, b, c])[b.key] == b
  {
    assert [a, b, c][..2] == [a, b] && [a, b][..1] == [a];
    assert Table([a, b]) == Table([a])[b.key := b];
    assert Table([a, b, c]) == Table([a, b])[c.key := c];
  }

  lemma TwinOfThree(x: Metric, y: Metric)
    requires x.name == y.name == "s" && x.synonyms == y.synonyms == []
    requires x.key != y.key && x.key != "m" && y.key != "m" && x.minRole == "EXEC" && !x.NeedsMoney()
    ensures TwinOf([SALES, x, y], SALES, false) == Some(x.key)
  {
    var rows := [SALES, x, y];
    assert rows[..2] == [SALES, x] && [SALES, x][..1] == [SALES] && [SALES][..0] == [];
    OneNameList(SALES);
    OneNameList(x);
    OneNameList(y);
    assert ClaimList([SALES], "s") == ["m"];
    assert ClaimList([SALES, x], "s") == ["m", x.key];
    assert ClaimList(rows, "s") == ["m", x.key, y.key];
    var names := SALES.Names();
    assert names == ["s"] && names[..0] == [];
    assert TwinOrder(rows, names) == ["m", x.key, y.key];
    TableOfThree(SALES, x, y);
    var p := Usable(Table(rows), false);
    assert !p("m") && p(x.key);
    FirstAfter(["m"], [x.key, y.key], p);
    assert ["m"] + [x.key, y.key] == ["m", x.key, y.key];
  }

  /** When the registry matches anything for an HOD, a tie goes to a money metric if one is in it. */
  lemma HodGetsMoneyOnATie(rows: seq<Metric>, phrase: string, r: Option<Metric>, k: string)
    requires Resolved(rows, phrase, true, r) && Normalize(phrase) != "" && "" !in Table(rows)
    requires k in MoneyKeys(Table(rows), Tied(Claims(rows), Table(rows).Keys, Normalize(phrase)))
    ensures r.Some? && r.value.NeedsMoney()
  {
    assert Allowed(Table(rows), true) == Table(rows).Keys;
    var tied := Tied(Claims(rows), Table(rows).Keys, Normalize(phrase));
    var key :| Matched(Table(rows), Claims(rows), Table(rows).Keys, Normalize(phrase), true, key)
               && r == Lookup(Table(rows), key);
    assert key.Some? && key.value in MoneyKeys(Table(rows), tied);
  }
}
