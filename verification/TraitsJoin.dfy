/** Joining the OpCo view and the traits view on customer and month: which side a row can repeat on. */
module TraitsJoin {
  import opened Wrappers
  import opened Seqs
  import opened SqlAst
  import opened Repeats

  const OPCO := "v_customer_opco_monthly"
  const TRAITS := "v_customer_traits_monthly"
  const ON_KEYS := Node(Predicate(OtherPredicate), [])

  /** A row starts with customer_key and month_start_date. */
  predicate SameKey(x: Row, y: Row) {
    |x| >= 2 && |y| >= 2 && x[0].Some? && x[1].Some? && x[0] == y[0] && x[1] == y[1]
  }

  /** ON l.customer_key = r.customer_key AND l.month_start_date = r.month_start_date. */
  ghost function ByKeys(): Meaning {
    (n: Node, scope: Scope, subs: seq<set<Row>>, aggs: seq<Option<int>>) =>
      if scope == [] then None else Some(if OnKeys(scope[|scope| - 1]) then 1 else 0)
  }

  predicate OnKeys(z: Joined) { |z| == 2 && z[0].Some? && z[1].Some? && SameKey(z[0].value, z[1].value) }

  function OnBoth(left: string, right: string): From {
    Joining(Base(left), Base(right), Some(Cond(ON_KEYS, [])), false)
  }

  ghost function Joins(left: string, right: string, db: Contents): seq<Joined> {
    Sources(OnBoth(left, right), ByKeys(), db, [])
  }

  function LeftRow(): Joined -> Row { (z: Joined) => if z != [] && z[0].Some? then z[0].value else [] }

  function Matching(x: Row): Row -> bool { (y: Row) => SameKey(x, y) }
  ghost function HasMatch(right: seq<Row>): Row -> bool { (x: Row) => Filter(Matching(x), right) != [] }

  /** The join repeats no row of its left table: each one with a match appears once. */
  ghost predicate NoFanOut(left: string, right: string, db: Contents) {
    Map(LeftRow(), Joins(left, right, db)) == Filter(HasMatch(db(right)), db(left))
  }

  ghost predicate MatchedTwice(x: Row, right: seq<Row>) {
    exists i, j :: 0 <= i < j < |right| && SameKey(x, right[i]) && SameKey(x, right[j])
  }

  /** No left row has two matches. */
  ghost predicate OneMatchEach(left: seq<Row>, right: seq<Row>) { forall x :: x in left ==> !MatchedTwice(x, right) }

  /** PRIMARY KEY (customer_key, month_start_date). */
  ghost predicate Keyed(rows: seq<Row>) { forall i, j :: 0 <= i < j < |rows| ==> !SameKey(rows[i], rows[j]) }

  ghost function OnTest(db: Contents): Joined -> bool { Test(Some(Cond(ON_KEYS, [])), ByKeys(), db, []) }

  lemma TestIsOnKeys(db: Contents, z: Joined)
    ensures OnTest(db)(z) <==> OnKeys(z)
  {
    var scope: Scope := [z];
    assert [] + [z] == scope;
  }

  function Paired(x: Row): Row -> Joined { (y: Row) => [Some(x), Some(y)] }

  lemma BesideAlone(x: Row, right: seq<Row>)
    ensures Map(Beside([Some(x)]), Map(Alone(), right)) == Map(Paired(x), right)
  {
    var all := Map(Beside([Some(x)]), Map(Alone(), right));
    forall i | 0 <= i < |right| ensures all[i] == Map(Paired(x), right)[i] {
      assert [Some(x)] + [Some(right[i])] == [Some(x), Some(right[i])];
    }
  }

  /** One left row joins with the rows that match it. */
  lemma PairsOfRow(x: Row, right: seq<Row>, db: Contents)
    ensures PairsOf(OnTest(db), [Some(x)], Map(Alone(), right), []) == Map(Paired(x), Filter(Matching(x), right))
  {
    BesideAlone(x, right);
    FilterMap(OnTest(db), Paired(x), right);
    forall y | y in right ensures After(OnTest(db), Paired(x))(y) == Matching(x)(y) {
      TestIsOnKeys(db, [Some(x), Some(y)]);
    }
    FilterCong(After(OnTest(db), Paired(x)), Matching(x), right);
    var none: seq<Joined> := [];
    assert Map(Beside([Some(x)]), none) == [];
  }

  /** The left rows of the join of a list of left rows. */
  ghost function LeftsOf(left: seq<Row>, right: seq<Row>): seq<Row> {
    if left == [] then []
    else LeftsOf(left[..|left| - 1], right) + Times(left[|left| - 1], |Filter(Matching(left[|left| - 1]), right)|)
  }

  function Times(x: Row, n: nat): seq<Row> { seq(n, _ => x) }

  lemma LeftsOfPairs(x: Row, right: seq<Row>, db: Contents)
    ensures Map(LeftRow(), PairsOf(OnTest(db), [Some(x)], Map(Alone(), right), []))
         == Times(x, |Filter(Matching(x), right)|)
  {
    PairsOfRow(x, right, db);
    LeftsOfPaired(x, Filter(Matching(x), right));
  }

  lemma {:induction false} LeftsOfPaired(x: Row, ys: seq<Row>)
    ensures Map(LeftRow(), Map(Paired(x), ys)) == Times(x, |ys|)
  {
    if ys != [] {
      var init, y := ys[..|ys| - 1], ys[|ys| - 1];
      LeftsOfPaired(x, init);
      MapAppend(LeftRow(), Map(Paired(x), init), [Paired(x)(y)]);
      LeftOfPaired(x, y);
    }
  }

  lemma LeftOfPaired(x: Row, y: Row)
    ensures Map(LeftRow(), [Paired(x)(y)]) == [x]
  {
    var z := Paired(x)(y);
    assert z == [Some(x), Some(y)] && LeftRow()(z) == x;
    assert Map(LeftRow(), [z])[0] == x;
  }

  ghost function Pairing(right: seq<Row>, db: Contents): Joined -> seq<Joined> {
    Pairs(OnTest(db), Map(Alone(), right), [])
  }

  lemma {:induction false} JoinsLefts(left: seq<Row>, right: seq<Row>, db: Contents)
    ensures Map(LeftRow(), FlatMap(Pairing(right, db), Map(Alone(), left))) == LeftsOf(left, right)
  {
    if left != [] {
      var init, x, f := left[..|left| - 1], left[|left| - 1], Pairing(right, db);
      assert Map(Alone(), left)[..|left| - 1] == Map(Alone(), init);
      JoinsLefts(init, right, db);
      LeftsOfPairs(x, right, db);
      assert f([Some(x)]) == PairsOf(OnTest(db), [Some(x)], Map(Alone(), right), []);
      assert FlatMap(f, Map(Alone(), left)) == FlatMap(f, Map(Alone(), init)) + f([Some(x)]);
      MapAppend(LeftRow(), FlatMap(f, Map(Alone(), init)), f([Some(x)]));
    }
  }

  lemma JoinsAre(left: string, right: string, db: Contents)
    ensures Map(LeftRow(), Joins(left, right, db)) == LeftsOf(db(left), db(right))
  {
    JoinsLefts(db(left), db(right), db);
    var l, r := Base(left), Base(right);
    assert Sources(l, ByKeys(), db, []) == Map(Alone(), db(left));
    assert Sources(r, ByKeys(), db, []) == Map(Alone(), db(right)) && Missing(r, false) == [];
    assert Joins(left, right, db) == FlatMap(Pairing(db(right), db), Map(Alone(), db(left)));
  }

  lemma {:induction false} AtMostOneMatch(x: Row, right: seq<Row>)
    requires !MatchedTwice(x, right)
    ensures |Filter(Matching(x), right)| <= 1
  {
    if right != [] {
      var init, r := right[..|right| - 1], right[|right| - 1];
      forall i, j | 0 <= i < j < |init| ensures !(SameKey(x, init[i]) && SameKey(x, init[j])) {
        assert init[i] == right[i] && init[j] == right[j];
      }
      AtMostOneMatch(x, init);
      if SameKey(x, r) {
        forall y | y in init ensures !Matching(x)(y) {
          var i :| 0 <= i < |init| && init[i] == y;
          assert right[i] == y;
        }
        FilterNone(Matching(x), init);
      }
    }
  }

  lemma TwoMatches(x: Row, right: seq<Row>)
    requires MatchedTwice(x, right)
    ensures |Filter(Matching(x), right)| >= 2
  {
    var i, j :| 0 <= i < j < |right| && SameKey(x, right[i]) && SameKey(x, right[j]);
    assert right == right[..j] + right[j..];
    FilterAppend(Matching(x), right[..j], right[j..]);
    FilterMembers(Matching(x), right[..j]);
    FilterMembers(Matching(x), right[j..]);
    assert right[i] == right[..j][i] && right[i] in right[..j];
    assert right[j] == right[j..][0] && right[j] in right[j..];
  }

  lemma {:induction false} OnceEach(left: seq<Row>, right: seq<Row>)
    requires OneMatchEach(left, right)
    ensures LeftsOf(left, right) == Filter(HasMatch(right), left)
  {
    if left != [] {
      var init, x := left[..|left| - 1], left[|left| - 1];
      assert x in left && forall y :: y in init ==> y in left;
      OnceEach(init, right);
      AtMostOneMatch(x, right);
    }
  }

  lemma {:induction false} LeftsCount(left: seq<Row>, right: seq<Row>)
    ensures |Filter(HasMatch(right), left)| <= |LeftsOf(left, right)|
    ensures (exists x :: x in left && |Filter(Matching(x), right)| >= 2) ==>
              |Filter(HasMatch(right), left)| < |LeftsOf(left, right)|
  {
    if left != [] {
      var init, last := left[..|left| - 1], left[|left| - 1];
      LeftsCount(init, right);
      assert left == init + [last];
    }
  }

  /** A join repeats no row of its left table exactly when no left row has two matches. */
  lemma NoFanOutIff(left: string, right: string, db: Contents)
    ensures NoFanOut(left, right, db) <==> OneMatchEach(db(left), db(right))
  {
    JoinsAre(left, right, db);
    if OneMatchEach(db(left), db(right)) {
      OnceEach(db(left), db(right));
    } else {
      var x :| x in db(left) && MatchedTwice(x, db(right));
      TwoMatches(x, db(right));
      LeftsCount(db(left), db(right));
    }
  }

  /** Joining the traits view repeats no OpCo row, whatever the OpCo rows, exactly because its key is unique. */
  lemma TraitsJoinIff(traits: seq<Row>)
    ensures Keyed(traits) <==> forall db: Contents :: db(TRAITS) == traits ==> NoFanOut(OPCO, TRAITS, db)
  {
    if Keyed(traits) {
      forall db: Contents | db(TRAITS) == traits ensures NoFanOut(OPCO, TRAITS, db) {
        KeyedMatchesOnce(db(OPCO), traits);
        NoFanOutIff(OPCO, TRAITS, db);
      }
    } else {
      var db := RepeatedKeyFansOut(traits);
    }
  }

  lemma RepeatedKeyFansOut(traits: seq<Row>) returns (db: Contents)
    requires !Keyed(traits)
    ensures db(TRAITS) == traits && !NoFanOut(OPCO, TRAITS, db)
  {
    var i, j :| 0 <= i < j < |traits| && SameKey(traits[i], traits[j]);
    db := OneOpcoRow(traits[i], traits);
    assert db(TRAITS) == traits && db(OPCO) == [traits[i]];
    assert traits[i] in db(OPCO) && MatchedTwice(traits[i], traits);
    NoFanOutIff(OPCO, TRAITS, db);
  }

  function OneOpcoRow(row: Row, traits: seq<Row>): Contents { (t: string) => if t == TRAITS then traits else [row] }

  lemma KeyedMatchesOnce(left: seq<Row>, right: seq<Row>)
    requires Keyed(right)
    ensures OneMatchEach(left, right)
  {
    forall x, i, j | x in left && 0 <= i < j < |right| ensures !(SameKey(x, right[i]) && SameKey(x, right[j])) {
      assert !SameKey(right[i], right[j]);
    }
  }

  /** A customer in two OpCos: the documented "one row each side" fails on the traits side. */
  lemma TwoOpcosRepeatTraits(db: Contents)
    requires db(OPCO) == [[Some(7), Some(202506), Some(1)], [Some(7), Some(202506), Some(2)]]
    requires db(TRAITS) == [[Some(7), Some(202506)]]
    ensures Keyed(db(TRAITS)) && NoFanOut(OPCO, TRAITS, db) && !NoFanOut(TRAITS, OPCO, db)
  {
    NoFanOutIff(OPCO, TRAITS, db);
    NoFanOutIff(TRAITS, OPCO, db);
    assert db(TRAITS)[0] in db(TRAITS) && SameKey(db(TRAITS)[0], db(OPCO)[0]) && SameKey(db(TRAITS)[0], db(OPCO)[1]);
    assert MatchedTwice(db(TRAITS)[0], db(OPCO));
    assert Keyed(db(TRAITS));
    KeyedMatchesOnce(db(OPCO), db(TRAITS));
  }
}
