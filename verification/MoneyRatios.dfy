/**
 * Which of the names called money are ratios of money to money: those whose division met an operand
 * that became money only later.
 */
module MoneyRatios {
  import opened Seqs
  import opened SqlAst
  import opened MoneyUnits

  function Final(ps: seq<Node>, currency: set<string>): set<string> { Passes(ps, currency, PassLimit()) }

  /** Of all the names that count as money in the end, every projection of x that reads one is a ratio of two. */
  ghost predicate WronglyMoney(ps: seq<Node>, money: set<string>, x: string) {
    forall n :: n in ps && OutputName(n) == x && TouchesMoney(n, money) ==> IsDimensionless(n, money)
  }

  /** The money names when pass k + 1 comes to projection i. */
  function Before(ps: seq<Node>, currency: set<string>, k: nat, i: nat): set<string>
    requires i <= |ps|
  {
    Pass(ps[..i], Passes(ps, currency, k))
  }

  /** Pass k + 1 adds the name of projection i. */
  ghost predicate AddedAt(ps: seq<Node>, currency: set<string>, k: nat, i: nat) {
    k < PassLimit() && i < |ps| && Adds(ps[i], Before(ps, currency, k, i))
  }

  ghost predicate Divides(n: Node, q: Path, money: set<string>) {
    Valid(n, q) && At(n, q).kind.Div? && |At(n, q).kids| == 2
    && TouchesMoney(At(n, q).kids[0], money) && TouchesMoney(At(n, q).kids[1], money)
  }

  /** A division of money by money in the end, which was none yet. */
  ghost predicate LateDivision(n: Node, q: Path, early: set<string>, late: set<string>) {
    Divides(n, q, late) && !Divides(n, q, early)
  }

  lemma {:induction false} RatioIffDivides(n: Node, money: set<string>)
    ensures IsDimensionless(n, money) <==> exists q :: Divides(n, q, money)
  {
    forall i | 0 <= i < |n.kids|
      ensures IsDimensionless(n.kids[i], money) <==> exists q :: Divides(n.kids[i], q, money)
    {
      RatioIffDivides(n.kids[i], money);
    }
    if i, q :| 0 <= i < |n.kids| && Divides(n.kids[i], q, money) {
      assert ([i] + q)[1..] == q;
      assert Divides(n, [i] + q, money);
    }
    if q :| Divides(n, q, money) {
      if q != [] { assert Divides(n.kids[q[0]], q[1..], money); }
    }
    if n.kind.Div? && |n.kids| == 2 && TouchesMoney(n.kids[0], money) && TouchesMoney(n.kids[1], money) {
      assert Divides(n, [], money);
    }
  }

  lemma {:induction false} TouchesMore(n: Node, few: set<string>, more: set<string>)
    requires TouchesMoney(n, few) && few <= more
    ensures TouchesMoney(n, more)
  {
    if !(n.kind.Column? && n.kind.name in few) {
      var i :| 0 <= i < |n.kids| && TouchesMoney(n.kids[i], few);
      TouchesMore(n.kids[i], few, more);
    }
  }

  /** One operand of a late division reads only names that became money later. */
  lemma LateOperand(n: Node, q: Path, early: set<string>, late: set<string>) returns (side: nat, c: string)
    requires LateDivision(n, q, early, late)
    ensures side < 2 && c in late - early && Mentions(At(n, q).kids[side], c)
    ensures !TouchesMoney(At(n, q).kids[side], early)
  {
    side := if TouchesMoney(At(n, q).kids[0], early) then 1 else 0;
    c := TouchesByName(At(n, q).kids[side], late);
    if c in early { TouchesMore(At(n, q).kids[side], {c}, early); }
  }

  lemma PassPrefix(ps: seq<Node>, i: nat, money: set<string>)
    requires i < |ps|
    ensures Pass(ps[..i + 1], money)
         == Pass(ps[..i], money) + if Adds(ps[i], Pass(ps[..i], money)) then {OutputName(ps[i])} else {}
  {
    assert ps[..i + 1][..i] == ps[..i];
  }

  lemma {:induction false} AddedInPass(ps: seq<Node>, money: set<string>, j: nat, x: string) returns (i: nat)
    requires j <= |ps| && x in Pass(ps[..j], money) && x !in money
    ensures i < j && OutputName(ps[i]) == x && Adds(ps[i], Pass(ps[..i], money))
  {
    PassPrefix(ps, j - 1, money);
    if x in Pass(ps[..j - 1], money) { i := AddedInPass(ps, money, j - 1, x); } else { i := j - 1; }
  }

  /** Every name beyond the declared columns was added at some point. */
  lemma {:induction false} AddedSomewhere(ps: seq<Node>, currency: set<string>, n: nat, x: string)
    returns (k: nat, i: nat)
    requires n <= PassLimit() && x in Passes(ps, currency, n) && x !in currency
    ensures AddedAt(ps, currency, k, i) && OutputName(ps[i]) == x
  {
    if x in Passes(ps, currency, n - 1) {
      k, i := AddedSomewhere(ps, currency, n - 1, x);
    } else {
      k := n - 1;
      assert ps[..|ps|] == ps;
      i := AddedInPass(ps, Passes(ps, currency, n - 1), |ps|, x);
    }
  }

  lemma {:induction false} PrefixGrows(ps: seq<Node>, money: set<string>, i: nat, j: nat)
    requires i <= j <= |ps|
    ensures Pass(ps[..i], money) <= Pass(ps[..j], money)
  {
    if i < j {
      PassPrefix(ps, j - 1, money);
      PrefixGrows(ps, money, i, j - 1);
    }
  }

  lemma BeforeFinal(ps: seq<Node>, currency: set<string>, k: nat, i: nat)
    requires AddedAt(ps, currency, k, i)
    ensures Before(ps, currency, k, i) <= Final(ps, currency) && OutputName(ps[i]) in Final(ps, currency)
  {
    var money := Passes(ps, currency, k);
    PrefixGrows(ps, money, i, |ps|);
    PrefixGrows(ps, money, i + 1, |ps|);
    PassPrefix(ps, i, money);
    assert ps[..|ps|] == ps;
    assert Passes(ps, currency, k + 1) == Pass(ps, money);
    PassesGrow(ps, currency, k + 1, PassLimit());
  }

  /** A name added for a projection is a ratio in the end exactly when some division of it is late. */
  lemma RatioIffLate(ps: seq<Node>, currency: set<string>, k: nat, i: nat)
    requires AddedAt(ps, currency, k, i)
    ensures TouchesMoney(ps[i], Final(ps, currency))
    ensures IsDimensionless(ps[i], Final(ps, currency)) <==>
            exists q :: LateDivision(ps[i], q, Before(ps, currency, k, i), Final(ps, currency))
  {
    var early, late := Before(ps, currency, k, i), Final(ps, currency);
    BeforeFinal(ps, currency, k, i);
    TouchesMore(ps[i], early, late);
    RatioIffDivides(ps[i], early);
    RatioIffDivides(ps[i], late);
    if q :| Divides(ps[i], q, late) { assert LateDivision(ps[i], q, early, late); }
  }

  /**
   * A name of one projection is wrongly called money exactly when, as the name was added, an operand of
   * one of its divisions read no money name yet and reads one in the end.
   */
  lemma WronglyMoneyIff(ps: seq<Node>, currency: set<string>, k: nat, i: nat)
    requires AddedAt(ps, currency, k, i) && forall n :: n in ps && OutputName(n) == OutputName(ps[i]) ==> n == ps[i]
    ensures WronglyMoney(ps, Final(ps, currency), OutputName(ps[i])) <==>
            exists q :: LateDivision(ps[i], q, Before(ps, currency, k, i), Final(ps, currency))
  {
    RatioIffLate(ps, currency, k, i);
    assert ps[i] in ps;
  }

  /** Any name wrongly called money, of however many projections, met a late division when it was added. */
  lemma WronglyMoneyIsLate(ps: seq<Node>, currency: set<string>, x: string) returns (k: nat, i: nat, q: Path)
    requires x in Final(ps, currency) && x !in currency && WronglyMoney(ps, Final(ps, currency), x)
    ensures AddedAt(ps, currency, k, i) && OutputName(ps[i]) == x
    ensures LateDivision(ps[i], q, Before(ps, currency, k, i), Final(ps, currency))
  {
    k, i := AddedSomewhere(ps, currency, PassLimit(), x);
    RatioIffLate(ps, currency, k, i);
    assert ps[i] in ps;
    q :| LateDivision(ps[i], q, Before(ps, currency, k, i), Final(ps, currency));
  }

  // ------------------------------------------------------------------
  // SELECT gmv_amount / b AS share FROM (SELECT gmv_amount, gross_sales_amount AS b FROM ..) s
  // ------------------------------------------------------------------

  const GMV := Node(Column("", "gmv_amount"), [])
  const GROSS := Node(Column("", "gross_sales_amount"), [])
  const B := Node(Column("", "b"), [])
  const SHARE := Node(Alias("share"), [Node(Div, [GMV, B])])
  const GROSS_AS_B := Node(Alias("b"), [GROSS])
  const FACTS := Node(Other("from"), [Node(Table("fact_sales_daily"), [])])
  const INNER := Node(Select(2), [GMV, GROSS_AS_B, FACTS])
  const SOURCE := Node(Other("from"), [Node(Other("subquery"), [INNER])])
  const SHARE_QUERY := Node(Select(1), [SHARE, SOURCE])

  predicate NoSelect(n: Node) { !n.kind.Select? && forall i :: 0 <= i < |n.kids| ==> NoSelect(n.kids[i]) }

  lemma {:induction false} NoSelectNoProjections(n: Node, k: nat)
    requires NoSelect(n)
    ensures LevelProjections(n, k) == []
    decreases k, n, 0
  {
    if k > 0 { NoneInAll(n.kids, k - 1); }
  }

  lemma {:induction false} NoneInAll(ns: seq<Node>, k: nat)
    requires forall i :: 0 <= i < |ns| ==> NoSelect(ns[i])
    ensures AllLevelProjections(ns, k) == []
    decreases k, ns, 1
  {
    if ns != [] {
      NoneInAll(ns[..|ns| - 1], k);
      NoSelectNoProjections(ns[|ns| - 1], k);
    }
  }

  lemma ShareParts()
    ensures NoSelect(SHARE) && NoSelect(GMV) && NoSelect(GROSS_AS_B) && NoSelect(FACTS)
  {
    assert NoSelect(B) && NoSelect(GROSS) && NoSelect(SHARE.kids[0]) && NoSelect(FACTS.kids[0]);
  }

  lemma InnerLevels(k: nat)
    ensures LevelProjections(INNER, 0) == [GMV, GROSS_AS_B] && LevelProjections(INNER, k + 1) == []
  {
    ShareParts();
    assert INNER.kids[..2] == [GMV, GROSS_AS_B];
    NoneInAll(INNER.kids, k);
  }

  lemma SourceLevels(k: nat)
    ensures LevelProjections(SOURCE, 0) == LevelProjections(SOURCE, 1) == []
    ensures LevelProjections(SOURCE, k + 2) == LevelProjections(INNER, k)
  {
    var sub := SOURCE.kids[0];
    SingleKid(Other("from"), sub, 0);
    SingleKid(Other("from"), sub, k + 1);
    SingleKid(Other("subquery"), INNER, k);
  }

  lemma OuterLevel(k: nat)
    ensures LevelProjections(SHARE_QUERY, 0) == [SHARE]
    ensures LevelProjections(SHARE_QUERY, k + 1) == LevelProjections(SOURCE, k)
  {
    var kids := SHARE_QUERY.kids;
    ShareParts();
    assert kids[..1] == [SHARE] && [SHARE][..0] == [];
    NoSelectNoProjections(SHARE, k);
    assert AllLevelProjections([SHARE], k) == AllLevelProjections([], k) + LevelProjections(SHARE, k) == [];
    assert AllLevelProjections(kids, k) == AllLevelProjections([SHARE], k) + LevelProjections(SOURCE, k);
  }

  lemma {:induction false} ShareUpto(n: nat)
    requires n >= 4
    ensures UptoLevel(SHARE_QUERY, n) == [SHARE, GMV, GROSS_AS_B]
  {
    UptoStep(SHARE_QUERY, n - 1);
    OuterLevel(n - 2);
    SourceLevels(n - 4);
    if n == 4 {
      FirstLevels();
      InnerLevels(0);
    } else {
      ShareUpto(n - 1);
      InnerLevels(n - 5);
    }
  }

  lemma FirstLevels()
    ensures UptoLevel(SHARE_QUERY, 3) == [SHARE]
  {
    UptoStep(SHARE_QUERY, 0);
    UptoStep(SHARE_QUERY, 1);
    UptoStep(SHARE_QUERY, 2);
    OuterLevel(0);
    OuterLevel(1);
    SourceLevels(0);
  }

  /** The outer SELECT's projection comes before the name it divides by. */
  lemma ShareProjections()
    ensures Projections(SHARE_QUERY) == [SHARE, GMV, GROSS_AS_B]
  {
    var t := SHARE_QUERY;
    KidHeight(t.kids, 1);
    KidHeight(SOURCE.kids, 0);
    KidHeight(SOURCE.kids[0].kids, 0);
    KidHeight(INNER.kids, 0);
    assert Height(t) >= 4;
    ProjectionsByLevel(t, Height(t));
    ShareUpto(Height(t));
  }

  lemma SharePieces(money: set<string>)
    ensures TouchesMoney(SHARE, money) <==> "gmv_amount" in money || "b" in money
    ensures IsDimensionless(SHARE, money) <==> "gmv_amount" in money && "b" in money
    ensures TouchesMoney(GROSS_AS_B, money) <==> "gross_sales_amount" in money
    ensures !IsDimensionless(GROSS_AS_B, money)
  {
    var div := SHARE.kids[0];
    assert TouchesMoney(GMV, money) <==> "gmv_amount" in money;
    assert TouchesMoney(B, money) <==> "b" in money;
    assert TouchesMoney(GROSS, money) <==> "gross_sales_amount" in money;
    assert div.kids[0] == GMV && div.kids[1] == B && GROSS_AS_B.kids[0] == GROSS;
    assert TouchesMoney(GROSS_AS_B, money) <==> TouchesMoney(GROSS, money);
    assert TouchesMoney(div, money) <==> TouchesMoney(GMV, money) || TouchesMoney(B, money);
    assert !IsDimensionless(GMV, money) && !IsDimensionless(B, money) && !IsDimensionless(GROSS, money);
  }

  const DECLARED: set<string> := {"gmv_amount", "gross_sales_amount"}

  /** A share of money in money is called money, because its divisor is not yet money when it is visited. */
  lemma ShareIsWronglyMoney()
    ensures var ps := Projections(SHARE_QUERY);
            "share" in Final(ps, DECLARED) && WronglyMoney(ps, Final(ps, DECLARED), "share")
  {
    var ps := [SHARE, GMV, GROSS_AS_B];
    ShareProjections();
    ShareAdded(ps);
    var final := Final(ps, DECLARED);
    SharePieces(final);
    forall n | n in ps && OutputName(n) == "share" ensures n == SHARE {
    }
  }

  lemma ShareAdded(ps: seq<Node>)
    requires ps == [SHARE, GMV, GROSS_AS_B]
    ensures {"share", "b", "gmv_amount"} <= Final(ps, DECLARED)
  {
    assert ps[..0] == [] && Passes(ps, DECLARED, 0) == DECLARED;
    SharePieces(DECLARED);
    assert AddedAt(ps, DECLARED, 0, 0);
    BeforeFinal(ps, DECLARED, 0, 0);
    PassPrefix(ps, 0, DECLARED);
    PassPrefix(ps, 1, DECLARED);
    var m := DECLARED + {"share"};
    SharePieces(m);
    assert Before(ps, DECLARED, 0, 2) == m;
    assert AddedAt(ps, DECLARED, 0, 2);
    BeforeFinal(ps, DECLARED, 0, 2);
  }
}
