/** What the money names mean, read off the tree: which columns an expression reads, and where it divides. */
module MoneyMeaning {
  import opened Seqs
  import opened SqlAst
  import opened MoneyUnits
  import opened MoneyRatios

  ghost predicate ColumnAt(e: Node, q: Path, names: set<string>) {
    Valid(e, q) && At(e, q).kind.Column? && At(e, q).kind.name in names
  }

  /** A column of one of these names stands somewhere in the expression. */
  ghost predicate ReadsAny(e: Node, names: set<string>) { exists q :: ColumnAt(e, q, names) }

  ghost predicate DividesAt(e: Node, q: Path, names: set<string>) {
    Valid(e, q) && At(e, q).kind.Div? && |At(e, q).kids| == 2
    && ReadsAny(At(e, q).kids[0], names) && ReadsAny(At(e, q).kids[1], names)
  }

  /** Somewhere in the expression both sides of a division read one. */
  ghost predicate Ratio(e: Node, names: set<string>) { exists q :: DividesAt(e, q, names) }

  ghost predicate ProjectsAt(t: Node, s: Path, i: nat, e: Node) {
    && Valid(t, s) && At(t, s).kind.Select? && At(t, s).kind.projections <= |At(t, s).kids|
    && i < At(t, s).kind.projections && At(t, s).kids[i] == e
  }

  /** Some SELECT of the query projects e under the name x: an alias, or a bare column of that name. */
  ghost predicate Projects(t: Node, e: Node, x: string) {
    && x != "" && (exists s, i :: ProjectsAt(t, s, i, e))
    && (e.kind == Alias(x) || (e.kind.Column? && e.kind.name == x))
  }

  // ------------------------------------------------------------------
  // The recursive tests say just that
  // ------------------------------------------------------------------

  lemma {:induction false} TouchesIff(n: Node, names: set<string>)
    ensures TouchesMoney(n, names) <==> ReadsAny(n, names)
  {
    forall i | 0 <= i < |n.kids| ensures TouchesMoney(n.kids[i], names) <==> ReadsAny(n.kids[i], names) {
      TouchesIff(n.kids[i], names);
    }
    if i, q :| 0 <= i < |n.kids| && ColumnAt(n.kids[i], q, names) {
      assert ([i] + q)[1..] == q;
      assert ColumnAt(n, [i] + q, names);
    }
    if q :| ColumnAt(n, q, names) {
      if q != [] { assert ColumnAt(n.kids[q[0]], q[1..], names); }
    }
    if n.kind.Column? && n.kind.name in names { assert ColumnAt(n, [], names); }
  }

  lemma RatioIff(n: Node, names: set<string>)
    ensures IsDimensionless(n, names) <==> Ratio(n, names)
  {
    RatioIffDivides(n, names);
    forall q | Valid(n, q) && |At(n, q).kids| == 2 ensures Divides(n, q, names) <==> DividesAt(n, q, names) {
      TouchesIff(At(n, q).kids[0], names);
      TouchesIff(At(n, q).kids[1], names);
    }
  }

  lemma ProjectionsAre(t: Node, e: Node)
    ensures e in Projections(t) <==> exists s, i :: ProjectsAt(t, s, i, e)
  {
    var ps := Positions(t);
    FlatMapMember(OwnProjections(t), ps, e);
    if k :| 0 <= k < |ps| && e in OwnProjections(t)(ps[k]) {
      var i :| 0 <= i < |OwnProjections(t)(ps[k])| && OwnProjections(t)(ps[k])[i] == e;
      assert ProjectsAt(t, ps[k], i, e);
    }
    if s, i: nat :| ProjectsAt(t, s, i, e) {
      PositionsAreAll(t, s);
      var k :| 0 <= k < |ps| && ps[k] == s;
      assert OwnProjections(t)(s)[i] == e;
    }
  }

  lemma ProjectsIff(t: Node, e: Node, x: string)
    ensures Projects(t, e, x) <==> x != "" && e in Projections(t) && OutputName(e) == x
  {
    ProjectionsAre(t, e);
  }

  // ------------------------------------------------------------------
  // What the result is
  // ------------------------------------------------------------------

  /** Every projection that reads one of the names is itself among them. */
  ghost predicate CarriedOn(t: Node, names: set<string>) {
    forall e, x :: Projects(t, e, x) && ReadsAny(e, names) ==> x in names
  }

  lemma {:induction false} PassWithin(t: Node, ps: seq<Node>, money: set<string>, names: set<string>)
    requires (forall e :: e in ps ==> e in Projections(t)) && money <= names && CarriedOn(t, names)
    ensures Pass(ps, money) <= names
  {
    if ps != [] {
      var init, e := ps[..|ps| - 1], ps[|ps| - 1];
      PassWithin(t, init, money, names);
      if Adds(e, Pass(init, money)) {
        assert e in ps;
        TouchesMore(e, Pass(init, money), names);
        TouchesIff(e, names);
        ProjectsIff(t, e, OutputName(e));
      }
    }
  }

  /** Whatever carries money on holds the money names: no name is added without need. */
  lemma {:induction false} MoneyWithin(t: Node, currency: set<string>, k: nat, names: set<string>)
    requires currency <= names && CarriedOn(t, names)
    ensures Passes(Projections(t), currency, k) <= names
  {
    if k > 0 {
      MoneyWithin(t, currency, k - 1, names);
      PassWithin(t, Projections(t), Passes(Projections(t), currency, k - 1), names);
    }
  }

  /** A name added is that of a projection which reads one, and none added before any pass is lost. */
  lemma MoneyHasReason(t: Node, currency: set<string>, k: nat, x: string)
    requires x in Passes(Projections(t), currency, k)
    ensures x in currency || exists e :: Projects(t, e, x) && ReadsAny(e, Passes(Projections(t), currency, k))
  {
    var ps, money := Projections(t), Passes(Projections(t), currency, k);
    if x !in currency {
      ReasonInPasses(ps, currency, k, x);
      var e :| e in ps && OutputName(e) == x && x != "" && TouchesMoney(e, money);
      TouchesIff(e, money);
      ProjectsIff(t, e, x);
    }
  }

  lemma {:induction false} ReasonInPass(ps: seq<Node>, money: set<string>, x: string)
    requires x in Pass(ps, money) && x !in money
    ensures exists e :: e in ps && OutputName(e) == x && x != "" && TouchesMoney(e, Pass(ps, money))
  {
    var init, e := ps[..|ps| - 1], ps[|ps| - 1];
    var m := Pass(init, money);
    if x in m {
      ReasonInPass(init, money, x);
      var o :| o in init && OutputName(o) == x && x != "" && TouchesMoney(o, m);
      TouchesMore(o, m, Pass(ps, money));
      assert o in ps;
    } else {
      TouchesMore(e, m, Pass(ps, money));
      assert e in ps;
    }
  }

  lemma {:induction false} ReasonInPasses(ps: seq<Node>, currency: set<string>, k: nat, x: string)
    requires x in Passes(ps, currency, k) && x !in currency
    ensures exists e :: e in ps && OutputName(e) == x && x != "" && TouchesMoney(e, Passes(ps, currency, k))
  {
    var m := Passes(ps, currency, k - 1);
    if x in m {
      ReasonInPasses(ps, currency, k - 1, x);
      var o :| o in ps && OutputName(o) == x && x != "" && TouchesMoney(o, m);
      PassGrows(ps, m);
      TouchesMore(o, m, Pass(ps, m));
    } else {
      ReasonInPass(ps, m, x);
    }
  }

  /**
   * With at most eight names beyond the declared columns: a declared column is money, so is the name of
   * every projection that reads money without dividing money by money, and every other name called
   * money is at least that of a projection which reads some.
   */
  lemma MoneyMeans(t: Node, currency: set<string>, x: string)
    requires |Named(Projections(t)) - currency| <= 8
    ensures var money := Passes(Projections(t), currency, PassLimit());
            && (x in currency || (exists e :: Projects(t, e, x) && ReadsAny(e, money) && !Ratio(e, money))
                ==> x in money)
            && (x in money ==> x in currency || exists e :: Projects(t, e, x) && ReadsAny(e, money))
  {
    var ps, money := Projections(t), Passes(Projections(t), currency, PassLimit());
    PassesGrow(ps, currency, 0, PassLimit());
    if x in money { MoneyHasReason(t, currency, PassLimit(), x); }
    if e :| Projects(t, e, x) && ReadsAny(e, money) && !Ratio(e, money) {
      ProjectsIff(t, e, x);
      TouchesIff(e, money);
      RatioIff(e, money);
      var i :| 0 <= i < |ps| && ps[i] == e;
      ClosedWithinBound(ps, currency);
    }
  }

  /** Where no projection divides money by money, the money names are the least that carry money on. */
  lemma MoneyIsLeast(t: Node, currency: set<string>, names: set<string>)
    requires |Named(Projections(t)) - currency| <= 8
    requires forall e, x :: Projects(t, e, x) ==> !Ratio(e, Passes(Projections(t), currency, PassLimit()))
    requires currency <= names && CarriedOn(t, names)
    ensures var money := Passes(Projections(t), currency, PassLimit());
            currency <= money <= names && CarriedOn(t, money)
  {
    var money := Passes(Projections(t), currency, PassLimit());
    MoneyWithin(t, currency, PassLimit(), names);
    PassesGrow(Projections(t), currency, 0, PassLimit());
    forall e, x | Projects(t, e, x) && ReadsAny(e, money) ensures x in money {
      MoneyMeans(t, currency, x);
    }
  }
}
