/** What a phrase resolves to, read off the registry's rows. */
module MetricMeaning {
  import opened Wrappers
  import opened Seqs
  import opened Ordering
  import opened TextUtils
  import opened MetricRegistry

  predicate IsMoney(m: Metric) { m.metricClass in {"money", "ratio_money"} }
  predicate MayUse(m: Metric, seesMoney: bool) { seesMoney || m.minRole != "HOD" }

  /** The metric's name or a synonym of it reads like this once normalised. */
  ghost predicate GoesBy(m: Metric, s: string) {
    s != "" && (Normalize(m.name) == s || exists i :: 0 <= i < |m.synonyms| && Normalize(m.synonyms[i]) == s)
  }

  /** A usable metric one of whose names occurs in the phrase. */
  ghost predicate Heard(rows: seq<Metric>, norm: string, seesMoney: bool, m: Metric, s: string) {
    m in rows && MayUse(m, seesMoney) && GoesBy(m, s) && exists before, after :: norm == before + s + after
  }

  /** A usable metric that goes by the phrase itself or, if none does, by a longest name heard in it. */
  ghost predicate Candidate(rows: seq<Metric>, norm: string, seesMoney: bool, m: Metric) {
    if exists o :: o in rows && MayUse(o, seesMoney) && GoesBy(o, norm)
    then m in rows && MayUse(m, seesMoney) && GoesBy(m, norm)
    else exists s :: Heard(rows, norm, seesMoney, m, s)
                     && forall o, u :: Heard(rows, norm, seesMoney, o, u) ==> |u| <= |s|
  }

  /** Money before volume for a caller who sees money, and then the key that comes first in the dictionary. */
  ghost predicate Preferable(m: Metric, o: Metric, seesMoney: bool) {
    if seesMoney && IsMoney(m) != IsMoney(o) then IsMoney(m) else Earlier(m.key, o.key)
  }

  ghost predicate Chosen(rows: seq<Metric>, norm: string, seesMoney: bool, m: Metric) {
    && Candidate(rows, norm, seesMoney, m)
    && forall o :: Candidate(rows, norm, seesMoney, o) && o != m ==> Preferable(m, o, seesMoney)
  }

  // ------------------------------------------------------------------
  // From the rows to the tables
  // ------------------------------------------------------------------

  ghost predicate Registry(rows: seq<Metric>) {
    DistinctKeys(rows) && forall m :: m in rows ==> m.key != ""
  }

  lemma ContainsIff(norm: string, s: string)
    ensures Contains(norm, s) <==> exists before, after :: norm == before + s + after
  {
    if i :| 0 <= i <= |norm| && OccursAt(norm, s, i) {
      assert norm == norm[..i] + s + norm[i + |s|..];
    }
    if before, after :| norm == before + s + after {
      assert norm[|before|..|before| + |s|] == s;
      assert OccursAt(norm, s, |before|);
    }
  }

  lemma NamesOf(m: Metric, s: string)
    ensures (s, m.key) in MetricClaims(m) <==> GoesBy(m, s)
    ensures forall k :: (s, k) in MetricClaims(m) ==> k == m.key
  {
    var names := m.Names();
    assert names[0] == m.name && forall i :: 0 <= i < |m.synonyms| ==> names[i + 1] == m.synonyms[i];
    if s != "" && Normalize(m.name) == s { assert Normalize(names[0]) == s; }
    if i :| s != "" && 0 <= i < |m.synonyms| && Normalize(m.synonyms[i]) == s { assert Normalize(names[i + 1]) == s; }
    if (s, m.key) in MetricClaims(m) {
      var j :| 0 <= j < |names| && Normalize(names[j]) != "" && (Normalize(names[j]), m.key) == (s, m.key);
      if j > 0 { assert names[j] == m.synonyms[j - 1]; }
    }
  }

  lemma ClaimsMean(rows: seq<Metric>, m: Metric, s: string)
    requires Registry(rows) && m in rows
    ensures (s, m.key) in Claims(rows) <==> GoesBy(m, s)
  {
    ClaimMembers(rows);
    NamesOf(m, s);
    if o :| o in rows && (s, m.key) in MetricClaims(o) {
      NamesOf(o, s);
      SameKey(rows, o, m);
    }
  }

  lemma SameKey(rows: seq<Metric>, a: Metric, b: Metric)
    requires DistinctKeys(rows) && a in rows && b in rows && a.key == b.key
    ensures a == b
  {
    TableMembers(rows);
  }

  lemma AllowedMeans(rows: seq<Metric>, seesMoney: bool, k: string)
    requires Registry(rows)
    ensures k in Allowed(Table(rows), seesMoney) <==> exists m :: m in rows && m.key == k && MayUse(m, seesMoney)
    ensures forall m :: m in rows ==> m.key in Table(rows) && Table(rows)[m.key] == m
    ensures k in Allowed(Table(rows), seesMoney) ==> Table(rows)[k] in rows && Table(rows)[k].key == k
  {
    TableMembers(rows);
  }

  lemma ExactMeans(rows: seq<Metric>, norm: string, seesMoney: bool, m: Metric)
    requires Registry(rows) && m in rows
    ensures Exact(Claims(rows), Allowed(Table(rows), seesMoney), norm, m.key) <==>
            MayUse(m, seesMoney) && GoesBy(m, norm)
  {
    AllowedMeans(rows, seesMoney, m.key);
    ClaimsMean(rows, m, norm);
  }

  lemma HitMeans(rows: seq<Metric>, norm: string, seesMoney: bool, m: Metric, s: string)
    requires Registry(rows) && m in rows
    ensures Hit(Claims(rows), Allowed(Table(rows), seesMoney), norm, s, m.key) <==> Heard(rows, norm, seesMoney, m, s)
  {
    AllowedMeans(rows, seesMoney, m.key);
    ClaimsMean(rows, m, s);
    ContainsIff(norm, s);
  }

  lemma AnyExact(rows: seq<Metric>, norm: string, seesMoney: bool)
    requires Registry(rows)
    ensures (exists k :: Exact(Claims(rows), Allowed(Table(rows), seesMoney), norm, k)) <==>
            exists m :: m in rows && MayUse(m, seesMoney) && GoesBy(m, norm)
  {
    if k :| Exact(Claims(rows), Allowed(Table(rows), seesMoney), norm, k) {
      AllowedMeans(rows, seesMoney, k);
      ExactMeans(rows, norm, seesMoney, Table(rows)[k]);
    }
    if m :| m in rows && MayUse(m, seesMoney) && GoesBy(m, norm) { ExactMeans(rows, norm, seesMoney, m); }
  }

  lemma LongestMeans(rows: seq<Metric>, norm: string, seesMoney: bool, m: Metric, s: string)
    requires Registry(rows) && m in rows
    ensures LongestHit(Claims(rows), Allowed(Table(rows), seesMoney), norm, s, m.key) <==>
            Heard(rows, norm, seesMoney, m, s) && forall o, u :: Heard(rows, norm, seesMoney, o, u) ==> |u| <= |s|
  {
    var claims, allowed := Claims(rows), Allowed(Table(rows), seesMoney);
    HitMeans(rows, norm, seesMoney, m, s);
    if LongestHit(claims, allowed, norm, s, m.key) {
      forall o, u | Heard(rows, norm, seesMoney, o, u) ensures |u| <= |s| { HitMeans(rows, norm, seesMoney, o, u); }
    }
    if Heard(rows, norm, seesMoney, m, s) && forall o, u :: Heard(rows, norm, seesMoney, o, u) ==> |u| <= |s| {
      forall t, k | Hit(claims, allowed, norm, t, k) ensures |t| <= |s| {
        AllowedMeans(rows, seesMoney, k);
        HitMeans(rows, norm, seesMoney, Table(rows)[k], t);
      }
    }
  }

  lemma TiedMeans(rows: seq<Metric>, norm: string, seesMoney: bool, m: Metric)
    requires Registry(rows) && m in rows
    ensures m.key in Tied(Claims(rows), Allowed(Table(rows), seesMoney), norm) <==> Candidate(rows, norm, seesMoney, m)
  {
    AnyExact(rows, norm, seesMoney);
    ExactMeans(rows, norm, seesMoney, m);
    AllowedMeans(rows, seesMoney, m.key);
    forall s { LongestMeans(rows, norm, seesMoney, m, s); }
  }

  lemma TiedAreRows(rows: seq<Metric>, norm: string, seesMoney: bool, k: string)
    requires Registry(rows) && k in Tied(Claims(rows), Allowed(Table(rows), seesMoney), norm)
    ensures k in Table(rows) && Table(rows)[k] in rows && Table(rows)[k].key == k
    ensures Candidate(rows, norm, seesMoney, Table(rows)[k])
  {
    AllowedMeans(rows, seesMoney, k);
    TiedMeans(rows, norm, seesMoney, Table(rows)[k]);
  }

  lemma CandidateInRows(rows: seq<Metric>, norm: string, seesMoney: bool, m: Metric)
    requires Candidate(rows, norm, seesMoney, m)
    ensures m in rows && MayUse(m, seesMoney)
  {
  }

  // ------------------------------------------------------------------
  // The choice
  // ------------------------------------------------------------------

  lemma PreferredIsChosen(rows: seq<Metric>, norm: string, seesMoney: bool, k: string)
    requires Registry(rows)
    requires var tied := Tied(Claims(rows), Allowed(Table(rows), seesMoney), norm);
             k in tied && Preferred(Table(rows), tied, seesMoney, k)
    ensures k in Table(rows) && Chosen(rows, norm, seesMoney, Table(rows)[k])
  {
    var tied := Tied(Claims(rows), Allowed(Table(rows), seesMoney), norm);
    var money := MoneyKeys(Table(rows), tied);
    TiedAreRows(rows, norm, seesMoney, k);
    var m := Table(rows)[k];
    LeastIsEarliest(k, if seesMoney && money != {} then money else tied);
    forall o | Candidate(rows, norm, seesMoney, o) && o != m ensures Preferable(m, o, seesMoney) {
      CandidateInRows(rows, norm, seesMoney, o);
      TiedMeans(rows, norm, seesMoney, o);
      AllowedMeans(rows, seesMoney, o.key);
      assert o.key in money <==> IsMoney(o);
      assert k in money <==> IsMoney(m);
    }
  }

  lemma ChosenIsUnique(rows: seq<Metric>, norm: string, seesMoney: bool, a: Metric, b: Metric)
    requires Chosen(rows, norm, seesMoney, a) && Chosen(rows, norm, seesMoney, b)
    ensures a == b
  {
    if a != b {
      StringLessIffEarlier(a.key, b.key);
      StringLessIffEarlier(b.key, a.key);
      if StringLess(a.key, b.key) && StringLess(b.key, a.key) {
        StringLessTransitive(a.key, b.key, a.key);
        StringLessIrreflexive(a.key);
      }
    }
  }

  lemma LookupOfTied(rows: seq<Metric>, norm: string, seesMoney: bool, key: Option<string>)
    requires Registry(rows)
    requires Matched(Table(rows), Claims(rows), Allowed(Table(rows), seesMoney), norm, seesMoney, key)
    ensures key.None? ==> Lookup(Table(rows), key) == None && forall m :: !Candidate(rows, norm, seesMoney, m)
    ensures key.Some? ==> key.value in Table(rows) && Lookup(Table(rows), key) == Some(Table(rows)[key.value])
                          && Chosen(rows, norm, seesMoney, Table(rows)[key.value])
  {
    if key.Some? {
      PreferredIsChosen(rows, norm, seesMoney, key.value);
      TiedAreRows(rows, norm, seesMoney, key.value);
    } else {
      forall m | Candidate(rows, norm, seesMoney, m) ensures false {
        CandidateInRows(rows, norm, seesMoney, m);
        TiedMeans(rows, norm, seesMoney, m);
      }
    }
  }

  /**
   * A caller is given the metric they may use that goes by the whole phrase, or by a longest name heard
   * in it; among several a money metric if they see money, and then the earliest key.
   */
  lemma ResolvedIsChosen(rows: seq<Metric>, phrase: string, seesMoney: bool, r: Option<Metric>)
    requires Registry(rows) && Resolved(rows, phrase, seesMoney, r)
    ensures Normalize(phrase) == "" ==> r == None
    ensures Normalize(phrase) != "" && r.None? ==> forall m :: !Candidate(rows, Normalize(phrase), seesMoney, m)
    ensures r.Some? ==> Chosen(rows, Normalize(phrase), seesMoney, r.value)
  {
    var norm, allowed := Normalize(phrase), Allowed(Table(rows), seesMoney);
    if norm != "" && allowed != {} {
      var key :| Matched(Table(rows), Claims(rows), allowed, norm, seesMoney, key) && r == Lookup(Table(rows), key);
      LookupOfTied(rows, norm, seesMoney, key);
    } else if norm != "" {
      forall m | Candidate(rows, norm, seesMoney, m) ensures false {
        CandidateInRows(rows, norm, seesMoney, m);
        AllowedMeans(rows, seesMoney, m.key);
      }
    }
  }
}
