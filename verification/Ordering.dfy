/** Python's ordering of strings, and of tuples of strings: lexicographic by code point. */
module Ordering {

  predicate StringLess(a: string, b: string) {
    b != [] && (a == [] || a[0] < b[0] || (a[0] == b[0] && StringLess(a[1..], b[1..])))
  }

  lemma {:induction false} StringLessIrreflexive(a: string)
    ensures !StringLess(a, a)
  {
    if a != [] { StringLessIrreflexive(a[1..]); }
  }

  lemma {:induction false} StringLessTransitive(a: string, b: string, c: string)
    requires StringLess(a, b) && StringLess(b, c)
    ensures StringLess(a, c)
  {
    if a != [] && a[0] == b[0] && b[0] == c[0] {
      StringLessTransitive(a[1..], b[1..], c[1..]);
    }
  }

  lemma {:induction false} StringLessTotal(a: string, b: string)
    ensures StringLess(a, b) || a == b || StringLess(b, a)
  {
    if a != [] && b != [] && a[0] == b[0] {
      StringLessTotal(a[1..], b[1..]);
      assert a == [a[0]] + a[1..] && b == [b[0]] + b[1..];
    }
  }

  predicate TupleLess(a: seq<string>, b: seq<string>) {
    b != [] && (a == [] || StringLess(a[0], b[0]) || (a[0] == b[0] && TupleLess(a[1..], b[1..])))
  }

  lemma {:induction false} TupleLessIrreflexive(a: seq<string>)
    ensures !TupleLess(a, a)
  {
    if a != [] { StringLessIrreflexive(a[0]); TupleLessIrreflexive(a[1..]); }
  }

  lemma {:induction false} TupleLessTransitive(a: seq<string>, b: seq<string>, c: seq<string>)
    requires TupleLess(a, b) && TupleLess(b, c)
    ensures TupleLess(a, c)
  {
    if a != [] {
      if a[0] == b[0] && b[0] == c[0] {
        StringLessIrreflexive(a[0]);
        TupleLessTransitive(a[1..], b[1..], c[1..]);
      } else if StringLess(a[0], b[0]) && StringLess(b[0], c[0]) {
        StringLessTransitive(a[0], b[0], c[0]);
      }
    }
  }

  lemma {:induction false} TupleLessTotal(a: seq<string>, b: seq<string>)
    ensures TupleLess(a, b) || a == b || TupleLess(b, a)
  {
    if a != [] && b != [] {
      StringLessTotal(a[0], b[0]);
      if a[0] == b[0] {
        TupleLessTotal(a[1..], b[1..]);
        assert a == [a[0]] + a[1..] && b == [b[0]] + b[1..];
      }
    }
  }

  /** a and b agree up to k, where a ends or has the smaller character. */
  predicate EarlierAt(a: string, b: string, k: nat) {
    k <= |a| && k < |b| && a[..k] == b[..k] && (k == |a| || a[k] < b[k])
  }

  /** a comes before b in a dictionary. */
  ghost predicate Earlier(a: string, b: string) { exists k :: EarlierAt(a, b, k) }

  lemma HeadsAgree<A>(a: seq<A>, b: seq<A>, k: nat)
    requires k <= |a| && k <= |b| && a[..k] == b[..k]
    ensures k > 0 ==> a[0] == b[0]
  {
    assert k > 0 ==> a[0] == a[..k][0] && b[0] == b[..k][0];
  }

  lemma EarlierAtCons(a: string, b: string, k: nat)
    requires a != [] && b != [] && a[0] == b[0]
    ensures EarlierAt(a[1..], b[1..], k) <==> EarlierAt(a, b, k + 1)
  {
    if k < |a| && k < |b| {
      assert a[..k + 1] == [a[0]] + a[1..][..k] && b[..k + 1] == [b[0]] + b[1..][..k];
      assert a[..k + 1] == b[..k + 1] ==> a[1..][..k] == a[..k + 1][1..] && b[1..][..k] == b[..k + 1][1..];
    }
  }

  /** The string order is that of the first differing character, a proper prefix coming first. */
  lemma {:induction false} StringLessIffEarlier(a: string, b: string)
    ensures StringLess(a, b) <==> Earlier(a, b)
  {
    if a != [] && b != [] && a[0] == b[0] {
      StringLessIffEarlier(a[1..], b[1..]);
      if k: nat :| EarlierAt(a[1..], b[1..], k) { EarlierAtCons(a, b, k); }
      if k: nat :| EarlierAt(a, b, k) {
        assert k > 0;
        EarlierAtCons(a, b, k - 1);
      }
    } else if b != [] {
      if k: nat :| EarlierAt(a, b, k) { HeadsAgree(a, b, k); }
      if StringLess(a, b) { assert EarlierAt(a, b, 0); }
    }
  }

  /** a and b agree up to k, where a ends or has the earlier string. */
  ghost predicate TupleEarlierAt(a: seq<string>, b: seq<string>, k: nat) {
    k <= |a| && k < |b| && a[..k] == b[..k] && (k == |a| || Earlier(a[k], b[k]))
  }

  lemma TupleEarlierAtCons(a: seq<string>, b: seq<string>, k: nat)
    requires a != [] && b != [] && a[0] == b[0]
    ensures TupleEarlierAt(a[1..], b[1..], k) <==> TupleEarlierAt(a, b, k + 1)
  {
    if k < |a| && k < |b| {
      assert a[..k + 1] == [a[0]] + a[1..][..k] && b[..k + 1] == [b[0]] + b[1..][..k];
      assert a[..k + 1] == b[..k + 1] ==> a[1..][..k] == a[..k + 1][1..] && b[1..][..k] == b[..k + 1][1..];
    }
  }

  /** Tuples follow the first component in which they differ. */
  lemma {:induction false} TupleLessIffEarlier(a: seq<string>, b: seq<string>)
    ensures TupleLess(a, b) <==> exists k :: TupleEarlierAt(a, b, k)
  {
    if a != [] && b != [] {
      StringLessIffEarlier(a[0], b[0]);
    }
    if a != [] && b != [] && a[0] == b[0] {
      StringLessIrreflexive(a[0]);
      TupleLessIffEarlier(a[1..], b[1..]);
      if k: nat :| TupleEarlierAt(a[1..], b[1..], k) { TupleEarlierAtCons(a, b, k); }
      if k: nat :| TupleEarlierAt(a, b, k) {
        assert k > 0;
        TupleEarlierAtCons(a, b, k - 1);
      }
    } else if b != [] {
      if k: nat :| TupleEarlierAt(a, b, k) { HeadsAgree(a, b, k); }
      if TupleLess(a, b) { assert TupleEarlierAt(a, b, 0); }
    }
  }

  /** The least key of a non-empty set: the first element of Python's sorted(). */
  ghost predicate IsLeast(k: string, keys: set<string>) {
    k in keys && forall x :: x in keys && x != k ==> StringLess(k, x)
  }

  lemma LeastIsUnique(a: string, b: string, keys: set<string>)
    requires IsLeast(a, keys) && IsLeast(b, keys)
    ensures a == b
  {
    if a != b {
      StringLessTransitive(a, b, a);
      StringLessIrreflexive(a);
    }
  }

  /** The least key comes before every other in the dictionary. */
  lemma LeastIsEarliest(k: string, keys: set<string>)
    ensures IsLeast(k, keys) <==> k in keys && forall x :: x in keys && x != k ==> Earlier(k, x)
  {
    forall x | x in keys ensures StringLess(k, x) <==> Earlier(k, x) { StringLessIffEarlier(k, x); }
  }
}
