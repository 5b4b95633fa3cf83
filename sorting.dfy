/**
 * The two orderings the tools impose on collections collected from hash sets:
 * `Vec<String>::sort` (ascending `String` order) and `sort_by` on name length.
 */
module Sorting {
  import opened RustStr

  /** Strictly ascending in `String` order, hence without duplicates. */
  predicate StrictlyAscending(s: seq<string>) {
    forall i, j :: 0 <= i < j < |s| ==> LexLess(s[i], s[j])
  }

  /** Ascending by a numeric key, equal keys in any order. */
  predicate AscendingBy<T>(s: seq<T>, key: T -> nat) {
    forall i, j :: 0 <= i < j < |s| ==> key(s[i]) <= key(s[j])
  }

  predicate Distinct<T(==)>(s: seq<T>) {
    forall i, j :: 0 <= i < j < |s| ==> s[i] != s[j]
  }

  /** The least element of a non-empty set of strings in `String` order. */
  method Least(s: set<string>) returns (m: string)
    requires s != {}
    ensures m in s
    ensures forall x :: x in s && x != m ==> LexLess(m, x)
  {
    m :| m in s;
    var rest := s - {m};
    while rest != {}
      invariant rest <= s && m in s && m !in rest
      invariant forall x :: x in s - rest && x != m ==> LexLess(m, x)
      decreases rest
    {
      var y :| y in rest;
      if LexLess(y, m) {
        forall x | x in s - rest && x != y
          ensures LexLess(y, x)
        {
          if x != m {
            LexLessTransitive(y, m, x);
          }
        }
        m := y;
      } else {
        LexLessTotal(y, m);
      }
      rest := rest - {y};
    }
  }

  /** `let mut v: Vec<String> = set.into_iter().collect(); v.sort();` */
  method SortStrings(s: set<string>) returns (r: seq<string>)
    ensures forall x :: x in r <==> x in s
    ensures StrictlyAscending(r)
    ensures |r| == |s|
  {
    r := [];
    var rem := s;
    while rem != {}
      invariant rem <= s
      invariant forall x :: x in r <==> x in s - rem
      invariant StrictlyAscending(r)
      invariant forall x, y :: x in r && y in rem ==> LexLess(x, y)
      invariant |r| + |rem| == |s|
      decreases rem
    {
      var m := Least(rem);
      forall i | 0 <= i < |r| ensures LexLess(r[i], m) {
        assert r[i] in r;
      }
      r := r + [m];
      rem := rem - {m};
    }
  }

  /** There is one strictly ascending order of a set of strings: two strictly ascending
      sequences with the same elements are equal. */
  lemma {:induction false} AscendingUnique(a: seq<string>, b: seq<string>)
    requires StrictlyAscending(a) && StrictlyAscending(b)
    requires forall x :: x in a <==> x in b
    ensures a == b
    decreases |a|
  {
    assert |b| > 0 ==> b[0] in b;
    if |a| > 0 {
      assert a[0] in a;
      assert |b| > 0;
      assert b[0] in b;
      if a[0] != b[0] {
        var i :| 0 <= i < |a| && a[i] == b[0];
        var j :| 0 <= j < |b| && b[j] == a[0];
        assert LexLess(a[0], b[0]);
        assert LexLess(b[0], a[0]);
        LexLessTransitive(a[0], b[0], a[0]);
        LexLessIrreflexive(a[0]);
      } else {
        forall x ensures x in a[1..] <==> x in b[1..] {
          if x in a[1..] {
            var i :| 1 <= i < |a| && a[i] == x;
            assert x != a[0] by { LexLessIrreflexive(a[0]); }
            assert x in b;
          }
          if x in b[1..] {
            var j :| 1 <= j < |b| && b[j] == x;
            assert x != b[0] by { LexLessIrreflexive(b[0]); }
            assert x in a;
          }
        }
        AscendingUnique(a[1..], b[1..]);
        assert a == [a[0]] + a[1..];
        assert b == [b[0]] + b[1..];
      }
    }
  }

  /** A key-minimal element of a non-empty set. */
  method Shortest<T>(s: set<T>, key: T -> nat) returns (m: T)
    requires s != {}
    ensures m in s
    ensures forall x :: x in s ==> key(m) <= key(x)
  {
    m :| m in s;
    var rest := s - {m};
    while rest != {}
      invariant rest <= s && m in s
      invariant forall x :: x in s - rest ==> key(m) <= key(x)
      decreases rest
    {
      var y :| y in rest;
      if key(y) < key(m) {
        m := y;
      }
      rest := rest - {y};
    }
  }

  /** `let mut v: Vec<_> = set.into_iter().collect(); v.sort_by(|a, b| key(a).cmp(&key(b)));`
      Equal keys come out in an unspecified order, as hash-set iteration gives them. */
  method SortByKey<T>(s: set<T>, key: T -> nat) returns (r: seq<T>)
    ensures forall x :: x in r <==> x in s
    ensures Distinct(r)
    ensures AscendingBy(r, key)
    ensures |r| == |s|
  {
    r := [];
    var rem := s;
    while rem != {}
      invariant rem <= s
      invariant forall x :: x in r <==> x in s - rem
      invariant Distinct(r)
      invariant AscendingBy(r, key)
      invariant forall x, y :: x in r && y in rem ==> key(x) <= key(y)
      invariant |r| + |rem| == |s|
      decreases rem
    {
      var m := Shortest(rem, key);
      forall i | 0 <= i < |r| ensures key(r[i]) <= key(m) && r[i] != m {
        assert r[i] in r;
      }
      r := r + [m];
      rem := rem - {m};
    }
  }
}
