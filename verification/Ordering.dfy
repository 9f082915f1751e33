/**
 * The order in which the report lists zones and instance types: Python's
 * `sorted()` over a set of strings, which compares strings character by
 * character (by code point) and puts a proper prefix first.
 */
module Ordering {

  /** Strict lexicographic order on strings. */
  predicate Below(a: string, b: string)
    decreases |a|
  {
    if a == [] then b != []
    else b != [] && (a[0] < b[0] || (a[0] == b[0] && Below(a[1..], b[1..])))
  }

  lemma {:induction false} BelowIrreflexive(a: string)
    ensures !Below(a, a)
    decreases |a|
  {
    if a != [] {
      BelowIrreflexive(a[1..]);
    }
  }

  lemma {:induction false} BelowTransitive(a: string, b: string, c: string)
    requires Below(a, b) && Below(b, c)
    ensures Below(a, c)
    decreases |a|
  {
    if a != [] && a[0] == b[0] && b[0] == c[0] {
      BelowTransitive(a[1..], b[1..], c[1..]);
    }
  }

  lemma {:induction false} BelowTotal(a: string, b: string)
    requires a != b
    ensures Below(a, b) || Below(b, a)
    decreases |a|
  {
    if a != [] && b != [] && a[0] == b[0] {
      assert a == [a[0]] + a[1..] && b == [b[0]] + b[1..];
      BelowTotal(a[1..], b[1..]);
    }
  }

  /** Every non-empty finite set of strings has a least element. */
  lemma {:induction false} LeastExists(s: set<string>)
    requires s != {}
    ensures exists m :: m in s && forall x :: x in s && x != m ==> Below(m, x)
  {
    var m := Least(s);
  }

  /** The least element of a non-empty set, found by removing any one element and comparing. */
  lemma {:induction false} Least(s: set<string>) returns (m: string)
    requires s != {}
    ensures m in s
    ensures forall x :: x in s && x != m ==> Below(m, x)
    decreases s
  {
    var y :| y in s;
    if s == {y} {
      m := y;
    } else {
      var n := Least(s - {y});
      BelowTotal(y, n);
      if Below(y, n) {
        m := y;
        forall x | x in s && x != y
          ensures Below(y, x)
        {
          if x != n {
            assert x in s - {y};
            BelowTransitive(y, n, x);
          }
        }
      } else {
        m := n;
        forall x | x in s && x != n
          ensures Below(n, x)
        {
          if x != y {
            assert x in s - {y};
          }
        }
      }
    }
  }

  /** Strictly ascending, hence also free of repetitions. */
  predicate Ascending(r: seq<string>)
  {
    forall i, j :: 0 <= i < j < |r| ==> Below(r[i], r[j])
  }

  /** `r` is `sorted(s)`: the elements of `s`, each once, in ascending order. */
  ghost predicate IsSortedListing(r: seq<string>, s: set<string>)
  {
    Ascending(r) && forall x :: x in r <==> x in s
  }

  /** A set has only one sorted listing, so any sorting algorithm yields `sorted(s)`. */
  lemma {:induction false} SortedListingUnique(r1: seq<string>, r2: seq<string>, s: set<string>)
    requires IsSortedListing(r1, s) && IsSortedListing(r2, s)
    ensures r1 == r2
    decreases |r1|
  {
    if r1 != [] || r2 != [] {
      // whichever listing is non-empty, its head lies in s and hence in both listings
      var h := if r1 != [] then r1[0] else r2[0];
      assert h in s;
      assert h in r1 && h in r2;
      var a, b := r1[0], r2[0];
      if a != b {
        assert a in r2 && b in r1;
        var i :| 0 <= i < |r2| && r2[i] == a;
        var j :| 0 <= j < |r1| && r1[j] == b;
        assert Below(b, a) && Below(a, b);
        BelowTransitive(a, b, a);
        BelowIrreflexive(a);
      }
      var rest := s - {a};
      forall x ensures x in r1[1..] <==> x in rest {
        if x in r1[1..] {
          var k :| 1 <= k < |r1| && r1[k] == x;
          if x == a {
            BelowIrreflexive(a);
          }
        }
        if x in rest {
          assert x in r1 && x != r1[0];
        }
      }
      forall x ensures x in r2[1..] <==> x in rest {
        if x in r2[1..] {
          var k :| 1 <= k < |r2| && r2[k] == x;
          if x == a {
            BelowIrreflexive(a);
          }
        }
        if x in rest {
          assert x in r2 && x != r2[0];
        }
      }
      SortedListingUnique(r1[1..], r2[1..], rest);
      assert r1 == [a] + r1[1..] && r2 == [a] + r2[1..];
    }
  }

  /** `sorted(s)` for a set of strings, by repeatedly taking the least remaining element. */
  method SortStrings(s: set<string>) returns (r: seq<string>)
    ensures IsSortedListing(r, s)
  {
    r := [];
    var rest := s;
    while rest != {}
      invariant rest <= s
      invariant forall x :: x in r <==> x in s && x !in rest
      invariant Ascending(r)
      invariant forall i, x :: 0 <= i < |r| && x in rest ==> Below(r[i], x)
      decreases rest
    {
      LeastExists(rest);
      var m :| m in rest && forall x :: x in rest && x != m ==> Below(m, x);
      r := r + [m];
      rest := rest - {m};
    }
  }
}
