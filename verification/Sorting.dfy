/** Orders and sorting: what std::sort promises, and the order of std::string. */
module Sorting {
  import opened Bytes

  ghost predicate TotalPreorder<T(!new)>(leq: (T, T) -> bool) {
    && (forall x, y :: leq(x, y) || leq(y, x))
    && (forall x, y, z :: leq(x, y) && leq(y, z) ==> leq(x, z))
  }

  ghost predicate Antisymmetric<T(!new)>(leq: (T, T) -> bool) {
    forall x, y :: leq(x, y) && leq(y, x) ==> x == y
  }

  ghost predicate Sorted<T(!new)>(s: seq<T>, leq: (T, T) -> bool) {
    forall i, j :: 0 <= i < j < |s| ==> leq(s[i], s[j])
  }

  function InsertInOrder<T>(x: T, s: seq<T>, leq: (T, T) -> bool): seq<T> {
    if s == [] || leq(x, s[0]) then [x] + s else [s[0]] + InsertInOrder(x, s[1..], leq)
  }

  /**
   A stand-in for std::sort. Nothing below uses more of it than SortIsSorted says, since the order
   of equal elements is unspecified.
   */
  function Sort<T>(s: seq<T>, leq: (T, T) -> bool): seq<T> {
    if s == [] then [] else InsertInOrder(s[0], Sort(s[1..], leq), leq)
  }

  lemma {:induction false} InsertKeepsOrder<T(!new)>(x: T, s: seq<T>, leq: (T, T) -> bool)
    requires TotalPreorder(leq) && Sorted(s, leq)
    ensures var r := InsertInOrder(x, s, leq);
      Sorted(r, leq) && multiset(r) == multiset(s) + multiset{x} && |r| == |s| + 1
  {
    if s == [] {
    } else if leq(x, s[0]) {
      assert multiset([x] + s) == multiset(s) + multiset{x};
    } else {
      InsertKeepsOrder(x, s[1..], leq);
      var t := InsertInOrder(x, s[1..], leq);
      assert s == [s[0]] + s[1..];
      forall i | 0 <= i < |t| ensures leq(s[0], t[i]) {
        assert t[i] in multiset(t);
        assert t[i] == x || t[i] in s[1..];
      }
    }
  }

  lemma {:induction false} SortIsSorted<T(!new)>(s: seq<T>, leq: (T, T) -> bool)
    requires TotalPreorder(leq)
    ensures Sorted(Sort(s, leq), leq) && multiset(Sort(s, leq)) == multiset(s) && |Sort(s, leq)| == |s|
  {
    if s != [] {
      SortIsSorted(s[1..], leq);
      InsertKeepsOrder(s[0], Sort(s[1..], leq), leq);
      assert s == [s[0]] + s[1..];
    }
  }

  /** A set of values has one sorted arrangement when the order tells all values apart. */
  lemma {:induction false} SortedIsUnique<T(!new)>(a: seq<T>, b: seq<T>, leq: (T, T) -> bool)
    requires TotalPreorder(leq) && Antisymmetric(leq)
    requires Sorted(a, leq) && Sorted(b, leq) && multiset(a) == multiset(b)
    ensures a == b
  {
    assert |a| == |multiset(a)| == |multiset(b)| == |b|;
    if a != [] {
      assert a[0] in multiset(b) && b[0] in multiset(a);
      assert leq(b[0], a[0]) && leq(a[0], b[0]);
      assert a == [a[0]] + a[1..] && b == [b[0]] + b[1..];
      assert multiset(a[1..]) == multiset(a) - multiset{a[0]};
      assert multiset(b[1..]) == multiset(b) - multiset{b[0]};
      SortedIsUnique(a[1..], b[1..], leq);
    }
  }

  lemma OccursTwice<T>(s: seq<T>, i: nat, j: nat)
    requires i < j < |s| && s[i] == s[j]
    ensures multiset(s)[s[i]] >= 2
  {
    assert s == s[..j] + [s[j]] + s[j + 1..];
    assert s[i] in s[..j];
  }

  /* ---------------------------------------------------------------- numbers */

  predicate Leq(a: nat, b: nat) {
    a <= b
  }

  ghost predicate Ascending(s: seq<nat>) {
    forall i, j :: 0 <= i < j < |s| ==> s[i] < s[j]
  }

  lemma TailOfAscending(a: seq<nat>)
    requires Ascending(a) && a != []
    ensures forall x :: x in a[1..] <==> x in a && x != a[0]
  {
    forall x ensures x in a[1..] <==> x in a && x != a[0] {
      assert a == [a[0]] + a[1..];
      if x in a[1..] {
        var i :| 0 <= i < |a[1..]| && a[1..][i] == x;
        assert a[0] < a[i + 1];
      }
    }
  }

  /** An ascending list is determined by its elements. */
  lemma {:induction false} AscendingIsUnique(a: seq<nat>, b: seq<nat>)
    requires Ascending(a) && Ascending(b)
    requires forall x :: x in a <==> x in b
    ensures a == b
  {
    assert a != [] ==> a[0] in b;
    assert b != [] ==> b[0] in a;
    if a != [] {
      assert a[0] == b[0];
      TailOfAscending(a);
      TailOfAscending(b);
      AscendingIsUnique(a[1..], b[1..]);
    }
  }

  /** Drop adjacent duplicates, as std::unique and erase do. */
  function Unique<T(==)>(s: seq<T>): seq<T> {
    if |s| <= 1 then s
    else if s[0] == s[1] then Unique(s[1..])
    else [s[0]] + Unique(s[1..])
  }

  lemma {:induction false} UniqueKeepsElements<T>(s: seq<T>, x: T)
    ensures x in Unique(s) <==> x in s
    ensures s != [] ==> Unique(s) != [] && Unique(s)[0] == s[0]
  {
    if |s| > 1 {
      UniqueKeepsElements(s[1..], x);
      assert s == [s[0]] + s[1..];
    }
  }

  /** Of a sorted list it leaves each value once, in order. */
  lemma {:induction false} UniqueOfSorted<T(!new)>(s: seq<T>, leq: (T, T) -> bool)
    requires TotalPreorder(leq) && Antisymmetric(leq) && Sorted(s, leq)
    ensures forall i, j :: 0 <= i < j < |Unique(s)| ==> leq(Unique(s)[i], Unique(s)[j]) && Unique(s)[i] != Unique(s)[j]
  {
    if |s| > 1 {
      UniqueOfSorted(s[1..], leq);
      if s[0] != s[1] {
        var t := Unique(s[1..]);
        forall j | 0 <= j < |t| ensures leq(s[0], t[j]) && s[0] != t[j] {
          assert t[j] in t;
          UniqueKeepsElements(s[1..], t[j]);
          var k :| 0 <= k < |s[1..]| && s[1..][k] == t[j];
          assert leq(s[0], s[1]) && leq(s[1], t[j]) by {
            assert s[1..][0] == s[1] && s[k + 1] == t[j];
            assert leq(s[1], s[1]);
          }
        }
      }
    }
  }

  /* ---------------------------------------------------------------- strings */

  /** Comparison of std::string: byte by byte, a proper prefix first. */
  predicate LexLess(a: Bytes, b: Bytes) {
    b != [] && (a == [] || a[0] < b[0] || (a[0] == b[0] && LexLess(a[1..], b[1..])))
  }

  /** The strings agree up to k, where a ends or has the smaller byte. */
  predicate FirstDiffersAt(a: Bytes, b: Bytes, k: nat) {
    k <= |a| && k < |b| && a[..k] == b[..k] && (k == |a| || a[k] < b[k])
  }

  /** The comparison of byte strings: it is decided where they first differ. */
  lemma {:induction false} LexByFirstDifference(a: Bytes, b: Bytes)
    ensures LexLess(a, b) <==> exists k: nat :: FirstDiffersAt(a, b, k)
  {
    if a == [] || b == [] || a[0] != b[0] {
      assert b != [] ==> (FirstDiffersAt(a, b, 0) <==> LexLess(a, b));
      assert forall k: nat :: 0 < k <= |a| && k <= |b| ==> a[..k][0] == a[0] && b[..k][0] == b[0];
    } else {
      LexByFirstDifference(a[1..], b[1..]);
      if k: nat :| FirstDiffersAt(a, b, k) {
        if k > 0 {
          assert a[1..][..k - 1] == a[..k][1..] == b[..k][1..] == b[1..][..k - 1];
          assert FirstDiffersAt(a[1..], b[1..], k - 1);
        }
      }
      if k: nat :| FirstDiffersAt(a[1..], b[1..], k) {
        assert a[..k + 1] == [a[0]] + a[1..][..k] == b[..k + 1];
        assert FirstDiffersAt(a, b, k + 1);
      }
    }
  }

  predicate LexLeq(a: Bytes, b: Bytes) {
    !LexLess(b, a)
  }

  lemma {:induction false} LexTotal(a: Bytes, b: Bytes)
    ensures LexLeq(a, b) || LexLeq(b, a)
    ensures LexLeq(a, b) && LexLeq(b, a) ==> a == b
  {
    if a != [] && b != [] {
      LexTotal(a[1..], b[1..]);
      assert a == [a[0]] + a[1..] && b == [b[0]] + b[1..];
    }
  }

  lemma {:induction false} LexTransitive(a: Bytes, b: Bytes, c: Bytes)
    requires LexLeq(a, b) && LexLeq(b, c)
    ensures LexLeq(a, c)
  {
    if a != [] && b != [] && c != [] && a[0] == b[0] == c[0] {
      LexTransitive(a[1..], b[1..], c[1..]);
    }
  }

  lemma LexIsTotalOrder()
    ensures TotalPreorder(LexLeq) && Antisymmetric(LexLeq)
  {
    forall a, b ensures (LexLeq(a, b) || LexLeq(b, a)) && (LexLeq(a, b) && LexLeq(b, a) ==> a == b) {
      LexTotal(a, b);
    }
    forall a, b, c | LexLeq(a, b) && LexLeq(b, c) ensures LexLeq(a, c) {
      LexTransitive(a, b, c);
    }
  }

  /** The strings with a given prefix are an interval of the order that starts at the prefix. */
  lemma {:induction false} PrefixInterval(p: Bytes, x: Bytes, y: Bytes)
    ensures p <= x ==> LexLeq(p, x)
    ensures p <= y && LexLeq(p, x) && LexLeq(x, y) ==> p <= x
  {
    if p != [] && x != [] && y != [] && p[0] == x[0] == y[0] {
      PrefixInterval(p[1..], x[1..], y[1..]);
      assert p <= x <==> p[1..] <= x[1..];
      assert p <= y <==> p[1..] <= y[1..];
    } else if p != [] && x != [] && p[0] == x[0] {
      PrefixInterval(p[1..], x[1..], []);
      assert p <= x <==> p[1..] <= x[1..];
    }
  }
}
