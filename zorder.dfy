/** The z-order of a superview's subviews: the last subview is drawn on top.
    `BringToFront` is what `bringSubviewToFront(_:)` does to that order. */
module ZOrder {

  /** No element occurs twice (a view is a subview of its superview at most once). */
  predicate Distinct<T(==)>(s: seq<T>) {
    forall i, j :: 0 <= i < j < |s| ==> s[i] != s[j]
  }

  /** s with every occurrence of x taken out; the other elements keep their order. */
  function Without<T(==)>(s: seq<T>, x: T): (r: seq<T>)
    ensures forall i :: 0 <= i < |r| ==> r[i] in s && r[i] != x
    ensures forall i :: 0 <= i < |s| && s[i] != x ==> s[i] in r
    ensures |r| <= |s|
  {
    if s == [] then []
    else if s[0] == x then Without(s[1..], x)
    else [s[0]] + Without(s[1..], x)
  }

  /** v moved to the end of s, when it is in s; otherwise s as it is. */
  function BringToFront<T(==)>(s: seq<T>, v: T): (r: seq<T>)
    ensures v in s ==> |r| > 0 && r[|r| - 1] == v && v !in r[..|r| - 1]
    ensures v !in s ==> r == s
  {
    if v in s then Without(s, v) + [v] else s
  }

  lemma {:induction false} WithoutConcat<T>(a: seq<T>, b: seq<T>, x: T)
    ensures Without(a + b, x) == Without(a, x) + Without(b, x)
  {
    if a == [] {
      assert a + b == b;
    } else {
      assert (a + b)[1..] == a[1..] + b;
      WithoutConcat(a[1..], b, x);
    }
  }

  lemma {:induction false} WithoutAbsent<T>(s: seq<T>, x: T)
    requires x !in s
    ensures Without(s, x) == s
  {
    if s != [] {
      WithoutAbsent(s[1..], x);
      assert s == [s[0]] + s[1..];
    }
  }

  lemma {:induction false} WithoutMultiset<T>(s: seq<T>, x: T)
    ensures multiset(Without(s, x)) == multiset(s)[x := 0]
  {
    if s != [] {
      WithoutMultiset(s[1..], x);
      assert s == [s[0]] + s[1..];
    }
  }

  lemma {:induction false} TailDistinct<T>(s: seq<T>)
    requires Distinct(s) && s != []
    ensures Distinct(s[1..]) && s[0] !in s[1..]
  {
    forall i, j | 0 <= i < j < |s[1..]| ensures s[1..][i] != s[1..][j] {
      assert s[1..][i] == s[i + 1] && s[1..][j] == s[j + 1];
    }
    forall k | 0 <= k < |s[1..]| ensures s[1..][k] != s[0] {
      assert s[1..][k] == s[k + 1];
    }
  }

  lemma {:induction false} WithoutDistinct<T>(s: seq<T>, x: T)
    requires Distinct(s)
    ensures Distinct(Without(s, x))
  {
    if s != [] {
      TailDistinct(s);
      WithoutDistinct(s[1..], x);
      var rest := Without(s[1..], x);
      if s[0] != x {
        assert s[0] !in rest;
        var r := [s[0]] + rest;
        forall i, j | 0 <= i < j < |r| ensures r[i] != r[j] {
          if i == 0 {
            assert r[j] == rest[j - 1];
          } else {
            assert r[i] == rest[i - 1] && r[j] == rest[j - 1];
          }
        }
      }
    }
  }

  lemma {:induction false} OccursOnce<T>(s: seq<T>, v: T)
    requires Distinct(s) && v in s
    ensures multiset(s)[v] == 1
  {
    TailDistinct(s);
    assert s == [s[0]] + s[1..];
    if s[0] != v {
      OccursOnce(s[1..], v);
    }
  }

  /** Bringing v to the front leaves every other element where it was relative to the rest. */
  lemma KeepsOthersInOrder<T>(s: seq<T>, v: T)
    ensures Without(BringToFront(s, v), v) == Without(s, v)
  {
    if v in s {
      WithoutConcat(Without(s, v), [v], v);
      WithoutAbsent(Without(s, v), v);
      assert Without([v], v) == [] by {
        assert [v][1..] == [];
      }
    } else {
      WithoutAbsent(s, v);
    }
  }

  /** On a list without repetitions, bringing an element to the front only reorders:
      nothing is lost, nothing is added, and there are still no repetitions. */
  lemma IsPermutation<T>(s: seq<T>, v: T)
    requires Distinct(s)
    ensures multiset(BringToFront(s, v)) == multiset(s)
    ensures |BringToFront(s, v)| == |s|
    ensures Distinct(BringToFront(s, v))
  {
    if v in s {
      WithoutMultiset(s, v);
      OccursOnce(s, v);
      assert multiset(s)[v := 0] + multiset{v} == multiset(s);
      WithoutDistinct(s, v);
      var r := BringToFront(s, v);
      var w := Without(s, v);
      forall i, j | 0 <= i < j < |r| ensures r[i] != r[j] {
        if j == |r| - 1 {
          assert r[i] == w[i] && r[j] == v;
        } else {
          assert r[i] == w[i] && r[j] == w[j];
        }
      }
    }
    assert |BringToFront(s, v)| == |multiset(BringToFront(s, v))|;
  }

  /** Bringing the same element to the front twice is the same as doing it once. */
  lemma Idempotent<T>(s: seq<T>, v: T)
    ensures BringToFront(BringToFront(s, v), v) == BringToFront(s, v)
  {
    if v in s {
      KeepsOthersInOrder(s, v);
    }
  }
}
