/** Finite sets of integers as Python's `min(s)` and `sorted(s)` see them. */
module Sets {

  predicate StrictlyIncreasing(s: seq<int>) {
    forall i, j :: 0 <= i < j < |s| ==> s[i] < s[j]
  }

  lemma MinExists(s: set<int>)
    requires s != {}
    ensures exists m :: m in s && forall y :: y in s ==> m <= y
  {
    var m := LeastOf(s);
  }

  /** The least element of a non-empty set, found by taking one element out at a time. */
  lemma {:induction false} LeastOf(s: set<int>) returns (m: int)
    requires s != {}
    ensures m in s && forall y :: y in s ==> m <= y
    decreases |s|
  {
    var x := PickElement(s);
    if s == {x} {
      m := x;
    } else {
      var rest := s - {x};
      var k := LeastOf(rest);
      m := if x < k then x else k;
      assert forall y :: y in s ==> y == x || y in rest;
    }
  }

  lemma HasElement(s: set<int>)
    ensures s == {} || exists y :: y in s
  {
    if !exists y :: y in s {
      assert s == {};
    }
  }

  lemma PickElement(s: set<int>) returns (x: int)
    requires s != {}
    ensures x in s
  {
    HasElement(s);
    x :| x in s;
  }

  /** Python's `min(s)`: the least element of a non-empty set. */
  function Min(s: set<int>): (m: int)
    requires s != {}
    ensures m in s && forall y :: y in s ==> m <= y
  {
    MinExists(s);
    var m :| m in s && forall y :: y in s ==> m <= y;
    m
  }

  /** Python's `sorted(s)` for a set: its elements in strictly increasing order. */
  function SortedElems(s: set<int>): (r: seq<int>)
    ensures StrictlyIncreasing(r)
    ensures |r| == |s|
    ensures forall x :: x in r <==> x in s
    decreases |s|
  {
    if s == {} then []
    else
      var m := Min(s);
      [m] + SortedElems(s - {m})
  }

  lemma FirstIsLeast(a: seq<int>, j: nat)
    requires StrictlyIncreasing(a) && j < |a|
    ensures a[0] <= a[j]
  {
  }

  /** A strictly increasing sequence is fixed by its elements (and its length). */
  lemma {:induction false} SortedUnique(a: seq<int>, b: seq<int>)
    requires StrictlyIncreasing(a) && StrictlyIncreasing(b) && |a| == |b|
    requires forall x :: x in a <==> x in b
    ensures a == b
    decreases |a|
  {
    if a != [] {
      assert a[0] in b && b[0] in a;
      assert a[0] == b[0] by {
        var i :| 0 <= i < |b| && b[i] == a[0];
        var j :| 0 <= j < |a| && a[j] == b[0];
        FirstIsLeast(b, i);
        FirstIsLeast(a, j);
      }
      forall x | x in a[1..]
        ensures x in b[1..]
      {
        var k :| 1 <= k < |a| && a[k] == x;
        assert x in a;
        assert x in b;
        var m :| 0 <= m < |b| && b[m] == x;
        assert m != 0;
        assert b[1..][m - 1] == x;
      }
      forall x | x in b[1..]
        ensures x in a[1..]
      {
        var k :| 1 <= k < |b| && b[k] == x;
        assert x in b;
        assert x in a;
        var m :| 0 <= m < |a| && a[m] == x;
        assert m != 0;
        assert a[1..][m - 1] == x;
      }
      SortedUnique(a[1..], b[1..]);
      assert a == [a[0]] + a[1..] && b == [b[0]] + b[1..];
    }
  }

  /** A strictly increasing listing of a set is as long as the set is large. */
  lemma {:induction false} IncreasingCard(a: seq<int>, s: set<int>)
    requires StrictlyIncreasing(a) && forall x :: x in a <==> x in s
    ensures |s| == |a|
    decreases |a|
  {
    if a == [] {
      assert forall x :: x !in s;
    } else {
      var rest := s - {a[0]};
      forall x
        ensures x in a[1..] <==> x in rest
      {
        if x in a[1..] {
          var k :| 0 <= k < |a[1..]| && a[1..][k] == x;
          assert a[k + 1] == x && a[0] < a[k + 1];
        }
        if x in rest {
          assert x in a && x != a[0];
          var k :| 0 <= k < |a| && a[k] == x;
          assert a[1..][k - 1] == x;
        }
      }
      IncreasingCard(a[1..], rest);
      assert a[0] in s;
      assert s == rest + {a[0]};
    }
  }

  /** `sorted(s)` is any strictly increasing listing of `s`. */
  lemma SortedElemsIs(s: set<int>, a: seq<int>)
    requires StrictlyIncreasing(a) && forall x :: x in a <==> x in s
    ensures SortedElems(s) == a
  {
    IncreasingCard(a, s);
    SortedUnique(SortedElems(s), a);
  }

  /**
    `sorted(s)` by what it is rather than how it is built: the one strictly
    increasing listing of `s`. Specifications that only need the sorted
    order use this; code computes it with `SortedElems`.
  */
  ghost function Ascending(s: set<int>): seq<int> {
    var w := SortedElems(s);
    assert StrictlyIncreasing(w) && forall x :: x in w <==> x in s;
    var r :| StrictlyIncreasing(r) && forall x :: x in r <==> x in s;
    r
  }

  lemma AscendingIs(s: set<int>)
    ensures var r := Ascending(s);
            StrictlyIncreasing(r) && |r| == |s| && forall x :: x in r <==> x in s
  {
    IncreasingCard(Ascending(s), s);
  }

  /** The computed listing is the specified one. */
  lemma SortedIsAscending(s: set<int>)
    ensures SortedElems(s) == Ascending(s)
  {
    AscendingIs(s);
    SortedElemsIs(s, Ascending(s));
  }
}
