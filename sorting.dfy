/** A stable sort into descending order under a comparison `ge` ("a ranks at
    least as high as b"). It stands for the standard library's stable
    `sort_by` with a reversed comparator, as the modelled code uses it. */
module Sorting {

  /** `ge` is total and transitive: it orders by some key, ties allowed. */
  ghost predicate TotalPreorder<T(!new)>(ge: (T, T) -> bool) {
    (forall a, b :: ge(a, b) || ge(b, a))
    && (forall a, b, c :: ge(a, b) && ge(b, c) ==> ge(a, c))
  }

  /** Every earlier element ranks at least as high as every later one. */
  ghost predicate SortedDesc<T>(s: seq<T>, ge: (T, T) -> bool) {
    forall i, j :: 0 <= i < j < |s| ==> ge(s[i], s[j])
  }

  /** Inserts `x` after the leading elements that rank at least as high as it,
      so that among equals the earlier one stays first. */
  function Insert<T>(sorted: seq<T>, x: T, ge: (T, T) -> bool): (r: seq<T>)
    ensures multiset(r) == multiset(sorted) + multiset{x}
    ensures |r| == |sorted| + 1
    decreases |sorted|
  {
    if sorted == [] then [x]
    else if ge(sorted[0], x) then
      assert sorted == [sorted[0]] + sorted[1..];
      [sorted[0]] + Insert(sorted[1..], x, ge)
    else [x] + sorted
  }

  /** The stable descending sort. */
  function SortDesc<T>(s: seq<T>, ge: (T, T) -> bool): (r: seq<T>)
    ensures multiset(r) == multiset(s)
    ensures |r| == |s|
    decreases |s|
  {
    if s == [] then []
    else
      assert s == s[..|s| - 1] + [s[|s| - 1]];
      Insert(SortDesc(s[..|s| - 1], ge), s[|s| - 1], ge)
  }

  lemma {:induction false} InsertSorted<T(!new)>(sorted: seq<T>, x: T, ge: (T, T) -> bool)
    requires TotalPreorder(ge)
    requires SortedDesc(sorted, ge)
    ensures SortedDesc(Insert(sorted, x, ge), ge)
    decreases |sorted|
  {
    if sorted != [] && ge(sorted[0], x) {
      var tail := sorted[1..];
      assert SortedDesc(tail, ge) by {
        forall i, j | 0 <= i < j < |tail| ensures ge(tail[i], tail[j]) {
          assert tail[i] == sorted[i + 1] && tail[j] == sorted[j + 1];
        }
      }
      InsertSorted(tail, x, ge);
      var ins := Insert(tail, x, ge);
      var r := [sorted[0]] + ins;
      forall j | 1 <= j < |r| ensures ge(r[0], r[j]) {
        assert r[j] == ins[j - 1];
        assert r[j] in multiset(ins);
        assert r[j] in multiset(tail) || r[j] == x;
        if r[j] != x {
          var k :| 0 <= k < |tail| && tail[k] == r[j];
          assert sorted[k + 1] == r[j];
        }
      }
      forall i, j | 0 <= i < j < |r| ensures ge(r[i], r[j]) {
        if i > 0 {
          assert r[i] == ins[i - 1] && r[j] == ins[j - 1];
        }
      }
    } else if sorted != [] {
      var r := [x] + sorted;
      assert ge(x, sorted[0]);
      forall i, j | 0 <= i < j < |r| ensures ge(r[i], r[j]) {
        if i == 0 {
          assert r[j] == sorted[j - 1];
          if j > 1 {
            assert ge(sorted[0], sorted[j - 1]);
          }
        } else {
          assert r[i] == sorted[i - 1] && r[j] == sorted[j - 1];
        }
      }
    }
  }

  /** The sort result is in descending order. */
  lemma {:induction false} SortDescSorted<T(!new)>(s: seq<T>, ge: (T, T) -> bool)
    requires TotalPreorder(ge)
    ensures SortedDesc(SortDesc(s, ge), ge)
    decreases |s|
  {
    if s != [] {
      SortDescSorted(s[..|s| - 1], ge);
      InsertSorted(SortDesc(s[..|s| - 1], ge), s[|s| - 1], ge);
    }
  }

  // ---------------------------------------------------------------- stability

  /** The elements of `s` that rank equal to `x` (each at least as high as the
      other), in their order in `s`. */
  function Ties<T>(s: seq<T>, x: T, ge: (T, T) -> bool): seq<T>
    decreases |s|
  {
    if s == [] then []
    else (if ge(x, s[0]) && ge(s[0], x) then [s[0]] else []) + Ties(s[1..], x, ge)
  }

  lemma {:induction false} TiesAppend<T>(s: seq<T>, y: T, x: T, ge: (T, T) -> bool)
    ensures Ties(s + [y], x, ge) == Ties(s, x, ge) + (if ge(x, y) && ge(y, x) then [y] else [])
    decreases |s|
  {
    if s != [] {
      assert (s + [y])[1..] == s[1..] + [y];
      TiesAppend(s[1..], y, x, ge);
    }
  }

  /** A sequence with no element tied to `x` has no ties of `x`. */
  lemma {:induction false} TiesNone<T>(s: seq<T>, x: T, ge: (T, T) -> bool)
    requires forall k :: 0 <= k < |s| ==> !(ge(x, s[k]) && ge(s[k], x))
    ensures Ties(s, x, ge) == []
    decreases |s|
  {
    if s != [] {
      assert forall k :: 0 <= k < |s[1..]| ==> s[1..][k] == s[k + 1];
      TiesNone(s[1..], x, ge);
    }
  }

  /** The tail of a descending sequence is descending. */
  lemma SortedTail<T>(s: seq<T>, ge: (T, T) -> bool)
    requires s != [] && SortedDesc(s, ge)
    ensures SortedDesc(s[1..], ge)
  {
    forall i, j | 0 <= i < j < |s[1..]| ensures ge(s[1..][i], s[1..][j]) {
      assert s[1..][i] == s[i + 1] && s[1..][j] == s[j + 1];
    }
  }

  /** Nothing in a descending sequence whose head ranks below `y` is tied
      with an element `x` that ranks equal to `y`. */
  lemma BelowHeadNoTies<T(!new)>(sorted: seq<T>, y: T, x: T, ge: (T, T) -> bool)
    requires TotalPreorder(ge)
    requires SortedDesc(sorted, ge)
    requires sorted != [] && !ge(sorted[0], y)
    requires ge(x, y) && ge(y, x)
    ensures Ties(sorted, x, ge) == []
  {
    forall k | 0 <= k < |sorted| ensures !(ge(x, sorted[k]) && ge(sorted[k], x)) {
      if k > 0 {
        assert ge(sorted[0], sorted[k]);
      }
    }
    TiesNone(sorted, x, ge);
  }

  /** Putting the same element in front of two sequences keeps their ties
      related by the same suffix. */
  lemma {:induction false} ConsTies<T>(h: T, s: seq<T>, r: seq<T>, x: T, ge: (T, T) -> bool, t: seq<T>)
    requires Ties(r, x, ge) == Ties(s, x, ge) + t
    ensures Ties([h] + r, x, ge) == Ties([h] + s, x, ge) + t
  {
    assert ([h] + r)[1..] == r && ([h] + s)[1..] == s;
    var d := if ge(x, h) && ge(h, x) then [h] else [];
    var a := Ties(s, x, ge);
    assert Ties([h] + r, x, ge) == d + (a + t);
    assert Ties([h] + s, x, ge) == d + a;
    assert d + (a + t) == (d + a) + t;
  }

  /** Inserting `y` puts it after every element already tied with it. */
  lemma {:induction false} InsertTies<T(!new)>(sorted: seq<T>, y: T, x: T, ge: (T, T) -> bool)
    requires TotalPreorder(ge)
    requires SortedDesc(sorted, ge)
    ensures Ties(Insert(sorted, y, ge), x, ge) == Ties(sorted, x, ge) + (if ge(x, y) && ge(y, x) then [y] else [])
    decreases |sorted|
  {
    if sorted == [] {
    } else if ge(sorted[0], y) {
      var tail := sorted[1..];
      assert sorted == [sorted[0]] + tail;
      SortedTail(sorted, ge);
      InsertTies(tail, y, x, ge);
      ConsTies(sorted[0], tail, Insert(tail, y, ge), x, ge, if ge(x, y) && ge(y, x) then [y] else []);
    } else {
      assert ([y] + sorted)[1..] == sorted;
      if ge(x, y) && ge(y, x) {
        BelowHeadNoTies(sorted, y, x, ge);
      }
    }
  }

  /** The sort is stable: the elements of every class of equally ranked
      elements keep their relative order. */
  lemma {:induction false} SortDescStable<T(!new)>(s: seq<T>, x: T, ge: (T, T) -> bool)
    requires TotalPreorder(ge)
    ensures Ties(SortDesc(s, ge), x, ge) == Ties(s, x, ge)
    decreases |s|
  {
    if s != [] {
      var init, last := s[..|s| - 1], s[|s| - 1];
      assert s == init + [last];
      var t := if ge(x, last) && ge(last, x) then [last] else [];
      SortDescStable(init, x, ge);
      SortDescSorted(init, ge);
      InsertTies(SortDesc(init, ge), last, x, ge);
      assert SortDesc(s, ge) == Insert(SortDesc(init, ge), last, ge);
      assert Ties(SortDesc(s, ge), x, ge) == Ties(init, x, ge) + t;
      TiesAppend(init, last, x, ge);
    }
  }

  // ---------------------------------------------------------------- distinctness

  /** No element occurs twice. */
  predicate Distinct<T(==)>(s: seq<T>) {
    forall i, j :: 0 <= i < j < |s| ==> s[i] != s[j]
  }

  /** A sequence is duplicate-free exactly when every element has multiplicity 1. */
  lemma {:induction false} DistinctIffSingleCounts<T>(s: seq<T>)
    ensures Distinct(s) <==> forall x :: multiset(s)[x] <= 1
    decreases |s|
  {
    if s != [] {
      var t := s[1..];
      DistinctIffSingleCounts(t);
      assert s == [s[0]] + t;
      assert multiset(s) == multiset{s[0]} + multiset(t);
      if Distinct(s) {
        assert Distinct(t) by {
          forall i, j | 0 <= i < j < |t| ensures t[i] != t[j] {
            assert t[i] == s[i + 1] && t[j] == s[j + 1];
          }
        }
        assert s[0] !in t by {
          forall k | 0 <= k < |t| ensures t[k] != s[0] {
            assert t[k] == s[k + 1];
          }
        }
      } else {
        var i, j :| 0 <= i < j < |s| && s[i] == s[j];
        if i == 0 {
          assert s[j] == t[j - 1];
          assert multiset(s)[s[0]] >= 2;
        } else {
          assert t[i - 1] == s[i] && t[j - 1] == s[j];
          assert !Distinct(t);
          var x :| multiset(t)[x] > 1;
          assert multiset(s)[x] > 1;
        }
      }
    }
  }

  /** Rearranging a duplicate-free sequence keeps it duplicate-free. */
  lemma DistinctPermutation<T>(a: seq<T>, b: seq<T>)
    requires multiset(a) == multiset(b) && Distinct(a)
    ensures Distinct(b)
  {
    DistinctIffSingleCounts(a);
    DistinctIffSingleCounts(b);
  }

  // ---------------------------------------------------------------- string order

  /** `a <= b` in Rust's lexicographic string order. */
  predicate LexLe(a: string, b: string)
    decreases |a|
  {
    a == [] || (b != [] && (a[0] < b[0] || (a[0] == b[0] && LexLe(a[1..], b[1..]))))
  }

  lemma {:induction false} LexLeTotal(a: string, b: string)
    ensures LexLe(a, b) || LexLe(b, a)
    decreases |a|
  {
    if a != [] && b != [] && a[0] == b[0] {
      LexLeTotal(a[1..], b[1..]);
    }
  }

  lemma {:induction false} LexLeTransitive(a: string, b: string, c: string)
    requires LexLe(a, b) && LexLe(b, c)
    ensures LexLe(a, c)
    decreases |a|
  {
    if a != [] && a[0] == b[0] && b[0] == c[0] {
      LexLeTransitive(a[1..], b[1..], c[1..]);
    }
  }

  lemma {:induction false} LexLeAntisymmetric(a: string, b: string)
    requires LexLe(a, b) && LexLe(b, a)
    ensures a == b
    decreases |a|
  {
    if a != [] {
      LexLeAntisymmetric(a[1..], b[1..]);
      assert a == [a[0]] + a[1..] && b == [b[0]] + b[1..];
    }
  }
}
