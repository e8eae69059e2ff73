/** `Array.prototype.sort` with a comparator, modelled as an insertion sort that
    puts an element before the first element it may precede. Its contract states
    the order and the permutation; the order among ties is not stated. */
module Ranking {

  /** before(a, b) says that a may be placed ahead of b. */
  ghost predicate TotalPreorder<T(!new)>(before: (T, T) -> bool) {
    && (forall a, b :: before(a, b) || before(b, a))
    && (forall a, b, c :: before(a, b) && before(b, c) ==> before(a, c))
  }

  ghost predicate Sorted<T>(s: seq<T>, before: (T, T) -> bool) {
    forall i, j :: 0 <= i < j < |s| ==> before(s[i], s[j])
  }

  function Insert<T(!new)>(x: T, s: seq<T>, before: (T, T) -> bool): (r: seq<T>)
    requires TotalPreorder(before)
    requires Sorted(s, before)
    ensures multiset(r) == multiset(s) + multiset{x}
    ensures |r| == |s| + 1
    ensures Sorted(r, before)
  {
    if s == [] || before(x, s[0]) then
      assert forall j :: 0 <= j < |s| ==> before(x, s[j]) by {
        forall j | 0 <= j < |s| ensures before(x, s[j]) {
          if j > 0 { assert before(s[0], s[j]); }
        }
      }
      PrependSorted(x, s, before);
      [x] + s
    else
      assert s == [s[0]] + s[1..];
      var t := Insert(x, s[1..], before);
      assert forall j :: 0 <= j < |t| ==> before(s[0], t[j]) by {
        forall j | 0 <= j < |t| ensures before(s[0], t[j]) {
          assert t[j] in multiset(t);
          if t[j] != x {
            assert t[j] in multiset(s[1..]);
            var k :| 0 <= k < |s[1..]| && s[1..][k] == t[j];
            assert s[k + 1] == t[j];
          }
        }
      }
      PrependSorted(s[0], t, before);
      [s[0]] + t
  }

  lemma PrependSorted<T>(x: T, s: seq<T>, before: (T, T) -> bool)
    requires Sorted(s, before)
    requires forall j :: 0 <= j < |s| ==> before(x, s[j])
    ensures Sorted([x] + s, before)
  {
    forall i, j | 0 <= i < j < |s| + 1 ensures before(([x] + s)[i], ([x] + s)[j]) {
      if i > 0 {
        assert ([x] + s)[i] == s[i - 1];
      }
    }
  }

  function SortBy<T(!new)>(s: seq<T>, before: (T, T) -> bool): (r: seq<T>)
    requires TotalPreorder(before)
    ensures multiset(r) == multiset(s)
    ensures |r| == |s|
    ensures Sorted(r, before)
  {
    if s == [] then []
    else
      assert s == [s[0]] + s[1..];
      Insert(s[0], SortBy(s[1..], before), before)
  }

  /** The first element of a sorted list may precede every element. */
  lemma SortedHead<T(!new)>(s: seq<T>, before: (T, T) -> bool)
    requires TotalPreorder(before)
    requires Sorted(s, before) && s != []
    ensures forall j :: 0 <= j < |s| ==> before(s[0], s[j])
  {
  }

  ghost predicate DistinctBy<T, K(!new)>(s: seq<T>, id: T -> K) {
    forall i, j :: 0 <= i < j < |s| ==> id(s[i]) != id(s[j])
  }

  lemma {:induction false} InsertDistinctBy<T(!new), K(!new)>(x: T, s: seq<T>, before: (T, T) -> bool, id: T -> K)
    requires TotalPreorder(before) && Sorted(s, before)
    requires DistinctBy(s, id)
    requires forall y :: y in s ==> id(y) != id(x)
    ensures DistinctBy(Insert(x, s, before), id)
  {
    if s == [] || before(x, s[0]) {
    } else {
      assert s == [s[0]] + s[1..];
      var t := Insert(x, s[1..], before);
      InsertDistinctBy(x, s[1..], before, id);
      forall y | y in t ensures id(y) != id(s[0]) {
        assert y in multiset(t);
        if y != x {
          assert y in s[1..];
          var j :| 0 <= j < |s[1..]| && s[1..][j] == y;
          assert s[j + 1] == y;
        }
      }
    }
  }

  /** Sorting keeps distinct identities distinct. */
  lemma {:induction false} SortDistinctBy<T(!new), K(!new)>(s: seq<T>, before: (T, T) -> bool, id: T -> K)
    requires TotalPreorder(before)
    requires DistinctBy(s, id)
    ensures DistinctBy(SortBy(s, before), id)
  {
    if s != [] {
      assert s == [s[0]] + s[1..];
      var t := SortBy(s[1..], before);
      SortDistinctBy(s[1..], before, id);
      forall y | y in t ensures id(y) != id(s[0]) {
        assert y in multiset(s[1..]);
        var j :| 0 <= j < |s[1..]| && s[1..][j] == y;
        assert s[j + 1] == y;
      }
      InsertDistinctBy(s[0], t, before, id);
    }
  }
}
