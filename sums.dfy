/** The `reduce((s, x) => s + value(x), 0)` that every page uses, over exact reals. */
module Sums {
  import opened Records

  /** Left-to-right sum of `value` over `s`, defined on the last element so that a
      loop over a growing prefix extends it by one term. */
  function SumOf<T>(s: seq<T>, value: T -> real): real
  {
    if s == [] then 0.0 else SumOf(s[..|s| - 1], value) + value(s[|s| - 1])
  }

  lemma {:induction false} SumOfAppend<T>(a: seq<T>, b: seq<T>, value: T -> real)
    ensures SumOf(a + b, value) == SumOf(a, value) + SumOf(b, value)
  {
    if b == [] {
      assert a + b == a;
    } else {
      var b' := b[..|b| - 1];
      assert (a + b)[..|a + b| - 1] == a + b';
      SumOfAppend(a, b', value);
    }
  }

  lemma SumOfSingle<T>(x: T, value: T -> real)
    ensures SumOf([x], value) == value(x)
  {
    assert [x][..0] == [];
  }

  /** Removing the element at index j takes exactly its value out of the sum. */
  lemma SumOfRemove<T>(s: seq<T>, j: nat, value: T -> real)
    requires j < |s|
    ensures SumOf(s, value) == SumOf(s[..j] + s[j + 1..], value) + value(s[j])
  {
    assert s == s[..j] + [s[j]] + s[j + 1..];
    SumOfAppend(s[..j] + [s[j]], s[j + 1..], value);
    SumOfAppend(s[..j], [s[j]], value);
    SumOfSingle(s[j], value);
    SumOfAppend(s[..j], s[j + 1..], value);
  }

  /** A sum does not depend on the order of its terms. */
  lemma {:induction false} SumOfPermutation<T>(a: seq<T>, b: seq<T>, value: T -> real)
    requires multiset(a) == multiset(b)
    ensures SumOf(a, value) == SumOf(b, value)
    decreases |a|
  {
    if a == [] {
      assert |b| == |multiset(b)| == 0;
    } else {
      var x := a[|a| - 1];
      var a' := a[..|a| - 1];
      assert a == a' + [x];
      assert x in multiset(b);
      var j :| 0 <= j < |b| && b[j] == x;
      var b' := b[..j] + b[j + 1..];
      MultisetRemove(b, j);
      assert multiset(a') == multiset(a) - multiset{x};
      SumOfPermutation(a', b', value);
      SumOfRemove(b, j, value);
    }
  }

  lemma MultisetRemove<T>(s: seq<T>, j: nat)
    requires j < |s|
    ensures multiset(s[..j] + s[j + 1..]) == multiset(s) - multiset{s[j]}
  {
    assert s == s[..j] + [s[j]] + s[j + 1..];
  }

  function Total(es: seq<Expense>): real { SumOf(es, ExpenseAmount) }

  function IncomeTotal(incomes: seq<Income>): real { SumOf(incomes, IncomeAmount) }

  function BudgetTotal(budgets: seq<Budget>): real { SumOf(budgets, BudgetAmount) }

  /** With no negative values, no single term exceeds the sum. */
  lemma {:induction false} SumBoundsEach<T>(s: seq<T>, value: T -> real, i: nat)
    requires i < |s|
    requires forall j :: 0 <= j < |s| ==> value(s[j]) >= 0.0
    ensures 0.0 <= value(s[i]) <= SumOf(s, value)
  {
    var n := |s| - 1;
    assert forall j :: 0 <= j < n ==> s[..n][j] == s[j];
    NonNegativeSum(s[..n], value);
    if i < n {
      SumBoundsEach(s[..n], value, i);
    }
  }

  lemma {:induction false} NonNegativeSum<T>(s: seq<T>, value: T -> real)
    requires forall j :: 0 <= j < |s| ==> value(s[j]) >= 0.0
    ensures SumOf(s, value) >= 0.0
  {
    if s != [] {
      var n := |s| - 1;
      assert forall j :: 0 <= j < n ==> s[..n][j] == s[j];
      NonNegativeSum(s[..n], value);
    }
  }

  /** One more term adds exactly its value. */
  lemma SumOfSnoc<T>(s: seq<T>, x: T, value: T -> real)
    ensures SumOf(s + [x], value) == SumOf(s, value) + value(x)
  {
    assert (s + [x])[..|s|] == s;
  }
}
