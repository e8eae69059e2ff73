/** Grouping expenses by a key, as the pages do with `filter` per bucket and with
    `map[k] = (map[k] || 0) + Number(e.amount)` inside a `forEach`. */
module Buckets {
  import opened Records
  import opened Sums

  /** Sum of the amounts of the expenses whose key is k. */
  function KeyTotal<K(==,!new)>(es: seq<Expense>, key: Expense -> K, k: K): real
  {
    if es == [] then 0.0
    else KeyTotal(es[..|es| - 1], key, k) + (if key(es[|es| - 1]) == k then es[|es| - 1].amount else 0.0)
  }

  /** Sum of the key totals over a list of keys. */
  function KeysTotal<K(==,!new)>(es: seq<Expense>, key: Expense -> K, ks: seq<K>): real
  {
    if ks == [] then 0.0 else KeysTotal(es, key, ks[..|ks| - 1]) + KeyTotal(es, key, ks[|ks| - 1])
  }

  ghost predicate Distinct<K(!new)>(ks: seq<K>) {
    forall i, j :: 0 <= i < j < |ks| ==> ks[i] != ks[j]
  }

  /** The distinct keys of es in order of first occurrence: the key order of a
      JavaScript object filled by a `forEach` over es. */
  function FirstKeys<K(==,!new)>(es: seq<Expense>, key: Expense -> K): (r: seq<K>)
    ensures Distinct(r)
    ensures forall k :: k in r <==> exists j :: 0 <= j < |es| && key(es[j]) == k
    ensures |r| <= |es|
    ensures es != [] ==> r != []
  {
    if es == [] then []
    else
      var prefix := es[..|es| - 1];
      var p := FirstKeys(prefix, key);
      assert forall j :: 0 <= j < |prefix| ==> prefix[j] == es[j];
      if key(es[|es| - 1]) in p then p else p + [key(es[|es| - 1])]
  }

  /** One more expense appends its key when the key is new. */
  lemma FirstKeysSnoc<K(!new)>(es: seq<Expense>, e: Expense, key: Expense -> K)
    ensures FirstKeys(es + [e], key) == if key(e) in FirstKeys(es, key) then FirstKeys(es, key) else FirstKeys(es, key) + [key(e)]
  {
    assert (es + [e])[..|es|] == es;
  }

  /** A list without repeats has as many elements as its set of elements. */
  lemma {:induction false} DistinctCard<K(!new)>(r: seq<K>)
    requires Distinct(r)
    ensures |set x | x in r| == |r|
  {
    if r != [] {
      var n := |r| - 1;
      var r' := r[..n];
      assert Distinct(r');
      DistinctCard(r');
      assert (set x | x in r) == (set x | x in r') + {r[n]};
      assert r[n] !in (set x | x in r');
    }
  }

  /** Index of the first expense with key k. */
  function FirstIndex<K(==,!new)>(es: seq<Expense>, key: Expense -> K, k: K): (r: nat)
    requires k in FirstKeys(es, key)
    ensures r < |es| && key(es[r]) == k
    ensures forall j :: 0 <= j < r ==> key(es[j]) != k
  {
    var n := |es| - 1;
    var prefix := es[..n];
    assert forall j :: 0 <= j < n ==> prefix[j] == es[j];
    if k in FirstKeys(prefix, key) then FirstIndex(prefix, key, k) else n
  }

  /** Absorbing one more expense changes exactly the total of its own key. */
  lemma KeyTotalSnoc<K(!new)>(es: seq<Expense>, e: Expense, key: Expense -> K, k: K)
    ensures KeyTotal(es + [e], key, k) == KeyTotal(es, key, k) + (if key(e) == k then e.amount else 0.0)
  {
    assert (es + [e])[..|es|] == es;
  }

  /** A key that never occurs has total zero. */
  lemma {:induction false} KeyTotalAbsent<K(!new)>(es: seq<Expense>, key: Expense -> K, k: K)
    requires k !in FirstKeys(es, key)
    ensures KeyTotal(es, key, k) == 0.0
  {
    if es != [] {
      var n := |es| - 1;
      assert forall j :: 0 <= j < n ==> es[..n][j] == es[j];
      KeyTotalAbsent(es[..n], key, k);
    }
  }

  lemma {:induction false} KeysTotalSnoc<K(!new)>(es: seq<Expense>, e: Expense, key: Expense -> K, ks: seq<K>)
    requires Distinct(ks)
    ensures KeysTotal(es + [e], key, ks) == KeysTotal(es, key, ks) + (if key(e) in ks then e.amount else 0.0)
  {
    if ks != [] {
      var ks' := ks[..|ks| - 1];
      assert forall k :: k in ks <==> k in ks' || k == ks[|ks| - 1];
      KeysTotalSnoc(es, e, key, ks');
      KeyTotalSnoc(es, e, key, ks[|ks| - 1]);
    }
  }

  /** Bucket totals over a complete list of distinct keys add up to the total of
      all amounts: every expense is counted in exactly one bucket. */
  lemma {:induction false} KeysTotalCovers<K(!new)>(es: seq<Expense>, key: Expense -> K, ks: seq<K>)
    requires Distinct(ks)
    requires forall i :: 0 <= i < |es| ==> key(es[i]) in ks
    ensures KeysTotal(es, key, ks) == Total(es)
  {
    if es == [] {
      KeysTotalEmpty(key, ks);
    } else {
      var n := |es| - 1;
      assert es == es[..n] + [es[n]];
      KeysTotalCovers(es[..n], key, ks);
      KeysTotalSnoc(es[..n], es[n], key, ks);
    }
  }

  lemma {:induction false} KeysTotalEmpty<K(!new)>(key: Expense -> K, ks: seq<K>)
    ensures KeysTotal([], key, ks) == 0.0
  {
    if ks != [] {
      KeysTotalEmpty(key, ks[..|ks| - 1]);
    }
  }

  /** A list of rows whose values are the key totals of ks sums to KeysTotal. */
  lemma {:induction false} RowsSumToKeysTotal<R, K(!new)>(rows: seq<R>, value: R -> real, es: seq<Expense>, key: Expense -> K, ks: seq<K>)
    requires |rows| == |ks|
    requires forall i :: 0 <= i < |rows| ==> value(rows[i]) == KeyTotal(es, key, ks[i])
    ensures SumOf(rows, value) == KeysTotal(es, key, ks)
  {
    if rows != [] {
      var n := |rows| - 1;
      RowsSumToKeysTotal(rows[..n], value, es, key, ks[..n]);
    }
  }

  /** `Array.prototype.filter`. */
  function Filter(es: seq<Expense>, keep: Expense -> bool): (r: seq<Expense>)
    ensures |r| <= |es|
    ensures multiset(r) <= multiset(es)
    ensures forall e :: e in r <==> e in es && keep(e)
    ensures forall i :: 0 <= i < |r| ==> keep(r[i])
  {
    if es == [] then []
    else
      var n := |es| - 1;
      assert es == es[..n] + [es[n]];
      assert forall e :: e in es <==> e in es[..n] || e == es[n];
      Filter(es[..n], keep) + (if keep(es[n]) then [es[n]] else [])
  }

  /** An expense the filter drops does not change the filtered list. */
  lemma FilterSnoc(es: seq<Expense>, e: Expense, keep: Expense -> bool)
    ensures Filter(es + [e], keep) == Filter(es, keep) + (if keep(e) then [e] else [])
  {
    assert (es + [e])[..|es|] == es;
  }

  /** The per-key accumulation loop: `totals` maps every key that occurs to its
      total, and `order` lists those keys in insertion order. */
  method Accumulate<K(==,!new)>(es: seq<Expense>, key: Expense -> K) returns (order: seq<K>, totals: map<K, real>)
    ensures order == FirstKeys(es, key)
    ensures forall k :: k in totals <==> k in order
    ensures forall k :: k in totals ==> totals[k] == KeyTotal(es, key, k)
    ensures forall k :: k !in totals ==> KeyTotal(es, key, k) == 0.0
  {
    order, totals := [], map[];
    var i := 0;
    while i < |es|
      invariant 0 <= i <= |es|
      invariant order == FirstKeys(es[..i], key)
      invariant forall k :: k in totals <==> k in order
      invariant forall k :: k in totals ==> totals[k] == KeyTotal(es[..i], key, k)
      invariant forall k :: k !in totals ==> KeyTotal(es[..i], key, k) == 0.0
    {
      var e := es[i];
      var k := key(e);
      assert es[..i + 1] == es[..i] + [e];
      assert es[..i + 1][..i] == es[..i];
      if k !in totals {
        order := order + [k];
      }
      var before := if k in totals then totals[k] else 0.0;
      totals := totals[k := before + e.amount];
      i := i + 1;
    }
    assert es[..i] == es;
  }

  /** A `[key, value]` pair of `Object.entries`. */
  datatype Entry<K> = Entry(key: K, amount: real)

  function EntryKey<K>(e: Entry<K>): K { e.key }

  function EntryAmount<K>(e: Entry<K>): real { e.amount }

  /** `Object.entries(totals)`, in the object's key order. */
  function Entries<K>(order: seq<K>, totals: map<K, real>): (r: seq<Entry<K>>)
    requires forall k :: k in order ==> k in totals
    ensures |r| == |order|
    ensures forall i :: 0 <= i < |r| ==> r[i].key == order[i] && r[i].amount == totals[order[i]]
  {
    seq(|order|, i requires 0 <= i < |order| => Entry(order[i], totals[order[i]]))
  }

  /** The entries of a completed accumulation add up to the total of all amounts. */
  lemma EntriesSumToTotal<K(!new)>(es: seq<Expense>, key: Expense -> K, order: seq<K>, totals: map<K, real>)
    requires order == FirstKeys(es, key)
    requires forall k :: k in order ==> k in totals && totals[k] == KeyTotal(es, key, k)
    ensures SumOf(Entries(order, totals), EntryAmount) == Total(es)
  {
    var rows := Entries(order, totals);
    RowsSumToKeysTotal(rows, EntryAmount, es, key, order);
    KeysTotalCovers(es, key, order);
  }
}
