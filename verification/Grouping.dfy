/** Keyed amounts, added up by key. */
module Grouping {

  datatype Entry<K> = Entry(key: K, amount: int)

  function SumAll<K>(es: seq<Entry<K>>): int {
    if es == [] then 0 else SumAll(es[..|es| - 1]) + es[|es| - 1].amount
  }

  function SumKey<K(==)>(es: seq<Entry<K>>, k: K): int {
    if es == [] then 0 else SumKey(es[..|es| - 1], k) + (if es[|es| - 1].key == k then es[|es| - 1].amount else 0)
  }

  function KeysOf<K(==)>(es: seq<Entry<K>>): set<K> {
    set e | e in es :: e.key
  }

  function SumKeys<K(==)>(es: seq<Entry<K>>, ks: seq<K>): int {
    if ks == [] then 0 else SumKeys(es, ks[..|ks| - 1]) + SumKey(es, ks[|ks| - 1])
  }

  predicate Distinct<K(==)>(ks: seq<K>) {
    forall i, j :: 0 <= i < j < |ks| ==> ks[i] != ks[j]
  }

  lemma SumKeySnoc<K>(es: seq<Entry<K>>, e: Entry<K>, k: K)
    ensures SumKey(es + [e], k) == SumKey(es, k) + (if e.key == k then e.amount else 0)
    ensures SumAll(es + [e]) == SumAll(es) + e.amount
    ensures KeysOf(es + [e]) == KeysOf(es) + {e.key}
  {
  }

  lemma {:induction false} SumKeyConcat<K>(xs: seq<Entry<K>>, ys: seq<Entry<K>>, k: K)
    ensures SumKey(xs + ys, k) == SumKey(xs, k) + SumKey(ys, k)
    ensures SumAll(xs + ys) == SumAll(xs) + SumAll(ys)
  {
    if ys == [] {
      assert xs + ys == xs;
    } else {
      assert (xs + ys)[..|xs + ys| - 1] == xs + ys[..|ys| - 1];
      SumKeyConcat(xs, ys[..|ys| - 1], k);
    }
  }

  /** One entry more adds its amount to the groups' sum exactly once, if its key is among the groups. */
  lemma {:induction false} SumKeysSnoc<K>(es: seq<Entry<K>>, e: Entry<K>, ks: seq<K>)
    requires Distinct(ks)
    ensures SumKeys(es + [e], ks) == SumKeys(es, ks) + (if e.key in ks then e.amount else 0)
  {
    if ks != [] {
      var init, k := ks[..|ks| - 1], ks[|ks| - 1];
      SumKeysSnoc(es, e, init);
      SumKeySnoc(es, e, k);
      assert e.key in ks <==> e.key in init || e.key == k;
    }
  }

  /** Grouping conserves value: over any listing of the keys, each once, the groups add up to everything. */
  lemma {:induction false} GroupsConserve<K>(es: seq<Entry<K>>, ks: seq<K>)
    requires Distinct(ks) && forall e :: e in es ==> e.key in ks
    ensures SumKeys(es, ks) == SumAll(es)
  {
    if es == [] {
      NoEntries(es, ks);
    } else {
      var init, e := es[..|es| - 1], es[|es| - 1];
      assert es == init + [e];
      GroupsConserve(init, ks);
      SumKeysSnoc(init, e, ks);
      assert e in es;
    }
  }

  lemma {:induction false} NoEntries<K>(es: seq<Entry<K>>, ks: seq<K>)
    requires es == []
    ensures SumKeys(es, ks) == 0
  {
    if ks != [] {
      NoEntries(es, ks[..|ks| - 1]);
    }
  }

  lemma {:induction false} NoKeyNoSum<K>(es: seq<Entry<K>>, k: K)
    requires k !in KeysOf(es)
    ensures SumKey(es, k) == 0
  {
    if es != [] {
      assert es[|es| - 1] in es;
      NoKeyNoSum(es[..|es| - 1], k);
    }
  }
}
