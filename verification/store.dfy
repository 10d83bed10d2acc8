/** The contract storage `Mapping` with its `unwrap_or_default` reading: a missing key
    reads as zero. `Sum` adds up every stored value; it is the quantity the ERC-20
    ledger conserves. */
module Store {
  import opened Runtime

  /** `mapping.get(k).unwrap_or_default()` for a `u128`-valued mapping. */
  function Get<K>(m: map<K, U128>, k: K): (r: U128)
    ensures k !in m ==> r == 0
    ensures k in m ==> r == m[k]
  {
    if k in m then m[k] else 0
  }

  /** The sum of all values stored in `m`. */
  ghost function Sum<K>(m: map<K, U128>): nat
    decreases |m|
  {
    if m == map[] then 0
    else
      var k :| k in m;
      assert |m - {k}| < |m| by { CardRemove(m, k); }
      m[k] + Sum(m - {k})
  }

  lemma CardRemove<K>(m: map<K, U128>, k: K)
    requires k in m
    ensures |m - {k}| == |m| - 1
  {
    assert (m - {k}).Keys == m.Keys - {k};
  }

  /** Any stored entry can be split off the sum, whichever key the definition picks first. */
  lemma {:induction false} SumRemove<K>(m: map<K, U128>, k: K)
    requires k in m
    ensures Sum(m) == m[k] + Sum(m - {k})
    decreases |m|
  {
    var j :| j in m && Sum(m) == m[j] + Sum(m - {j});
    if j != k {
      CardRemove(m, j);
      CardRemove(m, k);
      SumRemove(m - {j}, k);
      SumRemove(m - {k}, j);
      assert m - {j} - {k} == m - {k} - {j};
    }
  }

  /** Writing `v` at `k` changes the sum by exactly the difference with the old reading. */
  lemma SumUpdate<K>(m: map<K, U128>, k: K, v: U128)
    ensures Sum(m[k := v]) + Get(m, k) == Sum(m) + v
  {
    SumRemove(m[k := v], k);
    if k in m {
      SumRemove(m, k);
      assert m[k := v] - {k} == m - {k};
    } else {
      assert m[k := v] - {k} == m;
    }
  }

  /** Two distinct readings never exceed the sum. */
  lemma SumPair<K>(m: map<K, U128>, a: K, b: K)
    requires a != b
    ensures Get(m, a) + Get(m, b) <= Sum(m)
  {
    if a in m {
      SumRemove(m, a);
      if b in m - {a} {
        SumRemove(m - {a}, b);
      }
    } else if b in m {
      SumRemove(m, b);
    }
  }

  /** A single reading never exceeds the sum. */
  lemma SumGet<K>(m: map<K, U128>, a: K)
    ensures Get(m, a) <= Sum(m)
  {
    if a in m {
      SumRemove(m, a);
    }
  }

  /** A mapping with one entry sums to that entry. */
  lemma SumSingleton<K>(k: K, v: U128)
    ensures Sum(map[k := v]) == v
  {
    SumRemove(map[k := v], k);
    assert map[k := v] - {k} == map[];
  }
}
