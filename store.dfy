/** The ledger store: maps whose absent keys read as zero, the sum of all
    balances, and the single balance-moving primitive that `transfer` and
    `transferFrom` share. */
module Store {
  import opened Uint256

  /** The amount stored under `k`; an absent key reads as zero. */
  function Get<K>(m: map<K, Amount>, k: K): (r: Amount)
    ensures k !in m ==> r == 0
    ensures k in m ==> r == m[k]
  {
    if k in m then m[k] else 0
  }

  /** The sum of all balances in `m`. */
  ghost function Sum(m: map<Address, Amount>): nat
    decreases |m|
  {
    if m == map[] then 0
    else
      var k :| k in m;
      assert |m - {k}| < |m| by { assert m.Keys - {k} < m.Keys; }
      m[k] + Sum(m - {k})
  }

  /** The sum may be split at any key, not only at the one its definition picks. */
  lemma {:induction false} SumRemove(m: map<Address, Amount>, k: Address)
    requires k in m
    ensures Sum(m) == m[k] + Sum(m - {k})
    decreases |m|
  {
    var j :| j in m && Sum(m) == m[j] + Sum(m - {j});
    if j != k {
      assert |m - {j}| < |m| by { assert m.Keys - {j} < m.Keys; }
      assert |m - {k}| < |m| by { assert m.Keys - {k} < m.Keys; }
      SumRemove(m - {j}, k);
      SumRemove(m - {k}, j);
      assert m - {j} - {k} == m - {k} - {j};
    }
  }

  /** A store holding a single entry sums to that entry. */
  lemma SumSingleton(k: Address, v: Amount)
    ensures Sum(map[k := v]) == v
  {
    SumRemove(map[k := v], k);
    assert map[k := v] - {k} == map[];
  }

  /** Overwriting one entry changes the sum by exactly the difference. */
  lemma SumUpdate(m: map<Address, Amount>, k: Address, v: Amount)
    ensures Sum(m[k := v]) + Get(m, k) == Sum(m) + v
  {
    SumRemove(m[k := v], k);
    if k in m {
      SumRemove(m, k);
      assert m[k := v] - {k} == m - {k};
    } else {
      assert m[k := v] - {k} == m;
    }
  }

  /** No single balance exceeds the sum of all balances. */
  lemma GetLeSum(m: map<Address, Amount>, k: Address)
    ensures Get(m, k) <= Sum(m)
  {
    if k in m {
      SumRemove(m, k);
    }
  }

  /** Debits `v` from `from` and credits it to `to`, both as one move. The
      caller has checked the debit; the credit cannot overflow because the
      moved amount is part of a sum that itself fits in 256 bits. */
  function Move(m: map<Address, Amount>, from: Address, to: Address, v: Amount): (r: map<Address, Amount>)
    requires v <= Get(m, from)
    requires Sum(m) <= MAX_UINT256
    ensures forall a :: Get(r, a) == Get(m, a) - (if a == from then v else 0) + (if a == to then v else 0)
    ensures Sum(r) == Sum(m)
  {
    var debited := m[from := Get(m, from) - v];
    SumUpdate(m, from, Get(m, from) - v);
    GetLeSum(debited, to);
    SumUpdate(debited, to, Get(debited, to) + v);
    debited[to := Get(debited, to) + v]
  }
}
