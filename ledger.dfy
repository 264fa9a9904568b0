/**
 The allocation ledger of a resource provisioner: for each VM, the absolute
 amount of the one resource it currently holds. A VM without an entry holds
 nothing.
 */
module Ledger {

  /** The amount `k` currently holds, 0 when the ledger has no entry for it. */
  function AllocationOf<K>(m: map<K, nat>, k: K): nat
  {
    if k in m then m[k] else 0
  }

  /** Entries exist only for VMs that hold a strictly positive amount. */
  ghost predicate EntriesPositive<K>(m: map<K, nat>)
  {
    forall k :: k in m ==> m[k] > 0
  }

  /** The total amount held by all VMs of the ledger. */
  ghost function Sum<K>(m: map<K, nat>): nat
    decreases |m|
  {
    if m == map[] then 0
    else
      var k :| k in m;
      assert |m - {k}| < |m| by { assert (m - {k}).Keys == m.Keys - {k}; }
      m[k] + Sum(m - {k})
  }

  /**
   Sets the amount held by `k` to `amount`, replacing (never adding to) what
   it held before; an amount of 0 removes the entry.
   */
  function Assign<K>(m: map<K, nat>, k: K, amount: nat): (r: map<K, nat>)
    ensures AllocationOf(r, k) == amount
    ensures r - {k} == m - {k}
    ensures EntriesPositive(m) ==> EntriesPositive(r)
  {
    if amount == 0 then m - {k} else m[k := amount]
  }

  /** Taking one entry out of the ledger lowers the total by exactly that entry. */
  lemma {:induction false} SumRemove<K>(m: map<K, nat>, k: K)
    requires k in m
    ensures Sum(m) == m[k] + Sum(m - {k})
    decreases |m|
  {
    var j :| j in m && Sum(m) == m[j] + Sum(m - {j});
    if j != k {
      assert (m - {j}).Keys == m.Keys - {j};
      assert (m - {k}).Keys == m.Keys - {k};
      SumRemove(m - {j}, k);
      SumRemove(m - {k}, j);
      assert m - {j} - {k} == m - {k} - {j};
    }
  }

  /** No single VM holds more than the ledger's total. */
  lemma {:induction false} AllocationWithinSum<K>(m: map<K, nat>, k: K)
    ensures AllocationOf(m, k) <= Sum(m)
  {
    if k in m {
      SumRemove(m, k);
    }
  }

  /**
   Replacing what `k` holds by `amount` changes the total by the difference:
   the new total plus the old holding equals the old total plus the new amount.
   */
  lemma {:induction false} SumAssign<K>(m: map<K, nat>, k: K, amount: nat)
    ensures Sum(Assign(m, k, amount)) + AllocationOf(m, k) == Sum(m) + amount
  {
    var r := Assign(m, k, amount);
    if k in m {
      SumRemove(m, k);
    } else {
      assert m - {k} == m;
    }
    if amount == 0 {
      assert r == m - {k};
    } else {
      SumRemove(r, k);
      assert r - {k} == m - {k};
    }
  }

  /**
   Two assignments to the same VM do not accumulate: the second one alone
   decides what the VM holds, and the ledger is as if the first never happened.
   */
  lemma AssignReplaces<K>(m: map<K, nat>, k: K, first: nat, second: nat)
    ensures Assign(Assign(m, k, first), k, second) == Assign(m, k, second)
  {
  }
}
