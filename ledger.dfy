/** The refund ledger `bids: address -> uint256`, as a finite map whose
    missing keys read as zero, and the total it holds. */
module Ledger {
  import opened AuctionTypes

  /** The balance stored for `a`; a key never written reads as 0, as in a storage mapping. */
  function Balance(m: map<Address, nat>, a: Address): nat {
    if a in m then m[a] else 0
  }

  /** The sum of all balances in the ledger. */
  ghost function Total(m: map<Address, nat>): nat {
    SumOver(m, m.Keys)
  }

  /** The sum of the balances of the addresses in `keys`. */
  ghost function SumOver(m: map<Address, nat>, keys: set<Address>): nat
    decreases keys
  {
    if keys == {} then 0
    else
      var k :| k in keys;
      Balance(m, k) + SumOver(m, keys - {k})
  }

  /** Any key can be taken out first: the sum does not depend on the order. */
  lemma {:induction false} SumOverRemove(m: map<Address, nat>, keys: set<Address>, k: Address)
    requires k in keys
    ensures SumOver(m, keys) == Balance(m, k) + SumOver(m, keys - {k})
    decreases keys
  {
    var j :| j in keys && SumOver(m, keys) == Balance(m, j) + SumOver(m, keys - {j});
    if j != k {
      SumOverRemove(m, keys - {j}, k);
      SumOverRemove(m, keys - {k}, j);
      assert keys - {j} - {k} == keys - {k} - {j};
    }
  }

  /** The sum over `keys` only reads the balances of `keys`. */
  lemma {:induction false} SumOverFrame(m: map<Address, nat>, m': map<Address, nat>, keys: set<Address>)
    requires forall a :: a in keys ==> Balance(m, a) == Balance(m', a)
    ensures SumOver(m, keys) == SumOver(m', keys)
    decreases keys
  {
    if keys != {} {
      var k :| k in keys && SumOver(m, keys) == Balance(m, k) + SumOver(m, keys - {k});
      SumOverRemove(m', keys, k);
      SumOverFrame(m, m', keys - {k});
    }
  }

  /** Overwriting one entry changes the total by the difference of the two balances. */
  lemma TotalUpdate(m: map<Address, nat>, k: Address, v: nat)
    ensures Total(m[k := v]) + Balance(m, k) == Total(m) + v
  {
    var m' := m[k := v];
    var rest := m.Keys - {k};
    assert m'.Keys == rest + {k};
    assert (rest + {k}) - {k} == rest;
    SumOverRemove(m', m'.Keys, k);
    SumOverFrame(m', m, rest);
    if k in m {
      assert m.Keys == rest + {k};
      SumOverRemove(m, m.Keys, k);
    } else {
      assert m.Keys == rest;
    }
  }
}
