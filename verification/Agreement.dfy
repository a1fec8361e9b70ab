/** Whichever way a state was reached, and whichever adapter holds it, the current state of a chain reads the same. */
module Agreement {
  import opened Chain
  import opened Balances
  import opened Store
  import opened StoreProofs
  import opened Convergence
  import opened Tables
  import opened CoreWindow
  import opened CoreState
  import opened Projection

  function AmountOf(amounts: map<Address, int>, a: Address): int {
    if a in amounts then amounts[a] else 0
  }

  lemma {:induction false} FullViewUnspent(c: Ledger, m: Ledger)
    requires View(c, m, true)
    ensures Unspent(c) == Unspent(m)
  {}

  /**
   * Incremental windows of any sizes, a rewind followed by a rebuild, and a materialization from nothing all
   * leave tables that read the same: the same unspent outputs, the same amounts, the same applied blocks.
   */
  lemma {:induction false} CurrentStatesAgree(t: CoreTables, u: CoreTables, chain: seq<Block>, c: Ledger, d: Ledger,
                                              x: map<Address, int>, y: map<Address, int>)
    requires CurrentIs(t, chain, c, x, true) && CurrentIs(u, chain, d, y, true)
    ensures Unspent(c) == Unspent(d) == Unspent(LedgerOf(chain)) && t.applied == u.applied
    ensures forall a :: a != "" ==> AmountOf(x, a) == AmountOf(y, a) == BalanceOf(LedgerOf(chain), a)
  {
    hide View, LedgerOf, Faithful, Bounded, Headers;
    FullViewUnspent(c, LedgerOf(chain));
    FullViewUnspent(d, LedgerOf(chain));
  }

  /** The versioned tables and the in-memory rows of the same chain answer alike. */
  lemma {:induction false} AdaptersAgree(rows: Rows, t: CoreTables, chain: seq<Block>, c: Ledger,
      amounts: map<Address, int>, a: Address)
    requires ValidChain(chain) && Represents(rows, chain) && CurrentIs(t, chain, c, amounts, true) && a != ""
    ensures Amount(rows.balances, a) == AmountOf(amounts, a) == RowsBalance(rows.outputs, a)
    ensures forall o <- rows.outputs :: o.spent.None? ==> o.key in c && c[o.key] == o
    ensures forall k :: k in Unspent(c) ==> c[k] in rows.outputs
    ensures t.applied == multiset(rows.applied)
  {
    hide Faithful, Bounded, ValidChain, Events, MovementsOf, FactsOf;
    ChainHolds(chain);
    RowsBalanceIs(rows.outputs, LedgerOf(chain), a);
    forall o | o in rows.outputs && o.spent.None? ensures o.key in c && c[o.key] == o {
      var i :| 0 <= i < |rows.outputs| && rows.outputs[i] == o;
      assert LedgerOf(chain)[rows.outputs[i].key] == o;
    }
    forall k | k in Unspent(c) ensures c[k] in rows.outputs {
      assert c[k] == LedgerOf(chain)[k];
      var i := OutputAt(rows.outputs, k);
      assert rows.outputs[i].key == k;
    }
  }
}
