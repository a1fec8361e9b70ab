/** What a window computes from what it reads: on a complete current state its reads never fail it. */
module WindowReads {
  import opened Chain
  import opened Store
  import opened StoreProofs
  import opened Tables
  import opened Materialization
  import opened CoreWindow
  import opened CoreState
  import opened CoreTails
  import opened InFlight

  /** Current rows of a window: its outputs, the balances it touches, its applied blocks. */
  function WindowCurrentRows(w: seq<Block>, mu: Mutation, next: map<Address, int>): CoreTables
    requires w != []
  {
    NO_TABLES.(outputs := OutputRows(mu.next), balances := RowsAt(next, BalanceVersion(w[|w| - 1].height)),
      applied := multiset(Headers(w)))
  }

  predicate NoneNegative(next: map<Address, int>) {
    forall a :: a in next ==> next[a] >= 0
  }

  lemma {:induction false} PrevoutsRead(t: CoreTables, chain: seq<Block>, w: seq<Block>, prevouts: Ledger, c: Ledger,
      amounts: map<Address, int>)
    requires ValidChain(chain + w) && CurrentIs(t, chain, c, amounts, true)
             && Latest(t.outputs, ExternalKeys(w), prevouts)
    ensures ReadFrom(prevouts, c, ExternalKeys(w)) && ExternalKeys(w) <= prevouts.Keys && View(c, LedgerOf(chain), true)
  {
    hide ValidChain, LedgerOf, View, Faithful, BalancesAre, Bounded, ExternalKeys, Latest;
    ReadsAre(t.outputs, c, ExternalKeys(w), prevouts);
    FullFindsAll(chain, w, c, prevouts);
  }

  lemma {:induction false} AmountsRead(t: CoreTables, chain: seq<Block>, c: Ledger, amounts: map<Address, int>,
      deltas: map<Address, int>, found: map<Address, int>)
    requires CurrentIs(t, chain, c, amounts, true) && Latest(t.balances, deltas.Keys, found)
    ensures NextAmounts(found, deltas) == NextAmounts(amounts, deltas)
  {
    hide LedgerOf, View, Faithful, BalancesAre, Bounded, Latest;
    ReadsAre(t.balances, amounts, deltas.Keys, found);
  }

  /** Whatever rows its reads return, the next window finds every prevout, and the lookup has the right terms. */
  lemma {:induction false} ReadsSuffice(t: CoreTables, chain: seq<Block>, w: seq<Block>, prevouts: Ledger)
    requires ValidChain(chain + w) && Current(t, chain, true) && Latest(t.outputs, ExternalKeys(w), prevouts)
    ensures Mutate(NO_MUTATION, Events(w), prevouts).Mutated?
    ensures LookupFits(prevouts + CreatedInWindow(w), LedgerOf(chain + w), Events(w))
  {
    hide ValidChain, LedgerOf, CurrentIs, ExternalKeys, Latest, Mutate, Events, View, ReadFrom, LookupFits,
         CreatedInWindow, Covers, DeltasAre, TouchedFrom;
    var c, amounts :| CurrentIs(t, chain, c, amounts, true);
    PrevoutsRead(t, chain, w, prevouts, c, amounts);
    PrevoutsFit(chain, w, c, prevouts, true);
    WindowMutates(chain, w, c, prevouts, true);
  }

  /** No balance it then reads goes negative, and its current rows lead to those of the longer chain. */
  lemma {:induction false} ReadsAdvance(t: CoreTables, chain: seq<Block>, w: seq<Block>, prevouts: Ledger,
      found: map<Address, int>)
    requires ValidChain(chain + w) && w != [] && Current(t, chain, true) && Latest(t.outputs, ExternalKeys(w), prevouts)
    requires Mutate(NO_MUTATION, Events(w), prevouts).Mutated?
    requires Latest(t.balances, Mutate(NO_MUTATION, Events(w), prevouts).mutation.deltas.Keys, found)
    ensures var mu := Mutate(NO_MUTATION, Events(w), prevouts).mutation;
            && NoneNegative(NextAmounts(found, mu.deltas))
            && Current(AddCurrent(t, WindowCurrentRows(w, mu, NextAmounts(found, mu.deltas))), chain + w, true)
  {
    hide ValidChain, LedgerOf, CurrentIs, ExternalKeys, Latest, Mutate, Events, View, ReadFrom, NextAmounts, OutputRows,
         RowsAt, Headers, NextCurrent, WindowCurrentRows, AddCurrent;
    var c, amounts :| CurrentIs(t, chain, c, amounts, true);
    var mu := Mutate(NO_MUTATION, Events(w), prevouts).mutation;
    PrevoutsRead(t, chain, w, prevouts, c, amounts);
    AmountsRead(t, chain, c, amounts, mu.deltas, found);
    CurrentAdvances(t, chain, w, c, amounts, prevouts, true);
    var next := NextAmounts(amounts, mu.deltas);
    AmountKeys(amounts, mu.deltas);
    CurrentRowsAdd(t, w, mu, next);
  }

  lemma {:induction false} CurrentRowsAdd(t: CoreTables, w: seq<Block>, mu: Mutation, next: map<Address, int>)
    requires w != []
    ensures NextCurrent(t, w, mu, next) == AddCurrent(t, WindowCurrentRows(w, mu, next))
  {
    hide OutputRows, RowsAt, Headers;
  }

  lemma {:induction false} AmountKeys(amounts: map<Address, int>, deltas: map<Address, int>)
    ensures NextAmounts(amounts, deltas).Keys == deltas.Keys
  {}
}
