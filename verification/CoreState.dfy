/** What the warehouse tables hold for a chain, and how a window, a tail delete and a repair move it on. */
module CoreState {
  import opened Chain
  import opened Balances
  import opened Projection
  import opened Store
  import opened StoreProofs
  import opened StoreTheorems
  import opened Tables
  import opened AppliedLogs
  import opened Materialization
  import opened CoreWindow

  datatype CoreTables = CoreTables(
    creates: Table<OutputKey, Output>, spends: Table<OutputKey, Spender>, movements: multiset<Movement>,
    facts: multiset<Fact>, processed: Table<nat, Hash>,
    outputs: Table<OutputKey, Output>, balances: Table<Address, int>, applied: multiset<AppliedBlock>)

  /** The append-only rows are those of this chain, each exactly once. */
  ghost predicate UtxoFacts(t: CoreTables, chain: seq<Block>) {
    UtxoRowsOf(t.creates, t.spends, chain) && t.processed == ProcessedRows(chain)
  }

  /** Movements and facts are those of this chain, each exactly once, as its blocks were applied. */
  ghost predicate Logs(t: CoreTables, chain: seq<Block>, looks: Lookups) {
    && Truthful(chain, looks)
    && t.movements == multiset(MovementsOf(chain, looks)) && t.facts == multiset(FactsOf(chain, looks))
  }

  /** The current rows mean a view of the chain's ledger, and no version reaches those of the next block. */
  ghost predicate CurrentIs(t: CoreTables, chain: seq<Block>, c: Ledger, amounts: map<Address, int>, full: bool) {
    && View(c, LedgerOf(chain), full) && Faithful(t.outputs, c) && Bounded(t.outputs, 2 * |chain|)
    && BalancesAre(amounts, LedgerOf(chain)) && Faithful(t.balances, amounts) && Bounded(t.balances, 2 * |chain|)
    && t.applied == multiset(Headers(chain))
  }

  ghost predicate Current(t: CoreTables, chain: seq<Block>, full: bool) {
    exists c, amounts :: CurrentIs(t, chain, c, amounts, full)
  }

  /** Whether the current state is maintained and complete, and which blocks were applied without all their prevouts. */
  datatype Mode = Mode(current: bool, full: bool, looks: Lookups)

  ghost predicate Stored(t: CoreTables, chain: seq<Block>, mode: Mode) {
    UtxoFacts(t, chain) && (mode.current ==> Current(t, chain, mode.full)) && Logs(t, chain, mode.looks)
  }

  // ---------------------------------------------------------------- what a window may read

  lemma {:induction false} SpentBefore(m: Ledger, es: seq<Event>, k: OutputKey)
    requires ValidEvents(m, es) && k in m
    ensures k !in CreatedIn(es)
    ensures (exists s :: Consumed(s) in es && s.key == k) ==> m[k].spent.None?
    decreases es
  {
    if es != [] {
      var n := Step(m, es[0]);
      SpentBefore(n, es[1..], k);
      if s :| Consumed(s) in es && s.key == k {
        assert es[0] == Consumed(s) || Consumed(s) in es[1..];
      }
    }
  }

  lemma {:induction false} SpendInBlocks(blocks: seq<Block>, b: Block, s: Spend)
    requires b in blocks && s in b.spends
    ensures Consumed(s) in Events(blocks)
  {
    var n := |blocks| - 1;
    if b == blocks[n] {
      var i :| 0 <= i < |b.spends| && b.spends[i] == s;
      assert BlockEvents(b)[|b.creates| + i] == Consumed(s);
    } else {
      SpendInBlocks(blocks[..n], b, s);
    }
  }

  /**
   * The keys a window reads are unspent outputs of the chain below it, and every spend of an older output is among
   * them.
   */
  lemma {:induction false} ExternalKeysAre(chain: seq<Block>, w: seq<Block>)
    requires ValidChain(chain + w)
    ensures forall k :: k in ExternalKeys(w) ==> k in LedgerOf(chain) && LedgerOf(chain)[k].spent.None?
    ensures forall s :: Consumed(s) in Events(w) && s.key in LedgerOf(chain) ==> s.key in ExternalKeys(w)
    ensures forall s :: Consumed(s) in Events(w) && s.key !in LedgerOf(chain) ==> s.key in CreatedInWindow(w)
  {
    LedgerConcat(chain, w);
    var m, es := LedgerOf(chain), Events(w);
    hide LedgerOf, Events, ValidEvents, Run;
    forall k | k in ExternalKeys(w) ensures k in m && m[k].spent.None? {
      var b, s :| b in w && s in b.spends && s.key == k;
      SpendInBlocks(w, b, s);
      SpentKeysExist(m, es, s);
      CreatedTerms(m, es, k);
      SpentBefore(m, es, k);
    }
    forall s | Consumed(s) in es
      ensures s.key in m ==> s.key in ExternalKeys(w)
      ensures s.key !in m ==> s.key in CreatedInWindow(w)
    {
      if s.key in m {
        SpentBefore(m, es, s.key);
        var b := SpendOfBlocks(w, s);
      } else {
        SpentKeysExist(m, es, s);
        CreatedTerms(m, es, s.key);
      }
    }
  }

  /** What a window found when it read its external keys from rows meaning c. */
  ghost predicate ReadFrom(prevouts: Ledger, c: Ledger, keys: set<OutputKey>) {
    prevouts == map k | k in keys && k in c :: c[k]
  }

  /** Complete current rows never miss a prevout. */
  lemma {:induction false} FullFindsAll(chain: seq<Block>, w: seq<Block>, c: Ledger, prevouts: Ledger)
    requires ValidChain(chain + w) && View(c, LedgerOf(chain), true) && ReadFrom(prevouts, c, ExternalKeys(w))
    ensures ExternalKeys(w) <= prevouts.Keys
  {
    ExternalKeysAre(chain, w);
    hide ValidChain, LedgerOf, ExternalKeys;
  }

  lemma {:induction false} PrevoutsFit(chain: seq<Block>, w: seq<Block>, c: Ledger, prevouts: Ledger, full: bool)
    requires ValidChain(chain + w) && View(c, LedgerOf(chain), full) && ReadFrom(prevouts, c, ExternalKeys(w))
    requires ExternalKeys(w) <= prevouts.Keys
    ensures LookupFits(prevouts + CreatedInWindow(w), LedgerOf(chain + w), Events(w))
    ensures Covers(prevouts, c, map[], LedgerOf(chain), Events(w))
  {
    ExternalKeysAre(chain, w);
    LedgerConcat(chain, w);
    assert CreatedInWindow(w) == CreatedIn(Events(w));
    var look, m, es := prevouts + CreatedInWindow(w), LedgerOf(chain), Events(w);
    hide LedgerOf, Events, ValidEvents, Run, ExternalKeys, CreatedInWindow, ValidChain;
    forall s | Consumed(s) in es
      ensures s.key in look && s.key in LedgerOf(chain + w) && Terms(look[s.key]) == Terms(LedgerOf(chain + w)[s.key])
    {
      SpentKeysExist(m, es, s);
      CreatedTerms(m, es, s.key);
      if s.key in m {
        RunKeepsTerms(m, es, s.key);
        SpentBefore(m, es, s.key);
      }
    }
  }

  // ---------------------------------------------------------------- the current state after a window

  lemma {:induction false} AgreesAtStart(c: Ledger, prevouts: Ledger, m: Ledger, es: seq<Event>, from: nat, full: bool)
    requires View(c, m, full) && Covers(prevouts, c, map[], m, es) && ValidEvents(m, es) && AtOrAbove(es, from)
    ensures Agrees(c, prevouts, NO_MUTATION, m, m, es, from, full)
  {
    assert c + map[] == c;
    assert DeltasAre(map[], m, m) && TouchedFrom(map[], from);
    hide View, Covers, ValidEvents, AtOrAbove, DeltasAre, TouchedFrom;
  }

  lemma {:induction false} WindowEvents(chain: seq<Block>, w: seq<Block>)
    requires ValidChain(chain + w)
    ensures ValidEvents(LedgerOf(chain), Events(w)) && AtOrAbove(Events(w), |chain|)
    ensures Run(LedgerOf(chain), Events(w)) == LedgerOf(chain + w)
  {
    assert (chain + w)[|chain|..|chain + w|] == w;
    LedgerConcat(chain, w);
    BlockHeights(chain + w, |chain|, |chain + w|);
  }

  lemma {:induction false} WindowStartAgrees(chain: seq<Block>, w: seq<Block>, c: Ledger, prevouts: Ledger, full: bool)
    requires ValidChain(chain + w) && View(c, LedgerOf(chain), full) && ReadFrom(prevouts, c, ExternalKeys(w))
    requires ExternalKeys(w) <= prevouts.Keys
    ensures Agrees(c, prevouts, NO_MUTATION, LedgerOf(chain), LedgerOf(chain), Events(w), |chain|, full)
    ensures Run(LedgerOf(chain), Events(w)) == LedgerOf(chain + w)
  {
    hide Events, LedgerOf, View, Covers, LookupFits, ValidChain, ExternalKeys, ReadFrom, Agrees, AtOrAbove, ValidEvents,
         Run;
    PrevoutsFit(chain, w, c, prevouts, full);
    WindowEvents(chain, w);
    AgreesAtStart(c, prevouts, LedgerOf(chain), Events(w), |chain|, full);
  }

  /** The mutation of a window, starting from rows meaning c. */
  lemma {:induction false} WindowMutates(chain: seq<Block>, w: seq<Block>, c: Ledger, prevouts: Ledger, full: bool)
    requires ValidChain(chain + w) && View(c, LedgerOf(chain), full) && ReadFrom(prevouts, c, ExternalKeys(w))
    requires ExternalKeys(w) <= prevouts.Keys
    ensures var r := Mutate(NO_MUTATION, Events(w), prevouts);
            && r.Mutated?
            && View(c + r.mutation.next, LedgerOf(chain + w), full)
            && DeltasAre(r.mutation.deltas, LedgerOf(chain), LedgerOf(chain + w))
            && TouchedFrom(r.mutation.next, |chain|)
  {
    var m := LedgerOf(chain);
    hide Agrees, Mutate, Events, LedgerOf, ValidChain, View;
    WindowStartAgrees(chain, w, c, prevouts, full);
    MutationAgrees(c, prevouts, NO_MUTATION, m, m, Events(w), |chain|, full);
    UnpackAgrees(c, prevouts, Mutate(NO_MUTATION, Events(w), prevouts).mutation, m, LedgerOf(chain + w), |chain|, full);
  }

  lemma {:induction false} UnpackAgrees(c: Ledger, prevouts: Ledger, mu: Mutation, before: Ledger, m: Ledger, from: nat,
      full: bool)
    requires Agrees(c, prevouts, mu, before, m, [], from, full)
    ensures View(c + mu.next, m, full) && DeltasAre(mu.deltas, before, m) && TouchedFrom(mu.next, from)
  {}

  lemma {:induction false} NextVersionsBounded(c: Ledger, next: Ledger, m: Ledger, full: bool, h: nat)
    requires View(c + next, m, full) && Below(m, h)
    ensures Bounded(OutputRows(next), 2 * h)
  {
    forall r | r in OutputRows(next) ensures r.version < 2 * h {
      assert (c + next)[r.key] == next[r.key];
      assert m[r.key] == r.value;
    }
  }

  lemma {:induction false} BoundedUnion<K, V>(t: Table<K, V>, rows: Table<K, V>, low: nat, high: nat)
    requires Bounded(t, low) && Bounded(rows, high) && low <= high
    ensures Bounded(t + rows, high)
  {}

  function NextAmounts(amounts: map<Address, int>, deltas: map<Address, int>): map<Address, int> {
    map a | a in deltas :: (if a in amounts then amounts[a] else 0) + deltas[a]
  }

  /** The check for negative balances never fires, and the new amounts are those of the ledger. */
  lemma {:induction false} AmountsAdvance(amounts: map<Address, int>, deltas: map<Address, int>, before: Ledger,
      after: Ledger)
    requires BalancesAre(amounts, before) && DeltasAre(deltas, before, after) && NonNegative(after)
    ensures BalancesAre(amounts + NextAmounts(amounts, deltas), after)
    ensures forall a :: a in deltas ==> NextAmounts(amounts, deltas)[a] >= 0
  {
    forall a | a != ""
      ensures (if a in amounts + NextAmounts(amounts, deltas) then (amounts + NextAmounts(amounts, deltas))[a]
              else 0) == BalanceOf(after, a)
      ensures a in deltas ==> NextAmounts(amounts, deltas)[a] >= 0
    {
      assert DeltaOf(deltas, a) == BalanceOf(after, a) - BalanceOf(before, a);
      BalanceNonNegative(after, a);
    }
  }

  function NextCurrent(t: CoreTables, w: seq<Block>, mu: Mutation, next: map<Address, int>): CoreTables
    requires w != []
  {
    t.(outputs := t.outputs + OutputRows(mu.next),
       balances := t.balances + RowsAt(next, BalanceVersion(w[|w| - 1].height)),
       applied := t.applied + multiset(Headers(w)))
  }

  lemma {:induction false} WindowEndVersion(chain: seq<Block>, w: seq<Block>)
    requires ValidChain(chain + w) && w != []
    ensures BalanceVersion(w[|w| - 1].height) == 2 * |chain + w| - 1
  {
    assert (chain + w)[|chain + w| - 1] == w[|w| - 1];
  }

  lemma {:induction false} HeadersConcat(chain: seq<Block>, w: seq<Block>)
    ensures Headers(chain + w) == Headers(chain) + Headers(w)
  {}

  lemma {:induction false} LedgerFacts(chain: seq<Block>)
    requires ValidChain(chain)
    ensures NonNegative(LedgerOf(chain)) && Below(LedgerOf(chain), |chain|)
  {
    RunNonNegative(map[], Events(chain));
    LedgerBelow(chain);
  }

  /**
   * However a chain is cut into windows, reading the highest version of each key after a window gives the
   * rows and amounts of the longer chain.
   */
  lemma {:induction false} CurrentAdvances(t: CoreTables, chain: seq<Block>, w: seq<Block>, c: Ledger,
      amounts: map<Address, int>, prevouts: Ledger, full: bool)
    requires ValidChain(chain + w) && w != [] && CurrentIs(t, chain, c, amounts, full)
    requires ReadFrom(prevouts, c, ExternalKeys(w)) && ExternalKeys(w) <= prevouts.Keys
    ensures var r := Mutate(NO_MUTATION, Events(w), prevouts);
            && r.Mutated?
            && (forall a :: a in r.mutation.deltas ==> NextAmounts(amounts, r.mutation.deltas)[a] >= 0)
            && CurrentIs(NextCurrent(t, w, r.mutation, NextAmounts(amounts, r.mutation.deltas)), chain + w,
                         c + r.mutation.next, amounts + NextAmounts(amounts, r.mutation.deltas), full)
  {
    var longer := chain + w;
    WindowMutates(chain, w, c, prevouts, full);
    var mu := Mutate(NO_MUTATION, Events(w), prevouts).mutation;
    var more := NextAmounts(amounts, mu.deltas);
    LedgerFacts(longer);
    WindowEndVersion(chain, w);
    HeadersConcat(chain, w);
    hide Mutate, Events, LedgerOf, ValidChain, View, TouchedFrom, Below, NonNegative, BalancesAre, DeltasAre, Faithful,
         NextAmounts, ExternalKeys, Headers;
    AmountsAdvance(amounts, mu.deltas, LedgerOf(chain), LedgerOf(longer));
    WindowRowsOutrank(mu.next, |chain|);
    NextVersionsBounded(c, mu.next, LedgerOf(longer), full, |longer|);
    NewerRowsWin(t.outputs, c, OutputRows(mu.next), mu.next, 2 * |chain|);
    var rows := RowsAt(more, BalanceVersion(w[|w| - 1].height));
    NewerRowsWin(t.balances, amounts, rows, more, 2 * |chain|);
    BoundedUnion(t.outputs, OutputRows(mu.next), 2 * |chain|, 2 * |longer|);
    BoundedUnion(t.balances, rows, 2 * |chain|, 2 * |longer|);
  }
}
