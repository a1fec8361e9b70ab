/** A window above missing blocks: what it needs from them, and what happens when it does. */
module Holes {
  import opened Chain
  import opened Balances
  import opened Store
  import opened StoreTheorems
  import opened Tables
  import opened FactTables
  import opened Materialization
  import opened CoreWindow
  import opened CoreState
  import opened CoreTails
  import opened WindowReads

  /** None of the outputs a window spends was created in the blocks that are missing below it. */
  predicate NeedsNothing(w: seq<Block>, missing: seq<Block>) {
    ExternalKeys(w) !! CreatedInWindow(missing).Keys
  }

  // ---------------------------------------------------------------- events that do not need those before them

  /** The smaller ledger knows every output of the larger one but some, and has spent none that is unspent there. */
  ghost predicate AllBut(m: Ledger, n: Ledger, but: set<OutputKey>) {
    && (forall k :: k in m ==> k in n && (n[k].spent.None? ==> m[k].spent.None?))
    && (forall k :: k in n ==> k in m || k in but)
  }

  lemma {:induction false} ValidWithout(m: Ledger, n: Ledger, but: set<OutputKey>, es: seq<Event>)
    requires ValidEvents(n, es) && AllBut(m, n, but) && forall s :: Consumed(s) in es ==> s.key !in but
    ensures ValidEvents(m, es)
    decreases es
  {
    if es != [] {
      assert es[0] in es && forall e :: e in es[1..] ==> e in es;
      ValidWithout(Step(m, es[0]), Step(n, es[0]), but, es[1..]);
    }
  }

  lemma {:induction false} RunIsAllBut(m: Ledger, gap: seq<Event>)
    requires ValidEvents(m, gap)
    ensures AllBut(m, Run(m, gap), CreatedIn(gap).Keys)
    ensures forall k :: k in m ==> k !in CreatedIn(gap)
  {
    forall k | k in m
      ensures k in Run(m, gap) && (Run(m, gap)[k].spent.None? ==> m[k].spent.None?) && k !in CreatedIn(gap)
    {
      RunKeepsTerms(m, gap, k);
      SpentBefore(m, gap, k);
    }
    forall k | k in Run(m, gap) ensures k in m || k in CreatedIn(gap) { CreatedTerms(m, gap, k); }
  }

  lemma {:induction false} Parts(node: seq<Block>, lo: nat, from: nat, hi: nat)
    requires ValidChain(node) && lo <= from <= hi <= |node|
    ensures var m, gap := LedgerOf(node[..lo]), Events(node[lo..from]);
            && ValidEvents(m, gap) && LedgerOf(node[..from]) == Run(m, gap)
            && ValidEvents(Run(m, gap), Events(node[from..hi]))
    ensures ValidChain(node[..lo]) && ValidChain(node[..from] + node[from..hi])
  {
    hide ValidChain, Run;
    ValidPrefix(node, lo);
    ValidPrefix(node, from);
    ValidPrefix(node, hi);
    assert node[..from] == node[..lo] + node[lo..from] && node[..hi] == node[..from] + node[from..hi];
    LedgerConcat(node[..lo], node[lo..from]);
    LedgerConcat(node[..from], node[from..hi]);
    EventsOfValid(node[..from]);
    EventsOfValid(node[..hi]);
  }

  lemma {:induction false} EventsOfValid(chain: seq<Block>)
    requires ValidChain(chain)
    ensures ValidEvents(map[], Events(chain))
  {}

  lemma {:induction false} SpendsOutside(node: seq<Block>, lo: nat, from: nat, hi: nat)
    requires ValidChain(node) && lo <= from <= hi <= |node| && NeedsNothing(node[from..hi], node[lo..from])
    ensures forall s :: Consumed(s) in Events(node[from..hi]) ==> s.key !in CreatedInWindow(node[lo..from])
  {
    var w := node[from..hi];
    Parts(node, lo, from, hi);
    ExternalKeysAre(node[..from], w);
    hide ValidChain, LedgerOf, Events, ExternalKeys, CreatedIn, ValidEvents, Run;
    forall s | Consumed(s) in Events(w) ensures s.key !in CreatedInWindow(node[lo..from]) {
      if s.key in LedgerOf(node[..from]) {
        assert s.key in ExternalKeys(w);
      } else {
        CreatedTerms(LedgerOf(node[..lo]), Events(node[lo..from]), s.key);
      }
    }
  }

  /** A window that needs nothing of the missing blocks is valid on the ledger below them. */
  lemma {:induction false} ValidAbove(node: seq<Block>, lo: nat, from: nat, hi: nat)
    requires ValidChain(node) && lo <= from <= hi <= |node| && NeedsNothing(node[from..hi], node[lo..from])
    ensures ValidEvents(LedgerOf(node[..lo]), Events(node[from..hi]))
  {
    hide ValidChain, LedgerOf, Events, ExternalKeys, CreatedIn, ValidEvents, Run, NeedsNothing;
    Parts(node, lo, from, hi);
    SpendsOutside(node, lo, from, hi);
    var m, gap := LedgerOf(node[..lo]), Events(node[lo..from]);
    RunIsAllBut(m, gap);
    ValidWithout(m, Run(m, gap), CreatedIn(gap).Keys, Events(node[from..hi]));
  }

  // ---------------------------------------------------------------- a window that goes through

  lemma {:induction false} CoversSpends(m: Ledger, w: seq<Block>, c: Ledger, prevouts: Ledger)
    requires ValidEvents(m, Events(w)) && View(c, m, true) && ReadFrom(prevouts, c, ExternalKeys(w))
    ensures Covers(prevouts, c, map[], m, Events(w))
  {
    hide Events, ValidEvents;
    forall s | Consumed(s) in Events(w) && s.key in m
      ensures s.key in prevouts && s.key in c && prevouts[s.key] == c[s.key]
    {
      SpentBefore(m, Events(w), s.key);
      var b := SpendOfBlocks(w, s);
    }
  }

  lemma {:induction false} GoesThrough(m: Ledger, w: seq<Block>, c: Ledger, prevouts: Ledger)
    requires ValidEvents(m, Events(w)) && View(c, m, true) && ReadFrom(prevouts, c, ExternalKeys(w))
    ensures var r := Mutate(NO_MUTATION, Events(w), prevouts);
            r.Mutated? && DeltasAre(r.mutation.deltas, m, Run(m, Events(w)))
  {
    hide Events, ValidEvents, View, Covers, Mutate, DeltasAre, TouchedFrom, Agrees, ExternalKeys, AtOrAbove, Run;
    CoversSpends(m, w, c, prevouts);
    AboveNothing(Events(w));
    AgreesAtStart(c, prevouts, m, Events(w), 0, true);
    MutationAgrees(c, prevouts, NO_MUTATION, m, m, Events(w), 0, true);
    UnpackAgrees(c, prevouts, Mutate(NO_MUTATION, Events(w), prevouts).mutation, m, Run(m, Events(w)), 0, true);
  }

  lemma {:induction false} AboveNothing(es: seq<Event>)
    ensures AtOrAbove(es, 0)
  {}

  /**
   * A window above missing blocks goes through, whatever its reads return, if and only if it needs nothing of them;
   * then no balance it reads goes negative either.
   */
  lemma {:induction false} HoleDecides(t: CoreTables, node: seq<Block>, lo: nat, from: nat, hi: nat, prevouts: Ledger)
    requires ValidChain(node) && lo <= from <= hi <= |node| && Current(t, node[..lo], true)
    requires Latest(t.outputs, ExternalKeys(node[from..hi]), prevouts)
    ensures var r := Mutate(NO_MUTATION, Events(node[from..hi]), prevouts);
            && (r.Mutated? <==> NeedsNothing(node[from..hi], node[lo..from]))
            && (r.Mutated? ==> forall found :: Latest(t.balances, r.mutation.deltas.Keys, found) ==>
                  NoneNegative(NextAmounts(found, r.mutation.deltas)))
  {
    hide ValidChain, LedgerOf, Events, ExternalKeys, CreatedIn, ValidEvents, Run, NeedsNothing, View, Faithful,
         BalancesAre, Latest, Mutate, DeltasAre, NoneNegative, NextAmounts, Bounded;
    var w, m := node[from..hi], LedgerOf(node[..lo]);
    var c, amounts :| CurrentIs(t, node[..lo], c, amounts, true);
    ReadsAre(t.outputs, c, ExternalKeys(w), prevouts);
    if NeedsNothing(w, node[lo..from]) {
      ValidAbove(node, lo, from, hi);
      GoesThrough(m, w, c, prevouts);
      var deltas := Mutate(NO_MUTATION, Events(w), prevouts).mutation.deltas;
      Parts(node, lo, from, hi);
      forall found | Latest(t.balances, deltas.Keys, found) ensures NoneNegative(NextAmounts(found, deltas)) {
        NoneGoesNegative(t, node[..lo], w, c, amounts, deltas, found);
      }
    } else {
      NeedsMissing(node, lo, from, hi, c, prevouts);
    }
  }

  lemma {:induction false} NoneGoesNegative(t: CoreTables, chain: seq<Block>, w: seq<Block>, c: Ledger,
      amounts: map<Address, int>, deltas: map<Address, int>, found: map<Address, int>)
    requires ValidChain(chain) && CurrentIs(t, chain, c, amounts, true)
    requires ValidEvents(LedgerOf(chain), Events(w))
    requires DeltasAre(deltas, LedgerOf(chain), Run(LedgerOf(chain), Events(w)))
    requires Latest(t.balances, deltas.Keys, found)
    ensures NoneNegative(NextAmounts(found, deltas))
  {
    hide LedgerOf, Events, ValidEvents, Run, View, Faithful, BalancesAre, Latest, DeltasAre, NextAmounts, Bounded,
         ValidChain, NonNegative, Below;
    LedgerFacts(chain);
    RunNonNegative(LedgerOf(chain), Events(w));
    AmountsRead(t, chain, c, amounts, deltas, found);
    AmountsAdvance(amounts, deltas, LedgerOf(chain), Run(LedgerOf(chain), Events(w)));
    AmountKeys(amounts, deltas);
  }

  /** A key of the missing blocks is unknown below them. */
  lemma {:induction false} MissingUnknown(node: seq<Block>, lo: nat, from: nat, k: OutputKey)
    requires ValidChain(node) && lo <= from <= |node| && k in CreatedInWindow(node[lo..from])
    ensures k !in LedgerOf(node[..lo])
  {
    hide ValidChain, LedgerOf, Events, CreatedIn, ValidEvents, Run;
    Parts(node, lo, from, from);
    RunIsAllBut(LedgerOf(node[..lo]), Events(node[lo..from]));
  }

  lemma {:induction false} NeedsMissing(node: seq<Block>, lo: nat, from: nat, hi: nat, c: Ledger, prevouts: Ledger)
    requires ValidChain(node) && lo <= from <= hi <= |node| && View(c, LedgerOf(node[..lo]), true)
    requires !NeedsNothing(node[from..hi], node[lo..from]) && ReadFrom(prevouts, c, ExternalKeys(node[from..hi]))
    ensures Mutate(NO_MUTATION, Events(node[from..hi]), prevouts).MissingPrevout?
  {
    hide ValidChain, LedgerOf, Events, ExternalKeys, CreatedIn, Mutate;
    var w := node[from..hi];
    var k :| k in ExternalKeys(w) && k in CreatedInWindow(node[lo..from]);
    MissingUnknown(node, lo, from, k);
    if Mutate(NO_MUTATION, Events(w), prevouts).Mutated? {
      MissingKeyStops(w, prevouts);
      assert false;
    }
  }

  // ---------------------------------------------------------------- a window that does not

  /**
   * When it needs an output of the missing blocks the repair does not find it either, so that the window fails, and
   * fails again every time it is tried.
   */
  lemma {:induction false} RepairFindsNothing(t: CoreTables, node: seq<Block>, lo: nat, from: nat, hi: nat,
      prevouts: Ledger, rows: Ledger)
    requires ValidChain(node) && lo < from <= hi <= |node| && UtxoFacts(t, node[..lo]) && Current(t, node[..lo], true)
    requires !NeedsNothing(node[from..hi], node[lo..from])
    requires Latest(t.outputs, ExternalKeys(node[from..hi]), prevouts)
    requires ReadAs(t.creates, t.spends, from - 1, ExternalKeys(node[from..hi]) - prevouts.Keys, rows)
    ensures exists k :: k in ExternalKeys(node[from..hi]) - prevouts.Keys && k !in rows
  {
    hide ValidChain, LedgerOf, Events, ExternalKeys, CreatedIn, View, Faithful, BalancesAre, Bounded, Latest, AsOf,
         UtxoRowsOf, ProcessedRows;
    var w := node[from..hi];
    var k :| k in ExternalKeys(w) && k in CreatedInWindow(node[lo..from]);
    MissingUnknown(node, lo, from, k);
    var c, amounts :| CurrentIs(t, node[..lo], c, amounts, true);
    ReadsAre(t.outputs, c, ExternalKeys(w), prevouts);
    NotCurrent(c, LedgerOf(node[..lo]), k);
    NotCreated(t, node, lo, from, k, ExternalKeys(w) - prevouts.Keys, rows);
  }

  lemma {:induction false} NotCurrent(c: Ledger, m: Ledger, k: OutputKey)
    requires View(c, m, true) && k !in m
    ensures k !in c
  {}

  lemma {:induction false} NotCreated(t: CoreTables, node: seq<Block>, lo: nat, from: nat, k: OutputKey,
      keys: set<OutputKey>, rows: Ledger)
    requires ValidChain(node) && lo < from <= |node| && UtxoFacts(t, node[..lo]) && k !in LedgerOf(node[..lo])
    requires ReadAs(t.creates, t.spends, from - 1, keys, rows)
    ensures k !in rows
  {
    hide ValidChain, Events, ProcessedRows, CreateRows, SpendRows;
    ValidPrefix(node, lo);
    EventsOfValid(node[..lo]);
    CreatesAreLedger(Events(node[..lo]), k);
    var created, spent :|
      Latest(AsOf(t.creates, from - 1), keys, created) && Latest(AsOf(t.spends, from - 1), keys, spent)
        && rows == Historical(created, spent);
    forall r | r in t.creates ensures r.key != k {}
  }
}
