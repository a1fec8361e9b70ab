/** Inserts the server is still running: rows that may land at any moment, in any parts, or never. */
module InFlight {
  import opened Chain
  import opened Projection
  import opened Store
  import opened Tables
  import opened FactTables
  import opened AppliedLogs
  import opened Materialization
  import opened CoreState
  import opened CoreTails

  /** Adds rows of the current state. */
  function AddCurrent(t: CoreTables, rows: CoreTables): CoreTables {
    t.(outputs := t.outputs + rows.outputs, balances := t.balances + rows.balances, applied := t.applied + rows.applied)
  }

  /** Rows landing in their tables. */
  function Together(t: CoreTables, part: CoreTables): CoreTables {
    AddCurrent(AddFacts(t, part), part).(processed := t.processed + part.processed)
  }

  function Without(f: CoreTables, part: CoreTables): CoreTables {
    CoreTables(f.creates - part.creates, f.spends - part.spends, f.movements - part.movements, f.facts - part.facts,
               f.processed - part.processed, f.outputs - part.outputs, f.balances - part.balances,
                 f.applied - part.applied)
  }

  /** The rows of one are among those of the other. */
  ghost predicate PartOf(part: CoreTables, f: CoreTables) {
    && part.creates <= f.creates && part.spends <= f.spends && part.processed <= f.processed
    && part.movements <= f.movements && part.facts <= f.facts
    && part.outputs <= f.outputs && part.balances <= f.balances && part.applied <= f.applied
  }

  predicate Drained(f: CoreTables) {
    f == NO_TABLES
  }

  /** Facts and processed blocks in flight all lie at or above a height. */
  ghost predicate FlightFrom(f: CoreTables, h: nat) {
    AllFrom(f, h) && NoneBelow(f.processed, ProcessedBelow(h))
  }

  ghost predicate FactsAre(t: CoreTables, chain: seq<Block>, looks: Lookups) {
    UtxoFacts(t, chain) && Logs(t, chain, looks)
  }

  lemma {:induction false} DrainedFrom(f: CoreTables, h: nat)
    requires Drained(f)
    ensures FlightFrom(f, h)
  {}

  /** Nothing lands, and nothing is lost, once everything has arrived. */
  lemma {:induction false} NothingInFlight(t: CoreTables, f: CoreTables, part: CoreTables)
    requires Drained(f) && PartOf(part, f)
    ensures Together(t, part) == t && Without(f, part) == f
  {
    EmptyPart(part);
    assert t.creates + multiset{} == t.creates && t.spends + multiset{} == t.spends
           && t.processed + multiset{} == t.processed;
  }

  lemma {:induction false} EmptyPart(part: CoreTables)
    requires PartOf(part, NO_TABLES)
    ensures part == NO_TABLES
  {
    EmptyBag(part.creates);
    EmptyBag(part.spends);
    EmptyBag(part.processed);
    EmptyBag(part.movements);
    EmptyBag(part.facts);
    EmptyBag(part.outputs);
    EmptyBag(part.balances);
    EmptyBag(part.applied);
  }

  lemma {:induction false} EmptyBag<T>(part: multiset<T>)
    requires part <= multiset{}
    ensures part == multiset{}
  {}

  /** Rows landing above a height leave the rows below it alone. */
  lemma {:induction false} LandingKeepsPrefix(t: CoreTables, f: CoreTables, part: CoreTables, chain: seq<Block>,
      looks: Lookups)
    requires HasPrefix(t, chain, looks) && FlightFrom(f, |chain|) && PartOf(part, f)
    ensures HasPrefix(Together(t, part), chain, looks)
  {
    hide Kept, NoneBelow, HasPrefix, CreateBelow, SpendBelow, ProcessedBelow, MovementBelow, FactBelow;
    var h := |chain|;
    KeptAdd(t.creates, f.creates, part.creates, CreateBelow(h));
    KeptAdd(t.spends, f.spends, part.spends, SpendBelow(h));
    KeptAdd(t.processed, f.processed, part.processed, ProcessedBelow(h));
    KeptAdd(t.movements, f.movements, part.movements, MovementBelow(h));
    KeptAdd(t.facts, f.facts, part.facts, FactBelow(h));
    SameBelowKeepsPrefix(t, Together(t, part), chain, h, looks);
  }

  lemma {:induction false} RestFrom(f: CoreTables, part: CoreTables, h: nat)
    requires FlightFrom(f, h)
    ensures FlightFrom(Without(f, part), h)
  {
    hide CreateBelow, SpendBelow, ProcessedBelow, MovementBelow, FactBelow;
    forall r | r in f.creates - part.creates ensures r in f.creates {}
  }

  lemma {:induction false} MoveBag<T>(t: multiset<T>, f: multiset<T>, part: multiset<T>)
    requires part <= f
    ensures (t + part) + (f - part) == t + f
  {}

  /** Landing moves rows, it neither makes nor loses any. */
  lemma {:induction false} LandingConserves(t: CoreTables, f: CoreTables, part: CoreTables)
    requires PartOf(part, f)
    ensures Together(Together(t, part), Without(f, part)) == Together(t, f)
  {
    MoveBag(t.creates, f.creates, part.creates);
    MoveBag(t.spends, f.spends, part.spends);
    MoveBag(t.movements, f.movements, part.movements);
    MoveBag(t.facts, f.facts, part.facts);
    MoveBag(t.processed, f.processed, part.processed);
    MoveBag(t.outputs, f.outputs, part.outputs);
    MoveBag(t.balances, f.balances, part.balances);
    MoveBag(t.applied, f.applied, part.applied);
  }

  /** Once everything has landed: the facts of the longer chain, and its processed blocks when those were sent too. */
  ghost predicate Complete(u: CoreTables, stored: seq<Block>, target: seq<Block>, looks: Lookups, sent: bool) {
    && UtxoRowsOf(u.creates, u.spends, target) && Logs(u, target, looks)
    && u.processed == ProcessedRows(if sent then target else stored)
  }

  /** Stored rows and rows in flight together are complete; no processed block leaves before the facts are in. */
  ghost predicate Adding(t: CoreTables, f: CoreTables, stored: seq<Block>, target: seq<Block>, looks: Lookups,
      sent: bool) {
    Complete(Together(t, f), stored, target, looks, sent) && (!sent ==> f.processed == multiset{})
  }

  lemma {:induction false} LandingKeepsAdding(t: CoreTables, f: CoreTables, part: CoreTables, stored: seq<Block>,
      target: seq<Block>, looks: Lookups, sent: bool)
    requires Adding(t, f, stored, target, looks, sent) && PartOf(part, f)
    ensures Adding(Together(t, part), Without(f, part), stored, target, looks, sent)
  {
    hide Complete, Together;
    LandingConserves(t, f, part);
  }

  /** Current rows of the chain once everything in flight has landed. */
  ghost predicate CurrentComing(t: CoreTables, f: CoreTables, target: seq<Block>) {
    Current(Together(t, f), target, true)
  }

  lemma {:induction false} LandingKeepsCurrent(t: CoreTables, f: CoreTables, part: CoreTables, target: seq<Block>)
    requires CurrentComing(t, f, target) && PartOf(part, f)
    ensures CurrentComing(Together(t, part), Without(f, part), target)
  {
    hide Current, Together;
    LandingConserves(t, f, part);
  }

  /** The current state is a matter of the current rows only. */
  lemma {:induction false} SameCurrent(t: CoreTables, u: CoreTables, chain: seq<Block>, full: bool)
    requires Current(t, chain, full) && u.outputs == t.outputs && u.balances == t.balances && u.applied == t.applied
    ensures Current(u, chain, full)
  {
    var c, amounts :| CurrentIs(t, chain, c, amounts, full);
    assert CurrentIs(u, chain, c, amounts, full);
  }

  lemma {:induction false} SentFields(t: CoreTables, w: seq<Block>, rows: CoreTables)
    requires rows.processed == multiset{}
    ensures var u, v := Together(t, rows), AddProcessed(AddFacts(t, rows), w);
            && u.creates == v.creates && u.spends == v.spends && u.movements == v.movements && u.facts == v.facts
            && u.processed == t.processed
  {
    hide ProcessedRows;
    assert t.processed + multiset{} == t.processed;
  }

  lemma {:induction false} FactsComplete(t: CoreTables, v: CoreTables, u: CoreTables, stored: seq<Block>,
      target: seq<Block>, looks: Lookups)
    requires UtxoFacts(v, target) && Logs(v, target, looks) && UtxoFacts(t, stored)
    requires u.creates == v.creates && u.spends == v.spends && u.movements == v.movements && u.facts == v.facts
    requires u.processed == t.processed
    ensures Complete(u, stored, target, looks, false)
  {
    hide UtxoRowsOf, ProcessedRows, MovementsOf, FactsOf, Kept;
  }

  /** The facts of a window leave together; whatever it saw, they continue those stored. */
  lemma {:induction false} FactsSent(t: CoreTables, chain: seq<Block>, w: seq<Block>, look: Ledger, looks: Lookups,
      l: Lookup)
    requires ValidChain(chain + w) && FactsAre(t, chain, looks) && Sees(l, look, LedgerOf(chain + w), Events(w))
    ensures Adding(t, WindowFactRows(w, look), chain, chain + w, LookAfter(looks, |chain|, |chain + w|, l), false)
    ensures FlightFrom(WindowFactRows(w, look), |chain|)
  {
    hide ValidChain, UtxoFacts, Logs, Together, AddFacts, AddProcessed, Sees, LedgerOf, Events, AllFrom, Complete,
         CreateRows, SpendRows, LookAfter;
    var rows, after := WindowFactRows(w, look), LookAfter(looks, |chain|, |chain + w|, l);
    WindowRowsFrom(chain, w, look);
    UtxoFactsAdvance(t, chain, w, look);
    LogsAdvance(t, chain, w, look, looks, l);
    SentFields(t, w, rows);
    FactsComplete(t, AddProcessed(AddFacts(t, rows), w), Together(t, rows), chain, chain + w, after);
  }

  lemma {:induction false} ProcessedComplete(u: CoreTables, v: CoreTables, stored: seq<Block>, target: seq<Block>,
      looks: Lookups)
    requires Complete(u, stored, target, looks, false)
    requires v.creates == u.creates && v.spends == u.spends && v.movements == u.movements && v.facts == u.facts
    requires v.processed == ProcessedRows(target)
    ensures Complete(v, stored, target, looks, true)
  {
    hide UtxoRowsOf, ProcessedRows, MovementsOf, FactsOf, Kept;
  }

  lemma {:induction false} ProcessedFields(t: CoreTables, rows: Table<nat, Hash>)
    ensures var v := Together(t, NO_TABLES.(processed := rows));
            && v.creates == t.creates && v.spends == t.spends && v.movements == t.movements && v.facts == t.facts
            && v.outputs == t.outputs && v.balances == t.balances && v.applied == t.applied
               && v.processed == t.processed + rows
  {}

  lemma {:induction false} ProcessedSent(t: CoreTables, f: CoreTables, chain: seq<Block>, w: seq<Block>, looks: Lookups)
    requires ValidChain(chain + w) && Adding(t, f, chain, chain + w, looks, false) && Drained(f)
    ensures Adding(t, NO_TABLES.(processed := ProcessedRows(w)), chain, chain + w, looks, true)
    ensures FlightFrom(NO_TABLES.(processed := ProcessedRows(w)), |chain|)
  {
    hide ValidChain, Complete, Together, ProcessedRows;
    WindowRowsFrom(chain, w, map[]);
    ProcessedConcat(chain, w);
    NothingInFlight(t, f, f);
    StillStored(t, chain, chain + w, looks);
    ProcessedFields(t, ProcessedRows(w));
    ProcessedComplete(t, Together(t, NO_TABLES.(processed := ProcessedRows(w))), chain, chain + w, looks);
  }

  lemma {:induction false} StillStored(t: CoreTables, stored: seq<Block>, target: seq<Block>, looks: Lookups)
    requires Complete(t, stored, target, looks, false)
    ensures t.processed == ProcessedRows(stored)
  {}

  /** Current rows sent once the facts are in change nothing about the facts. */
  lemma {:induction false} CurrentSent(t: CoreTables, f: CoreTables, rows: CoreTables, stored: seq<Block>,
      target: seq<Block>, looks: Lookups)
    requires Adding(t, f, stored, target, looks, false) && Drained(f) && OnlyCurrent(rows)
    ensures Adding(t, rows, stored, target, looks, false)
  {
    hide UtxoRowsOf, ProcessedRows, MovementsOf, FactsOf, Kept;
    NothingInFlight(t, f, f);
    assert t.creates + multiset{} == t.creates && t.spends + multiset{} == t.spends
           && t.processed + multiset{} == t.processed;
    assert t.movements + multiset{} == t.movements && t.facts + multiset{} == t.facts;
  }

  predicate OnlyCurrent(rows: CoreTables) {
    && rows.creates == multiset{} && rows.spends == multiset{} && rows.movements == multiset{}
    && rows.facts == multiset{} && rows.processed == multiset{}
  }

  predicate OnlyFacts(rows: CoreTables) {
    rows.outputs == multiset{} && rows.balances == multiset{} && rows.applied == multiset{}
  }

  lemma {:induction false} AllLanded(t: CoreTables, f: CoreTables, stored: seq<Block>, target: seq<Block>,
      looks: Lookups)
    requires Adding(t, f, stored, target, looks, true) && Drained(f)
    ensures FactsAre(t, target, looks)
  {
    hide UtxoRowsOf, ProcessedRows, MovementsOf, FactsOf, Kept;
    NothingInFlight(t, f, f);
  }

  /** Deletes above a height that may be only partly done. */
  ghost predicate Shrunk(t: CoreTables, u: CoreTables, from: nat) {
    SameBelow(t, u, from) && PartOf(u, t)
  }

  lemma {:induction false} NothingToCut<T(!new)>(t: multiset<T>, u: multiset<T>, below: T -> bool)
    requires Kept(t, u, below) && u <= t && AllBelow(t, below)
    ensures u == t
  {
    forall x ensures u[x] == t[x] {}
  }

  /** Above everything stored there is nothing a delete could remove. */
  lemma {:induction false} ShrunkAbove(t: CoreTables, u: CoreTables, chain: seq<Block>, looks: Lookups)
    requires ValidChain(chain) && FactsAre(t, chain, looks) && Shrunk(t, u, |chain|)
    ensures FactsAre(u, chain, looks)
  {
    hide ValidChain, Kept, AllBelow, CreateRows, SpendRows, ProcessedRows, MovementsOf, FactsOf, Events,
         CreateBelow, SpendBelow, ProcessedBelow, MovementBelow, FactBelow, Truthful;
    var h := |chain|;
    UtxoRowHeights(chain);
    ProcessedHeights(chain);
    LogHeights(chain, looks);
    NothingToCut(t.creates, u.creates, CreateBelow(h));
    NothingToCut(t.spends, u.spends, SpendBelow(h));
    NothingToCut(t.processed, u.processed, ProcessedBelow(h));
    NothingToCut(t.movements, u.movements, MovementBelow(h));
    NothingToCut(t.facts, u.facts, FactBelow(h));
  }

  lemma {:induction false} ShrunkKeepsPrefix(t: CoreTables, u: CoreTables, chain: seq<Block>, from: nat, looks: Lookups)
    requires HasPrefix(t, chain, looks) && Shrunk(t, u, from) && |chain| <= from
    ensures HasPrefix(u, chain, looks)
  {
    hide HasPrefix, SameBelow;
    SameBelowKeepsPrefix(t, u, chain, from, looks);
  }

  lemma {:induction false} CleanPrefix(t: CoreTables, chain: seq<Block>, h: nat, looks: Lookups)
    requires ValidChain(chain) && FactsAre(t, chain, looks) && h <= |chain|
    ensures HasPrefix(t, chain[..h], looks)
  {
    hide ValidChain, HasPrefix, UtxoFacts, Logs;
    StoredHasPrefix(t, chain, h, looks);
  }

  lemma {:induction false} CutIsClean(t: CoreTables, u: CoreTables, chain: seq<Block>, looks: Lookups)
    requires ValidChain(chain) && HasPrefix(t, chain, looks) && TailDeleted(t, u, |chain|)
    ensures FactsAre(u, chain, looks)
  {
    hide ValidChain, HasPrefix, TailDeleted, UtxoFacts, Logs;
    TailDeleteRestores(t, u, chain, looks);
  }

  /** Replaces the current rows by any others. */
  function WithCurrent(t: CoreTables, current: CoreTables): CoreTables {
    t.(outputs := current.outputs, balances := current.balances, applied := current.applied)
  }

  lemma {:induction false} CurrentAside(t: CoreTables, current: CoreTables, chain: seq<Block>, looks: Lookups)
    ensures FactsAre(t, chain, looks) ==> FactsAre(WithCurrent(t, current), chain, looks)
    ensures HasPrefix(t, chain, looks) ==> HasPrefix(WithCurrent(t, current), chain, looks)
  {}

  /** The highest processed height, as read from the warehouse; -1 when there is none. */
  ghost predicate IsTail(processed: Table<nat, Hash>, tail: int) {
    && (tail >= 0 ==> exists r :: r in processed && r.key == tail)
    && (tail < 0 ==> tail == -1 && processed == multiset{})
    && (forall r :: r in processed ==> r.key <= tail)
  }

  lemma {:induction false} TailIsLast(chain: seq<Block>, tail: int)
    requires ValidChain(chain) && IsTail(ProcessedRows(chain), tail)
    ensures tail == |chain| - 1
  {
    if chain != [] {
      var n := |chain| - 1;
      ProcessedIn(chain, HeaderRow(chain[n]));
      assert HeaderRow(chain[n]).key == n;
    }
    if r :| r in ProcessedRows(chain) && r.key == tail {
      ProcessedIn(chain, r);
    }
  }
}
