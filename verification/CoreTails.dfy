/** Tail deletes, interrupted windows, repaired prevouts, and the state a materialization leaves. */
module CoreTails {
  import opened Chain
  import opened Balances
  import opened Projection
  import opened Store
  import opened StoreProofs
  import opened StoreTheorems
  import opened Tables
  import opened FactTables
  import opened AppliedLogs
  import opened KeyRanges
  import opened Materialization
  import opened CoreWindow
  import opened CoreState

  // ---------------------------------------------------------------- rows below a height

  function CreateBelow(h: nat): CreateEntry -> bool {
    (r: CreateEntry) => r.value.height < h
  }

  function SpendBelow(h: nat): SpendEntry -> bool {
    (r: SpendEntry) => r.value.height < h
  }

  function ProcessedBelow(h: nat): ProcessedEntry -> bool {
    (r: ProcessedEntry) => r.key < h
  }

  /** Below the end of this chain the append-only rows are exactly its rows; above it they may be anything. */
  ghost predicate HasPrefix(t: CoreTables, chain: seq<Block>, looks: Lookups) {
    && Kept(CreateRows(Events(chain)), t.creates, CreateBelow(|chain|))
    && Kept(SpendRows(Events(chain)), t.spends, SpendBelow(|chain|))
    && Kept(ProcessedRows(chain), t.processed, ProcessedBelow(|chain|))
    && Truthful(chain, looks)
    && Kept(multiset(MovementsOf(chain, looks)), t.movements, MovementBelow(|chain|))
    && Kept(multiset(FactsOf(chain, looks)), t.facts, FactBelow(|chain|))
  }

  /** What deleting the tail from a height leaves; the current rows are another matter. */
  ghost predicate TailDeleted(t: CoreTables, u: CoreTables, from: nat) {
    && Cut(t.creates, u.creates, CreateBelow(from))
    && Cut(t.spends, u.spends, SpendBelow(from))
    && Cut(t.processed, u.processed, ProcessedBelow(from))
    && Cut(t.movements, u.movements, MovementBelow(from))
    && Cut(t.facts, u.facts, FactBelow(from))
  }

  lemma {:induction false} UtxoRowHeights(chain: seq<Block>)
    requires ValidChain(chain)
    ensures AllBelow(CreateRows(Events(chain)), CreateBelow(|chain|))
            && AllBelow(SpendRows(Events(chain)), SpendBelow(|chain|))
  {
    assert chain[0..|chain|] == chain;
    BlockHeights(chain, 0, |chain|);
    forall r | r in CreateRows(Events(chain)) ensures CreateBelow(|chain|)(r) {
      CreateRowIn(Events(chain), r);
      assert EventHeight(Created(r.value)) < |chain|;
    }
    forall r | r in SpendRows(Events(chain)) ensures SpendBelow(|chain|)(r) {
      SpendRowIn(Events(chain), r);
      assert EventHeight(Consumed(Spend(r.key, r.value))) < |chain|;
    }
  }

  lemma {:induction false} ProcessedHeights(chain: seq<Block>)
    requires ValidChain(chain)
    ensures AllBelow(ProcessedRows(chain), ProcessedBelow(|chain|))
  {
    ProcessedMeans(chain);
  }

  lemma {:induction false} LogHeights(chain: seq<Block>, looks: Lookups)
    requires ValidChain(chain)
    ensures AllBelow(multiset(MovementsOf(chain, looks)), MovementBelow(|chain|))
    ensures AllBelow(multiset(FactsOf(chain, looks)), FactBelow(|chain|))
  {
    KeptBelow(chain, |chain|, looks);
    forall v: Movement | v in multiset(MovementsOf(chain, looks)) ensures MovementBelow(|chain|)(v) {
      KeepCounts(MovementsOf(chain, looks), MovementBelow(|chain|), v);
    }
    forall f: Fact | f in multiset(FactsOf(chain, looks)) ensures FactBelow(|chain|)(f) {
      KeepCounts(FactsOf(chain, looks), FactBelow(|chain|), f);
    }
  }

  lemma {:induction false} UtxoRestored(t: CoreTables, u: CoreTables, chain: seq<Block>, looks: Lookups)
    requires ValidChain(chain) && HasPrefix(t, chain, looks) && TailDeleted(t, u, |chain|)
    ensures UtxoFacts(u, chain)
  {
    hide ValidChain, CreateRows, SpendRows, ProcessedRows, MovementsOf, FactsOf, Events, Kept, Cut, AllBelow;
    UtxoRowHeights(chain);
    ProcessedHeights(chain);
    CutRestores(CreateRows(Events(chain)), t.creates, u.creates, CreateBelow(|chain|));
    CutRestores(SpendRows(Events(chain)), t.spends, u.spends, SpendBelow(|chain|));
    CutRestores(ProcessedRows(chain), t.processed, u.processed, ProcessedBelow(|chain|));
  }

  lemma {:induction false} LogsRestored(t: CoreTables, u: CoreTables, chain: seq<Block>, looks: Lookups)
    requires ValidChain(chain) && HasPrefix(t, chain, looks) && TailDeleted(t, u, |chain|)
    ensures Logs(u, chain, looks)
  {
    hide ValidChain, CreateRows, SpendRows, ProcessedRows, MovementsOf, FactsOf, Events, Kept, Cut, AllBelow, Truthful;
    LogHeights(chain, looks);
    CutRestores(multiset(MovementsOf(chain, looks)), t.movements, u.movements, MovementBelow(|chain|));
    CutRestores(multiset(FactsOf(chain, looks)), t.facts, u.facts, FactBelow(|chain|));
  }

  /** Deleting the tail leaves exactly the rows of the chain below it, whatever was above. */
  lemma {:induction false} TailDeleteRestores(t: CoreTables, u: CoreTables, chain: seq<Block>, looks: Lookups)
    requires ValidChain(chain) && HasPrefix(t, chain, looks) && TailDeleted(t, u, |chain|)
    ensures UtxoFacts(u, chain) && Logs(u, chain, looks)
  {
    hide HasPrefix, TailDeleted, UtxoFacts, Logs, ValidChain;
    UtxoRestored(t, u, chain, looks);
    LogsRestored(t, u, chain, looks);
  }

  lemma {:induction false} TailRowsAbove(chain: seq<Block>, h: nat)
    requires ValidChain(chain) && h <= |chain|
    ensures NoneBelow(CreateRows(Events(chain[h..])), CreateBelow(h))
            && NoneBelow(SpendRows(Events(chain[h..])), SpendBelow(h))
    ensures NoneBelow(ProcessedRows(chain[h..]), ProcessedBelow(h))
  {
    assert chain[h..|chain|] == chain[h..];
    BlockHeights(chain, h, |chain|);
    var tail := Events(chain[h..]);
    forall r | r in CreateRows(tail) ensures !CreateBelow(h)(r) {
      CreateRowIn(tail, r);
      assert EventHeight(Created(r.value)) >= h;
    }
    forall r | r in SpendRows(tail) ensures !SpendBelow(h)(r) {
      SpendRowIn(tail, r);
      assert EventHeight(Consumed(Spend(r.key, r.value))) >= h;
    }
    forall r | r in ProcessedRows(chain[h..]) ensures !ProcessedBelow(h)(r) {
      ProcessedIn(chain[h..], r);
      var i :| 0 <= i < |chain[h..]| && HeaderRow(chain[h..][i]) == r;
      assert chain[h + i] == chain[h..][i];
    }
  }

  lemma {:induction false} UtxoPrefix(chain: seq<Block>, h: nat)
    requires ValidChain(chain) && h <= |chain|
    ensures Kept(CreateRows(Events(chain[..h])), CreateRows(Events(chain)), CreateBelow(h))
    ensures Kept(SpendRows(Events(chain[..h])), SpendRows(Events(chain)), SpendBelow(h))
    ensures Kept(ProcessedRows(chain[..h]), ProcessedRows(chain), ProcessedBelow(h))
  {
    hide ValidChain, CreateRows, SpendRows, ProcessedRows, Events, Kept, NoneBelow;
    UtxoRowsSplit(chain, h);
    assert chain == chain[..h] + chain[h..];
    ProcessedConcat(chain[..h], chain[h..]);
    TailRowsAbove(chain, h);
    KeptSplit(CreateRows(Events(chain)), CreateRows(Events(chain[..h])), CreateRows(Events(chain[h..])),
      CreateBelow(h));
    KeptSplit(SpendRows(Events(chain)), SpendRows(Events(chain[..h])), SpendRows(Events(chain[h..])), SpendBelow(h));
    KeptSplit(ProcessedRows(chain), ProcessedRows(chain[..h]), ProcessedRows(chain[h..]), ProcessedBelow(h));
  }

  lemma {:induction false} LogPrefix(chain: seq<Block>, h: nat, looks: Lookups)
    requires ValidChain(chain) && h <= |chain|
    ensures Kept(multiset(MovementsOf(chain[..h], looks)), multiset(MovementsOf(chain, looks)), MovementBelow(h))
    ensures Kept(multiset(FactsOf(chain[..h], looks)), multiset(FactsOf(chain, looks)), FactBelow(h))
  {
    hide ValidChain, Keep, MovementsOf, FactsOf;
    LogsRewind(chain, h, looks);
    forall v: Movement | MovementBelow(h)(v)
      ensures multiset(MovementsOf(chain, looks))[v] == multiset(MovementsOf(chain[..h], looks))[v]
    {
      KeepCounts(MovementsOf(chain, looks), MovementBelow(h), v);
    }
    forall f: Fact | FactBelow(h)(f)
      ensures multiset(FactsOf(chain, looks))[f] == multiset(FactsOf(chain[..h], looks))[f]
    {
      KeepCounts(FactsOf(chain, looks), FactBelow(h), f);
    }
  }

  /** Stored rows agree with every shorter part of the chain. */
  lemma {:induction false} StoredHasPrefix(t: CoreTables, chain: seq<Block>, h: nat, looks: Lookups)
    requires ValidChain(chain) && h <= |chain| && UtxoFacts(t, chain) && Logs(t, chain, looks)
    ensures HasPrefix(t, chain[..h], looks)
  {
    hide ValidChain, CreateRows, SpendRows, ProcessedRows, MovementsOf, FactsOf, Events, Kept, Truthful;
    UtxoPrefix(chain, h);
    LogPrefix(chain, h, looks);
    TruthPrefix(chain, looks, h);
  }

  /** Nothing below a height was touched. */
  ghost predicate SameBelow(t: CoreTables, u: CoreTables, from: nat) {
    && Kept(t.creates, u.creates, CreateBelow(from))
    && Kept(t.spends, u.spends, SpendBelow(from))
    && Kept(t.processed, u.processed, ProcessedBelow(from))
    && Kept(t.movements, u.movements, MovementBelow(from))
    && Kept(t.facts, u.facts, FactBelow(from))
  }

  lemma {:induction false} UnchangedKept(t: CoreTables, from: nat)
    ensures Kept(t.creates, t.creates, CreateBelow(from)) && Kept(t.spends, t.spends, SpendBelow(from))
    ensures Kept(t.processed, t.processed, ProcessedBelow(from))
    ensures Kept(t.movements, t.movements, MovementBelow(from)) && Kept(t.facts, t.facts, FactBelow(from))
  {}

  lemma {:induction false} BelowGrows(low: nat, high: nat)
    requires low <= high
    ensures forall r :: CreateBelow(low)(r) ==> CreateBelow(high)(r)
    ensures forall r :: SpendBelow(low)(r) ==> SpendBelow(high)(r)
    ensures forall r :: ProcessedBelow(low)(r) ==> ProcessedBelow(high)(r)
    ensures forall v :: MovementBelow(low)(v) ==> MovementBelow(high)(v)
    ensures forall f :: FactBelow(low)(f) ==> FactBelow(high)(f)
  {}

  lemma {:induction false} SameBelowKeepsPrefix(t: CoreTables, u: CoreTables, chain: seq<Block>, from: nat,
      looks: Lookups)
    requires HasPrefix(t, chain, looks) && SameBelow(t, u, from) && |chain| <= from
    ensures HasPrefix(u, chain, looks)
  {
    hide CreateRows, SpendRows, ProcessedRows, MovementsOf, FactsOf, Events, Kept, Truthful;
    var h := |chain|;
    BelowGrows(h, from);
    KeptBoth(CreateRows(Events(chain)), t.creates, u.creates, CreateBelow(h), CreateBelow(from));
    KeptBoth(SpendRows(Events(chain)), t.spends, u.spends, SpendBelow(h), SpendBelow(from));
    KeptBoth(ProcessedRows(chain), t.processed, u.processed, ProcessedBelow(h), ProcessedBelow(from));
    KeptBoth(multiset(MovementsOf(chain, looks)), t.movements, u.movements, MovementBelow(h), MovementBelow(from));
    KeptBoth(multiset(FactsOf(chain, looks)), t.facts, u.facts, FactBelow(h), FactBelow(from));
  }

  // ---------------------------------------------------------------- rows of a window

  /** The rows of a window, or any part of them: nothing below its first height. */
  ghost predicate AllFrom(rows: CoreTables, from: nat) {
    && NoneBelow(rows.creates, CreateBelow(from))
    && NoneBelow(rows.spends, SpendBelow(from))
    && NoneBelow(rows.movements, MovementBelow(from))
    && NoneBelow(rows.facts, FactBelow(from))
  }

  /** Adds the rows of the four fact tables. */
  function AddFacts(t: CoreTables, rows: CoreTables): CoreTables {
    t.(creates := t.creates + rows.creates, spends := t.spends + rows.spends, movements := t.movements + rows.movements,
       facts := t.facts + rows.facts)
  }

  function AddProcessed(t: CoreTables, w: seq<Block>): CoreTables {
    t.(processed := t.processed + ProcessedRows(w))
  }

  const NO_TABLES := CoreTables(multiset{}, multiset{}, multiset{}, multiset{}, multiset{}, multiset{}, multiset{},
    multiset{})

  /** The rows of the four fact inserts of a window. */
  function WindowFactRows(w: seq<Block>, look: Ledger): CoreTables {
    NO_TABLES.(creates := CreateRows(Events(w)), spends := SpendRows(Events(w)),
              movements := multiset(WindowMovements(w, look)), facts := multiset(WindowFacts(w, look)))
  }

  lemma {:induction false} WindowLogHeights(w: seq<Block>, look: Ledger, lo: nat, hi: nat)
    requires forall b <- w :: lo <= b.height < hi && WellStamped(b)
    ensures forall v <- WindowMovements(w, look) :: lo <= v.height < hi
    ensures forall f <- WindowFacts(w, look) :: lo <= f.height < hi
    decreases w
  {
    if w != [] {
      var b := w[0];
      assert b in w;
      WindowLogHeights(w[1..], look, lo, hi);
      forall o | Created(o) in BlockEvents(b) ensures o.height == b.height {
        var i :| 0 <= i < |BlockEvents(b)| && BlockEvents(b)[i] == Created(o);
        assert o == b.creates[i];
      }
      MovementHeights(b, BlockEvents(b), look);
    }
  }

  lemma {:induction false} WindowBlocks(chain: seq<Block>, w: seq<Block>)
    requires ValidChain(chain + w)
    ensures forall b <- w :: |chain| <= b.height < |chain + w| && WellStamped(b)
  {
    forall b | b in w ensures |chain| <= b.height < |chain + w| && WellStamped(b) {
      var i :| 0 <= i < |w| && w[i] == b;
      assert (chain + w)[|chain| + i] == b;
    }
  }

  lemma {:induction false} WindowRowsFrom(chain: seq<Block>, w: seq<Block>, look: Ledger)
    requires ValidChain(chain + w)
    ensures AllFrom(WindowFactRows(w, look), |chain|) && NoneBelow(ProcessedRows(w), ProcessedBelow(|chain|))
  {
    hide ValidChain, CreateRows, SpendRows, ProcessedRows, WindowMovements, WindowFacts, Events, WellStamped;
    assert (chain + w)[|chain|..] == w;
    TailRowsAbove(chain + w, |chain|);
    WindowBlocks(chain, w);
    WindowLogHeights(w, look, |chain|, |chain + w|);
  }

  lemma {:induction false} UtxoFactsAdvance(t: CoreTables, chain: seq<Block>, w: seq<Block>, look: Ledger)
    requires UtxoFacts(t, chain)
    ensures UtxoFacts(AddProcessed(AddFacts(t, WindowFactRows(w, look)), w), chain + w)
  {
    EventsConcat(chain, w);
    RowsConcat(Events(chain), Events(w));
    ProcessedConcat(chain, w);
  }

  /** What stored movements and facts are worth, whatever the blocks were applied with. */
  lemma {:induction false} LogsAreSound(t: CoreTables, chain: seq<Block>, looks: Lookups)
    requires ValidChain(chain) && Logs(t, chain, looks)
    ensures MovementsSound(t.movements, chain, looks) && FactsSound(t.facts, chain, looks)
  {
    hide ValidChain, Truthful, MovementsOf, FactsOf, MovementsSound, FactsSound;
    ChainMovementsSound(chain, looks);
    ChainFactsSound(chain, looks);
  }

  lemma {:induction false} LogsOfSameLook(t: CoreTables, chain: seq<Block>, x: Lookups, y: Lookups)
    requires Logs(t, chain, x) && SameBelowHeight(x, y, |chain|)
    ensures Logs(t, chain, y)
  {
    hide MovementsOf, FactsOf, Truthful, SameBelowHeight;
    SameLookSameLogs(chain, x, y);
    SameLookSameTruth(chain, x, y);
  }

  lemma {:induction false} PrefixOfSameLook(t: CoreTables, chain: seq<Block>, x: Lookups, y: Lookups)
    requires HasPrefix(t, chain, x) && SameBelowHeight(x, y, |chain|)
    ensures HasPrefix(t, chain, y)
  {
    hide CreateRows, SpendRows, ProcessedRows, MovementsOf, FactsOf, Events, Kept, Truthful, SameBelowHeight;
    SameLookSameLogs(chain, x, y);
    SameLookSameTruth(chain, x, y);
  }

  /** Whatever a window saw, its rows continue the movements and facts. */
  lemma {:induction false} LogsAdvance(t: CoreTables, chain: seq<Block>, w: seq<Block>, look: Ledger, looks: Lookups,
      l: Lookup)
    requires Logs(t, chain, looks) && ValidChain(chain + w) && Sees(l, look, LedgerOf(chain + w), Events(w))
    ensures Logs(AddProcessed(AddFacts(t, WindowFactRows(w, look)), w), chain + w,
                 LookAfter(looks, |chain|, |chain + w|, l))
  {
    hide MovementsOf, FactsOf, WindowMovements, WindowFacts, Sees, ValidChain, Truthful, LookAfter;
    var after := LookAfter(looks, |chain|, |chain + w|, l);
    LookAfterKeeps(looks, |chain|, |chain + w|, l);
    LogsOfSameLook(t, chain, looks, after);
    WindowLogs(chain, w, look, after, l);
    TruthAdvances(chain, w, look, after, l);
  }

  // ---------------------------------------------------------------- repairing prevouts

  /** Outputs of some keys as the append-only tables have them. */
  function Historical(created: Ledger, spent: map<OutputKey, Spender>): Ledger {
    map k | k in created :: created[k].(spent := if k in spent then Some(spent[k]) else None)
  }

  lemma {:induction false} LatestKeys<K, V>(t: Table<K, V>, keys: set<K>, found: map<K, V>, k: K)
    requires Latest(t, keys, found)
    ensures k in found <==> k in keys && exists r :: r in t && r.key == k
    ensures k in found ==> exists r :: r in t && r.key == k && r.value == found[k]
  {}

  lemma {:induction false} WholeChainRows(t: CoreTables, chain: seq<Block>)
    requires ValidChain(chain) && chain != [] && UtxoFacts(t, chain)
    ensures forall r :: r in AsOf(t.creates, |chain| - 1) <==> r in CreateRows(Events(chain))
    ensures forall r :: r in AsOf(t.spends, |chain| - 1) <==> r in SpendRows(Events(chain))
  {
    assert chain[..|chain| - 1 + 1] == chain;
    RowsUpTo(chain, |chain| - 1);
  }

  lemma {:induction false} HistoricalKey(t: CoreTables, chain: seq<Block>, keys: set<OutputKey>, created: Ledger,
      spent: map<OutputKey, Spender>, k: OutputKey)
    requires ValidChain(chain) && chain != [] && UtxoFacts(t, chain)
    requires Latest(AsOf(t.creates, |chain| - 1), keys, created) && Latest(AsOf(t.spends, |chain| - 1), keys, spent)
    ensures k in created <==> k in keys && k in LedgerOf(chain)
    ensures k in created ==> created[k] == Terms(LedgerOf(chain)[k])
    ensures k in created ==> (if k in spent then Some(spent[k]) else None) == LedgerOf(chain)[k].spent
  {
    CreatesAreLedger(Events(chain), k);
    SpendsAreLedger(Events(chain), k);
    hide ValidChain, Events, CreateRows, SpendRows, UtxoFacts, Latest, Run, ValidEvents, AsOf;
    WholeChainRows(t, chain);
    LatestKeys(AsOf(t.creates, |chain| - 1), keys, created, k);
    LatestKeys(AsOf(t.spends, |chain| - 1), keys, spent, k);
  }

  /** Looking keys up in the append-only tables gives the ledger's rows. */
  lemma {:induction false} HistoricalAre(t: CoreTables, chain: seq<Block>, keys: set<OutputKey>, created: Ledger,
      spent: map<OutputKey, Spender>)
    requires ValidChain(chain) && chain != [] && UtxoFacts(t, chain)
    requires Latest(AsOf(t.creates, |chain| - 1), keys, created) && Latest(AsOf(t.spends, |chain| - 1), keys, spent)
    ensures Historical(created, spent) == map k | k in keys && k in LedgerOf(chain) :: LedgerOf(chain)[k]
  {
    var m := LedgerOf(chain);
    hide ValidChain, UtxoFacts, Latest, LedgerOf, AsOf;
    forall k ensures k in created <==> k in keys && k in m
             ensures k in created ==> Historical(created, spent)[k] == m[k]
    {
      HistoricalKey(t, chain, keys, created, spent, k);
      if k in created { assert m[k] == Terms(m[k]).(spent := m[k].spent); }
    }
  }

  lemma {:induction false} RepairedRows(chain: seq<Block>, c: Ledger, full: bool, repaired: Ledger)
    requires ValidChain(chain) && View(c, LedgerOf(chain), full) && repaired.Keys !! c.Keys
    requires forall k :: k in repaired ==>
             k in LedgerOf(chain) && repaired[k] == LedgerOf(chain)[k] && repaired[k].spent.None?
    ensures View(c + repaired, LedgerOf(chain), full) && Bounded(OutputRows(repaired), 2 * |chain|)
  {
    var m := LedgerOf(chain);
    LedgerFacts(chain);
    hide LedgerOf, ValidChain, NonNegative;
    forall r | r in OutputRows(repaired) ensures r.version < 2 * |chain| { assert m[r.key] == r.value; }
  }

  /** Rows repaired for keys that had none join the current rows without disturbing them. */
  lemma {:induction false} RepairJoins(t: CoreTables, chain: seq<Block>, c: Ledger, amounts: map<Address, int>,
      full: bool, repaired: Ledger)
    requires ValidChain(chain) && CurrentIs(t, chain, c, amounts, full) && repaired.Keys !! c.Keys
    requires forall k :: k in repaired ==>
             k in LedgerOf(chain) && repaired[k] == LedgerOf(chain)[k] && repaired[k].spent.None?
    ensures CurrentIs(t.(outputs := t.outputs + OutputRows(repaired)), chain, c + repaired, amounts, full)
  {
    hide LedgerOf, ValidChain, View, BalancesAre, Faithful, Headers, Bounded;
    RepairedRows(chain, c, full, repaired);
    WritesRead(OutputRows(repaired), repaired);
    FreshKeysJoin(t.outputs, c, OutputRows(repaired), repaired);
    BoundedUnion(t.outputs, OutputRows(repaired), 2 * |chain|, 2 * |chain|);
  }

  // ---------------------------------------------------------------- the state after a materialization

  /** Filled tables hold the complete current state of the chain up to the height they were built for. */
  lemma {:induction false} MaterializedIsCurrent(t: CoreTables, chain: seq<Block>, keys: seq<StringRange>,
      addresses: seq<StringRange>)
    requires ValidChain(chain) && chain != []
    requires Sound(t.outputs, Unspent(LedgerOf(chain)), |chain| - 1)
    requires FilledUpTo(t.outputs, Unspent(LedgerOf(chain)), keys, |keys|) && Partition(keys)
    requires Sound(t.balances, OwnedAmounts(Unspent(LedgerOf(chain))), |chain| - 1)
    requires FilledUpTo(t.balances, OwnedAmounts(Unspent(LedgerOf(chain))), addresses, |addresses|)
             && Partition(addresses)
    requires t.applied == multiset(Headers(chain))
    ensures Current(t, chain, true)
  {
    var m := LedgerOf(chain);
    var c, amounts := Unspent(m), OwnedAmounts(Unspent(m));
    assert View(c, m, true);
    assert Bounded(t.outputs, 2 * |chain|) && Bounded(t.balances, 2 * |chain|);
    hide LedgerOf, ValidChain, View, Unspent, OwnedAmounts, Sound, FilledUpTo, Partition, Faithful, BalancesAre,
         Bounded;
    FilledIsFaithful(t.outputs, c, keys, |chain| - 1);
    FilledIsFaithful(t.balances, amounts, addresses, |chain| - 1);
    OwnedAmountsAre(m);
    assert CurrentIs(t, chain, c, amounts, true);
  }

  /** Before the first block there is nothing. */
  lemma {:induction false} EmptyIsCurrent(t: CoreTables)
    requires t.outputs == multiset{} && t.balances == multiset{} && t.applied == multiset{}
    ensures Current(t, [], true)
  {
    assert Headers([]) == [];
    assert LedgerOf([]) == map[];
    assert CurrentIs(t, [], map[], map[], true);
  }

  // ---------------------------------------------------------------- a whole window

  /** What a window sees: all its prevouts, or without a current state only the outputs it creates itself. */
  function SeenBy(live: bool, w: seq<Block>): Lookup {
    if live then Whole else Only(map[] + CreatedInWindow(w))
  }

  /** What is promised once a window from some height went in, with the current state maintained or not. */
  function ModeAfter(live: bool, mode: Mode, start: nat, w: seq<Block>): Mode {
    Mode(live && mode.current, live && mode.full, LookAfter(mode.looks, start, start + |w|, SeenBy(live, w)))
  }

  /** The tables after all the inserts of a window that maintains the current state. */
  function AfterWindow(t: CoreTables, w: seq<Block>, look: Ledger, mu: Mutation, next: map<Address, int>): CoreTables
    requires w != []
  {
    AddProcessed(NextCurrent(AddFacts(t, WindowFactRows(w, look)), w, mu, next), w)
  }

  lemma {:induction false} AfterWindowParts(t: CoreTables, w: seq<Block>, look: Ledger, mu: Mutation,
      next: map<Address, int>)
    requires w != []
    ensures var u, f := AfterWindow(t, w, look, mu, next), AddProcessed(AddFacts(t, WindowFactRows(w, look)), w);
            && u.creates == f.creates && u.spends == f.spends && u.processed == f.processed
            && u.movements == f.movements && u.facts == f.facts
            && u.outputs == NextCurrent(t, w, mu, next).outputs
            && u.balances == NextCurrent(t, w, mu, next).balances && u.applied == NextCurrent(t, w, mu, next).applied
  {}

  lemma {:induction false} SameRowsStored(f: CoreTables, c: CoreTables, u: CoreTables, chain: seq<Block>, mode: Mode)
    requires UtxoFacts(f, chain) && Logs(f, chain, mode.looks) && (mode.current ==> Current(c, chain, mode.full))
    requires u.creates == f.creates && u.spends == f.spends && u.processed == f.processed
    requires u.movements == f.movements && u.facts == f.facts
    requires u.outputs == c.outputs && u.balances == c.balances && u.applied == c.applied
    ensures Stored(u, chain, mode)
  {
    if mode.current {
      var x, amounts :| CurrentIs(c, chain, x, amounts, mode.full);
      assert CurrentIs(u, chain, x, amounts, mode.full);
    }
  }

  lemma {:induction false} WindowFactsStored(t: CoreTables, chain: seq<Block>, w: seq<Block>, c: Ledger,
      prevouts: Ledger, full: bool, looks: Lookups)
    requires ValidChain(chain + w) && UtxoFacts(t, chain) && Logs(t, chain, looks) && View(c, LedgerOf(chain), full)
    requires ReadFrom(prevouts, c, ExternalKeys(w)) && ExternalKeys(w) <= prevouts.Keys
    ensures var f := AddProcessed(AddFacts(t, WindowFactRows(w, prevouts + CreatedInWindow(w))), w);
            UtxoFacts(f, chain + w) && Logs(f, chain + w, LookAfter(looks, |chain|, |chain + w|, Whole))
  {
    hide *;
    var look := prevouts + CreatedInWindow(w);
    PrevoutsFit(chain, w, c, prevouts, full);
    WholeSees(look, LedgerOf(chain + w), Events(w));
    UtxoFactsAdvance(t, chain, w, look);
    LogsAdvance(t, chain, w, look, looks, Whole);
  }

  lemma {:induction false} WholeSees(look: Ledger, m: Ledger, es: seq<Event>)
    requires LookupFits(look, m, es)
    ensures Sees(Whole, look, m, es)
  {}

  lemma {:induction false} StoredParts(t: CoreTables, chain: seq<Block>, mode: Mode)
    requires Stored(t, chain, mode)
    ensures UtxoFacts(t, chain) && Logs(t, chain, mode.looks)
  {}

  lemma {:induction false} CurrentParts(t: CoreTables, chain: seq<Block>, c: Ledger, amounts: map<Address, int>,
      full: bool)
    requires CurrentIs(t, chain, c, amounts, full)
    ensures View(c, LedgerOf(chain), full) && Current(t, chain, full)
  {}

  lemma {:induction false} LiveMode(mode: Mode, chain: seq<Block>, w: seq<Block>)
    ensures ModeAfter(true, mode, |chain|, w)
            == Mode(mode.current, mode.full, LookAfter(mode.looks, |chain|, |chain + w|, Whole))
  {}

  /** All inserts of a window together store the longer chain. */
  lemma {:induction false} WindowStores(t: CoreTables, chain: seq<Block>, w: seq<Block>, c: Ledger,
      amounts: map<Address, int>, prevouts: Ledger, mode: Mode)
    requires ValidChain(chain + w) && w != [] && mode.current && Stored(t, chain, mode)
             && CurrentIs(t, chain, c, amounts, mode.full)
    requires ReadFrom(prevouts, c, ExternalKeys(w)) && ExternalKeys(w) <= prevouts.Keys
    ensures var r := Mutate(NO_MUTATION, Events(w), prevouts);
            && r.Mutated?
            && (forall a :: a in r.mutation.deltas ==> NextAmounts(amounts, r.mutation.deltas)[a] >= 0)
            && Stored(AfterWindow(t, w, prevouts + CreatedInWindow(w), r.mutation,
               NextAmounts(amounts, r.mutation.deltas)), chain + w, ModeAfter(true, mode, |chain|, w))
  {
    hide Mutate, ValidChain, ReadFrom, ExternalKeys, UtxoFacts, Logs, CreatedInWindow, AfterWindow, AddFacts,
         AddProcessed, NextCurrent, NextAmounts, View, Events, LedgerOf, CurrentIs, Current, Stored, LookAfter,
           ModeAfter;
    LiveMode(mode, chain, w);
    var look := prevouts + CreatedInWindow(w);
    StoredParts(t, chain, mode);
    CurrentParts(t, chain, c, amounts, mode.full);
    WindowFactsStored(t, chain, w, c, prevouts, mode.full, mode.looks);
    CurrentAdvances(t, chain, w, c, amounts, prevouts, mode.full);
    var mu := Mutate(NO_MUTATION, Events(w), prevouts).mutation;
    var next := NextAmounts(amounts, mu.deltas);
    CurrentParts(NextCurrent(t, w, mu, next), chain + w, c + mu.next, amounts + next, mode.full);
    AfterWindowParts(t, w, look, mu, next);
    SameRowsStored(AddProcessed(AddFacts(t, WindowFactRows(w, look)), w), NextCurrent(t, w, mu, next),
                   AfterWindow(t, w, look, mu, next), chain + w, ModeAfter(true, mode, |chain|, w));
  }

  /** While backfill is running only the append-only rows are kept, with the prevouts the window creates itself. */
  lemma {:induction false} BackfillStores(t: CoreTables, chain: seq<Block>, w: seq<Block>, mode: Mode)
    requires UtxoFacts(t, chain) && Logs(t, chain, mode.looks) && ValidChain(chain + w)
    ensures Stored(AddProcessed(AddFacts(t, WindowFactRows(w, map[] + CreatedInWindow(w))), w), chain + w,
                   ModeAfter(false, mode, |chain|, w))
  {
    hide UtxoFacts, AddFacts, Logs, ValidChain, LookAfter, CreatedInWindow, LedgerOf, Events, LookupTrue;
    var look := map[] + CreatedInWindow(w);
    OwnCreatesTrue(chain, w);
    UtxoFactsAdvance(t, chain, w, look);
    LogsAdvance(t, chain, w, look, mode.looks, SeenBy(false, w));
  }

  lemma {:induction false} MissingKeyStops(w: seq<Block>, prevouts: Ledger)
    requires Mutate(NO_MUTATION, Events(w), prevouts).Mutated?
    ensures ExternalKeys(w) <= prevouts.Keys
  {
    forall k | k in ExternalKeys(w) ensures k in prevouts {
      var b, s :| b in w && s in b.spends && s.key == k;
      SpendInBlocks(w, b, s);
      MutatedFoundAll(NO_MUTATION, Events(w), prevouts, s);
    }
  }

  /** Deleting the tail above everything stored deletes nothing. */
  lemma {:induction false} NothingAbove(t: CoreTables, u: CoreTables, chain: seq<Block>, mode: Mode)
    requires ValidChain(chain) && Stored(t, chain, mode) && TailDeleted(t, u, |chain|)
    requires u.outputs == t.outputs && u.balances == t.balances && Cut(t.applied, u.applied, AppliedBelow(|chain|))
    ensures Stored(u, chain, mode)
  {
    hide UtxoFacts, Logs, TailDeleted, HasPrefix, ValidChain, CurrentIs;
    StoredHasPrefix(t, chain, |chain|, mode.looks);
    assert chain[..|chain|] == chain;
    TailDeleteRestores(t, u, chain, mode.looks);
    if mode.current {
      var c, amounts :| CurrentIs(t, chain, c, amounts, mode.full);
      AppliedStays(t, u, chain, c, amounts, mode.full);
    }
  }

  lemma {:induction false} AppliedStays(t: CoreTables, u: CoreTables, chain: seq<Block>, c: Ledger,
      amounts: map<Address, int>, full: bool)
    requires ValidChain(chain) && CurrentIs(t, chain, c, amounts, full) && u.outputs == t.outputs
             && u.balances == t.balances
    requires Cut(t.applied, u.applied, AppliedBelow(|chain|))
    ensures CurrentIs(u, chain, c, amounts, full)
  {
    hide View, Faithful, BalancesAre, Bounded, LedgerOf;
    assert t.applied == multiset(Headers(chain));
    forall b | b in t.applied ensures AppliedBelow(|chain|)(b) {
      assert b in Headers(chain);
      var i :| 0 <= i < |chain| && Headers(chain)[i] == b;
    }
    KeptSelf(t.applied, AppliedBelow(|chain|));
    CutRestores(t.applied, t.applied, u.applied, AppliedBelow(|chain|));
  }

  lemma {:induction false} FullerMode(t: CoreTables, chain: seq<Block>, current: bool, full: bool, looks: Lookups)
    requires Stored(t, chain, Mode(current, current, looks))
    ensures Stored(t, chain, Mode(current, full, looks))
  {
    hide UtxoFacts, Logs;
    if current {
      var c, amounts :| CurrentIs(t, chain, c, amounts, true);
      assert CurrentIs(t, chain, c, amounts, full);
    }
  }

  /** Facts and prefixes do not depend on the current rows. */
  lemma {:induction false} LogsOnly(t: CoreTables, u: CoreTables, chain: seq<Block>, looks: Lookups)
    requires u.creates == t.creates && u.spends == t.spends && u.processed == t.processed
    requires u.movements == t.movements && u.facts == t.facts
    ensures HasPrefix(t, chain, looks) ==> HasPrefix(u, chain, looks)
    ensures Logs(t, chain, looks) ==> Logs(u, chain, looks)
  {}

  lemma {:induction false} ValidFront(chain: seq<Block>, w: seq<Block>)
    requires ValidChain(chain + w)
    ensures ValidChain(chain)
  {
    ValidPrefix(chain + w, |chain|);
    assert (chain + w)[..|chain|] == chain;
  }

  lemma {:induction false} StoredKeepsPrefix(t: CoreTables, chain: seq<Block>, mode: Mode)
    requires ValidChain(chain) && Stored(t, chain, mode)
    ensures HasPrefix(t, chain, mode.looks)
  {
    hide ValidChain, HasPrefix, UtxoFacts, Logs, Current;
    StoredHasPrefix(t, chain, |chain|, mode.looks);
    assert chain[..|chain|] == chain;
  }

  lemma {:induction false} MissingRow(outputs: Table<OutputKey, Output>, keys: set<OutputKey>, found: Ledger)
    requires Latest(outputs, keys, found) && !(keys <= found.Keys)
    ensures !KeysPresent(outputs, keys)
  {
    var k :| k in keys && k !in found;
    forall r | r in outputs ensures r.key != k {}
  }

  /** Every one of these keys has a current row. */
  predicate KeysPresent(outputs: Table<OutputKey, Output>, keys: set<OutputKey>) {
    forall k :: k in keys ==> exists r :: r in outputs && r.key == k
  }

  lemma {:induction false} FoundPresent(outputs: Table<OutputKey, Output>, keys: set<OutputKey>, found: Ledger)
    requires Latest(outputs, keys, found) && keys - found.Keys == {}
    ensures KeysPresent(outputs, keys)
  {
    forall k | k in keys ensures exists r :: r in outputs && r.key == k {
      assert k !in keys - found.Keys;
    }
  }

  /** What joining the latest creates and spends of some keys up to a height may return. */
  ghost predicate ReadAs(creates: Table<OutputKey, Output>, spends: Table<OutputKey, Spender>, asOf: nat,
      keys: set<OutputKey>, rows: Ledger) {
    exists created, spent ::
      Latest(AsOf(creates, asOf), keys, created) && Latest(AsOf(spends, asOf), keys, spent)
        && rows == Historical(created, spent)
  }

  /** The rows a repair reads are those of the ledger, for every missing key. */
  lemma {:induction false} RepairsAre(t: CoreTables, chain: seq<Block>, w: seq<Block>, missing: set<OutputKey>,
      rows: Ledger)
    requires w != [] && ValidChain(chain + w) && UtxoFacts(t, chain) && missing <= ExternalKeys(w) && missing != {}
    requires w[0].height - 1 < 0 ==> rows == map[]
    requires w[0].height - 1 >= 0 ==> ReadAs(t.creates, t.spends, w[0].height - 1, missing, rows)
    ensures rows.Keys == missing
    ensures forall k :: k in rows ==> k in LedgerOf(chain) && rows[k] == LedgerOf(chain)[k] && rows[k].spent.None?
  {
    hide ValidChain, UtxoFacts, ExternalKeys, Historical, Latest, AsOf, LedgerOf;
    FirstHeight(chain, w);
    ExternalKeysAre(chain, w);
    ValidFront(chain, w);
    var some :| some in missing;
    if chain == [] {
      NoOutputsYet();
      assert false;
    } else {
      var created, spent :| rows == Historical(created, spent)
        && Latest(AsOf(t.creates, w[0].height - 1), missing, created)
           && Latest(AsOf(t.spends, w[0].height - 1), missing, spent);
      HistoricalAre(t, chain, missing, created, spent);
    }
  }

  lemma {:induction false} NoOutputsYet()
    ensures LedgerOf([]) == map[]
  {}

  lemma {:induction false} FirstHeight(chain: seq<Block>, w: seq<Block>)
    requires ValidChain(chain + w) && w != []
    ensures w[0].height == |chain|
  {
    assert (chain + w)[|chain|] == w[0];
  }

  lemma {:induction false} RepairStored(t: CoreTables, u: CoreTables, chain: seq<Block>, c: Ledger,
      amounts: map<Address, int>, mode: Mode, repaired: Ledger, missing: set<OutputKey>, found: Ledger)
    requires ValidChain(chain) && Stored(t, chain, mode) && CurrentIs(t, chain, c, amounts, mode.full)
    requires u == t.(outputs := t.outputs + OutputRows(repaired))
    requires repaired.Keys == missing && missing !! found.Keys
    requires exists keys :: Latest(t.outputs, keys, found) && missing <= keys
    requires forall k :: k in repaired ==>
             k in LedgerOf(chain) && repaired[k] == LedgerOf(chain)[k] && repaired[k].spent.None?
    ensures Stored(u, chain, mode)
  {
    hide ValidChain, UtxoRowsOf, ProcessedRows, MovementsOf, FactsOf, LedgerOf, CurrentIs, OutputRows;
    MissingKeysAreNew(t, chain, c, amounts, mode.full, missing, found);
    RepairJoins(t, chain, c, amounts, mode.full, repaired);
  }

  lemma {:induction false} MissingKeysAreNew(t: CoreTables, chain: seq<Block>, c: Ledger, amounts: map<Address, int>,
      full: bool, missing: set<OutputKey>, found: Ledger)
    requires CurrentIs(t, chain, c, amounts, full) && missing !! found.Keys
    requires exists keys :: Latest(t.outputs, keys, found) && missing <= keys
    ensures missing !! c.Keys
  {
    var keys :| Latest(t.outputs, keys, found) && missing <= keys;
    forall k | k in c && k in keys ensures k in found {
      assert HasHighest(t.outputs, k);
    }
  }

  lemma {:induction false} RepairedPresent(outputs: Table<OutputKey, Output>, keys: set<OutputKey>, found: Ledger,
      repaired: Ledger)
    requires Latest(outputs, keys, found) && keys - found.Keys <= repaired.Keys
    ensures KeysPresent(outputs + OutputRows(repaired), keys)
  {
    forall k | k in keys ensures exists r :: r in outputs + OutputRows(repaired) && r.key == k {
      if k in found {
        assert exists r :: r in outputs && r.key == k && Highest(outputs, r) && r.value == found[k];
        var r :| r in outputs && r.key == k;
        assert r in outputs + OutputRows(repaired);
      } else {
        assert k in keys - found.Keys && k in repaired;
        assert Writes(OutputRows(repaired), repaired);
        var r :| r in OutputRows(repaired) && r.key == k;
        assert r in outputs + OutputRows(repaired);
      }
    }
  }

  lemma {:induction false} StoredProcessed(t: CoreTables, chain: seq<Block>, mode: Mode)
    requires Stored(t, chain, mode)
    ensures t.processed == ProcessedRows(chain)
  {}

  lemma {:induction false} StoredPrefix(t: CoreTables, chain: seq<Block>, h: nat, mode: Mode)
    requires ValidChain(chain) && h <= |chain| && Stored(t, chain, mode)
    ensures HasPrefix(t, chain[..h], mode.looks)
  {
    hide ValidChain, HasPrefix, UtxoFacts, Logs, Current;
    StoredHasPrefix(t, chain, h, mode.looks);
  }

  /** Rows right up to one height are right up to any lower one. */
  lemma {:induction false} PrefixOfPrefix(t: CoreTables, chain: seq<Block>, h: nat, looks: Lookups)
    requires ValidChain(chain) && h <= |chain|
    ensures HasPrefix(t, chain, looks) ==> HasPrefix(t, chain[..h], looks)
  {
    hide ValidChain, Kept, CreateRows, SpendRows, ProcessedRows, MovementsOf, FactsOf, Events, Truthful;
    if HasPrefix(t, chain, looks) {
      UtxoPrefix(chain, h);
      LogPrefix(chain, h, looks);
      TruthPrefix(chain, looks, h);
      BelowGrows(h, |chain|);
      KeptBoth(CreateRows(Events(chain[..h])), CreateRows(Events(chain)), t.creates, CreateBelow(h),
        CreateBelow(|chain|));
      KeptBoth(SpendRows(Events(chain[..h])), SpendRows(Events(chain)), t.spends, SpendBelow(h), SpendBelow(|chain|));
      KeptBoth(ProcessedRows(chain[..h]), ProcessedRows(chain), t.processed, ProcessedBelow(h),
        ProcessedBelow(|chain|));
      KeptBoth(multiset(MovementsOf(chain[..h], looks)), multiset(MovementsOf(chain, looks)), t.movements,
        MovementBelow(h), MovementBelow(|chain|));
      KeptBoth(multiset(FactsOf(chain[..h], looks)), multiset(FactsOf(chain, looks)), t.facts, FactBelow(h),
        FactBelow(|chain|));
    }
  }

  /** A rewind leaves a full view; a window after it promises what it would promise from the view before. */
  lemma {:induction false} Weaker(t: CoreTables, chain: seq<Block>, live: bool, here: Mode, mode: Mode, start: nat,
      w: seq<Block>)
    requires Stored(t, chain, ModeAfter(live, here, start, w)) && here.looks == mode.looks
    requires live ==> mode.current && (here == mode || here == Mode(true, true, mode.looks))
    ensures Stored(t, chain, ModeAfter(live, mode, start, w))
  {
    hide UtxoFacts, Logs, LookAfter;
    if live && here != mode {
      FullerMode(t, chain, true, mode.full, ModeAfter(live, mode, start, w).looks);
    }
  }
}
