/** Steps of a materialization. */
module Resumption {
  import opened Chain
  import opened Balances
  import opened Store
  import opened StoreProofs
  import opened Tables
  import opened KeyRanges
  import opened Materialization
  import opened CoreState
  import opened CoreTails

  /** The unspent outputs of the chain at a height. */
  ghost function UnspentAt(chain: seq<Block>, asOf: nat): Ledger
    requires asOf < |chain|
  {
    Unspent(LedgerOf(chain[..asOf + 1]))
  }

  // ---------------------------------------------------------------- one statement

  lemma {:induction false} TableKeys<V>(t: Table<string, V>, m: map<string, V>, keys: set<string>)
    requires Faithful(t, m) && keys == (set r | r in t :: r.key)
    ensures keys == m.Keys
  {
    forall k | k in m ensures k in keys {
      var r :| r in t && r.key == k && Highest(t, r);
    }
  }

  lemma {:induction false} FinalRead(outputs: Table<OutputKey, Output>, m: Ledger, keys: set<OutputKey>,
      current: Ledger)
    requires Faithful(outputs, m) && keys == (set r | r in outputs :: r.key) && Latest(outputs, keys, current)
    ensures current == m
  {
    hide Faithful, Latest;
    ReadsAre(outputs, m, keys, current);
    TableKeys(outputs, m, keys);
  }

  lemma {:induction false} EmptySound<V>(m: map<string, V>, version: nat)
    ensures Sound(multiset{}, m, version)
  {}

  lemma {:induction false} SumsFilled(before: Table<Address, int>, after: Table<Address, int>, sums: map<Address, int>,
      m: Ledger, asOf: nat, ranges: seq<StringRange>, i: nat)
    requires i < |ranges| && SumsAre(sums, m, ranges[i]) && after == before + RowsAt(sums, asOf)
    requires Sound(before, OwnedAmounts(m), asOf) && FilledUpTo(before, OwnedAmounts(m), ranges, i)
    ensures Sound(after, OwnedAmounts(m), asOf) && FilledUpTo(after, OwnedAmounts(m), ranges, i + 1)
  {
    var owned := OwnedAmounts(m);
    forall a ensures a in sums <==> a in owned && InRange(a, ranges[i]) { assert SumIs(sums, m, ranges[i], a); }
    forall a | a in sums ensures sums[a] == owned[a] { assert SumIs(sums, m, ranges[i], a); }
    hide OwnedAmounts, SumsAre, InRange;
    FillRange(before, owned, ranges[i], RowsAt(sums, asOf), sums, asOf);
    FilledUpToGrows(before, RowsAt(sums, asOf), owned, ranges, i);
  }

  // ---------------------------------------------------------------- applied blocks

  lemma {:induction false} ValidIsStamped(chain: seq<Block>)
    requires ValidChain(chain)
    ensures Stamped(chain)
  {}

  /** The applied rows of the blocks below a height. */
  function AppliedUpTo(chain: seq<Block>, n: int): multiset<AppliedBlock>
    requires 0 <= n <= |chain|
  {
    multiset(Headers(chain[..n]))
  }

  lemma {:induction false} NothingApplied(chain: seq<Block>)
    ensures AppliedUpTo(chain, 0) == multiset{}
  {
    assert Headers(chain[..0]) == [];
  }

  function HeightsIn(t: Table<nat, Hash>, lo: int, hi: int): set<nat> {
    set r | r in t && lo <= r.key <= hi :: r.key
  }

  lemma {:induction false} ProcessedHeightsIn(chain: seq<Block>, lo: nat, hi: nat)
    requires ValidChain(chain) && hi < |chain|
    ensures forall h :: h in HeightsIn(ProcessedRows(chain), lo, hi) <==> lo <= h <= hi
  {
    ProcessedMeans(chain);
    forall h: nat | lo <= h <= hi ensures h in HeightsIn(ProcessedRows(chain), lo, hi) {
      assert HeaderRow(chain[h]).key == h;
      ProcessedIn(chain, HeaderRow(chain[h]));
    }
  }

  lemma {:induction false} HashesAre(chain: seq<Block>, lo: nat, hi: nat, keys: set<nat>)
    requires lo <= hi < |chain| && forall h :: h in keys <==> lo <= h <= hi
    ensures (map h | h in keys && h in HashAt(chain) :: HashAt(chain)[h]) == HashesIn(chain, lo, hi + 1)
  {}

  lemma {:induction false} ReadBetween(t: Table<nat, Hash>, chain: seq<Block>, lo: nat, hi: nat, keys: set<nat>,
      found: map<nat, Hash>)
    requires lo <= hi < |chain| && Faithful(t, HashAt(chain)) && Latest(t, keys, found)
    requires forall h :: h in keys <==> lo <= h <= hi
    ensures found == HashesIn(chain, lo, hi + 1)
  {
    hide Faithful, Latest;
    ReadsAre(t, HashAt(chain), keys, found);
    HashesAre(chain, lo, hi, keys);
  }

  lemma {:induction false} ReadHashes(chain: seq<Block>, lo: nat, hi: nat, found: map<nat, Hash>)
    requires ValidChain(chain) && lo <= hi < |chain|
             && Latest(ProcessedRows(chain), HeightsIn(ProcessedRows(chain), lo, hi), found)
    ensures found == HashesIn(chain, lo, hi + 1)
  {
    ProcessedMeans(chain);
    ProcessedHeightsIn(chain, lo, hi);
    hide *;
    ReadBetween(ProcessedRows(chain), chain, lo, hi, HeightsIn(ProcessedRows(chain), lo, hi), found);
  }

  lemma {:induction false} HeadersJoin(chain: seq<Block>, lo: nat, hi: nat)
    requires lo <= hi <= |chain|
    ensures multiset(Headers(chain[..hi])) == multiset(Headers(chain[..lo])) + multiset(Headers(chain[lo..hi]))
  {
    assert Headers(chain[..hi]) == Headers(chain[..lo]) + Headers(chain[lo..hi]);
  }

  lemma {:induction false} AppliedGrows(chain: seq<Block>, lo: nat, hi: nat)
    requires Stamped(chain) && lo <= hi < |chain|
    ensures AppliedUpTo(chain, lo) + AppliedRows(HashesIn(chain, lo, hi + 1)) == AppliedUpTo(chain, hi + 1)
  {
    hide HashesIn, AppliedRows, Stamped, Headers;
    AppliedRowsAre(chain, lo, hi + 1);
    HeadersJoin(chain, lo, hi + 1);
  }

  lemma {:induction false} BuiltIsCurrent(t: CoreTables, chain: seq<Block>, asOf: nat, keys: seq<StringRange>,
      addresses: seq<StringRange>)
    requires ValidChain(chain) && asOf < |chain|
    requires Sound(t.outputs, UnspentAt(chain, asOf), asOf)
    requires FilledUpTo(t.outputs, UnspentAt(chain, asOf), keys, |keys|) && Partition(keys)
    requires Sound(t.balances, OwnedAmounts(UnspentAt(chain, asOf)), asOf)
    requires FilledUpTo(t.balances, OwnedAmounts(UnspentAt(chain, asOf)), addresses, |addresses|)
             && Partition(addresses)
    requires t.applied == multiset(Headers(chain[..asOf + 1]))
    ensures Current(t, chain[..asOf + 1], true)
  {
    hide Current, Sound, FilledUpTo, Partition, OwnedAmounts, LedgerOf, ValidChain;
    ValidPrefix(chain, asOf + 1);
    MaterializedIsCurrent(t, chain[..asOf + 1], keys, addresses);
  }

  // ---------------------------------------------------------------- steps of an attempt

  lemma {:induction false} NextFilled<V>(t: Table<string, V>, more: Table<string, V>, m: map<string, V>,
      ranges: seq<StringRange>, n: nat)
    requires n < |ranges| && FilledUpTo(t, m, ranges, n) && Filled(t + more, m, ranges[n])
    ensures FilledUpTo(t + more, m, ranges, n + 1)
  {
    hide Filled;
    FilledUpToGrows(t, more, m, ranges, n);
  }

  lemma {:induction false} SomeRanges(prefixLength: nat)
    ensures OutputKeyRanges(prefixLength) != []
  {}

  lemma {:induction false} NothingSound(m: Ledger, asOf: nat, ranges: seq<StringRange>)
    ensures Sound(multiset{}, m, asOf) && FilledUpTo(multiset{}, m, ranges, 0)
  {}

  lemma {:induction false} SameFacts(t: CoreTables, u: CoreTables, chain: seq<Block>)
    requires UtxoFacts(t, chain) && u.creates == t.creates && u.spends == t.spends && u.processed == t.processed
    ensures UtxoFacts(u, chain)
  {}

  lemma {:induction false} UnfoldFacts(t: CoreTables, chain: seq<Block>)
    requires UtxoFacts(t, chain)
    ensures UtxoRowsOf(t.creates, t.spends, chain) && t.processed == ProcessedRows(chain)
  {}
}
