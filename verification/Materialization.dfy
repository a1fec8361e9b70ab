/** Building the current state from the append-only tables, one range of keys at a time. */
module Materialization {
  import opened Chain
  import opened Balances
  import opened Store
  import opened StoreProofs
  import opened Tables
  import opened FactTables
  import opened KeyRanges

  // ---------------------------------------------------------------- the anti-join of one range

  function AsOf<K, V>(t: Table<K, V>, asOf: nat): Table<K, V> {
    multiset(set r | r in t && r.version <= asOf)
  }

  function KeysUpTo<V>(t: Table<string, V>, asOf: nat, range: StringRange): set<string> {
    set r | r in t && r.version <= asOf && InRange(r.key, range) :: r.key
  }

  /** Keys created up to a height and not spent up to it. */
  function UnspentKeys(creates: Table<OutputKey, Output>, spends: Table<OutputKey, Spender>, asOf: nat,
      range: StringRange): set<OutputKey> {
    KeysUpTo(creates, asOf, range) - KeysUpTo(spends, asOf, range)
  }

  /** What the ledger still owes: its unspent outputs with keys in a range. */
  function UnspentIn(m: Ledger, range: StringRange): Ledger {
    map k | k in m && m[k].spent.None? && InRange(k, range) :: m[k]
  }

  ghost predicate UtxoRowsOf(creates: Table<OutputKey, Output>, spends: Table<OutputKey, Spender>, chain: seq<Block>) {
    creates == CreateRows(Events(chain)) && spends == SpendRows(Events(chain))
  }

  lemma {:induction false} RowsUpTo(chain: seq<Block>, asOf: nat)
    requires ValidChain(chain) && asOf < |chain|
    ensures forall r :: r in CreateRows(Events(chain)) && r.version <= asOf <==>
            r in CreateRows(Events(chain[..asOf + 1]))
    ensures forall r :: r in SpendRows(Events(chain)) && r.version <= asOf <==>
            r in SpendRows(Events(chain[..asOf + 1]))
  {
    hide ValidChain, Events, CreateRows, SpendRows;
    UtxoRowsSplit(chain, asOf + 1);
  }

  lemma {:induction false} PrefixLedgerRows(chain: seq<Block>, h: nat, k: OutputKey)
    requires ValidChain(chain) && h <= |chain|
    ensures var m := LedgerOf(chain[..h]);
            && ((exists r :: r in CreateRows(Events(chain[..h])) && r.key == k) <==> k in m)
            && (forall r :: r in CreateRows(Events(chain[..h])) && r.key == k ==> k in m && r.value == Terms(m[k]))
            && ((exists r :: r in SpendRows(Events(chain[..h])) && r.key == k) <==> k in m && m[k].spent.Some?)
  {
    ValidPrefix(chain, h);
    CreatesAreLedger(Events(chain[..h]), k);
    SpendsAreLedger(Events(chain[..h]), k);
  }

  lemma {:induction false} KeyUpTo<V>(t: Table<string, V>, upTo: Table<string, V>, asOf: nat, range: StringRange,
      k: string)
    requires forall r :: r in t && r.version <= asOf <==> r in upTo
    ensures k in KeysUpTo(t, asOf, range) <==> InRange(k, range) && exists r :: r in upTo && r.key == k
    ensures forall r :: r in AsOf(t, asOf) <==> r in upTo
  {
    hide InRange;
    if r :| r in upTo && r.key == k {
      assert r in t && r.version <= asOf;
    }
  }

  lemma {:induction false} UnspentKeyIs(creates: Table<OutputKey, Output>, spends: Table<OutputKey, Spender>,
      chain: seq<Block>, asOf: nat, range: StringRange, k: OutputKey)
    requires ValidChain(chain) && UtxoRowsOf(creates, spends, chain) && asOf < |chain|
    ensures k in UnspentKeys(creates, spends, asOf, range) <==> k in UnspentIn(LedgerOf(chain[..asOf + 1]), range)
    ensures forall r :: r in AsOf(creates, asOf) && r.key == k ==>
              k in LedgerOf(chain[..asOf + 1]) && r.value == Terms(LedgerOf(chain[..asOf + 1])[k])
    ensures k in UnspentKeys(creates, spends, asOf, range) ==> exists r :: r in AsOf(creates, asOf) && r.key == k
  {
    var part := Events(chain[..asOf + 1]);
    assert creates == CreateRows(Events(chain)) && spends == SpendRows(Events(chain));
    RowsUpTo(chain, asOf);
    PrefixLedgerRows(chain, asOf + 1, k);
    hide ValidChain, Events, CreateRows, SpendRows, LedgerOf, InRange, UtxoRowsOf, AsOf, KeysUpTo;
    KeyUpTo(creates, CreateRows(part), asOf, range, k);
    KeyUpTo(spends, SpendRows(part), asOf, range, k);
  }

  lemma {:induction false} FoundIsUnspent(creates: Table<OutputKey, Output>, spends: Table<OutputKey, Spender>,
      chain: seq<Block>, asOf: nat, range: StringRange, found: Ledger, k: OutputKey)
    requires ValidChain(chain) && UtxoRowsOf(creates, spends, chain) && asOf < |chain|
    requires Latest(AsOf(creates, asOf), UnspentKeys(creates, spends, asOf, range), found)
    ensures k in found <==> k in UnspentIn(LedgerOf(chain[..asOf + 1]), range)
    ensures k in found ==> found[k] == LedgerOf(chain[..asOf + 1])[k]
  {
    var t, m := AsOf(creates, asOf), LedgerOf(chain[..asOf + 1]);
    UnspentKeyIs(creates, spends, chain, asOf, range, k);
    hide ValidChain, UtxoRowsOf, LedgerOf, AsOf, UnspentKeys, InRange;
    if k in found {
      var r :| r in t && r.key == k && Highest(t, r) && r.value == found[k];
      assert Terms(m[k]) == m[k];
    }
  }

  /** Created rows minus spent rows as of any height are the unspent rows of the ledger at that height. */
  lemma {:induction false} AntiJoinIsUnspent(creates: Table<OutputKey, Output>, spends: Table<OutputKey, Spender>,
      chain: seq<Block>, asOf: nat, range: StringRange, found: Ledger)
    requires ValidChain(chain) && UtxoRowsOf(creates, spends, chain) && asOf < |chain|
    requires Latest(AsOf(creates, asOf), UnspentKeys(creates, spends, asOf, range), found)
    ensures found == UnspentIn(LedgerOf(chain[..asOf + 1]), range)
  {
    var unspent := UnspentIn(LedgerOf(chain[..asOf + 1]), range);
    hide ValidChain, UtxoRowsOf, LedgerOf, AsOf, UnspentKeys, InRange, Latest;
    forall k ensures (k in found <==> k in unspent) && (k in found ==> found[k] == unspent[k]) {
      FoundIsUnspent(creates, spends, chain, asOf, range, found, k);
    }
  }

  // ---------------------------------------------------------------- tables filled range by range

  /** Every row is an entry of m, written with one version: whatever a failed attempt left behind is right. */
  ghost predicate Sound<V>(t: Table<string, V>, m: map<string, V>, version: nat) {
    forall r :: r in t ==> r.key in m && r.value == m[r.key] && r.version == version
  }

  ghost predicate HasRow<V>(t: Table<string, V>, k: string) {
    exists r :: r in t && r.key == k
  }

  ghost predicate Filled<V>(t: Table<string, V>, m: map<string, V>, range: StringRange) {
    forall k :: k in m && InRange(k, range) ==> HasRow(t, k)
  }

  ghost predicate FilledUpTo<V>(t: Table<string, V>, m: map<string, V>, ranges: seq<StringRange>, n: nat) {
    forall i :: 0 <= i < n && i < |ranges| ==> Filled(t, m, ranges[i])
  }

  lemma {:induction false} FillRange<V>(t: Table<string, V>, m: map<string, V>, range: StringRange,
      rows: Table<string, V>, part: map<string, V>, version: nat)
    requires Sound(t, m, version) && Writes(rows, part) && forall r :: r in rows ==> r.version == version
    requires forall k :: k in part ==> k in m && part[k] == m[k]
    ensures Sound(t + rows, m, version)
    ensures (forall k :: k in m && InRange(k, range) ==> k in part) ==> Filled(t + rows, m, range)
  {
    hide InRange;
    forall r | r in t + rows ensures r.key in m && r.value == m[r.key] && r.version == version {}
    if forall k :: k in m && InRange(k, range) ==> k in part {
      forall k | k in m && InRange(k, range) ensures HasRow(t + rows, k) {
        var r :| r in rows && r.key == k;
        assert r in t + rows;
      }
    }
  }

  lemma {:induction false} FilledGrows<V>(t: Table<string, V>, more: Table<string, V>, m: map<string, V>,
      range: StringRange)
    requires Filled(t, m, range)
    ensures Filled(t + more, m, range)
  {
    forall k | k in m && InRange(k, range) ensures HasRow(t + more, k) {
      var r :| r in t && r.key == k;
      assert r in t + more;
    }
  }

  lemma {:induction false} FilledUpToGrows<V>(t: Table<string, V>, more: Table<string, V>, m: map<string, V>,
      ranges: seq<StringRange>, n: nat)
    requires FilledUpTo(t, m, ranges, n)
    ensures FilledUpTo(t + more, m, ranges, n)
  {
    forall i | 0 <= i < n && i < |ranges| ensures Filled(t + more, m, ranges[i]) { FilledGrows(t, more, m, ranges[i]); }
  }

  /** Once every range of a partition is filled, the table means exactly m, however often a range was replayed. */
  lemma {:induction false} FilledIsFaithful<V>(t: Table<string, V>, m: map<string, V>, ranges: seq<StringRange>,
      version: nat)
    requires Sound(t, m, version) && FilledUpTo(t, m, ranges, |ranges|) && Partition(ranges)
    ensures Faithful(t, m)
  {
    forall k | k in m ensures HasHighest(t, k) {
      assert InExactlyOne(ranges, k);
      var i :| 0 <= i < |ranges| && InRange(k, ranges[i]) && OnlyRange(ranges, k, i);
      assert Filled(t, m, ranges[i]);
      assert HasRow(t, k);
      var r :| r in t && r.key == k;
      HighestExists(t, r);
    }
  }

  // ---------------------------------------------------------------- balances

  predicate Owns(o: Output, a: Address) {
    AffectsBalance(o) && o.spent.None? && o.address == a
  }

  /** Addresses with at least one unspent spendable output, and the sum of theirs. */
  ghost function OwnedAmounts(c: Ledger): map<Address, int> {
    map a | a in (set k | k in c :: c[k].address) && (exists k :: k in c && Owns(c[k], a)) :: BalanceOf(c, a)
  }

  lemma {:induction false} OwnsNothing(c: Ledger, a: Address)
    requires forall k :: k in c ==> !Owns(c[k], a)
    ensures BalanceOf(c, a) == 0
    decreases c.Keys
  {
    if c != map[] {
      OwnsNothing(c - {Pick(c)}, a);
    }
  }

  ghost predicate SumIs(sums: map<Address, int>, c: Ledger, range: StringRange, a: Address) {
    && (a in sums <==> a in OwnedAmounts(c) && InRange(a, range))
    && (a in sums ==> sums[a] == BalanceOf(c, a))
  }

  ghost predicate SumsAre(sums: map<Address, int>, c: Ledger, range: StringRange) {
    forall a :: SumIs(sums, c, range, a)
  }

  lemma {:induction false} OwnedIn(c: Ledger, a: Address)
    ensures a in OwnedAmounts(c) <==> exists k :: k in c && Owns(c[k], a)
  {
    if k :| k in c && Owns(c[k], a) {
      assert a in (set x | x in c :: c[x].address);
    }
  }

  function AddSum(sums: map<Address, int>, o: Output, range: StringRange): map<Address, int> {
    if Owns(o, o.address) && InRange(o.address, range)
    then sums[o.address := (if o.address in sums then sums[o.address] else 0) + o.value] else sums
  }

  lemma {:induction false} OwnedStep(done: Ledger, k: OutputKey, o: Output, a: Address)
    requires k !in done
    ensures a in OwnedAmounts(done[k := o]) <==> a in OwnedAmounts(done) || Owns(o, a)
    ensures BalanceOf(done[k := o], a) == Contribution(o, a) + BalanceOf(done, a)
  {
    var c := done[k := o];
    OwnedIn(c, a);
    OwnedIn(done, a);
    if x :| x in done && Owns(done[x], a) { assert x in c && Owns(c[x], a); }
    if Owns(o, a) { assert k in c && Owns(c[k], a); }
    BalanceSplit(c, a, k);
    assert c - {k} == done;
  }

  lemma {:induction false} SumStep(sums: map<Address, int>, done: Ledger, k: OutputKey, o: Output, range: StringRange)
    requires SumsAre(sums, done, range) && k !in done
    ensures SumsAre(AddSum(sums, o, range), done[k := o], range)
  {
    var next, c := AddSum(sums, o, range), done[k := o];
    forall a ensures SumIs(next, c, range, a) {
      assert SumIs(sums, done, range, a);
      OwnedStep(done, k, o, a);
      if a !in OwnedAmounts(done) { NotOwned(done, a); }
      hide OwnedAmounts, InRange, BalanceOf;
    }
  }

  lemma {:induction false} NotOwned(c: Ledger, a: Address)
    requires a !in OwnedAmounts(c)
    ensures BalanceOf(c, a) == 0
  {
    OwnedIn(c, a);
    OwnsNothing(c, a);
  }

  /** Grouping the rows of a range by address and adding them up. */
  method SumByAddress(c: Ledger, range: StringRange) returns (sums: map<Address, int>)
    ensures SumsAre(sums, c, range)
  {
    hide SumsAre, AddSum;
    sums := map[];
    NothingSummed(range);
    var rest := c.Keys;
    ghost var done: Ledger := map[];
    while rest != {}
      invariant rest <= c.Keys && done.Keys == c.Keys - rest
      invariant forall k :: k in done ==> done[k] == c[k]
      invariant SumsAre(sums, done, range)
    {
      var k :| k in rest;
      rest := rest - {k};
      SumStep(sums, done, k, c[k], range);
      sums := AddSum(sums, c[k], range);
      done := done[k := c[k]];
    }
    assert done == c;
  }

  lemma {:induction false} NothingSummed(range: StringRange)
    ensures SumsAre(map[], map[], range)
  {
    forall a ensures SumIs(map[], map[], range, a) {}
  }

  /** Amounts by address, a missing row counting as zero, are what the ledger says. */
  ghost predicate BalancesAre(amounts: map<Address, int>, m: Ledger) {
    "" !in amounts && forall a :: a != "" ==> (if a in amounts then amounts[a] else 0) == BalanceOf(m, a)
  }

  lemma {:induction false} OwnedAmountsAre(m: Ledger)
    ensures BalancesAre(OwnedAmounts(Unspent(m)), m)
  {
    var c := Unspent(m);
    forall a ensures (if a in OwnedAmounts(c) then OwnedAmounts(c)[a] else 0) == BalanceOf(m, a) {
      BalanceOfUnspent(m, a);
      if a !in OwnedAmounts(c) { NotOwned(c, a); }
    }
    OwnedIn(c, "");
  }

  // ---------------------------------------------------------------- processed and applied blocks

  function HeaderRow(b: Block): Row<nat, Hash> {
    Row(b.height, b.hash, b.height)
  }

  function ProcessedRows(blocks: seq<Block>): Table<nat, Hash> {
    if blocks == [] then multiset{}
      else ProcessedRows(blocks[..|blocks| - 1]) + multiset{HeaderRow(blocks[|blocks| - 1])}
  }

  lemma {:induction false} ProcessedConcat(a: seq<Block>, b: seq<Block>)
    ensures ProcessedRows(a + b) == ProcessedRows(a) + ProcessedRows(b)
  {
    if b == [] {
      assert a + b == a;
    } else {
      assert (a + b)[..|a + b| - 1] == a + b[..|b| - 1];
      ProcessedConcat(a, b[..|b| - 1]);
    }
  }

  lemma {:induction false} ProcessedIn(blocks: seq<Block>, r: Row<nat, Hash>)
    ensures r in ProcessedRows(blocks) <==> exists i :: 0 <= i < |blocks| && HeaderRow(blocks[i]) == r
  {
    if blocks != [] {
      var n := |blocks| - 1;
      ProcessedIn(blocks[..n], r);
      if i :| 0 <= i < |blocks| && HeaderRow(blocks[i]) == r {
        if i < n { assert HeaderRow(blocks[..n][i]) == r; }
      }
    }
  }

  function HashAt(chain: seq<Block>): map<nat, Hash> {
    map i | 0 <= i < |chain| :: chain[i].hash
  }

  lemma {:induction false} ProcessedMeans(chain: seq<Block>)
    requires Stamped(chain)
    ensures Faithful(ProcessedRows(chain), HashAt(chain))
    ensures forall r :: r in ProcessedRows(chain) ==> r.version == r.key
  {
    var t := ProcessedRows(chain);
    forall r | r in t ensures r.version == r.key && r.key in HashAt(chain) && r.value == HashAt(chain)[r.key] {
      ProcessedIn(chain, r);
    }
    forall k | k in HashAt(chain) ensures HasHighest(t, k) {
      ProcessedIn(chain, HeaderRow(chain[k]));
      HighestExists(t, HeaderRow(chain[k]));
    }
  }

  /** One applied-block row for each height read. */
  function AppliedRows(found: map<nat, Hash>): multiset<AppliedBlock> {
    multiset(set h | h in found :: AppliedBlock(h, found[h]))
  }

  function HashesIn(chain: seq<Block>, lo: nat, hi: nat): map<nat, Hash>
    requires lo <= hi <= |chain|
  {
    map h | lo <= h < hi :: chain[h].hash
  }

  lemma {:induction false} AppliedRowCount(found: map<nat, Hash>, x: AppliedBlock)
    ensures AppliedRows(found)[x] == if x.height in found && found[x.height] == x.hash then 1 else 0
  {
    var rows := set h | h in found :: AppliedBlock(h, found[h]);
    assert x in rows <==> x.height in found && found[x.height] == x.hash;
    assert multiset(rows)[x] == if x in rows then 1 else 0;
  }

  lemma {:induction false} HeadersGrow(chain: seq<Block>, lo: nat, hi: nat)
    requires lo < hi <= |chain|
    ensures Headers(chain[lo..hi]) == Headers(chain[lo..hi - 1]) + [Header(chain[hi - 1])]
  {}

  lemma {:induction false} HeaderCount(chain: seq<Block>, lo: nat, hi: nat, x: AppliedBlock)
    requires Stamped(chain) && lo <= hi <= |chain|
    ensures multiset(Headers(chain[lo..hi]))[x] == if lo <= x.height < hi && chain[x.height].hash == x.hash then 1
            else 0
    decreases hi - lo
  {
    if lo == hi {
      assert Headers(chain[lo..hi]) == [];
    } else {
      HeaderCount(chain, lo, hi - 1, x);
      HeadersGrow(chain, lo, hi);
      assert chain[hi - 1].height == hi - 1;
      hide Headers, Stamped;
    }
  }

  lemma {:induction false} AppliedRowsAre(chain: seq<Block>, lo: nat, hi: nat)
    requires Stamped(chain) && lo <= hi <= |chain|
    ensures AppliedRows(HashesIn(chain, lo, hi)) == multiset(Headers(chain[lo..hi]))
  {
    var rows, headers := AppliedRows(HashesIn(chain, lo, hi)), multiset(Headers(chain[lo..hi]));
    forall x: AppliedBlock ensures rows[x] == headers[x] {
      AppliedRowCount(HashesIn(chain, lo, hi), x);
      HeaderCount(chain, lo, hi, x);
    }
  }
}
