/** The warehouse adapter: statements over versioned tables, any of which may be interrupted part-way. */
module CoreWarehouse {
  import opened Chain
  import opened Integers
  import opened Projection
  import opened Store
  import opened StoreProofs
  import opened Convergence
  import opened Tables
  import opened KeyRanges
  import opened Materialization
  import opened CoreWindow
  import opened CoreState
  import opened CoreTails
  import opened WindowShape
  import opened Resumption
  import opened Checkpoints
  import opened CorePending

  datatype CoreError = Interrupted | MissingCurrent(key: OutputKey) | Negative(address: Address) | Malformed

  /** A window stopped because some output it spends has no current row. */
  ghost predicate MissesPrevout(outputs: Table<OutputKey, Output>, w: seq<Block>, error: CoreError) {
    error.MissingCurrent? && !KeysPresent(outputs, ExternalKeys(w))
  }

  lemma {:induction false} MissedKey(outputs: Table<OutputKey, Output>, w: seq<Block>, error: CoreError)
    requires MissesPrevout(outputs, w, error)
    ensures error.MissingCurrent? && !KeysPresent(outputs, ExternalKeys(w))
  {}

  /** A window changes the stored chain exactly when the chain is shorter than the window's end or forks below it. */
  lemma {:induction false} ChangesChain(chain: seq<Block>, node: seq<Block>, lo: nat, hi: nat)
    requires lo <= hi <= |node| && lo <= |chain| && chain[..lo] == node[..lo] && HashesIdentify(chain, node)
    ensures ForkHeight(chain, node, lo, hi) < hi || |chain| < hi <==> |chain| < hi || chain[..hi] != node[..hi]
  {
    var d := ForkHeight(chain, node, lo, hi);
    if d == hi <= |chain| { SharedPrefix(chain, node, lo, hi); }
    if d < hi <= |chain| { assert chain[..hi][d] != node[..hi][d]; }
  }

  /**
   * What is promised after a window of the node's chain: of its blocks from the fork or the tail up, if there are any.
   */
  function ModeOf(live: bool, mode: Mode, chain: seq<Block>, node: seq<Block>, lo: nat, hi: nat): Mode
    requires lo <= hi <= |node|
  {
    var d := ForkHeight(chain, node, lo, hi);
    if d < hi then ModeAfter(live, mode, d, node[d..hi])
    else if |chain| < hi then ModeAfter(live, mode, |chain|, node[|chain|..hi])
    else mode
  }

  lemma {:induction false} AlreadyApplied(t: CoreTables, chain: seq<Block>, node: seq<Block>, lo: nat, hi: nat,
      live: bool, mode: Mode)
    requires lo < hi <= |node| && hi <= |chain| && HashesIdentify(chain, node) && chain[..lo] == node[..lo]
    requires ForkHeight(chain, node, lo, hi) == hi && Stored(t, chain, mode)
    ensures Stored(t, ChainAfter(chain, node, lo, hi), ModeOf(live, mode, chain, node, lo, hi))
  {
    hide UtxoFacts, Logs, Current, HashesIdentify, ModeAfter;
    if |chain| == hi {
      SharedPrefix(chain, node, lo, hi);
      assert chain[..hi] == chain;
    }
  }

  lemma {:induction false} PreviousRead(t: Table<nat, Hash>, hashes: map<nat, Hash>, first: Block,
      found: map<nat, Hash>)
    requires first.height > 0 && Faithful(t, hashes) && Latest(t, {first.height - 1}, found)
    ensures (first.height - 1 in found ==> first.previous == Some(found[first.height - 1])) <==>
            FollowsPrevious(hashes, first)
  {
    hide Faithful, Latest;
    ReadsAre(t, hashes, {first.height - 1}, found);
  }

  lemma {:induction false} ProcessedFollow(t: CoreTables, chain: seq<Block>, w: seq<Block>, mode: Mode)
    requires ValidChain(chain + w) && w != [] && Stored(t, chain, mode)
    ensures Faithful(t.processed, HashAt(chain)) && FollowsPrevious(HashAt(chain), w[0])
  {
    hide UtxoRowsOf, Logs, Current;
    ValidFront(chain, w);
    ProcessedMeans(chain);
    ChainWindowsFollow(chain, w);
  }

  lemma {:induction false} StillCurrent(t: CoreTables, u: CoreTables, chain: seq<Block>, asOf: nat,
      late: Table<OutputKey, Output>)
    requires asOf < |chain| && Current(t, chain[..asOf + 1], true) && Sound(late, UnspentAt(chain, asOf), asOf)
    requires u.outputs == t.outputs + late && u.balances == t.balances && u.applied == t.applied
    ensures Current(u, chain[..asOf + 1], true)
  {
    hide Sound, CurrentIs;
    LateRowsHarmless(t, chain[..asOf + 1], late);
    var c, amounts :| CurrentIs(t.(outputs := t.outputs + late), chain[..asOf + 1], c, amounts, true);
    SameRows(t.(outputs := t.outputs + late), u, chain[..asOf + 1], c, amounts);
  }

  lemma {:induction false} SameRows(t: CoreTables, u: CoreTables, chain: seq<Block>, c: Ledger,
      amounts: map<Address, int>)
    requires CurrentIs(t, chain, c, amounts, true)
    requires u.outputs == t.outputs && u.balances == t.balances && u.applied == t.applied
    ensures CurrentIs(u, chain, c, amounts, true)
  {}

  method DeleteWhere<T(!new)>(t: multiset<T>, below: T -> bool) returns (kept: multiset<T>)
    ensures Cut(t, kept, below) && kept <= t
  {
    kept := t;
    while exists x :: x in kept && !below(x)
      invariant kept <= t
      invariant Kept(t, kept, below)
      decreases |kept|
    {
      var x :| x in kept && !below(x);
      kept := kept[x := kept[x] - 1];
    }
  }

  /** An insert that may be cut short unless statements are reliable; when it reports success every row is there. */
  method Insert<T(!new)>(t: multiset<T>, rows: multiset<T>, reliable: bool) returns (ok: bool, u: multiset<T>)
    ensures exists part :: part <= rows && u == t + part
    ensures ok ==> u == t + rows
    ensures reliable ==> ok
  {
    var through := *;
    if reliable || through {
      return true, t + rows;
    }
    var part: multiset<T> :| part <= rows;
    return false, t + part;
  }

  /** An insert whose failure ends the attempt, so that only success matters. */
  method InsertAll<T(!new)>(t: multiset<T>, rows: multiset<T>, reliable: bool) returns (ok: bool, u: multiset<T>)
    ensures ok ==> u == t + rows
    ensures reliable ==> ok
  {
    ok, u := Insert(t, rows, reliable);
  }

  /** Inserting rows none of which is below some line. */
  method InsertAbove<T(!new)>(t: multiset<T>, rows: multiset<T>, ghost below: T -> bool, reliable: bool)
    returns (ok: bool, u: multiset<T>)
    requires NoneBelow(rows, below)
    ensures Kept(t, u, below)
    ensures ok ==> u == t + rows
    ensures reliable ==> ok
  {
    ok, u := Insert(t, rows, reliable);
    ghost var part :| part <= rows && u == t + part;
    KeptAdd(t, rows, part, below);
  }

  /** Deleting every row, possibly cut short. */
  method Clear<T(!new)>(t: multiset<T>, reliable: bool) returns (ok: bool, u: multiset<T>)
    ensures u <= t
    ensures ok ==> u == multiset{}
    ensures reliable ==> ok
  {
    var through := *;
    if reliable || through {
      return true, multiset{};
    }
    var part: multiset<T> :| part <= t;
    return false, part;
  }

  /** A delete that may be cut short: rows below the line stay as they are. */
  method Delete<T(!new)>(t: multiset<T>, below: T -> bool, reliable: bool) returns (ok: bool, kept: multiset<T>)
    ensures Kept(t, kept, below)
    ensures ok ==> Cut(t, kept, below)
    ensures reliable ==> ok
  {
    kept := DeleteWhere(t, below);
    var through := *;
    if reliable || through {
      return true, kept;
    }
    assert t <= t && kept <= t;
    var rest: multiset<T> :| rest <= t && kept <= rest;
    return false, rest;
  }

  class Warehouse {
    var creates: Table<OutputKey, Output>
    var spends: Table<OutputKey, Spender>
    var movements: multiset<Movement>
    var facts: multiset<Fact>
    var processed: Table<nat, Hash>
    var outputs: Table<OutputKey, Output>
    var balances: Table<Address, int>
    var applied: multiset<AppliedBlock>
    /** Progress of a materialization: the values a crash may fall back to, oldest first. */
    var checkpoints: seq<Checkpoint>
    /** Whether every statement goes through; while it is false any of them may be interrupted. */
    var reliable: bool

    function Tables(): CoreTables
      reads this
    {
      CoreTables(creates, spends, movements, facts, processed, outputs, balances, applied)
    }

    function CurrentProgress(): Progress
      reads this`outputs, this`checkpoints
    {
      Progress(outputs, checkpoints)
    }

    constructor ()
      ensures Tables() == NO_TABLES
    {
      creates, spends, movements, facts := multiset{}, multiset{}, multiset{}, multiset{};
      processed, outputs, balances, applied, checkpoints := multiset{}, multiset{}, multiset{}, multiset{}, [];
    }

    // -------------------------------------------------------------- materialization

    method ClearCurrentState() returns (ok: bool)
      modifies this`outputs, this`balances, this`applied
      ensures outputs <= old(outputs)
      ensures ok ==> outputs == multiset{} && balances == multiset{} && applied == multiset{}
      ensures reliable ==> ok
    {
      ok, outputs := Clear(outputs, reliable);
      if !ok {
        return;
      }
      ok, balances := Clear(balances, reliable);
      if !ok {
        return;
      }
      ok, applied := Clear(applied, reliable);
    }

    method ClearDerivedState() returns (ok: bool)
      modifies this`balances, this`applied
      ensures ok ==> balances == multiset{} && applied == multiset{}
      ensures reliable ==> ok
    {
      ok, balances := Clear(balances, reliable);
      if !ok {
        return;
      }
      ok, applied := Clear(applied, reliable);
    }

    /** One bounded statement: the anti-join of one output-key range. */
    method InsertUtxoRange(asOf: nat, range: StringRange, ghost chain: seq<Block>) returns (ok: bool)
      requires ValidChain(chain) && UtxoRowsOf(creates, spends, chain) && asOf < |chain|
      modifies this`outputs
      ensures exists part :: part <= RangeRows(UnspentAt(chain, asOf), range, asOf) && outputs == old(outputs) + part
      ensures ok ==> outputs == old(outputs) + RangeRows(UnspentAt(chain, asOf), range, asOf)
      ensures reliable ==> ok
    {
      hide ValidChain, UtxoRowsOf, LedgerOf, AsOf, UnspentKeys, InRange, Latest;
      var keys := UnspentKeys(creates, spends, asOf, range);
      var created := AsOf(creates, asOf);
      var found := LimitOneBy(created, keys);
      AntiJoinIsUnspent(creates, spends, chain, asOf, range, found);
      RangeRowsAre(LedgerOf(chain[..asOf + 1]), range, asOf);
      ok, outputs := Insert(outputs, RowsAt(found, asOf), reliable);
    }

    /** Balances of the unspent rows, one range of addresses at a time. */
    method InsertBalances(asOf: nat, boundaries: seq<string>, ghost chain: seq<Block>)
      returns (ok: bool, ghost ranges: seq<StringRange>)
      requires asOf < |chain| && balances == multiset{} && Faithful(outputs, UnspentAt(chain, asOf))
      modifies this`balances
      ensures ok ==> Partition(ranges)
      ensures ok ==> Sound(balances, OwnedAmounts(UnspentAt(chain, asOf)), asOf)
      ensures ok ==> FilledUpTo(balances, OwnedAmounts(UnspentAt(chain, asOf)), ranges, |ranges|)
      ensures reliable ==> ok
    {
      ghost var m := UnspentAt(chain, asOf);
      hide UnspentAt, OwnedAmounts, Partition, Faithful, Latest, SumsAre, Filled, Sound;
      var keys := set r | r in outputs :: r.key;
      var current := LimitOneBy(outputs, keys);
      FinalRead(outputs, m, keys, current);
      var addresses := RangesFromBoundaries(boundaries);
      ranges := addresses;
      EmptySound(OwnedAmounts(m), asOf);
      for i := 0 to |addresses|
        invariant Sound(balances, OwnedAmounts(m), asOf)
        invariant FilledUpTo(balances, OwnedAmounts(m), addresses, i)
      {
        var sums := SumByAddress(current, addresses[i]);
        ghost var before := balances;
        ok, balances := Insert(balances, RowsAt(sums, asOf), reliable);
        if !ok {
          return;
        }
        SumsFilled(before, balances, sums, m, asOf, addresses, i);
      }
      ok := true;
    }

    /** Applied blocks copied from the processed ones, a range of heights at a time. */
    method InsertApplied(asOf: nat, step: nat, ghost chain: seq<Block>) returns (ok: bool)
      requires step > 0 && ValidChain(chain) && asOf < |chain| && processed == ProcessedRows(chain)
               && applied == multiset{}
      modifies this`applied
      ensures ok ==> applied == AppliedUpTo(chain, asOf + 1)
      ensures reliable ==> ok
    {
      hide ValidChain, Stamped, ProcessedRows, AppliedUpTo, Latest, AppliedRows, HeightsIn, HashesIn;
      var start := 0;
      ValidIsStamped(chain);
      NothingApplied(chain);
      while start <= asOf
        invariant start <= asOf + step
        invariant applied == AppliedUpTo(chain, Min(start, asOf + 1))
      {
        var end := Min(asOf, start + step - 1);
        var found := LimitOneBy(processed, HeightsIn(processed, start, end));
        ok, applied := Insert(applied, AppliedRows(found), reliable);
        if !ok {
          return;
        }
        ReadHashes(chain, start, end, found);
        AppliedGrows(chain, start, end);
        start := start + step;
      }
      ok := true;
    }

    /** Balances and applied blocks are derived from the finished unspent rows, on tables cleared if need be. */
    method InsertDerived(asOf: nat, boundaries: seq<string>, step: nat, clear: bool, ghost keys: seq<StringRange>,
        ghost chain: seq<Block>) returns (ok: bool)
      requires step > 0 && ValidChain(chain) && UtxoFacts(Tables(), chain) && asOf < |chain| && Partition(keys)
      requires !clear ==> balances == multiset{} && applied == multiset{}
      requires Sound(outputs, UnspentAt(chain, asOf), asOf)
      requires FilledUpTo(outputs, UnspentAt(chain, asOf), keys, |keys|)
      modifies this`balances, this`applied
      ensures ok ==> Current(Tables(), chain[..asOf + 1], true)
      ensures reliable ==> ok
    {
      hide ValidChain, UtxoRowsOf, Sound, FilledUpTo, UnspentAt, OwnedAmounts, Partition, Headers, ProcessedRows;
      if clear {
        ok := ClearDerivedState();
        if !ok {
          return;
        }
      }
      FilledIsFaithful(outputs, UnspentAt(chain, asOf), keys, asOf);
      ghost var addresses;
      ok, addresses := InsertBalances(asOf, boundaries, chain);
      if !ok {
        return;
      }
      ok := InsertApplied(asOf, step, chain);
      if ok {
        BuiltIsCurrent(Tables(), chain, asOf, keys, addresses);
      }
    }

    /** The remaining output-key ranges; a range replayed after a crash writes the same rows again. */
    method InsertUtxoRanges(asOf: nat, ranges: seq<StringRange>, completed: nat, record: bool, ghost chain: seq<Block>)
      returns (ok: bool)
      requires ValidChain(chain) && UtxoRowsOf(creates, spends, chain) && asOf < |chain| && completed <= |ranges|
      modifies this`outputs, this`checkpoints
      ensures !record ==> checkpoints == old(checkpoints)
      ensures record ==> Advances(old(CurrentProgress()), CurrentProgress(), UnspentAt(chain, asOf), asOf, ranges,
              completed)
      ensures ok ==> outputs == Finished(old(CurrentProgress()), UnspentAt(chain, asOf), asOf, ranges, completed,
              |ranges|).outputs
      ensures reliable ==> ok
    {
      hide ValidChain, UtxoRowsOf, UnspentAt, RangeRows;
      ghost var m := UnspentAt(chain, asOf);
      ghost var start := CurrentProgress();
      var index := completed;
      while index < |ranges|
        invariant completed <= index <= |ranges|
        invariant UtxoRowsOf(creates, spends, chain)
        invariant outputs == Finished(start, m, asOf, ranges, completed, index).outputs
        invariant checkpoints == if record then Finished(start, m, asOf, ranges, completed, index).checkpoints
                  else start.checkpoints
      {
        ghost var done := outputs;
        ok := InsertUtxoRange(asOf, ranges[index], chain);
        ghost var part :| part <= RangeRows(m, ranges[index], asOf) && outputs == done + part;
        if !ok {
          assert record ==> Reaches(start, CurrentProgress(), m, asOf, ranges, completed, index, part);
          return;
        }
        index := index + 1;
        if record {
          checkpoints := checkpoints + [Checkpoint(asOf, index, |ranges|)];
        }
      }
      assert outputs + multiset{} == outputs;
      assert record ==> Reaches(start, CurrentProgress(), m, asOf, ranges, completed, index, multiset{});
      ok := true;
    }

    method InsertMaterialization(asOf: nat, ranges: seq<StringRange>, completed: nat, record: bool,
        boundaries: seq<string>, step: nat, ghost chain: seq<Block>) returns (ok: bool)
      requires step > 0 && ValidChain(chain) && UtxoFacts(Tables(), chain) && asOf < |chain| && completed <= |ranges|
               && Partition(ranges)
      requires Sound(outputs, UnspentAt(chain, asOf), asOf)
               && FilledUpTo(outputs, UnspentAt(chain, asOf), ranges, completed)
      requires completed == 0 ==> balances == multiset{} && applied == multiset{}
      modifies this`outputs, this`balances, this`applied, this`checkpoints
      ensures !record ==> checkpoints == old(checkpoints)
      ensures record ==> Advances(old(CurrentProgress()), CurrentProgress(), UnspentAt(chain, asOf), asOf, ranges,
              completed)
      ensures ok ==> Current(Tables(), chain[..asOf + 1], true)
      ensures reliable ==> ok
    {
      hide ValidChain, Sound, FilledUpTo, UnspentAt, Claims, AtMost, Partition, Current, UtxoFacts, UtxoRowsOf,
           ProcessedRows, Advances, Finished;
      ghost var before, start := Tables(), CurrentProgress();
      UnfoldFacts(before, chain);
      ok := InsertUtxoRanges(asOf, ranges, completed, record, chain);
      if !ok {
        return;
      }
      FinishedFills(start, UnspentAt(chain, asOf), asOf, ranges, completed, |ranges|);
      SameFacts(before, Tables(), chain);
      ok := InsertDerived(asOf, boundaries, step, completed > 0, ranges, chain);
    }

    /** One attempt, from the last checkpoint if it fits, else from a clean start. */
    method MaterializeAttempt(asOf: nat, prefixLength: nat, boundaries: seq<string>, step: nat, ghost chain: seq<Block>)
      returns (ok: bool)
      requires step > 0 && prefixLength > 0 && ValidChain(chain) && UtxoFacts(Tables(), chain) && asOf < |chain|
      requires ResumesRight(CurrentProgress(), UnspentAt(chain, asOf), asOf, OutputKeyRanges(prefixLength))
      modifies this`outputs, this`balances, this`applied, this`checkpoints
      ensures Attempted(old(CurrentProgress()), CurrentProgress(), UnspentAt(chain, asOf), asOf, prefixLength)
      ensures ok ==> Current(Tables(), chain[..asOf + 1], true)
      ensures reliable ==> ok
    {
      hide ValidChain, Sound, FilledUpTo, UnspentAt, Partition, Current, OutputKeyRanges, UtxoRowsOf, ProcessedRows,
           Advances, ResumeFrom;
      ghost var m := UnspentAt(chain, asOf);
      var ranges := OutputKeyRanges(prefixLength);
      OutputKeyRangesPartition(prefixLength);
      var completed := ResumeFrom(checkpoints, asOf, |ranges|);
      if completed == 0 {
        ok := ClearCurrentState();
        if !ok {
          return;
        }
        NothingSound(m, asOf, ranges);
      }
      ok := InsertMaterialization(asOf, ranges, completed, true, boundaries, step, chain);
    }

    /** Range statements of attempts that were given up, still running on the server, land whatever rows they like. */
    method LandLate(asOf: nat, ghost chain: seq<Block>)
      requires ValidChain(chain) && UtxoRowsOf(creates, spends, chain) && asOf < |chain|
      modifies this`outputs
      ensures exists late :: Sound(late, UnspentAt(chain, asOf), asOf) && outputs == old(outputs) + late
    {
      hide ValidChain, UtxoRowsOf, UnspentAt, RangeRows, Sound;
      ghost var m := UnspentAt(chain, asOf);
      ghost var late: Table<OutputKey, Output> := multiset{};
      NothingSound(m, asOf, []);
      var count: nat :| count >= 0;
      for i := 0 to count
        invariant UtxoRowsOf(creates, spends, chain) && Sound(late, m, asOf) && outputs == old(outputs) + late
      {
        ghost var before := outputs;
        var range: StringRange :| true;
        var _ := InsertUtxoRange(asOf, range, chain);
        ghost var part :| part <= RangeRows(m, range, asOf) && outputs == before + part;
        PartSound(late, m, range, part, asOf);
        late := late + part;
      }
    }

    /** One attempt and what may follow it: rows that land late, and a crash that loses the latest checkpoints. */
    method MaterializeOnce(asOf: nat, prefixLength: nat, boundaries: seq<string>, step: nat, ghost chain: seq<Block>)
      returns (ok: bool)
      requires step > 0 && prefixLength > 0 && ValidChain(chain) && UtxoFacts(Tables(), chain) && asOf < |chain|
      requires ResumesRight(CurrentProgress(), UnspentAt(chain, asOf), asOf, OutputKeyRanges(prefixLength))
      modifies this`outputs, this`balances, this`applied, this`checkpoints
      ensures AttemptedAndLost(old(CurrentProgress()), CurrentProgress(), UnspentAt(chain, asOf), asOf, prefixLength)
      ensures ok ==> Current(Tables(), chain[..asOf + 1], true)
      ensures reliable ==> ok
    {
      hide ValidChain, UnspentAt, Current, OutputKeyRanges, Attempted, ResumesRight, Sound, Disturbed, ProcessedRows,
           UtxoRowsOf;
      ghost var m := UnspentAt(chain, asOf);
      ok := MaterializeAttempt(asOf, prefixLength, boundaries, step, chain);
      ghost var stopped, tables := CurrentProgress(), Tables();
      LandLate(asOf, chain);
      ghost var late :| Sound(late, m, asOf) && outputs == stopped.outputs + late;
      if ok { StillCurrent(tables, Tables(), chain, asOf, late); }
      var kept: nat :| kept <= |checkpoints|;
      checkpoints := checkpoints[..kept];
      DisturbedBy(stopped, CurrentProgress(), m, asOf, late);
    }

    /**
     * Any number of attempts, each of which may stop after any statement, with crashes in between that lose the latest
     * checkpoints and statements that land late: if one succeeds, the current state is that of the chain at the height.
     */
    method MaterializeUntilDone(asOf: nat, prefixLengths: seq<nat>, boundaries: seq<string>, step: nat,
        ghost chain: seq<Block>) returns (ok: bool)
      requires step > 0 && ValidChain(chain) && UtxoFacts(Tables(), chain) && asOf < |chain| && prefixLengths != []
      requires forall i :: 0 <= i < |prefixLengths| ==> prefixLengths[i] > 0
      requires !Recurs(prefixLengths) && Trusted(CurrentProgress(), prefixLengths, 0, UnspentAt(chain, asOf), asOf)
      modifies this`outputs, this`balances, this`applied, this`checkpoints
      ensures ok ==> Current(Tables(), chain[..asOf + 1], true)
      ensures UtxoFacts(Tables(), chain)
      ensures forall c <- checkpoints :: c in old(checkpoints) || c.asOf == asOf
      ensures reliable ==> ok
    {
      hide ValidChain, UnspentAt, Claims, Current, OutputKeyRanges, UtxoFacts, Recurs, Trusted, AttemptedAndLost,
           ResumesRight;
      ghost var m := UnspentAt(chain, asOf);
      ok := false;
      for i := 0 to |prefixLengths|
        invariant UtxoFacts(Tables(), chain)
        invariant Trusted(CurrentProgress(), prefixLengths, i, m, asOf) && (reliable ==> i == 0)
        invariant forall c <- checkpoints :: c in old(checkpoints) || c.asOf == asOf
      {
        ghost var before, found := Tables(), CurrentProgress();
        TrustedClaims(found, prefixLengths, i, m, asOf);
        ResumeIsRight(found, m, asOf, OutputKeyRanges(prefixLengths[i]));
        ok := MaterializeOnce(asOf, prefixLengths[i], boundaries, step, chain);
        SameFacts(before, Tables(), chain);
        LostRecordsFor(found, CurrentProgress(), m, asOf, prefixLengths[i]);
        if ok {
          return;
        }
        LostKeepsTrust(found, CurrentProgress(), prefixLengths, i, m, asOf);
      }
    }

    // -------------------------------------------------------------- tail deletes and rewinds

    method DeleteUtxoTail(from: nat) returns (ok: bool)
      modifies this`creates, this`spends, this`processed
      ensures Kept(old(creates), creates, CreateBelow(from)) && Kept(old(spends), spends, SpendBelow(from))
              && Kept(old(processed), processed, ProcessedBelow(from))
      ensures ok ==> && Cut(old(creates), creates, CreateBelow(from)) && Cut(old(spends), spends, SpendBelow(from))
                     && Cut(old(processed), processed, ProcessedBelow(from))
      ensures reliable ==> ok
    {
      hide Kept, Cut;
      UnchangedKept(Tables(), from);
      ok, creates := Delete(creates, CreateBelow(from), reliable);
      if !ok {
        return;
      }
      ok, spends := Delete(spends, SpendBelow(from), reliable);
      if !ok {
        return;
      }
      ok, processed := Delete(processed, ProcessedBelow(from), reliable);
    }

    method DeleteLogTail(from: nat) returns (ok: bool)
      modifies this`movements, this`applied, this`facts
      ensures Kept(old(movements), movements, MovementBelow(from)) && Kept(old(facts), facts, FactBelow(from))
      ensures ok ==> && Cut(old(movements), movements, MovementBelow(from)) && Cut(old(facts), facts, FactBelow(from))
                     && Cut(old(applied), applied, AppliedBelow(from))
      ensures reliable ==> ok
    {
      hide Kept, Cut;
      UnchangedKept(Tables(), from);
      ok, movements := Delete(movements, MovementBelow(from), reliable);
      if !ok {
        return;
      }
      ok, applied := Delete(applied, AppliedBelow(from), reliable);
      if !ok {
        return;
      }
      ok, facts := Delete(facts, FactBelow(from), reliable);
    }

    method DeleteTail(from: nat) returns (ok: bool)
      modifies this`creates, this`spends, this`processed, this`movements, this`applied, this`facts
      ensures SameBelow(old(Tables()), Tables(), from)
      ensures ok ==> TailDeleted(old(Tables()), Tables(), from)
      ensures ok ==> Cut(old(applied), applied, AppliedBelow(from))
      ensures reliable ==> ok
    {
      hide Kept, Cut;
      UnchangedKept(Tables(), from);
      ok := DeleteUtxoTail(from);
      if !ok {
        return;
      }
      ok := DeleteLogTail(from);
    }

    method Rematerialize(asOf: int, prefixLength: nat, boundaries: seq<string>, step: nat, ghost chain: seq<Block>)
      returns (ok: bool)
      requires step > 0 && prefixLength > 0 && ValidChain(chain) && UtxoFacts(Tables(), chain) && asOf == |chain| - 1
      modifies this`outputs, this`balances, this`applied, this`checkpoints
      ensures checkpoints == old(checkpoints)
      ensures ok ==> Current(Tables(), chain, true)
      ensures reliable ==> ok
    {
      hide ValidChain, UtxoRowsOf, ProcessedRows, Current, OutputKeyRanges, Partition, UnspentAt, Sound, FilledUpTo;
      ok := ClearCurrentState();
      if !ok {
        return;
      }
      if asOf < 0 {
        EmptyIsCurrent(Tables());
        return;
      }
      OutputKeyRangesPartition(prefixLength);
      NothingSound(UnspentAt(chain, asOf), asOf, OutputKeyRanges(prefixLength));
      ok := InsertMaterialization(asOf, OutputKeyRanges(prefixLength), 0, false, boundaries, step, chain);
      assert chain[..asOf + 1] == chain;
    }

    /**
     * Deletes everything from a height up and builds the current state again. Whatever was stored above
     * the height, and however the current state looked, the tables end up storing the chain below it.
     */
    method Rewind(from: nat, live: bool, prefixLength: nat, boundaries: seq<string>, step: nat, ghost chain: seq<Block>,
        ghost looks: Lookups)
      returns (ok: bool)
      requires step > 0 && prefixLength > 0 && ValidChain(chain) && |chain| == from && HasPrefix(Tables(), chain, looks)
      modifies this
      ensures checkpoints == old(checkpoints)
      ensures HasPrefix(Tables(), chain, looks)
      ensures ok ==> Stored(Tables(), chain, Mode(live, live, looks))
      ensures reliable == old(reliable) && (reliable ==> ok)
    {
      hide ValidChain, HasPrefix, SameBelow, TailDeleted, Logs, UtxoRowsOf, ProcessedRows, Current;
      ghost var before := Tables();
      ok := DeleteTail(from);
      SameBelowKeepsPrefix(before, Tables(), chain, from, looks);
      if !ok {
        return;
      }
      ghost var cut := Tables();
      TailDeleteRestores(before, cut, chain, looks);
      if live {
        ok := Rematerialize(from - 1, prefixLength, boundaries, step, chain);
        LogsOnly(cut, Tables(), chain, looks);
      }
    }

    // -------------------------------------------------------------- windows

    method InsertUtxoRows(rows: CoreTables, ghost from: nat) returns (ok: bool)
      requires AllFrom(rows, from)
      modifies this`creates, this`spends
      ensures Kept(old(creates), creates, CreateBelow(from)) && Kept(old(spends), spends, SpendBelow(from))
      ensures ok ==> creates == old(creates) + rows.creates && spends == old(spends) + rows.spends
      ensures reliable ==> ok
    {
      hide Kept, NoneBelow;
      var first, second;
      first, creates := InsertAbove(creates, rows.creates, CreateBelow(from), reliable);
      second, spends := InsertAbove(spends, rows.spends, SpendBelow(from), reliable);
      ok := first && second;
    }

    method InsertLogRows(rows: CoreTables, ghost from: nat) returns (ok: bool)
      requires AllFrom(rows, from)
      modifies this`movements, this`facts
      ensures Kept(old(movements), movements, MovementBelow(from)) && Kept(old(facts), facts, FactBelow(from))
      ensures ok ==> movements == old(movements) + rows.movements && facts == old(facts) + rows.facts
      ensures reliable ==> ok
    {
      hide Kept, NoneBelow;
      var third, fourth;
      third, movements := InsertAbove(movements, rows.movements, MovementBelow(from), reliable);
      fourth, facts := InsertAbove(facts, rows.facts, FactBelow(from), reliable);
      ok := third && fourth;
    }

    /** The four fact inserts; all of them are awaited, so a failure leaves any part of each. */
    method InsertFacts(rows: CoreTables, ghost from: nat) returns (ok: bool)
      requires AllFrom(rows, from)
      modifies this`creates, this`spends, this`movements, this`facts
      ensures SameBelow(old(Tables()), Tables(), from)
      ensures ok ==> Tables() == AddFacts(old(Tables()), rows)
      ensures reliable ==> ok
    {
      hide Kept, AllFrom;
      UnchangedKept(Tables(), from);
      var utxo := InsertUtxoRows(rows, from);
      var logs := InsertLogRows(rows, from);
      ok := utxo && logs;
    }

    method InsertCurrentRows(rows: Table<OutputKey, Output>, amounts: Table<Address, int>,
        headers: multiset<AppliedBlock>) returns (ok: bool)
      modifies this`outputs, this`balances, this`applied
      ensures ok ==> outputs == old(outputs) + rows && balances == old(balances) + amounts
                     && applied == old(applied) + headers
      ensures reliable ==> ok
    {
      ok, outputs := InsertAll(outputs, rows, reliable);
      if !ok {
        return;
      }
      ok, balances := InsertAll(balances, amounts, reliable);
      if !ok {
        return;
      }
      ok, applied := InsertAll(applied, headers, reliable);
    }

    method InsertCurrent(w: seq<Block>, mu: Mutation, next: map<Address, int>) returns (ok: bool)
      requires w != []
      modifies this`outputs, this`balances, this`applied
      ensures ok ==> Tables() == NextCurrent(old(Tables()), w, mu, next)
      ensures reliable ==> ok
    {
      hide OutputRows, RowsAt, Headers;
      ok := InsertCurrentRows(OutputRows(mu.next), RowsAt(next, BalanceVersion(w[|w| - 1].height)),
        multiset(Headers(w)));
    }

    method InsertProcessed(w: seq<Block>, ghost from: nat) returns (ok: bool)
      requires NoneBelow(ProcessedRows(w), ProcessedBelow(from))
      modifies this`processed
      ensures SameBelow(old(Tables()), Tables(), from)
      ensures ok ==> Tables() == AddProcessed(old(Tables()), w)
      ensures reliable ==> ok
    {
      hide Kept, NoneBelow, ProcessedRows;
      UnchangedKept(Tables(), from);
      ok, processed := InsertAbove(processed, ProcessedRows(w), ProcessedBelow(from), reliable);
    }

    /** Outputs spent by the window and created before it; none while the current state is not maintained. */
    method LoadPrevouts(w: seq<Block>, live: bool) returns (prevouts: Ledger)
      ensures live ==> Latest(outputs, ExternalKeys(w), prevouts)
      ensures !live ==> prevouts == map[]
    {
      if !live {
        return map[];
      }
      prevouts := LimitOneBy(outputs, ExternalKeys(w));
    }

    /** The first balance that would go negative, if any. */
    method NextBalances(deltas: map<Address, int>) returns (next: map<Address, int>, negative: Option<Address>)
      ensures forall amounts :: Faithful(balances, amounts) ==> next == NextAmounts(amounts, deltas)
      ensures negative.Some? ==> negative.value in next && next[negative.value] < 0
      ensures negative.None? ==> forall a :: a in next ==> next[a] >= 0
    {
      var found := LimitOneBy(balances, deltas.Keys);
      next := NextAmounts(found, deltas);
      forall amounts | Faithful(balances, amounts) ensures next == NextAmounts(amounts, deltas) {
        ReadsAre(balances, amounts, deltas.Keys, found);
      }
      if a :| a in next && next[a] < 0 {
        return next, Some(a);
      }
      return next, None;
    }

    method MaintainCurrent(w: seq<Block>, live: bool, mu: Mutation, next: map<Address, int>, ghost chain: seq<Block>,
        ghost looks: Lookups) returns (ok: bool)
      requires w != [] && ValidChain(chain) && HasPrefix(Tables(), chain, looks)
      modifies this`outputs, this`balances, this`applied
      ensures HasPrefix(Tables(), chain, looks)
      ensures ok ==> Tables() == if live then NextCurrent(old(Tables()), w, mu, next) else old(Tables())
      ensures reliable ==> ok
    {
      hide ValidChain, HasPrefix, NextCurrent;
      if !live {
        return true;
      }
      ghost var before := Tables();
      ok := InsertCurrent(w, mu, next);
      LogsOnly(before, Tables(), chain, looks);
    }

    /** The inserts of one window: facts, current state if it is maintained, and the processed blocks last. */
    method InsertRows(w: seq<Block>, live: bool, look: Ledger, mu: Mutation, next: map<Address, int>,
        ghost chain: seq<Block>, ghost looks: Lookups) returns (ok: bool)
      requires w != [] && ValidChain(chain + w) && ValidChain(chain) && HasPrefix(Tables(), chain, looks)
      modifies this
      ensures checkpoints == old(checkpoints) && reliable == old(reliable)
      ensures HasPrefix(Tables(), chain, looks)
      ensures ok ==> Tables() == if live then AfterWindow(old(Tables()), w, look, mu, next)
                                 else AddProcessed(AddFacts(old(Tables()), WindowFactRows(w, look)), w)
      ensures reliable ==> ok
    {
      hide ValidChain, HasPrefix, AllFrom, NoneBelow, SameBelow, AddFacts, AddProcessed, NextCurrent, WindowFactRows,
           ProcessedRows, ProcessedBelow;
      ghost var start := Tables();
      WindowRowsFrom(chain, w, look);
      ok := InsertFacts(WindowFactRows(w, look), |chain|);
      SameBelowKeepsPrefix(start, Tables(), chain, |chain|, looks);
      if !ok {
        return;
      }
      ok := MaintainCurrent(w, live, mu, next, chain, looks);
      if !ok {
        return;
      }
      ghost var before := Tables();
      ok := InsertProcessed(w, |chain|);
      SameBelowKeepsPrefix(before, Tables(), chain, |chain|, looks);
    }

    /**
     * Inserts one window. Everything that can fail on missing rows is resolved before the first insert; unless a
     * statement is interrupted, only a missing row makes it fail.
     */
    method InsertWindow(w: seq<Block>, live: bool, ghost chain: seq<Block>, ghost mode: Mode)
      returns (error: Option<CoreError>)
      requires w != [] && ValidChain(chain + w) && Stored(Tables(), chain, mode) && (live ==> mode.current)
      modifies this
      ensures checkpoints == old(checkpoints)
      ensures HasPrefix(Tables(), chain, mode.looks)
      ensures error.None? ==> Stored(Tables(), chain + w, ModeAfter(live, mode, |chain|, w))
      ensures error.Some? ==>
                || error.value == Interrupted
                || (MissesPrevout(old(outputs), w, error.value) && live && !mode.full && Tables() == old(Tables()))
      ensures reliable == old(reliable)
      ensures reliable && (live ==> mode.full || KeysPresent(old(outputs), ExternalKeys(w))) ==> error.None?
      ensures reliable ==> error != Some(Interrupted)
    {
      hide ValidChain, Stored, HasPrefix, MissesPrevout, AfterWindow, AddFacts, AddProcessed, WindowFactRows,
           CreatedInWindow, ExternalKeys, Latest, KeysPresent;
      ghost var start := Tables();
      ValidFront(chain, w);
      StoredKeepsPrefix(start, chain, mode);
      var prevouts := LoadPrevouts(w, live);
      var look := prevouts + CreatedInWindow(w);
      var mu, next := NO_MUTATION, map[];
      if live {
        error, mu, next := BuildCurrent(w, prevouts, chain, mode);
        if error.Some? {
          MissedKey(outputs, w, error.value);
          return;
        }
      }
      var ok := InsertRows(w, live, look, mu, next, chain, mode.looks);
      if !ok {
        return Some(Interrupted);
      }
      if !live {
        StoredParts(start, chain, mode);
        BackfillStores(start, chain, w, mode);
      }
      error := None;
    }

    /** Computes what the window does to the current rows from its prevouts and the balances it touches. */
    method BuildCurrent(w: seq<Block>, prevouts: Ledger, ghost chain: seq<Block>, ghost mode: Mode)
      returns (error: Option<CoreError>, mu: Mutation, next: map<Address, int>)
      requires w != [] && ValidChain(chain + w) && Stored(Tables(), chain, mode) && mode.current
      requires Latest(outputs, ExternalKeys(w), prevouts)
      ensures error.None? ==>
                Stored(AfterWindow(Tables(), w, prevouts + CreatedInWindow(w), mu, next), chain + w,
                       ModeAfter(true, mode, |chain|, w))
      ensures error.Some? ==> !mode.full && MissesPrevout(outputs, w, error.value)
    {
      hide ValidChain, Mutate, AfterWindow, Latest, ExternalKeys, UtxoFacts, Logs, View, Faithful, BalancesAre,
           LedgerOf;
      ghost var c, amounts :| CurrentIs(Tables(), chain, c, amounts, mode.full);
      ReadsAre(outputs, c, ExternalKeys(w), prevouts);
      var r := MutateWindow(w, prevouts);
      if mode.full { FullFindsAll(chain, w, c, prevouts); }
      if ExternalKeys(w) <= prevouts.Keys {
        WindowStores(Tables(), chain, w, c, amounts, prevouts, mode);
      }
      if r.MissingPrevout? {
        MissingRow(outputs, ExternalKeys(w), prevouts);
        return Some(MissingCurrent(r.key)), NO_MUTATION, map[];
      }
      MissingKeyStops(w, prevouts);
      var negative;
      mu := r.mutation;
      next, negative := NextBalances(mu.deltas);
      assert negative.None?;
      error := None;
    }

    /** Outputs of some keys as the append-only tables have them up to a height; none below the first block. */
    method ReadHistorical(keys: set<OutputKey>, asOf: int) returns (rows: Ledger)
      ensures asOf < 0 ==> rows == map[]
      ensures asOf >= 0 ==> ReadAs(creates, spends, asOf, keys, rows)
    {
      if asOf < 0 {
        return map[];
      }
      var created := LimitOneBy(AsOf(creates, asOf), keys);
      var spent := LimitOneBy(AsOf(spends, asOf), keys);
      rows := Historical(created, spent);
    }

    /** Writes current rows for outputs the window spends that have none. */
    method RepairPrevouts(w: seq<Block>, ghost chain: seq<Block>, ghost mode: Mode) returns (ok: bool)
      requires w != [] && ValidChain(chain + w) && Stored(Tables(), chain, mode) && mode.current
      modifies this`outputs
      ensures ok ==> Stored(Tables(), chain, mode) && KeysPresent(outputs, ExternalKeys(w))
      ensures reliable ==> ok
    {
      hide ValidChain, Latest, ExternalKeys, UtxoFacts, Logs, CurrentIs, Historical, KeysPresent, AsOf, LedgerOf;
      var keys := ExternalKeys(w);
      var current := LimitOneBy(outputs, keys);
      var missing := keys - current.Keys;
      if missing == {} {
        FoundPresent(outputs, keys, current);
        return true;
      }
      ValidFront(chain, w);
      var rows := ReadHistorical(missing, w[0].height - 1);
      ghost var c, amounts :| CurrentIs(Tables(), chain, c, amounts, mode.full);
      RepairsAre(Tables(), chain, w, missing, rows);
      // No row is still missing or already spent: a window of a valid chain has neither.
      assert missing <= rows.Keys;
      ghost var before := Tables();
      ok, outputs := Insert(outputs, OutputRows(rows), reliable);
      if ok {
        RepairStored(before, Tables(), chain, c, amounts, mode, rows, missing, current);
        RepairedPresent(before.outputs, keys, current, rows);
      }
    }

    // -------------------------------------------------------------- reorgs and the whole operation

    /** What is left to apply; rewinds first when a processed block has another hash. */
    method PendingApplications(input: seq<Block>, live: bool, prefixLength: nat, boundaries: seq<string>, step: nat,
                               ghost chain: seq<Block>, ghost node: seq<Block>, ghost lo: nat, ghost hi: nat,
                                 ghost mode: Mode)
      returns (ok: bool, pending: seq<Block>)
      requires step > 0 && prefixLength > 0 && ValidChain(chain) && ValidChain(node) && HashesIdentify(chain, node)
      requires lo < hi <= |node| && lo <= |chain| && chain[..lo] == node[..lo] && input == node[lo..hi]
      requires Stored(Tables(), chain, mode) && (live ==> mode.current)
      modifies this
      ensures checkpoints == old(checkpoints)
      ensures !ok ==> HasPrefix(Tables(), node[..lo], mode.looks)
      ensures ok ==> var d := ForkHeight(chain, node, lo, hi);
                if d < hi then pending == node[d..hi] && Stored(Tables(), node[..d], Mode(live, live, mode.looks))
                else Tables() == old(Tables()) && pending == if |chain| < hi then node[|chain|..hi] else []
      ensures reliable == old(reliable) && (reliable ==> ok)
    {
      hide ValidChain, Stored, HasPrefix, HashesIdentify, FoundIn, Latest, Unprocessed, ReorgAt, FromHeight,
           ProcessedRows, WindowHeights;
      ValidIsNumbered(node);
      var found := LimitOneBy(processed, WindowHeights(input));
      StoredProcessed(Tables(), chain, mode);
      ReadFindsChain(chain, node, lo, hi, found);
      PendingPart(found, chain, node, lo, hi);
      var reorg := ReorgAt(found, input);
      if reorg < |input| {
        ghost var d := ForkHeight(chain, node, lo, hi);
        SharedPrefix(chain, node, lo, d);
        ValidPrefix(chain, d);
        StoredPrefix(Tables(), chain, d, mode);
        var from := input[reorg].height;
        ok := Rewind(from, live, prefixLength, boundaries, step, node[..d], mode.looks);
        PrefixOfPrefix(Tables(), node[..d], lo, mode.looks);
        assert node[..d][..lo] == node[..lo];
        return ok, FromHeight(input, from);
      }
      return true, Unprocessed(found, input);
    }

    /**
     * One window of the node's chain. Wherever the fork is, success leaves the tables storing the chain the
     * window leads to; wherever it stops, the rows below the window are as they were, so that rewinding to the
     * window's first height always finds a clean prefix.
     */
    method ApplyCoreWindow(input: seq<Block>, live: bool, prefixLength: nat, boundaries: seq<string>, step: nat,
                           ghost chain: seq<Block>, ghost node: seq<Block>, ghost lo: nat, ghost hi: nat,
                             ghost mode: Mode)
      returns (error: Option<CoreError>, result: ApplyResult)
      requires step > 0 && prefixLength > 0 && ValidChain(chain) && ValidChain(node) && HashesIdentify(chain, node)
      requires lo < hi <= |node| && lo <= |chain| && chain[..lo] == node[..lo] && input == node[lo..hi]
      requires Stored(Tables(), chain, mode) && (live ==> mode.current)
      modifies this
      ensures checkpoints == old(checkpoints)
      ensures error.Some? ==> error.value == Interrupted && HasPrefix(Tables(), node[..lo], mode.looks)
      ensures error.None? ==>
                Stored(Tables(), ChainAfter(chain, node, lo, hi), ModeOf(live, mode, chain, node, lo, hi))
      ensures error.None? ==> result.processTail == hi - 1 && (!result.applied ==> Tables() == old(Tables()))
      ensures error.None? ==> (result.applied <==> |chain| < hi || chain[..hi] != node[..hi])
      ensures reliable == old(reliable) && (reliable ==> error.None?)
    {
      hide ValidChain, Stored, HasPrefix, HashesIdentify, WindowEnd, ForkHeight;
      var ok, pending := PendingApplications(input, live, prefixLength, boundaries, step, chain, node, lo, hi, mode);
      if !ok {
        return Some(Interrupted), ApplyResult(false, -1);
      }
      ghost var d := ForkHeight(chain, node, lo, hi);
      ChangesChain(chain, node, lo, hi);
      ValidIsNumbered(node);
      WindowEndIs(node, lo, hi);
      if pending == [] {
        AlreadyApplied(Tables(), chain, node, lo, hi, live, mode);
        return None, ApplyResult(false, WindowEnd(input));
      }
      ghost var start := if d < hi then d else |chain|;
      SharedPrefix(chain, node, lo, start);
      assert chain[..|chain|] == chain;
      assert node[..start] + node[start..hi] == node[..hi];
      ghost var here := if d < hi then Mode(live, live, mode.looks) else mode;
      ValidPrefix(node, hi);
      ValidPrefix(node, start);
      WindowEndIs(node, start, hi);
      error := ApplyPending(pending, live, node[..start], here);
      PrefixOfPrefix(Tables(), node[..start], lo, mode.looks);
      assert node[..start][..lo] == node[..lo];
      if error.Some? {
        return error, ApplyResult(false, -1);
      }
      Weaker(Tables(), node[..hi], live, here, mode, start, pending);
      return None, ApplyResult(true, WindowEnd(pending));
    }

    /** The processed block below a window, if there is one, is the one the window's first block names. */
    method PreviousBlockMatches(first: Block) returns (ok: bool)
      ensures forall hashes :: Faithful(processed, hashes) ==> (ok <==> FollowsPrevious(hashes, first))
    {
      if first.height == 0 {
        return true;
      }
      var found := LimitOneBy(processed, {first.height - 1});
      ok := first.height - 1 in found ==> first.previous == Some(found[first.height - 1]);
      hide Faithful, Latest, FollowsPrevious;
      forall hashes | Faithful(processed, hashes) ensures ok <==> FollowsPrevious(hashes, first) {
        PreviousRead(processed, hashes, first, found);
      }
    }

    /** Removes what a failed insert of the window left, repairs missing current rows, and inserts it once more. */
    method RepairAndRetry(w: seq<Block>, live: bool, ghost chain: seq<Block>, ghost mode: Mode)
      returns (error: Option<CoreError>)
      requires w != [] && ValidChain(chain + w) && Stored(Tables(), chain, mode) && (live ==> mode.current)
      requires mode.current
      modifies this
      ensures checkpoints == old(checkpoints) && HasPrefix(Tables(), chain, mode.looks)
      ensures error.Some? ==> error.value == Interrupted
      ensures error.None? ==> Stored(Tables(), chain + w, ModeAfter(live, mode, |chain|, w))
      ensures reliable == old(reliable) && (reliable ==> error.None?)
    {
      hide ValidChain, Stored, HasPrefix, TailDeleted, SameBelow, KeysPresent, ExternalKeys;
      ghost var before := Tables();
      ValidFront(chain, w);
      StoredKeepsPrefix(before, chain, mode);
      FirstHeight(chain, w);
      var ok := DeleteTail(w[0].height);
      SameBelowKeepsPrefix(before, Tables(), chain, |chain|, mode.looks);
      if !ok {
        return Some(Interrupted);
      }
      NothingAbove(before, Tables(), chain, mode);
      ghost var clean := Tables();
      ok := RepairPrevouts(w, chain, mode);
      LogsOnly(clean, Tables(), chain, mode.looks);
      if !ok {
        return Some(Interrupted);
      }
      error := InsertWindow(w, live, chain, mode);
      if error.Some? {
        ghost var failed := Tables();
        ok := DeleteTail(w[0].height);
        SameBelowKeepsPrefix(failed, Tables(), chain, |chain|, mode.looks);
      }
    }

    /** Checks a pending window, inserts it, and repairs missing current rows once. */
    method ApplyPending(w: seq<Block>, live: bool, ghost chain: seq<Block>, ghost mode: Mode)
      returns (error: Option<CoreError>)
      requires w != [] && ValidChain(chain + w) && Stored(Tables(), chain, mode) && (live ==> mode.current)
      modifies this
      ensures checkpoints == old(checkpoints)
      ensures HasPrefix(Tables(), chain, mode.looks)
      ensures error.Some? ==> error.value == Interrupted
      ensures error.None? ==> Stored(Tables(), chain + w, ModeAfter(live, mode, |chain|, w))
      ensures reliable == old(reliable) && (reliable ==> error.None?)
    {
      hide ValidChain, Stored, HasPrefix, WellShaped, KeysPresent, ExternalKeys, Faithful, FollowsPrevious, HashAt;
      var shaped := CheckShape(w);
      ChainWindowsWellShaped(chain, w);
      var follows := PreviousBlockMatches(w[0]);
      ProcessedFollow(Tables(), chain, w, mode);
      // Neither check stops a window of a valid chain.
      assert shaped && follows;
      error := InsertWindow(w, live, chain, mode);
      if error.None? || error.value == Interrupted {
        return;
      }
      error := RepairAndRetry(w, live, chain, mode);
    }
  }
}
