/** The in-memory warehouse adapter: an object whose row arrays are rewritten by its methods. */
module InMemoryWarehouse {
  import opened Chain
  import opened Projection
  import opened Store

  class Warehouse {
    var applied: seq<AppliedBlock>
    var outputs: seq<Output>
    var movements: seq<Movement>
    var facts: seq<Fact>
    var balances: seq<BalanceRow>

    ghost function State(): Rows
      reads this
    {
      Rows(applied, outputs, movements, facts, balances)
    }

    constructor ()
      ensures State() == EMPTY
    {
      applied, outputs, movements, facts, balances := [], [], [], [], [];
    }

    /** Applies what is pending of a window of node blocks; an error leaves the rows as far as they got. */
    method ApplyCoreWindow(input: seq<Block>) returns (error: Option<Error>, result: ApplyResult)
      modifies this
      ensures ApplyWindow(old(State()), input).0 == Outcome(State(), error)
      ensures error.None? ==> result == ApplyWindow(old(State()), input).1
    {
      error := None;
      if |input| == 0 {
        return None, ApplyResult(false, -1);
      }
      var pending := PendingApplications(input);
      if |pending| == 0 {
        return None, ApplyResult(false, WindowEnd(input));
      }
      var look := WindowLookup(outputs, pending);
      ghost var start := State();
      for i := 0 to |pending|
        invariant ApplyBlocks(start, pending, look) == ApplyBlocks(State(), pending[i..], look)
      {
        error := ApplyApplication(pending[i], look);
        assert pending[i..][0] == pending[i] && pending[i..][1..] == pending[i + 1..];
        if error.Some? {
          return error, ApplyResult(false, -1);
        }
      }
      return None, ApplyResult(true, WindowEnd(pending));
    }

    /** Drops every row from a height up and sums the balances again. */
    method RecoverCoreWindow(from: nat)
      modifies this
      ensures State() == Rewind(old(State()), from)
    {
      applied := Keep(applied, AppliedBelow(from));
      movements := Keep(movements, MovementBelow(from));
      facts := Keep(facts, FactBelow(from));
      outputs := RewindOutputs(outputs, from);
      RebuildBalances();
    }

    method PendingApplications(input: seq<Block>) returns (pending: seq<Block>)
      modifies this
      ensures (State(), pending) == Pending(old(State()), input)
    {
      for i := 0 to |input|
        invariant State() == old(State())
        invariant FirstReorg(applied, input) == i + FirstReorg(applied, input[i..])
      {
        assert input[i..][0] == input[i] && input[i..][1..] == input[i + 1..];
        var at := AppliedAt(applied, input[i].height);
        if at < |applied| && applied[at].hash != input[i].hash {
          RecoverCoreWindow(input[i].height);
          return FromHeight(input, input[i].height);
        }
      }
      return NotApplied(applied, input);
    }

    method ApplyApplication(b: Block, look: Ledger) returns (error: Option<Error>)
      modifies this
      ensures ApplyBlock(old(State()), b, look) == Outcome(State(), error)
    {
      var moved, added := BlockMovements(b, look), BlockFacts(b, look);
      CreateOutputs(b.creates);
      error := ConsumeOutputs(b.spends);
      if error.Some? {
        return;
      }
      error := RecordMovements(moved, b.height);
      if error.Some? {
        return;
      }
      RecordFacts(added);
      applied := AppendApplied(applied, Header(b));
    }

    method CreateOutputs(creates: seq<Output>)
      modifies this
      ensures State() == old(State()).(outputs := UpsertOutputs(old(outputs), creates))
    {
      for i := 0 to |creates|
        invariant State() == old(State()).(outputs := outputs)
        invariant UpsertOutputs(old(outputs), creates) == UpsertOutputs(outputs, creates[i..])
      {
        assert creates[i..][0] == creates[i] && creates[i..][1..] == creates[i + 1..];
        outputs := UpsertOutput(outputs, creates[i]);
      }
    }

    method ConsumeOutputs(spends: seq<Spend>) returns (error: Option<Error>)
      modifies this
      ensures SpendOutputs(old(State()), spends) == Outcome(State(), error)
    {
      for i := 0 to |spends|
        invariant SpendOutputs(old(State()), spends) == SpendOutputs(State(), spends[i..])
      {
        assert spends[i..][0] == spends[i] && spends[i..][1..] == spends[i + 1..];
        if OutputAt(outputs, spends[i].key) == |outputs| {
          return Some(MissingOutput(spends[i].key));
        }
        outputs := SpendOutput(outputs, spends[i]);
      }
      return None;
    }

    method RecordMovements(moved: seq<Movement>, height: nat) returns (error: Option<Error>)
      modifies this
      ensures AddMovements(old(State()), moved, height) == Outcome(State(), error)
    {
      for i := 0 to |moved|
        invariant AddMovements(old(State()), moved, height) == AddMovements(State(), moved[i..], height)
      {
        assert moved[i..][0] == moved[i] && moved[i..][1..] == moved[i + 1..];
        if !HasMovement(movements, moved[i].id) {
          movements := movements + [moved[i]];
          var next := Amount(balances, moved[i].address) + SignedAmount(moved[i]);
          if next < 0 {
            return Some(NegativeBalance(moved[i].address));
          }
          balances := SetBalance(balances, moved[i].address, next, height);
        }
      }
      return None;
    }

    method RecordFacts(added: seq<Fact>)
      modifies this
      ensures State() == old(State()).(facts := UpsertFacts(old(facts), added))
    {
      for i := 0 to |added|
        invariant State() == old(State()).(facts := facts)
        invariant UpsertFacts(old(facts), added) == UpsertFacts(facts, added[i..])
      {
        assert added[i..][0] == added[i] && added[i..][1..] == added[i + 1..];
        facts := UpsertFact(facts, added[i]);
      }
    }

    method RebuildBalances()
      modifies this
      ensures State() == old(State()).(balances := RebuiltBalances(outputs, MaxHeight(applied)))
    {
      var asOf := MaxHeight(applied);
      var sums: seq<BalanceRow> := [];
      for i := 0 to |outputs|
        invariant State() == old(State())
        invariant sums == RebuiltBalances(outputs[..i], asOf)
      {
        assert outputs[..i + 1][..i] == outputs[..i];
        sums := AddUnspent(sums, outputs[i], asOf);
      }
      assert outputs[..|outputs|] == outputs;
      balances := sums;
    }
  }
}
