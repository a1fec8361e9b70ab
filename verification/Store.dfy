/** The rows the in-memory warehouse holds, and what each of its operations does to them. */
module Store {
  import opened Chain
  import opened Balances
  import opened Projection

  datatype AppliedBlock = AppliedBlock(height: nat, hash: Hash)

  datatype BalanceRow = BalanceRow(address: Address, amount: int, asOf: int)

  datatype Rows = Rows(
    applied: seq<AppliedBlock>, outputs: seq<Output>, movements: seq<Movement>,
    facts: seq<Fact>, balances: seq<BalanceRow>)

  datatype Error = MissingOutput(key: OutputKey) | NegativeBalance(address: Address)

  /** An operation that throws leaves behind whatever it had already written. */
  datatype Outcome = Outcome(rows: Rows, error: Option<Error>)

  datatype ApplyResult = ApplyResult(applied: bool, processTail: int)

  const EMPTY := Rows([], [], [], [], [])

  // ---------------------------------------------------------------- finding rows

  /** Index of the first output with this key, or the length when there is none. */
  function OutputAt(outputs: seq<Output>, k: OutputKey): (i: nat)
    ensures i <= |outputs|
    ensures i < |outputs| ==> outputs[i].key == k
    ensures forall j :: 0 <= j < i ==> outputs[j].key != k
  {
    if outputs == [] || outputs[0].key == k then 0 else 1 + OutputAt(outputs[1..], k)
  }

  function FactAt(facts: seq<Fact>, txid: string): (i: nat)
    ensures i <= |facts|
    ensures i < |facts| ==> facts[i].txid == txid
    ensures forall j :: 0 <= j < i ==> facts[j].txid != txid
  {
    if facts == [] || facts[0].txid == txid then 0 else 1 + FactAt(facts[1..], txid)
  }

  function BalanceAt(balances: seq<BalanceRow>, a: Address): (i: nat)
    ensures i <= |balances|
    ensures i < |balances| ==> balances[i].address == a
    ensures forall j :: 0 <= j < i ==> balances[j].address != a
  {
    if balances == [] || balances[0].address == a then 0 else 1 + BalanceAt(balances[1..], a)
  }

  function Amount(balances: seq<BalanceRow>, a: Address): int {
    var i := BalanceAt(balances, a);
    if i < |balances| then balances[i].amount else 0
  }

  // ---------------------------------------------------------------- writing rows

  function UpsertOutput(outputs: seq<Output>, o: Output): seq<Output> {
    var i := OutputAt(outputs, o.key);
    if i < |outputs| then outputs[i := o] else outputs + [o]
  }

  function UpsertOutputs(outputs: seq<Output>, creates: seq<Output>): seq<Output>
    decreases creates
  {
    if creates == [] then outputs else UpsertOutputs(UpsertOutput(outputs, creates[0]), creates[1..])
  }

  function SpendOutput(outputs: seq<Output>, s: Spend): seq<Output> {
    var i := OutputAt(outputs, s.key);
    if i < |outputs| then outputs[i := outputs[i].(spent := Some(s.spender))] else outputs
  }

  function SpendOutputs(rows: Rows, spends: seq<Spend>): Outcome
    decreases spends
  {
    if spends == [] then Outcome(rows, None)
    else if OutputAt(rows.outputs, spends[0].key) == |rows.outputs| then
      Outcome(rows, Some(MissingOutput(spends[0].key)))
    else
      SpendOutputs(rows.(outputs := SpendOutput(rows.outputs, spends[0])), spends[1..])
  }

  function SetBalance(balances: seq<BalanceRow>, a: Address, amount: int, asOf: int): seq<BalanceRow> {
    var i := BalanceAt(balances, a);
    if i < |balances| then balances[i := BalanceRow(a, amount, asOf)] else balances + [BalanceRow(a, amount, asOf)]
  }

  predicate HasMovement(movements: seq<Movement>, id: MovementId) {
    exists v <- movements :: v.id == id
  }

  function SignedAmount(v: Movement): int {
    if v.direction.Credit? then v.amount else -v.amount
  }

  /** A movement already present is skipped; a new one is recorded before its balance is checked. */
  function AddMovements(rows: Rows, movements: seq<Movement>, height: nat): Outcome
    decreases movements
  {
    if movements == [] then Outcome(rows, None) else
      var v := movements[0];
      if HasMovement(rows.movements, v.id) then AddMovements(rows, movements[1..], height) else
        var recorded := rows.(movements := rows.movements + [v]);
        var next := Amount(rows.balances, v.address) + SignedAmount(v);
        if next < 0 then Outcome(recorded, Some(NegativeBalance(v.address))) else
          AddMovements(recorded.(balances := SetBalance(rows.balances, v.address, next, height)), movements[1..],
            height)
  }

  function UpsertFact(facts: seq<Fact>, f: Fact): seq<Fact> {
    var i := FactAt(facts, f.txid);
    if i < |facts| then facts[i := f] else facts + [f]
  }

  function UpsertFacts(facts: seq<Fact>, more: seq<Fact>): seq<Fact>
    decreases more
  {
    if more == [] then facts else UpsertFacts(UpsertFact(facts, more[0]), more[1..])
  }

  function Header(b: Block): AppliedBlock {
    AppliedBlock(b.height, b.hash)
  }

  function AppendApplied(applied: seq<AppliedBlock>, h: AppliedBlock): seq<AppliedBlock> {
    if h in applied then applied else applied + [h]
  }

  // ---------------------------------------------------------------- applying a window

  /** One block: creates, spends, movements with balances, facts, and last the applied-block record. */
  function ApplyBlock(rows: Rows, b: Block, look: Ledger): Outcome {
    var created := rows.(outputs := UpsertOutputs(rows.outputs, b.creates));
    var spent := SpendOutputs(created, b.spends);
    if spent.error.Some? then spent else
      var moved := AddMovements(spent.rows, BlockMovements(b, look), b.height);
      if moved.error.Some? then moved else
        Outcome(moved.rows.(facts := UpsertFacts(moved.rows.facts, BlockFacts(b, look)),
                            applied := AppendApplied(moved.rows.applied, Header(b))), None)
  }

  function ApplyBlocks(rows: Rows, blocks: seq<Block>, look: Ledger): Outcome
    decreases blocks
  {
    if blocks == [] then Outcome(rows, None) else
      var one := ApplyBlock(rows, blocks[0], look);
      if one.error.Some? then one else ApplyBlocks(one.rows, blocks[1..], look)
  }

  /** Outputs created by the window, the last one winning for a repeated key. */
  function CreatedIn(es: seq<Event>): Ledger {
    if es == [] then map[] else
      (if es[0].Created? then map[es[0].output.key := es[0].output] else map[]) + CreatedIn(es[1..])
  }

  function CreatedInWindow(blocks: seq<Block>): Ledger {
    CreatedIn(Events(blocks))
  }

  /** Keys the window spends but does not create. */
  function ExternalKeys(blocks: seq<Block>): set<OutputKey> {
    (set b, s | b in blocks && s in b.spends :: s.key) - CreatedInWindow(blocks).Keys
  }

  function LookUp(outputs: seq<Output>, keys: set<OutputKey>): Ledger {
    map k | k in keys && OutputAt(outputs, k) < |outputs| :: outputs[OutputAt(outputs, k)]
  }

  /** Window creates shadow the rows read before the window. */
  function WindowLookup(outputs: seq<Output>, blocks: seq<Block>): Ledger {
    LookUp(outputs, ExternalKeys(blocks)) + CreatedInWindow(blocks)
  }

  // ---------------------------------------------------------------- rewinding

  function Keep<T>(rows: seq<T>, p: T -> bool): seq<T> {
    if rows == [] then [] else
      Keep(rows[..|rows| - 1], p) + (if p(rows[|rows| - 1]) then [rows[|rows| - 1]] else [])
  }

  function AppliedBelow(from: nat): AppliedBlock -> bool {
    (b: AppliedBlock) => b.height < from
  }

  function MovementBelow(from: nat): Movement -> bool {
    (v: Movement) => v.height < from
  }

  function FactBelow(from: nat): Fact -> bool {
    (f: Fact) => f.height < from
  }

  function RewindOutputs(outputs: seq<Output>, from: nat): seq<Output> {
    if outputs == [] then [] else
      var last := RewindOutput(outputs[|outputs| - 1], from);
      RewindOutputs(outputs[..|outputs| - 1], from) + (if last.Some? then [last.value] else [])
  }

  function MaxHeight(applied: seq<AppliedBlock>): (h: int)
    ensures forall b <- applied :: b.height <= h
    ensures if applied == [] then h == -1 else exists b <- applied :: b.height == h
  {
    if applied == [] then -1 else
      var rest := MaxHeight(applied[..|applied| - 1]);
      if applied[|applied| - 1].height > rest then applied[|applied| - 1].height else rest
  }

  function AddUnspent(balances: seq<BalanceRow>, o: Output, asOf: int): seq<BalanceRow> {
    if AffectsBalance(o) && o.spent.None? then
      SetBalance(balances, o.address, Amount(balances, o.address) + o.value, asOf)
    else balances
  }

  /** Balances summed again from the unspent outputs; addresses that own nothing get no row. */
  function RebuiltBalances(outputs: seq<Output>, asOf: int): seq<BalanceRow> {
    if outputs == [] then [] else
      AddUnspent(RebuiltBalances(outputs[..|outputs| - 1], asOf), outputs[|outputs| - 1], asOf)
  }

  function Rewind(rows: Rows, from: nat): Rows {
    var applied := Keep(rows.applied, AppliedBelow(from));
    var outputs := RewindOutputs(rows.outputs, from);
    Rows(applied, outputs, Keep(rows.movements, MovementBelow(from)), Keep(rows.facts, FactBelow(from)),
         RebuiltBalances(outputs, MaxHeight(applied)))
  }

  // ---------------------------------------------------------------- which blocks are pending

  /** Index of the first block whose height is recorded under another hash, or the length. */
  function FirstReorg(applied: seq<AppliedBlock>, input: seq<Block>): (i: nat)
    ensures i <= |input|
  {
    if input == [] then 0
    else
      var at := AppliedAt(applied, input[0].height);
      if at < |applied| && applied[at].hash != input[0].hash then 0 else 1 + FirstReorg(applied, input[1..])
  }

  function AppliedAt(applied: seq<AppliedBlock>, height: nat): (i: nat)
    ensures i <= |applied|
    ensures i < |applied| ==> applied[i].height == height
    ensures forall j :: 0 <= j < i ==> applied[j].height != height
  {
    if applied == [] || applied[0].height == height then 0 else 1 + AppliedAt(applied[1..], height)
  }

  function FromHeight(input: seq<Block>, from: nat): seq<Block> {
    if input == [] then [] else
      (if input[0].height >= from then [input[0]] else []) + FromHeight(input[1..], from)
  }

  function NotApplied(applied: seq<AppliedBlock>, input: seq<Block>): seq<Block> {
    if input == [] then [] else
      (if Header(input[0]) in applied then [] else [input[0]]) + NotApplied(applied, input[1..])
  }

  /** Rewinds at the first reorged height if there is one, and says what is left to apply. */
  function Pending(rows: Rows, input: seq<Block>): (Rows, seq<Block>) {
    var r := FirstReorg(rows.applied, input);
    if r < |input| then (Rewind(rows, input[r].height), FromHeight(input, input[r].height))
    else (rows, NotApplied(rows.applied, input))
  }

  function WindowEnd(blocks: seq<Block>): int {
    if blocks == [] then -1 else blocks[|blocks| - 1].height
  }

  function ApplyWindow(rows: Rows, input: seq<Block>): (Outcome, ApplyResult) {
    if input == [] then (Outcome(rows, None), ApplyResult(false, -1)) else
      var (start, pending) := Pending(rows, input);
      if pending == [] then (Outcome(start, None), ApplyResult(false, WindowEnd(input)))
      else (ApplyBlocks(start, pending, WindowLookup(start.outputs, pending)), ApplyResult(true, WindowEnd(pending)))
  }
}
