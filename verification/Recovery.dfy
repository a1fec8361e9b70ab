/**
 * The indexer over two stores that do not share a durability boundary: the metadata database, a log of
 * writes of which a crash may lose the newest unsynchronised ones, and the warehouse, whose inserts may
 * land long after the process that sent them has died, land in part, or be lost for good.
 */
module Recovery {
  import opened Chain
  import opened Integers
  import opened Store
  import opened Convergence
  import opened Tables
  import opened Projection
  import opened AppliedLogs
  import opened Materialization
  import opened CoreWindow
  import opened CoreState
  import opened CoreTails
  import opened InFlight
  import opened WindowReads

  /** Written before a window is applied, removed after it; live says whether the window maintains the current state. */
  datatype Marker = Marker(start: nat, end: nat, hashes: seq<Hash>, live: bool)

  /** The pending marker, the recorded tails, whether the stage is online, and whether the current state is ready. */
  datatype Metadata = Metadata(marker: Option<Marker>, tail: int, sync: int, online: bool, ready: bool)

  datatype Control =
    | Down
    | Ready
    | Planned(marker: Marker, node: seq<Block>, hi: nat)
    | Cutting(marker: Marker, node: seq<Block>, hi: nat, fork: nat)
    | Restoring(marker: Marker, node: seq<Block>, hi: nat)
    | Inserting(marker: Marker, node: seq<Block>, hi: nat, rows: CoreTables)
    | Maintaining(marker: Marker, node: seq<Block>, hi: nat)
    | Finishing(marker: Marker, node: seq<Block>, hi: nat)
    | Applied(marker: Marker, tail: int)
    | Publishing(tail: int)
    | Recovering(marker: Marker)
    | Rebuilding(marker: Marker)
    | Forgetting(marker: Marker)
    | Rewinding(tail: int)
    | RebuildingTail(tail: int)
    | Lowering(tail: int)

  /**
   * log[synced] is the last write a crash cannot lose. Three fields only record the past: the chain the warehouse
   * has processed, what its blocks were applied with, and whether an error has ended a reconciling rewind and left
   * the current state half built.
   */
  datatype State = State(
    tables: CoreTables, flight: CoreTables, log: seq<Metadata>, synced: nat, control: Control, reconciled: bool,
    chain: seq<Block>, looks: Lookups, spoiled: bool)

  predicate HasLog(s: State) {
    s.synced < |s.log|
  }

  function Now(s: State): Metadata
    requires HasLog(s)
  {
    s.log[|s.log| - 1]
  }

  /** First height of the online window: the blocks above the finalized tail are processed again. */
  function OnlineWindowStart(processTail: int, processTarget: int, depth: nat): nat {
    Max(0, Min(processTail + 1, Max(0, Min(processTail, processTarget) - depth + 1)))
  }

  /** Where the next window starts. */
  function NextStart(m: Metadata, target: int, depth: nat): nat
    requires m.tail >= -1
  {
    if m.online then OnlineWindowStart(m.tail, target, depth) else m.tail + 1
  }

  function Relaxed(s: State, m: Metadata): State {
    s.(log := s.log + [m])
  }

  function Synchronous(s: State, m: Metadata): State {
    s.(log := s.log + [m], synced := |s.log|)
  }

  // ---------------------------------------------------------------- what may happen at any time

  /** Rows in flight land whenever they like, whatever the indexer is doing. */
  ghost predicate Land(s: State, t: State, part: CoreTables) {
    PartOf(part, s.flight) && t == s.(tables := Together(s.tables, part), flight := Without(s.flight, part))
  }

  predicate Awaiting(c: Control) {
    c.Inserting? || c.Maintaining? || c.Finishing?
  }

  /** Rows in flight are lost: an insert was rejected, or never left the process. Whoever awaits it fails. */
  ghost predicate Lose(s: State, t: State, part: CoreTables) {
    && PartOf(part, s.flight)
    && t == s.(flight := Without(s.flight, part), control := if Awaiting(s.control) then Ready else s.control)
  }

  /** The process or the database stops; any unsynchronised writes may be gone, rows in flight may still land. */
  ghost predicate Crash(s: State, t: State, kept: nat) {
    && s.synced < kept <= |s.log|
    && t == s.(log := s.log[..kept], synced := kept - 1, control := Down, reconciled := false)
  }

  predicate Boot(s: State, t: State) {
    s.control == Down && t == s.(control := Ready)
  }

  /** An error here leaves the current state half built and is not tried again before the next start. */
  predicate EndsReconciling(s: State) {
    (s.control.Rewinding? || s.control.RebuildingTail?) && HasLog(s) && Now(s).ready
  }

  /** Any step of a cycle may throw; the next cycle starts from the top. */
  predicate Fail(s: State, t: State) {
    s.control != Down && t == s.(control := Ready, spoiled := s.spoiled || EndsReconciling(s))
  }

  // ---------------------------------------------------------------- deleting and rebuilding

  /** Deletes start only once no insert is left on the server, and may be interrupted. */
  ghost predicate DeleteSome(s: State, t: State, from: nat, tables: CoreTables) {
    Drained(s.flight) && Shrunk(s.tables, tables, from) && t == s.(tables := tables)
  }

  ghost predicate DeleteRest(s: State, t: State, from: nat, tables: CoreTables, control: Control) {
    Drained(s.flight) && TailDeleted(s.tables, tables, from) && t == s.(tables := tables, control := control)
  }

  predicate IsRebuilding(c: Control) {
    c.Restoring? || c.Rebuilding? || c.RebuildingTail?
  }

  /** The current state is rebuilt after a tail delete only when it is maintained at all. */
  predicate Live(s: State)
    requires HasLog(s) && IsRebuilding(s.control)
  {
    if s.control.RebuildingTail? then Now(s).ready else s.control.marker.live
  }

  function AfterRebuild(c: Control): Control
    requires IsRebuilding(c)
  {
    match c
    case Restoring(marker, node, hi) => Planned(marker, node, hi)
    case Rebuilding(marker) => Forgetting(marker)
    case RebuildingTail(tail) => Lowering(tail)
  }

  /** A rebuild that is not finished: the current rows may be anything. */
  predicate RebuildSome(s: State, t: State, current: CoreTables) {
    HasLog(s) && IsRebuilding(s.control) && Live(s) && t == s.(tables := WithCurrent(s.tables, current))
  }

  /** A finished rebuild leaves the current state of the stored chain, as the warehouse's rewind promises. */
  ghost predicate RebuildRest(s: State, t: State, current: CoreTables) {
    && HasLog(s) && IsRebuilding(s.control)
    && if Live(s)
       then Current(WithCurrent(s.tables, current), s.chain, true)
            && t == s.(tables := WithCurrent(s.tables, current), spoiled := false, control := AfterRebuild(s.control))
       else t == s.(control := AfterRebuild(s.control))
  }

  // ---------------------------------------------------------------- recovery and reconciliation

  predicate FindMarker(s: State, t: State) {
    HasLog(s) && s.control == Ready && Now(s).marker.Some? && t == s.(control := Recovering(Now(s).marker.value))
  }

  ghost predicate RecoverSome(s: State, t: State, tables: CoreTables) {
    s.control.Recovering? && DeleteSome(s, t, s.control.marker.start, tables)
  }

  ghost predicate RecoverRest(s: State, t: State, tables: CoreTables) {
    && s.control.Recovering? && s.control.marker.start <= |s.chain|
    && DeleteRest(s.(chain := s.chain[..s.control.marker.start]), t, s.control.marker.start, tables,
       Rebuilding(s.control.marker))
  }

  predicate ForgetMarker(s: State, t: State) {
    && HasLog(s) && s.control.Forgetting? && Now(s).marker == Some(s.control.marker)
    && t == Relaxed(s, Now(s).(marker := None)).(control := Ready)
  }

  /** Once per process start the recorded tail is checked against the processed blocks. */
  ghost predicate Reconcile(s: State, t: State, tail: int) {
    && HasLog(s) && s.control == Ready && Now(s).marker.None? && !s.reconciled && IsTail(s.tables.processed, tail)
    && t == s.(reconciled := true, control := if tail >= Now(s).tail then Ready else Rewinding(tail))
  }

  ghost predicate RewindSome(s: State, t: State, tables: CoreTables) {
    s.control.Rewinding? && s.control.tail >= -1 && DeleteSome(s, t, s.control.tail + 1, tables)
  }

  ghost predicate RewindRest(s: State, t: State, tables: CoreTables) {
    s.control.Rewinding? && s.control.tail >= -1
      && DeleteRest(s, t, s.control.tail + 1, tables, RebuildingTail(s.control.tail))
  }

  predicate LowerTail(s: State, t: State) {
    HasLog(s) && s.control.Lowering? && t == Relaxed(s, Now(s).(tail := s.control.tail)).(control := Ready)
  }

  // ---------------------------------------------------------------- between windows

  predicate Idle(s: State) {
    HasLog(s) && s.control == Ready && Now(s).marker.None? && s.reconciled
  }

  predicate AdvanceSync(s: State, t: State, sync: int) {
    Idle(s) && sync >= Now(s).sync && t == Relaxed(s, Now(s).(sync := sync))
  }

  /**
   * Once every synced block is processed the current state is built for the recorded tail; attempts may be interrupted.
   */
  predicate MaterializeSome(s: State, t: State, current: CoreTables) {
    Idle(s) && !Now(s).ready && t == s.(tables := WithCurrent(s.tables, current))
  }

  ghost predicate MaterializeRest(s: State, t: State, current: CoreTables) {
    && Idle(s) && !Now(s).ready && Now(s).tail >= Now(s).sync && 0 <= Now(s).tail < |s.chain|
    && Current(WithCurrent(s.tables, current), s.chain[..Now(s).tail + 1], true)
    && t == Synchronous(s, Now(s).(ready := true)).(tables := WithCurrent(s.tables, current), spoiled := false)
  }

  predicate Promote(s: State, t: State) {
    Idle(s) && Now(s).ready && t == Relaxed(s, Now(s).(online := true))
  }

  // ---------------------------------------------------------------- applying a window

  function BlockHashes(blocks: seq<Block>): seq<Hash> {
    seq(|blocks|, i requires 0 <= i < |blocks| => blocks[i].hash)
  }

  /**
   * The marker goes to disk before the first insert. Windows end at or below the synced tail, and the node agrees
   * with the processed chain below the window. While the tip holds, no window starts above the processed chain
   * (RecoveryProofs.RecoveredIsExact); RecoveryLimits.DroppedTipLeavesHole shows what follows when it does not.
   */
  ghost predicate Plan(s: State, t: State, node: seq<Block>, target: int, hi: nat, depth: nat) {
    && Idle(s) && Now(s).tail >= -1
    && ValidChain(node) && HashesIdentify(s.chain, node)
    && var lo := NextStart(Now(s), target, depth);
       && lo < hi <= |node| && hi - 1 <= Now(s).sync && lo <= |s.chain| && s.chain[..lo] == node[..lo]
       && var marker := Marker(lo, hi - 1, BlockHashes(node[lo..hi]), Now(s).ready);
          t == Synchronous(s, Now(s).(marker := Some(marker))).(control := Planned(marker, node, hi))
  }

  /** Pending blocks: after a fork everything from it, else everything above the processed tail, else nothing. */
  ghost predicate FindFork(s: State, t: State) {
    && s.control.Planned? && s.control.marker.start <= s.control.hi <= |s.control.node|
    && var lo, node, hi := s.control.marker.start, s.control.node, s.control.hi;
       var d := ForkHeight(s.chain, node, lo, hi);
       d < hi && t == s.(control := Cutting(s.control.marker, node, hi, d))
  }

  ghost predicate CutSome(s: State, t: State, tables: CoreTables) {
    s.control.Cutting? && DeleteSome(s, t, s.control.fork, tables)
  }

  ghost predicate CutRest(s: State, t: State, tables: CoreTables) {
    && s.control.Cutting? && s.control.fork <= |s.chain|
    && DeleteRest(s.(chain := s.chain[..s.control.fork]), t, s.control.fork, tables,
                  Restoring(s.control.marker, s.control.node, s.control.hi))
  }

  /** What a window reads, if it reads at all, and the current rows it makes of it. */
  ghost predicate Prepares(tables: CoreTables, w: seq<Block>, live: bool, prevouts: Ledger, found: map<Address, int>,
      rows: CoreTables)
    requires w != []
  {
    if !live then prevouts == map[] && rows == NO_TABLES else
      var r := Mutate(NO_MUTATION, Events(w), prevouts);
      && Latest(tables.outputs, ExternalKeys(w), prevouts)
      && r.Mutated? && Latest(tables.balances, r.mutation.deltas.Keys, found)
      && NoneNegative(NextAmounts(found, r.mutation.deltas))
      && rows == WindowCurrentRows(w, r.mutation, NextAmounts(found, r.mutation.deltas))
  }

  /**
   * Rows read while the current state is half built may be wrong; without one only the window's own creates are known.
   */
  function Saw(live: bool, spoiled: bool, look: Ledger): Lookup {
    if !live then Only(look) else if spoiled then Unsure(look) else Whole
  }

  /**
   * Everything that can fail on missing rows is read and computed first; then the four fact inserts leave
   * together. Without a current state the window knows no prevouts but its own.
   */
  ghost predicate InsertNew(s: State, t: State, prevouts: Ledger, found: map<Address, int>, rows: CoreTables) {
    && s.control.Planned? && s.control.marker.start <= s.control.hi <= |s.control.node| && |s.chain| < s.control.hi
    && ForkHeight(s.chain, s.control.node, s.control.marker.start, s.control.hi) == s.control.hi
    && var w, live := s.control.node[|s.chain|..s.control.hi], s.control.marker.live;
       var look := prevouts + CreatedInWindow(w);
       && Prepares(s.tables, w, live, prevouts, found, rows)
       && t == s.(flight := WindowFactRows(w, look),
                  control := Inserting(s.control.marker, s.control.node, s.control.hi, rows),
                  looks := LookAfter(s.looks, |s.chain|, s.control.hi, Saw(live, s.spoiled, look)))
  }

  ghost predicate NothingNew(s: State, t: State) {
    && s.control.Planned? && s.control.marker.start <= s.control.hi <= |s.control.node| && s.control.hi <= |s.chain|
    && ForkHeight(s.chain, s.control.node, s.control.marker.start, s.control.hi) == s.control.hi
    && t == s.(control := Applied(s.control.marker, s.control.hi - 1))
  }

  /** Once the facts are in, current outputs, balances and applied blocks are written. */
  predicate FactsIn(s: State, t: State) {
    && s.control.Inserting? && Drained(s.flight)
    && t == s.(flight := s.control.rows, control := Maintaining(s.control.marker, s.control.node, s.control.hi))
  }

  ghost predicate SendProcessed(s: State, t: State) {
    && s.control.Maintaining? && |s.chain| < s.control.hi <= |s.control.node| && Drained(s.flight)
    && t == s.(flight := NO_TABLES.(processed := ProcessedRows(s.control.node[|s.chain|..s.control.hi])),
               control := Finishing(s.control.marker, s.control.node, s.control.hi))
  }

  ghost predicate ProcessedArrived(s: State, t: State) {
    && s.control.Finishing? && Drained(s.flight) && s.control.hi <= |s.control.node|
    && t == s.(control := Applied(s.control.marker, s.control.hi - 1), chain := s.control.node[..s.control.hi])
  }

  predicate ClearMarker(s: State, t: State) {
    && HasLog(s) && s.control.Applied? && Now(s).marker == Some(s.control.marker)
    && t == Relaxed(s, Now(s).(marker := None)).(control := Publishing(s.control.tail))
  }

  predicate Publish(s: State, t: State) {
    HasLog(s) && s.control.Publishing? && t == Relaxed(s, Now(s).(tail := s.control.tail)).(control := Ready)
  }

  datatype Step =
    | LandStep(part: CoreTables) | LoseStep(part: CoreTables) | CrashStep(kept: nat) | BootStep | FailStep
    | RebuildSomeStep(tables: CoreTables) | RebuildRestStep(tables: CoreTables)
    | FindMarkerStep | RecoverSomeStep(tables: CoreTables) | RecoverRestStep(tables: CoreTables) | ForgetMarkerStep
    | ReconcileStep(tail: int) | RewindSomeStep(tables: CoreTables) | RewindRestStep(tables: CoreTables) | LowerTailStep
    | AdvanceSyncStep(sync: int) | MaterializeSomeStep(tables: CoreTables) | MaterializeRestStep(tables: CoreTables)
      | PromoteStep
    | PlanStep(node: seq<Block>, target: int, hi: nat)
    | FindForkStep | CutSomeStep(tables: CoreTables) | CutRestStep(tables: CoreTables)
    | InsertNewStep(prevouts: Ledger, found: map<Address, int>, rows: CoreTables) | NothingNewStep | FactsInStep
    | SendProcessedStep | ProcessedArrivedStep | ClearMarkerStep | PublishStep

  ghost predicate Takes(s: State, t: State, step: Step, depth: nat) {
    match step
    case LandStep(part) => Land(s, t, part)
    case LoseStep(part) => Lose(s, t, part)
    case CrashStep(kept) => Crash(s, t, kept)
    case BootStep => Boot(s, t)
    case FailStep => Fail(s, t)
    case RebuildSomeStep(tables) => RebuildSome(s, t, tables)
    case RebuildRestStep(tables) => RebuildRest(s, t, tables)
    case FindMarkerStep => FindMarker(s, t)
    case RecoverSomeStep(tables) => RecoverSome(s, t, tables)
    case RecoverRestStep(tables) => RecoverRest(s, t, tables)
    case ForgetMarkerStep => ForgetMarker(s, t)
    case ReconcileStep(tail) => Reconcile(s, t, tail)
    case RewindSomeStep(tables) => RewindSome(s, t, tables)
    case RewindRestStep(tables) => RewindRest(s, t, tables)
    case LowerTailStep => LowerTail(s, t)
    case AdvanceSyncStep(sync) => AdvanceSync(s, t, sync)
    case MaterializeSomeStep(tables) => MaterializeSome(s, t, tables)
    case MaterializeRestStep(tables) => MaterializeRest(s, t, tables)
    case PromoteStep => Promote(s, t)
    case PlanStep(node, target, hi) => Plan(s, t, node, target, hi, depth)
    case FindForkStep => FindFork(s, t)
    case CutSomeStep(tables) => CutSome(s, t, tables)
    case CutRestStep(tables) => CutRest(s, t, tables)
    case InsertNewStep(prevouts, found, rows) => InsertNew(s, t, prevouts, found, rows)
    case NothingNewStep => NothingNew(s, t)
    case FactsInStep => FactsIn(s, t)
    case SendProcessedStep => SendProcessed(s, t)
    case ProcessedArrivedStep => ProcessedArrived(s, t)
    case ClearMarkerStep => ClearMarker(s, t)
    case PublishStep => Publish(s, t)
  }

  /** Planning for a target leaves the start of the window where any later window may start. */
  predicate KeepsStart(m: Metadata, target: int, depth: nat) {
    !m.online || target >= m.tail || depth > m.tail
  }

  /**
   * The node's tip, and with it the target of an online window, does not drop below the recorded tail, or the
   * window starts at the first block anyway.
   */
  predicate TipHolds(s: State, step: Step, depth: nat) {
    step.PlanStep? && HasLog(s) ==> KeepsStart(Now(s), step.target, depth)
  }

  const INITIAL := State(NO_TABLES, NO_TABLES, [Metadata(None, -1, -1, false, false)], 0, Down, false, [], map[], false)
}
