/**
 * Whole runs of the versioned warehouse: windows, reorgs, recoveries and materializations, any of which may stop
 * part-way.
 */
module WarehouseRuns {
  import opened Chain
  import opened StoreProofs
  import opened Convergence
  import opened AppliedLogs
  import opened Resumption
  import opened Checkpoints
  import opened CoreState
  import opened CoreTails
  import CoreWarehouse

  /** A window of some node's chain, a rewind to a height, or attempts to build the current state. */
  datatype Command =
    | Window(node: seq<Block>, lo: nat, hi: nat, live: bool)
    | Recovery(from: nat)
    | Materialize(prefixLengths: seq<nat>)

  /**
   * The chain the tables store, what they promise beside it, whether anything above it may be left over, and the
   * heights for which a materialization has been tried.
   */
  datatype Place = Place(chain: seq<Block>, mode: Mode, clean: bool, tried: set<nat>)

  predicate Splits(prefixLengths: seq<nat>) {
    && prefixLengths != [] && !Recurs(prefixLengths)
    && forall i :: 0 <= i < |prefixLengths| ==> prefixLengths[i] > 0
  }

  /** A window needs clean tables and a node that agrees below it; a rewind works from any tables. */
  predicate Fits(p: Place, c: Command) {
    match c
    case Window(node, lo, hi, live) =>
      && p.clean && ValidChain(node) && HashesIdentify(p.chain, node) && lo < hi <= |node|
      && lo <= |p.chain| && p.chain[..lo] == node[..lo] && (live ==> p.mode.current)
    case Recovery(from) => from <= |p.chain|
    case Materialize(prefixLengths) =>
      p.clean && !p.mode.current && p.chain != [] && |p.chain| - 1 !in p.tried && Splits(prefixLengths)
  }

  /** What a command leads to, finished or stopped. */
  function Next(p: Place, c: Command, finished: bool): Place
    requires Fits(p, c)
  {
    match c
    case Window(node, lo, hi, live) =>
      if finished then
        p.(chain := ChainAfter(p.chain, node, lo, hi),
          mode := CoreWarehouse.ModeOf(live, p.mode, p.chain, node, lo, hi))
      else
        p.(chain := p.chain[..lo], mode := Mode(live, live, p.mode.looks), clean := false)
    case Recovery(from) =>
      p.(chain := p.chain[..from], mode := Mode(p.mode.current, p.mode.current, p.mode.looks), clean := finished)
    case Materialize(_) =>
      p.(mode := if finished then Mode(true, true, p.mode.looks) else p.mode, tried := p.tried + {|p.chain| - 1})
  }

  /** Where a run leads; a command that does not fit is not given. */
  function Reached(start: Place, commands: seq<Command>, finished: seq<bool>): Place
    requires |finished| == |commands|
  {
    if commands == [] then start else
      var n := |commands| - 1;
      var p := Reached(start, commands[..n], finished[..n]);
      if Fits(p, commands[n]) then Next(p, commands[n], finished[n]) else p
  }

  /** Whether a command of a run fits where the run is by then. */
  predicate Given(start: Place, commands: seq<Command>, finished: seq<bool>, n: nat)
    requires n < |commands| && n <= |finished|
  {
    Fits(Reached(start, commands[..n], finished[..n]), commands[n])
  }

  /** Clean tables store exactly the chain; else nothing below its end is missing or wrong. */
  ghost predicate Holds(t: CoreTables, p: Place) {
    ValidChain(p.chain) && if p.clean then Stored(t, p.chain, p.mode) else HasPrefix(t, p.chain, p.mode.looks)
  }

  predicate RecordedFor(checkpoints: seq<Checkpoint>, tried: set<nat>) {
    forall c <- checkpoints :: c.asOf in tried
  }

  lemma {:induction false} HeldPrefix(t: CoreTables, p: Place, from: nat)
    requires Holds(t, p) && from <= |p.chain|
    ensures ValidChain(p.chain[..from]) && HasPrefix(t, p.chain[..from], p.mode.looks)
  {
    hide ValidChain, Stored, HasPrefix;
    ValidPrefix(p.chain, from);
    if p.clean {
      StoredPrefix(t, p.chain, from, p.mode);
    } else {
      PrefixOfPrefix(t, p.chain, from, p.mode.looks);
    }
  }

  lemma {:induction false} WindowIsValid(chain: seq<Block>, node: seq<Block>, lo: nat, hi: nat)
    requires ValidChain(chain) && ValidChain(node) && lo <= hi <= |node| && lo <= |chain|
    ensures ValidChain(ChainAfter(chain, node, lo, hi)) && ValidChain(node[..hi]) && ValidChain(chain[..lo])
  {
    hide ValidChain;
    ValidPrefix(node, hi);
    ValidPrefix(chain, lo);
  }

  lemma {:induction false} NotTried(w: Progress, p: Place)
    requires RecordedFor(w.checkpoints, p.tried) && p.chain != [] && |p.chain| - 1 !in p.tried
    ensures NothingRecorded(w, |p.chain| - 1)
  {}

  lemma {:induction false} Materialized(t: CoreTables, u: CoreTables, p: Place, finished: bool)
    requires Holds(t, p) && p.clean && !p.mode.current && p.chain != []
    requires u.creates == t.creates && u.spends == t.spends && u.processed == t.processed
    requires u.movements == t.movements && u.facts == t.facts
    requires finished ==> Current(u, p.chain, true)
    ensures Stored(u, p.chain, if finished then Mode(true, true, p.mode.looks) else p.mode)
  {
    hide ValidChain, Current, Logs, HasPrefix;
    LogsOnly(t, u, p.chain, p.mode.looks);
  }

  lemma {:induction false} CleanParts(t: CoreTables, p: Place)
    requires Holds(t, p) && p.clean
    ensures ValidChain(p.chain) && UtxoFacts(t, p.chain) && Logs(t, p.chain, p.mode.looks)
  {}

  method PerformMaterialize(w: CoreWarehouse.Warehouse, prefixLengths: seq<nat>, boundaries: seq<string>, step: nat,
      p: Place) returns (finished: bool)
    requires step > 0 && Holds(w.Tables(), p) && RecordedFor(w.checkpoints, p.tried)
    requires Fits(p, Materialize(prefixLengths))
    modifies w
    ensures Holds(w.Tables(), Next(p, Materialize(prefixLengths), finished))
    ensures RecordedFor(w.checkpoints, p.tried + {|p.chain| - 1})
    ensures w.reliable == old(w.reliable) && (w.reliable ==> finished)
  {
    hide ValidChain, Stored, HasPrefix, Trusted, UnspentAt, UtxoFacts, Logs, Current, Recurs;
    var asOf := |p.chain| - 1;
    ghost var before := w.Tables();
    CleanParts(before, p);
    NotTried(w.CurrentProgress(), p);
    NothingRecordedIsTrusted(w.CurrentProgress(), prefixLengths, UnspentAt(p.chain, asOf), asOf);
    finished := w.MaterializeUntilDone(asOf, prefixLengths, boundaries, step, p.chain);
    assert p.chain[..asOf + 1] == p.chain;
    Materialized(before, w.Tables(), p, finished);
  }

  /** One command, whatever it finds and wherever it stops. */
  method Perform(w: CoreWarehouse.Warehouse, c: Command, prefixLength: nat, boundaries: seq<string>, step: nat,
      p: Place)
    returns (finished: bool)
    requires step > 0 && prefixLength > 0 && Holds(w.Tables(), p) && RecordedFor(w.checkpoints, p.tried) && Fits(p, c)
    modifies w
    ensures Holds(w.Tables(), Next(p, c, finished)) && RecordedFor(w.checkpoints, Next(p, c, finished).tried)
    ensures w.reliable == old(w.reliable) && (w.reliable ==> finished)
  {
    hide ValidChain, HashesIdentify, Stored, HasPrefix, ChainAfter, CoreWarehouse.ModeOf, Splits;
    match c
    case Window(node, lo, hi, live) =>
      WindowIsValid(p.chain, node, lo, hi);
      var error, _ := w.ApplyCoreWindow(node[lo..hi], live, prefixLength, boundaries, step, p.chain, node, lo, hi,
        p.mode);
      finished := error.None?;
    case Recovery(from) =>
      HeldPrefix(w.Tables(), p, from);
      finished := w.Rewind(from, p.mode.current, prefixLength, boundaries, step, p.chain[..from], p.mode.looks);
    case Materialize(prefixLengths) =>
      finished := PerformMaterialize(w, prefixLengths, boundaries, step, p);
  }

  /**
   * After any run the tables store exactly the chain reached, or, when the last command stopped part-way,
   * everything of it below the height that command worked from, so that a rewind makes them clean again. In clean
   * tables each credit is there once, no debit twice, and one fact for each transaction, all of them right where a
   * block was applied with its prevouts. A command during which no statement is interrupted finishes.
   */
  method Run(w: CoreWarehouse.Warehouse, start: Place, commands: seq<Command>, calm: seq<bool>, prefixLength: nat,
      boundaries: seq<string>, step: nat)
    returns (finished: seq<bool>)
    requires step > 0 && prefixLength > 0 && Holds(w.Tables(), start) && RecordedFor(w.checkpoints, start.tried)
    requires |calm| == |commands|
    modifies w
    ensures |finished| == |commands| && Holds(w.Tables(), Reached(start, commands, finished))
    ensures forall n :: 0 <= n < |commands| && calm[n] && Given(start, commands, finished, n) ==> finished[n]
    ensures var p := Reached(start, commands, finished);
            p.clean ==> && MovementsSound(w.movements, p.chain, p.mode.looks)
                        && FactsSound(w.facts, p.chain, p.mode.looks)
  {
    hide Holds, Fits, Next, MovementsSound, FactsSound, RecordedFor;
    finished := [];
    var p := start;
    for n := 0 to |commands|
      invariant |finished| == n && Holds(w.Tables(), p) && p == Reached(start, commands[..n], finished)
      invariant RecordedFor(w.checkpoints, p.tried)
      invariant forall i :: 0 <= i < n && calm[i] && Given(start, commands, finished, i) ==> finished[i]
    {
      assert commands[..n + 1][..n] == commands[..n] && finished[..n] == finished;
      var ok := false;
      if Fits(p, commands[n]) {
        w.reliable := calm[n];
        ok := Perform(w, commands[n], prefixLength, boundaries, step, p);
        p := Next(p, commands[n], ok);
      }
      ghost var before := finished;
      finished := finished + [ok];
      assert forall i :: 0 <= i <= n ==> finished[..i] == before[..i];
    }
    assert commands[..|commands|] == commands;
    if p.clean { HeldIsSound(w.Tables(), p); }
  }

  lemma {:induction false} HeldIsSound(t: CoreTables, p: Place)
    requires Holds(t, p) && p.clean
    ensures MovementsSound(t.movements, p.chain, p.mode.looks) && FactsSound(t.facts, p.chain, p.mode.looks)
  {
    hide Holds, MovementsSound, FactsSound, Logs, UtxoFacts, ValidChain;
    CleanParts(t, p);
    LogsAreSound(t, p.chain, p.mode.looks);
  }

  /** A new warehouse stores the empty chain. */
  lemma {:induction false} NothingHolds()
    ensures Holds(NO_TABLES, Place([], Mode(true, true, map[]), true, {}))
  {
    EmptyIsCurrent(NO_TABLES);
    assert Events([]) == [] && ValidChain([]);
  }
}
