/** Two things recovery does not survive: a tip that drops, and an error that ends a reconciling rewind. */
module RecoveryLimits {
  import opened Chain
  import opened Balances
  import opened Projection
  import opened Store
  import opened StoreProofs
  import opened Convergence
  import opened Tables
  import opened AppliedLogs
  import opened Materialization
  import opened WindowShape
  import opened CoreWindow
  import opened CoreState
  import opened CoreTails
  import opened InFlight
  import opened Recovery
  import opened RecoveryProofs

  // ---------------------------------------------------------------- what a delete and a rebuild can leave

  lemma {:induction false} CutExists<T(!new)>(t: multiset<T>, below: T -> bool) returns (u: multiset<T>)
    ensures Cut(t, u, below) && u <= t
    decreases |t|
  {
    if x :| x in t && !below(x) {
      assert t == t[x := 0] + multiset{x}[x := t[x]];
      u := CutExists(t[x := 0], below);
    } else {
      u := t;
    }
  }

  lemma {:induction false} TailDeleteExists(t: CoreTables, from: nat) returns (u: CoreTables)
    ensures TailDeleted(t, u, from)
  {
    var creates := CutExists(t.creates, CreateBelow(from));
    var spends := CutExists(t.spends, SpendBelow(from));
    var processed := CutExists(t.processed, ProcessedBelow(from));
    var movements := CutExists(t.movements, MovementBelow(from));
    var facts := CutExists(t.facts, FactBelow(from));
    u := t.(creates := creates, spends := spends, processed := processed, movements := movements, facts := facts);
  }

  lemma {:induction false} DeletedStays(t: CoreTables, u: CoreTables, from: nat)
    requires TailDeleted(t, u, from)
    ensures TailDeleted(u, u, from)
  {
    CutTwice(t.creates, u.creates, CreateBelow(from));
    CutTwice(t.spends, u.spends, SpendBelow(from));
    CutTwice(t.processed, u.processed, ProcessedBelow(from));
    CutTwice(t.movements, u.movements, MovementBelow(from));
    CutTwice(t.facts, u.facts, FactBelow(from));
  }

  lemma {:induction false} CutTwice<T(!new)>(t: multiset<T>, u: multiset<T>, below: T -> bool)
    requires Cut(t, u, below)
    ensures Cut(u, u, below)
  {}

  /** Every chain has a current state. */
  lemma {:induction false} CurrentExists(chain: seq<Block>) returns (current: CoreTables)
    requires ValidChain(chain)
    ensures Current(current, chain, true)
  {
    if chain == [] {
      current := NO_TABLES;
      EmptyIsCurrent(current);
    } else {
      current := BuiltCurrent(chain);
    }
  }

  lemma {:induction false} UnspentView(m: Ledger)
    ensures View(Unspent(m), m, true)
  {}

  lemma {:induction false} FirstVersions<V>(m: map<string, V>, limit: nat)
    requires limit > 0
    ensures Bounded(RowsAt(m, 0), limit) && Faithful(RowsAt(m, 0), m)
  {
    hide Writes, Faithful;
    WritesRead(RowsAt(m, 0), m);
  }

  lemma {:induction false} BuiltCurrent(chain: seq<Block>) returns (current: CoreTables)
    requires ValidChain(chain) && chain != []
    ensures Current(current, chain, true)
  {
    hide LedgerOf, ValidChain, OwnedAmounts, Faithful, BalancesAre, Headers, RowsAt, View, Bounded, Unspent;
    var m := LedgerOf(chain);
    var c, amounts := Unspent(m), OwnedAmounts(Unspent(m));
    OwnedAmountsAre(m);
    UnspentView(m);
    FirstVersions(c, 2 * |chain|);
    FirstVersions(amounts, 2 * |chain|);
    current := NO_TABLES.(outputs := RowsAt(c, 0), balances := RowsAt(amounts, 0), applied := multiset(Headers(chain)));
    assert CurrentIs(current, chain, c, amounts, true);
  }

  // ---------------------------------------------------------------- a window that fails and is recovered

  /** An online indexer between windows that has recorded everything it has processed. */
  ghost predicate Settled(s: State, depth: nat) {
    Inv(s, depth) && Idle(s) && Now(s).online && Now(s).ready && |s.chain| == Now(s).tail + 1
  }

  ghost predicate Follows(states: seq<State>, steps: seq<Step>, depth: nat) {
    |states| == |steps| + 1 && forall i :: 0 <= i < |steps| ==> Takes(states[i], states[i + 1], steps[i], depth)
  }

  predicate PlansNothing(steps: seq<Step>) {
    forall i :: 0 <= i < |steps| ==> !steps[i].PlanStep?
  }

  lemma {:induction false} OwnNode(chain: seq<Block>, lo: nat)
    requires lo <= |chain|
    ensures HashesIdentify(chain, chain) && chain[..lo] == chain[..lo]
  {}

  /**
   * The marker of a window of the stored chain, and the state once its rows are deleted again and the marker is gone.
   */
  lemma {:induction false} RecoverWindow(s: State, lo: nat, deleted: CoreTables, current: CoreTables, ready: State,
      depth: nat)
    returns (states: seq<State>, steps: seq<Step>)
    requires HasLog(ready) && ready.control == Ready && Drained(ready.flight) && lo <= |ready.chain|
             && Now(ready).marker.Some?
    requires Now(ready).marker.value.start == lo && Now(ready).marker.value.live
    requires TailDeleted(ready.tables, deleted, lo) && Current(current, ready.chain[..lo], true)
    ensures Follows(states, steps, depth) && |states| == 5 && states[0] == ready && PlansNothing(steps)
    ensures var t := states[4];
            t == Relaxed(ready, Now(ready).(marker := None)).(tables := WithCurrent(deleted, current),
              chain := ready.chain[..lo], spoiled := false)
  {
    hide TailDeleted, Current, ValidChain, WithCurrent;
    var k := Now(ready).marker.value;
    var s1 := ready.(control := Recovering(k));
    var s2 := s1.(chain := ready.chain[..lo], tables := deleted, control := Rebuilding(k));
    var s3 := s2.(tables := WithCurrent(deleted, current), spoiled := false, control := Forgetting(k));
    var s4 := Relaxed(s3, Now(s3).(marker := None)).(control := Ready);
    CurrentReplaced(deleted, current, ready.chain[..lo]);
    states := [ready, s1, s2, s3, s4];
    steps := [FindMarkerStep, RecoverRestStep(deleted), RebuildRestStep(current), ForgetMarkerStep];
    assert Takes(ready, s1, steps[0], depth) && Takes(s1, s2, steps[1], depth);
    assert Takes(s2, s3, steps[2], depth) && Takes(s3, s4, steps[3], depth);
  }

  lemma {:induction false} CurrentReplaced(t: CoreTables, current: CoreTables, chain: seq<Block>)
    requires Current(current, chain, true)
    ensures Current(WithCurrent(t, current), chain, true)
  {
    SameCurrent(current, WithCurrent(t, current), chain, true);
  }

  lemma {:induction false} FollowsJoin(a: seq<State>, x: seq<Step>, b: seq<State>, y: seq<Step>, depth: nat)
    requires Follows(a, x, depth) && Follows(b, y, depth) && a[|a| - 1] == b[0]
    ensures Follows(a + b[1..], x + y, depth)
  {
    var all, steps := a + b[1..], x + y;
    forall i | 0 <= i < |steps| ensures Takes(all[i], all[i + 1], steps[i], depth) {
      if i >= |x| { assert all[i] == b[i - |x|] && all[i + 1] == b[i - |x| + 1] && steps[i] == y[i - |x|]; }
    }
  }

  ghost predicate TipHeld(states: seq<State>, steps: seq<Step>, depth: nat) {
    |states| == |steps| + 1 && forall i :: 0 <= i < |steps| ==> TipHolds(states[i], steps[i], depth)
  }

  lemma {:induction false} TipHeldJoin(a: seq<State>, x: seq<Step>, b: seq<State>, y: seq<Step>, depth: nat)
    requires Follows(a, x, depth) && Follows(b, y, depth) && a[|a| - 1] == b[0] && TipHeld(a, x, depth)
             && TipHeld(b, y, depth)
    ensures Follows(a + b[1..], x + y, depth) && TipHeld(a + b[1..], x + y, depth)
  {
    hide Takes, TipHolds;
    FollowsJoin(a, x, b, y, depth);
    var all, steps := a + b[1..], x + y;
    forall i | 0 <= i < |steps| ensures TipHolds(all[i], steps[i], depth) {
      if i >= |x| { assert all[i] == b[i - |x|] && steps[i] == y[i - |x|]; }
    }
  }

  lemma {:induction false} NoPlans(states: seq<State>, steps: seq<Step>, depth: nat)
    requires Follows(states, steps, depth) && PlansNothing(steps)
    ensures TipHeld(states, steps, depth)
  {}

  /** Planning a window of the stored chain itself: the marker is written. */
  function PlannedOn(s: State, target: int, depth: nat): State
    requires HasLog(s) && Now(s).tail >= -1 && NextStart(Now(s), target, depth) < |s.chain|
  {
    var lo := NextStart(Now(s), target, depth);
    var k := Marker(lo, |s.chain| - 1, BlockHashes(s.chain[lo..]), Now(s).ready);
    Synchronous(s, Now(s).(marker := Some(k))).(control := Planned(k, s.chain, |s.chain|))
  }

  lemma {:induction false} PlanOwn(s: State, target: int, depth: nat)
    requires Settled(s, depth) && Now(s).tail >= 0 && depth > 0
    ensures NextStart(Now(s), target, depth) < |s.chain|
            && Takes(s, PlannedOn(s, target, depth), PlanStep(s.chain, target, |s.chain|), depth)
    ensures KeepsStart(Now(s), target, depth) ==> TipHolds(s, PlanStep(s.chain, target, |s.chain|), depth)
  {
    hide Takes, Inv, ValidChain, BlockHashes, HashesIdentify;
    SettledFacts(s, depth);
    OwnNode(s.chain, NextStart(Now(s), target, depth));
    assert s.chain[NextStart(Now(s), target, depth)..|s.chain|] == s.chain[NextStart(Now(s), target, depth)..];
    PlanTakes(s, PlannedOn(s, target, depth), s.chain, target, |s.chain|, depth);
  }

  lemma {:induction false} SettledFacts(s: State, depth: nat)
    requires Settled(s, depth)
    ensures ValidChain(s.chain) && |s.chain| - 1 <= Now(s).sync && Drained(s.flight)
            && FactsAre(s.tables, s.chain, s.looks)
  {
    hide FactsAre, ValidChain;
    IdleIsRight(s, depth);
    SafeChain(s, depth);
  }

  /**
   * A tip that drops below the recorded tail leaves a hole: the window planned from the lower start fails and is
   * recovered, no restart reconciles, the tip comes back, and the next window starts above the first missing block.
   */
  lemma {:induction false} DroppedTipLeavesHole(s: State, target: nat, depth: nat)
    returns (states: seq<State>, steps: seq<Step>)
    requires Settled(s, depth) && depth > 0 && !KeepsStart(Now(s), target, depth)
    ensures Follows(states, steps, depth) && states[0] == s
    ensures var t := states[|states| - 1];
            && Idle(t) && Now(t).tail == Now(s).tail && FactsAre(t.tables, t.chain, t.looks)
            && |t.chain| == NextStart(Now(s), target, depth) < NextStart(Now(t), Now(t).tail, depth)
  {
    hide Inv, TailDeleted, Current, ValidChain, FactsAre, BlockHashes, WithCurrent, Takes;
    var lo := NextStart(Now(s), target, depth);
    PlanOwn(s, target, depth);
    var planned := PlannedOn(s, target, depth);
    var failed := planned.(control := Ready, spoiled := s.spoiled);
    FailTakes(planned, failed, depth);
    states, steps := RecoverFrom(s, lo, failed, depth);
    var first, firstSteps := [s, planned, failed], [PlanStep(s.chain, target, |s.chain|), FailStep];
    assert Follows(first, firstSteps, depth);
    var last := states[|states| - 1];
    FollowsJoin(first, firstSteps, states, steps, depth);
    states, steps := first + states[1..], firstSteps + steps;
    assert states[|states| - 1] == last;
  }

  lemma {:induction false} FailTakes(s: State, t: State, depth: nat)
    requires Fail(s, t)
    ensures Takes(s, t, FailStep, depth)
  {}

  /** From a written marker over a clean store: recovery to the marker's start. */
  lemma {:induction false} RecoverFrom(s: State, lo: nat, ready: State, depth: nat)
    returns (states: seq<State>, steps: seq<Step>)
    requires Settled(s, depth) && lo <= |s.chain| && HasLog(ready) && ready.control == Ready
    requires ready.tables == s.tables && ready.flight == s.flight && ready.chain == s.chain && ready.looks == s.looks
    requires Now(ready).marker.Some? && Now(ready).marker.value.start == lo && Now(ready).marker.value.live
    ensures Follows(states, steps, depth) && |states| == 5 && states[0] == ready && PlansNothing(steps)
    ensures var t := states[4];
            && t == Relaxed(ready, Now(ready).(marker := None)).(tables := t.tables, chain := s.chain[..lo],
               spoiled := false)
            && FactsAre(t.tables, t.chain, t.looks) && TailDeleted(t.tables, t.tables, lo)
  {
    hide Inv, TailDeleted, Current, ValidChain, FactsAre, HasPrefix, WithCurrent;
    SettledFacts(s, depth);
    ValidPrefix(s.chain, lo);
    var deleted := TailDeleteExists(s.tables, lo);
    var current := CurrentExists(s.chain[..lo]);
    CleanPrefix(s.tables, s.chain, lo, s.looks);
    CutIsClean(s.tables, deleted, s.chain[..lo], s.looks);
    CurrentAside(deleted, current, s.chain[..lo], s.looks);
    DeletedStays(s.tables, deleted, lo);
    DeletedAside(deleted, current, lo);
    states, steps := RecoverWindow(s, lo, deleted, current, ready, depth);
  }

  lemma {:induction false} DeletedAside(t: CoreTables, current: CoreTables, from: nat)
    requires TailDeleted(t, t, from)
    ensures TailDeleted(WithCurrent(t, current), WithCurrent(t, current), from)
  {}

  lemma {:induction false} PartHeights(node: seq<Block>, lo: nat, hi: nat, r: Row<nat, Hash>)
    requires ValidChain(node) && lo <= hi <= |node|
    ensures r in ProcessedRows(node[lo..hi]) ==> lo <= r.key < hi
    ensures lo < hi ==> HeaderRow(node[hi - 1]) in ProcessedRows(node[lo..hi]) && HeaderRow(node[hi - 1]).key == hi - 1
  {
    var w := node[lo..hi];
    ProcessedIn(w, r);
    if i :| 0 <= i < |w| && HeaderRow(w[i]) == r { assert node[lo + i].height == lo + i; }
    if lo < hi {
      ProcessedIn(w, HeaderRow(w[hi - 1 - lo]));
      assert w[hi - 1 - lo] == node[hi - 1];
    }
  }

  /**
   * A hole stays below a window that goes through (Holes.HoleDecides says which do): its previous-block check passes,
   * because there is no block to compare with, and afterwards the highest processed block hides the missing ones from
   * every later reconciliation.
   */
  lemma {:induction false} GapStays(t: CoreTables, node: seq<Block>, lo: nat, from: nat, hi: nat, look: Ledger)
    requires ValidChain(node) && lo < from < hi <= |node| && UtxoFacts(t, node[..lo])
    ensures FollowsPrevious(HashAt(node[..lo]), node[from])
    ensures var u := AddProcessed(AddFacts(t, WindowFactRows(node[from..hi], look)), node[from..hi]);
            IsTail(u.processed, hi - 1) && forall r :: r in u.processed ==> !(lo <= r.key < from)
  {
    hide ValidChain, ProcessedRows, WindowFactRows, UtxoRowsOf, HashAt;
    var w := node[from..hi];
    var u := AddProcessed(AddFacts(t, WindowFactRows(w, look)), w);
    assert u.processed == ProcessedRows(node[..lo]) + ProcessedRows(w) && node[0..lo] == node[..lo];
    forall r | r in u.processed ensures r.key <= hi - 1 && !(lo <= r.key < from) {
      PartHeights(node, 0, lo, r);
      PartHeights(node, from, hi, r);
    }
    PartHeights(node, from, hi, HeaderRow(node[hi - 1]));
    NoPrevious(node, lo, from);
  }

  lemma {:induction false} NoPrevious(node: seq<Block>, lo: nat, from: nat)
    requires ValidChain(node) && lo < from < |node|
    ensures FollowsPrevious(HashAt(node[..lo]), node[from])
  {
    assert node[from].height == from;
  }

  // ---------------------------------------------------------------- an error during a reconciling rewind

  lemma {:induction false} ReadTail(chain: seq<Block>)
    requires ValidChain(chain)
    ensures IsTail(ProcessedRows(chain), |chain| - 1)
  {
    forall r | r in ProcessedRows(chain) ensures r.key <= |chain| - 1 { ProcessedIn(chain, r); }
    if chain != [] {
      ProcessedIn(chain, HeaderRow(chain[|chain| - 1]));
      assert HeaderRow(chain[|chain| - 1]).key == |chain| - 1;
    } else {
      assert ProcessedRows(chain) == multiset{};
    }
  }

  /** Restarting after the marker is gone: the recorded tail is above the warehouse, and the rewind begins. */
  lemma {:induction false} ReconcileRun(s: State, depth: nat) returns (states: seq<State>, steps: seq<Step>)
    requires HasLog(s) && s.control == Ready && Now(s).marker.None? && !s.reconciled && Drained(s.flight)
    requires ValidChain(s.chain) && FactsAre(s.tables, s.chain, s.looks) && TailDeleted(s.tables, s.tables, |s.chain|)
    requires Now(s).tail >= |s.chain|
    ensures Follows(states, steps, depth) && |states| == 3 && states[0] == s && PlansNothing(steps)
    ensures states[2] == s.(reconciled := true, control := RebuildingTail(|s.chain| - 1))
  {
    hide ValidChain, TailDeleted, ProcessedRows, UtxoRowsOf, Logs, IsTail;
    ReadTail(s.chain);
    var s1 := s.(reconciled := true, control := Rewinding(|s.chain| - 1));
    var s2 := s1.(control := RebuildingTail(|s.chain| - 1));
    states, steps := [s, s1, s2], [ReconcileStep(|s.chain| - 1), RewindRestStep(s.tables)];
    assert Takes(s, s1, steps[0], depth) && Takes(s1, s2, steps[1], depth);
  }

  /** Without applied rows there is no current state of a chain that has blocks. */
  lemma {:induction false} NothingIsNotCurrent(t: CoreTables, chain: seq<Block>)
    requires t.applied == multiset{} && chain != []
    ensures !Current(t, chain, true)
  {
    assert Header(chain[0]) in Headers(chain);
  }

  /** The rebuild of a reconciling rewind is cut short by an error: the next cycle goes on without one. */
  lemma {:induction false} HalfRebuilt(s: State, depth: nat) returns (states: seq<State>, steps: seq<Step>)
    requires HasLog(s) && s.control.RebuildingTail? && Now(s).marker.None? && s.reconciled && Now(s).ready
    requires s.chain != []
    ensures Follows(states, steps, depth) && |states| == 3 && states[0] == s && PlansNothing(steps)
    ensures Idle(states[2]) && Now(states[2]).ready && states[2].spoiled
            && !Current(states[2].tables, states[2].chain, true)
  {
    hide Takes, Current, LedgerOf;
    var s1 := s.(tables := WithCurrent(s.tables, NO_TABLES));
    var s2 := s1.(control := Ready, spoiled := true);
    NothingIsNotCurrent(s2.tables, s2.chain);
    states, steps := [s, s1, s2], [RebuildSomeStep(NO_TABLES), FailStep];
    RebuildTakes(s, s1, NO_TABLES, depth);
    FailTakes(s1, s2, depth);
    TwoSteps(s, s1, s2, steps[0], steps[1], depth);
  }

  lemma {:induction false} RebuildTakes(s: State, t: State, current: CoreTables, depth: nat)
    requires RebuildSome(s, t, current)
    ensures Takes(s, t, RebuildSomeStep(current), depth)
  {}

  /**
   * The current state can be left half built while the stage goes on: an online window crashes, its marker is
   * recovered, the reconciliation that follows rebuilds once more, and an error there is not tried again before the
   * next start.
   */
  lemma {:induction false} ReconcilingErrorSpoils(s: State, depth: nat) returns (states: seq<State>, steps: seq<Step>)
    requires Settled(s, depth) && 0 < depth < |s.chain|
    ensures Follows(states, steps, depth) && TipHeld(states, steps, depth) && states[0] == s
    ensures var t := states[|states| - 1]; Idle(t) && Now(t).ready && !Current(t.tables, t.chain, true)
  {
    hide Inv, TailDeleted, Current, ValidChain, FactsAre, BlockHashes, Takes, TipHolds, LedgerOf;
    var lo := NextStart(Now(s), Now(s).tail, depth);
    SettledFacts(s, depth);
    ValidPrefix(s.chain, lo);
    PlanOwn(s, Now(s).tail, depth);
    var planned := PlannedOn(s, Now(s).tail, depth);
    var down := planned.(control := Down, reconciled := false);
    var ready := down.(control := Ready);
    CrashTakes(planned, down, ready, depth);
    var a, x := [s, planned, down, ready],
      [PlanStep(s.chain, Now(s).tail, |s.chain|), CrashStep(|planned.log|), BootStep];
    assert Follows(a, x, depth) && TipHeld(a, x, depth);
    var b, y := RecoverFrom(s, lo, ready, depth);
    NoPlans(b, y, depth);
    TipHeldJoin(a, x, b, y, depth);
    a, x := a + b[1..], x + y;
    assert a[|a| - 1] == b[4];
    var c, z := ReconcileRun(b[4], depth);
    NoPlans(c, z, depth);
    TipHeldJoin(a, x, c, z, depth);
    a, x := a + c[1..], x + z;
    assert a[|a| - 1] == c[2];
    var d, v := HalfRebuilt(c[2], depth);
    NoPlans(d, v, depth);
    TipHeldJoin(a, x, d, v, depth);
    states, steps := a + d[1..], x + v;
    assert states[|states| - 1] == d[2];
  }

  lemma {:induction false} CrashTakes(s: State, down: State, ready: State, depth: nat)
    requires s.control.Planned? && HasLog(s) && s.synced == |s.log| - 1
    requires down == s.(control := Down, reconciled := false) && ready == down.(control := Ready)
    ensures Takes(s, down, CrashStep(|s.log|), depth) && Takes(down, ready, BootStep, depth)
    ensures TipHolds(s, CrashStep(|s.log|), depth) && TipHolds(down, BootStep, depth)
  {
    assert s.log[..|s.log|] == s.log;
  }

  // ---------------------------------------------------------------- such states are reached

  lemma {:induction false} AllLand(f: CoreTables)
    ensures PartOf(f, f) && Without(f, f) == NO_TABLES
  {}

  /** Starting on nothing, with some blocks synced. */
  lemma {:induction false} FirstCycle(sync: nat, depth: nat) returns (states: seq<State>, steps: seq<Step>)
    ensures Follows(states, steps, depth) && |states| == 4 && states[0] == INITIAL && PlansNothing(steps)
    ensures var m := Metadata(None, -1, sync, false, false);
            states[3] == INITIAL.(control := Ready, reconciled := true, log := INITIAL.log + [m])
  {
    hide Takes;
    var s1 := INITIAL.(control := Ready);
    var s2 := s1.(reconciled := true);
    var s3 := s2.(log := s2.log + [Metadata(None, -1, sync, false, false)]);
    states, steps := [INITIAL, s1, s2, s3], [BootStep, ReconcileStep(-1), AdvanceSyncStep(sync)];
    BootTakes(INITIAL, s1, depth);
    ReconcileTakes(s1, s2, -1, depth);
    SyncTakes(s2, s3, sync, depth);
  }

  lemma {:induction false} BootTakes(s: State, t: State, depth: nat)
    requires Boot(s, t)
    ensures Takes(s, t, BootStep, depth)
  {}

  lemma {:induction false} ReconcileTakes(s: State, t: State, tail: int, depth: nat)
    requires Reconcile(s, t, tail)
    ensures Takes(s, t, ReconcileStep(tail), depth)
  {}

  lemma {:induction false} SyncTakes(s: State, t: State, sync: int, depth: nat)
    requires AdvanceSync(s, t, sync)
    ensures Takes(s, t, AdvanceSyncStep(sync), depth)
  {}

  /** The first window, without a current state: its facts are on their way. */
  lemma {:induction false} FirstSend(s: State, chain: seq<Block>, depth: nat)
    returns (states: seq<State>, steps: seq<Step>)
    requires ValidChain(chain) && chain != [] && s.chain == [] && !s.spoiled
    requires Idle(s) && Now(s) == Metadata(None, -1, |chain| - 1, false, false)
    ensures Follows(states, steps, depth) && |states| == 3 && states[0] == s && forall i :: 0 <= i < |steps| ==>
            TipHolds(states[i], steps[i], depth)
    ensures var k := Marker(0, |chain| - 1, BlockHashes(chain), false); var t := states[2];
            && t.control == Inserting(k, chain, |chain|, NO_TABLES) && HasLog(t)
               && Now(t) == Metadata(Some(k), -1, |chain| - 1, false, false)
            && t.tables == s.tables && t.chain == [] && t.reconciled && !t.spoiled
  {
    hide Takes, TipHolds, Follows, ValidChain, WindowFactRows, BlockHashes, Plan, InsertNew, CreatedInWindow;
    var hi := |chain|;
    var k := Marker(0, hi - 1, BlockHashes(chain), false);
    var s1 := s.(log := s.log + [Now(s).(marker := Some(k))], synced := |s.log|, control := Planned(k, chain, hi));
    var s2 := s1.(flight := WindowFactRows(chain, map[] + CreatedInWindow(chain)),
      control := Inserting(k, chain, hi, NO_TABLES), 
      looks := LookAfter(s.looks, 0, hi, Saw(false, false, map[] + CreatedInWindow(chain))));
    states, steps := [s, s1, s2], [PlanStep(chain, hi - 1, hi), InsertNewStep(map[], map[], NO_TABLES)];
    FirstPlan(s, s1, chain, depth);
    FirstInsert(s1, s2, chain, k);
    PlanTakes(s, s1, chain, hi - 1, hi, depth);
    InsertTakes(s1, s2, map[], map[], NO_TABLES, depth);
    TwoSteps(s, s1, s2, steps[0], steps[1], depth);
  }

  lemma {:induction false} TwoSteps(s: State, t: State, u: State, x: Step, y: Step, depth: nat)
    requires Takes(s, t, x, depth) && Takes(t, u, y, depth)
    ensures Follows([s, t, u], [x, y], depth)
  {
    hide Takes;
  }

  lemma {:induction false} FirstPlan(s: State, t: State, chain: seq<Block>, depth: nat)
    requires ValidChain(chain) && chain != [] && s.chain == []
    requires Idle(s) && Now(s) == Metadata(None, -1, |chain| - 1, false, false)
    requires var k := Marker(0, |chain| - 1, BlockHashes(chain), false);
             t == s.(log := s.log + [Now(s).(marker := Some(k))], synced := |s.log|,
               control := Planned(k, chain, |chain|))
    ensures Plan(s, t, chain, |chain| - 1, |chain|, depth)
  {
    hide ValidChain, BlockHashes, HashesIdentify;
    assert chain[0..|chain|] == chain;
    NothingKnown(s.tables, chain);
  }

  lemma {:induction false} FirstInsert(s: State, t: State, chain: seq<Block>, k: Marker)
    requires chain != [] && s.chain == [] && s.control == Planned(k, chain, |chain|) && k.start == 0 && !k.live
    requires t == s.(flight := WindowFactRows(chain, map[] + CreatedInWindow(chain)),
                     looks := LookAfter(s.looks, 0, |chain|, Saw(false, false, map[] + CreatedInWindow(chain))),
                     control := Inserting(k, chain, |chain|, NO_TABLES))
    ensures InsertNew(s, t, map[], map[], NO_TABLES)
  {
    hide WindowFactRows, Prepares, ForkHeight, CreatedInWindow;
    assert chain[0..|chain|] == chain;
    NothingKnown(s.tables, chain);
    NoFork(chain, |chain|);
  }

  lemma {:induction false} PlanTakes(s: State, t: State, node: seq<Block>, target: int, hi: nat, depth: nat)
    requires Plan(s, t, node, target, hi, depth)
    ensures Takes(s, t, PlanStep(node, target, hi), depth)
    ensures HasLog(s) && KeepsStart(Now(s), target, depth) ==> TipHolds(s, PlanStep(node, target, hi), depth)
  {}

  lemma {:induction false} InsertTakes(s: State, t: State, prevouts: Ledger, found: map<Address, int>, rows: CoreTables,
      depth: nat)
    requires InsertNew(s, t, prevouts, found, rows)
    ensures Takes(s, t, InsertNewStep(prevouts, found, rows), depth)
            && TipHolds(s, InsertNewStep(prevouts, found, rows), depth)
  {}

  lemma {:induction false} NothingKnown(t: CoreTables, chain: seq<Block>)
    requires chain != []
    ensures HashesIdentify([], chain) && Prepares(t, chain, false, map[], map[], NO_TABLES)
  {}

  lemma {:induction false} NoFork(chain: seq<Block>, hi: nat)
    requires hi <= |chain|
    ensures ForkHeight([], chain, 0, hi) == hi
  {}

  lemma {:induction false} FactsArrive(s: State, chain: seq<Block>, k: Marker, depth: nat)
    returns (states: seq<State>, steps: seq<Step>)
    requires chain != [] && s.control == Inserting(k, chain, |chain|, NO_TABLES) && s.chain == []
    ensures Follows(states, steps, depth) && |states| == 6 && states[0] == s && PlansNothing(steps)
    ensures var t := states[5];
            t == s.(tables := t.tables, flight := NO_TABLES, control := Applied(k, |chain| - 1), chain := chain)
  {
    hide Takes, Together, ProcessedRows;
    var hi := |chain|;
    var sent := NO_TABLES.(processed := ProcessedRows(chain));
    assert chain[0..hi] == chain && chain[..hi] == chain;
    var s1 := s.(tables := Together(s.tables, s.flight), flight := NO_TABLES);
    var s2 := s1.(control := Maintaining(k, chain, hi));
    var s3 := s2.(flight := sent, control := Finishing(k, chain, hi));
    var s4 := s3.(tables := Together(s3.tables, sent), flight := NO_TABLES);
    var s5 := s4.(control := Applied(k, hi - 1), chain := chain);
    states := [s, s1, s2, s3, s4, s5];
    steps := [LandStep(s.flight), FactsInStep, SendProcessedStep, LandStep(sent), ProcessedArrivedStep];
    LandTakes(s, s1, depth);
    FactsTake(s1, s2, depth);
    SendTakes(s2, s3, depth);
    LandTakes(s3, s4, depth);
    ArrivalTakes(s4, s5, depth);
  }

  lemma {:induction false} LandTakes(s: State, t: State, depth: nat)
    requires t == s.(tables := Together(s.tables, s.flight), flight := NO_TABLES)
    ensures Takes(s, t, LandStep(s.flight), depth)
  {
    AllLand(s.flight);
  }

  lemma {:induction false} FactsTake(s: State, t: State, depth: nat)
    requires FactsIn(s, t)
    ensures Takes(s, t, FactsInStep, depth)
  {}

  lemma {:induction false} SendTakes(s: State, t: State, depth: nat)
    requires SendProcessed(s, t)
    ensures Takes(s, t, SendProcessedStep, depth)
  {}

  lemma {:induction false} ArrivalTakes(s: State, t: State, depth: nat)
    requires ProcessedArrived(s, t)
    ensures Takes(s, t, ProcessedArrivedStep, depth)
  {}

  /** The marker goes, the tail is published, the current state is built, and the stage goes online. */
  lemma {:induction false} GoesOnline(s: State, chain: seq<Block>, k: Marker, current: CoreTables, depth: nat)
    returns (states: seq<State>, steps: seq<Step>)
    requires chain != [] && !k.live && Current(current, chain, true) && s.control == Applied(k, |chain| - 1)
    requires HasLog(s) && Now(s) == Metadata(Some(k), -1, |chain| - 1, false, false) && s.chain == chain && s.reconciled
             && !s.spoiled
    ensures Follows(states, steps, depth) && |states| == 5 && states[0] == s && PlansNothing(steps)
    ensures var t := states[4];
            && Idle(t) && Now(t) == Metadata(None, |chain| - 1, |chain| - 1, true, true)
            && t.chain == chain
  {
    hide Takes, Current, WithCurrent;
    CurrentReplaced(s.tables, current, chain);
    assert chain[..|chain|] == chain;
    var m := Metadata(None, -1, |chain| - 1, false, false);
    var n := m.(tail := |chain| - 1);
    var s1 := s.(log := s.log + [m], control := Publishing(|chain| - 1));
    var s2 := s1.(log := s1.log + [n], control := Ready);
    var s3 := s2.(log := s2.log + [n.(ready := true)], synced := |s2.log|, tables := WithCurrent(s2.tables, current));
    var s4 := s3.(log := s3.log + [n.(ready := true, online := true)]);
    states, steps := [s, s1, s2, s3, s4], [ClearMarkerStep, PublishStep, MaterializeRestStep(current), PromoteStep];
    ClearTakes(s, s1, depth);
    PublishTakes(s1, s2, depth);
    MaterializeTakes(s2, s3, current, depth);
    PromoteTakes(s3, s4, depth);
  }

  lemma {:induction false} ClearTakes(s: State, t: State, depth: nat)
    requires ClearMarker(s, t)
    ensures Takes(s, t, ClearMarkerStep, depth)
  {}

  lemma {:induction false} PublishTakes(s: State, t: State, depth: nat)
    requires Publish(s, t)
    ensures Takes(s, t, PublishStep, depth)
  {}

  lemma {:induction false} MaterializeTakes(s: State, t: State, current: CoreTables, depth: nat)
    requires MaterializeRest(s, t, current)
    ensures Takes(s, t, MaterializeRestStep(current), depth)
  {}

  lemma {:induction false} PromoteTakes(s: State, t: State, depth: nat)
    requires Promote(s, t)
    ensures Takes(s, t, PromoteStep, depth)
  {}

  /** For every chain some run, without any failure, settles online with it. */
  lemma {:induction false} EveryChainSettles(chain: seq<Block>, depth: nat)
    returns (states: seq<State>, steps: seq<Step>)
    requires ValidChain(chain) && chain != []
    ensures IsRun(states, steps, depth)
    ensures var t := states[|states| - 1]; Settled(t, depth) && t.chain == chain
  {
    hide ValidChain, Current, Takes, TipHolds, Inv, BlockHashes, Follows, TipHeld;
    states, steps := SettlingRun(chain, depth);
    RunIs(states, steps, depth);
    RunKeepsInv(states, steps, depth, |states| - 1);
  }

  /** So some run, with one window planned while the tip is low, leaves a hole above which the next window starts. */
  lemma {:induction false} HoleIsReached(chain: seq<Block>, target: nat, depth: nat)
    returns (states: seq<State>, steps: seq<Step>)
    requires ValidChain(chain) && 0 < depth < |chain| && target < |chain| - 1
    ensures Follows(states, steps, depth) && states[0] == INITIAL
    ensures var t := states[|states| - 1];
            && Idle(t) && Now(t).tail == |chain| - 1 && FactsAre(t.tables, t.chain, t.looks)
            && |t.chain| < NextStart(Now(t), Now(t).tail, depth)
  {
    hide ValidChain, Current, Takes, TipHolds, Inv, FactsAre, ControlSafe;
    var a, x := EveryChainSettles(chain, depth);
    RunFollows(a, x, depth);
    var b, y := DroppedTipLeavesHole(a[|a| - 1], target, depth);
    FollowsJoin(a, x, b, y, depth);
    states, steps := a + b[1..], x + y;
    assert states[|states| - 1] == b[|b| - 1];
  }

  /** And some run in which the tip holds ends between windows with a current state that is wrong. */
  lemma {:induction false} SpoilIsReached(chain: seq<Block>, depth: nat) returns (states: seq<State>, steps: seq<Step>)
    requires ValidChain(chain) && 0 < depth < |chain|
    ensures IsRun(states, steps, depth)
    ensures var t := states[|states| - 1]; Idle(t) && Now(t).ready && !Current(t.tables, t.chain, true)
  {
    hide ValidChain, Current, Takes, TipHolds, Inv, FactsAre, LedgerOf;
    var a, x := EveryChainSettles(chain, depth);
    RunFollows(a, x, depth);
    var b, y := ReconcilingErrorSpoils(a[|a| - 1], depth);
    TipHeldJoin(a, x, b, y, depth);
    states, steps := a + b[1..], x + y;
    assert states[|states| - 1] == b[|b| - 1];
    RunIs(states, steps, depth);
  }

  lemma {:induction false} RunFollows(states: seq<State>, steps: seq<Step>, depth: nat)
    requires IsRun(states, steps, depth)
    ensures Follows(states, steps, depth) && TipHeld(states, steps, depth) && states[0] == INITIAL
  {
    hide Takes, TipHolds;
  }

  lemma {:induction false} RunIs(states: seq<State>, steps: seq<Step>, depth: nat)
    requires Follows(states, steps, depth) && TipHeld(states, steps, depth) && states[0] == INITIAL
    ensures IsRun(states, steps, depth)
  {}

  lemma {:induction false} SettlingRun(chain: seq<Block>, depth: nat) returns (states: seq<State>, steps: seq<Step>)
    requires ValidChain(chain) && chain != []
    ensures Follows(states, steps, depth) && TipHeld(states, steps, depth) && states[0] == INITIAL
    ensures var t := states[|states| - 1];
            Idle(t) && Now(t) == Metadata(None, |chain| - 1, |chain| - 1, true, true) && t.chain == chain
  {
    hide ValidChain, Current, Takes, TipHolds, BlockHashes;
    var current := CurrentExists(chain);
    var k := Marker(0, |chain| - 1, BlockHashes(chain), false);
    var a, x := FirstCycle(|chain| - 1, depth);
    NoPlans(a, x, depth);
    var b, y := FirstSend(a[3], chain, depth);
    TipHeldJoin(a, x, b, y, depth);
    a, x := a + b[1..], x + y;
    assert a[|a| - 1] == b[2];
    var c, z := FactsArrive(b[2], chain, k, depth);
    NoPlans(c, z, depth);
    TipHeldJoin(a, x, c, z, depth);
    a, x := a + c[1..], x + z;
    assert a[|a| - 1] == c[5];
    var d, v := GoesOnline(c[5], chain, k, current, depth);
    NoPlans(d, v, depth);
    TipHeldJoin(a, x, d, v, depth);
    states, steps := a + d[1..], x + v;
    assert states[|states| - 1] == d[4];
  }
}
