/** In every reachable state a crash leaves nothing that recovery does not put right. */
module RecoveryProofs {
  import opened Chain
  import opened Projection
  import opened Store
  import opened StoreProofs
  import opened Convergence
  import opened Tables
  import opened FactTables
  import opened AppliedLogs
  import opened Materialization
  import opened CoreWindow
  import opened CoreState
  import opened CoreTails
  import opened InFlight
  import opened WindowReads
  import opened Recovery

  /** Where the next window starts as long as the node's tip has not dropped below the recorded tail. */
  function StartOf(m: Metadata, depth: nat): nat
    requires m.tail >= -1
  {
    NextStart(m, m.tail, depth)
  }

  lemma {:induction false} StartIgnoresTarget(m: Metadata, target: int, depth: nat)
    requires m.tail >= -1
    ensures StartOf(m, depth) <= m.tail + 1
    ensures NextStart(m, target, depth) == StartOf(m, depth) <==> KeepsStart(m, target, depth)
  {}

  /** The facts are exactly those of the stored chain, and nothing is on its way. */
  ghost predicate Clean(s: State) {
    FactsAre(s.tables, s.chain, s.looks) && Drained(s.flight)
  }

  /** The current rows read as those of the stored chain, unless an error ended a reconciling rewind. */
  ghost predicate Right(s: State) {
    Current(s.tables, s.chain, true) || s.spoiled
  }

  /** The reconciliation still to come, or under way, will build the current state again. */
  predicate Healing(s: State, tail: int) {
    tail >= |s.chain| && (!s.reconciled || s.control.Rewinding? || s.control.RebuildingTail?)
  }

  /**
   * If this write is the last to survive a crash, recovery from it ends clean and leaves no hole below the next window.
   */
  ghost predicate Safe(m: Metadata, s: State, depth: nat) {
    m.tail >= -1 && |s.chain| - 1 <= m.sync && (m.online ==> m.ready) && match m.marker
      case None =>
        Clean(s) && StartOf(m, depth) <= |s.chain| && (m.ready ==> Right(s) || Healing(s, m.tail))
      case Some(k) =>
        && k.live == m.ready && k.end <= m.sync
        && k.start <= |s.chain| && HasPrefix(s.tables, s.chain[..k.start], s.looks)
        && FlightFrom(s.flight, k.start) && StartOf(m, depth) <= k.start
  }

  ghost predicate AllSafe(s: State, depth: nat) {
    forall i :: s.synced <= i < |s.log| ==> Safe(s.log[i], s, depth)
  }

  /** A marker that is gone stays gone; readiness is written synchronously; the tail moves only after reconciliation. */
  predicate LogOrdered(s: State)
    requires HasLog(s)
  {
    && (forall i, j :: s.synced <= i <= j < |s.log| && s.log[j].marker.Some? ==> s.log[i].marker == s.log[j].marker)
    && (forall i :: s.synced <= i < |s.log| ==> s.log[i].ready == Now(s).ready)
    && (!s.reconciled ==> SameTails(s))
  }

  predicate SameTails(s: State)
    requires HasLog(s)
  {
    forall i :: s.synced <= i < |s.log| ==> s.log[i].tail == Now(s).tail
  }

  ghost predicate LogSafe(s: State, depth: nat) {
    HasLog(s) && ValidChain(s.chain) && AllSafe(s, depth) && LogOrdered(s)
  }

  predicate Held(s: State, k: Marker) {
    HasLog(s) && Now(s).marker == Some(k)
  }

  predicate Unmarked(s: State) {
    HasLog(s) && Now(s).marker.None?
  }

  /** A window of the node's chain above what is stored. */
  ghost predicate OnNode(s: State, k: Marker, node: seq<Block>, hi: nat) {
    && Held(s, k) && s.reconciled && hi == k.end + 1
    && ValidChain(node) && k.start <= |s.chain| < hi <= |node| && s.chain == node[..|s.chain|]
  }

  /**
   * Rows stored and rows on their way make up the facts, and, where it is maintained, the current state of the longer
   * chain.
   */
  ghost predicate Coming(s: State, k: Marker, target: seq<Block>, flight: CoreTables, sent: bool) {
    && Adding(s.tables, s.flight, s.chain, target, s.looks, sent)
    && (k.live && !s.spoiled ==> CurrentComing(s.tables, flight, target))
  }

  ghost predicate ControlSafe(s: State) {
    match s.control
    case Down => true
    case Ready => true
    case Planned(k, node, hi) =>
      && Held(s, k) && s.reconciled && hi == k.end + 1 && Clean(s) && ValidChain(node) && HashesIdentify(s.chain, node)
      && k.start < hi <= |node| && k.start <= |s.chain| && s.chain[..k.start] == node[..k.start]
         && (k.live ==> Right(s))
    case Cutting(k, node, hi, d) =>
      && Held(s, k) && s.reconciled && hi == k.end + 1 && Drained(s.flight) && ValidChain(node)
         && k.start <= d < hi <= |node|
      && d < |s.chain| && s.chain[..d] == node[..d] && HasPrefix(s.tables, s.chain[..d], s.looks)
    case Restoring(k, node, hi) => OnNode(s, k, node, hi) && Clean(s)
    case Inserting(k, node, hi, rows) =>
      && OnNode(s, k, node, hi) && OnlyCurrent(rows) && OnlyFacts(s.flight)
      && Coming(s, k, node[..hi], rows, false)
    case Maintaining(k, node, hi) => OnNode(s, k, node, hi) && Coming(s, k, node[..hi], s.flight, false)
    case Finishing(k, node, hi) => OnNode(s, k, node, hi) && Coming(s, k, node[..hi], s.flight, true)
    case Applied(k, tail) => Held(s, k) && s.reconciled && Clean(s) && -1 <= tail < |s.chain| && (k.live ==> Right(s))
    case Publishing(tail) => Unmarked(s) && s.reconciled && Clean(s) && -1 <= tail < |s.chain|
      && (Now(s).ready ==> Right(s))
    case Recovering(k) => Held(s, k)
    case Rebuilding(k) => Held(s, k) && Clean(s) && |s.chain| == k.start
    case Forgetting(k) => Held(s, k) && Clean(s) && |s.chain| == k.start && (k.live ==> Right(s))
    case Rewinding(tail) => Behind(s, tail) && Clean(s)
    case RebuildingTail(tail) => Behind(s, tail) && Clean(s)
    case Lowering(tail) => Behind(s, tail) && Clean(s) && (Now(s).ready ==> Right(s))
  }

  /** The warehouse ends below the recorded tail, in every write a crash may fall back to. */
  predicate Behind(s: State, tail: int) {
    Unmarked(s) && s.reconciled && SameTails(s) && tail == |s.chain| - 1 && tail < Now(s).tail
  }

  ghost predicate Inv(s: State, depth: nat) {
    LogSafe(s, depth) && ControlSafe(s)
  }

  // ---------------------------------------------------------------- keeping the log safe

  lemma {:induction false} NowSafe(s: State, depth: nat)
    requires LogSafe(s, depth)
    ensures Safe(Now(s), s, depth)
  {}

  /** While the marker is the last write, every write that may survive carries it. */
  lemma {:induction false} HeldEverywhere(s: State, k: Marker, i: nat)
    requires HasLog(s) && LogOrdered(s) && Held(s, k) && s.synced <= i < |s.log|
    ensures s.log[i].marker == Some(k)
  {}

  /** Under a marker only the rows below it matter. */
  lemma {:induction false} HeldChange(s: State, t: State, k: Marker, depth: nat)
    requires LogSafe(s, depth) && Held(s, k) && t.log == s.log && t.synced == s.synced && t.reconciled == s.reconciled
    requires ValidChain(t.chain) && (|t.chain| <= |s.chain| || |t.chain| <= k.end + 1)
    requires k.start <= |t.chain| && HasPrefix(t.tables, t.chain[..k.start], t.looks) && FlightFrom(t.flight, k.start)
    ensures LogSafe(t, depth)
  {
    hide ValidChain, HasPrefix, FlightFrom, Clean, StartOf, Right;
    forall i | s.synced <= i < |s.log| ensures Safe(s.log[i], t, depth) {
      assert Safe(s.log[i], s, depth);
      HeldEverywhere(s, k, i);
    }
  }

  predicate SameData(s: State, t: State) {
    && t.log == s.log && t.synced == s.synced && t.tables == s.tables && t.flight == s.flight && t.chain == s.chain
    && t.looks == s.looks && (s.spoiled ==> t.spoiled)
  }

  /** A change of control: what heals must go on healing. */
  lemma {:induction false} ControlChange(s: State, t: State, depth: nat)
    requires LogSafe(s, depth) && SameData(s, t) && (s.reconciled ==> t.reconciled)
    requires forall i ::
               s.synced <= i < |s.log| && s.log[i].marker.None? && s.log[i].ready && Healing(s, s.log[i].tail) ==>
                 t.spoiled || Healing(t, s.log[i].tail)
    ensures LogSafe(t, depth)
  {
    hide ValidChain, HasPrefix, FlightFrom, FactsAre, StartOf, Healing, Current;
    forall i | s.synced <= i < |s.log| ensures Safe(s.log[i], t, depth) { assert Safe(s.log[i], s, depth); }
  }

  /** A change that keeps a clean state clean keeps every write safe. */
  lemma {:induction false} CleanChange(s: State, t: State, depth: nat)
    requires LogSafe(s, depth) && t.log == s.log && t.synced == s.synced && t.chain == s.chain && Clean(t)
    requires t.reconciled == s.reconciled
    requires forall i :: s.synced <= i < |s.log| && s.log[i].marker.None? && s.log[i].ready ==>
             Right(t) || Healing(t, s.log[i].tail)
    ensures LogSafe(t, depth)
  {
    hide ValidChain, HasPrefix, FlightFrom, FactsAre, Drained, StartOf, Right, Healing;
    forall i | s.synced <= i < |s.log| ensures Safe(s.log[i], t, depth) {
      assert Safe(s.log[i], s, depth);
      if s.log[i].marker.Some? {
        CleanPrefix(t.tables, t.chain, s.log[i].marker.value.start, t.looks);
        DrainedFrom(t.flight, s.log[i].marker.value.start);
      }
    }
  }

  lemma {:induction false} AppendSafe(s: State, t: State, m: Metadata, depth: nat)
    requires LogSafe(s, depth) && m.marker.None? && Safe(m, s, depth) && m.ready == Now(s).ready
    requires SameData(s, t.(log := s.log)) && t.log == s.log + [m] && t.reconciled == s.reconciled
    requires (m.tail == Now(s).tail) || s.reconciled
    requires (s.control.Rewinding? || s.control.RebuildingTail?) ==> (t.control.Rewinding? || t.control.RebuildingTail?)
    ensures LogSafe(t, depth) && Now(t) == m
  {
    hide ValidChain, HasPrefix, FlightFrom, FactsAre, StartOf, Current;
    forall i | t.synced <= i < |t.log| ensures Safe(t.log[i], t, depth) {
      if i < |s.log| { assert Safe(s.log[i], s, depth); }
    }
  }

  lemma {:induction false} SynchronousSafe(t: State, m: Metadata, depth: nat)
    requires |t.log| > 0 && t.synced == |t.log| - 1 && t.log[t.synced] == m && ValidChain(t.chain) && Safe(m, t, depth)
    ensures LogSafe(t, depth) && Now(t) == m
  {
    hide ValidChain, Safe;
  }

  // ---------------------------------------------------------------- rows landing, rows lost

  /** Controls under which rows may still be on their way. */
  predicate MayFly(c: Control) {
    c.Down? || c.Ready? || c.Recovering? || Awaiting(c)
  }

  lemma {:induction false} FlightMeansMarker(s: State, depth: nat)
    requires Inv(s, depth) && !Drained(s.flight)
    ensures MayFly(s.control) && forall i :: s.synced <= i < |s.log| ==> s.log[i].marker.Some?
  {
    hide ValidChain, HasPrefix, FlightFrom, FactsAre, Drained, StartOf, Adding, CurrentComing, Right, HashesIdentify;
    forall i | s.synced <= i < |s.log| ensures s.log[i].marker.Some? { assert Safe(s.log[i], s, depth); }
  }

  /** Under a marker rows that land are rows above its start. */
  lemma {:induction false} LandKeepsMarked(m: Metadata, s: State, t: State, part: CoreTables, depth: nat)
    requires Safe(m, s, depth) && m.marker.Some? && Land(s, t, part)
    ensures Safe(m, t, depth)
  {
    hide HasPrefix, FlightFrom, StartOf, PartOf, Together, Without, Right, Healing, Clean;
    var k := m.marker.value;
    LandingKeepsPrefix(s.tables, s.flight, part, s.chain[..k.start], s.looks);
    RestFrom(s.flight, part, k.start);
  }

  lemma {:induction false} LandKeepsSafe(s: State, t: State, part: CoreTables, depth: nat)
    requires Inv(s, depth) && Land(s, t, part) && !Drained(s.flight)
    ensures LogSafe(t, depth)
  {
    hide ValidChain, Drained, PartOf, Together, Without, Safe, ControlSafe, MayFly;
    FlightMeansMarker(s, depth);
    forall i | s.synced <= i < |s.log| ensures Safe(s.log[i], t, depth) {
      assert Safe(s.log[i], s, depth);
      LandKeepsMarked(s.log[i], s, t, part, depth);
    }
  }

  lemma {:induction false} LandKeepsComing(s: State, t: State, part: CoreTables, k: Marker, target: seq<Block>,
      sent: bool)
    requires Land(s, t, part) && Coming(s, k, target, s.flight, sent)
    ensures Coming(t, k, target, t.flight, sent)
  {
    hide Adding, CurrentComing, Together, Without;
    LandingKeepsAdding(s.tables, s.flight, part, s.chain, target, s.looks, sent);
    if k.live && !s.spoiled { LandingKeepsCurrent(s.tables, s.flight, part, target); }
  }

  /** Facts landing leave the current rows alone. */
  lemma {:induction false} LandKeepsInserting(s: State, t: State, part: CoreTables, k: Marker, target: seq<Block>,
      rows: CoreTables)
    requires Land(s, t, part) && OnlyFacts(s.flight) && Coming(s, k, target, rows, false)
    ensures OnlyFacts(t.flight) && Coming(t, k, target, rows, false)
  {
    hide Adding, Current, Kept;
    LandingKeepsAdding(s.tables, s.flight, part, s.chain, target, s.looks, false);
    FactsPart(s.flight, part);
    FactsLand(s.tables, part);
    if k.live && !s.spoiled {
      SameCurrent(Together(s.tables, rows), Together(t.tables, rows), target, true);
    }
  }

  lemma {:induction false} FactsPart(f: CoreTables, part: CoreTables)
    requires OnlyFacts(f) && PartOf(part, f)
    ensures OnlyFacts(part) && OnlyFacts(Without(f, part))
  {
    EmptyBag(part.outputs);
    EmptyBag(part.balances);
    EmptyBag(part.applied);
  }

  lemma {:induction false} FactsLand(t: CoreTables, part: CoreTables)
    requires OnlyFacts(part)
    ensures var u := Together(t, part); u.outputs == t.outputs && u.balances == t.balances && u.applied == t.applied
  {}

  lemma {:induction false} LandKeepsControl(s: State, t: State, part: CoreTables, depth: nat)
    requires Inv(s, depth) && Land(s, t, part) && !Drained(s.flight)
    ensures ControlSafe(t)
  {
    hide LogSafe, Coming, ValidChain, Together, Without, PartOf, Drained, OnlyFacts, OnlyCurrent, HasPrefix,
         HashesIdentify, Clean, Right, Behind;
    FlightMeansMarker(s, depth);
    match s.control
    case Inserting(k, node, hi, rows) => LandKeepsInserting(s, t, part, k, node[..hi], rows);
    case Maintaining(k, node, hi) => LandKeepsComing(s, t, part, k, node[..hi], false);
    case Finishing(k, node, hi) => LandKeepsComing(s, t, part, k, node[..hi], true);
    case _ =>
  }

  lemma {:induction false} LandKeepsInv(s: State, t: State, part: CoreTables, depth: nat)
    requires Inv(s, depth) && Land(s, t, part)
    ensures Inv(t, depth)
  {
    hide LogSafe, ControlSafe, Drained, Together, Without;
    if Drained(s.flight) {
      NothingInFlight(s.tables, s.flight, part);
      assert t == s;
    } else {
      LandKeepsSafe(s, t, part, depth);
      LandKeepsControl(s, t, part, depth);
    }
  }

  lemma {:induction false} LoseKeepsSafe(s: State, t: State, part: CoreTables, depth: nat)
    requires LogSafe(s, depth) && Lose(s, t, part) && forall i :: s.synced <= i < |s.log| ==> s.log[i].marker.Some?
    ensures LogSafe(t, depth)
  {
    hide ValidChain, HasPrefix, FlightFrom, FactsAre, Drained, StartOf, PartOf, Without, Right, Healing;
    forall i | s.synced <= i < |s.log| ensures Safe(s.log[i], t, depth) {
      assert Safe(s.log[i], s, depth);
      RestFrom(s.flight, part, s.log[i].marker.value.start);
    }
  }

  lemma {:induction false} LoseInFlight(s: State, t: State, part: CoreTables, depth: nat)
    requires Inv(s, depth) && Lose(s, t, part) && !Drained(s.flight)
    ensures Inv(t, depth)
  {
    hide LogSafe, Drained, Without, PartOf, Coming, ValidChain, HasPrefix, HashesIdentify, Clean, Right, Behind,
         OnlyFacts, OnlyCurrent;
    FlightMeansMarker(s, depth);
    LoseKeepsSafe(s, t, part, depth);
  }

  /** Losing rows at any moment leaves nothing that recovery does not put right. */
  lemma {:induction false} LoseKeepsInv(s: State, t: State, part: CoreTables, depth: nat)
    requires Inv(s, depth) && Lose(s, t, part)
    ensures Inv(t, depth)
  {
    hide LogSafe, ControlSafe, Drained, Without;
    if Drained(s.flight) {
      NothingInFlight(s.tables, s.flight, part);
      if Awaiting(s.control) {
        IdleChange(s, t, depth);
        DownSafe(t);
      } else {
        assert t == s;
      }
    } else {
      LoseInFlight(s, t, part, depth);
    }
  }

  // ---------------------------------------------------------------- crashes and failures

  lemma {:induction false} DownSafe(t: State)
    requires t.control == Down || t.control == Ready
    ensures ControlSafe(t)
  {}

  /** Any change of control outside a reconciling rewind. */
  lemma {:induction false} IdleChange(s: State, t: State, depth: nat)
    requires LogSafe(s, depth) && SameData(s, t) && t.reconciled == s.reconciled
    requires !s.control.Rewinding? && !s.control.RebuildingTail?
    ensures LogSafe(t, depth)
  {
    hide LogSafe;
    ControlChange(s, t, depth);
  }

  lemma {:induction false} CrashKeepsInv(s: State, t: State, kept: nat, depth: nat)
    requires Inv(s, depth) && Crash(s, t, kept)
    ensures Inv(t, depth)
  {
    hide ValidChain, HasPrefix, FlightFrom, FactsAre, Drained, StartOf, ControlSafe, Current;
    assert Safe(s.log[kept - 1], s, depth);
    DownSafe(t);
  }

  lemma {:induction false} BootKeepsInv(s: State, t: State, depth: nat)
    requires Inv(s, depth) && Boot(s, t)
    ensures Inv(t, depth)
  {
    hide LogSafe, ControlSafe;
    IdleChange(s, t, depth);
    DownSafe(t);
  }

  lemma {:induction false} FailKeepsInv(s: State, t: State, depth: nat)
    requires Inv(s, depth) && Fail(s, t)
    ensures Inv(t, depth)
  {
    hide ControlSafe, AllSafe, ValidChain, Healing;
    if s.control.Rewinding? || s.control.RebuildingTail? {
      ControlChange(s, t, depth);
    } else {
      IdleChange(s, t, depth);
    }
    DownSafe(t);
  }

  // ---------------------------------------------------------------- deleting and rebuilding

  lemma {:induction false} FindMarkerKeepsInv(s: State, t: State, depth: nat)
    requires Inv(s, depth) && FindMarker(s, t)
    ensures Inv(t, depth)
  {
    hide LogSafe;
    IdleChange(s, t, depth);
  }

  lemma {:induction false} RecoverSomeKeepsInv(s: State, t: State, tables: CoreTables, depth: nat)
    requires Inv(s, depth) && RecoverSome(s, t, tables)
    ensures Inv(t, depth)
  {
    hide ValidChain, HasPrefix, FlightFrom, FactsAre, Shrunk, StartOf, Right, LogOrdered;
    var k := s.control.marker;
    NowSafe(s, depth);
    ShrunkKeepsPrefix(s.tables, tables, s.chain[..k.start], k.start, s.looks);
    HeldChange(s, t, k, depth);
  }

  lemma {:induction false} RecoverRestKeepsInv(s: State, t: State, tables: CoreTables, depth: nat)
    requires Inv(s, depth) && RecoverRest(s, t, tables)
    ensures Inv(t, depth)
  {
    hide ValidChain, HasPrefix, FlightFrom, FactsAre, TailDeleted, StartOf, Right, LogOrdered;
    var k := s.control.marker;
    NowSafe(s, depth);
    ValidPrefix(s.chain, k.start);
    CutIsClean(s.tables, tables, s.chain[..k.start], s.looks);
    CleanPrefix(tables, t.chain, k.start, s.looks);
    assert t.chain[..k.start] == t.chain;
    DrainedFrom(t.flight, k.start);
    HeldChange(s, t, k, depth);
  }

  lemma {:induction false} RebuildStaysClean(s: State, t: State, current: CoreTables)
    requires Clean(s) && t.tables == WithCurrent(s.tables, current) && t.flight == s.flight && t.chain == s.chain
             && t.looks == s.looks
    ensures Clean(t)
  {
    hide FactsAre, WithCurrent, Drained;
    CurrentAside(s.tables, current, s.chain, s.looks);
  }

  lemma {:induction false} RebuildIsClean(s: State)
    requires ControlSafe(s) && IsRebuilding(s.control)
    ensures Clean(s) && HasLog(s)
    ensures !s.control.RebuildingTail? ==> Held(s, s.control.marker)
    ensures s.control.RebuildingTail? ==> Behind(s, s.control.tail)
  {
    hide Clean, ValidChain, SameTails;
  }

  lemma {:induction false} BehindHeals(s: State, i: nat)
    requires s.control.RebuildingTail? && Behind(s, s.control.tail) && s.synced <= i < |s.log|
    ensures Healing(s, s.log[i].tail)
  {}

  lemma {:induction false} HeldAll(s: State, k: Marker, depth: nat)
    requires LogSafe(s, depth) && Held(s, k)
    ensures forall i :: s.synced <= i < |s.log| ==> s.log[i].marker == Some(k)
  {
    forall i | s.synced <= i < |s.log| ensures s.log[i].marker == Some(k) { HeldEverywhere(s, k, i); }
  }

  lemma {:induction false} RebuildSomeSafe(s: State, t: State, current: CoreTables, depth: nat)
    requires Inv(s, depth) && RebuildSome(s, t, current)
    ensures LogSafe(t, depth) && Clean(t)
  {
    hide LogSafe, ControlSafe, Clean, WithCurrent, Behind, Held, Healing, Right;
    RebuildIsClean(s);
    RebuildStaysClean(s, t, current);
    if s.control.RebuildingTail? {
      assert Behind(t, t.control.tail) by { BehindMoves(s, t); }
      forall i | s.synced <= i < |s.log| ensures Healing(t, s.log[i].tail) { BehindHeals(t, i); }
    } else {
      HeldAll(s, s.control.marker, depth);
    }
    CleanChange(s, t, depth);
  }

  lemma {:induction false} BehindMoves(s: State, t: State)
    requires s.control.RebuildingTail? && Behind(s, s.control.tail)
    requires t.log == s.log && t.synced == s.synced && t.chain == s.chain && t.reconciled == s.reconciled
    requires t.control.RebuildingTail? || t.control.Lowering?
    requires t.control.tail == s.control.tail
    ensures Behind(t, t.control.tail)
  {}

  lemma {:induction false} RebuildSomeKeepsInv(s: State, t: State, current: CoreTables, depth: nat)
    requires Inv(s, depth) && RebuildSome(s, t, current)
    ensures Inv(t, depth)
  {
    hide LogSafe, Clean, WithCurrent, ControlSafe;
    RebuildSomeSafe(s, t, current, depth);
    RebuildControl(s, t);
  }

  lemma {:induction false} RebuildControl(s: State, t: State)
    requires ControlSafe(s) && IsRebuilding(s.control) && Clean(t)
    requires t == s.(tables := t.tables, spoiled := t.spoiled)
    ensures ControlSafe(t)
  {
    hide Clean, ValidChain;
  }

  lemma {:induction false} RebuildRestSafe(s: State, t: State, current: CoreTables, depth: nat)
    requires Inv(s, depth) && RebuildRest(s, t, current)
    ensures LogSafe(t, depth) && Clean(t) && (Live(s) ==> Right(t))
  {
    hide LogSafe, ControlSafe, Clean, Behind, Held, Healing, WithCurrent, Current;
    RebuildIsClean(s);
    if Live(s) {
      RebuildStaysClean(s, t, current);
      CleanChange(s, t, depth);
    } else {
      NotLive(s, t, depth);
      CleanChange(s, t, depth);
    }
  }

  /** When nothing is rebuilt, nothing claims a current state. */
  lemma {:induction false} NotLive(s: State, t: State, depth: nat)
    requires Inv(s, depth) && HasLog(s) && IsRebuilding(s.control) && !Live(s)
             && t == s.(control := AfterRebuild(s.control))
    ensures Clean(t) && forall i :: s.synced <= i < |s.log| ==> !(s.log[i].marker.None? && s.log[i].ready)
  {
    RebuildIsClean(s);
    hide ControlSafe, FactsAre, ValidChain, AllSafe;
    if !s.control.RebuildingTail? { HeldAll(s, s.control.marker, depth); }
  }

  lemma {:induction false} RebuildRestKeepsInv(s: State, t: State, current: CoreTables, depth: nat)
    requires Inv(s, depth) && RebuildRest(s, t, current)
    ensures Inv(t, depth)
  {
    hide LogSafe, Clean, WithCurrent, ControlSafe, Right, Current, Live;
    RebuildRestSafe(s, t, current, depth);
    LiveIs(s);
    RebuiltControl(s, t);
  }

  lemma {:induction false} LiveIs(s: State)
    requires HasLog(s) && IsRebuilding(s.control)
    ensures Live(s) <==> if s.control.RebuildingTail? then Now(s).ready else s.control.marker.live
  {}

  lemma {:induction false} RebuiltControl(s: State, t: State)
    requires ControlSafe(s) && IsRebuilding(s.control) && HasLog(s) && Clean(t)
    requires t == s.(tables := t.tables, spoiled := t.spoiled, control := AfterRebuild(s.control))
    requires (if s.control.RebuildingTail? then Now(s).ready else s.control.marker.live) ==> Right(t)
    ensures ControlSafe(t)
  {
    hide Clean, ValidChain, Right, HashesIdentify;
    match s.control
    case Restoring(k, node, hi) => OwnPrefix(s.chain, node, k.start);
    case _ =>
  }

  /** A chain that is a prefix of the node's agrees with it everywhere. */
  lemma {:induction false} OwnPrefix(chain: seq<Block>, node: seq<Block>, h: nat)
    requires h <= |chain| <= |node| && chain == node[..|chain|]
    ensures HashesIdentify(chain, node) && chain[..h] == node[..h]
  {}

  lemma {:induction false} ForgetMarkerKeepsInv(s: State, t: State, depth: nat)
    requires Inv(s, depth) && ForgetMarker(s, t)
    ensures Inv(t, depth)
  {
    hide ValidChain, HasPrefix, FlightFrom, FactsAre, Drained, Right, AllSafe, LogOrdered, Healing;
    NowSafeIn(s, depth);
    SameStart(Now(s), Now(s).(marker := None), depth);
    AppendSafe(s, t, Now(s).(marker := None), depth);
    DownSafe(t);
  }

  lemma {:induction false} NowSafeIn(s: State, depth: nat)
    requires LogSafe(s, depth)
    ensures HasLog(s) && Safe(Now(s), s, depth)
  {}

  lemma {:induction false} ReconcileKeepsInv(s: State, t: State, tail: int, depth: nat)
    requires Inv(s, depth) && Reconcile(s, t, tail)
    ensures Inv(t, depth) && tail == |s.chain| - 1
  {
    hide ValidChain, HasPrefix, FlightFrom, Clean, IsTail, StartOf, AllSafe, Right, ProcessedRows;
    NowSafeIn(s, depth);
    ProcessedAre(s);
    TailIsLast(s.chain, tail);
    ControlChange(s, t, depth) by { ReconcileHeals(s, t, tail, depth); }
    SameClean(s, t);
  }

  lemma {:induction false} SameClean(s: State, t: State)
    requires t.tables == s.tables && t.flight == s.flight && t.chain == s.chain && t.looks == s.looks
    ensures Clean(s) ==> Clean(t)
  {}

  lemma {:induction false} ReconcileHeals(s: State, t: State, tail: int, depth: nat)
    requires LogSafe(s, depth) && Reconcile(s, t, tail) && tail == |s.chain| - 1
    ensures forall i :: s.synced <= i < |s.log| && Healing(s, s.log[i].tail) ==> Healing(t, s.log[i].tail)
  {
    hide ValidChain, AllSafe, IsTail;
  }

  lemma {:induction false} ProcessedAre(s: State)
    requires Clean(s)
    ensures s.tables.processed == ProcessedRows(s.chain)
  {}

  lemma {:induction false} RewindSomeKeepsInv(s: State, t: State, tables: CoreTables, depth: nat)
    requires Inv(s, depth) && RewindSome(s, t, tables)
    ensures Inv(t, depth)
  {
    hide HasPrefix, FlightFrom, FactsAre, Shrunk, StartOf, ValidChain, Right, AllSafe;
    ShrunkAbove(s.tables, tables, s.chain, s.looks);
    CleanChange(s, t, depth);
  }

  lemma {:induction false} RewindRestKeepsInv(s: State, t: State, tables: CoreTables, depth: nat)
    requires Inv(s, depth) && RewindRest(s, t, tables)
    ensures Inv(t, depth)
  {
    hide HasPrefix, FlightFrom, FactsAre, TailDeleted, StartOf, ValidChain, Right, AllSafe;
    assert s.chain[..|s.chain|] == s.chain;
    CleanPrefix(s.tables, s.chain, |s.chain|, s.looks);
    CutIsClean(s.tables, tables, s.chain, s.looks);
    CleanChange(s, t, depth);
  }

  lemma {:induction false} LowerTailKeepsInv(s: State, t: State, depth: nat)
    requires Inv(s, depth) && LowerTail(s, t)
    ensures Inv(t, depth)
  {
    hide ValidChain, HasPrefix, FlightFrom, FactsAre, Drained, Right, AllSafe, LogOrdered, Healing, SameTails;
    NowSafeIn(s, depth);
    AppendSafe(s, t, Now(s).(tail := s.control.tail), depth);
    DownSafe(t);
  }

  // ---------------------------------------------------------------- between windows

  lemma {:induction false} IdleIsRight(s: State, depth: nat)
    requires Inv(s, depth) && Idle(s)
    ensures Clean(s) && Safe(Now(s), s, depth) && (Now(s).ready ==> Right(s))
  {
    hide ValidChain, FactsAre, Drained, StartOf, Current;
    NowSafe(s, depth);
  }

  lemma {:induction false} AdvanceSyncKeepsInv(s: State, t: State, sync: int, depth: nat)
    requires Inv(s, depth) && AdvanceSync(s, t, sync)
    ensures Inv(t, depth)
  {
    IdleIsRight(s, depth);
    hide ValidChain, HasPrefix, FlightFrom, FactsAre, Drained, Right, AllSafe, LogOrdered, Healing;
    SameStart(Now(s), Now(s).(sync := sync), depth);
    AppendSafe(s, t, Now(s).(sync := sync), depth);
    DownSafe(t);
  }

  lemma {:induction false} PromoteKeepsInv(s: State, t: State, depth: nat)
    requires Inv(s, depth) && Promote(s, t)
    ensures Inv(t, depth)
  {
    IdleIsRight(s, depth);
    hide ValidChain, HasPrefix, FlightFrom, FactsAre, Drained, Right, AllSafe, LogOrdered, Healing;
    AppendSafe(s, t, Now(s).(online := true), depth);
    DownSafe(t);
  }

  lemma {:induction false} MaterializeSomeKeepsInv(s: State, t: State, current: CoreTables, depth: nat)
    requires Inv(s, depth) && MaterializeSome(s, t, current)
    ensures Inv(t, depth)
  {
    IdleIsRight(s, depth);
    RebuildStaysClean(s, t, current);
    hide ValidChain, Clean, AllSafe, WithCurrent, Right, Healing;
    CleanChange(s, t, depth);
    DownSafe(t);
  }

  /** Before the current state is ready the recorded tail is the stored one once every synced block is processed. */
  lemma {:induction false} MaterializedTail(s: State, depth: nat)
    requires Inv(s, depth) && Idle(s) && !Now(s).ready && Now(s).tail >= Now(s).sync
    ensures Now(s).tail == |s.chain| - 1
  {
    IdleIsRight(s, depth);
  }

  lemma {:induction false} ChainOf(s: State, depth: nat)
    requires Inv(s, depth)
    ensures ValidChain(s.chain)
  {}

  lemma {:induction false} IsRight(s: State)
    requires Current(s.tables, s.chain, true)
    ensures Right(s)
  {}

  lemma {:induction false} InvOf(t: State, depth: nat)
    requires LogSafe(t, depth) && ControlSafe(t)
    ensures Inv(t, depth)
  {}

  lemma {:induction false} MaterializeRestKeepsInv(s: State, t: State, current: CoreTables, depth: nat)
    requires Inv(s, depth) && MaterializeRest(s, t, current)
    ensures Inv(t, depth)
  {
    hide Inv, ValidChain, Clean, AllSafe, LogOrdered, WithCurrent, Current, Healing, Right, StartOf;
    IdleIsRight(s, depth);
    MaterializedTail(s, depth);
    assert s.chain[..Now(s).tail + 1] == s.chain;
    RebuildStaysClean(s, t, current);
    ChainOf(s, depth);
    IsRight(t);
    var m := Now(s).(ready := true);
    SameStart(Now(s), m, depth);
    SynchronousSafe(t, m, depth);
    DownSafe(t);
    InvOf(t, depth);
  }

  // ---------------------------------------------------------------- applying a window

  lemma {:induction false} SameStart(m: Metadata, n: Metadata, depth: nat)
    requires m.tail >= -1 && n.tail == m.tail && n.online == m.online
    ensures StartOf(n, depth) == StartOf(m, depth)
  {}

  lemma {:induction false} PlanKeepsInv(s: State, t: State, node: seq<Block>, target: int, hi: nat, depth: nat)
    requires Inv(s, depth) && Plan(s, t, node, target, hi, depth) && KeepsStart(Now(s), target, depth)
    ensures Inv(t, depth)
  {
    hide Inv, ValidChain, HasPrefix, FlightFrom, FactsAre, Drained, HashesIdentify, StartOf, NextStart, KeepsStart,
         BlockHashes, AllSafe, LogOrdered, Right, Healing;
    IdleIsRight(s, depth);
    ChainOf(s, depth);
    var lo := NextStart(Now(s), target, depth);
    var m := Now(s).(marker := Some(Marker(lo, hi - 1, BlockHashes(node[lo..hi]), Now(s).ready)));
    StartIgnoresTarget(Now(s), target, depth);
    SameStart(Now(s), m, depth);
    CleanPrefix(s.tables, s.chain, lo, s.looks);
    DrainedFrom(s.flight, lo);
    SynchronousSafe(t, m, depth);
    SameRight(s, t);
    InvOf(t, depth);
  }

  lemma {:induction false} SameRight(s: State, t: State)
    requires t.tables == s.tables && t.chain == s.chain && (s.spoiled ==> t.spoiled)
    ensures Right(s) ==> Right(t)
  {}

  lemma {:induction false} ForkShared(s: State, node: seq<Block>, lo: nat, hi: nat)
    requires ValidChain(s.chain) && Clean(s) && HashesIdentify(s.chain, node)
    requires lo <= hi <= |node| && lo <= |s.chain| && s.chain[..lo] == node[..lo]
             && ForkHeight(s.chain, node, lo, hi) < hi
    ensures var d := ForkHeight(s.chain, node, lo, hi);
            d < |s.chain| && s.chain[..d] == node[..d] && HasPrefix(s.tables, s.chain[..d], s.looks)
  {
    hide HasPrefix, FactsAre, HashesIdentify, ForkHeight, ValidChain;
    var d := ForkHeight(s.chain, node, lo, hi);
    SharedPrefix(s.chain, node, lo, d);
    CleanPrefix(s.tables, s.chain, d, s.looks);
  }

  lemma {:induction false} SafeChain(s: State, depth: nat)
    requires LogSafe(s, depth)
    ensures ValidChain(s.chain)
  {}

  lemma {:induction false} FindForkKeepsInv(s: State, t: State, depth: nat)
    requires Inv(s, depth) && FindFork(s, t)
    ensures Inv(t, depth)
  {
    hide LogSafe, HasPrefix, FactsAre, HashesIdentify, ForkHeight, ValidChain, Right;
    SafeChain(s, depth);
    ForkShared(s, s.control.node, s.control.marker.start, s.control.hi);
    IdleChange(s, t, depth);
  }

  lemma {:induction false} CutSomeKeepsInv(s: State, t: State, tables: CoreTables, depth: nat)
    requires Inv(s, depth) && CutSome(s, t, tables)
    ensures Inv(t, depth)
  {
    hide ValidChain, HasPrefix, FlightFrom, FactsAre, Shrunk, StartOf, Drained, Right, LogOrdered;
    var k, d := s.control.marker, s.control.fork;
    NowSafe(s, depth);
    ShrunkKeepsPrefix(s.tables, tables, s.chain[..d], d, s.looks);
    ShrunkKeepsPrefix(s.tables, tables, s.chain[..k.start], d, s.looks);
    HeldChange(s, t, k, depth);
  }

  lemma {:induction false} CutRestKeepsInv(s: State, t: State, tables: CoreTables, depth: nat)
    requires Inv(s, depth) && CutRest(s, t, tables)
    ensures Inv(t, depth)
  {
    hide ValidChain, HasPrefix, FlightFrom, FactsAre, Drained, TailDeleted, StartOf, Right, LogOrdered;
    var k, d := s.control.marker, s.control.fork;
    ValidPrefix(s.chain, d);
    CutIsClean(s.tables, tables, s.chain[..d], s.looks);
    CleanPrefix(tables, t.chain, k.start, s.looks);
    DrainedFrom(s.flight, k.start);
    HeldChange(s, t, k, depth);
  }

  lemma {:induction false} PreparedFits(s: State, w: seq<Block>, live: bool, prevouts: Ledger, found: map<Address, int>,
      rows: CoreTables)
    requires ValidChain(s.chain + w) && w != [] && Prepares(s.tables, w, live, prevouts, found, rows)
             && (live ==> Right(s))
    ensures OnlyCurrent(rows)
    ensures live && !s.spoiled ==> LookupFits(prevouts + CreatedInWindow(w), LedgerOf(s.chain + w), Events(w))
    ensures live && !s.spoiled ==> CurrentComing(s.tables, rows, s.chain + w)
    ensures !live ==> prevouts == map[]
  {
    hide ValidChain, Current, Latest, Mutate, LookupFits, LedgerOf, Events, ExternalKeys, NextAmounts, OutputRows,
         RowsAt, Headers;
    if live && !s.spoiled {
      ReadsSuffice(s.tables, s.chain, w, prevouts);
      ReadsAdvance(s.tables, s.chain, w, prevouts, found);
      SameCurrent(AddCurrent(s.tables, rows), Together(s.tables, rows), s.chain + w, true);
    }
  }

  /** A window knows that its lookup is right, or whole, or has it on record that it may be wrong. */
  lemma {:induction false} PreparedSees(s: State, w: seq<Block>, live: bool, prevouts: Ledger)
    requires ValidChain(s.chain + w) && (!live ==> prevouts == map[])
    requires live && !s.spoiled ==> LookupFits(prevouts + CreatedInWindow(w), LedgerOf(s.chain + w), Events(w))
    ensures var look := prevouts + CreatedInWindow(w);
            Sees(Saw(live, s.spoiled, look), look, LedgerOf(s.chain + w), Events(w))
  {
    hide ValidChain, LookupFits, LookupTrue, LedgerOf, Events, CreatedInWindow;
    OwnCreatesTrue(s.chain, w);
  }

  lemma {:induction false} WindowRowsOnlyFacts(w: seq<Block>, look: Ledger)
    ensures OnlyFacts(WindowFactRows(w, look))
  {}

  /** The last part of a window of the node's chain. */
  lemma {:induction false} NextWindow(s: State, k: Marker, node: seq<Block>, hi: nat)
    requires ValidChain(node) && HashesIdentify(s.chain, node) && k.start <= |s.chain| < hi <= |node|
             && s.chain[..k.start] == node[..k.start]
    requires ForkHeight(s.chain, node, k.start, hi) == hi
    ensures s.chain == node[..|s.chain|] && s.chain + node[|s.chain|..hi] == node[..hi] && ValidChain(node[..hi])
  {
    hide ValidChain, HashesIdentify, ForkHeight;
    SharedPrefix(s.chain, node, k.start, |s.chain|);
    assert s.chain[..|s.chain|] == s.chain;
    ValidPrefix(node, hi);
  }

  lemma {:induction false} InsertNewComing(s: State, t: State, prevouts: Ledger, found: map<Address, int>,
      rows: CoreTables)
    requires ControlSafe(s) && InsertNew(s, t, prevouts, found, rows)
    ensures ControlSafe(t) && FlightFrom(t.flight, |s.chain|)
  {
    hide HashesIdentify, ValidChain, FactsAre, Drained, Right, Prepares, ForkHeight, LookupFits, LedgerOf, Events,
         Adding, CurrentComing, LookAfter, Sees, Saw, WindowFactRows, OnlyCurrent, OnlyFacts;
    var k, node, hi := s.control.marker, s.control.node, s.control.hi;
    var w := node[|s.chain|..hi];
    var look := prevouts + CreatedInWindow(w);
    NextWindow(s, k, node, hi);
    PreparedFits(s, w, k.live, prevouts, found, rows);
    PreparedSees(s, w, k.live, prevouts);
    FactsSent(s.tables, s.chain, w, look, s.looks, Saw(k.live, s.spoiled, look));
    WindowRowsOnlyFacts(w, look);
  }

  lemma {:induction false} SameLookBelow(looks: Lookups, lo: nat, hi: nat, l: Lookup, h: nat)
    requires h <= lo
    ensures SameBelowHeight(looks, LookAfter(looks, lo, hi, l), h)
  {
    LookAfterKeeps(looks, lo, hi, l);
  }

  lemma {:induction false} InsertNewKeepsInv(s: State, t: State, prevouts: Ledger, found: map<Address, int>,
      rows: CoreTables, depth: nat)
    requires Inv(s, depth) && InsertNew(s, t, prevouts, found, rows)
    ensures Inv(t, depth)
  {
    InsertNewComing(s, t, prevouts, found, rows);
    hide ValidChain, FactsAre, Drained, Right, Prepares, LogOrdered, AllSafe, FlightFrom, HasPrefix, ForkHeight,
         HashesIdentify, Coming, LookAfter, Saw, SameBelowHeight, OnlyCurrent, OnlyFacts;
    var k := s.control.marker;
    var look := prevouts + CreatedInWindow(PendingWindow(s));
    NowSafeIn(s, depth);
    SameLookBelow(s.looks, |s.chain|, s.control.hi, Saw(k.live, s.spoiled, look), k.start);
    PrefixOfSameLook(s.tables, s.chain[..k.start], s.looks, t.looks);
    FlightHigher(t.flight, k.start, |s.chain|);
    HeldChange(s, t, k, depth);
  }

  lemma {:induction false} FlightHigher(f: CoreTables, low: nat, high: nat)
    requires FlightFrom(f, high) && low <= high
    ensures FlightFrom(f, low)
  {
    hide CreateBelow, SpendBelow, ProcessedBelow, MovementBelow, FactBelow;
    BelowGrows(low, high);
  }

  lemma {:induction false} NothingNewKeepsInv(s: State, t: State, depth: nat)
    requires Inv(s, depth) && NothingNew(s, t)
    ensures Inv(t, depth)
  {
    hide LogSafe, FactsAre, Drained, HashesIdentify, ValidChain, ForkHeight, Right;
    IdleChange(s, t, depth);
    SameRight(s, t);
  }

  lemma {:induction false} OnlyCurrentFrom(rows: CoreTables, h: nat)
    requires OnlyCurrent(rows)
    ensures FlightFrom(rows, h)
  {}

  lemma {:induction false} FactsInKeepsInv(s: State, t: State, depth: nat)
    requires Inv(s, depth) && FactsIn(s, t)
    ensures Inv(t, depth)
  {
    hide ValidChain, HasPrefix, FlightFrom, StartOf, Drained, Adding, CurrentComing, Right, LogOrdered, OnlyCurrent,
         OnlyFacts;
    var k := s.control.marker;
    NowSafe(s, depth);
    OnlyCurrentFrom(s.control.rows, k.start);
    CurrentSent(s.tables, s.flight, s.control.rows, s.chain, s.control.node[..s.control.hi], s.looks);
    HeldChange(s, t, k, depth);
  }

  /** The current state is not touched by processed blocks on their way. */
  lemma {:induction false} ProcessedAside(t: CoreTables, f: CoreTables, rows: Table<nat, Hash>, target: seq<Block>)
    requires CurrentComing(t, f, target) && Drained(f)
    ensures CurrentComing(t, NO_TABLES.(processed := rows), target)
  {
    hide Current, Together;
    NothingInFlight(t, f, f);
    ProcessedFields(t, rows);
    SameCurrent(t, Together(t, NO_TABLES.(processed := rows)), target, true);
  }

  lemma {:induction false} SendProcessedKeepsInv(s: State, t: State, depth: nat)
    requires Inv(s, depth) && SendProcessed(s, t)
    ensures Inv(t, depth)
  {
    hide ValidChain, HasPrefix, FlightFrom, StartOf, Drained, Adding, ProcessedRows, CurrentComing, Right, LogOrdered;
    var k, node, hi := s.control.marker, s.control.node, s.control.hi;
    var w := node[|s.chain|..hi];
    assert s.chain + w == node[..hi];
    NowSafe(s, depth);
    ValidPrefix(node, hi);
    ProcessedSent(s.tables, s.flight, s.chain, w, s.looks);
    FlightHigher(t.flight, k.start, |s.chain|);
    if k.live && !s.spoiled { ProcessedAside(s.tables, s.flight, ProcessedRows(w), node[..hi]); }
    HeldChange(s, t, k, depth);
  }

  lemma {:induction false} AllRight(s: State, k: Marker, target: seq<Block>)
    requires Coming(s, k, target, s.flight, true) && Drained(s.flight)
    ensures FactsAre(s.tables, target, s.looks) && (k.live ==> s.spoiled || Current(s.tables, target, true))
  {
    hide Current, Together, Complete;
    AllLanded(s.tables, s.flight, s.chain, target, s.looks);
    NothingInFlight(s.tables, s.flight, s.flight);
  }

  lemma {:induction false} ProcessedArrivedKeepsInv(s: State, t: State, depth: nat)
    requires Inv(s, depth) && ProcessedArrived(s, t)
    ensures Inv(t, depth)
  {
    hide ValidChain, HasPrefix, FlightFrom, FactsAre, StartOf, Drained, Coming, LogOrdered, AllSafe, Current;
    var k, node, hi := s.control.marker, s.control.node, s.control.hi;
    NowSafeIn(s, depth);
    ValidPrefix(node, hi);
    AllRight(s, k, node[..hi]);
    CleanPrefix(t.tables, t.chain, k.start, t.looks);
    DrainedFrom(s.flight, k.start);
    HeldChange(s, t, k, depth);
  }

  lemma {:induction false} ClearMarkerKeepsInv(s: State, t: State, depth: nat)
    requires Inv(s, depth) && ClearMarker(s, t)
    ensures Inv(t, depth)
  {
    hide ValidChain, HasPrefix, FlightFrom, FactsAre, Drained, Right, AllSafe, LogOrdered, Healing, StartOf;
    var m := Now(s).(marker := None);
    NowSafeIn(s, depth);
    SameStart(Now(s), m, depth);
    AppendSafe(s, t, m, depth);
    SameRight(s, t);
  }

  lemma {:induction false} PublishKeepsInv(s: State, t: State, depth: nat)
    requires Inv(s, depth) && Publish(s, t)
    ensures Inv(t, depth)
  {
    hide ValidChain, HasPrefix, FlightFrom, FactsAre, Drained, Right, AllSafe, LogOrdered, Healing;
    NowSafeIn(s, depth);
    AppendSafe(s, t, Now(s).(tail := s.control.tail), depth);
    DownSafe(t);
  }

  // ---------------------------------------------------------------- every step, every run

  lemma {:induction false} StepKeepsInv(s: State, t: State, step: Step, depth: nat)
    requires Inv(s, depth) && Takes(s, t, step, depth) && TipHolds(s, step, depth)
    ensures Inv(t, depth)
  {
    hide Inv, Land, Lose, Crash, Boot, Fail, RebuildSome, RebuildRest, FindMarker, RecoverSome, RecoverRest,
         ForgetMarker, Reconcile, RewindSome, RewindRest, LowerTail, AdvanceSync, MaterializeSome, MaterializeRest,
         Promote, Plan, FindFork, CutSome, CutRest, InsertNew, NothingNew, FactsIn, SendProcessed, ProcessedArrived,
         ClearMarker, Publish;
    match step
    case LandStep(part) => LandKeepsInv(s, t, part, depth);
    case LoseStep(part) => LoseKeepsInv(s, t, part, depth);
    case CrashStep(kept) => CrashKeepsInv(s, t, kept, depth);
    case BootStep => BootKeepsInv(s, t, depth);
    case FailStep => FailKeepsInv(s, t, depth);
    case RebuildSomeStep(tables) => RebuildSomeKeepsInv(s, t, tables, depth);
    case RebuildRestStep(tables) => RebuildRestKeepsInv(s, t, tables, depth);
    case FindMarkerStep => FindMarkerKeepsInv(s, t, depth);
    case RecoverSomeStep(tables) => RecoverSomeKeepsInv(s, t, tables, depth);
    case RecoverRestStep(tables) => RecoverRestKeepsInv(s, t, tables, depth);
    case ForgetMarkerStep => ForgetMarkerKeepsInv(s, t, depth);
    case ReconcileStep(tail) => ReconcileKeepsInv(s, t, tail, depth);
    case RewindSomeStep(tables) => RewindSomeKeepsInv(s, t, tables, depth);
    case RewindRestStep(tables) => RewindRestKeepsInv(s, t, tables, depth);
    case LowerTailStep => LowerTailKeepsInv(s, t, depth);
    case AdvanceSyncStep(sync) => AdvanceSyncKeepsInv(s, t, sync, depth);
    case MaterializeSomeStep(tables) => MaterializeSomeKeepsInv(s, t, tables, depth);
    case MaterializeRestStep(tables) => MaterializeRestKeepsInv(s, t, tables, depth);
    case PromoteStep => PromoteKeepsInv(s, t, depth);
    case PlanStep(node, target, hi) => PlannedKeepsInv(s, t, node, target, hi, depth);
    case FindForkStep => FindForkKeepsInv(s, t, depth);
    case CutSomeStep(tables) => CutSomeKeepsInv(s, t, tables, depth);
    case CutRestStep(tables) => CutRestKeepsInv(s, t, tables, depth);
    case InsertNewStep(prevouts, found, rows) => InsertNewKeepsInv(s, t, prevouts, found, rows, depth);
    case NothingNewStep => NothingNewKeepsInv(s, t, depth);
    case FactsInStep => FactsInKeepsInv(s, t, depth);
    case SendProcessedStep => SendProcessedKeepsInv(s, t, depth);
    case ProcessedArrivedStep => ProcessedArrivedKeepsInv(s, t, depth);
    case ClearMarkerStep => ClearMarkerKeepsInv(s, t, depth);
    case PublishStep => PublishKeepsInv(s, t, depth);
  }

  lemma {:induction false} PlannedKeepsInv(s: State, t: State, node: seq<Block>, target: int, hi: nat, depth: nat)
    requires Inv(s, depth) && Plan(s, t, node, target, hi, depth) && (HasLog(s) ==> KeepsStart(Now(s), target, depth))
    ensures Inv(t, depth)
  {
    assert HasLog(s);
    hide Inv;
    PlanKeepsInv(s, t, node, target, hi, depth);
  }

  ghost predicate IsRun(states: seq<State>, steps: seq<Step>, depth: nat) {
    && |states| == |steps| + 1 && states[0] == INITIAL
    && forall i :: 0 <= i < |steps| ==>
       Takes(states[i], states[i + 1], steps[i], depth) && TipHolds(states[i], steps[i], depth)
  }

  lemma {:induction false} InitialInv(depth: nat)
    ensures Inv(INITIAL, depth)
  {
    assert Events([]) == [] && CreateRows([]) == multiset{} && SpendRows([]) == multiset{};
    assert FactsAre(NO_TABLES, [], map[]);
  }

  lemma {:induction false} RunKeepsInv(states: seq<State>, steps: seq<Step>, depth: nat, i: nat)
    requires IsRun(states, steps, depth) && i < |states|
    ensures Inv(states[i], depth)
  {
    hide Inv, Takes, TipHolds;
    if i == 0 {
      InitialInv(depth);
    } else {
      RunKeepsInv(states, steps, depth, i - 1);
      StepKeepsInv(states[i - 1], states[i], steps[i - 1], depth);
    }
  }

  /**
   * Whenever no marker is pending, after whatever crashes, failures, late and lost inserts came before, the four fact
   * tables hold exactly the rows of the processed blocks as they were applied, nothing is in flight, and the next
   * window starts at or below the first block that is missing. Whatever a block was applied with, each of its credits
   * is there once, no debit twice, and one fact for each of its transactions; a block applied with all its prevouts
   * has all its movements and facts right.
   */
  lemma {:induction false} RecoveredIsExact(states: seq<State>, steps: seq<Step>, depth: nat, i: nat, target: int)
    requires IsRun(states, steps, depth) && i < |states|
    requires HasLog(states[i]) && Now(states[i]).marker.None? && KeepsStart(Now(states[i]), target, depth)
    ensures var s := states[i];
            && ValidChain(s.chain) && FactsAre(s.tables, s.chain, s.looks) && Drained(s.flight)
            && MovementsSound(s.tables.movements, s.chain, s.looks) && FactsSound(s.tables.facts, s.chain, s.looks)
            && Now(s).tail >= -1 && NextStart(Now(s), target, depth) <= |s.chain|
  {
    hide ValidChain, FactsAre, Drained, HasPrefix, FlightFrom, NextStart, StartOf, KeepsStart, IsRun, ControlSafe,
         Right, Healing, MovementsSound, FactsSound;
    RunKeepsInv(states, steps, depth, i);
    NowSafe(states[i], depth);
    FactsSoundIn(states[i]);
    StartIgnoresTarget(Now(states[i]), target, depth);
  }

  lemma {:induction false} FactsSoundIn(s: State)
    requires ValidChain(s.chain) && FactsAre(s.tables, s.chain, s.looks)
    ensures MovementsSound(s.tables.movements, s.chain, s.looks) && FactsSound(s.tables.facts, s.chain, s.looks)
  {
    hide ValidChain, UtxoFacts, Logs, MovementsSound, FactsSound;
    LogsAreSound(s.tables, s.chain, s.looks);
  }

  // ---------------------------------------------------------------- when nothing read was ever wrong

  predicate Sure(s: State) {
    !s.spoiled && forall h :: h in s.looks ==> !s.looks[h].Unsure?
  }

  lemma {:induction false} StepStaysSure(s: State, t: State, step: Step, depth: nat)
    requires Sure(s) && Takes(s, t, step, depth) && !(step.FailStep? && EndsReconciling(s))
    ensures Sure(t)
  {
    hide Current, WindowFactRows, Together, Without, TailDeleted, Shrunk, PartOf, Prepares, ForkHeight, ValidChain,
         HashesIdentify, IsTail, LookAfter, InsertNew, NextStart, BlockHashes, Awaiting, AfterRebuild, Idle,
         IsRebuilding, OnlineWindowStart, Live;
    if step.InsertNewStep? {
      InsertStaysSure(s, t, step.prevouts, step.found, step.rows);
    }
  }

  lemma {:induction false} InsertStaysSure(s: State, t: State, prevouts: Ledger, found: map<Address, int>,
      rows: CoreTables)
    requires Sure(s) && InsertNew(s, t, prevouts, found, rows)
    ensures Sure(t)
  {
    hide WindowFactRows, Prepares, ForkHeight, LookAfter, CreatedInWindow;
    var look := prevouts + CreatedInWindow(PendingWindow(s));
    LookAfterKeeps(s.looks, |s.chain|, s.control.hi, Saw(s.control.marker.live, s.spoiled, look));
  }

  /** Unless an error ends a reconciling rewind, no block is ever applied with rows that may be wrong. */
  lemma {:induction false} RunStaysSure(states: seq<State>, steps: seq<Step>, depth: nat, i: nat)
    requires IsRun(states, steps, depth) && i < |states|
    requires forall j :: 0 <= j < i ==> !(steps[j].FailStep? && EndsReconciling(states[j]))
    ensures Sure(states[i])
  {
    hide Sure, Takes, EndsReconciling;
    if i == 0 {
      InitialSure();
    } else {
      RunStaysSure(states, steps, depth, i - 1);
      StepStaysSure(states[i - 1], states[i], steps[i - 1], depth);
    }
  }

  lemma {:induction false} InitialSure()
    ensures Sure(INITIAL)
  {}

  /**
   * Between windows, once recovery and reconciliation are done, outputs and balances read as those of the processed
   * blocks, unless an error has ended a reconciling rewind since they were last rebuilt.
   */
  lemma {:induction false} RecoveredIsCurrent(states: seq<State>, steps: seq<Step>, depth: nat, i: nat)
    requires IsRun(states, steps, depth) && i < |states| && Idle(states[i]) && Now(states[i]).ready
             && !states[i].spoiled
    ensures Current(states[i].tables, states[i].chain, true)
  {
    hide IsRun, Inv, Current;
    RunKeepsInv(states, steps, depth, i);
    IdleIsRight(states[i], depth);
  }

  /** A planned window with blocks to apply and no fork left. */
  predicate NothingForked(s: State) {
    && s.control.Planned? && s.control.marker.start <= s.control.hi <= |s.control.node| && |s.chain| < s.control.hi
    && ForkHeight(s.chain, s.control.node, s.control.marker.start, s.control.hi) == s.control.hi
  }

  function PendingWindow(s: State): seq<Block>
    requires NothingForked(s)
  {
    s.control.node[|s.chain|..s.control.hi]
  }

  /** Whatever rows the reads of a planned window return, it never misses a prevout and no balance goes negative. */
  lemma {:induction false} ReadsNeverFail(states: seq<State>, steps: seq<Step>, depth: nat, i: nat, prevouts: Ledger)
    requires IsRun(states, steps, depth) && i < |states| && states[i].control.Planned? && states[i].control.marker.live
             && !states[i].spoiled
    requires NothingForked(states[i])
    requires Latest(states[i].tables.outputs, ExternalKeys(PendingWindow(states[i])), prevouts)
    ensures var r := Mutate(NO_MUTATION, Events(PendingWindow(states[i])), prevouts);
            && r.Mutated?
            && forall found :: Latest(states[i].tables.balances, r.mutation.deltas.Keys, found) ==>
                 NoneNegative(NextAmounts(found, r.mutation.deltas))
  {
    hide IsRun, LogSafe, ValidChain, HashesIdentify, FactsAre, Drained, Latest, Mutate, Current, ForkHeight,
         ExternalKeys, Events, NoneNegative, NextAmounts;
    RunKeepsInv(states, steps, depth, i);
    var s := states[i];
    var w := s.control.node[|s.chain|..s.control.hi];
    NextWindow(s, s.control.marker, s.control.node, s.control.hi);
    ReadsSuffice(s.tables, s.chain, w, prevouts);
    var deltas := Mutate(NO_MUTATION, Events(w), prevouts).mutation.deltas;
    forall found | Latest(s.tables.balances, deltas.Keys, found) ensures NoneNegative(NextAmounts(found, deltas)) {
      ReadsAdvance(s.tables, s.chain, w, prevouts, found);
    }
  }

  /** A crash at any moment leaves a marker whose rewind restores a clean prefix, whichever writes it loses. */
  lemma {:induction false} CrashIsRecoverable(states: seq<State>, steps: seq<Step>, depth: nat, i: nat, kept: nat,
      t: State)
    requires IsRun(states, steps, depth) && i < |states| && Crash(states[i], t, kept)
    ensures HasLog(t) && match Now(t).marker
              case None => FactsAre(t.tables, t.chain, t.looks) && Drained(t.flight)
              case Some(k) =>
                && k.start <= |t.chain| && HasPrefix(t.tables, t.chain[..k.start], t.looks)
                && FlightFrom(t.flight, k.start)
  {
    hide ValidChain, FactsAre, Drained, HasPrefix, FlightFrom, StartOf, IsRun, ControlSafe, Crash, Right, Healing;
    RunKeepsInv(states, steps, depth, i);
    CrashKeepsInv(states[i], t, kept, depth);
    NowSafe(t, depth);
  }
}
