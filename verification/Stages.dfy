/** The stages of the indexer: sync, process, and online, with the edge back from process to sync. */
module Stages {
  import opened Integers
  import opened Recovery

  datatype Stage = SyncBackfill | ProcessBackfill | Online

  /** Every setting is a positive number. */
  datatype Settings = Settings(
    syncWindow: int, backfillBlocks: int, processWindow: int, reprocessDepth: nat,
    syncCompleteDistance: int, onlineTipDistance: int)

  predicate ValidSettings(c: Settings) {
    && c.syncWindow > 0 && c.backfillBlocks > 0 && c.processWindow > 0 && c.reprocessDepth > 0
    && c.syncCompleteDistance > 0 && c.onlineTipDistance > 0
  }

  /** Heights of a planned window; empty when the first is above the last. */
  datatype Window = Window(first: int, last: int)

  predicate NonEmpty(w: Window) {
    0 <= w.first <= w.last
  }

  predicate IsEmpty(w: Window) {
    w.first > w.last
  }

  /** A window starts right above one tail and ends at another. */
  predicate Leads(w: Window, from: int, to: int) {
    w.first == from + 1 && w.last == to
  }

  /** A window covers everything above one tail, reaches back some blocks below its end, and ends at the other tail. */
  predicate Reaches(w: Window, from: int, back: int, depth: nat, to: int) {
    && 0 <= w.first <= from + 1 && w.first <= Max(0, back - depth + 1) && w.last == to
    && (w.first == from + 1 || w.first == Max(0, back - depth + 1))
  }

  /** Some window of these holds the height. */
  ghost predicate Holds(windows: seq<Window>, h: int) {
    exists w <- windows :: w.first <= h <= w.last
  }

  /** Every height above one tail and up to another is in one of the windows. */
  ghost predicate Cover(windows: seq<Window>, from: int, to: int) {
    forall h :: from < h <= to ==> Holds(windows, h)
  }

  lemma {:induction false} CoverMore(windows: seq<Window>, w: Window, from: int, to: int, next: int)
    requires Cover(windows, from, to) && (next > to ==> w.first <= to + 1 && w.last == next)
    ensures Cover(windows + [w], from, next)
  {
    forall h | from < h <= next ensures Holds(windows + [w], h) {
      if h <= to {
        assert Holds(windows, h);
        var x :| x in windows && x.first <= h <= x.last;
        assert x in windows + [w];
      } else {
        assert w in windows + [w];
      }
    }
  }

  // ---------------------------------------------------------------- where the indexer is, and one cycle

  datatype Point = Point(stage: Stage, syncTail: int, processTail: int, onlineTip: int)

  predicate Ordered(p: Point, latest: nat) {
    -1 <= p.processTail <= p.syncTail <= latest
  }

  predicate AtRest(p: Point, latest: nat) {
    p == Point(Online, latest, latest, latest)
  }

  predicate SyncComplete(c: Settings, latest: nat, p: Point) {
    p.syncTail >= 0 && p.syncTail >= latest - c.syncCompleteDistance
  }

  predicate NearTip(c: Settings, latest: nat, p: Point) {
    p.processTail >= latest - c.onlineTipDistance
  }

  /** Where one cycle may lead: how much of a window is processed, and whether a materialization resumes, is open. */
  predicate Moves(c: Settings, latest: nat, p: Point, q: Point) {
    match p.stage
    case SyncBackfill =>
      q == if SyncComplete(c, latest, p) then p.(stage := ProcessBackfill, onlineTip := latest)
           else p.(syncTail := Min(latest, p.syncTail + c.syncWindow), onlineTip := latest)
    case ProcessBackfill =>
      if p.processTail < p.syncTail then
        && p.processTail < q.processTail <= Min(p.syncTail, p.processTail + c.backfillBlocks)
        && q == p.(processTail := q.processTail, onlineTip := latest)
      else
        && q == p.(stage := q.stage, onlineTip := latest)
        && (q.stage == Online || (q.stage == SyncBackfill && !NearTip(c, latest, p)))
    case Online =>
      var synced := Min(latest, p.syncTail + c.syncWindow);
      if p.syncTail < latest || p.onlineTip != latest then
        q == Point(Online, synced, Min(synced, p.processTail + c.processWindow), latest)
      else if p.processTail < p.syncTail then
        q == p.(processTail := Min(p.syncTail, p.processTail + c.processWindow), onlineTip := latest)
      else
        q == p
  }

  /** Syncing alone never goes backwards; between stages the order says which move is still to come. */
  function Rank(c: Settings, latest: nat, p: Point): nat {
    if p.stage == Online then (if p.onlineTip == latest then 0 else 1)
    else if p.stage == ProcessBackfill then 4
    else if SyncComplete(c, latest, p) then 5 else 3
  }

  /** Syncing stops no further from the tip than going online requires, or every tail is that close. */
  predicate Settles(c: Settings, latest: nat) {
    c.syncCompleteDistance <= c.onlineTipDistance || latest <= c.onlineTipDistance
  }

  /** Every cycle before the rest makes progress: in the sync tail, the process tail, or the order of the stages. */
  lemma {:induction false} MoveProgresses(c: Settings, latest: nat, p: Point, q: Point)
    requires ValidSettings(c) && Ordered(p, latest) && !AtRest(p, latest) && Settles(c, latest)
             && Moves(c, latest, p, q)
    ensures Ordered(q, latest) && q.syncTail >= p.syncTail && q.processTail >= p.processTail
    ensures || q.syncTail > p.syncTail
            || (q.syncTail == p.syncTail && q.processTail > p.processTail)
            || (q.syncTail == p.syncTail && q.processTail == p.processTail && Rank(c, latest, q) < Rank(c, latest, p))
  {}

  // ---------------------------------------------------------------- exactly when every run comes to rest

  ghost predicate IsRun(c: Settings, latest: nat, run: nat -> Point) {
    forall n: nat :: AtRest(run(n), latest) || Moves(c, latest, run(n), run(n + 1))
  }

  ghost predicate ComesToRest(latest: nat, run: nat -> Point) {
    exists n: nat :: AtRest(run(n), latest)
  }

  ghost predicate AlwaysComesToRest(c: Settings, latest: nat) {
    forall run: nat -> Point :: IsRun(c, latest, run) && Ordered(run(0), latest) ==> ComesToRest(latest, run)
  }

  lemma {:induction false} RunComesToRest(c: Settings, latest: nat, run: nat -> Point, n: nat)
    requires ValidSettings(c) && Settles(c, latest) && IsRun(c, latest, run) && Ordered(run(n), latest)
    ensures ComesToRest(latest, run)
    decreases latest - run(n).syncTail, latest - run(n).processTail, Rank(c, latest, run(n))
  {
    if !AtRest(run(n), latest) {
      MoveProgresses(c, latest, run(n), run(n + 1));
      RunComesToRest(c, latest, run, n + 1);
    }
  }

  /** Processed up to where syncing stopped, too far from the tip to go online. */
  function Stuck(c: Settings, latest: nat): Point {
    var tail := Max(0, latest - c.syncCompleteDistance);
    Point(ProcessBackfill, tail, tail, latest)
  }

  lemma {:induction false} StuckMoves(c: Settings, latest: nat)
    requires ValidSettings(c) && !Settles(c, latest)
    ensures var p, q := Stuck(c, latest), Stuck(c, latest).(stage := SyncBackfill);
            Ordered(p, latest) && Moves(c, latest, p, q) && Moves(c, latest, q, p)
  {}

  /**
   * With a fixed tip and no failures, every run from every state comes to rest online with everything synced and
   * processed exactly when syncing stops close enough to the tip, or the tip itself is low enough. Otherwise one
   * run goes back and forth between two stages for ever.
   */
  lemma {:induction false} RestsExactlyWhenSettled(c: Settings, latest: nat)
    requires ValidSettings(c)
    ensures AlwaysComesToRest(c, latest) <==> Settles(c, latest)
  {
    if Settles(c, latest) {
      forall run: nat -> Point | IsRun(c, latest, run) && Ordered(run(0), latest) ensures ComesToRest(latest, run) {
        RunComesToRest(c, latest, run, 0);
      }
    } else {
      StuckMoves(c, latest);
      var p, q := Stuck(c, latest), Stuck(c, latest).(stage := SyncBackfill);
      var run := (n: nat) => if n % 2 == 0 then p else q;
      assert IsRun(c, latest, run) && Ordered(run(0), latest) && !ComesToRest(latest, run);
    }
  }

  // ---------------------------------------------------------------- the indexer

  class StageMachine {
    const settings: Settings
    /** The node's tip, fixed. */
    const latest: nat
    var stage: Stage
    var syncTail: int
    var processTail: int
    var onlineTip: int

    function Here(): Point
      reads this
    {
      Point(stage, syncTail, processTail, onlineTip)
    }

    predicate Valid()
      reads this
    {
      ValidSettings(settings) && Ordered(Here(), latest)
    }

    constructor (settings: Settings, latest: nat, stage: Stage, syncTail: int, processTail: int, onlineTip: int)
      requires ValidSettings(settings) && -1 <= processTail <= syncTail <= latest
      ensures Valid() && this.settings == settings && this.latest == latest
      ensures Here() == Point(stage, syncTail, processTail, onlineTip)
    {
      this.settings, this.latest := settings, latest;
      this.stage, this.syncTail, this.processTail, this.onlineTip := stage, syncTail, processTail, onlineTip;
    }

    /** syncBackfill: promote, or sync a window of raw blocks. */
    method RunSync() returns (window: Window)
      requires Valid() && stage == SyncBackfill
      modifies this
      ensures Valid() && Moves(settings, latest, old(Here()), Here())
      ensures if old(SyncComplete(settings, latest, Here())) then stage == ProcessBackfill
              else stage == SyncBackfill && syncTail > old(syncTail) && NonEmpty(window)
      ensures if syncTail > old(syncTail) then Leads(window, old(syncTail), syncTail) else IsEmpty(window)
      ensures processTail == old(processTail)
    {
      if SyncComplete(settings, latest, Here()) {
        stage, onlineTip := ProcessBackfill, latest;
        return Window(0, -1);
      }
      var end := Min(latest, syncTail + settings.syncWindow);
      window := Window(syncTail + 1, end);
      syncTail, onlineTip := end, latest;
    }

    /**
     * Where backfill may read ahead to: the node is trusted only below the reprocess depth, storage up to the sync
     * tail.
     */
    function ReadAheadLimit(fromNode: bool): int
      reads this
    {
      if fromNode then Min(syncTail, latest - settings.reprocessDepth) else syncTail
    }

    /**
     * processBackfill: process a window, whose size depends on the rows found and the time taken, or change
     * stage. A materialization already started for this tail is finished first.
     */
    method RunProcess(auto: bool, resumes: bool) returns (window: Window)
      requires Valid() && stage == ProcessBackfill
      modifies this
      ensures Valid() && Moves(settings, latest, old(Here()), Here())
      ensures if old(processTail) < syncTail then stage == ProcessBackfill && processTail > old(processTail)
              && NonEmpty(window)
              else stage == if old(NearTip(settings, latest, Here())) || resumes then Online else SyncBackfill
      ensures if processTail > old(processTail) then Leads(window, old(processTail), processTail) else IsEmpty(window)
      ensures auto && old(processTail) + 1 <= latest - settings.reprocessDepth ==>
                window.last <= latest - settings.reprocessDepth
      ensures syncTail == old(syncTail)
    {
      if processTail >= syncTail {
        stage := if NearTip(settings, latest, Here()) || resumes then Online else SyncBackfill;
        onlineTip := latest;
        return Window(0, -1);
      }
      var firstHeight := processTail + 1;
      var fromNode := auto && firstHeight <= latest - settings.reprocessDepth;
      var lastHeight := Min(ReadAheadLimit(fromNode), processTail + settings.backfillBlocks);
      var filled :| firstHeight <= filled <= lastHeight;
      window := Window(firstHeight, filled);
      processTail, onlineTip := filled, latest;
    }

    /** online: refresh and extend the raw blocks, then process from the reprocess window up. */
    method RunOnline() returns (synced: Window, processed: Window)
      requires Valid() && stage == Online && !AtRest(Here(), latest)
      modifies this
      ensures Valid() && Moves(settings, latest, old(Here()), Here())
      ensures NonEmpty(processed)
              && Reaches(processed, old(processTail), Min(old(processTail), syncTail), settings.reprocessDepth,
                 processTail)
      ensures if old(syncTail) < latest || old(onlineTip) != latest
              then NonEmpty(synced) && Reaches(synced, old(syncTail), syncTail, settings.reprocessDepth, syncTail)
              else IsEmpty(synced) && syncTail == old(syncTail)
    {
      synced := Window(0, -1);
      var syncEnd := Min(latest, syncTail + settings.syncWindow);
      var refresh := syncTail < latest || onlineTip != latest;
      var didSync := syncTail < syncEnd || refresh;
      if didSync {
        synced := Window(Max(0, Min(syncTail + 1, Max(0, syncEnd - settings.reprocessDepth + 1))), syncEnd);
        syncTail, onlineTip := syncEnd, latest;
      }
      var target := Min(syncTail, latest);
      processed := Window(OnlineWindowStart(processTail, target, settings.reprocessDepth),
                          Min(target, processTail + settings.processWindow));
      if processTail < target || didSync {
        processTail, onlineTip := processed.last, latest;
      }
    }

    /** One cycle of the loop, in whatever stage it is: what it synced and processed leads from tail to tail. */
    method RunCycle(auto: bool, resumes: bool) returns (synced: Window, processed: Window)
      requires Valid() && !AtRest(Here(), latest)
      modifies this
      ensures Valid() && Moves(settings, latest, old(Here()), Here())
      ensures old(stage) == ProcessBackfill && old(processTail) >= old(syncTail) ==>
                stage == if old(NearTip(settings, latest, Here())) || resumes then Online else SyncBackfill
      ensures old(stage) == ProcessBackfill && auto && old(processTail) + 1 <= latest - settings.reprocessDepth ==>
                processed.last <= latest - settings.reprocessDepth
      ensures syncTail > old(syncTail) ==> synced.first <= old(syncTail) + 1 && synced.last == syncTail
      ensures processTail > old(processTail) ==>
              processed.first <= old(processTail) + 1 && processed.last == processTail
    {
      synced, processed := Window(0, -1), Window(0, -1);
      match stage
      case SyncBackfill => synced := RunSync();
      case ProcessBackfill => processed := RunProcess(auto, resumes);
      case Online => synced, processed := RunOnline();
    }

    /**
     * Cycle after cycle until everything is synced and processed, whatever the sizes of the windows: every height
     * above the first tails and up to the tip was in some window of each kind.
     */
    method RunToRest() returns (ghost synced: seq<Window>, ghost processed: seq<Window>)
      requires Valid() && Settles(settings, latest)
      modifies this
      ensures Valid() && AtRest(Here(), latest)
      ensures Cover(synced, old(syncTail), latest) && Cover(processed, old(processTail), latest)
    {
      synced, processed := [], [];
      while !AtRest(Here(), latest)
        invariant Valid()
        invariant Cover(synced, old(syncTail), syncTail) && Cover(processed, old(processTail), processTail)
        decreases latest - syncTail, latest - processTail, Rank(settings, latest, Here())
      {
        hide Cover;
        var auto, resumes := *, *;
        ghost var before := Here();
        var s, p := RunCycle(auto, resumes);
        MoveProgresses(settings, latest, before, Here());
        CoverMore(synced, s, old(syncTail), before.syncTail, syncTail);
        CoverMore(processed, p, old(processTail), before.processTail, processTail);
        synced, processed := synced + [s], processed + [p];
      }
    }

    /** Two cycles that lead to another stage and back, when the settings or the tip allow it. */
    method GoesBackAndForth() returns (between: Point)
      requires Valid() && !Settles(settings, latest) && Here() == Stuck(settings, latest)
      modifies this
      ensures between == old(Here()).(stage := SyncBackfill) && Here() == old(Here())
      ensures Moves(settings, latest, old(Here()), between) && Moves(settings, latest, between, Here())
    {
      var _ := RunProcess(false, false);
      between := Here();
      var _ := RunSync();
    }
  }

  // ---------------------------------------------------------------- the reprocess window

  /**
   * The online window starts at or below the first unprocessed height and above the finalized tail, and it is
   * never empty while blocks are left to process or the depth is positive.
   */
  lemma {:induction false} OnlineWindowFits(processTail: int, target: int, depth: nat, window: int)
    requires -1 <= processTail <= target && 0 <= target && window > 0
    ensures var start, end := OnlineWindowStart(processTail, target, depth), Min(target, processTail + window);
            && start <= processTail + 1
            && start > Max(-1, processTail - depth)
            && (start <= end <==> processTail < target || depth > 0)
  {}
}
