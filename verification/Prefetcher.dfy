/** Ordered read-ahead: batches of heights fetched ahead of a cursor, settling in any order. */
module Prefetcher {
  import opened Chain
  import opened Integers

  type Snapshot = string

  datatype Failure = Stale | FetchFailed | NoSnapshot

  datatype Outcome = Loaded(snapshot: Snapshot) | Failed(failure: Failure)

  /** One fetch; whether its promise has settled is the flag settled. A missing snapshot is a hole in the answer. */
  class Batch {
    const start: int
    const end: int
    const generation: nat
    var snapshots: Option<seq<Option<Snapshot>>>
    var weight: real
    var settled: bool

    constructor (start: int, end: int, generation: nat)
      ensures this.start == start && this.end == end && this.generation == generation
      ensures snapshots == None && !settled
    {
      this.start, this.end, this.generation := start, end, generation;
      snapshots, weight, settled := None, 0.0, false;
    }
  }

  /** Blocks held by the batches. */
  function Span(batches: seq<Batch>): int {
    if batches == [] then 0 else
      var n := |batches| - 1;
      Span(batches[..n]) + (batches[n].end - batches[n].start + 1)
  }

  function WeightOf(snapshots: seq<Option<Snapshot>>, weigh: Snapshot -> nat): nat {
    if snapshots == [] then 0 else
      (if snapshots[0].Some? then weigh(snapshots[0].value) else 0) + WeightOf(snapshots[1..], weigh)
  }

  /** Blocks of the batches that have no answer yet. */
  function PendingBlocks(batches: seq<Batch>): int
    reads batches
  {
    if batches == [] then 0 else
      var n := |batches| - 1;
      PendingBlocks(batches[..n]) + (if batches[n].snapshots.Some? then 0 else batches[n].end - batches[n].start + 1)
  }

  /** What the blocks of the batches that have one weigh. */
  function LoadedWeight(batches: seq<Batch>, weigh: Snapshot -> nat): nat
    reads batches
  {
    if batches == [] then 0 else
      var n := |batches| - 1;
      LoadedWeight(batches[..n], weigh)
        + (if batches[n].snapshots.Some? then WeightOf(batches[n].snapshots.value, weigh) else 0)
  }

  predicate Contiguous(batches: seq<Batch>) {
    && (forall i :: 0 <= i < |batches| ==> batches[i].start <= batches[i].end)
    && (forall i :: 0 < i < |batches| ==> batches[i].start == batches[i - 1].end + 1)
  }

  /** Contiguous batches of one generation that end where the next one will start. */
  predicate Queue(batches: seq<Batch>, generation: nat, nextStart: int) {
    && Contiguous(batches) && (batches != [] ==> batches[|batches| - 1].end + 1 == nextStart)
    && forall b <- batches :: b.generation == generation
  }

  /** Contiguous batches hold every height from the first start to the last end, once. */
  lemma {:induction false} SpanTelescopes(batches: seq<Batch>)
    requires Contiguous(batches) && batches != []
    ensures Span(batches) == batches[|batches| - 1].end - batches[0].start + 1 >= 1
  {
    var n := |batches| - 1;
    if n == 0 {
      assert Span(batches[..0]) == 0;
    } else {
      SpanTelescopes(batches[..n]);
    }
  }

  lemma {:induction false} HeightHasBatch(batches: seq<Batch>, height: int)
    requires Contiguous(batches) && batches != [] && batches[0].start <= height <= batches[|batches| - 1].end
    ensures exists i :: 0 <= i < |batches| && batches[i].start <= height <= batches[i].end
  {
    var n := |batches| - 1;
    if n > 0 && height < batches[n].start {
      HeightHasBatch(batches[..n], height);
      var i :| 0 <= i < n && batches[..n][i].start <= height <= batches[..n][i].end;
      assert batches[i].start <= height <= batches[i].end;
    }
  }

  lemma {:induction false} QueueAppend(batches: seq<Batch>, b: Batch, generation: nat, nextStart: int)
    requires Queue(batches, generation, nextStart) && b.start == nextStart <= b.end && b.generation == generation
    ensures Queue(batches + [b], generation, b.end + 1)
    ensures Span(batches + [b]) == Span(batches) + (b.end - b.start + 1)
    ensures (batches + [b])[0].start == if batches == [] then nextStart else batches[0].start
  {
    assert (batches + [b])[..|batches|] == batches;
  }

  lemma {:induction false} QueueDrop(batches: seq<Batch>, n: nat, generation: nat, nextStart: int)
    requires Queue(batches, generation, nextStart) && n <= |batches|
    ensures Queue(batches[n..], generation, nextStart) && Span(batches[n..]) <= Span(batches)
  {
    if batches != [] {
      SpanTelescopes(batches);
      if n < |batches| {
        SpanTelescopes(batches[n..]);
        StartsGrow(batches, n);
      }
    }
  }

  lemma {:induction false} StartsGrow(batches: seq<Batch>, n: nat)
    requires Contiguous(batches) && n < |batches|
    ensures batches[0].start <= batches[n].start
  {
    if n > 0 {
      StartsGrow(batches, n - 1);
    }
  }

  /**
   * What is in flight is what was issued in this generation and has not settled; all of it starts below the next batch.
   */
  ghost predicate Accounts(inFlight: int, waiting: set<Batch>, issued: set<Batch>, batches: seq<Batch>, generation: nat,
      nextStart: int) {
    && inFlight == |waiting| && waiting <= issued && (forall b <- batches :: b in issued)
    && (forall b <- waiting :: b.generation == generation && b.end < nextStart)
    && (forall b <- issued :: b.generation <= generation && b.start <= b.end)
  }

  lemma {:induction false} AccountsGrow(inFlight: int, waiting: set<Batch>, issued: set<Batch>, batches: seq<Batch>,
      generation: nat, nextStart: int, b: Batch)
    requires Accounts(inFlight, waiting, issued, batches, generation, nextStart)
    requires b !in issued && b.generation == generation && nextStart <= b.start <= b.end
    ensures Accounts(inFlight + 1, waiting + {b}, issued + {b}, batches + [b], generation, b.end + 1)
  {}

  lemma {:induction false} EmptyQueue(generation: nat, nextStart: int)
    ensures Queue([], generation, nextStart) && Span([]) == 0
  {}

  lemma {:induction false} EmptySpan()
    ensures Span([]) == 0
  {}

  lemma {:induction false} LastReaches(batches: seq<Batch>, n: nat)
    requires Contiguous(batches) && n < |batches|
    ensures batches[n].end <= batches[|batches| - 1].end
    decreases |batches| - n
  {
    if n + 1 < |batches| {
      LastReaches(batches, n + 1);
    }
  }

  lemma {:induction false} Distributes(x: int, y: int, w: real)
    ensures (x + y) as real * w == x as real * w + y as real * w
  {}

  lemma {:induction false} Scales(x: int, y: int, w: real)
    requires x <= y && w >= 0.0
    ensures x as real * w <= y as real * w
  {
    assert (y - x) as real * w >= 0.0;
    Distributes(x, y - x, w);
  }

  lemma {:induction false} OneMoreBatch(loaded: real, before: int, after: int, size: int, w: real, max: real)
    requires loaded + before as real * w < max && after <= before + size && w >= 0.0
    ensures loaded + after as real * w < max + size as real * w
  {
    Scales(after, before + size, w);
    Distributes(before, size, w);
  }

  class BlockPrefetcher {
    const batchSize: int
    const concurrency: int
    const maxBufferedBlocks: int
    const maxBufferedWeight: real
    const weigh: Snapshot -> nat
    /** What the source holds at each height. */
    ghost const source: int -> Option<Snapshot>

    var averageWeight: real
    var batches: seq<Batch>
    var generation: nat
    var inFlight: int
    var limit: int
    var nextStart: int
    /** Every batch ever scheduled: its fetch settles some time, whether or not the read-ahead still holds it. */
    var issued: set<Batch>
    /** Those of this generation whose fetch has not settled. */
    ghost var waiting: set<Batch>

    ghost predicate Valid()
      reads this, issued
    {
      Queue(batches, generation, nextStart) && Bounded() && Counted() && Fetched() && averageWeight >= 0.0
    }

    ghost predicate Bounded()
      reads this
    {
      maxBufferedBlocks >= 1 ==> Span(batches) <= maxBufferedBlocks - 1 + Max(1, batchSize)
    }

    ghost predicate Counted()
      reads this
    {
      Accounts(inFlight, waiting, issued, batches, generation, nextStart)
    }

    ghost predicate Fetched()
      reads this, issued
    {
      && (forall b <- issued :: b.generation == generation && !b.settled <==> b in waiting)
      && (forall b <- issued :: b.snapshots.Some? ==>
            b.settled && Answers(b, b.snapshots.value) && b.weight == WeightOf(b.snapshots.value, weigh) as real)
    }

    /** The answer of a fetch for this batch's heights. */
    ghost predicate Answers(b: Batch, snapshots: seq<Option<Snapshot>>) {
      |snapshots| == b.end - b.start + 1 && forall k :: 0 <= k < |snapshots| ==> snapshots[k] == source(b.start + k)
    }

    /** Every fetch of this generation that has settled got its answer. */
    ghost predicate Answered()
      reads this, issued
    {
      forall b <- issued :: b.generation == generation && b.settled ==> b.snapshots.Some?
    }

    /** A consumer that awaits consecutive heights drops no batch that is still being fetched. */
    ghost predicate Orderly()
      reads this
    {
      && (forall b <- waiting :: b in batches)
      && inFlight <= Max(1, concurrency)
    }

    constructor (batchSize: int, concurrency: int, maxBufferedBlocks: int, maxBufferedWeight: real,
        weigh: Snapshot -> nat, ghost source: int -> Option<Snapshot>)
      ensures Valid() && Orderly() && batches == [] && fresh(this)
      ensures this.source == source && this.maxBufferedBlocks == maxBufferedBlocks && this.batchSize == batchSize
              && this.concurrency == concurrency
    {
      this.batchSize, this.concurrency, this.maxBufferedBlocks, this.maxBufferedWeight := batchSize, concurrency,
        maxBufferedBlocks, maxBufferedWeight;
      this.weigh, this.source := weigh, source;
      averageWeight, batches, generation, inFlight, limit, nextStart := 0.0, [], 0, 0, -1, 0;
      issued, waiting := {}, {};
    }

    function BufferedBlocks(): int
      reads this
    {
      Span(batches)
    }

    function BatchWeight(b: Batch): real
      reads this, b
    {
      if b.snapshots.Some? then b.weight else (b.end - b.start + 1) as real * averageWeight
    }

    function WeightOfAll(some: seq<Batch>): real
      reads this, some
    {
      if some == [] then 0.0 else
        var n := |some| - 1;
        WeightOfAll(some[..n]) + BatchWeight(some[n])
    }

    function BufferedWeight(): real
      reads this, batches
    {
      WeightOfAll(batches)
    }

    lemma {:induction false} WeightStep(front: real, loaded: nat, more: nat, blocks: int, b: Batch)
      requires front == loaded as real + blocks as real * averageWeight
      requires b.snapshots.Some? ==> b.weight == more as real
      requires b.snapshots.None? ==> more == 0
      ensures front + BatchWeight(b) == (loaded + more) as real
              + (blocks + if b.snapshots.Some? then 0 else b.end - b.start + 1) as real * averageWeight
    {
      if b.snapshots.None? { Distributes(blocks, b.end - b.start + 1, averageWeight); }
    }

    /** Answered batches weigh what their blocks do, the others the running average for each block. */
    lemma {:induction false} WeightSplits(some: seq<Batch>)
      requires Fetched() && forall b <- some :: b in issued
      ensures WeightOfAll(some) == LoadedWeight(some, weigh) as real + PendingBlocks(some) as real * averageWeight
    {
      hide WeightOf, Answers, BatchWeight;
      if some != [] {
        var n := |some| - 1;
        WeightSplits(some[..n]);
        WeightStep(WeightOfAll(some[..n]), LoadedWeight(some[..n], weigh),
          if some[n].snapshots.Some? then WeightOf(some[n].snapshots.value, weigh) else 0, PendingBlocks(some[..n]),
          some[n]);
      }
    }

    /** Nothing more may be read ahead: the limit is reached, or the cursor is and one of the bounds. */
    ghost predicate Full(cursor: int)
      reads this, batches
    {
      || nextStart > limit
      || (nextStart > cursor
          && (inFlight >= concurrency || Span(batches) >= maxBufferedBlocks
              || LoadedWeight(batches, weigh) as real
                 + PendingBlocks(batches) as real * averageWeight >= maxBufferedWeight))
    }

    /** The weight stays below its bound but for one batch. */
    ghost predicate WeightBounded()
      reads this, batches
    {
      LoadedWeight(batches, weigh) as real + PendingBlocks(batches) as real * averageWeight
      < maxBufferedWeight + Max(1, batchSize) as real * averageWeight
    }

    predicate Covers(height: int)
      reads this
    {
      batches != [] && batches[0].start <= height <= nextStart
    }

    predicate ShouldSchedule(cursor: int)
      reads this, batches
    {
      nextStart <= limit
      && (nextStart <= cursor || (inFlight < concurrency && BufferedBlocks() < maxBufferedBlocks
         && BufferedWeight() < maxBufferedWeight))
    }

    /** Drops all read-ahead; fetches in flight settle into the void. */
    method Reset()
      requires Valid()
      modifies this
      ensures Valid() && Orderly() && batches == [] && generation == old(generation) + 1 && issued == old(issued)
      ensures limit == old(limit) && nextStart == old(nextStart) && averageWeight == old(averageWeight) && Answered()
    {
      EmptyQueue(generation + 1, nextStart);
      generation := generation + 1;
      batches := [];
      inFlight := 0;
      waiting := {};
    }

    /** The batches that are left are all but those that end before a height. */
    ghost predicate DropsBefore(before: seq<Batch>, after: seq<Batch>, height: int) {
      exists n :: 0 <= n <= |before| && after == before[n..] && forall b <- before[..n] :: b.end < height
    }

    /** Starts over at a height the read-ahead does not reach; else drops the batches that end before it. */
    method AlignTo(height: int)
      requires Valid()
      modifies this
      ensures Valid() && issued == old(issued) && limit == old(limit) && (old(Answered()) ==> Answered())
      ensures if old(batches != [] && batches[0].start <= height <= nextStart)
              then generation == old(generation) && DropsBefore(old(batches), batches, height)
              else generation == old(generation) + 1 && batches == []
      ensures if batches == [] then nextStart == height else batches[0].start <= height <= batches[0].end
      ensures old(Orderly()) && old(forall b <- batches :: b.end < height ==> b.settled) ==> Orderly()
    {
      hide Queue, Span, Answers;
      if !Covers(height) {
        Reset();
        nextStart := height;
        EmptyQueue(generation, height);
        return;
      }
      var n := FirstReaching(height);
      QueueDrop(batches, n, generation, nextStart);
      batches := batches[n..];
    }

    /** Index of the first batch that does not end before a height within reach. */
    method FirstReaching(height: int) returns (n: nat)
      requires Queue(batches, generation, nextStart) && Covers(height)
      ensures n <= |batches| && forall b <- batches[..n] :: b.end < height
      ensures if n < |batches| then batches[n].start <= height <= batches[n].end else height == nextStart
    {
      n := 0;
      while n < |batches| && batches[n].end < height
        invariant n <= |batches| && forall b <- batches[..n] :: b.end < height
        invariant n < |batches| ==> batches[n].start <= height
      {
        n := n + 1;
      }
    }

    /** Fetches until the limit, the concurrency or a budget is reached; always reaches the cursor. */
    method Pump(cursor: int)
      requires Valid()
      requires nextStart <= cursor ==> batches == [] && nextStart == cursor
      modifies this
      ensures Valid() && generation == old(generation) && limit == old(limit) && averageWeight == old(averageWeight)
      ensures old(issued) <= issued && fresh(issued - old(issued))
      ensures old(batches) <= batches
      ensures cursor <= limit ==> nextStart > cursor
      ensures batches == [] ==> nextStart == old(nextStart)
      ensures old(batches) == [] && batches != [] ==> batches[0].start == old(nextStart)
      ensures old(Orderly()) && (old(nextStart) <= cursor ==> old(inFlight) <= 0) ==> Orderly()
      ensures Full(cursor) && forall b <- issued - old(issued) :: !b.settled
      ensures |batches| > |old(batches)| + (if old(nextStart) > cursor then 0 else 1) ==>
                WeightBounded() && inFlight <= concurrency
    {
      hide Queue, Span, Counted, Fetched, WeightOfAll, LoadedWeight, PendingBlocks;
      while ShouldSchedule(cursor)
        invariant Valid() && generation == old(generation) && limit == old(limit) && averageWeight == old(averageWeight)
        invariant old(issued) <= issued && fresh(issued - old(issued))
        invariant old(batches) <= batches && nextStart >= old(nextStart)
        invariant nextStart <= cursor ==> batches == [] && nextStart == cursor && inFlight == old(inFlight)
        invariant batches == [] ==> nextStart == old(nextStart)
        invariant old(batches) == [] && batches != [] ==> batches[0].start == old(nextStart)
        invariant old(Orderly()) && (old(nextStart) <= cursor ==> old(inFlight) <= 0) ==> Orderly()
        invariant nextStart <= cursor ==> |batches| == |old(batches)|
        invariant forall b <- issued - old(issued) :: !b.settled
        invariant |batches| > |old(batches)| + (if old(nextStart) > cursor then 0 else 1) ==>
                    WeightBounded() && inFlight <= concurrency
        decreases limit - nextStart
      {
        EmptySpan();
        Schedule();
      }
      BufferedIssued();
      WeightSplits(batches);
    }

    lemma {:induction false} BufferedIssued()
      requires Valid()
      ensures forall b <- batches :: b in issued
    {}

    method Schedule()
      requires Valid() && nextStart <= limit && (maxBufferedBlocks >= 1 ==> Span(batches) < maxBufferedBlocks)
      modifies this
      ensures Valid() && generation == old(generation) && limit == old(limit) && averageWeight == old(averageWeight)
      ensures old(nextStart) < nextStart == Min(limit + 1, old(nextStart) + Max(1, batchSize))
      ensures |batches| == |old(batches)| + 1 && old(batches) <= batches
      ensures batches[0].start == if old(batches) == [] then old(nextStart) else old(batches)[0].start
      ensures old(issued) <= issued && fresh(issued - old(issued))
      ensures inFlight == old(inFlight) + 1 && waiting == old(waiting) + {batches[|batches| - 1]}
      ensures issued == old(issued) + {batches[|batches| - 1]} && !batches[|batches| - 1].settled
      ensures old(BufferedWeight()) < maxBufferedWeight ==> WeightBounded()
    {
      hide Queue, Span, Counted, Fetched;
      var end := Min(limit, nextStart + Max(1, batchSize) - 1);
      BufferedIssued();
      WeightSplits(batches);
      ghost var loaded, pending := LoadedWeight(batches, weigh), PendingBlocks(batches);
      var batch := new Batch(nextStart, end, generation);
      Enqueue(batch);
      Weighed(loaded, pending, old(BufferedWeight()));
    }

    /** One more batch without an answer adds its blocks, and nothing that is known to weigh anything. */
    lemma {:induction false} Weighed(loaded: nat, pending: int, weight: real)
      requires batches != [] && averageWeight >= 0.0 && weight == loaded as real + pending as real * averageWeight
      requires var n, b := |batches| - 1, batches[|batches| - 1];
               LoadedWeight(batches[..n], weigh) == loaded && PendingBlocks(batches[..n]) == pending
               && b.snapshots.None? && b.end - b.start < Max(1, batchSize)
      ensures weight < maxBufferedWeight ==> WeightBounded()
    {
      if weight < maxBufferedWeight {
        OneMoreBatch(loaded as real, pending, PendingBlocks(batches), Max(1, batchSize), averageWeight,
          maxBufferedWeight);
      }
    }

    method Enqueue(batch: Batch)
      requires Valid() && batch !in issued && batch.generation == generation && !batch.settled && batch.snapshots.None?
      requires batch.start == nextStart <= batch.end && batch.end - batch.start < Max(1, batchSize)
      requires maxBufferedBlocks >= 1 ==> Span(batches) < maxBufferedBlocks
      modifies this
      ensures Valid() && generation == old(generation) && limit == old(limit) && averageWeight == old(averageWeight)
      ensures nextStart == batch.end + 1 && batches == old(batches) + [batch] && issued == old(issued) + {batch}
      ensures inFlight == old(inFlight) + 1 && waiting == old(waiting) + {batch}
      ensures batches[0].start == if old(batches) == [] then old(nextStart) else old(batches)[0].start
    {
      hide Queue, Span, Accounts;
      QueueAppend(batches, batch, generation, nextStart);
      AccountsGrow(inFlight, waiting, issued, batches, generation, nextStart, batch);
      nextStart := batch.end + 1;
      inFlight := inFlight + 1;
      batches := batches + [batch];
      issued := issued + {batch};
      waiting := waiting + {batch};
    }

    method SetLimit(limitHeight: int)
      requires Valid()
      modifies this`limit
      ensures Valid() && limit == limitHeight
    {
      limit := limitHeight;
    }

    /** The part of get before it waits: the batch holding the height, always found within the limit. */
    method Request(height: int, limitHeight: int) returns (found: Option<Batch>)
      requires Valid()
      modifies this
      ensures Valid() && limit == limitHeight
      ensures old(issued) <= issued && fresh(issued - old(issued))
      ensures generation == if old(batches != [] && batches[0].start <= height <= nextStart) then old(generation)
                            else old(generation) + 1
      ensures height <= limitHeight ==> found.Some?
      ensures found.Some? ==> Holds(found.value, height) && batches[0].end >= height
      ensures Full(height) && (old(Answered()) ==> Answered())
      ensures old(Orderly()) && old(forall b <- batches :: b.end < height ==> b.settled) ==> Orderly()
    {
      hide Span, Counted, Fetched, Queue;
      SetLimit(limitHeight);
      AlignTo(height);
      FirstHasHeights();
      NothingWaiting();
      Pump(height);
      FirstHasHeights();
      found := BatchFor(height);
    }

    /** A batch of the read-ahead, of this generation, with this height in it. */
    ghost predicate Holds(b: Batch, height: int)
      reads this
    {
      b in batches && b in issued && b.generation == generation && b.start <= height <= b.end
    }

    method BatchFor(height: int) returns (found: Option<Batch>)
      requires Valid()
      ensures found.Some? ==> Holds(found.value, height)
      ensures found.Some? <==> batches != [] && batches[0].start <= height < nextStart
    {
      hide Fetched, Span;
      if batches != [] && batches[0].start <= height < nextStart {
        HeightHasBatch(batches, height);
      }
      if i :| 0 <= i < |batches| && batches[i].start <= height <= batches[i].end {
        LastReaches(batches, i);
        StartsGrow(batches, i);
        return Some(batches[i]);
      }
      found := None;
    }

    lemma {:induction false} FirstHasHeights()
      requires Queue(batches, generation, nextStart)
      ensures batches != [] ==> batches[0].start <= batches[0].end < nextStart
    {
      if batches != [] { LastReaches(batches, 0); }
    }

    lemma {:induction false} NothingWaiting()
      requires Valid()
      ensures batches == [] && Orderly() ==> inFlight == 0
    {
      if batches == [] && Orderly() {
        assert waiting == {};
      }
    }

    /** The part of get after the wait. A batch of an earlier generation is never answered from. */
    method Collect(b: Batch, height: int) returns (outcome: Outcome)
      requires Valid() && b in issued && b.settled && b.start <= height <= b.end
      modifies this
      ensures Valid() && issued == old(issued)
      ensures outcome.Loaded? <==> b.generation == old(generation) && old(b.snapshots).Some? && source(height).Some?
      ensures outcome.Loaded? ==> source(height) == Some(outcome.snapshot) && unchanged(this)
      ensures outcome == Failed(Stale) <==> b.generation != old(generation)
      ensures outcome == Failed(Stale) ==> unchanged(this)
      ensures outcome.Failed? && outcome.failure != Stale ==> batches == [] && generation == old(generation) + 1
      ensures old(Orderly()) ==> Orderly()
    {
      if b.generation != generation {
        return Failed(Stale);
      }
      if b.snapshots.None? {
        Reset();
        return Failed(FetchFailed);
      }
      var snapshot := b.snapshots.value[height - b.start];
      if snapshot.None? {
        Reset();
        return Failed(NoSnapshot);
      }
      outcome := Loaded(snapshot.value);
    }

    /** A fetch settles, with an answer or without; one of an earlier generation leaves the read-ahead alone. */
    method Settle(b: Batch, answer: Option<seq<Option<Snapshot>>>)
      requires Valid() && b in issued && !b.settled
      requires answer.Some? && |answer.value| == b.end - b.start + 1 ==> Answers(b, answer.value)
      modifies this, b
      ensures Valid() && b.settled && generation == old(generation)
      ensures old(issued) <= issued && fresh(issued - old(issued))
      ensures b.generation != old(generation) ==> unchanged(this) && b.snapshots == old(b.snapshots)
      ensures b.generation == old(generation) ==>
                (b.snapshots.Some? <==> answer.Some? && |answer.value| == b.end - b.start + 1)
                && old(batches) <= batches
      ensures b.generation == old(generation) && b.snapshots.Some? ==>
                Full(if old(batches) != [] then old(batches)[0].start else b.start)
      ensures old(Answered()) && (b.generation == old(generation) ==> b.snapshots.Some?) ==> Answered()
      ensures old(Orderly()) ==> Orderly()
    {
      hide Queue, Span;
      b.settled := true;
      if b.generation != generation {
        return;
      }
      inFlight := inFlight - 1;
      waiting := waiting - {b};
      if answer.None? || |answer.value| != b.end - b.start + 1 {
        return;
      }
      b.snapshots := answer;
      b.weight := WeightOf(answer.value, weigh) as real;
      ObserveWeight(b.weight / (b.end - b.start + 1) as real);
      FirstHasHeights();
      Pump(if batches != [] then batches[0].start else b.start);
    }

    /** The running average moves three tenths of the way to each sample, and starts with the first one. */
    method ObserveWeight(sample: real)
      requires sample >= 0.0 && averageWeight >= 0.0
      modifies this`averageWeight
      ensures averageWeight == if old(averageWeight) == 0.0 then sample else 0.7 * old(averageWeight) + 0.3 * sample
      ensures averageWeight >= 0.0
    {
      averageWeight := if averageWeight == 0.0 then sample else averageWeight + 0.3 * (sample - averageWeight);
    }
  }

  // ---------------------------------------------------------------- a consumer of consecutive heights

  lemma {:induction false} EndsReach(batches: seq<Batch>, height: int, i: nat)
    requires Contiguous(batches) && i < |batches| && batches[0].end >= height
    ensures batches[i].end >= height && (i > 0 ==> batches[i].start > height)
  {
    if i > 0 {
      EndsReach(batches, height, i - 1);
    }
  }

  /** Only one batch of the read-ahead ends at a height that its first batch reaches. */
  lemma {:induction false} BehindNext(batches: seq<Batch>, height: int, b: Batch)
    requires Contiguous(batches) && batches != [] && batches[0].end >= height
    requires b in batches && b.start <= height <= b.end
    ensures forall x <- batches :: x.end < height + 1 ==> x == b
  {
    forall x | x in batches && x.end < height + 1 ensures x == b {
      var i :| 0 <= i < |batches| && batches[i] == x;
      var j :| 0 <= j < |batches| && batches[j] == b;
      EndsReach(batches, height, i);
      EndsReach(batches, height, j);
    }
  }

  /** The consumer has awaited everything that ends before a height. */
  ghost predicate Awaited(batches: seq<Batch>, height: int)
    reads batches
  {
    forall b <- batches :: b.end < height ==> b.settled
  }

  /** One fetch answers or fails; it answers when the source is reliable. */
  method Finish(p: BlockPrefetcher, b: Batch, read: int -> Option<Snapshot>, reliable: bool)
    requires p.Valid() && p.Orderly() && b in p.issued && !b.settled && p.source == read
    modifies p, b
    ensures p.Valid() && p.Orderly() && b.settled && p.generation == old(p.generation)
    ensures old(p.issued) <= p.issued && fresh(p.issued - old(p.issued)) && old(p.batches) <= p.batches
    ensures reliable && old(p.Answered()) ==> p.Answered()
  {
    var answer: Option<seq<Option<Snapshot>>> := None;
    var answers := *;
    if reliable || answers {
      answer := Some(seq(b.end - b.start + 1, k requires 0 <= k <= b.end - b.start => read(b.start + k)));
    }
    p.Settle(b, answer);
  }

  /** Any number of fetches settle, of this generation or of an older one, in any order. */
  method SettleSome(p: BlockPrefetcher, b: Batch, read: int -> Option<Snapshot>, reliable: bool)
    requires p.Valid() && p.Orderly() && b in p.batches && b in p.issued && p.source == read
    modifies p, p.issued
    ensures p.Valid() && p.Orderly() && b in p.batches && b in p.issued && p.generation == old(p.generation)
    ensures old(p.issued) <= p.issued && fresh(p.issued - old(p.issued)) && old(p.batches) <= p.batches
    ensures old(b.settled) ==> b.settled
    ensures reliable && old(p.Answered()) ==> p.Answered()
  {
    hide Queue, Span, Accounts;
    var count: nat :| count >= 0;
    for n := 0 to count
      invariant p.Valid() && p.Orderly() && b in p.batches && b in p.issued && p.generation == old(p.generation)
      invariant old(p.issued) <= p.issued && fresh(p.issued - old(p.issued)) && old(p.batches) <= p.batches
      invariant old(b.settled) ==> b.settled
      invariant reliable && old(p.Answered()) ==> p.Answered()
    {
      if next :| next in p.issued && !next.settled {
        Finish(p, next, read, reliable);
      }
    }
  }

  /** Waits for a batch; other fetches settle before it, and after it before the consumer goes on. */
  method Await(p: BlockPrefetcher, b: Batch, read: int -> Option<Snapshot>, reliable: bool)
    requires p.Valid() && p.Orderly() && b in p.batches && b in p.issued && p.source == read
    modifies p, p.issued
    ensures p.Valid() && p.Orderly() && b.settled && b in p.batches && b in p.issued
            && p.generation == old(p.generation)
    ensures old(p.issued) <= p.issued && fresh(p.issued - old(p.issued)) && old(p.batches) <= p.batches
    ensures reliable && old(p.Answered()) ==> p.Answered()
  {
    hide Queue, Span, Accounts;
    SettleSome(p, b, read, reliable);
    if !b.settled {
      Finish(p, b, read, reliable);
    }
    SettleSome(p, b, read, reliable);
  }

  /** Reads the next height after everything below it has been awaited. */
  method ReadNext(p: BlockPrefetcher, height: int, limit: int, read: int -> Option<Snapshot>, reliable: bool)
    returns (outcome: Outcome)
    requires p.Valid() && p.Orderly() && p.source == read && height <= limit && Awaited(p.batches, height)
    modifies p, p.issued
    ensures p.Valid() && p.Orderly() && old(p.issued) <= p.issued && fresh(p.issued - old(p.issued))
    ensures outcome.Loaded? ==> read(height) == Some(outcome.snapshot) && Awaited(p.batches, height + 1)
    ensures outcome != Failed(Stale)
    ensures reliable && old(p.Answered()) && read(height).Some? ==> outcome.Loaded? && p.Answered()
  {
    hide Accounts, Span;
    var found := p.Request(height, limit);
    var b := found.value;
    Await(p, b, read, reliable);
    BehindNext(p.batches, height, b);
    outcome := p.Collect(b, height);
  }

  /**
   * Reading a window height by height, while fetches settle in any order and some fail: what is read is what
   * the source holds, and never more fetches are in flight than allowed. When every fetch answers and the source holds
   * every height, the whole window is read.
   */
  method ReadWindow(p: BlockPrefetcher, first: int, last: int, limit: int, read: int -> Option<Snapshot>,
      reliable: bool)
    returns (snapshots: seq<Snapshot>, failure: Option<Failure>)
    requires p.Valid() && p.Orderly() && p.source == read && first <= last <= limit && Awaited(p.batches, first)
    modifies p, p.issued
    ensures p.Valid() && p.Orderly()
    ensures forall k :: 0 <= k < |snapshots| ==> read(first + k) == Some(snapshots[k])
    ensures failure.None? ==> |snapshots| == last - first + 1
    ensures reliable && old(p.Answered()) && (forall h :: first <= h <= last ==> read(h).Some?) ==> failure.None?
  {
    hide Queue, Accounts, Span, Awaited;
    snapshots := [];
    for height := first to last + 1
      invariant p.Valid() && p.Orderly() && old(p.issued) <= p.issued && fresh(p.issued - old(p.issued))
      invariant Awaited(p.batches, height)
      invariant |snapshots| == height - first
      invariant reliable && old(p.Answered()) && (forall h :: first <= h <= last ==> read(h).Some?) ==> p.Answered()
      invariant forall k :: 0 <= k < |snapshots| ==> read(first + k) == Some(snapshots[k])
    {
      var outcome := ReadNext(p, height, limit, read, reliable);
      if outcome.Failed? {
        return snapshots, Some(outcome.failure);
      }
      snapshots := snapshots + [outcome.snapshot];
    }
    failure := None;
  }
}
