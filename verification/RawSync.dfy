/** Raw block sync: rounds of concurrent batches, retries, and checkpoints that never overclaim. */
module RawSync {
  import opened Chain
  import opened Integers

  /** The nearest number from one to the maximum; one when the maximum allows none. */
  function Clamp(value: int, max: int): (r: int)
    ensures if max < 1 || value < 1 then r == 1 else if value > max then r == max else r == value
  {
    Max(1, Min(max, value))
  }

  /** Batches at once: one more after a streak of successes, half as many after a failure. */
  class ConcurrencyController {
    const max: int
    const rampUpAfter: nat
    var current: int
    var streak: nat

    /** Within 1..max whatever the outcomes were; one at a time when the maximum allows none. */
    predicate Valid()
      reads this
    {
      1 <= current && (max >= 1 ==> current <= max) && (max < 1 ==> current == 1)
    }

    constructor (max: int, rampUpAfter: nat, initial: int)
      ensures Valid() && this.max == max && this.rampUpAfter == rampUpAfter && current == Clamp(initial, max)
              && streak == 0
    {
      this.max, this.rampUpAfter, current, streak := max, rampUpAfter, Clamp(initial, max), 0;
    }

    method RecordSuccess()
      requires Valid()
      modifies this
      ensures Valid()
      ensures if old(streak) + 1 >= rampUpAfter
              then streak == 0 && current == (if old(current) < max then old(current) + 1 else old(current))
              else streak == old(streak) + 1 && current == old(current)
    {
      streak := streak + 1;
      if streak >= rampUpAfter {
        streak := 0;
        current := Clamp(current + 1, max);
      }
    }

    method RecordFailure()
      requires Valid()
      modifies this
      ensures Valid() && streak == 0 && current == if old(current) == 1 then 1 else old(current) / 2
    {
      streak := 0;
      current := Clamp(current / 2, max);
    }
  }

  // ---------------------------------------------------------------- the contiguous frontier

  function Members(heights: seq<int>): set<int> {
    set h | h in heights
  }

  /** The highest height such that every height above the base and up to it has been completed. */
  class ContiguousFrontier {
    var completed: set<int>
    var current: int
    var advanced: bool
    ghost const base: int
    ghost var marked: set<int>

    ghost predicate Tracks()
      reads this
    {
      && base <= current
      && (forall h :: base < h <= current ==> h in marked)
      && (forall h :: h > current ==> (h in completed <==> h in marked))
    }

    ghost predicate Valid()
      reads this
    {
      Tracks() && current + 1 !in marked
    }

    constructor (start: int)
      ensures Valid() && current == base == start && !advanced && marked == {}
    {
      current, base, completed, advanced, marked := start, start, {}, false, {};
    }

    method Add(heights: seq<int>)
      modifies this`completed
      ensures completed == old(completed) + Members(heights)
    {
      for i := 0 to |heights|
        invariant completed == old(completed) + Members(heights[..i])
      {
        completed := completed + {heights[i]};
        assert heights[..i + 1] == heights[..i] + [heights[i]];
      }
      assert heights[..|heights|] == heights;
    }

    method Advance()
      requires Tracks()
      modifies this`completed, this`current, this`advanced
      ensures Valid() && current >= old(current) && advanced == (old(advanced) || current > old(current))
    {
      while current + 1 in completed
        invariant Tracks() && old(current) <= current
        invariant advanced == (old(advanced) || current > old(current))
        decreases |completed|
      {
        current := current + 1;
        completed := completed - {current};
        advanced := true;
      }
    }

    method MarkCompleted(heights: seq<int>)
      requires Valid()
      modifies this
      ensures Valid() && marked == old(marked) + Members(heights)
      ensures current >= old(current) && advanced == (old(advanced) || current > old(current))
    {
      Add(heights);
      marked := marked + Members(heights);
      Advance();
    }

    method ConsumeAdvance() returns (was: bool)
      requires Valid()
      modifies this`advanced
      ensures Valid() && was == old(advanced) && !advanced
    {
      was := advanced;
      advanced := false;
    }
  }

  // ---------------------------------------------------------------- batches

  function Flatten(chunks: seq<seq<int>>): seq<int> {
    if chunks == [] then [] else Flatten(chunks[..|chunks| - 1]) + chunks[|chunks| - 1]
  }

  /** Slices of the given size; the last one may be shorter. */
  predicate Sliced(chunks: seq<seq<int>>, size: int) {
    && (forall c <- chunks :: 0 < |c| <= Max(1, size))
    && forall i :: 0 <= i < |chunks| - 1 ==> |chunks[i]| == Max(1, size)
  }

  /** Slices that together are the whole. */
  method Chunk(values: seq<int>, size: int) returns (chunks: seq<seq<int>>)
    ensures Flatten(chunks) == values && Sliced(chunks, size)
  {
    var chunkSize := Max(1, size);
    chunks := [];
    var index := 0;
    while index < |values|
      invariant 0 <= index
      invariant Flatten(chunks) == values[..Min(index, |values|)]
      invariant Sliced(chunks, size) && (index <= |values| ==> forall c <- chunks :: |c| == chunkSize)
    {
      var end := Min(index + chunkSize, |values|);
      var next := chunks + [values[index..end]];
      assert next[..|next| - 1] == chunks;
      assert values[..index] + values[index..end] == values[..end];
      chunks := next;
      index := index + chunkSize;
    }
    assert values[..|values|] == values;
  }

  function InsertSorted(sorted: seq<int>, h: int): seq<int> {
    if sorted == [] || h <= sorted[0] then [h] + sorted else [sorted[0]] + InsertSorted(sorted[1..], h)
  }

  function Sorted(heights: seq<int>): seq<int> {
    if heights == [] then [] else InsertSorted(Sorted(heights[1..]), heights[0])
  }

  predicate Ascending(heights: seq<int>) {
    forall i, j :: 0 <= i < j < |heights| ==> heights[i] <= heights[j]
  }

  lemma {:induction false} MembersCons(h: int, heights: seq<int>)
    ensures Members([h] + heights) == {h} + Members(heights)
  {}

  lemma {:induction false} InsertAscends(sorted: seq<int>, h: int)
    requires Ascending(sorted)
    ensures Ascending(InsertSorted(sorted, h))
    ensures Members(InsertSorted(sorted, h)) == Members(sorted) + {h}
  {
    if sorted != [] && h > sorted[0] {
      var rest := InsertSorted(sorted[1..], h);
      InsertAscends(sorted[1..], h);
      forall j | 0 <= j < |rest| ensures sorted[0] <= rest[j] { assert rest[j] in Members(rest); }
      MembersCons(sorted[0], rest);
      MembersCons(sorted[0], sorted[1..]);
      assert sorted == [sorted[0]] + sorted[1..];
    } else {
      MembersCons(h, sorted);
    }
  }

  lemma {:induction false} SortedAscends(heights: seq<int>)
    ensures Ascending(Sorted(heights)) && Members(Sorted(heights)) == Members(heights)
  {
    if heights != [] {
      SortedAscends(heights[1..]);
      InsertAscends(Sorted(heights[1..]), heights[0]);
      MembersCons(heights[0], heights[1..]);
      assert heights == [heights[0]] + heights[1..];
    }
  }

  lemma {:induction false} FlattenMembers(chunks: seq<seq<int>>, n: nat)
    requires n <= |chunks|
    ensures forall h :: h in Flatten(chunks[..n]) <==> exists k :: 0 <= k < n && h in chunks[k]
  {
    if n > 0 {
      FlattenMembers(chunks, n - 1);
      assert chunks[..n][..n - 1] == chunks[..n - 1];
    }
  }

  // ---------------------------------------------------------------- syncing

  /** A frontier may be reported once every lower height of the request is in raw storage. */
  ghost predicate Earned(frontier: int, heights: seq<int>, stored: set<int>) {
    forall h <- heights :: h <= frontier ==> h in stored
  }

  /** A batch of a round: the attempt it is at, and how it ended. */
  datatype Task = Task(batch: seq<int>, attempt: nat, ok: Option<bool>)

  function AttemptsLeft(task: Task, retryAttempts: int): nat {
    if task.ok.Some? then 0 else 1 + Max(0, retryAttempts - task.attempt)
  }

  function AllAttempts(tasks: seq<Task>, retryAttempts: int): nat {
    if tasks == [] then 0 else AttemptsLeft(tasks[0], retryAttempts) + AllAttempts(tasks[1..], retryAttempts)
  }

  lemma {:induction false} FewerAttempts(tasks: seq<Task>, k: nat, next: Task, retryAttempts: int)
    requires k < |tasks| && AttemptsLeft(next, retryAttempts) < AttemptsLeft(tasks[k], retryAttempts)
    ensures AllAttempts(tasks[k := next], retryAttempts) < AllAttempts(tasks, retryAttempts)
  {
    if k == 0 {
      assert tasks[0 := next][1..] == tasks[1..];
    } else {
      FewerAttempts(tasks[1..], k - 1, next, retryAttempts);
      assert tasks[k := next][1..] == tasks[1..][k - 1 := next];
    }
  }

  /** Every report was earned by what raw storage held at that moment, and reports only go up. */
  ghost predicate EarnedInTime(reported: seq<int>, storedAt: seq<set<int>>, heights: seq<int>, stored: set<int>) {
    && |storedAt| == |reported|
    && (forall i :: 0 <= i < |reported| ==>
       Earned(reported[i], heights, storedAt[i]) && storedAt[i] <= stored && reported[i] in Members(heights))
    && (forall i, j :: 0 <= i < j < |reported| ==> reported[i] < reported[j] && storedAt[i] <= storedAt[j])
  }

  /** The highest height with everything above the base and up to it among some heights. */
  ghost predicate FrontierOf(base: int, done: set<int>, frontier: int) {
    base <= frontier && frontier + 1 !in done && forall h :: base < h <= frontier ==> h in done
  }

  /** The batches of a request, how many of them were done after each round, and the frontier then. */
  datatype Rounds = Rounds(batches: seq<seq<int>>, taken: seq<nat>, frontiers: seq<int>)

  function Base(heights: seq<int>): int {
    if Sorted(heights) == [] then -1 else Sorted(heights)[0] - 1
  }

  function Before(taken: seq<nat>, i: nat): nat
    requires i <= |taken|
  {
    if i == 0 then 0 else taken[i - 1]
  }

  /** Rounds of consecutive batches, never more than are allowed at once. */
  ghost predicate RoundsOf(r: Rounds, heights: seq<int>, batchSize: int, most: int) {
    && |r.taken| == |r.frontiers| && Flatten(r.batches) == Sorted(heights) && Sliced(r.batches, batchSize)
    && forall i :: 0 <= i < |r.taken| ==>
         RoundIs(r.batches, Before(r.taken, i), r.taken[i], r.frontiers[i], Base(heights), most)
  }

  ghost predicate RoundIs(batches: seq<seq<int>>, from: nat, to: nat, frontier: int, base: int, most: int) {
    from < to <= Min(|batches|, from + Max(1, most)) && FrontierOf(base, Members(Flatten(batches[..to])), frontier)
  }

  /** The frontiers that are above the one before. */
  function Advances(base: int, frontiers: seq<int>): seq<int> {
    if frontiers == [] then [] else
      var n := |frontiers| - 1;
      Advances(base, frontiers[..n])
      + (if frontiers[n] > (if n == 0 then base else frontiers[n - 1]) then [frontiers[n]] else [])
  }

  lemma {:induction false} OneMoreRound(r: Rounds, heights: seq<int>, batchSize: int, most: int, next: nat,
      frontier: int)
    requires RoundsOf(r, heights, batchSize, most)
    requires RoundIs(r.batches, Before(r.taken, |r.taken|), next, frontier, Base(heights), most)
    ensures RoundsOf(r.(taken := r.taken + [next], frontiers := r.frontiers + [frontier]), heights, batchSize, most)
  {
    hide RoundIs, Flatten, Sorted, Sliced, Base;
    var taken, frontiers := r.taken + [next], r.frontiers + [frontier];
    forall i | 0 <= i < |taken|
      ensures RoundIs(r.batches, Before(taken, i), taken[i], frontiers[i], Base(heights), most)
    {
      assert Before(taken, i) == Before(r.taken, i);
    }
  }

  lemma {:induction false} OneMoreAdvance(base: int, frontiers: seq<int>, frontier: int)
    ensures Advances(base, frontiers + [frontier])
            == Advances(base, frontiers)
               + (if frontier > (if frontiers == [] then base else frontiers[|frontiers| - 1]) then [frontier] else [])
  {
    assert (frontiers + [frontier])[..|frontiers|] == frontiers;
  }

  class RawBlockSyncer {
    const controller: ConcurrencyController
    const batchSize: int
    const retryAttempts: int
    /** Heights whose snapshots are durable in raw storage. */
    var stored: set<int>
    /** Whether the node answers every request and every write succeeds; else any attempt may fail. */
    var reliable: bool

    ghost predicate Valid()
      reads this, controller
    {
      controller.Valid()
    }

    constructor (concurrency: int, batchSize: int, retryAttempts: int)
      ensures Valid() && stored == {} && fresh(controller) && !reliable
      ensures this.batchSize == batchSize && this.retryAttempts == retryAttempts
      ensures controller.max == concurrency && controller.current == Clamp(concurrency, concurrency)
              && controller.rampUpAfter == 4 && controller.streak == 0
    {
      controller := new ConcurrencyController(concurrency, 4, concurrency);
      this.batchSize, this.retryAttempts, stored, reliable := batchSize, retryAttempts, {}, false;
    }

    /** The heights of a batch whose block was decoded at that height and written; none when the answer is too short. */
    function Kept(batch: seq<int>, decoded: seq<int>, durable: set<int>): set<int> {
      if |decoded| != |batch| then {}
      else set i | 0 <= i < |batch| && decoded[i] == batch[i] && batch[i] in durable :: batch[i]
    }

    /**
     * One attempt: the node answers with blocks of these heights, and writes succeed for some. Just the blocks that
     * were decoded at their own heights and written are stored.
     */
    method SyncBatch(batch: seq<int>, decoded: seq<int>, durable: set<int>) returns (ok: bool)
      modifies this`stored
      ensures stored == old(stored) + Kept(batch, decoded, durable)
      ensures ok <==> decoded == batch && Members(batch) <= durable
      ensures ok ==> forall h <- batch :: h in stored
    {
      if |decoded| != |batch| {
        return false;
      }
      ok := true;
      for i := 0 to |batch|
        invariant stored == old(stored) + Kept(batch[..i], decoded[..i], durable)
        invariant ok <==> decoded[..i] == batch[..i] && Members(batch[..i]) <= durable
        invariant ok ==> forall h <- batch[..i] :: h in stored
      {
        hide Members, Kept;
        OneMoreKept(batch, decoded, durable, i);
        if decoded[i] == batch[i] && batch[i] in durable {
          stored := stored + {batch[i]};
        } else {
          ok := false;
        }
      }
      assert batch[..|batch|] == batch && decoded[..|decoded|] == decoded;
    }

    lemma {:induction false} OneMoreKept(batch: seq<int>, decoded: seq<int>, durable: set<int>, i: nat)
      requires |decoded| == |batch| && i < |batch|
      ensures batch[..i + 1] == batch[..i] + [batch[i]] && decoded[..i + 1] == decoded[..i] + [decoded[i]]
      ensures Kept(batch[..i + 1], decoded[..i + 1], durable)
              == Kept(batch[..i], decoded[..i], durable)
                 + (if decoded[i] == batch[i] && batch[i] in durable then {batch[i]} else {})
      ensures Members(batch[..i + 1]) == Members(batch[..i]) + {batch[i]}
    {
      var x, y := batch[..i + 1], decoded[..i + 1];
      assert x == batch[..i] + [batch[i]] && y == decoded[..i] + [decoded[i]];
      forall h | h in Kept(x, y, durable)
        ensures h in Kept(batch[..i], decoded[..i], durable) || (decoded[i] == batch[i] == h && h in durable)
      {
        var k :| 0 <= k < |x| && y[k] == x[k] && x[k] in durable && x[k] == h;
        if k < i { assert batch[..i][k] == h && decoded[..i][k] == h; }
      }
      forall h | h in Kept(batch[..i], decoded[..i], durable) ensures h in Kept(x, y, durable) {
        var k :| 0 <= k < i && decoded[..i][k] == batch[..i][k] && batch[..i][k] in durable && batch[..i][k] == h;
        assert x[k] == h && y[k] == h;
      }
      if decoded[i] == batch[i] && batch[i] in durable { assert x[i] == batch[i] && y[i] == batch[i]; }
    }

    /** One turn of a batch of a round: success, another attempt to come, or giving up. */
    method TryBatch(task: Task) returns (next: Task)
      requires Valid() && task.ok.None?
      modifies this`stored, controller
      ensures Valid() && old(stored) <= stored && next.batch == task.batch
      ensures AttemptsLeft(next, retryAttempts) < AttemptsLeft(task, retryAttempts)
      ensures next.ok == Some(true) ==> forall h <- task.batch :: h in stored
      ensures next.ok == Some(false) ==> task.attempt >= retryAttempts
      ensures next.attempt == if next.ok.None? then task.attempt + 1 else task.attempt
      ensures reliable ==> next.ok == Some(true)
    {
      var decoded: seq<int> :| reliable ==> decoded == task.batch;
      var durable: set<int> :| reliable ==> Members(task.batch) <= durable;
      var ok := SyncBatch(task.batch, decoded, durable);
      if ok {
        controller.RecordSuccess();
        return task.(ok := Some(true));
      }
      controller.RecordFailure();
      if task.attempt >= retryAttempts {
        return task.(ok := Some(false));
      }
      next := task.(attempt := task.attempt + 1);
    }

    /**
     * One round: the batches run at the same time, their attempts interleaved in any order. The first one that gives
     * up ends the round; the others go on, before and after that.
     */
    method SyncRound(round: seq<seq<int>>) returns (ok: bool)
      requires Valid()
      modifies this`stored, controller
      ensures Valid() && old(stored) <= stored
      ensures ok ==> forall batch <- round :: forall h <- batch :: h in stored
      ensures reliable ==> ok
    {
      hide AllAttempts;
      var tasks := seq(|round|, k requires 0 <= k < |round| => Task(round[k], 1, None));
      while exists k :: 0 <= k < |tasks| && tasks[k].ok.None?
        invariant Valid() && old(stored) <= stored && |tasks| == |round|
        invariant forall k :: 0 <= k < |tasks| ==> tasks[k].batch == round[k]
        invariant forall k :: 0 <= k < |tasks| && tasks[k].ok == Some(true) ==> forall h <- round[k] :: h in stored
        invariant reliable ==> forall k :: 0 <= k < |tasks| ==> tasks[k].ok.None? || tasks[k].ok == Some(true)
        decreases AllAttempts(tasks, retryAttempts)
      {
        var k :| 0 <= k < |tasks| && tasks[k].ok.None?;
        var next := TryBatch(tasks[k]);
        FewerAttempts(tasks, k, next, retryAttempts);
        tasks := tasks[k := next];
        var early := *;
        if next.ok == Some(false) && early {
          return false;
        }
      }
      assert forall k :: 0 <= k < |tasks| ==> tasks[k].ok.Some?;
      ok := forall k :: 0 <= k < |tasks| ==> tasks[k].ok == Some(true);
    }

    /**
     * Syncs the heights in rounds and reports the frontier exactly when a round has moved it. Under any failures every
     * requested height up to a reported frontier was stored before the report, and the reports strictly increase.
     */
    method Sync(heights: seq<int>)
      returns (ok: bool, frontier: int, reported: seq<int>, ghost storedAt: seq<set<int>>, ghost rounds: Rounds)
      requires Valid()
      modifies this`stored, controller
      ensures Valid() && old(stored) <= stored
      ensures EarnedInTime(reported, storedAt, heights, stored) && forall was <- storedAt :: old(stored) <= was
      ensures RoundsOf(rounds, heights, batchSize, controller.max)
              && reported == Advances(Base(heights), rounds.frontiers)
      ensures ok ==> Before(rounds.taken, |rounds.taken|) == |rounds.batches| && Members(heights) <= stored
      ensures ok ==> IsFrontier(heights, frontier) && (reported != [] ==> reported[|reported| - 1] == frontier)
      ensures reliable ==> ok
    {
      hide Members, Flatten, Ascending, IsFrontier, Earned, EarnedInTime, Sorted, Sliced, RoundsOf, Advances,
           FrontierOf;
      var sorted := Sorted(heights);
      SortedAscends(heights);
      var base := if sorted == [] then -1 else sorted[0] - 1;
      var tracker := new ContiguousFrontier(base);
      var batches := Chunk(sorted, batchSize);
      NoMembers();
      reported, storedAt := [], [];
      NothingReported(heights, stored);
      rounds := Rounds(batches, [], []);
      NoRounds(rounds, heights, batchSize, controller.max);
      var cursor := 0;
      while cursor < |batches|
        invariant Valid() && tracker.Valid() && tracker.base == base && fresh(tracker) && !tracker.advanced
        invariant 0 <= cursor <= |batches| && old(stored) <= stored
        invariant tracker.marked == Members(Flatten(batches[..cursor])) && tracker.marked <= stored
        invariant EarnedInTime(reported, storedAt, heights, stored) && forall was <- storedAt :: old(stored) <= was
        invariant if reported == [] then tracker.current == base else reported[|reported| - 1] == tracker.current
        invariant RoundsOf(rounds, heights, batchSize, controller.max) && rounds.batches == batches
        invariant reported == Advances(base, rounds.frontiers)
        invariant |rounds.taken| == |rounds.frontiers| && cursor == Before(rounds.taken, |rounds.taken|)
        invariant tracker.current
                  == if rounds.frontiers == [] then base else rounds.frontiers[|rounds.frontiers| - 1]
      {
        ghost var before := stored;
        var next := Min(cursor + controller.current, |batches|);
        ok := SyncRound(batches[cursor..next]);
        StillEarned(reported, storedAt, heights, before, stored);
        if !ok {
          return ok, tracker.current, reported, storedAt, rounds;
        }
        StoredRound(batches, cursor, next, stored);
        MarkRound(tracker, batches, cursor, next);
        TrackerFrontier(tracker);
        OneMoreRound(rounds, heights, batchSize, controller.max, next, tracker.current);
        OneMoreAdvance(base, rounds.frontiers, tracker.current);
        rounds := rounds.(taken := rounds.taken + [next], frontiers := rounds.frontiers + [tracker.current]);
        cursor := next;
        var advanced := tracker.ConsumeAdvance();
        if advanced {
          EarnedAt(heights, sorted, base, tracker.current, tracker.marked, stored);
          MarkedAsked(batches, cursor);
          ReportEarned(reported, storedAt, heights, stored, tracker.current);
          reported, storedAt := reported + [tracker.current], storedAt + [stored];
        }
      }
      assert batches[..|batches|] == batches;
      FrontierReached(heights, sorted, base, tracker.current, tracker.marked);
      return true, tracker.current, reported, storedAt, rounds;
    }

    lemma {:induction false} TrackerFrontier(tracker: ContiguousFrontier)
      requires tracker.Valid()
      ensures FrontierOf(tracker.base, tracker.marked, tracker.current)
    {}

    method MarkRound(tracker: ContiguousFrontier, batches: seq<seq<int>>, cursor: nat, next: nat)
      requires tracker.Valid() && cursor <= next <= |batches| && tracker.marked == Members(Flatten(batches[..cursor]))
      modifies tracker
      ensures tracker.Valid() && tracker.marked == Members(Flatten(batches[..next]))
      ensures tracker.current >= old(tracker.current)
              && tracker.advanced == (old(tracker.advanced) || tracker.current > old(tracker.current))
    {
      for k := cursor to next
        invariant tracker.Valid() && tracker.marked == Members(Flatten(batches[..k]))
        invariant tracker.current >= old(tracker.current)
        invariant tracker.advanced == (old(tracker.advanced) || tracker.current > old(tracker.current))
      {
        tracker.MarkCompleted(batches[k]);
        assert batches[..k + 1][..k] == batches[..k];
      }
    }
  }

  lemma {:induction false} StoredRound(batches: seq<seq<int>>, cursor: nat, next: nat, stored: set<int>)
    requires cursor <= next <= |batches|
    requires Members(Flatten(batches[..cursor])) <= stored
    requires forall batch <- batches[cursor..next] :: forall h <- batch :: h in stored
    ensures Members(Flatten(batches[..next])) <= stored
  {
    FlattenMembers(batches, next);
    FlattenMembers(batches, cursor);
    forall h | h in Flatten(batches[..next]) ensures h in stored {
      var k :| 0 <= k < next && h in batches[k];
      if k >= cursor {
        assert batches[cursor..next][k - cursor] == batches[k];
        assert batches[k] in batches[cursor..next];
      } else {
        assert h in Members(Flatten(batches[..cursor]));
      }
    }
  }

  lemma {:induction false} EarnedAt(heights: seq<int>, sorted: seq<int>, base: int, frontier: int, marked: set<int>,
      stored: set<int>)
    requires marked <= stored && (forall h :: base < h <= frontier ==> h in marked)
    requires Ascending(sorted) && Members(sorted) == Members(heights) && base == if sorted == [] then -1
             else sorted[0] - 1
    ensures Earned(frontier, heights, stored)
  {
    forall h | h in heights && h <= frontier ensures h in stored {
      assert h in Members(heights);
      assert h in Members(sorted);
    }
  }

  lemma {:induction false} MarkedAsked(batches: seq<seq<int>>, n: nat)
    requires n <= |batches|
    ensures Members(Flatten(batches[..n])) <= Members(Flatten(batches))
    decreases |batches| - n
  {
    if n == |batches| {
      assert batches[..n] == batches;
    } else {
      MarkedAsked(batches, n + 1);
      assert batches[..n + 1][..n] == batches[..n];
    }
  }

  /** What was stored stays stored. */
  lemma {:induction false} StillEarned(reported: seq<int>, storedAt: seq<set<int>>, heights: seq<int>, before: set<int>,
      stored: set<int>)
    requires before <= stored && EarnedInTime(reported, storedAt, heights, before)
    ensures EarnedInTime(reported, storedAt, heights, stored)
  {
    hide Earned;
  }

  lemma {:induction false} ReportEarned(reported: seq<int>, storedAt: seq<set<int>>, heights: seq<int>,
      stored: set<int>, frontier: int)
    requires EarnedInTime(reported, storedAt, heights, stored) && Earned(frontier, heights, stored)
             && frontier in Members(heights)
    requires reported != [] ==> reported[|reported| - 1] < frontier
    ensures EarnedInTime(reported + [frontier], storedAt + [stored], heights, stored)
  {
    hide Earned, Members;
  }

  lemma {:induction false} NothingReported(heights: seq<int>, stored: set<int>)
    ensures EarnedInTime([], [], heights, stored)
  {}

  lemma {:induction false} NoRounds(r: Rounds, heights: seq<int>, batchSize: int, most: int)
    requires r.taken == [] && r.frontiers == []
    requires Flatten(r.batches) == Sorted(heights) && Sliced(r.batches, batchSize)
    ensures RoundsOf(r, heights, batchSize, most) && Advances(Base(heights), r.frontiers) == []
  {}

  lemma {:induction false} NoMembers()
    ensures Members(Flatten([])) == {}
  {}

  predicate IsLowest(heights: seq<int>, low: int) {
    low in heights && forall h <- heights :: low <= h
  }

  ghost predicate AllIn(heights: seq<int>, low: int, high: int) {
    forall h :: low <= h <= high ==> h in heights
  }

  /** The end of the unbroken run of heights from the lowest one. */
  ghost predicate IsFrontier(heights: seq<int>, frontier: int) {
    if heights == [] then frontier == -1 else
      && frontier + 1 !in heights
      && exists low :: IsLowest(heights, low) && low <= frontier && AllIn(heights, low, frontier)
  }

  lemma {:induction false} FrontierReached(heights: seq<int>, sorted: seq<int>, base: int, frontier: int,
      marked: set<int>)
    requires marked == Members(sorted) && Ascending(sorted) && Members(sorted) == Members(heights)
    requires base == if sorted == [] then -1 else sorted[0] - 1
    requires base <= frontier && frontier + 1 !in marked && (forall h :: base < h <= frontier ==> h in marked)
    ensures IsFrontier(heights, frontier) && Members(heights) == marked
  {
    assert sorted != [] ==> sorted[0] in Members(sorted);
    assert -1 < frontier && base == -1 ==> frontier in marked;
    if heights != [] {
      assert heights[0] in Members(heights);
      assert sorted != [] && sorted[0] in marked;
      forall h | h in heights ensures sorted[0] <= h { assert h in Members(sorted); }
      assert IsLowest(heights, sorted[0]);
      forall h | sorted[0] <= h <= frontier ensures h in heights { assert h in marked; }
      assert AllIn(heights, sorted[0], frontier);
    } else {
      assert Members(heights) == {};
    }
  }

  /** A contiguous request that succeeds ends at its last height. */
  lemma {:induction false} ContiguousEndsAtLast(first: int, last: int, heights: seq<int>, frontier: int)
    requires first <= last && (forall h :: h in heights <==> first <= h <= last) && IsFrontier(heights, frontier)
    ensures frontier == last
  {
    assert first in heights && last in heights;
    var low :| IsLowest(heights, low) && low <= frontier && AllIn(heights, low, frontier);
    assert first <= low <= last;
    assert low <= last + 1 <= frontier ==> last + 1 in heights;
    assert first <= frontier + 1 <= last ==> frontier + 1 in heights;
  }

  // ---------------------------------------------------------------- the sync tail

  function Range(first: int, last: int): (heights: seq<int>)
    ensures |heights| == (if last < first then 0 else last - first + 1)
    ensures forall i :: 0 <= i < |heights| ==> heights[i] == first + i
  {
    seq(if last < first then 0 else last - first + 1, i => first + i)
  }

  /** Every height up to a tail is among those stored. */
  ghost predicate Holds(stored: set<int>, tail: int) {
    forall h :: 0 <= h <= tail ==> h in stored
  }

  /** The stage that advances the sync tail, on every checkpoint and at the end of a window. */
  class SyncStage {
    const syncer: RawBlockSyncer
    var syncTail: int
    /** What was asked of the syncer so far. */
    ghost var asked: seq<seq<int>>

    /** Every height up to the sync tail is in raw storage. */
    ghost predicate Valid()
      reads this, syncer, syncer.controller
    {
      syncer.Valid() && syncTail >= -1 && Holds(syncer.stored, syncTail)
    }

    constructor (concurrency: int, batchSize: int, retryAttempts: int)
      ensures Valid() && syncTail == -1 && fresh(syncer) && fresh(syncer.controller)
      ensures syncer.batchSize == batchSize && syncer.retryAttempts == retryAttempts
              && syncer.controller.max == concurrency && syncer.stored == {} && asked == []
    {
      syncer := new RawBlockSyncer(concurrency, batchSize, retryAttempts);
      syncTail, asked := -1, [];
    }

    /**
     * Syncs the heights from first to end; a checkpoint that is not above the sync tail is ignored. What a checkpoint
     * leaves as the sync tail was covered by raw storage at that moment, and so is the sync tail at the end, success or
     * not.
     */
    method SyncHeights(first: nat, end: int)
      returns (ok: bool, ghost reported: seq<int>, ghost storedAt: seq<set<int>>)
      requires Valid() && first <= syncTail + 1 && -1 <= end
      modifies this, syncer`stored, syncer.controller
      ensures Valid() && old(syncer.stored) <= syncer.stored && (ok ==> syncTail == end)
      ensures |reported| == |storedAt| && forall i :: 0 <= i < |reported| ==>
              first <= reported[i] <= end && Holds(storedAt[i], Max(old(syncTail), reported[i]))
      ensures !ok ==> syncTail == if reported == [] then old(syncTail) else Max(old(syncTail), reported[|reported| - 1])
      ensures syncer.reliable ==> ok
      ensures asked == old(asked) + [Range(first, end)]
    {
      hide Members, EarnedInTime;
      ghost var tail := syncTail;
      var heights := Range(first, end);
      asked := asked + [heights];
      var frontier, checkpoints;
      ghost var rounds;
      ok, frontier, checkpoints, storedAt, rounds := syncer.Sync(heights);
      reported := checkpoints;
      ReportsCover(heights, first, tail, end, reported, storedAt, syncer.stored);
      if checkpoints != [] && checkpoints[|checkpoints| - 1] > syncTail {
        assert Holds(storedAt[|reported| - 1], reported[|reported| - 1]);
        syncTail := checkpoints[|checkpoints| - 1];
      }
      if ok {
        RangeStored(first, end, syncer.stored);
        syncTail := end;
      }
    }

    /** A window of the backfill stages: right above the sync tail, which never goes back. */
    method SyncWindow(end: int) returns (ok: bool, ghost reported: seq<int>, ghost storedAt: seq<set<int>>)
      requires Valid() && syncTail <= end
      modifies this, syncer`stored, syncer.controller
      ensures Valid() && old(syncTail) <= syncTail <= end && (ok ==> syncTail == end)
      ensures |reported| == |storedAt| && forall i :: 0 <= i < |reported| ==> Holds(storedAt[i], reported[i])
      ensures !ok ==> syncTail == if reported == [] then old(syncTail) else reported[|reported| - 1]
      ensures syncer.reliable ==> ok
      ensures asked == old(asked) + [Range(old(syncTail) + 1, end)]
    {
      ok, reported, storedAt := SyncHeights(syncTail + 1, end);
    }

    /**
     * The online refresh: also fetches again the last blocks up to its end, as deep as a reorg is expected. The sync
     * tail goes back only when the refresh succeeds for an end below it.
     */
    method RefreshOnline(end: int, reprocessDepth: int)
      returns (ok: bool, ghost reported: seq<int>, ghost storedAt: seq<set<int>>)
      requires Valid() && -1 <= end
      modifies this, syncer`stored, syncer.controller
      ensures Valid() && (ok ==> syncTail == end) && (!ok ==> old(syncTail) <= syncTail) && (syncer.reliable ==> ok)
      ensures |asked| == |old(asked)| + 1 && Refreshes(asked[|old(asked)|], old(syncTail), end, reprocessDepth)
      ensures |reported| == |storedAt| && forall i :: 0 <= i < |reported| ==>
              Holds(storedAt[i], Max(old(syncTail), reported[i]))
    {
      var first := Max(0, Min(syncTail + 1, Max(0, end - reprocessDepth + 1)));
      ok, reported, storedAt := SyncHeights(first, end);
      InRangeOf(first, end);
    }
  }

  /** Just the heights up to an end that are above the tail or within the depth. */
  ghost predicate Refreshes(heights: seq<int>, tail: int, end: int, depth: int) {
    forall h :: h in heights <==> 0 <= h <= end && (h > tail || h > end - depth)
  }

  lemma {:induction false} InRangeOf(first: int, end: int)
    ensures forall h :: h in Range(first, end) <==> first <= h <= end
  {
    forall h | first <= h <= end ensures h in Range(first, end) { assert Range(first, end)[h - first] == h; }
  }

  lemma {:induction false} ReportsCover(heights: seq<int>, first: nat, tail: int, end: int, reported: seq<int>,
      storedAt: seq<set<int>>, stored: set<int>)
    requires heights == Range(first, end) && first <= tail + 1 && EarnedInTime(reported, storedAt, heights, stored)
    requires forall was <- storedAt :: Holds(was, tail)
    ensures |storedAt| == |reported|
    ensures forall i :: 0 <= i < |reported| ==>
            first <= reported[i] <= end && Holds(storedAt[i], Max(tail, reported[i])) && storedAt[i] <= stored
  {
    forall i | 0 <= i < |reported| ensures first <= reported[i] <= end && Holds(storedAt[i], Max(tail, reported[i])) {
      assert Holds(storedAt[i], tail);
      ReportCovers(heights, first, end, reported[i], storedAt[i]);
    }
  }

  lemma {:induction false} ReportCovers(heights: seq<int>, first: int, end: int, frontier: int, stored: set<int>)
    requires heights == Range(first, end) && Earned(frontier, heights, stored) && frontier in Members(heights)
    ensures first <= frontier <= end && forall h :: first <= h <= frontier ==> h in stored
  {
    forall h | first <= h <= frontier ensures h in stored { assert heights[h - first] == h; }
  }

  lemma {:induction false} RangeStored(first: int, end: int, stored: set<int>)
    requires Members(Range(first, end)) <= stored
    ensures forall h :: first <= h <= end ==> h in stored
  {
    forall h | first <= h <= end ensures h in stored {
      assert Range(first, end)[h - first] == h;
      assert h in Members(Range(first, end));
    }
  }
}
