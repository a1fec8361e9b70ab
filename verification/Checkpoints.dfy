/** Materialization attempts that stop anywhere, and what their checkpoints may claim to later ones. */
module Checkpoints {
  import opened Chain
  import opened Integers
  import opened Balances
  import opened Store
  import opened Tables
  import opened KeyRanges
  import opened Materialization
  import opened CoreWindow
  import opened CoreState
  import opened StoreProofs
  import opened Resumption

  /** Ranges finished so far, as recorded after each range. */
  datatype Checkpoint = Checkpoint(asOf: nat, completed: nat, rangeCount: nat)

  /** The current outputs, and the checkpoints a crash may fall back to, oldest first. */
  datatype Progress = Progress(outputs: Table<OutputKey, Output>, checkpoints: seq<Checkpoint>)

  predicate Matches(p: Checkpoint, asOf: nat, rangeCount: nat) {
    p.asOf == asOf && p.rangeCount == rangeCount
  }

  /** Ranges an attempt may skip: those of the last checkpoint, when it was made for the same height and range count. */
  function ResumeFrom(checkpoints: seq<Checkpoint>, asOf: nat, rangeCount: nat): (k: nat)
    ensures k <= rangeCount
  {
    if checkpoints == [] || !Matches(checkpoints[|checkpoints| - 1], asOf, rangeCount) then 0
    else Min(rangeCount, checkpoints[|checkpoints| - 1].completed)
  }

  // ---------------------------------------------------------------- one attempt

  /** The rows one range statement inserts. */
  ghost function RangeRows(m: Ledger, range: StringRange, asOf: nat): Table<OutputKey, Output> {
    RowsAt(map k | k in m && InRange(k, range) :: m[k], asOf)
  }

  lemma {:induction false} RangeRowsAre(m: Ledger, range: StringRange, asOf: nat)
    ensures RowsAt(UnspentIn(m, range), asOf) == RangeRows(Unspent(m), range, asOf)
  {
    hide InRange;
    var unspent := Unspent(m);
    assert UnspentIn(m, range) == map k | k in unspent && InRange(k, range) :: unspent[k];
  }

  /** What finishing the ranges from one index to another does: rows first, then the checkpoint, range after range. */
  ghost function Finished(p: Progress, m: Ledger, asOf: nat, ranges: seq<StringRange>, from: nat, to: nat): Progress
    requires to <= |ranges|
  {
    if to <= from then p else
      var q := Finished(p, m, asOf, ranges, from, to - 1);
      Progress(q.outputs + RangeRows(m, ranges[to - 1], asOf), q.checkpoints + [Checkpoint(asOf, to, |ranges|)])
  }

  /** Where an attempt starts to insert: on nothing, unless it resumes. */
  function Start(p: Progress, resumed: nat): Progress {
    if resumed == 0 then p.(outputs := multiset{}) else p
  }

  /** An attempt has got this far: some ranges finished, and part of the next one. */
  ghost predicate Reaches(p: Progress, q: Progress, m: Ledger, asOf: nat, ranges: seq<StringRange>, from: nat, to: nat,
                          part: Table<OutputKey, Output>) {
    && from <= to <= |ranges| && part <= (if to < |ranges| then RangeRows(m, ranges[to], asOf) else multiset{})
    && var done := Finished(p, m, asOf, ranges, from, to);
       q == done.(outputs := done.outputs + part)
  }

  ghost predicate Advances(p: Progress, q: Progress, m: Ledger, asOf: nat, ranges: seq<StringRange>, from: nat) {
    exists to, part :: Reaches(p, q, m, asOf, ranges, from, to, part)
  }

  /** An attempt that stops anywhere: while it clears, when it starts from nothing, or while it inserts. */
  ghost predicate Attempted(p: Progress, q: Progress, m: Ledger, asOf: nat, prefixLength: nat) {
    var ranges := OutputKeyRanges(prefixLength);
    var k := ResumeFrom(p.checkpoints, asOf, |ranges|);
    || (k == 0 && q.outputs <= p.outputs && q.checkpoints == p.checkpoints)
    || Advances(Start(p, k), q, m, asOf, ranges, k)
  }

  /**
   * A crash may lose the latest checkpoints, and rows of range statements that were given up may still land. When they
   * land while an attempt runs, the table it leaves is that of the attempt with the rows landing after it.
   */
  ghost predicate Disturbed(p: Progress, q: Progress, m: Ledger, asOf: nat) {
    q.checkpoints <= p.checkpoints && exists late :: Sound(late, m, asOf) && q.outputs == p.outputs + late
  }

  ghost predicate AttemptedAndLost(p: Progress, r: Progress, m: Ledger, asOf: nat, prefixLength: nat) {
    exists q :: Attempted(p, q, m, asOf, prefixLength) && Disturbed(q, r, m, asOf)
  }

  predicate NothingRecorded(p: Progress, asOf: nat) {
    forall x :: 0 <= x < |p.checkpoints| ==> p.checkpoints[x].asOf != asOf
  }

  /** The progress found by each of a row of attempts for one height, whose key splits have the given prefix lengths. */
  ghost predicate IsMaterialization(run: seq<Progress>, lengths: seq<nat>, m: Ledger, asOf: nat) {
    && 0 < |run| <= |lengths| && NothingRecorded(run[0], asOf)
    && forall x :: 0 <= x < |run| - 1 ==> AttemptedAndLost(run[x], run[x + 1], m, asOf, lengths[x])
  }

  /** The checkpoint an attempt finds lets it skip a range that is not filled. */
  ghost predicate Overclaims(p: Progress, m: Ledger, asOf: nat, prefixLength: nat) {
    var ranges := OutputKeyRanges(prefixLength);
    !FilledUpTo(p.outputs, m, ranges, ResumeFrom(p.checkpoints, asOf, |ranges|))
  }

  ghost predicate OverclaimsAtEnd(run: seq<Progress>, lengths: seq<nat>, m: Ledger, asOf: nat) {
    IsMaterialization(run, lengths, m, asOf) && Overclaims(run[|run| - 1], m, asOf, lengths[|run| - 1])
  }

  ghost predicate SomeRunOverclaims(lengths: seq<nat>, m: Ledger, asOf: nat) {
    exists run :: OverclaimsAtEnd(run, lengths, m, asOf)
  }

  /** A split is used again after another one. */
  predicate Recurs(lengths: seq<nat>) {
    exists i, j, k :: 0 <= i < j < k < |lengths| && lengths[i] == lengths[k] != lengths[j]
  }

  // ---------------------------------------------------------------- what an attempt keeps

  /** Checkpoints made for these ranges claim only what is filled, and are the latest ones, in increasing order. */
  ghost predicate Claims(p: Progress, m: Ledger, asOf: nat, ranges: seq<StringRange>) {
    && (forall x :: 0 <= x < |p.checkpoints| && Matches(p.checkpoints[x], asOf, |ranges|) ==>
          Sound(p.outputs, m, asOf) && FilledUpTo(p.outputs, m, ranges, p.checkpoints[x].completed))
    && (forall x, y :: 0 <= x < y < |p.checkpoints| && Matches(p.checkpoints[x], asOf, |ranges|) ==>
          Matches(p.checkpoints[y], asOf, |ranges|) && p.checkpoints[x].completed <= p.checkpoints[y].completed)
  }

  ghost predicate AtMost(checkpoints: seq<Checkpoint>, asOf: nat, rangeCount: nat, k: nat) {
    forall x :: 0 <= x < |checkpoints| && Matches(checkpoints[x], asOf, rangeCount) ==> checkpoints[x].completed <= k
  }

  /** The ranges an attempt skips are filled, with right rows. */
  ghost predicate ResumesRight(p: Progress, m: Ledger, asOf: nat, ranges: seq<StringRange>) {
    var k := ResumeFrom(p.checkpoints, asOf, |ranges|);
    FilledUpTo(p.outputs, m, ranges, k) && (k > 0 ==> Sound(p.outputs, m, asOf))
  }

  lemma {:induction false} ResumeIsRight(p: Progress, m: Ledger, asOf: nat, ranges: seq<StringRange>)
    requires Claims(p, m, asOf, ranges)
    ensures ResumesRight(p, m, asOf, ranges)
    ensures var k := ResumeFrom(p.checkpoints, asOf, |ranges|);
            k < |ranges| ==> AtMost(p.checkpoints, asOf, |ranges|, k)
  {
    hide Sound, Filled;
    var k := ResumeFrom(p.checkpoints, asOf, |ranges|);
    if k > 0 {
      assert FilledUpTo(p.outputs, m, ranges, p.checkpoints[|p.checkpoints| - 1].completed);
    }
  }

  /** Clearing before a start from nothing contradicts no checkpoint. */
  lemma {:induction false} ClearKeepsClaims(p: Progress, outputs: Table<OutputKey, Output>, m: Ledger, asOf: nat,
      ranges: seq<StringRange>)
    requires Claims(p, m, asOf, ranges) && outputs <= p.outputs && AtMost(p.checkpoints, asOf, |ranges|, 0)
    ensures Claims(p.(outputs := outputs), m, asOf, ranges)
  {
    hide Filled;
    if Sound(p.outputs, m, asOf) {
      forall r | r in outputs ensures r in p.outputs {}
    }
  }

  lemma {:induction false} GrowthKeepsClaims(p: Progress, more: Table<OutputKey, Output>, m: Ledger, asOf: nat,
      ranges: seq<StringRange>)
    requires Claims(p, m, asOf, ranges) && Sound(p.outputs + more, m, asOf)
    ensures Claims(p.(outputs := p.outputs + more), m, asOf, ranges)
  {
    hide Sound, FilledUpTo;
    forall x | 0 <= x < |p.checkpoints| && Matches(p.checkpoints[x], asOf, |ranges|)
      ensures FilledUpTo(p.outputs + more, m, ranges, p.checkpoints[x].completed)
    {
      FilledUpToGrows(p.outputs, more, m, ranges, p.checkpoints[x].completed);
    }
  }

  lemma {:induction false} RecordKeepsClaims(p: Progress, m: Ledger, asOf: nat, ranges: seq<StringRange>, k: nat)
    requires Claims(p, m, asOf, ranges) && AtMost(p.checkpoints, asOf, |ranges|, k)
    requires Sound(p.outputs, m, asOf) && FilledUpTo(p.outputs, m, ranges, k)
    ensures var q := p.(checkpoints := p.checkpoints + [Checkpoint(asOf, k, |ranges|)]);
            Claims(q, m, asOf, ranges) && AtMost(q.checkpoints, asOf, |ranges|, k)
  {
    hide Sound, FilledUpTo;
  }

  lemma {:induction false} LossKeepsClaims(p: Progress, q: Progress, m: Ledger, asOf: nat, ranges: seq<StringRange>)
    requires Claims(p, m, asOf, ranges) && Disturbed(p, q, m, asOf)
    ensures Claims(q, m, asOf, ranges)
  {
    hide Filled, FilledUpTo;
    var late :| Sound(late, m, asOf) && q.outputs == p.outputs + late;
    assert forall x :: 0 <= x < |q.checkpoints| ==> q.checkpoints[x] == p.checkpoints[x];
    forall x | 0 <= x < |q.checkpoints| && Matches(q.checkpoints[x], asOf, |ranges|)
      ensures Sound(q.outputs, m, asOf) && FilledUpTo(q.outputs, m, ranges, q.checkpoints[x].completed)
    {
      FilledUpToGrows(p.outputs, late, m, ranges, p.checkpoints[x].completed);
    }
  }

  /** Rows that land while ranges are inserted are rows that land afterwards. */
  lemma {:induction false} LandingMeanwhile(p: Progress, late: Table<OutputKey, Output>, m: Ledger, asOf: nat,
      ranges: seq<StringRange>, from: nat, to: nat)
    requires to <= |ranges|
    ensures var q := Finished(p, m, asOf, ranges, from, to);
            Finished(p.(outputs := p.outputs + late), m, asOf, ranges, from, to) == q.(outputs := q.outputs + late)
  {
    hide RangeRows;
    if from < to {
      LandingMeanwhile(p, late, m, asOf, ranges, from, to - 1);
      var q := Finished(p, m, asOf, ranges, from, to - 1);
      var rows := RangeRows(m, ranges[to - 1], asOf);
      assert (q.outputs + late) + rows == (q.outputs + rows) + late;
    }
  }

  lemma {:induction false} NotDisturbed(p: Progress, m: Ledger, asOf: nat)
    ensures Disturbed(p, p, m, asOf)
  {
    assert p.outputs == p.outputs + multiset{} && Sound(multiset{}, m, asOf);
  }

  lemma {:induction false} PartSound(t: Table<OutputKey, Output>, m: Ledger, range: StringRange,
      part: Table<OutputKey, Output>, asOf: nat)
    requires Sound(t, m, asOf) && part <= RangeRows(m, range, asOf)
    ensures Sound(t + part, m, asOf)
  {
    hide InRange;
    forall r | r in t + part ensures r.key in m && r.value == m[r.key] && r.version == asOf {
      if r in part { assert r in RangeRows(m, range, asOf); }
    }
  }

  lemma {:induction false} RangeFills(t: Table<OutputKey, Output>, m: Ledger, range: StringRange, asOf: nat)
    requires Sound(t, m, asOf)
    ensures Sound(t + RangeRows(m, range, asOf), m, asOf) && Filled(t + RangeRows(m, range, asOf), m, range)
  {
    hide InRange;
    var part := map k | k in m && InRange(k, range) :: m[k];
    hide Sound, Filled;
    FillRange(t, m, range, RowsAt(part, asOf), part, asOf);
  }

  /** Finishing ranges fills them, and the checkpoints on the way claim no more than that. */
  lemma {:induction false} FinishedFills(p: Progress, m: Ledger, asOf: nat, ranges: seq<StringRange>, from: nat,
      to: nat)
    requires from <= to <= |ranges| && Sound(p.outputs, m, asOf) && FilledUpTo(p.outputs, m, ranges, from)
    ensures var q := Finished(p, m, asOf, ranges, from, to);
            && Sound(q.outputs, m, asOf) && FilledUpTo(q.outputs, m, ranges, to)
            && (Claims(p, m, asOf, ranges) && (from < to ==> AtMost(p.checkpoints, asOf, |ranges|, from)) ==>
                  Claims(q, m, asOf, ranges) && (from < to ==> AtMost(q.checkpoints, asOf, |ranges|, to)))
  {
    hide Sound, FilledUpTo, Filled, Claims, AtMost, RangeRows;
    if from < to {
      FinishedFills(p, m, asOf, ranges, from, to - 1);
      var q := Finished(p, m, asOf, ranges, from, to - 1);
      var rows := RangeRows(m, ranges[to - 1], asOf);
      RangeFills(q.outputs, m, ranges[to - 1], asOf);
      NextFilled(q.outputs, rows, m, ranges, to - 1);
      if Claims(p, m, asOf, ranges) && AtMost(p.checkpoints, asOf, |ranges|, from) {
        GrowthKeepsClaims(q, rows, m, asOf, ranges);
        AtMostNext(q.checkpoints, asOf, |ranges|, to - 1);
        RecordKeepsClaims(q.(outputs := q.outputs + rows), m, asOf, ranges, to);
      }
    }
  }

  lemma {:induction false} AtMostNext(checkpoints: seq<Checkpoint>, asOf: nat, rangeCount: nat, k: nat)
    requires AtMost(checkpoints, asOf, rangeCount, k)
    ensures AtMost(checkpoints, asOf, rangeCount, k + 1)
  {}

  lemma {:induction false} ReachedIsRight(p: Progress, q: Progress, m: Ledger, asOf: nat, ranges: seq<StringRange>,
      from: nat, to: nat, part: Table<OutputKey, Output>)
    requires Sound(p.outputs, m, asOf) && FilledUpTo(p.outputs, m, ranges, from) && Claims(p, m, asOf, ranges)
    requires from < |ranges| ==> AtMost(p.checkpoints, asOf, |ranges|, from)
    requires Reaches(p, q, m, asOf, ranges, from, to, part)
    ensures Claims(q, m, asOf, ranges)
  {
    hide Sound, FilledUpTo, Claims, AtMost, RangeRows;
    FinishedFills(p, m, asOf, ranges, from, to);
    var done := Finished(p, m, asOf, ranges, from, to);
    if to < |ranges| {
      PartSound(done.outputs, m, ranges[to], part, asOf);
      GrowthKeepsClaims(done, part, m, asOf, ranges);
    } else {
      assert done.outputs + part == done.outputs;
    }
  }

  /** However an attempt stops, its checkpoints claim only what is filled if those it found did. */
  lemma {:induction false} AttemptKeepsClaims(p: Progress, q: Progress, m: Ledger, asOf: nat, prefixLength: nat)
    requires Claims(p, m, asOf, OutputKeyRanges(prefixLength)) && Attempted(p, q, m, asOf, prefixLength)
    ensures Claims(q, m, asOf, OutputKeyRanges(prefixLength))
  {
    hide Sound, FilledUpTo, Claims, AtMost, OutputKeyRanges, Reaches, ResumeFrom;
    var ranges := OutputKeyRanges(prefixLength);
    var k := ResumeFrom(p.checkpoints, asOf, |ranges|);
    ResumeIsRight(p, m, asOf, ranges);
    SomeRanges(prefixLength);
    if k == 0 && q.outputs <= p.outputs && q.checkpoints == p.checkpoints {
      ClearKeepsClaims(p, q.outputs, m, asOf, ranges);
      assert p.(outputs := q.outputs) == q;
    } else {
      if k == 0 {
        NothingSound(m, asOf, ranges);
        ClearKeepsClaims(p, multiset{}, m, asOf, ranges);
      }
      var to, part :| Reaches(Start(p, k), q, m, asOf, ranges, k, to, part);
      ReachedIsRight(Start(p, k), q, m, asOf, ranges, k, to, part);
    }
  }

  // ---------------------------------------------------------------- exactly when checkpoints can be trusted

  lemma {:induction false} SplitsDiffer(p: nat, q: nat)
    requires p != q
    ensures |OutputKeyRanges(p)| != |OutputKeyRanges(q)|
  {
    MorePrefixesMoreRanges(if p < q then p else q, if p < q then q else p);
  }

  lemma {:induction false} MorePrefixesMoreRanges(p: nat, q: nat)
    requires p < q
    ensures Power16(p) < Power16(q)
  {
    if p + 1 < q {
      MorePrefixesMoreRanges(p, q - 1);
    }
  }

  function Previous(i: nat): nat {
    if i == 0 then 0 else i - 1
  }

  predicate UsedBefore(lengths: seq<nat>, i: nat, prefixLength: nat)
    requires i < |lengths|
  {
    prefixLength in lengths[..i + 1]
  }

  predicate Recorded(p: Progress, asOf: nat, prefixLength: nat) {
    exists x :: 0 <= x < |p.checkpoints| && Matches(p.checkpoints[x], asOf, |OutputKeyRanges(prefixLength)|)
  }

  /** The checkpoints before attempt i are right for the previous split, and there are none for splits not used yet. */
  ghost predicate Trusted(p: Progress, lengths: seq<nat>, i: nat, m: Ledger, asOf: nat) {
    && Previous(i) < |lengths| && Claims(p, m, asOf, OutputKeyRanges(lengths[Previous(i)]))
    && forall n :: n in lengths && Recorded(p, asOf, n) ==> UsedBefore(lengths, Previous(i), n)
  }

  lemma {:induction false} NothingRecordedIsTrusted(p: Progress, lengths: seq<nat>, m: Ledger, asOf: nat)
    requires NothingRecorded(p, asOf) && lengths != []
    ensures Trusted(p, lengths, 0, m, asOf)
  {
    hide OutputKeyRanges, Sound, FilledUpTo;
  }

  /** While no split recurs, what attempt i finds is right for its own split. */
  lemma {:induction false} TrustedClaims(p: Progress, lengths: seq<nat>, i: nat, m: Ledger, asOf: nat)
    requires !Recurs(lengths) && i < |lengths| && Trusted(p, lengths, i, m, asOf)
    ensures Claims(p, m, asOf, OutputKeyRanges(lengths[i]))
  {
    hide OutputKeyRanges, Sound, FilledUpTo;
    if i > 0 && lengths[i] != lengths[i - 1] {
      assert !Recorded(p, asOf, lengths[i]);
    }
  }

  lemma {:induction false} FinishedRecords(p: Progress, m: Ledger, asOf: nat, ranges: seq<StringRange>, from: nat,
      to: nat, c: Checkpoint)
    requires to <= |ranges| && c in Finished(p, m, asOf, ranges, from, to).checkpoints
    ensures c in p.checkpoints || Matches(c, asOf, |ranges|)
  {
    if from < to && c != Checkpoint(asOf, to, |ranges|) {
      FinishedRecords(p, m, asOf, ranges, from, to - 1, c);
    }
  }

  /** An attempt records nothing for other heights. */
  lemma {:induction false} AttemptRecordsFor(p: Progress, q: Progress, m: Ledger, asOf: nat, prefixLength: nat,
      c: Checkpoint)
    requires Attempted(p, q, m, asOf, prefixLength) && c in q.checkpoints
    ensures c in p.checkpoints || c.asOf == asOf
  {
    hide OutputKeyRanges, RangeRows, Finished;
    var ranges := OutputKeyRanges(prefixLength);
    var k := ResumeFrom(p.checkpoints, asOf, |ranges|);
    if q.checkpoints != p.checkpoints {
      var to, part :| Reaches(Start(p, k), q, m, asOf, ranges, k, to, part);
      FinishedRecords(Start(p, k), m, asOf, ranges, k, to, c);
    }
  }

  lemma {:induction false} AttemptRecords(p: Progress, q: Progress, m: Ledger, asOf: nat, prefixLength: nat, n: nat)
    requires Attempted(p, q, m, asOf, prefixLength) && Recorded(q, asOf, n)
    ensures n == prefixLength || Recorded(p, asOf, n)
  {
    hide OutputKeyRanges, RangeRows, Finished;
    var ranges := OutputKeyRanges(prefixLength);
    var k := ResumeFrom(p.checkpoints, asOf, |ranges|);
    var x :| 0 <= x < |q.checkpoints| && Matches(q.checkpoints[x], asOf, |OutputKeyRanges(n)|);
    if q.checkpoints != p.checkpoints && n != prefixLength {
      var to, part :| Reaches(Start(p, k), q, m, asOf, ranges, k, to, part);
      FinishedRecords(Start(p, k), m, asOf, ranges, k, to, q.checkpoints[x]);
      SplitsDiffer(n, prefixLength);
    }
  }

  lemma {:induction false} AttemptKeepsTrust(p: Progress, q: Progress, r: Progress, lengths: seq<nat>, i: nat,
      m: Ledger, asOf: nat)
    requires !Recurs(lengths) && i < |lengths| && Trusted(p, lengths, i, m, asOf)
    requires Attempted(p, q, m, asOf, lengths[i]) && Disturbed(q, r, m, asOf)
    ensures Trusted(r, lengths, i + 1, m, asOf)
  {
    hide OutputKeyRanges, Recurs, Claims, Attempted;
    TrustedClaims(p, lengths, i, m, asOf);
    AttemptKeepsClaims(p, q, m, asOf, lengths[i]);
    LossKeepsClaims(q, r, m, asOf, OutputKeyRanges(lengths[i]));
    forall n | n in lengths && Recorded(r, asOf, n) ensures UsedBefore(lengths, i, n) {
      var x :| 0 <= x < |r.checkpoints| && Matches(r.checkpoints[x], asOf, |OutputKeyRanges(n)|);
      assert r.checkpoints[x] == q.checkpoints[x];
      AttemptRecords(p, q, m, asOf, lengths[i], n);
      if n == lengths[i] { assert lengths[..i + 1][i] == n; } else { Earlier(lengths, i, n); }
    }
  }

  lemma {:induction false} DisturbedBy(p: Progress, q: Progress, m: Ledger, asOf: nat, late: Table<OutputKey, Output>)
    requires q.checkpoints <= p.checkpoints && Sound(late, m, asOf) && q.outputs == p.outputs + late
    ensures Disturbed(p, q, m, asOf)
  {}

  lemma {:induction false} LostKeepsTrust(p: Progress, r: Progress, lengths: seq<nat>, i: nat, m: Ledger, asOf: nat)
    requires !Recurs(lengths) && i < |lengths| && Trusted(p, lengths, i, m, asOf)
    requires AttemptedAndLost(p, r, m, asOf, lengths[i])
    ensures Trusted(r, lengths, i + 1, m, asOf)
  {
    hide Recurs, Trusted, Attempted, Disturbed;
    var q :| Attempted(p, q, m, asOf, lengths[i]) && Disturbed(q, r, m, asOf);
    AttemptKeepsTrust(p, q, r, lengths, i, m, asOf);
  }

  lemma {:induction false} LostRecordsFor(p: Progress, r: Progress, m: Ledger, asOf: nat, prefixLength: nat)
    requires AttemptedAndLost(p, r, m, asOf, prefixLength)
    ensures forall c <- r.checkpoints :: c in p.checkpoints || c.asOf == asOf
  {
    hide Attempted;
    var q :| Attempted(p, q, m, asOf, prefixLength) && Disturbed(q, r, m, asOf);
    forall c | c in r.checkpoints ensures c in p.checkpoints || c.asOf == asOf {
      AttemptRecordsFor(p, q, m, asOf, prefixLength, c);
    }
  }

  lemma {:induction false} Earlier(lengths: seq<nat>, i: nat, n: nat)
    requires i < |lengths| && UsedBefore(lengths, Previous(i), n)
    ensures UsedBefore(lengths, i, n)
  {
    var x :| 0 <= x < Previous(i) + 1 && lengths[..Previous(i) + 1][x] == n;
    assert lengths[..i + 1][x] == n;
  }

  lemma {:induction false} RunIsTrusted(run: seq<Progress>, lengths: seq<nat>, i: nat, m: Ledger, asOf: nat)
    requires !Recurs(lengths) && IsMaterialization(run, lengths, m, asOf) && i < |run|
    ensures Trusted(run[i], lengths, i, m, asOf)
  {
    hide Recurs, Trusted, NothingRecorded, AttemptedAndLost;
    if i == 0 {
      NothingRecordedIsTrusted(run[0], lengths, m, asOf);
    } else {
      RunIsTrusted(run, lengths, i - 1, m, asOf);
      assert AttemptedAndLost(run[i - 1], run[i - 1 + 1], m, asOf, lengths[i - 1]);
      LostKeepsTrust(run[i - 1], run[i], lengths, i - 1, m, asOf);
    }
  }

  // ---------------------------------------------------------------- the run that overclaims

  lemma {:induction false} Stutters(p: Progress, m: Ledger, asOf: nat, prefixLength: nat)
    ensures AttemptedAndLost(p, p, m, asOf, prefixLength)
  {
    hide OutputKeyRanges, RangeRows, ResumeFrom;
    var ranges := OutputKeyRanges(prefixLength);
    var k := ResumeFrom(p.checkpoints, asOf, |ranges|);
    if k > 0 {
      assert p.outputs + multiset{} == p.outputs;
      assert Reaches(p, p, m, asOf, ranges, k, k, multiset{});
    }
    NotDisturbed(p, m, asOf);
    assert Attempted(p, p, m, asOf, prefixLength);
  }

  /** From nothing, up to the end of some range. */
  lemma {:induction false} StopsAfter(m: Ledger, asOf: nat, prefixLength: nat, to: nat)
    requires to <= |OutputKeyRanges(prefixLength)|
    ensures var nothing := Progress(multiset{}, []);
            AttemptedAndLost(nothing, Finished(nothing, m, asOf, OutputKeyRanges(prefixLength), 0, to), m, asOf,
              prefixLength)
  {
    hide OutputKeyRanges, RangeRows, Finished;
    var ranges, nothing := OutputKeyRanges(prefixLength), Progress(multiset{}, []);
    var q := Finished(nothing, m, asOf, ranges, 0, to);
    assert q.outputs + multiset{} == q.outputs;
    assert Start(nothing, 0) == nothing;
    assert Reaches(nothing, q, m, asOf, ranges, 0, to, multiset{});
    NotDisturbed(q, m, asOf);
    assert Attempted(nothing, q, m, asOf, prefixLength);
  }

  /** A start from nothing that stops after its clear. */
  lemma {:induction false} StopsCleared(p: Progress, m: Ledger, asOf: nat, prefixLength: nat)
    requires ResumeFrom(p.checkpoints, asOf, |OutputKeyRanges(prefixLength)|) == 0
    ensures AttemptedAndLost(p, p.(outputs := multiset{}), m, asOf, prefixLength)
  {
    hide OutputKeyRanges;
    var q := p.(outputs := multiset{});
    NotDisturbed(q, m, asOf);
    assert Attempted(p, q, m, asOf, prefixLength);
  }

  lemma {:induction false} FinishedResume(m: Ledger, asOf: nat, prefixLength: nat, to: nat)
    requires 0 < to <= |OutputKeyRanges(prefixLength)|
    ensures var q := Finished(Progress(multiset{}, []), m, asOf, OutputKeyRanges(prefixLength), 0, to);
            && ResumeFrom(q.checkpoints, asOf, |OutputKeyRanges(prefixLength)|) == to
            && forall n :: n != prefixLength ==> ResumeFrom(q.checkpoints, asOf, |OutputKeyRanges(n)|) == 0
  {
    hide OutputKeyRanges, RangeRows;
    forall n | n != prefixLength ensures |OutputKeyRanges(n)| != |OutputKeyRanges(prefixLength)| {
      SplitsDiffer(n, prefixLength);
    }
  }

  /**
   * Ranges up to some key's are finished under one split, a clear under another one stops before its first
   * checkpoint, and the first split resumes above the key, which is missing.
   */
  lemma {:induction false} StaleCheckpointOverclaims(lengths: seq<nat>, m: Ledger, asOf: nat, key: OutputKey, i: nat,
      j: nat, k: nat)
    returns (run: seq<Progress>)
    requires i < j < k < |lengths| && lengths[i] == lengths[k] != lengths[j] && lengths[i] > 0 && key in m
    ensures IsMaterialization(run, lengths, m, asOf) && |run| == k + 1 && Overclaims(run[k], m, asOf, lengths[k])
    ensures run[k].outputs == multiset{}
  {
    hide OutputKeyRanges, ResumeFrom, Finished, AttemptedAndLost, Partition;
    var ranges := OutputKeyRanges(lengths[i]);
    var r := RangeOf(lengths[i], key);
    var nothing := Progress(multiset{}, []);
    var done := Finished(nothing, m, asOf, ranges, 0, r + 1);
    var stale := done.(outputs := multiset{});
    FinishedResume(m, asOf, lengths[i], r + 1);
    run := seq(k + 1, x => if x <= i then nothing else if x <= j then done else stale);
    forall x | 0 <= x < k ensures AttemptedAndLost(run[x], run[x + 1], m, asOf, lengths[x]) {
      if x == i {
        StopsAfter(m, asOf, lengths[i], r + 1);
      } else if x == j {
        StopsCleared(done, m, asOf, lengths[j]);
      } else {
        Stutters(run[x], m, asOf, lengths[x]);
      }
    }
    NotFilled(m, ranges, key, r);
  }

  lemma {:induction false} RangeOf(prefixLength: nat, key: OutputKey) returns (r: nat)
    requires prefixLength > 0
    ensures r < |OutputKeyRanges(prefixLength)| && InRange(key, OutputKeyRanges(prefixLength)[r])
  {
    hide InRange, OutputKeyRanges;
    OutputKeyRangesPartition(prefixLength);
    assert InExactlyOne(OutputKeyRanges(prefixLength), key);
    r :| 0 <= r < |OutputKeyRanges(prefixLength)| && InRange(key, OutputKeyRanges(prefixLength)[r]);
  }

  lemma {:induction false} NotFilled(m: Ledger, ranges: seq<StringRange>, key: OutputKey, r: nat)
    requires r < |ranges| && key in m && InRange(key, ranges[r])
    ensures !FilledUpTo(multiset{}, m, ranges, r + 1)
  {
    var nothing: Table<OutputKey, Output> := multiset{};
    assert !HasRow(nothing, key);
    assert !Filled(nothing, m, ranges[r]);
  }

  /**
   * A checkpoint can overclaim exactly when there is something to materialize and a split is used again after another.
   */
  lemma {:induction false} OverclaimsExactlyWhenSplitRecurs(lengths: seq<nat>, m: Ledger, asOf: nat)
    requires forall i :: 0 <= i < |lengths| ==> lengths[i] > 0
    ensures SomeRunOverclaims(lengths, m, asOf) <==> m != map[] && Recurs(lengths)
  {
    hide OutputKeyRanges, IsMaterialization, ResumeFrom, Trusted, Claims;
    if SomeRunOverclaims(lengths, m, asOf) {
      var run :| OverclaimsAtEnd(run, lengths, m, asOf);
      RunLength(run, lengths, m, asOf);
      var last := |run| - 1;
      if !Recurs(lengths) {
        RunIsTrusted(run, lengths, last, m, asOf);
        TrustedClaims(run[last], lengths, last, m, asOf);
        ResumeIsRight(run[last], m, asOf, OutputKeyRanges(lengths[last]));
        assert false;
      }
      SomethingMissing(run[last], m, asOf, lengths[last]);
    }
    if m != map[] && Recurs(lengths) {
      var i, j, k :| 0 <= i < j < k < |lengths| && lengths[i] == lengths[k] != lengths[j];
      var key :| key in m;
      var run := StaleCheckpointOverclaims(lengths, m, asOf, key, i, j, k);
      assert OverclaimsAtEnd(run, lengths, m, asOf);
    }
  }

  lemma {:induction false} RunLength(run: seq<Progress>, lengths: seq<nat>, m: Ledger, asOf: nat)
    requires IsMaterialization(run, lengths, m, asOf)
    ensures 0 < |run| <= |lengths|
  {}

  lemma {:induction false} SomethingMissing(p: Progress, m: Ledger, asOf: nat, prefixLength: nat)
    requires Overclaims(p, m, asOf, prefixLength)
    ensures m != map[]
  {
    hide OutputKeyRanges, ResumeFrom, InRange;
  }

  // ---------------------------------------------------------------- rows that land after all

  /** Rows of given-up statements that land after the current state of the same chain is complete change nothing. */
  lemma {:induction false} LateRowsHarmless(t: CoreTables, chain: seq<Block>, late: Table<OutputKey, Output>)
    requires Current(t, chain, true) && chain != [] && Sound(late, Unspent(LedgerOf(chain)), |chain| - 1)
    ensures Current(t.(outputs := t.outputs + late), chain, true)
  {
    hide LedgerOf, BalancesAre, Headers;
    var c, amounts :| CurrentIs(t, chain, c, amounts, true);
    LateRowsFaithful(t.outputs, late, c, LedgerOf(chain), |chain| - 1);
    assert CurrentIs(t.(outputs := t.outputs + late), chain, c, amounts, true);
  }

  lemma {:induction false} LateRowsFaithful(outputs: Table<OutputKey, Output>, late: Table<OutputKey, Output>,
      c: Ledger, m: Ledger, asOf: nat)
    requires Faithful(outputs, c) && View(c, m, true) && Sound(late, Unspent(m), asOf)
    requires Bounded(outputs, 2 * (asOf + 1))
    ensures Faithful(outputs + late, c) && Bounded(outputs + late, 2 * (asOf + 1))
  {
    hide Highest;
    var u := outputs + late;
    forall r | r in u ensures r.key in c && (Highest(u, r) ==> r.value == c[r.key]) {
      if r in outputs && Highest(u, r) { HighestInPart(outputs, late, r); }
    }
    forall k | k in c ensures HasHighest(u, k) {
      var r :| r in outputs && r.key == k && Highest(outputs, r);
      HighestExists(u, r);
    }
  }

  lemma {:induction false} HighestInPart(t: Table<OutputKey, Output>, more: Table<OutputKey, Output>,
      r: Row<OutputKey, Output>)
    requires r in t && Highest(t + more, r)
    ensures Highest(t, r)
  {
    forall s | s in t && s.key == r.key ensures s.version <= r.version { assert s in t + more; }
  }
}
