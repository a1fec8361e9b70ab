/** The leader lease: a stored value changed only by compare-and-swap, judged by clocks that disagree. */
module Lease {
  import opened Chain

  type Id = string

  datatype Lease = Lease(holder: Id, beat: int)

  /** What may be stored under the lease key; older versions wrote a plain string. */
  datatype Value = Held(lease: Lease) | Legacy(text: string)

  /** One compare-and-swap: not executed yet, or executed with this outcome. */
  datatype Request = Request(expected: Option<Value>, next: Lease, renewal: bool, outcome: Option<bool>)

  /**
   * Each instance waits for at most one request; its own lease is what it last heard it had written. Requests that
   * were given up may still be under way to the database.
   */
  datatype State = State(
    now: int, stored: Option<Value>, own: map<Id, Lease>, pending: map<Id, Request>, late: set<Request>)

  /** How far each instance's clock is ahead of true time, and the heartbeat interval. */
  datatype Setting = Setting(offset: map<Id, int>, interval: nat)

  function Clock(s: State, c: Setting, i: Id): int
    requires i in c.offset
  {
    s.now + c.offset[i]
  }

  /** An instance trusts a lease it wrote less than one heartbeat ago. */
  predicate HasFreshLease(s: State, c: Setting, i: Id) {
    i in c.offset && i in s.own && Clock(s, c, i) - s.own[i].beat < c.interval
  }

  /** Another instance's lease counts as alive for three heartbeats. */
  predicate LooksAlive(s: State, c: Setting, i: Id, lease: Lease)
    requires i in c.offset
  {
    Clock(s, c, i) - lease.beat <= 3 * c.interval
  }

  // ---------------------------------------------------------------- steps

  predicate Tick(s: State, t: State, d: nat) {
    t == s.(now := s.now + d)
  }

  function Send(s: State, c: Setting, i: Id, expected: Option<Value>, renewal: bool): State
    requires i in c.offset
  {
    s.(pending := s.pending[i := Request(expected, Lease(i, Clock(s, c, i)), renewal, None)])
  }

  /**
   * One round of asking for leadership, having read some value, stored now or long ago: claim what is no lease, renew
   * one's own, leave a live one alone and give up one's own claim, take over a stale one. A lease of its own that it
   * reads was written by its own clock.
   */
  predicate Ask(s: State, t: State, c: Setting, i: Id, read: Option<Value>) {
    && i in c.offset && i !in s.pending && !HasFreshLease(s, c, i)
    && (read.Some? && read.value.Held? && read.value.lease.holder == i ==> read.value.lease.beat <= Clock(s, c, i))
    && if read.None? || read.value.Legacy? then t == Send(s, c, i, read, false)
       else if read.value.lease.holder == i then t == Send(s, c, i, read, true)
       else if LooksAlive(s, c, i, read.value.lease) then t == s.(own := s.own - {i})
       else t == Send(s, c, i, read, false)
  }

  predicate Heartbeat(s: State, t: State, c: Setting, i: Id) {
    i in c.offset && i !in s.pending && i in s.own && t == Send(s, c, i, Some(Held(s.own[i])), true)
  }

  /** The database swaps only when it still holds the expected value. */
  predicate Execute(s: State, t: State, i: Id) {
    && i in s.pending && s.pending[i].outcome.None?
    && var r := s.pending[i];
       if s.stored == r.expected
       then t == s.(stored := Some(Held(r.next)), pending := s.pending[i := r.(outcome := Some(true))])
       else t == s.(pending := s.pending[i := r.(outcome := Some(false))])
  }

  predicate Answer(s: State, t: State, i: Id) {
    && i in s.pending && s.pending[i].outcome.Some?
    && t == s.(pending := s.pending - {i},
               own := if s.pending[i].outcome.value then s.own[i := s.pending[i].next] else s.own - {i})
  }

  /**
   * The answer never arrives: a failed renewal drops the lease, a failed claim changes nothing. The request itself may
   * still reach the database.
   */
  predicate Lose(s: State, t: State, i: Id) {
    && i in s.pending
    && t == s.(pending := s.pending - {i}, own := if s.pending[i].renewal then s.own - {i} else s.own,
               late := if s.pending[i].outcome.None? then s.late + {s.pending[i]} else s.late)
  }

  /** The database executes a request after its sender gave it up, once or again. */
  predicate ExecuteLate(s: State, t: State, r: Request) {
    r in s.late && t == s.(stored := if s.stored == r.expected then Some(Held(r.next)) else s.stored)
  }

  datatype Step =
    | TickStep(d: nat) | AskStep(i: Id, read: Option<Value>) | HeartbeatStep(i: Id) | ExecuteStep(i: Id)
    | AnswerStep(i: Id) | LoseStep(i: Id) | ExecuteLateStep(r: Request)

  predicate Takes(s: State, t: State, c: Setting, step: Step) {
    match step
    case TickStep(d) => Tick(s, t, d)
    case AskStep(i, read) => Ask(s, t, c, i, read)
    case HeartbeatStep(i) => Heartbeat(s, t, c, i)
    case ExecuteStep(i) => Execute(s, t, i)
    case AnswerStep(i) => Answer(s, t, i)
    case LoseStep(i) => Lose(s, t, i)
    case ExecuteLateStep(r) => ExecuteLate(s, t, r)
  }

  predicate IsRun(states: seq<State>, steps: seq<Step>, c: Setting) {
    && |states| == |steps| + 1
    && states[0].own == map[] && states[0].pending == map[] && states[0].late == {}
    && (states[0].stored.None? || states[0].stored.value.Legacy?)
    && forall k :: 0 <= k < |steps| ==> Takes(states[k], states[k + 1], c, steps[k])
  }

  const NO_ONE := State(0, None, map[], map[], {})

  // ---------------------------------------------------------------- safety

  /** Clocks agree up to two heartbeats; times are whole milliseconds, which buys one more. */
  predicate Synchronised(c: Setting) {
    forall i, j :: i in c.offset && j in c.offset ==> c.offset[i] - c.offset[j] <= 2 * c.interval + 1
  }

  predicate StoredBy(s: State, i: Id) {
    s.stored.Some? && s.stored.value.Held? && s.stored.value.lease.holder == i
  }

  /** What is stored is a lease at least as recent as this one. */
  predicate Reached(s: State, lease: Lease) {
    s.stored.Some? && s.stored.value.Held? && lease.beat <= s.stored.value.lease.beat
  }

  /** A lease of i that it holds or has been granted: its lease is still the stored one, or it is too old to trust. */
  predicate Backed(s: State, c: Setting, i: Id, lease: Lease)
    requires i in c.offset
  {
    && lease.holder == i && lease.beat <= Clock(s, c, i) && Reached(s, lease)
    && (StoredBy(s, i) || Clock(s, c, i) - lease.beat >= c.interval)
  }

  /** A request renews its sender's lease, or replaces one that was stale by the sender's clock. */
  predicate Supersedes(c: Setting, r: Request) {
    r.expected.Some? && r.expected.value.Held? ==>
      var lease := r.expected.value.lease;
      if lease.holder == r.next.holder then lease.beat <= r.next.beat else lease.beat + 3 * c.interval < r.next.beat
  }

  /** What holds of every request for good, whether its sender still waits for it or not. */
  predicate Sent(s: State, c: Setting, r: Request) {
    r.next.holder in c.offset && r.next.beat <= Clock(s, c, r.next.holder) && Supersedes(c, r)
  }

  /** What holds of one instance. */
  predicate Sound(s: State, c: Setting, i: Id) {
    && (i in s.own ==> i in c.offset && Backed(s, c, i, s.own[i]))
    && (i in s.pending ==>
          var r := s.pending[i];
          Sent(s, c, r) && r.next.holder == i && (r.outcome == Some(true) ==> Backed(s, c, i, r.next)))
  }

  predicate StoredSound(s: State, c: Setting) {
    s.stored.Some? && s.stored.value.Held? ==>
      var lease := s.stored.value.lease; lease.holder in c.offset && lease.beat <= Clock(s, c, lease.holder)
  }

  ghost predicate Inv(s: State, c: Setting) {
    StoredSound(s, c) && (forall i :: Sound(s, c, i)) && forall r <- s.late :: Sent(s, c, r)
  }

  /** The database swaps in a request's lease: nothing but the stored value and the request's outcome change. */
  predicate Swaps(s: State, t: State, r: Request) {
    && s.stored == r.expected && t.stored == Some(Held(r.next)) && t.now == s.now && t.own == s.own && t.late == s.late
    && t.pending.Keys == s.pending.Keys
    && forall j <- s.pending ::
         t.pending[j] == s.pending[j] || (j == r.next.holder && t.pending[j] == r.(outcome := Some(true)))
  }

  lemma {:induction false} SwapBacks(s: State, t: State, c: Setting, r: Request, j: Id, lease: Lease)
    requires Synchronised(c) && Swaps(s, t, r) && Sent(s, c, r) && j in c.offset
    requires (lease == r.next && j == r.next.holder) || Backed(s, c, j, lease)
    ensures Backed(t, c, j, lease)
  {
    if j != r.next.holder && StoredBy(s, j) {
      assert c.offset[r.next.holder] - c.offset[j] <= 2 * c.interval + 1;
    }
  }

  lemma {:induction false} SwapKeepsInv(s: State, t: State, c: Setting, r: Request)
    requires Inv(s, c) && Synchronised(c) && Swaps(s, t, r) && Sent(s, c, r)
    ensures Inv(t, c)
  {
    hide Backed, Synchronised;
    forall j ensures Sound(t, c, j) {
      assert Sound(s, c, j);
      if j in s.own { SwapBacks(s, t, c, r, j, s.own[j]); }
      if j in s.pending && t.pending[j].outcome == Some(true) { SwapBacks(s, t, c, r, j, t.pending[j].next); }
    }
  }

  lemma {:induction false} TickKeepsInv(s: State, t: State, c: Setting, d: nat)
    requires Inv(s, c) && Tick(s, t, d)
    ensures Inv(t, c)
  {
    forall j ensures Sound(t, c, j) { assert Sound(s, c, j); }
  }

  /** Nothing but one instance's own lease and request changes. */
  predicate OnlyTouches(s: State, t: State, i: Id) {
    && t.now == s.now && t.stored == s.stored
    && (forall r <- t.late :: r in s.late || (i in s.pending && r == s.pending[i]))
    && (forall j <- s.own.Keys + t.own.Keys :: j != i ==> j in s.own && j in t.own && s.own[j] == t.own[j])
    && (forall j <- s.pending.Keys + t.pending.Keys :: j != i ==>
       j in s.pending && j in t.pending && s.pending[j] == t.pending[j])
  }

  lemma {:induction false} LocalKeepsInv(s: State, t: State, c: Setting, i: Id)
    requires Inv(s, c) && OnlyTouches(s, t, i) && Sound(t, c, i)
    ensures Inv(t, c)
  {
    assert Sound(s, c, i);
    forall j ensures Sound(t, c, j) {
      assert Sound(s, c, j);
      if j != i {
        assert j in s.own <==> j in t.own;
        assert j in s.pending <==> j in t.pending;
      }
    }
  }

  lemma {:induction false} SendSound(s: State, c: Setting, i: Id, expected: Option<Value>, renewal: bool)
    requires Inv(s, c) && i in c.offset
    requires Supersedes(c, Request(expected, Lease(i, Clock(s, c, i)), renewal, None))
    ensures Inv(Send(s, c, i, expected, renewal), c)
  {
    var t := Send(s, c, i, expected, renewal);
    assert Sound(s, c, i);
    assert Sound(t, c, i);
    LocalKeepsInv(s, t, c, i);
  }

  lemma {:induction false} AskKeepsInv(s: State, t: State, c: Setting, i: Id, read: Option<Value>)
    requires Inv(s, c) && Ask(s, t, c, i, read)
    ensures Inv(t, c)
  {
    hide Inv, Send;
    if read.Some? && read.value.Held? && read.value.lease.holder != i && LooksAlive(s, c, i, read.value.lease) {
      ReleaseKeepsInv(s, t, c, i);
    } else {
      SendSound(s, c, i, read, read.Some? && read.value.Held? && read.value.lease.holder == i);
    }
  }

  lemma {:induction false} ReleaseKeepsInv(s: State, t: State, c: Setting, i: Id)
    requires Inv(s, c) && t == s.(own := s.own - {i})
    ensures Inv(t, c)
  {
    assert Sound(s, c, i);
    assert Sound(t, c, i);
    LocalKeepsInv(s, t, c, i);
  }

  lemma {:induction false} ExecuteKeepsInv(s: State, t: State, c: Setting, i: Id)
    requires Inv(s, c) && Synchronised(c) && Execute(s, t, i)
    ensures Inv(t, c)
  {
    assert Sound(s, c, i);
    if s.stored == s.pending[i].expected {
      SwapKeepsInv(s, t, c, s.pending[i]);
    } else {
      assert Sound(t, c, i);
      LocalKeepsInv(s, t, c, i);
    }
  }

  lemma {:induction false} LateKeepsInv(s: State, t: State, c: Setting, r: Request)
    requires Inv(s, c) && Synchronised(c) && ExecuteLate(s, t, r)
    ensures Inv(t, c)
  {
    if s.stored == r.expected { SwapKeepsInv(s, t, c, r); }
  }

  lemma {:induction false} EndKeepsInv(s: State, t: State, c: Setting, i: Id)
    requires Inv(s, c) && (Answer(s, t, i) || Lose(s, t, i))
    ensures Inv(t, c)
  {
    assert Sound(s, c, i);
    assert Sound(t, c, i);
    LocalKeepsInv(s, t, c, i);
  }

  lemma {:induction false} StepKeepsInv(s: State, t: State, c: Setting, step: Step)
    requires Inv(s, c) && Synchronised(c) && Takes(s, t, c, step)
    ensures Inv(t, c)
  {
    hide Inv, Send, Synchronised, Tick, Ask, Heartbeat, Execute, Answer, Lose, ExecuteLate;
    match step
    case TickStep(d) => TickKeepsInv(s, t, c, d);
    case AskStep(i, read) => AskKeepsInv(s, t, c, i, read);
    case HeartbeatStep(i) => HeartbeatKeepsInv(s, t, c, i);
    case ExecuteStep(i) => ExecuteKeepsInv(s, t, c, i);
    case AnswerStep(i) => EndKeepsInv(s, t, c, i);
    case LoseStep(i) => EndKeepsInv(s, t, c, i);
    case ExecuteLateStep(r) => LateKeepsInv(s, t, c, r);
  }

  lemma {:induction false} HeartbeatKeepsInv(s: State, t: State, c: Setting, i: Id)
    requires Inv(s, c) && Heartbeat(s, t, c, i)
    ensures Inv(t, c)
  {
    assert Sound(s, c, i);
    hide Inv, Send;
    SendSound(s, c, i, Some(Held(s.own[i])), true);
  }

  lemma {:induction false} RunKeepsInv(states: seq<State>, steps: seq<Step>, c: Setting, k: nat)
    requires IsRun(states, steps, c) && Synchronised(c) && k < |states|
    ensures Inv(states[k], c)
  {
    if k > 0 {
      RunKeepsInv(states, steps, c, k - 1);
      StepKeepsInv(states[k - 1], states[k], c, steps[k - 1]);
    }
  }

  /** Over every interleaving no two instances trust their leases at once. */
  lemma {:induction false} AtMostOneFreshLeader(states: seq<State>, steps: seq<Step>, c: Setting, k: nat, i: Id, j: Id)
    requires IsRun(states, steps, c) && Synchronised(c) && k < |states|
    requires HasFreshLease(states[k], c, i) && HasFreshLease(states[k], c, j)
    ensures i == j
  {
    RunKeepsInv(states, steps, c, k);
    assert Sound(states[k], c, i) && Sound(states[k], c, j);
  }

  // ---------------------------------------------------------------- a replaced lease

  /** Whatever the clocks do: what holds of the stored lease, of each own lease and of every request. */
  predicate Timely(s: State, c: Setting) {
    && StoredSound(s, c)
    && (forall i <- s.own :: i in c.offset && s.own[i].holder == i && s.own[i].beat <= Clock(s, c, i))
    && (forall i <- s.pending :: s.pending[i].next.holder == i && Sent(s, c, s.pending[i]))
    && forall r <- s.late :: Sent(s, c, r)
  }

  /** The stored lease is this one, a renewal of it, or newer. */
  predicate Follows(s: State, lease: Lease) {
    && s.stored.Some? && s.stored.value.Held? && lease.beat <= s.stored.value.lease.beat
    && (s.stored.value.lease.holder != lease.holder ==> lease.beat < s.stored.value.lease.beat)
  }

  lemma {:induction false} StepStaysTimely(s: State, t: State, c: Setting, step: Step, lease: Lease)
    requires Timely(s, c) && Takes(s, t, c, step)
    ensures Timely(t, c) && (Follows(s, lease) ==> Follows(t, lease))
  {
    hide Timely, Follows, Ask, Heartbeat, Execute, Answer, Lose, ExecuteLate;
    match step
    case TickStep(d) => TickStaysTimely(s, t, c, d, lease);
    case AskStep(i, read) => AskStaysTimely(s, t, c, i, read, lease);
    case HeartbeatStep(i) => HeartbeatStaysTimely(s, t, c, i, lease);
    case ExecuteStep(i) => SwapStaysTimely(s, t, c, i, lease);
    case AnswerStep(i) => EndStaysTimely(s, t, c, i, lease);
    case LoseStep(i) => EndStaysTimely(s, t, c, i, lease);
    case ExecuteLateStep(r) => LateStaysTimely(s, t, c, r, lease);
  }

  lemma {:induction false} TickStaysTimely(s: State, t: State, c: Setting, d: nat, lease: Lease)
    requires Timely(s, c) && Tick(s, t, d)
    ensures Timely(t, c) && (Follows(s, lease) ==> Follows(t, lease))
  {}

  lemma {:induction false} SendStaysTimely(s: State, c: Setting, i: Id, expected: Option<Value>, renewal: bool)
    requires Timely(s, c) && i in c.offset
    requires Supersedes(c, Request(expected, Lease(i, Clock(s, c, i)), renewal, None))
    ensures Timely(Send(s, c, i, expected, renewal), c)
  {}

  lemma {:induction false} AskStaysTimely(s: State, t: State, c: Setting, i: Id, read: Option<Value>, lease: Lease)
    requires Timely(s, c) && Ask(s, t, c, i, read)
    ensures Timely(t, c) && (Follows(s, lease) ==> Follows(t, lease))
  {
    if read.Some? && read.value.Held? && read.value.lease.holder != i && LooksAlive(s, c, i, read.value.lease) {
    } else {
      hide Timely;
      SendStaysTimely(s, c, i, read, read.Some? && read.value.Held? && read.value.lease.holder == i);
    }
  }

  lemma {:induction false} HeartbeatStaysTimely(s: State, t: State, c: Setting, i: Id, lease: Lease)
    requires Timely(s, c) && Heartbeat(s, t, c, i)
    ensures Timely(t, c) && (Follows(s, lease) ==> Follows(t, lease))
  {
    SendStaysTimely(s, c, i, Some(Held(s.own[i])), true);
  }

  lemma {:induction false} EndStaysTimely(s: State, t: State, c: Setting, i: Id, lease: Lease)
    requires Timely(s, c) && (Answer(s, t, i) || Lose(s, t, i))
    ensures Timely(t, c) && (Follows(s, lease) ==> Follows(t, lease))
  {}

  lemma {:induction false} SwapStaysTimely(s: State, t: State, c: Setting, i: Id, lease: Lease)
    requires Timely(s, c) && Execute(s, t, i)
    ensures Timely(t, c) && (Follows(s, lease) ==> Follows(t, lease))
  {
    assert Sent(s, c, s.pending[i]);
  }

  lemma {:induction false} LateStaysTimely(s: State, t: State, c: Setting, r: Request, lease: Lease)
    requires Timely(s, c) && ExecuteLate(s, t, r)
    ensures Timely(t, c) && (Follows(s, lease) ==> Follows(t, lease))
  {
    assert Sent(s, c, r);
  }

  lemma {:induction false} RunIsTimely(states: seq<State>, steps: seq<Step>, c: Setting, k: nat)
    requires IsRun(states, steps, c) && k < |states|
    ensures Timely(states[k], c)
  {
    if k > 0 {
      RunIsTimely(states, steps, c, k - 1);
      StepStaysTimely(states[k - 1], states[k], c, steps[k - 1], Lease("", 0));
    }
  }

  lemma {:induction false} LeasesFollow(states: seq<State>, steps: seq<Step>, c: Setting, k: nat, n: nat, lease: Lease)
    requires IsRun(states, steps, c) && k <= n < |states| && Follows(states[k], lease)
    ensures Follows(states[n], lease)
  {
    hide Takes, Timely, Follows;
    if k < n {
      LeasesFollow(states, steps, c, k, n - 1, lease);
      RunIsTimely(states, steps, c, n - 1);
      StepStaysTimely(states[n - 1], states[n], c, steps[n - 1], lease);
    }
  }

  /** The request that a step executes, in time or late. */
  function Executed(s: State, step: Step): Option<Request> {
    match step
    case ExecuteStep(i) => if i in s.pending then Some(s.pending[i]) else None
    case ExecuteLateStep(r) => Some(r)
    case _ => None
  }

  /**
   * Once another instance's lease has taken the place of a stored one, no request that expects the old lease, sent by
   * its holder or by anyone, waited for or given up, ever succeeds later in the run: the old lease is never stored
   * again.
   */
  lemma {:induction false} ReplacedHolderCannotRenew(states: seq<State>, steps: seq<Step>, c: Setting, first: nat,
      k: nat, n: nat, lease: Lease)
    requires IsRun(states, steps, c) && first <= k <= n < |steps|
    requires states[first].stored == Some(Held(lease))
    requires states[k].stored.Some? && states[k].stored.value.Held?
             && states[k].stored.value.lease.holder != lease.holder
    ensures states[n].stored != Some(Held(lease))
    ensures var r := Executed(states[n], steps[n]);
            r.Some? && r.value.expected == Some(Held(lease)) ==> states[n + 1].stored == states[n].stored
    ensures steps[n].ExecuteStep? && steps[n].i in states[n].pending
            && states[n].pending[steps[n].i].expected == Some(Held(lease)) ==>
              steps[n].i in states[n + 1].pending && states[n + 1].pending[steps[n].i].outcome == Some(false)
  {
    LeasesFollow(states, steps, c, first, k, lease);
    var newer := states[k].stored.value.lease;
    LeasesFollow(states, steps, c, k, n, newer);
    assert Takes(states[n], states[n + 1], c, steps[n]);
  }

  // ---------------------------------------------------------------- what an instance trusts

  /**
   * An instance comes to hold a lease only by hearing that its own request was granted, and holds none once a renewal
   * has failed, has not been answered, or another instance's lease was seen to be alive.
   */
  lemma {:induction false} HoldsOnlyWhatWasGranted(s: State, t: State, c: Setting, step: Step, i: Id)
    requires Timely(s, c) && Takes(s, t, c, step)
    ensures i in t.own ==> || (i in s.own && t.own[i] == s.own[i])
                           || (step == AnswerStep(i) && i in s.pending && s.pending[i].outcome == Some(true)
                               && t.own[i] == s.pending[i].next)
    ensures step == AnswerStep(i) && s.pending[i].outcome == Some(false) ==> i !in t.own
    ensures step == LoseStep(i) && s.pending[i].renewal ==> i !in t.own
    ensures step == LoseStep(i) && !s.pending[i].renewal && i in s.own ==> i in t.own
    ensures forall lease :: step == AskStep(i, Some(Held(lease))) && lease.holder != i && LooksAlive(s, c, i, lease) ==>
              i !in t.own
  {
    hide Timely, Sent;
  }

  /** A claim that its sender has given up may still take effect: its lease is stored, and nobody trusts it. */
  lemma {:induction false} LateClaimArrives(c: Setting, i: Id) returns (states: seq<State>, steps: seq<Step>)
    requires i in c.offset
    ensures IsRun(states, steps, c)
    ensures var t := states[|states| - 1];
            t.stored == Some(Held(Lease(i, c.offset[i]))) && t.own == map[] && t.pending == map[]
  {
    var r := Request(None, Lease(i, c.offset[i]), false, None);
    var asked := NO_ONE.(pending := map[i := r]);
    var lost := NO_ONE.(late := {r});
    assert asked.pending - {i} == map[];
    states, steps := [NO_ONE, asked, lost, lost.(stored := Some(Held(r.next)))],
      [AskStep(i, None), LoseStep(i), ExecuteLateStep(r)];
    assert Takes(states[0], states[1], c, steps[0]) && Takes(states[1], states[2], c, steps[1])
           && Takes(states[2], states[3], c, steps[2]);
  }

  // ---------------------------------------------------------------- clocks further apart

  /** The first claim of an empty key, then a wait, then a takeover by an instance whose clock runs ahead. */
  function TakeoverSteps(i: Id, j: Id, beat: int, wait: nat): seq<Step> {
    [AskStep(i, None), ExecuteStep(i), AnswerStep(i), TickStep(wait),
     AskStep(j, Some(Held(Lease(i, beat)))), ExecuteStep(j), AnswerStep(j)]
  }

  function TakeoverStates(i: Id, j: Id, c: Setting, wait: nat): seq<State>
    requires i in c.offset && j in c.offset
  {
    var mine := Lease(i, c.offset[i]);
    var theirs := Lease(j, wait + c.offset[j]);
    var r, q := Request(None, mine, false, None), Request(Some(Held(mine)), theirs, false, None);
    var s3 := State(0, Some(Held(mine)), map[i := mine], map[], {});
    var s4 := s3.(now := wait);
    [NO_ONE,
     NO_ONE.(pending := map[i := r]),
     NO_ONE.(pending := map[i := r.(outcome := Some(true))], stored := Some(Held(mine))),
     s3,
     s4,
     s4.(pending := map[j := q]),
     s4.(pending := map[j := q.(outcome := Some(true))], stored := Some(Held(theirs))),
     State(wait, Some(Held(theirs)), map[i := mine, j := theirs], map[], {})]
  }

  lemma {:induction false} ClaimIsRun(i: Id, j: Id, c: Setting, wait: nat)
    requires i in c.offset && j in c.offset && c.interval >= 1
    ensures var states, steps := TakeoverStates(i, j, c, wait), TakeoverSteps(i, j, c.offset[i], wait);
            forall k :: 0 <= k < 4 ==> Takes(states[k], states[k + 1], c, steps[k])
  {
    var states, steps := TakeoverStates(i, j, c, wait), TakeoverSteps(i, j, c.offset[i], wait);
    assert states[2].pending - {i} == map[];
    assert Takes(states[0], states[1], c, steps[0]) && Takes(states[1], states[2], c, steps[1]);
    assert Takes(states[2], states[3], c, steps[2]) && Takes(states[3], states[4], c, steps[3]);
  }

  lemma {:induction false} TakeoverIsRun(i: Id, j: Id, c: Setting, wait: nat)
    requires i != j && i in c.offset && j in c.offset && c.interval >= 1
    requires wait + c.offset[j] - c.offset[i] > 3 * c.interval
    ensures var states, steps := TakeoverStates(i, j, c, wait), TakeoverSteps(i, j, c.offset[i], wait);
            forall k :: 4 <= k < 7 ==> Takes(states[k], states[k + 1], c, steps[k])
  {
    var states, steps := TakeoverStates(i, j, c, wait), TakeoverSteps(i, j, c.offset[i], wait);
    assert states[6].pending - {j} == map[];
    assert Takes(states[4], states[5], c, steps[4]) && Takes(states[5], states[6], c, steps[5])
           && Takes(states[6], states[7], c, steps[6]);
  }

  ghost predicate TwoFreshLeaders(c: Setting) {
    exists states, steps, k: nat, i, j ::
      IsRun(states, steps, c) && k < |states| && i != j && HasFreshLease(states[k], c, i)
        && HasFreshLease(states[k], c, j)
  }

  /** Two fresh leaders are possible exactly when some clock runs too far ahead of another. */
  lemma {:induction false} SafeExactlyWhenSynchronised(c: Setting)
    requires c.interval >= 1
    ensures TwoFreshLeaders(c) <==> !Synchronised(c)
  {
    if !Synchronised(c) {
      var j, i :| j in c.offset && i in c.offset && c.offset[j] - c.offset[i] > 2 * c.interval + 1;
      var ahead := c.offset[j] - c.offset[i];
      var wait: nat := if ahead > 3 * c.interval then 0 else 3 * c.interval + 1 - ahead;
      var states, steps := TakeoverStates(i, j, c, wait), TakeoverSteps(i, j, c.offset[i], wait);
      ClaimIsRun(i, j, c, wait);
      TakeoverIsRun(i, j, c, wait);
      assert IsRun(states, steps, c);
      assert HasFreshLease(states[7], c, i) && HasFreshLease(states[7], c, j);
      assert TwoFreshLeaders(c);
    }
    if TwoFreshLeaders(c) && Synchronised(c) {
      var states, steps, k: nat, i, j :|
        IsRun(states, steps, c) && k < |states| && i != j && HasFreshLease(states[k], c, i)
          && HasFreshLease(states[k], c, j);
      AtMostOneFreshLeader(states, steps, c, k, i, j);
    }
  }
}
