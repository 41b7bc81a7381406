/** When the heartbeat's renewals reach Redis, in nanoseconds of one clock.

    Redis compares whole milliseconds, and the worker learns of its reservation only when the
    reply arrives, so how slow that reply may be is a question about rounding. */
module LeaseTiming {
  import opened JobRecords
  import opened JobQueue
  import opened QueueBatches
  import Q = QueueRuns

  const MS := 1_000_000

  /** The reserve script ran at `reservedAt`; its reply arrived and the ticker was started at
      `startedAt`; renewal k reached Redis at exec[k] and was answered at done[k]. */
  datatype Schedule = Schedule(lease: nat, reservedAt: nat, startedAt: nat, exec: seq<nat>, done: seq<nat>)

  function Interval(lease: nat): nat {
    lease / 3
  }

  function Millis(t: nat): nat {
    t / MS
  }

  function Max(a: nat, b: nat): nat {
    if a <= b then b else a
  }

  function Tick(s: Schedule, k: nat): nat {
    (if k == 0 then s.startedAt else Tick(s, k - 1)) + Interval(s.lease)
  }

  /** A renewal starts at its tick, or when the previous call returns if that is later. */
  function Begin(s: Schedule, k: nat): nat
    requires k < |s.done|
  {
    if k == 0 then Tick(s, 0) else Max(Tick(s, k), s.done[k - 1])
  }

  /** Every request is given one interval; a goroutine that can run runs at once. */
  ghost predicate Possible(s: Schedule) {
    && s.reservedAt <= s.startedAt
    && |s.exec| == |s.done|
    && forall k :: 0 <= k < |s.exec| ==> InTime(s, k)
  }

  predicate InTime(s: Schedule, k: nat)
    requires k < |s.exec| == |s.done|
  {
    Begin(s, k) <= s.exec[k] <= s.done[k] <= Begin(s, k) + Interval(s.lease)
  }

  /** NewWithLease replaces anything shorter than 3 ms. */
  predicate WholeLease(lease: nat) {
    lease % MS == 0 && 3 * MS <= lease
  }

  /** The score of the lease while renewal k is on its way, the earlier ones having succeeded. */
  function Deadline(s: Schedule, k: nat): nat
    requires k <= |s.exec|
  {
    Millis(if k == 0 then s.reservedAt else s.exec[k - 1]) + Millis(s.lease)
  }

  /** Renewals never queue up behind each other. */
  lemma {:induction false} BeginsAtTick(s: Schedule, k: nat)
    requires Possible(s) && k < |s.exec|
    ensures Begin(s, k) == Tick(s, k) && InTime(s, k)
  {
    assert InTime(s, k);
    if 0 < k {
      BeginsAtTick(s, k - 1);
      assert InTime(s, k - 1);
    }
  }

  /** Successive renewals reach Redis at most two intervals apart. */
  lemma RenewalGap(s: Schedule, k: nat)
    requires Possible(s) && k < |s.exec|
    ensures s.exec[k] <= (if k == 0 then s.startedAt else s.exec[k - 1]) + 2 * Interval(s.lease)
  {
    BeginsAtTick(s, k);
    if 0 < k {
      BeginsAtTick(s, k - 1);
    }
  }

  lemma MillisGap(a: nat, b: nat, lease: nat)
    requires a <= b && lease % MS == 0 && b - a + MS <= lease
    ensures Millis(b) < Millis(a) + Millis(lease)
  {
  }

  lemma TwoIntervals(lease: nat)
    requires WholeLease(lease)
    ensures 2 * Interval(lease) + MS <= lease
  {
  }

  /** While renewals succeed the lease never lapses, provided the reserve reply took no longer
      than the lease minus two intervals minus the millisecond that rounding can cost. */
  lemma LeaseNeverLapses(s: Schedule, k: nat)
    requires Possible(s) && WholeLease(s.lease) && k < |s.exec|
    requires s.startedAt - s.reservedAt + 2 * Interval(s.lease) + MS <= s.lease
    ensures Millis(s.exec[k]) < Deadline(s, k)
  {
    RenewalGap(s, k);
    BeginsAtTick(s, k);
    TwoIntervals(s.lease);
    if k == 0 {
      MillisGap(s.reservedAt, s.exec[k], s.lease);
    } else {
      BeginsAtTick(s, k - 1);
      MillisGap(s.exec[k - 1], s.exec[k], s.lease);
    }
  }

  /** The slowest schedule for a given reply delay, started just before a millisecond ends. */
  function Slowest(lease: nat, delay: nat): Schedule {
    var exec := MS - 1 + delay + 2 * Interval(lease);
    Schedule(lease, MS - 1, MS - 1 + delay, [exec], [exec])
  }

  ghost predicate AlwaysInTime(lease: nat, delay: nat) {
    forall s: Schedule, k: nat ::
      s.lease == lease && Possible(s) && s.startedAt - s.reservedAt <= delay && k < |s.exec|
      ==> Millis(s.exec[k]) < Deadline(s, k)
  }

  /** The bound on the reply is exact.  In particular "less than a third of the lease" is not
      enough: with any lease a reply that takes a third minus one nanosecond can lose it. */
  lemma ReplyBoundIsExact(lease: nat, delay: nat)
    requires lease % 1_000_000 == 0 && 3_000_000 <= lease
    ensures AlwaysInTime(lease, delay) <==> delay + 2 * (lease / 3) + 1_000_000 <= lease
  {
    if delay + 2 * Interval(lease) + MS <= lease {
      forall s: Schedule, k: nat
        | s.lease == lease && Possible(s) && s.startedAt - s.reservedAt <= delay && k < |s.exec|
        ensures Millis(s.exec[k]) < Deadline(s, k)
      {
        LeaseNeverLapses(s, k);
      }
    } else {
      var s := Slowest(lease, delay);
      assert Possible(s);
      assert Millis(s.exec[0]) >= Deadline(s, 0);
    }
  }

  lemma ThirdOfLeaseIsTooSlow(lease: nat)
    requires lease % 1_000_000 == 0 && 3_000_000 <= lease
    ensures !AlwaysInTime(lease, lease / 3 - 1)
  {
    ReplyBoundIsExact(lease, Interval(lease) - 1);
  }

  // ---- the schedule among everybody else's scripts ---------------------------------------

  /** The reserve reply came soon enough for the first renewal to be in time. */
  predicate ReplyInTime(sch: Schedule) {
    sch.startedAt - sch.reservedAt + 2 * Interval(sch.lease) + MS <= sch.lease
  }

  /** A step that the schedule allows while renewal k is the next one.  On this reservation the
      worker only renews, when the schedule says; before that the clock does not pass the renewal,
      and after the last one it does not reach the deadline.  All other steps are free. */
  predicate Allowed(s: Q.State, step: Q.Step, sch: Schedule, k: nat, res: Reservation)
    requires k <= |sch.exec|
  {
    match step
    case FinishStep(r, request, lease) =>
      r == res ==> request.Renew? && lease == Millis(sch.lease) && k < |sch.exec| && s.now == Millis(sch.exec[k])
    case TickStep(now) => if k < |sch.exec| then now <= Millis(sch.exec[k]) else now < Deadline(sch, k)
    case _ => true
  }

  /** The renewal that is next after a step. */
  function Following(step: Q.Step, k: nat, res: Reservation): nat {
    if step.FinishStep? && step.res == res then k + 1 else k
  }

  ghost predicate Follows(s: Q.State, steps: seq<Q.Step>, sch: Schedule, k: nat, res: Reservation)
    requires Q.Inv(s) && Q.Legal(s, steps) && k <= |sch.exec|
    decreases |steps|
  {
    steps == [] ||
    (&& Allowed(s, steps[0], sch, k, res)
     && Follows(Q.Next(s, steps[0]), steps[1..], sch, Following(steps[0], k, res), res))
  }

  /** How many renewals a run contains. */
  function Renewals(steps: seq<Q.Step>, res: Reservation): nat {
    if steps == [] then 0 else Following(steps[0], Renewals(steps[1..], res), res)
  }

  /** The record is being processed under the reservation, and its lease runs to the deadline that
      the schedule gives before renewal k. */
  predicate Kept(s: Q.State, sch: Schedule, k: nat, res: Reservation, t: Text)
    requires k <= |sch.exec|
  {
    && res in s.issued && res in s.q.processing && s.q.processing[res] == t
    && res in s.q.leases && s.q.leases[res] == Deadline(sch, k) && s.now < Deadline(sch, k)
  }

  predicate Sane(sch: Schedule) {
    WholeLease(sch.lease) && ReplyInTime(sch)
  }

  lemma TickKeeps(s: Q.State, now: int, sch: Schedule, k: nat, res: Reservation, t: Text)
    requires Q.Inv(s) && Possible(sch) && Sane(sch) && k <= |sch.exec| && Kept(s, sch, k, res, t)
    requires Allowed(s, Q.TickStep(now), sch, k, res)
    ensures Kept(Q.Apply(s, Q.TickStep(now)), sch, k, res, t)
  {
    if k < |sch.exec| {
      LeaseNeverLapses(sch, k);
    }
  }

  /** What others do to other reservations. */
  lemma OthersKeep(s: Q.State, step: Q.Step, sch: Schedule, k: nat, res: Reservation, t: Text)
    requires Q.Inv(s) && Q.Enabled(s, step) && k <= |sch.exec| && Kept(s, sch, k, res, t)
    requires !step.TickStep? && (step.FinishStep? ==> step.res != res)
    ensures Kept(Q.Apply(s, step), sch, k, res, t)
  {
    match step
    case PromoteStep(due) => PromoteKeepsLeases(s.q, due);
    case RecoverStep(expired) => RecoverEnds(s.q, expired, s.now);
    case FinishStep(r, request, lease) => Q.FinishKeepsOthers(s.q, r, request, s.now, lease);
    case _ =>
  }

  lemma StepKeeps(s: Q.State, step: Q.Step, sch: Schedule, k: nat, res: Reservation, t: Text)
    requires Q.Inv(s) && Q.Enabled(s, step) && Possible(sch) && Sane(sch) && k <= |sch.exec|
    requires Kept(s, sch, k, res, t) && Allowed(s, step, sch, k, res)
    ensures Following(step, k, res) <= |sch.exec|
    ensures Kept(Q.Apply(s, step), sch, Following(step, k, res), res, t)
  {
    if step.TickStep? {
      TickKeeps(s, step.now, sch, k, res, t);
    } else if step.FinishStep? && step.res == res {
    } else {
      OthersKeep(s, step, sch, k, res, t);
    }
  }

  /** Whatever other clients reserve, promote, recover, finish and replay in between. */
  lemma {:induction false} RunKeeps(s: Q.State, steps: seq<Q.Step>, sch: Schedule, k: nat, res: Reservation, t: Text,
                                    end: nat)
    requires Q.Inv(s) && Q.Legal(s, steps) && Possible(sch) && Sane(sch) && k <= |sch.exec|
    requires Kept(s, sch, k, res, t) && Follows(s, steps, sch, k, res) && end == k + Renewals(steps, res)
    ensures end <= |sch.exec| && Kept(Q.Run(s, steps), sch, end, res, t)
    decreases |steps|
  {
    if steps != [] {
      StepKeeps(s, steps[0], sch, k, res, t);
      RunKeeps(Q.Next(s, steps[0]), steps[1..], sch, Following(steps[0], k, res), res, t, end);
    }
  }

  /** The run begins with the reserve script that hands out the reservation. */
  ghost predicate Begins(s: Q.State, sch: Schedule, res: Reservation) {
    && Q.Inv(s) && Possible(sch) && Sane(sch) && s.now == Millis(sch.reservedAt)
    && Q.Enabled(s, Q.ReserveStep(res, Millis(sch.lease))) && ReserveReply(s.q).Delivery?
  }

  ghost function Reserved(s: Q.State, sch: Schedule, res: Reservation): (s': Q.State)
    requires Begins(s, sch, res)
    ensures Q.Inv(s')
  {
    Q.Next(s, Q.ReserveStep(res, Millis(sch.lease)))
  }

  /** The next renewal can always be made: the clock may go on to it, and then it is accepted and
      starts the next lease. */
  lemma NextRenewal(s: Q.State, sch: Schedule, k: nat, res: Reservation, t: Text)
    requires Q.Inv(s) && Possible(sch) && Sane(sch) && k < |sch.exec| && Kept(s, sch, k, res, t)
    requires s.now <= Millis(sch.exec[k])
    ensures
      var s1 := Q.Apply(s, Q.TickStep(Millis(sch.exec[k])));
      var renew := Q.FinishStep(res, Renew, Millis(sch.lease));
      && Allowed(s, Q.TickStep(Millis(sch.exec[k])), sch, k, res) && Allowed(s1, renew, sch, k, res)
      && Kept(Q.Apply(s1, renew), sch, k + 1, res, t)
      && Q.Apply(s1, renew).q.leases[res] == Millis(sch.exec[k]) + Millis(sch.lease)
  {
    LeaseNeverLapses(sch, k);
  }

  /** While renewals succeed the lease never expires: over every run that begins with the reserve
      script and follows the schedule the worker still holds the record it was handed, unexpired,
      with the deadline of its last renewal; so nobody recovered it. */
  lemma LeaseIsKept(s: Q.State, sch: Schedule, res: Reservation, steps: seq<Q.Step>)
    requires Begins(s, sch, res) && Q.Legal(Reserved(s, sch, res), steps)
    requires Follows(Reserved(s, sch, res), steps, sch, 0, res)
    ensures
      var s' := Q.Run(Reserved(s, sch, res), steps);
      && Renewals(steps, res) <= |sch.exec|
      && Owned(s'.q, res, s'.now) && s'.q.leases[res] == Deadline(sch, Renewals(steps, res))
      && s'.q.processing[res] == ReserveReply(s.q).raw
  {
    RunKeeps(Reserved(s, sch, res), steps, sch, 0, res, ReserveReply(s.q).raw, Renewals(steps, res));
  }

  /** So the next renewal is honoured, and so is a settlement instead of it: at any moment of such
      a run the owner's request is accepted and no recovery may take the reservation. */
  lemma OwnerIsServed(s: Q.State, sch: Schedule, res: Reservation, steps: seq<Q.Step>, request: Request, lease: int,
                      expired: seq<Reservation>)
    requires Begins(s, sch, res) && Q.Legal(Reserved(s, sch, res), steps)
    requires Follows(Reserved(s, sch, res), steps, sch, 0, res) && !request.Renew?
    requires Q.Enabled(Q.Run(Reserved(s, sch, res), steps), Q.RecoverStep(expired))
    ensures
      var s' := Q.Run(Reserved(s, sch, res), steps);
      && res !in Finish(s'.q, res, request, s'.now, lease).processing
      && res !in expired && res in RecoverAll(s'.q, expired, s'.now).processing
  {
    LeaseIsKept(s, sch, res, steps);
    var s' := Q.Run(Reserved(s, sch, res), steps);
    RecoverEnds(s'.q, expired, s'.now);
  }
}
