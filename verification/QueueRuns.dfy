/** Runs of the job queue: any number of clients execute the scripts in any order, under one
    clock that never goes back and reservation ids that are never reused. */
module QueueRuns {
  import opened JobRecords
  import opened JobQueue
  import opened QueueBatches
  import opened QueueLaws

  datatype State = State(q: Queue, now: int, issued: set<Reservation>)

  datatype Step =
    | EnqueueStep(t: Text)
    | ReserveStep(res: Reservation, lease: int)
    | PromoteStep(due: seq<Text>)
    | RecoverStep(expired: seq<Reservation>)
    | FinishStep(res: Reservation, request: Request, lease: int)
    | ReplayStep
    | TickStep(now: int)

  ghost predicate Enabled(s: State, step: Step) {
    match step
    case ReserveStep(res, _) => res !in s.issued
    case PromoteStep(due) => IsRange(s.q.delayed, s.now, BATCH, due)
    case RecoverStep(expired) => IsRange(s.q.leases, s.now, BATCH, expired)
    case TickStep(now) => s.now <= now
    case _ => true
  }

  function Apply(s: State, step: Step): State
    requires Deliveries(s.q)
  {
    match step
    case EnqueueStep(t) => s.(q := Enqueue(s.q, t))
    case ReserveStep(res, lease) => s.(q := Reserve(s.q, res, s.now, lease), issued := s.issued + {res})
    case PromoteStep(due) => s.(q := PromoteAll(s.q, due))
    case RecoverStep(expired) => s.(q := RecoverAll(s.q, expired, s.now))
    case FinishStep(res, request, lease) => s.(q := Finish(s.q, res, request, s.now, lease))
    case ReplayStep => s.(q := Replay(s.q))
    case TickStep(now) => s.(now := now)
  }

  predicate Inv(s: State) {
    WellFormed(s.q) && s.q.processing.Keys <= s.issued
  }

  ghost predicate Legal(s: State, steps: seq<Step>)
    requires Inv(s)
    decreases |steps|
  {
    steps == [] || (Enabled(s, steps[0]) && Legal(Next(s, steps[0]), steps[1..]))
  }

  /** One enabled step keeps the invariant. */
  ghost function Next(s: State, step: Step): (s': State)
    requires Inv(s) && Enabled(s, step)
    ensures Inv(s')
  {
    StepKeepsInv(s, step);
    Apply(s, step)
  }

  ghost function Run(s: State, steps: seq<Step>): (s': State)
    requires Inv(s) && Legal(s, steps)
    ensures Inv(s')
    decreases |steps|
  {
    if steps == [] then s else Run(Next(s, steps[0]), steps[1..])
  }

  /** A finish script adds no delivery and no lease, and keeps every other one. */
  lemma FinishKeepsOthers(q: Queue, res: Reservation, request: Request, now: int, lease: int)
    requires Deliveries(q)
    ensures
      var q' := Finish(q, res, request, now, lease);
      && q'.processing == (if Owned(q, res, now) && !request.Renew? then q.processing - {res} else q.processing)
      && q'.leases == (if !Owned(q, res, now) then q.leases
                       else if request.Renew? then q.leases[res := now + lease]
                       else q.leases - {res})
  {
    if Owned(q, res, now) && (request.Retry? || request.Dead?) {
      SettleKeepsHeld(q, WithError(q.processing[res], request.cause), request.Dead?, now);
    }
  }

  lemma FinishKeepsInv(s: State, res: Reservation, request: Request, lease: int)
    requires Inv(s)
    ensures Inv(Apply(s, FinishStep(res, request, lease)))
  {
    FinishKeepsOthers(s.q, res, request, s.now, lease);
  }

  lemma StepKeepsInv(s: State, step: Step)
    requires Inv(s) && Enabled(s, step)
    ensures Inv(Apply(s, step))
  {
    match step
    case PromoteStep(due) => PromoteKeepsLeases(s.q, due);
    case RecoverStep(expired) => RecoverEnds(s.q, expired, s.now);
    case FinishStep(res, request, lease) => FinishKeepsInv(s, res, request, lease);
    case _ =>
  }

  // ---- ownership -----------------------------------------------------------------------

  /** The reservation was handed out and is no longer owned: settled, recovered or expired. */
  predicate Stale(s: State, res: Reservation) {
    res in s.issued && !Owned(s.q, res, s.now)
  }

  /** At any instant a held reservation can be settled or recovered, never both: a request
      of its owner is honoured exactly while no recovery may take it. */
  lemma SettleXorRecover(s: State, res: Reservation, request: Request, lease: int, expired: seq<Reservation>)
    requires Inv(s) && res in s.q.processing && 0 < lease && !request.Renew?
    requires Enabled(s, RecoverStep(expired))
    ensures res in Next(s, FinishStep(res, request, lease)).q.processing <==> s.q.leases[res] <= s.now
    ensures res !in Next(s, RecoverStep(expired)).q.processing ==> s.q.leases[res] <= s.now
    ensures s.q.leases[res] <= s.now && |expired| < BATCH ==> res !in Next(s, RecoverStep(expired)).q.processing
  {
    RecoverEnds(s.q, expired, s.now);
  }

  lemma StaleStep(s: State, step: Step, res: Reservation)
    requires Inv(s) && Enabled(s, step) && Stale(s, res)
    ensures Stale(Apply(s, step), res)
  {
    match step
    case PromoteStep(due) => PromoteKeepsLeases(s.q, due);
    case RecoverStep(expired) => RecoverEnds(s.q, expired, s.now);
    case FinishStep(r, request, lease) => FinishKeepsOthers(s.q, r, request, s.now, lease);
    case _ =>
  }

  /** A stale owner stays stale: whatever anybody does afterwards, its ack, renew, retry and
      dead-letter requests change nothing and are answered with 0. */
  lemma {:induction false} StaleForever(s: State, steps: seq<Step>, res: Reservation, request: Request, lease: int)
    requires Inv(s) && Stale(s, res) && Legal(s, steps)
    ensures var s' := Run(s, steps);
            Stale(s', res) && Finish(s'.q, res, request, s'.now, lease) == s'.q
    decreases |steps|
  {
    if steps != [] {
      StaleStep(s, steps[0], res);
      StaleForever(Next(s, steps[0]), steps[1..], res, request, lease);
    }
  }

  /** Does this step end the reservation, by its owner's request or by recovery? */
  predicate Ends(s: State, step: Step, res: Reservation) {
    match step
    case FinishStep(r, request, _) => r == res && !request.Renew? && Owned(s.q, res, s.now)
    case RecoverStep(expired) => res in expired && res in s.q.processing
    case _ => false
  }

  /** That is: the reservation is held before the step and not after it. */
  lemma EndsMeans(s: State, step: Step, res: Reservation)
    requires Inv(s) && Enabled(s, step)
    ensures Ends(s, step, res) <==> res in s.q.processing && res !in Next(s, step).q.processing
  {
    match step
    case PromoteStep(due) => PromoteKeepsLeases(s.q, due);
    case RecoverStep(expired) => RecoverEnds(s.q, expired, s.now);
    case FinishStep(r, request, lease) => FinishKeepsOthers(s.q, r, request, s.now, lease);
    case _ =>
  }

  ghost function Endings(s: State, steps: seq<Step>, res: Reservation): nat
    requires Inv(s) && Legal(s, steps)
    decreases |steps|
  {
    if steps == [] then 0
    else (if Ends(s, steps[0], res) then 1 else 0) + Endings(Next(s, steps[0]), steps[1..], res)
  }

  /** The reservation may still end: it is held, or not handed out yet. */
  predicate MayEnd(s: State, res: Reservation) {
    res in s.q.processing || res !in s.issued
  }

  lemma EndsOnce(s: State, step: Step, res: Reservation)
    requires Inv(s) && Enabled(s, step)
    ensures MayEnd(Apply(s, step), res) ==> MayEnd(s, res) && !Ends(s, step, res)
    ensures Ends(s, step, res) ==> MayEnd(s, res)
  {
    match step
    case PromoteStep(due) => PromoteKeepsLeases(s.q, due);
    case RecoverStep(expired) => RecoverEnds(s.q, expired, s.now);
    case FinishStep(r, request, lease) => FinishKeepsOthers(s.q, r, request, s.now, lease);
    case _ =>
  }

  /** Over a whole run a reservation is settled or recovered at most once in all. */
  lemma {:induction false} EndedAtMostOnce(s: State, steps: seq<Step>, res: Reservation)
    requires Inv(s) && Legal(s, steps)
    ensures Endings(s, steps, res) <= if MayEnd(s, res) then 1 else 0
    decreases |steps|
  {
    if steps != [] {
      EndsOnce(s, steps[0], res);
      EndedAtMostOnce(Next(s, steps[0]), steps[1..], res);
    }
  }

  // ---- how often a job is delivered ----------------------------------------------------

  function Max(a: int, b: int): int {
    if a <= b then b else a
  }

  /** Deliveries a record has left: a record put into the ready list with attempt a is
      delivered at least once more, and as often as the limit of five allows. */
  function BudgetWeight(job: Text): Weight {
    (kind: Kind, t: Text) =>
      if RawJob(t) != job then 0
      else match kind
        case InReady => Max(1, MAX_ATTEMPTS - Attempts(t))
        case InProcessing => Max(0, MAX_ATTEMPTS - Attempts(t))
        case InDelayed => Max(1, MAX_ATTEMPTS - Attempts(t))
        case InDead => 0
  }

  ghost function Budget(q: Queue, job: Text): nat {
    Sum(q, BudgetWeight(job))
  }

  predicate Delivers(s: State, step: Step, job: Text) {
    step.ReserveStep? && s.q.ready != [] && ValidRecord(s.q.ready[0]) && RawJob(s.q.ready[0]) == job
  }

  /** That is: a reservation holds the job after the step that did not exist before it. */
  lemma DeliversMeans(s: State, step: Step, job: Text)
    requires Inv(s) && Enabled(s, step)
    ensures Delivers(s, step, job) <==>
      exists r :: r in Next(s, step).q.processing && r !in s.q.processing
                  && RawJob(Next(s, step).q.processing[r]) == job
  {
    match step
    case ReserveStep(res, _) =>
      if Delivers(s, step, job) {
        assert RawJob(Next(s, step).q.processing[res]) == job;
      }
    case PromoteStep(due) => PromoteKeepsLeases(s.q, due);
    case RecoverStep(expired) => RecoverEnds(s.q, expired, s.now);
    case FinishStep(r, request, lease) => FinishKeepsOthers(s.q, r, request, s.now, lease);
    case _ =>
  }

  ghost function TimesDelivered(s: State, steps: seq<Step>, job: Text): nat
    requires Inv(s) && Legal(s, steps)
    decreases |steps|
  {
    if steps == [] then 0
    else (if Delivers(s, steps[0], job) then 1 else 0) + TimesDelivered(Next(s, steps[0]), steps[1..], job)
  }

  /** The job is neither enqueued again nor replayed from the dead-letter list. */
  ghost predicate NotReinjected(s: State, steps: seq<Step>, job: Text)
    requires Inv(s) && Legal(s, steps)
    decreases |steps|
  {
    steps == [] ||
    (&& (steps[0].EnqueueStep? ==> RawJob(steps[0].t) != job)
     && (steps[0].ReplayStep? ==> s.q.dead == [] || RawJob(s.q.dead[0]) != job)
     && NotReinjected(Next(s, steps[0]), steps[1..], job))
  }

  /** A weight that no batch step can raise. */
  ghost predicate Shrinking(w: Weight) {
    && (forall t :: w(InReady, t) <= w(InDelayed, t))
    && (forall t, t' :: IsDelivery(t) && IsDelivery(t') && RawJob(t) == RawJob(t') && Attempts(t) == Attempts(t')
          ==> && w(InDead, t') <= w(InProcessing, t)
              && (Attempts(t) < MAX_ATTEMPTS ==> w(InDelayed, t') <= w(InProcessing, t)))
  }

  lemma {:induction false} PromoteShrinks(q: Queue, due: seq<Text>, w: Weight)
    requires Shrinking(w) && PicksOf(due, q.delayed)
    ensures Sum(PromoteAll(q, due), w) <= Sum(q, w)
    decreases |due|
  {
    if due != [] {
      var front, t := due[..|due| - 1], due[|due| - 1];
      LastIsPicked(due, q.delayed);
      PromoteShrinks(q, front, w);
      PromoteEnds(q, front);
      PromoteSum(PromoteAll(q, front), t, w);
    }
  }

  lemma {:induction false} RecoverShrinks(q: Queue, expired: seq<Reservation>, now: int, w: Weight)
    requires Deliveries(q) && Shrinking(w)
    ensures Sum(RecoverAll(q, expired, now), w) <= Sum(q, w)
    decreases |expired|
  {
    if expired != [] {
      var front, last := expired[..|expired| - 1], expired[|expired| - 1];
      RecoverShrinks(q, front, now, w);
      RecoverOneShrinks(RecoverAll(q, front, now), last, now, w);
    }
  }

  lemma RecoverOneShrinks(q: Queue, res: Reservation, now: int, w: Weight)
    requires Deliveries(q) && Shrinking(w)
    ensures Sum(RecoverOne(q, res, now), w) <= Sum(q, w)
  {
    if res in q.processing {
      RecoverSum(q, res, now, w);
    }
  }

  lemma FinishShrinks(q: Queue, res: Reservation, request: Request, now: int, lease: int, w: Weight)
    requires Deliveries(q) && Shrinking(w)
    ensures Sum(Finish(q, res, request, now, lease), w) <= Sum(q, w)
  {
    if Owned(q, res, now) {
      match request
      case Renew =>
      case Ack => DropSum(q, res, w);
      case _ => FinishSum(q, res, request, now, lease, w);
    }
  }

  lemma BudgetShrinks(job: Text)
    ensures Shrinking(BudgetWeight(job))
  {
  }

  lemma ReserveBudget(q: Queue, res: Reservation, now: int, lease: int, job: Text)
    requires q.ready != [] && res !in q.processing
    ensures var t := q.ready[0];
            (if ValidRecord(t) && RawJob(t) == job then 1 else 0) + Budget(Reserve(q, res, now, lease), job)
            <= Budget(q, job)
  {
    ReserveSum(q, res, now, lease, BudgetWeight(job));
  }

  lemma ReplayBudget(q: Queue, job: Text)
    requires q.dead == [] || RawJob(q.dead[0]) != job
    ensures Budget(Replay(q), job) == Budget(q, job)
  {
    if q.dead != [] && ValidJob(RawJob(q.dead[0])) {
      ReplaySum(q, BudgetWeight(job));
    }
  }

  lemma DeliveryStep(s: State, step: Step, job: Text)
    requires Inv(s) && Enabled(s, step)
    requires step.EnqueueStep? ==> RawJob(step.t) != job
    requires step.ReplayStep? ==> s.q.dead == [] || RawJob(s.q.dead[0]) != job
    ensures (if Delivers(s, step, job) then 1 else 0) + Budget(Next(s, step).q, job) <= Budget(s.q, job)
  {
    BudgetShrinks(job);
    match step
    case EnqueueStep(t) => EnqueueSum(s.q, t, BudgetWeight(job));
    case ReserveStep(res, lease) =>
      if s.q.ready != [] {
        ReserveBudget(s.q, res, s.now, lease, job);
      }
    case PromoteStep(due) => PromoteShrinks(s.q, due, BudgetWeight(job));
    case RecoverStep(expired) => RecoverShrinks(s.q, expired, s.now, BudgetWeight(job));
    case FinishStep(res, request, lease) => FinishShrinks(s.q, res, request, s.now, lease, BudgetWeight(job));
    case ReplayStep => ReplayBudget(s.q, job);
    case TickStep(_) =>
  }

  /** Unless it is put back from outside, a job is delivered no more often than its budget,
      over any run of any number of clients. */
  lemma {:induction false} DeliveriesWithinBudget(s: State, steps: seq<Step>, job: Text)
    requires Inv(s) && Legal(s, steps) && NotReinjected(s, steps, job)
    ensures TimesDelivered(s, steps, job) + Budget(Run(s, steps).q, job) <= Budget(s.q, job)
    decreases |steps|
  {
    if steps != [] {
      DeliveryStep(s, steps[0], job);
      DeliveriesWithinBudget(Next(s, steps[0]), steps[1..], job);
    }
  }

  /** The budget of a job whose only record waits in the ready list. */
  lemma ReadyBudget(q: Queue, i: nat)
    requires i < |q.ready| && Copies(q, RawJob(q.ready[i])) == 1
    ensures Budget(q, RawJob(q.ready[i])) == Max(1, MAX_ATTEMPTS - Attempts(q.ready[i]))
  {
    var job := RawJob(q.ready[i]);
    var c, w := CopyWeight(job), BudgetWeight(job);
    SumSeqAt(q.ready, i, InReady, c);
    SumSeqAt(q.ready, i, InReady, w);
    NoCopyNoBudget(q.(ready := q.ready[..i] + q.ready[i + 1..]), job);
  }

  lemma NoCopyNoBudget(q: Queue, job: Text)
    requires Copies(q, job) == 0
    ensures Budget(q, job) == 0
  {
    var c, w := CopyWeight(job), BudgetWeight(job);
    SeqDominated(q.ready, InReady, c, w);
    SeqDominated(q.dead, InDead, c, w);
    HashDominated(q.processing, c, w);
    SetDominated(q.delayed.Keys, c, w);
  }

  ghost predicate Dominates(c: Weight, w: Weight) {
    forall kind, t :: c(kind, t) == 0 ==> w(kind, t) == 0
  }

  lemma {:induction false} SeqDominated(s: seq<Text>, kind: Kind, c: Weight, w: Weight)
    requires Dominates(c, w) && SumSeq(s, kind, c) == 0
    ensures SumSeq(s, kind, w) == 0
  {
    if s != [] {
      SeqDominated(s[1..], kind, c, w);
    }
  }

  lemma {:induction false} HashDominated(h: map<Reservation, Text>, c: Weight, w: Weight)
    requires Dominates(c, w) && SumHash(h, c) == 0
    ensures SumHash(h, w) == 0
    decreases h.Keys
  {
    if h != map[] {
      var r :| r in h;
      SumHashDrop(h, r, c);
      SumHashDrop(h, r, w);
      HashDominated(h - {r}, c, w);
    }
  }

  lemma {:induction false} SetDominated(z: set<Text>, c: Weight, w: Weight)
    requires Dominates(c, w) && SumSet(z, c) == 0
    ensures SumSet(z, w) == 0
  {
    if z != {} {
      var t :| t in z;
      SumSetDrop(z, t, c);
      SumSetDrop(z, t, w);
      SetDominated(z - {t}, c, w);
    }
  }

  /** A record that enters the ready list with attempt a is delivered at most max(1, 5 - a)
      times before it is acknowledged or dead-lettered, unless it is replayed. */
  lemma DeliveryBound(s: State, steps: seq<Step>, i: nat)
    requires Inv(s) && Legal(s, steps) && i < |s.q.ready|
    requires Copies(s.q, RawJob(s.q.ready[i])) == 1 && NotReinjected(s, steps, RawJob(s.q.ready[i]))
    ensures
      var a := Attempts(s.q.ready[i]);
      TimesDelivered(s, steps, RawJob(s.q.ready[i])) <= if a <= 4 then 5 - a else 1
  {
    ReadyBudget(s.q, i);
    DeliveriesWithinBudget(s, steps, RawJob(s.q.ready[i]));
  }

  // ---- the queue runs dry --------------------------------------------------------------

  /** Moves a record can still make before it is acknowledged or dead-lettered. */
  const RANK: Weight :=
    (kind: Kind, t: Text) =>
      match kind
      case InReady => 3 * Max(1, MAX_ATTEMPTS - Attempts(t))
      case InProcessing => 3 * Max(0, MAX_ATTEMPTS - Attempts(t)) + 2
      case InDelayed => 3 * Max(1, MAX_ATTEMPTS - Attempts(t)) + 1
      case InDead => 0

  /** Steps that only the outside world takes, or that buy time on purpose. */
  predicate External(step: Step) {
    step.EnqueueStep? || step.ReplayStep? || (step.FinishStep? && step.request.Renew?)
  }

  lemma {:induction false} PromoteRank(q: Queue, due: seq<Text>)
    requires PicksOf(due, q.delayed)
    ensures Sum(PromoteAll(q, due), RANK) + |due| == Sum(q, RANK)
    decreases |due|
  {
    if due != [] {
      var front, t := due[..|due| - 1], due[|due| - 1];
      LastIsPicked(due, q.delayed);
      PromoteRank(q, front);
      PromoteEnds(q, front);
      PromoteSum(PromoteAll(q, front), t, RANK);
    }
  }

  lemma {:induction false} RecoverRank(q: Queue, expired: seq<Reservation>, now: int)
    requires Deliveries(q) && PicksOf(expired, q.processing)
    ensures Sum(RecoverAll(q, expired, now), RANK) + |expired| <= Sum(q, RANK)
    decreases |expired|
  {
    if expired != [] {
      var front, last := expired[..|expired| - 1], expired[|expired| - 1];
      LastIsPicked(expired, q.processing);
      RecoverRank(q, front, now);
      RecoverEnds(q, front, now);
      RecoverOneRank(RecoverAll(q, front, now), last, now);
    }
  }

  lemma RecoverOneRank(q: Queue, res: Reservation, now: int)
    requires Deliveries(q) && res in q.processing
    ensures Sum(RecoverOne(q, res, now), RANK) + 1 <= Sum(q, RANK)
  {
    RecoverSum(q, res, now, RANK);
  }

  lemma FinishRank(q: Queue, res: Reservation, request: Request, now: int, lease: int)
    requires Deliveries(q) && Owned(q, res, now) && !request.Renew?
    ensures Sum(Finish(q, res, request, now, lease), RANK) < Sum(q, RANK)
  {
    if request.Ack? {
      DropSum(q, res, RANK);
    } else {
      FinishSum(q, res, request, now, lease, RANK);
    }
  }

  lemma ReserveRank(q: Queue, res: Reservation, now: int, lease: int)
    requires res !in q.processing
    ensures Reserve(q, res, now, lease) == q || Sum(Reserve(q, res, now, lease), RANK) < Sum(q, RANK)
  {
    if q.ready != [] {
      ReserveSum(q, res, now, lease, RANK);
      var t := q.ready[0];
      assert ValidRecord(t) ==> RANK(InProcessing, Delivered(t)) < RANK(InReady, t);
      assert RANK(InDead, t) < RANK(InReady, t);
    }
  }

  lemma StepLowersRank(s: State, step: Step)
    requires Inv(s) && Enabled(s, step) && !External(step)
    ensures Next(s, step).q == s.q || Sum(Next(s, step).q, RANK) < Sum(s.q, RANK)
  {
    match step
    case ReserveStep(res, lease) =>
      ReserveRank(s.q, res, s.now, lease);
    case PromoteStep(due) => PromoteRank(s.q, due);
    case RecoverStep(expired) => RecoverRank(s.q, expired, s.now);
    case FinishStep(res, request, lease) =>
      if Owned(s.q, res, s.now) {
        FinishRank(s.q, res, request, s.now, lease);
      }
    case TickStep(_) =>
  }

  /** Steps of the run that changed the queue. */
  ghost function Moves(s: State, steps: seq<Step>): nat
    requires Inv(s) && Legal(s, steps)
    decreases |steps|
  {
    if steps == [] then 0
    else (if Next(s, steps[0]).q == s.q then 0 else 1) + Moves(Next(s, steps[0]), steps[1..])
  }

  /** What the three counters count, step by step. */
  lemma CountersCount(s: State, step: Step, rest: seq<Step>, res: Reservation, job: Text)
    requires Inv(s) && Enabled(s, step) && Legal(Next(s, step), rest)
    ensures Legal(s, [step] + rest)
    ensures
      var s', q, q' := Next(s, step), s.q, Next(s, step).q;
      && Endings(s, [step] + rest, res)
         == Endings(s', rest, res) + (if res in q.processing && res !in q'.processing then 1 else 0)
      && TimesDelivered(s, [step] + rest, job)
         == TimesDelivered(s', rest, job)
            + (if exists r :: r in q'.processing && r !in q.processing && RawJob(q'.processing[r]) == job then 1 else 0)
      && Moves(s, [step] + rest) == Moves(s', rest) + (if q' != q then 1 else 0)
  {
    assert ([step] + rest)[1..] == rest;
    EndsMeans(s, step, res);
    DeliversMeans(s, step, job);
  }

  /** Without new jobs, replays and renewals the scripts can change the queue only a bounded
      number of times, whatever the workers do.  */
  lemma {:induction false} QueueRunsDry(s: State, steps: seq<Step>)
    requires Inv(s) && Legal(s, steps)
    requires forall i :: 0 <= i < |steps| ==> !External(steps[i])
    ensures Moves(s, steps) + Sum(Run(s, steps).q, RANK) <= Sum(s.q, RANK)
    decreases |steps|
  {
    if steps != [] {
      StepLowersRank(s, steps[0]);
      QueueRunsDry(Next(s, steps[0]), steps[1..]);
    }
  }

  // ---- the ready list ------------------------------------------------------------------------

  /** Records a step appends to the ready list, and the record it takes from its head. */
  function Arrivals(s: State, step: Step): seq<Text> {
    match step
    case EnqueueStep(t) => [t]
    case PromoteStep(due) => due
    case ReplayStep => if s.q.dead == [] || !ValidJob(RawJob(s.q.dead[0])) then [] else [Replayed(s.q.dead[0])]
    case _ => []
  }

  function Departures(s: State, step: Step): seq<Text> {
    if step.ReserveStep? && s.q.ready != [] then [s.q.ready[0]] else []
  }

  lemma {:induction false} PromoteAppends(q: Queue, due: seq<Text>)
    ensures PromoteAll(q, due).ready == q.ready + due && PromoteAll(q, due).dead == q.dead
    decreases |due|
  {
    if due != [] {
      var front := due[..|due| - 1];
      PromoteAppends(q, front);
      assert due == front + [due[|due| - 1]];
    }
  }

  lemma {:induction false} RecoverLeavesReady(q: Queue, expired: seq<Reservation>, now: int)
    requires Deliveries(q)
    ensures RecoverAll(q, expired, now).ready == q.ready
    decreases |expired|
  {
    if expired != [] {
      RecoverLeavesReady(q, expired[..|expired| - 1], now);
    }
  }

  lemma StepIsFifo(s: State, step: Step)
    requires Inv(s) && Enabled(s, step)
    ensures s.q.ready + Arrivals(s, step) == Departures(s, step) + Next(s, step).q.ready
  {
    match step
    case PromoteStep(due) => PromoteAppends(s.q, due);
    case RecoverStep(expired) => RecoverLeavesReady(s.q, expired, s.now);
    case _ =>
  }

  ghost function AllArrivals(s: State, steps: seq<Step>): seq<Text>
    requires Inv(s) && Legal(s, steps)
    decreases |steps|
  {
    if steps == [] then [] else Arrivals(s, steps[0]) + AllArrivals(Next(s, steps[0]), steps[1..])
  }

  ghost function AllDepartures(s: State, steps: seq<Step>): seq<Text>
    requires Inv(s) && Legal(s, steps)
    decreases |steps|
  {
    if steps == [] then [] else Departures(s, steps[0]) + AllDepartures(Next(s, steps[0]), steps[1..])
  }

  lemma Telescope<T>(ready: seq<T>, arrived: seq<T>, left: seq<T>, next: seq<T>, more: seq<T>, gone: seq<T>,
                     end: seq<T>)
    requires ready + arrived == left + next && next + more == gone + end
    ensures ready + (arrived + more) == (left + gone) + end
  {
    assert ready + (arrived + more) == (ready + arrived) + more;
    assert (left + next) + more == left + (next + more);
  }

  /** Over every run records leave the ready list in the order in which they entered it, whoever
      reserves them: what was there and what came is what left and what is there. */
  lemma {:induction false} ReadyIsFifo(s: State, steps: seq<Step>)
    requires Inv(s) && Legal(s, steps)
    ensures s.q.ready + AllArrivals(s, steps) == AllDepartures(s, steps) + Run(s, steps).q.ready
    decreases |steps|
  {
    if steps != [] {
      var s' := Next(s, steps[0]);
      StepIsFifo(s, steps[0]);
      ReadyIsFifo(s', steps[1..]);
      Telescope(s.q.ready, Arrivals(s, steps[0]), Departures(s, steps[0]), s'.q.ready,
                AllArrivals(s', steps[1..]), AllDepartures(s', steps[1..]), Run(s', steps[1..]).q.ready);
    }
  }

  // ---- the dead-letter list ------------------------------------------------------------------

  /** What recovering one lease, or several, appends to the dead-letter list. */
  function Buried(q: Queue, res: Reservation): seq<Text>
    requires Deliveries(q)
  {
    if res in q.processing && MAX_ATTEMPTS <= Attempts(q.processing[res])
    then [WithError(q.processing[res], LEASE_EXPIRED)] else []
  }

  function AllBuried(q: Queue, expired: seq<Reservation>, now: int): seq<Text>
    requires Deliveries(q)
    decreases |expired|
  {
    if expired == [] then []
    else
      var front := expired[..|expired| - 1];
      AllBuried(q, front, now) + Buried(RecoverAll(q, front, now), expired[|expired| - 1])
  }

  lemma {:induction false} RecoverBuries(q: Queue, expired: seq<Reservation>, now: int)
    requires Deliveries(q)
    ensures RecoverAll(q, expired, now).dead == q.dead + AllBuried(q, expired, now)
    decreases |expired|
  {
    if expired != [] {
      RecoverBuries(q, expired[..|expired| - 1], now);
    }
  }

  /** Records a step appends to the dead-letter list, and the one it takes from its head. */
  function Deaths(s: State, step: Step): seq<Text>
    requires Inv(s)
  {
    match step
    case ReserveStep(_, _) => if s.q.ready != [] && !ValidRecord(s.q.ready[0]) then [s.q.ready[0]] else []
    case RecoverStep(expired) => AllBuried(s.q, expired, s.now)
    case FinishStep(res, request, _) =>
      if Owned(s.q, res, s.now) && (request.Dead? || (request.Retry? && MAX_ATTEMPTS <= Attempts(s.q.processing[res])))
      then [WithError(s.q.processing[res], request.cause)] else []
    case _ => []
  }

  function Revivals(s: State, step: Step): seq<Text> {
    if step.ReplayStep? && s.q.dead != [] && ValidJob(RawJob(s.q.dead[0])) then [s.q.dead[0]] else []
  }

  lemma StepBuriesInOrder(s: State, step: Step)
    requires Inv(s) && Enabled(s, step)
    ensures s.q.dead + Deaths(s, step) == Revivals(s, step) + Next(s, step).q.dead
  {
    match step
    case PromoteStep(due) => PromoteAppends(s.q, due);
    case RecoverStep(expired) => RecoverBuries(s.q, expired, s.now);
    case _ =>
  }

  ghost function AllDeaths(s: State, steps: seq<Step>): seq<Text>
    requires Inv(s) && Legal(s, steps)
    decreases |steps|
  {
    if steps == [] then [] else Deaths(s, steps[0]) + AllDeaths(Next(s, steps[0]), steps[1..])
  }

  ghost function AllRevivals(s: State, steps: seq<Step>): seq<Text>
    requires Inv(s) && Legal(s, steps)
    decreases |steps|
  {
    if steps == [] then [] else Revivals(s, steps[0]) + AllRevivals(Next(s, steps[0]), steps[1..])
  }

  /** Over every run replays take the dead-letter list oldest first. */
  lemma {:induction false} DeadIsFifo(s: State, steps: seq<Step>)
    requires Inv(s) && Legal(s, steps)
    ensures s.q.dead + AllDeaths(s, steps) == AllRevivals(s, steps) + Run(s, steps).q.dead
    decreases |steps|
  {
    if steps != [] {
      var s' := Next(s, steps[0]);
      StepBuriesInOrder(s, steps[0]);
      DeadIsFifo(s', steps[1..]);
      Telescope(s.q.dead, Deaths(s, steps[0]), Revivals(s, steps[0]), s'.q.dead,
                AllDeaths(s', steps[1..]), AllRevivals(s', steps[1..]), Run(s', steps[1..]).q.dead);
    }
  }
}
