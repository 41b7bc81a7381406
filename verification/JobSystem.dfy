/** The whole job pipeline: producers, the queue, any number of workers, crashes at any point,
    and a network that delivers a request that was sent late, never, or more than once. */
module JobSystem {
  import opened Wrappers
  import opened JobRecords
  import opened JobQueue
  import opened QueueLaws
  import Q = QueueRuns
  import W = Worker
  import opened QueueBatches

  /** `procs` holds the deliveries a live worker is busy with.  The other fields are history:
      requests ever sent, jobs ever enqueued, the reservation each acknowledged job was
      acknowledged under, and what the handler of each reservation returned, if it did. */
  datatype System = System(
    core: Q.State, procs: map<Reservation, W.Process>,
    sent: set<(Reservation, Request)>, known: set<Text>,
    acked: map<Text, Reservation>, outcomes: map<Reservation, Option<Text>>)

  const START := System(Q.State(EMPTY_QUEUE, 0, {}), map[], {}, {}, map[], map[])

  datatype Action =
    | QueueAction(step: Q.Step)
    | WorkerAction(res: Reservation, event: W.Event)
    | CrashAction(res: Reservation)

  /** Enqueued records carry jobs nobody enqueued before (fresh UUIDs); a finish script only
      runs on behalf of a request some worker sent. */
  ghost predicate Enabled(s: System, a: Action) {
    match a
    case QueueAction(step) =>
      && Q.Enabled(s.core, step)
      && (step.EnqueueStep? ==> RawJob(step.t) !in s.known)
      && (step.FinishStep? ==> (step.res, step.request) in s.sent)
    case WorkerAction(res, event) => res in s.procs && W.Can(s.procs[res], event)
    case CrashAction(res) => res in s.procs
  }

  /** The step hands a job to a worker. */
  predicate Hands(s: System, step: Q.Step) {
    step.ReserveStep? && ReserveReply(s.core.q).Delivery?
  }

  /** The step acknowledges the job of a reservation. */
  predicate Acks(s: System, step: Q.Step) {
    AcksIn(s.core, step)
  }

  predicate AcksIn(c: Q.State, step: Q.Step) {
    step.FinishStep? && step.request.Ack? && Owned(c.q, step.res, c.now)
  }

  ghost function Apply(s: System, a: Action): System
    requires Q.Inv(s.core) && Enabled(s, a) && (a.WorkerAction? ==> W.Inv(s.procs[a.res]))
  {
    match a
    case QueueAction(step) =>
      s.(core := Q.Next(s.core, step),
         procs := if Hands(s, step) then s.procs[step.res := W.NEW_PROCESS] else s.procs,
         known := if step.EnqueueStep? then s.known + {RawJob(step.t)} else s.known,
         acked := if Acks(s, step) then s.acked[RawJob(s.core.q.processing[step.res]) := step.res] else s.acked)
    case WorkerAction(res, event) =>
      var p := W.React(s.procs[res], event);
      s.(procs := s.procs[res := p],
         sent := s.sent + CallsOf(res, p.calls),
         outcomes := if event.HandlerReturns? then s.outcomes[res := event.error] else s.outcomes)
    case CrashAction(res) => s.(procs := s.procs - {res})
  }

  /** Every job ever enqueued is in the queue once or acknowledged, never both. */
  ghost predicate Accounted(s: System) {
    forall job :: Copies(s.core.q, job) == if job in s.known && job !in s.acked then 1 else 0
  }

  function OutcomeOf(outcomes: map<Reservation, Option<Text>>, r: Reservation): Option<Option<Text>> {
    if r in outcomes then Some(outcomes[r]) else None
  }

  /** The request is the one that this outcome calls for. */
  predicate CalledFor(request: Request, outcome: Option<Option<Text>>) {
    match request
    case Ack => outcome == Some(None)
    case Retry(cause) => outcome == Some(Some(cause))
    case Dead(_) => outcome == None
    case Renew => true
  }

  /** What the workers and the network know about the reservations handed out so far. */
  predicate WorkersInv(issued: set<Reservation>, procs: map<Reservation, W.Process>,
                       sent: set<(Reservation, Request)>, outcomes: map<Reservation, Option<Text>>) {
    && procs.Keys <= issued && outcomes.Keys <= issued
    && (forall r :: r in procs ==> W.Inv(procs[r]) && procs[r].result == OutcomeOf(outcomes, r))
    && (forall m :: m in sent ==> m.0 in issued && CalledFor(m.1, OutcomeOf(outcomes, m.0)))
    && (forall m :: m in sent && m.0 in procs ==> m.1 in procs[m.0].calls)
    && OneVerdict(sent)
  }

  /** No reservation is ever the subject of two different settlement requests. */
  predicate OneVerdict(sent: set<(Reservation, Request)>) {
    forall m, m' :: m in sent && m' in sent && m.0 == m'.0 && !m.1.Renew? && !m'.1.Renew? ==> m.1 == m'.1
  }

  /** Acknowledged jobs were enqueued, and some worker asked for the acknowledgement. */
  predicate AckedInv(acked: map<Text, Reservation>, known: set<Text>, sent: set<(Reservation, Request)>) {
    acked.Keys <= known && forall job :: job in acked ==> (acked[job], Ack) in sent
  }

  ghost predicate Inv(s: System) {
    && Q.Inv(s.core)
    && Accounted(s)
    && AckedInv(s.acked, s.known, s.sent)
    && WorkersInv(s.core.issued, s.procs, s.sent, s.outcomes)
  }

  lemma AccountedNoDuplicates(s: System)
    requires Accounted(s)
    ensures NoDuplicates(s.core.q)
  {
  }

  lemma {:induction false} RecoverAllCopies(q: Queue, expired: seq<Reservation>, now: int, job: Text)
    requires Deliveries(q) && NoDuplicates(q)
    ensures Copies(RecoverAll(q, expired, now), job) == Copies(q, job)
    decreases |expired|
  {
    if expired != [] {
      var front := expired[..|expired| - 1];
      forall j ensures Copies(RecoverAll(q, front, now), j) == Copies(q, j) {
        RecoverAllCopies(q, front, now, j);
      }
      RecoverCopies(RecoverAll(q, front, now), expired[|expired| - 1], now, job);
    }
  }

  /** One copy more for an enqueued job, one less for an acknowledged one. */
  lemma CoreStepCopies(c: Q.State, step: Q.Step, job: Text)
    requires Q.Inv(c) && Q.Enabled(c, step) && NoDuplicates(c.q)
    ensures Copies(Q.Apply(c, step).q, job)
         == Copies(c.q, job)
            + (if step.EnqueueStep? && RawJob(step.t) == job then 1 else 0)
            - (if AcksIn(c, step) && RawJob(c.q.processing[step.res]) == job then 1 else 0)
  {
    match step
    case EnqueueStep(t) => EnqueueCopies(c.q, t, job);
    case ReserveStep(res, lease) => ReserveCopies(c.q, res, c.now, lease, job);
    case PromoteStep(due) => PromoteCopies(c.q, due, job);
    case RecoverStep(expired) => RecoverAllCopies(c.q, expired, c.now, job);
    case FinishStep(res, request, lease) => FinishCopies(c.q, res, request, c.now, lease, job);
    case ReplayStep => ReplayCopies(c.q, job);
    case TickStep(_) =>
  }

  lemma QueueStepCopies(s: System, step: Q.Step, job: Text)
    requires Inv(s) && Enabled(s, QueueAction(step))
    ensures Copies(Q.Next(s.core, step).q, job)
         == Copies(s.core.q, job)
            + (if step.EnqueueStep? && RawJob(step.t) == job then 1 else 0)
            - (if Acks(s, step) && RawJob(s.core.q.processing[step.res]) == job then 1 else 0)
  {
    AccountedNoDuplicates(s);
    CoreStepCopies(s.core, step, job);
  }

  lemma AckedJobWasHeld(s: System, step: Q.Step)
    requires Inv(s) && Enabled(s, QueueAction(step)) && Acks(s, step)
    ensures var job := RawJob(s.core.q.processing[step.res]); job in s.known && job !in s.acked
  {
    var job := RawJob(s.core.q.processing[step.res]);
    PlaceCounts(s.core.q, AtProcessing(step.res), job);
    assert Copies(s.core.q, job) >= 1;
  }

  lemma QueueActionAccounts(s: System, step: Q.Step)
    requires Inv(s) && Enabled(s, QueueAction(step))
    ensures Accounted(Apply(s, QueueAction(step)))
  {
    var s' := Apply(s, QueueAction(step));
    if Acks(s, step) {
      AckedJobWasHeld(s, step);
    }
    forall job ensures Copies(s'.core.q, job) == if job in s'.known && job !in s'.acked then 1 else 0 {
      QueueStepCopies(s, step, job);
    }
  }

  lemma StepIssues(c: Q.State, step: Q.Step)
    requires Q.Inv(c) && Q.Enabled(c, step)
    ensures Q.Next(c, step).issued == c.issued + if step.ReserveStep? then {step.res} else {}
  {
  }

  lemma NewWorkersAreFine(issued: set<Reservation>, procs: map<Reservation, W.Process>,
                          sent: set<(Reservation, Request)>, outcomes: map<Reservation, Option<Text>>,
                          res: Reservation)
    requires WorkersInv(issued, procs, sent, outcomes) && res !in issued
    ensures WorkersInv(issued + {res}, procs, sent, outcomes)
    ensures WorkersInv(issued + {res}, procs[res := W.NEW_PROCESS], sent, outcomes)
  {
  }

  lemma QueueActionWorkers(s: System, step: Q.Step)
    requires Inv(s) && Enabled(s, QueueAction(step))
    ensures
      var s' := Apply(s, QueueAction(step));
      WorkersInv(s'.core.issued, s'.procs, s'.sent, s'.outcomes)
  {
    StepIssues(s.core, step);
    if step.ReserveStep? {
      NewWorkersAreFine(s.core.issued, s.procs, s.sent, s.outcomes, step.res);
    }
  }

  lemma QueueActionAcked(s: System, step: Q.Step)
    requires Q.Inv(s.core) && Enabled(s, QueueAction(step)) && AckedInv(s.acked, s.known, s.sent)
    requires Acks(s, step) ==> RawJob(s.core.q.processing[step.res]) in s.known
    ensures
      var s' := Apply(s, QueueAction(step));
      AckedInv(s'.acked, s'.known, s'.sent)
  {
  }

  lemma QueueActionKeepsInv(s: System, step: Q.Step)
    requires Inv(s) && Enabled(s, QueueAction(step))
    ensures Inv(Apply(s, QueueAction(step)))
  {
    QueueActionAccounts(s, step);
    QueueActionWorkers(s, step);
    if Acks(s, step) {
      AckedJobWasHeld(s, step);
    }
    QueueActionAcked(s, step);
  }

  function CallsOf(res: Reservation, calls: seq<Request>): set<(Reservation, Request)> {
    set r | r in calls :: (res, r)
  }

  /** All settlement calls a process ever made are the same call. */
  lemma OneSettlementCall(p: W.Process, r: Request, r': Request)
    requires W.Inv(p) && r in p.calls && r' in p.calls && !r.Renew? && !r'.Renew?
    ensures r == r'
  {
    W.SettlementsMembers(p.calls, r);
    W.SettlementsMembers(p.calls, r');
  }

  lemma CallsAreOf(res: Reservation, calls: seq<Request>, m: (Reservation, Request))
    ensures m in CallsOf(res, calls) <==> m.0 == res && m.1 in calls
  {
  }

  /** What the worker of a reservation sends further adds no second verdict. */
  lemma StillOneVerdict(sent: set<(Reservation, Request)>, res: Reservation, p: W.Process)
    requires OneVerdict(sent) && W.Inv(p) && forall m :: m in sent && m.0 == res ==> m.1 in p.calls
    ensures OneVerdict(sent + CallsOf(res, p.calls))
  {
    var sent' := sent + CallsOf(res, p.calls);
    forall m, m' | m in sent' && m' in sent' && m.0 == m'.0 && !m.1.Renew? && !m'.1.Renew? ensures m.1 == m'.1 {
      CallsAreOf(res, p.calls, m);
      CallsAreOf(res, p.calls, m');
      if m.0 == res {
        OneSettlementCall(p, m.1, m'.1);
      }
    }
  }

  /** A process only makes the calls that its handler's outcome calls for. */
  lemma CallsAreCalledFor(p: W.Process, r: Request)
    requires W.Inv(p) && r in p.calls
    ensures CalledFor(r, p.result)
  {
    W.SettlementsMembers(p.calls, r);
  }

  lemma ReactKeepsWorkers(issued: set<Reservation>, procs: map<Reservation, W.Process>,
                          sent: set<(Reservation, Request)>, outcomes: map<Reservation, Option<Text>>,
                          res: Reservation, p: W.Process, outcomes': map<Reservation, Option<Text>>)
    requires WorkersInv(issued, procs, sent, outcomes) && res in procs
    requires W.Inv(p) && (forall r :: r in procs[res].calls ==> r in p.calls)
    requires OnlyChanges(outcomes, outcomes', res) && p.result == OutcomeOf(outcomes', res)
    ensures WorkersInv(issued, procs[res := p], sent + CallsOf(res, p.calls), outcomes')
  {
    StillOneVerdict(sent, res, p);
    forall m | m in sent + CallsOf(res, p.calls)
      ensures m.0 in issued && CalledFor(m.1, OutcomeOf(outcomes', m.0))
    {
      CallsAreOf(res, p.calls, m);
      if m.0 == res {
        CallsAreCalledFor(p, m.1);
      }
    }
  }

  ghost predicate OnlyChanges(outcomes: map<Reservation, Option<Text>>, outcomes': map<Reservation, Option<Text>>,
                        res: Reservation) {
    && outcomes'.Keys <= outcomes.Keys + {res}
    && forall r :: r != res ==> OutcomeOf(outcomes', r) == OutcomeOf(outcomes, r)
  }

  lemma ResultIsRemembered(p: W.Process, event: W.Event)
    requires W.Inv(p) && W.Can(p, event)
    ensures W.React(p, event).result == if event.HandlerReturns? then Some(event.error) else p.result
  {
  }

  lemma WorkerActionWorkers(s: System, res: Reservation, event: W.Event)
    requires Q.Inv(s.core) && WorkersInv(s.core.issued, s.procs, s.sent, s.outcomes)
    requires Enabled(s, WorkerAction(res, event))
    ensures
      var s' := Apply(s, WorkerAction(res, event));
      WorkersInv(s'.core.issued, s'.procs, s'.sent, s'.outcomes)
  {
    var p := s.procs[res];
    var p' := W.React(p, event);
    W.ReactKeepsInv(p, event);
    W.CallsGrow(p, event);
    assert forall r :: r in p.calls ==> r in p'.calls;
    var s' := Apply(s, WorkerAction(res, event));
    assert s'.core == s.core && s'.procs == s.procs[res := p'] && s'.sent == s.sent + CallsOf(res, p'.calls);
    ResultIsRemembered(p, event);
    ReactKeepsWorkers(s.core.issued, s.procs, s.sent, s.outcomes, res, p', s'.outcomes);
  }

  lemma WorkerActionKeepsInv(s: System, res: Reservation, event: W.Event)
    requires Inv(s) && Enabled(s, WorkerAction(res, event))
    ensures Inv(Apply(s, WorkerAction(res, event)))
  {
    WorkerActionWorkers(s, res, event);
  }

  lemma ActionKeepsInv(s: System, a: Action)
    requires Inv(s) && Enabled(s, a)
    ensures Inv(Apply(s, a)) && (a.CrashAction? ==> a.res !in Apply(s, a).procs)
  {
    match a
    case QueueAction(step) => QueueActionKeepsInv(s, step);
    case WorkerAction(res, event) => WorkerActionKeepsInv(s, res, event);
    case CrashAction(_) =>
  }

  lemma StartInv()
    ensures Inv(START)
  {
    forall job ensures Copies(EMPTY_QUEUE, job) == 0 {
      EmptyHasNoCopies(job);
    }
  }

  ghost function Start(): (s: System)
    ensures Inv(s)
  {
    StartInv();
    START
  }

  // ---- whole runs -----------------------------------------------------------------------

  ghost function Next(s: System, a: Action): (s': System)
    requires Inv(s) && Enabled(s, a)
    ensures Inv(s')
  {
    ActionKeepsInv(s, a);
    Apply(s, a)
  }

  ghost predicate Legal(s: System, actions: seq<Action>)
    requires Inv(s)
    decreases |actions|
  {
    actions == [] || (Enabled(s, actions[0]) && Legal(Next(s, actions[0]), actions[1..]))
  }

  ghost function Run(s: System, actions: seq<Action>): System
    requires Inv(s) && Legal(s, actions)
    decreases |actions|
  {
    if actions == [] then s else Run(Next(s, actions[0]), actions[1..])
  }

  lemma {:induction false} RunKeepsInv(s: System, actions: seq<Action>)
    requires Inv(s) && Legal(s, actions)
    ensures Inv(Run(s, actions))
    decreases |actions|
  {
    if actions != [] {
      RunKeepsInv(Next(s, actions[0]), actions[1..]);
    }
  }

  /** The job has exactly one place in the queue. */
  ghost predicate InOnePlace(q: Queue, job: Text) {
    exists p :: Holds(q, p, job) && forall p' :: Holds(q, p', job) ==> p' == p
  }

  ghost predicate Nowhere(q: Queue, job: Text) {
    forall p :: !Holds(q, p, job)
  }

  lemma WhereIsTheJob(s: System, job: Text)
    requires Inv(s)
    ensures if job in s.known && job !in s.acked then InOnePlace(s.core.q, job) else Nowhere(s.core.q, job)
  {
    var q := s.core.q;
    if Copies(q, job) == 1 {
      var p := CountedIsHeld(q, job);
      forall p' | Holds(q, p', job) ensures p' == p {
        HeldOnce(q, job, p, p');
      }
    } else {
      forall p ensures !Holds(q, p, job) {
        if Holds(q, p, job) {
          PlaceCounts(q, p, job);
        }
      }
    }
  }

  /** Over every run of any number of workers, with crashes anywhere: the bytes of every job
      ever enqueued are in exactly one of the ready list, the processing hash, the delayed
      set and the dead-letter list, or the job is acknowledged and in none of them; nothing
      else is in the queue; and a job is acknowledged only under a reservation whose handler
      returned nil and whose worker asked for it. */
  lemma JobsAreConserved(actions: seq<Action>, job: Text)
    requires Legal(Start(), actions)
    ensures
      var s := Run(Start(), actions);
      && (job in s.known && job !in s.acked ==> InOnePlace(s.core.q, job))
      && (job !in s.known || job in s.acked ==> Nowhere(s.core.q, job))
      && (job in s.acked ==>
            job in s.known && (s.acked[job], Ack) in s.sent
            && s.acked[job] in s.outcomes && s.outcomes[s.acked[job]] == None)
  {
    RunKeepsInv(Start(), actions);
    WhereIsTheJob(Run(Start(), actions), job);
  }

  /** A job never has two live reservations. */
  lemma OneReservationPerJob(actions: seq<Action>, r: Reservation, r': Reservation)
    requires Legal(Start(), actions)
    requires
      var p := Run(Start(), actions).core.q.processing;
      r in p && r' in p && RawJob(p[r]) == RawJob(p[r'])
    ensures r == r'
  {
    var s := Run(Start(), actions);
    RunKeepsInv(Start(), actions);
    HeldOnce(s.core.q, RawJob(s.core.q.processing[r]), AtProcessing(r), AtProcessing(r'));
  }

  lemma AcksAreKept(s: System, a: Action, job: Text)
    requires Q.Inv(s.core) && Enabled(s, a) && (a.WorkerAction? ==> W.Inv(s.procs[a.res]))
    requires a.QueueAction? && Acks(s, a.step) ==> RawJob(s.core.q.processing[a.step.res]) !in s.acked
    ensures s.known <= Apply(s, a).known
    ensures job in s.acked ==> job in Apply(s, a).acked && Apply(s, a).acked[job] == s.acked[job]
  {
  }

  /** What was enqueued stays enqueued, and what was acknowledged stays acknowledged under the
      same reservation: no later step brings a finished job back. */
  lemma {:induction false} AckIsFinal(s: System, actions: seq<Action>, job: Text)
    requires Inv(s) && Legal(s, actions)
    ensures
      var s' := Run(s, actions);
      && (job in s.known ==> job in s'.known)
      && (job in s.acked ==> job in s'.acked && s'.acked[job] == s.acked[job] && Nowhere(s'.core.q, job))
    decreases |actions|
  {
    if actions == [] {
      WhereIsTheJob(s, job);
    } else {
      if actions[0].QueueAction? && Acks(s, actions[0].step) {
        AckedJobWasHeld(s, actions[0].step);
      }
      AcksAreKept(s, actions[0], job);
      AckIsFinal(Next(s, actions[0]), actions[1..], job);
    }
  }

  // ---- a job that failed waits -----------------------------------------------------------

  /** No delivery carries the job of this record. */
  predicate Undelivered(q: Queue, t: Text) {
    forall r :: r in q.processing ==> RawJob(q.processing[r]) != RawJob(t)
  }

  predicate Waits(q: Queue, t: Text, due: int) {
    t in q.delayed && q.delayed[t] == due
  }

  /** A job that waits is nowhere else. */
  lemma WaitingIsAlone(s: System, t: Text)
    requires Inv(s) && t in s.core.q.delayed
    ensures Undelivered(s.core.q, t)
    ensures forall p :: Holds(s.core.q, p, RawJob(t)) ==> p == AtDelayed(t)
  {
    var q, job := s.core.q, RawJob(t);
    forall p | Holds(q, p, job) ensures p == AtDelayed(t) {
      HeldOnce(q, job, p, AtDelayed(t));
    }
    forall r | r in q.processing ensures RawJob(q.processing[r]) != job {
      assert !Holds(q, AtProcessing(r), job);
    }
  }

  lemma RecoveryKeepsOneWaiting(q: Queue, res: Reservation, now: int, t: Text, due: int)
    requires Deliveries(q) && Undelivered(q, t) && Waits(q, t, due)
    ensures Undelivered(RecoverOne(q, res, now), t) && Waits(RecoverOne(q, res, now), t, due)
  {
  }

  lemma {:induction false} RecoveryKeepsWaiting(q: Queue, expired: seq<Reservation>, now: int, t: Text, due: int)
    requires Deliveries(q) && Undelivered(q, t) && Waits(q, t, due)
    ensures Undelivered(RecoverAll(q, expired, now), t) && Waits(RecoverAll(q, expired, now), t, due)
    decreases |expired|
  {
    if expired != [] {
      var front := expired[..|expired| - 1];
      RecoveryKeepsWaiting(q, front, now, t, due);
      RecoveryKeepsOneWaiting(RecoverAll(q, front, now), expired[|expired| - 1], now, t, due);
    }
  }

  /** Before it is due no script takes a record out of the delayed set or changes its time. */
  lemma ScriptKeepsWaiting(c: Q.State, step: Q.Step, t: Text, due: int)
    requires Q.Inv(c) && Q.Enabled(c, step) && Undelivered(c.q, t) && Waits(c.q, t, due)
    requires Q.Apply(c, step).now < due
    ensures Waits(Q.Apply(c, step).q, t, due)
  {
    match step
    case PromoteStep(jobs) => PromoteEnds(c.q, jobs);
    case RecoverStep(expired) => RecoveryKeepsWaiting(c.q, expired, c.now, t, due);
    case _ =>
  }

  lemma StepKeepsWaiting(s: System, a: Action, t: Text, due: int)
    requires Inv(s) && Enabled(s, a) && Waits(s.core.q, t, due) && Apply(s, a).core.now < due
    ensures Waits(Apply(s, a).core.q, t, due)
  {
    WaitingIsAlone(s, t);
    if a.QueueAction? {
      ScriptKeepsWaiting(s.core, a.step, t, due);
    }
  }

  lemma StepClock(s: System, a: Action)
    requires Q.Inv(s.core) && Enabled(s, a) && (a.WorkerAction? ==> W.Inv(s.procs[a.res]))
    ensures s.core.now <= Apply(s, a).core.now
  {
  }

  lemma {:induction false} ClockNeverGoesBack(s: System, actions: seq<Action>)
    requires Inv(s) && Legal(s, actions)
    ensures s.core.now <= Run(s, actions).core.now
    decreases |actions|
  {
    if actions != [] {
      StepClock(s, actions[0]);
      ClockNeverGoesBack(Next(s, actions[0]), actions[1..]);
    }
  }

  /** So a waiting job waits until it is due, and until then it has no other place. */
  lemma {:induction false} WaitsUntilDue(s: System, actions: seq<Action>, t: Text, due: int)
    requires Inv(s) && Legal(s, actions) && Waits(s.core.q, t, due) && Run(s, actions).core.now < due
    ensures
      var q := Run(s, actions).core.q;
      Waits(q, t, due) && forall p :: Holds(q, p, RawJob(t)) ==> p == AtDelayed(t)
    decreases |actions|
  {
    if actions == [] {
      WaitingIsAlone(s, t);
    } else {
      ClockNeverGoesBack(Next(s, actions[0]), actions[1..]);
      StepKeepsWaiting(s, actions[0], t, due);
      WaitsUntilDue(Next(s, actions[0]), actions[1..], t, due);
    }
  }

  lemma RecoveryDelaysOne(q: Queue, res: Reservation, now: int)
    requires Deliveries(q) && res in q.processing && Attempts(q.processing[res]) < MAX_ATTEMPTS
    ensures
      var t := WithError(q.processing[res], LEASE_EXPIRED);
      Waits(RecoverOne(q, res, now), t, now + Backoff(Attempts(t)))
  {
  }

  /** Recovery puts a delivery with attempts left into the delayed set. */
  lemma {:induction false} RecoveryDelays(q: Queue, expired: seq<Reservation>, now: int, res: Reservation)
    requires Deliveries(q) && res in expired && res in q.processing && Attempts(q.processing[res]) < MAX_ATTEMPTS
    requires forall r :: r in q.processing && r != res ==> RawJob(q.processing[r]) != RawJob(q.processing[res])
    ensures
      var t := WithError(q.processing[res], LEASE_EXPIRED);
      Waits(RecoverAll(q, expired, now), t, now + Backoff(Attempts(t)))
    decreases |expired|
  {
    var front, last := expired[..|expired| - 1], expired[|expired| - 1];
    var q' := RecoverAll(q, front, now);
    RecoverEnds(q, front, now);
    assert expired == front + [last];
    if res in front {
      var t := WithError(q.processing[res], LEASE_EXPIRED);
      RecoveryDelays(q, front, now, res);
      assert Undelivered(q', t);
      RecoveryKeepsOneWaiting(q', last, now, t, now + Backoff(Attempts(t)));
    } else {
      assert q'.processing[res] == q.processing[res];
      RecoveryDelaysOne(q', res, now);
    }
  }

  lemma OnlyDeliveryOfItsJob(s: System, res: Reservation)
    requires Inv(s) && res in s.core.q.processing
    ensures forall r :: r in s.core.q.processing && r != res ==>
      RawJob(s.core.q.processing[r]) != RawJob(s.core.q.processing[res])
  {
    var q := s.core.q;
    forall r | r in q.processing && r != res ensures RawJob(q.processing[r]) != RawJob(q.processing[res]) {
      if RawJob(q.processing[r]) == RawJob(q.processing[res]) {
        HeldOnce(q, RawJob(q.processing[res]), AtProcessing(r), AtProcessing(res));
        assert false;
      }
    }
  }

  /** The step ends a delivery with attempts left without acknowledging it: its owner asks for a
      retry in time, or its lease has expired and is recovered. */
  predicate GivesBack(s: System, step: Q.Step, res: Reservation) {
    && res in s.core.q.processing
    && match step
       case FinishStep(r, request, _) => r == res && request.Retry? && Owned(s.core.q, res, s.core.now)
       case RecoverStep(expired) => res in expired
       case _ => false
  }

  lemma RetryDelays(q: Queue, res: Reservation, cause: Text, now: int, lease: int)
    requires Deliveries(q) && Owned(q, res, now) && Attempts(q.processing[res]) < MAX_ATTEMPTS
    ensures
      var t := WithError(q.processing[res], cause);
      Waits(Finish(q, res, Retry(cause), now, lease), t, now + Backoff(Attempts(t)))
  {
  }

  lemma GivenBackWaits(s: System, step: Q.Step, res: Reservation) returns (t: Text)
    requires Inv(s) && Enabled(s, QueueAction(step)) && GivesBack(s, step, res)
    requires Attempts(s.core.q.processing[res]) < MAX_ATTEMPTS
    ensures RawJob(t) == RawJob(s.core.q.processing[res])
    ensures
      var a := Attempts(s.core.q.processing[res]);
      1 <= a && Waits(Q.Apply(s.core, step).q, t, s.core.now + Backoff(a))
  {
    var raw := s.core.q.processing[res];
    if step.RecoverStep? {
      t := WithError(raw, LEASE_EXPIRED);
      OnlyDeliveryOfItsJob(s, res);
      RecoveryDelays(s.core.q, step.expired, s.core.now, res);
    } else {
      t := WithError(raw, step.request.cause);
      RetryDelays(s.core.q, res, step.request.cause, s.core.now, step.lease);
    }
  }

  /** After delivery number a fails or is abandoned, the job stays in the delayed set, and
      nowhere else, until Backoff(a) milliseconds have passed, whatever anybody does. */
  lemma BackoffIsKept(s: System, step: Q.Step, res: Reservation, actions: seq<Action>)
    requires Inv(s) && Enabled(s, QueueAction(step)) && GivesBack(s, step, res)
    requires Attempts(s.core.q.processing[res]) < MAX_ATTEMPTS
    requires Legal(Next(s, QueueAction(step)), actions)
    ensures
      var a, job := Attempts(s.core.q.processing[res]), RawJob(s.core.q.processing[res]);
      var s' := Run(Next(s, QueueAction(step)), actions);
      s'.core.now < s.core.now + Backoff(a) ==>
        InOnePlace(s'.core.q, job) && forall p :: Holds(s'.core.q, p, job) ==> p.AtDelayed?
  {
    var t := GivenBackWaits(s, step, res);
    var due := s.core.now + Backoff(Attempts(s.core.q.processing[res]));
    var s1 := Next(s, QueueAction(step));
    if Run(s1, actions).core.now < due {
      WaitsUntilDue(s1, actions, t, due);
      assert Holds(Run(s1, actions).core.q, AtDelayed(t), RawJob(t));
    }
  }

  // ---- what a handler's outcome does to its job ------------------------------------------

  /** What the queue makes of a delivery once its request is granted. */
  ghost predicate SettledAs(q: Queue, q': Queue, raw: Text, now: int, outcome: Option<Option<Text>>)
    requires IsDelivery(raw)
  {
    var a := Attempts(raw);
    && q'.ready == q.ready
    && match outcome
       case Some(None) => q'.delayed == q.delayed && q'.dead == q.dead
       case Some(Some(error)) =>
         var t := WithError(raw, error);
         if a <= 4 then q'.dead == q.dead && q'.delayed == q.delayed[t := now + [2000, 4000, 8000, 16000][a - 1]]
         else q'.dead == q.dead + [t] && q'.delayed == q.delayed
       case None => q'.delayed == q.delayed && exists cause :: Buried(q, q', raw, cause)
  }

  predicate Buried(q: Queue, q': Queue, raw: Text, cause: Text)
    requires IsDelivery(raw)
  {
    q'.dead == q.dead + [WithError(raw, cause)]
  }

  lemma FinishSettles(q: Queue, res: Reservation, request: Request, now: int, lease: int,
                      outcome: Option<Option<Text>>)
    requires Deliveries(q) && Owned(q, res, now) && !request.Renew? && CalledFor(request, outcome)
    ensures
      var q' := Finish(q, res, request, now, lease);
      && q'.processing == q.processing - {res} && q'.leases == q.leases - {res}
      && SettledAs(q, q', q.processing[res], now, outcome)
  {
    Q.FinishKeepsOthers(q, res, request, now, lease);
    if Attempts(q.processing[res]) <= 4 {
      BackoffSchedule(Attempts(q.processing[res]));
    }
    if request.Dead? {
      assert Buried(q, Finish(q, res, request, now, lease), q.processing[res], request.cause);
    }
  }

  /** When the settlement of a delivery runs in time: the job of a handler that returned nil leaves
      the queue; that of one that failed is delayed by 2, 4, 8 or 16 seconds with the handler's
      error on it, or joins the dead-letter list after its fifth delivery; and only a job without
      a handler goes to the dead-letter list at once. */
  lemma OutcomeDecides(s: System, step: Q.Step, res: Reservation)
    requires Inv(s) && Enabled(s, QueueAction(step)) && Owned(s.core.q, res, s.core.now)
    requires step.FinishStep? && step.res == res && !step.request.Renew?
    ensures
      var q, q' := s.core.q, Q.Apply(s.core, step).q;
      && q'.processing == q.processing - {res} && q'.leases == q.leases - {res}
      && SettledAs(q, q', q.processing[res], s.core.now, OutcomeOf(s.outcomes, res))
  {
    assert (res, step.request) in s.sent && CalledFor(step.request, OutcomeOf(s.outcomes, res));
    FinishSettles(s.core.q, res, step.request, s.core.now, step.lease, OutcomeOf(s.outcomes, res));
  }

  /** A delivery whose lease ran out is treated like one that failed, with that as its error. */
  lemma AbandonedDecides(q: Queue, res: Reservation, now: int)
    requires Deliveries(q) && res in q.processing
    ensures
      var q', raw, a := RecoverOne(q, res, now), q.processing[res], Attempts(q.processing[res]);
      var t := WithError(raw, Broken("processing lease expired"));
      && 1 <= a && RawJob(t) == RawJob(raw) && t.value.lastError == Str(Broken("processing lease expired"))
      && q'.ready == q.ready && q'.processing == q.processing - {res} && q'.leases == q.leases - {res}
      && if a <= 4 then q'.dead == q.dead && q'.delayed == q.delayed[t := now + [2000, 4000, 8000, 16000][a - 1]]
         else q'.dead == q.dead + [t] && q'.delayed == q.delayed
  {
    if Attempts(q.processing[res]) <= 4 {
      BackoffSchedule(Attempts(q.processing[res]));
    }
  }

  function Actions(res: Reservation, events: seq<W.Event>): seq<Action> {
    seq(|events|, i requires 0 <= i < |events| => WorkerAction(res, events[i]))
  }

  lemma RunOne(s: System, a: Action, rest: seq<Action>)
    requires Inv(s) && Enabled(s, a) && Legal(Next(s, a), rest)
    ensures Legal(s, [a] + rest) && Run(s, [a] + rest) == Run(Next(s, a), rest)
  {
    assert ([a] + rest)[1..] == rest;
  }

  lemma {:induction false} RunConcat(s: System, a: seq<Action>, b: seq<Action>)
    requires Inv(s) && Legal(s, a) && Inv(Run(s, a)) && Legal(Run(s, a), b)
    ensures Legal(s, a + b) && Run(s, a + b) == Run(Run(s, a), b)
    decreases |a|
  {
    if a == [] {
      assert a + b == b;
    } else {
      RunConcat(Next(s, a[0]), a[1..], b);
      OneBefore(s, a, b);
    }
  }

  lemma OneBefore(s: System, a: seq<Action>, b: seq<Action>)
    requires Inv(s) && a != [] && Enabled(s, a[0]) && Legal(Next(s, a[0]), a[1..] + b)
    ensures Legal(s, a + b) && Run(s, a + b) == Run(Next(s, a[0]), a[1..] + b)
  {
    HeadFirst(a, b);
    RunOne(s, a[0], a[1..] + b);
  }

  lemma HeadFirst<T>(a: seq<T>, b: seq<T>)
    requires a != []
    ensures a + b == [a[0]] + (a[1..] + b)
  {
  }

  /** Nothing but the worker of this reservation moved. */
  predicate OnlyWorked(s: System, s': System, res: Reservation, p: W.Process) {
    && s'.core == s.core && s'.known == s.known && s'.acked == s.acked
    && s'.procs == s.procs[res := p] && s.sent <= s'.sent
  }

  lemma WorkerMoves(s: System, res: Reservation, event: W.Event) returns (s': System)
    requires Inv(s) && res in s.procs && W.Inv(s.procs[res]) && W.Can(s.procs[res], event)
    ensures Enabled(s, WorkerAction(res, event)) && s' == Next(s, WorkerAction(res, event)) && Inv(s')
    ensures OnlyWorked(s, s', res, W.Next(s.procs[res], event)) && CallsOf(res, s'.procs[res].calls) <= s'.sent
  {
    s' := Next(s, WorkerAction(res, event));
  }

  /** A worker that has the time does what its process may do, and all its calls are sent. */
  lemma {:induction false} WorkerRuns(s: System, res: Reservation, events: seq<W.Event>) returns (s': System)
    requires Inv(s) && res in s.procs && W.Inv(s.procs[res]) && W.Legal(s.procs[res], events)
    requires CallsOf(res, s.procs[res].calls) <= s.sent
    ensures Legal(s, Actions(res, events)) && s' == Run(s, Actions(res, events)) && Inv(s')
    ensures OnlyWorked(s, s', res, W.After(s.procs[res], events)) && CallsOf(res, s'.procs[res].calls) <= s'.sent
    decreases |events|
  {
    if events == [] {
      s' := s;
    } else {
      var s1 := WorkerMoves(s, res, events[0]);
      s' := WorkerRuns(s1, res, events[1..]);
      WorkerMoved(s, res, events, s1);
      WorkedOn(s, s1, s', res, s1.procs[res], s'.procs[res]);
    }
  }

  lemma WorkerMoved(s: System, res: Reservation, events: seq<W.Event>, s1: System)
    requires Inv(s) && events != [] && Enabled(s, WorkerAction(res, events[0]))
    requires s1 == Next(s, WorkerAction(res, events[0])) && Legal(s1, Actions(res, events[1..]))
    ensures Legal(s, Actions(res, events)) && Run(s, Actions(res, events)) == Run(s1, Actions(res, events[1..]))
  {
    FirstAction(res, events);
    RunOne(s, WorkerAction(res, events[0]), Actions(res, events[1..]));
  }

  lemma FirstAction(res: Reservation, events: seq<W.Event>)
    requires events != []
    ensures Actions(res, events) == [WorkerAction(res, events[0])] + Actions(res, events[1..])
  {
  }

  lemma WorkedOn(s: System, s1: System, s': System, res: Reservation, p1: W.Process, p: W.Process)
    requires OnlyWorked(s, s1, res, p1) && OnlyWorked(s1, s', res, p)
    ensures OnlyWorked(s, s', res, p)
  {
  }

  /** One job handled without disturbance: begin, the handler's return, and the way to the call. */
  function Handling(error: Option<Text>): seq<W.Event> {
    [W.Begin(true, EMPTY_STRING)] + ([W.HandlerReturns(error)] + ToTheCall())
  }

  function ToTheCall(): seq<W.Event> {
    [W.BeatStops] + ([W.MainReceives] + ([W.MainChecks] + []))
  }

  lemma ToTheCallCalls(p: W.Process, error: Option<Text>)
    requires W.Inv(p) && p.main.Stopping? && p.beat.Selecting? && !p.parentCancelled && p.result == Some(error)
    requires p.calls == []
    ensures W.Legal(p, ToTheCall())
    ensures W.After(p, ToTheCall()).calls == [if error.None? then Ack else Retry(error.value)]
  {
    var p1 := W.Next(p, W.BeatStops);
    var p2 := W.Next(p1, W.MainReceives);
    W.AfterOne(p2, W.MainChecks, []);
    W.AfterOne(p1, W.MainReceives, [W.MainChecks] + []);
    W.AfterOne(p, W.BeatStops, [W.MainReceives] + ([W.MainChecks] + []));
  }

  lemma HandlingCalls(error: Option<Text>)
    ensures W.Legal(W.NEW_PROCESS, Handling(error))
    ensures W.After(W.NEW_PROCESS, Handling(error)).calls == [if error.None? then Ack else Retry(error.value)]
  {
    var p1 := W.Next(W.NEW_PROCESS, W.Begin(true, EMPTY_STRING));
    ToTheCallCalls(W.Next(p1, W.HandlerReturns(error)), error);
    W.AfterOne(p1, W.HandlerReturns(error), ToTheCall());
    W.AfterOne(W.NEW_PROCESS, W.Begin(true, EMPTY_STRING), [W.HandlerReturns(error)] + ToTheCall());
  }

  /** The head of the ready list is handed out, handled without disturbance, and settled. */
  function Handled(res: Reservation, lease: int, error: Option<Text>): seq<Action> {
    [QueueAction(Q.ReserveStep(res, lease))]
    + (Actions(res, Handling(error)) + ([SettleAction(res, lease, error)] + []))
  }

  function SettleAction(res: Reservation, lease: int, error: Option<Text>): Action {
    QueueAction(Q.FinishStep(res, if error.None? then Ack else Retry(error.value), lease))
  }

  /** What the queue looks like after the job at its head was handled: the rest is as it was. */
  ghost predicate Handed(q: Queue, q': Queue, now: int, error: Option<Text>)
    requires q.ready != [] && ValidRecord(q.ready[0])
  {
    && SettledAs(q.(ready := q.ready[1..]), q', Delivered(q.ready[0]), now, Some(error))
    && q'.processing == q.processing && q'.leases == q.leases
  }

  /** The head of the ready list is held under this reservation. */
  predicate HeldNow(q: Queue, held: Queue, res: Reservation, now: int, lease: int)
    requires q.ready != [] && ValidRecord(q.ready[0])
  {
    && res !in q.processing && res !in q.leases && 0 < lease
    && held == q.(ready := q.ready[1..], processing := q.processing[res := Delivered(q.ready[0])],
                  leases := q.leases[res := now + lease])
  }

  /** It was settled as its outcome says, and is held no more. */
  ghost predicate SettledFrom(held: Queue, q': Queue, res: Reservation, now: int, error: Option<Text>) {
    && res in held.processing && IsDelivery(held.processing[res])
    && SettledAs(held, q', held.processing[res], now, Some(error))
    && q'.processing == held.processing - {res} && q'.leases == held.leases - {res}
  }

  lemma HandedBack(q: Queue, held: Queue, q': Queue, res: Reservation, now: int, lease: int, error: Option<Text>)
    requires q.ready != [] && ValidRecord(q.ready[0])
    requires HeldNow(q, held, res, now, lease) && SettledFrom(held, q', res, now, error)
    ensures Handed(q, q', now, error) && RawJob(held.processing[res]) == RawJob(q.ready[0])
  {
    assert held.processing - {res} == q.processing && held.leases - {res} == q.leases;
  }

  lemma HandOut(s: System, res: Reservation, lease: int) returns (s1: System)
    requires Inv(s) && Enabled(s, QueueAction(Q.ReserveStep(res, lease))) && 0 < lease
    requires s.core.q.ready != [] && ValidRecord(s.core.q.ready[0])
    ensures s1 == Next(s, QueueAction(Q.ReserveStep(res, lease))) && Inv(s1)
    ensures res in s1.procs && s1.procs[res] == W.NEW_PROCESS && s1.acked == s.acked
    ensures s1.core.now == s.core.now && HeldNow(s.core.q, s1.core.q, res, s.core.now, lease)
  {
    s1 := Next(s, QueueAction(Q.ReserveStep(res, lease)));
  }

  lemma SettleNow(s: System, res: Reservation, lease: int, error: Option<Text>) returns (s': System)
    requires Inv(s) && res in s.procs && Owned(s.core.q, res, s.core.now)
    requires s.procs[res].calls == [if error.None? then Ack else Retry(error.value)]
    requires CallsOf(res, s.procs[res].calls) <= s.sent
    ensures Enabled(s, SettleAction(res, lease, error)) && s' == Next(s, SettleAction(res, lease, error))
    ensures SettledFrom(s.core.q, s'.core.q, res, s.core.now, error)
    ensures s'.acked == if error.None? then s.acked[RawJob(s.core.q.processing[res]) := res] else s.acked
  {
    var request := if error.None? then Ack else Retry(error.value);
    CallIsSent(res, s.procs[res].calls, request, s.sent);
    s' := NextFinish(s, res, request, lease);
    FinishFrom(s.core.q, res, s.core.now, lease, error);
  }

  lemma CallIsSent(res: Reservation, calls: seq<Request>, request: Request, sent: set<(Reservation, Request)>)
    requires request in calls && CallsOf(res, calls) <= sent
    ensures (res, request) in sent
  {
    assert (res, request) in CallsOf(res, calls);
  }

  lemma FinishFrom(q: Queue, res: Reservation, now: int, lease: int, error: Option<Text>)
    requires Deliveries(q) && Owned(q, res, now)
    ensures SettledFrom(q, Finish(q, res, if error.None? then Ack else Retry(error.value), now, lease), res, now, error)
  {
    FinishSettles(q, res, if error.None? then Ack else Retry(error.value), now, lease, Some(error));
  }

  lemma NextFinish(s: System, res: Reservation, request: Request, lease: int) returns (s': System)
    requires Inv(s) && (res, request) in s.sent && Owned(s.core.q, res, s.core.now)
    ensures s' == Next(s, QueueAction(Q.FinishStep(res, request, lease)))
    ensures s'.core.q == Finish(s.core.q, res, request, s.core.now, lease)
    ensures s'.acked == if request.Ack? then s.acked[RawJob(s.core.q.processing[res]) := res] else s.acked
  {
    s' := Next(s, QueueAction(Q.FinishStep(res, request, lease)));
  }

  lemma ThenRun(s: System, a: Action, mids: seq<Action>, z: Action, s1: System, s2: System)
    requires Inv(s) && Enabled(s, a) && s1 == Next(s, a)
    requires Legal(s1, mids) && s2 == Run(s1, mids) && Inv(s2) && Enabled(s2, z)
    ensures Legal(s, [a] + (mids + ([z] + []))) && Run(s, [a] + (mids + ([z] + []))) == Next(s2, z)
  {
    RunOne(s2, z, []);
    RunConcat(s1, mids, [z] + []);
    RunOne(s, a, mids + ([z] + []));
  }

  lemma Handle(s: System, res: Reservation, error: Option<Text>) returns (s': System)
    requires Inv(s) && res in s.procs && s.procs[res] == W.NEW_PROCESS
    ensures Legal(s, Actions(res, Handling(error))) && s' == Run(s, Actions(res, Handling(error))) && Inv(s')
    ensures s'.core == s.core && s'.acked == s.acked && res in s'.procs
    ensures s'.procs[res].calls == [if error.None? then Ack else Retry(error.value)]
    ensures CallsOf(res, s'.procs[res].calls) <= s'.sent
  {
    HandlingCalls(error);
    s' := WorkerRuns(s, res, Handling(error));
  }

  /** The worker's part and the settlement. */
  lemma HandleAndSettle(s: System, res: Reservation, lease: int, error: Option<Text>) returns (s1: System, s': System)
    requires Inv(s) && res in s.procs && s.procs[res] == W.NEW_PROCESS && Owned(s.core.q, res, s.core.now)
    ensures Legal(s, Actions(res, Handling(error))) && s1 == Run(s, Actions(res, Handling(error))) && Inv(s1)
    ensures Enabled(s1, SettleAction(res, lease, error)) && s' == Next(s1, SettleAction(res, lease, error))
    ensures SettledFrom(s.core.q, s'.core.q, res, s.core.now, error)
    ensures s'.acked == if error.None? then s.acked[RawJob(s.core.q.processing[res]) := res] else s.acked
  {
    s1 := Handle(s, res, error);
    s' := SettleNow(s1, res, lease, error);
  }

  /** From any reachable state: the job at the head of the ready list can be handed out and handled
      without disturbance; then it is acknowledged, delayed or buried as the handler's outcome
      says, and everything else in the queue is as it was. */
  lemma HandledAlone(s: System, res: Reservation, lease: int, error: Option<Text>) returns (s': System)
    requires Inv(s) && Enabled(s, QueueAction(Q.ReserveStep(res, lease))) && 0 < lease
    requires s.core.q.ready != [] && ValidRecord(s.core.q.ready[0])
    ensures Legal(s, Handled(res, lease, error)) && s' == Run(s, Handled(res, lease, error))
    ensures Handed(s.core.q, s'.core.q, s.core.now, error)
    ensures s'.acked == if error.None? then s.acked[RawJob(s.core.q.ready[0]) := res] else s.acked
  {
    var s1 := HandOut(s, res, lease);
    var s2;
    s2, s' := HandleAndSettle(s1, res, lease, error);
    HandedBack(s.core.q, s1.core.q, s'.core.q, res, s.core.now, lease, error);
    ThenRun(s, QueueAction(Q.ReserveStep(res, lease)), Actions(res, Handling(error)), SettleAction(res, lease, error),
            s1, s2);
  }
}
