/** The scripts as the Redis commands they issue, one after the other. */
module QueueCuts {
  import opened JobRecords
  import opened JobQueue
  import opened QueueBatches
  import opened QueueLaws
  import Q = QueueRuns
  import JobSystem

  // Redis runs a script without interleaving, but a script that stops half way (a server
  // error, memory, a kill) has already executed a prefix of its commands.  The scripts put a
  // record into its new place before they take it out of the old one; here is what that buys,
  // at the end for runs of such scripts.

  datatype Command =
    | PushReady(t: Text) | PopReady
    | PushDead(t: Text) | PopDead
    | SetProcessing(r: Reservation, t: Text) | DelProcessing(r: Reservation)
    | SetLease(r: Reservation, deadline: int) | DelLease(r: Reservation)
    | AddDelayed(t: Text, score: int) | DelDelayed(t: Text)

  function Do(q: Queue, c: Command): Queue {
    match c
    case PushReady(t) => q.(ready := q.ready + [t])
    case PopReady => if q.ready == [] then q else q.(ready := q.ready[1..])
    case PushDead(t) => q.(dead := q.dead + [t])
    case PopDead => if q.dead == [] then q else q.(dead := q.dead[1..])
    case SetProcessing(r, t) => q.(processing := q.processing[r := t])
    case DelProcessing(r) => q.(processing := q.processing - {r})
    case SetLease(r, deadline) => q.(leases := q.leases[r := deadline])
    case DelLease(r) => q.(leases := q.leases - {r})
    case AddDelayed(t, score) => q.(delayed := q.delayed[t := score])
    case DelDelayed(t) => q.(delayed := q.delayed - {t})
  }

  function Exec(q: Queue, cs: seq<Command>): Queue
    decreases |cs|
  {
    if cs == [] then q else Do(Exec(q, cs[..|cs| - 1]), cs[|cs| - 1])
  }

  function ReserveCommands(q: Queue, res: Reservation, now: int, lease: int): seq<Command> {
    if q.ready == [] then []
    else if !ValidRecord(q.ready[0]) then [PushDead(q.ready[0]), PopReady]
    else [SetProcessing(res, Delivered(q.ready[0])), SetLease(res, now + lease), PopReady]
  }

  function PutBack(t: Text, dead: bool, now: int): Command
    requires IsDelivery(t)
  {
    if dead || MAX_ATTEMPTS <= Attempts(t) then PushDead(t)
    else AddDelayed(t, now + Backoff(Attempts(t)))
  }

  function FinishCommands(q: Queue, res: Reservation, request: Request, now: int, lease: int): seq<Command>
    requires Deliveries(q)
  {
    if !Owned(q, res, now) then []
    else match request
      case Renew => [SetLease(res, now + lease)]
      case Ack => [DelProcessing(res), DelLease(res)]
      case _ =>
        var raw := WithError(q.processing[res], request.cause);
        [PutBack(raw, request.Dead?, now), DelProcessing(res), DelLease(res)]
  }

  function PromoteCommands(due: seq<Text>): seq<Command>
    decreases |due|
  {
    if due == [] then []
    else PromoteCommands(due[..|due| - 1]) + [PushReady(due[|due| - 1]), DelDelayed(due[|due| - 1])]
  }

  function EntryCommands(q: Queue, res: Reservation, now: int): seq<Command>
    requires Deliveries(q)
  {
    if res in q.processing
    then [PutBack(WithError(q.processing[res], LEASE_EXPIRED), false, now), DelProcessing(res), DelLease(res)]
    else [DelLease(res)]
  }

  function RecoverCommands(q: Queue, expired: seq<Reservation>, now: int): seq<Command>
    requires Deliveries(q)
    decreases |expired|
  {
    if expired == [] then []
    else
      var front := expired[..|expired| - 1];
      RecoverCommands(q, front, now) + EntryCommands(RecoverAll(q, front, now), expired[|expired| - 1], now)
  }

  function ReplayCommands(q: Queue): seq<Command> {
    if q.dead == [] || !ValidJob(RawJob(q.dead[0])) then []
    else [PushReady(Replayed(q.dead[0])), PopDead]
  }

  lemma {:induction false} ExecConcat(q: Queue, a: seq<Command>, b: seq<Command>)
    ensures Exec(q, a + b) == Exec(Exec(q, a), b)
    decreases |b|
  {
    if b == [] {
      assert a + b == a;
    } else {
      var front := b[..|b| - 1];
      assert (a + b)[..|a + b| - 1] == a + front;
      ExecConcat(q, a, front);
    }
  }

  lemma Exec1(q: Queue, a: Command)
    ensures Exec(q, [a]) == Do(q, a)
  {
    assert [a][..0] == [];
  }

  lemma Exec2(q: Queue, a: Command, b: Command)
    ensures Exec(q, [a, b]) == Do(Do(q, a), b)
  {
    assert [a, b][..1] == [a];
    Exec1(q, a);
  }

  lemma Exec3(q: Queue, a: Command, b: Command, c: Command)
    ensures Exec(q, [a, b, c]) == Do(Do(Do(q, a), b), c)
  {
    assert [a, b, c][..2] == [a, b];
    Exec2(q, a, b);
  }

  // ---- run to the end, the commands are the script -------------------------------------

  lemma ReserveWhole(q: Queue, res: Reservation, now: int, lease: int)
    ensures Exec(q, ReserveCommands(q, res, now, lease)) == Reserve(q, res, now, lease)
  {
    if q.ready != [] {
      if ValidRecord(q.ready[0]) {
        Exec3(q, SetProcessing(res, Delivered(q.ready[0])), SetLease(res, now + lease), PopReady);
      } else {
        Exec2(q, PushDead(q.ready[0]), PopReady);
      }
    }
  }

  /** Put back, then forget: settling a record and dropping its delivery. */
  lemma PutBackWhole(q: Queue, res: Reservation, t: Text, dead: bool, now: int)
    requires IsDelivery(t)
    ensures Exec(q, [PutBack(t, dead, now), DelProcessing(res), DelLease(res)]) == Drop(Settle(q, t, dead, now), res)
  {
    Exec3(q, PutBack(t, dead, now), DelProcessing(res), DelLease(res));
  }

  lemma FinishWhole(q: Queue, res: Reservation, request: Request, now: int, lease: int)
    requires Deliveries(q)
    ensures Exec(q, FinishCommands(q, res, request, now, lease)) == Finish(q, res, request, now, lease)
  {
    if Owned(q, res, now) {
      match request
      case Renew => Exec1(q, SetLease(res, now + lease));
      case Ack => Exec2(q, DelProcessing(res), DelLease(res));
      case _ => PutBackWhole(q, res, WithError(q.processing[res], request.cause), request.Dead?, now);
    }
  }

  lemma {:induction false} PromoteWhole(q: Queue, due: seq<Text>)
    ensures Exec(q, PromoteCommands(due)) == PromoteAll(q, due)
    decreases |due|
  {
    if due != [] {
      var front, t := due[..|due| - 1], due[|due| - 1];
      PromoteWhole(q, front);
      ExecConcat(q, PromoteCommands(front), [PushReady(t), DelDelayed(t)]);
      Exec2(PromoteAll(q, front), PushReady(t), DelDelayed(t));
    }
  }

  lemma EntryWhole(q: Queue, res: Reservation, now: int)
    requires Deliveries(q)
    ensures Exec(q, EntryCommands(q, res, now)) == RecoverOne(q, res, now)
  {
    if res in q.processing {
      PutBackWhole(q, res, WithError(q.processing[res], LEASE_EXPIRED), false, now);
    } else {
      Exec1(q, DelLease(res));
    }
  }

  lemma {:induction false} RecoverWhole(q: Queue, expired: seq<Reservation>, now: int)
    requires Deliveries(q)
    ensures Exec(q, RecoverCommands(q, expired, now)) == RecoverAll(q, expired, now)
    decreases |expired|
  {
    if expired != [] {
      var front, res := expired[..|expired| - 1], expired[|expired| - 1];
      RecoverWhole(q, front, now);
      ExecConcat(q, RecoverCommands(q, front, now), EntryCommands(RecoverAll(q, front, now), res, now));
      EntryWhole(RecoverAll(q, front, now), res, now);
    }
  }

  lemma ReplayWhole(q: Queue)
    ensures Exec(q, ReplayCommands(q)) == Replay(q)
  {
    if q.dead != [] && ValidJob(RawJob(q.dead[0])) {
      Exec2(q, PushReady(Replayed(q.dead[0])), PopDead);
    }
  }

  // ---- cut anywhere, no job is lost ----------------------------------------------------

  /** The job can still be delivered or inspected: it is in a list or delayed, or it is being
      processed under a lease, so that somebody will settle or recover it.  A processing entry
      without a lease does not count: no script would ever look at it again. */
  ghost predicate Safe(q: Queue, job: Text) {
    exists p :: Holds(q, p, job) && (p.AtProcessing? ==> p.r in q.leases)
  }

  /** Commands that cannot take a job away. */
  predicate Adds(q: Queue, c: Command) {
    match c
    case PushReady(_) => true
    case PushDead(_) => true
    case SetProcessing(r, _) => r !in q.processing
    case SetLease(_, _) => true
    case AddDelayed(_, _) => true
    case _ => false
  }

  lemma AddsKeepsSafe(q: Queue, c: Command, job: Text)
    requires Safe(q, job) && Adds(q, c)
    ensures Safe(Do(q, c), job)
  {
    var p :| Holds(q, p, job) && (p.AtProcessing? ==> p.r in q.leases);
    assert Holds(Do(q, c), p, job);
  }

  /** The place a removing command empties. */
  predicate Empties(q: Queue, c: Command, p: Place) {
    match c
    case PopReady => p == AtReady(0)
    case PopDead => p == AtDead(0)
    case DelProcessing(r) => p == AtProcessing(r)
    case DelLease(r) => p == AtProcessing(r)
    case DelDelayed(t) => p == AtDelayed(t)
    case _ => false
  }

  /** Removing one place loses nothing that is safely held elsewhere. */
  lemma RemoveKeepsSafe(q: Queue, c: Command, job: Text, p: Place)
    requires !Adds(q, c) && !c.SetProcessing?
    requires Holds(q, p, job) && (p.AtProcessing? ==> p.r in q.leases) && !Empties(q, c, p)
    ensures Safe(Do(q, c), job)
  {
    var p' := match p
      case AtReady(i) => if c.PopReady? && 0 < i then AtReady(i - 1) else p
      case AtDead(i) => if c.PopDead? && 0 < i then AtDead(i - 1) else p
      case _ => p;
    assert Holds(Do(q, c), p', job);
  }

  /** Written to its new place, then taken from the old one: safe at every point if some place
      holds the job after the write and survives the removal. */
  lemma MoveCut(q: Queue, a: Command, b: Command, job: Text, p: Place, k: nat)
    requires Safe(q, job) && Adds(q, a) && !Adds(Do(q, a), b) && !b.SetProcessing? && k <= 2
    requires Holds(Do(q, a), p, job) && (p.AtProcessing? ==> p.r in Do(q, a).leases) && !Empties(Do(q, a), b, p)
    ensures Safe(Exec(q, [a, b][..k]), job)
  {
    Exec1(q, a);
    Exec2(q, a, b);
    assert [a, b][..0] == [] && [a, b][..1] == [a] && [a, b][..2] == [a, b];
    AddsKeepsSafe(q, a, job);
    RemoveKeepsSafe(Do(q, a), b, job, p);
  }

  /** An unreadable record on its way to the dead-letter list. */
  lemma RejectCut(q: Queue, job: Text, k: nat)
    requires Safe(q, job) && q.ready != [] && k <= 2
    ensures Safe(Exec(q, [PushDead(q.ready[0]), PopReady][..k]), job)
  {
    var p: Place :| Holds(q, p, job) && (p.AtProcessing? ==> p.r in q.leases);
    MoveCut(q, PushDead(q.ready[0]), PopReady, job, if p == AtReady(0) then AtDead(|q.dead|) else p, k);
  }

  /** A record on its way to the processing hash. */
  lemma HandOutCut(q: Queue, res: Reservation, t: Text, deadline: int, job: Text, k: nat)
    requires Safe(q, job) && q.ready != [] && RawJob(t) == RawJob(q.ready[0]) && res !in q.processing && k <= 3
    ensures Safe(Exec(q, [SetProcessing(res, t), SetLease(res, deadline), PopReady][..k]), job)
  {
    var a, b := SetProcessing(res, t), SetLease(res, deadline);
    ExecPrefix(q, a, b, PopReady, k);
    AddsKeepsSafe(q, a, job);
    var q1 := Do(q, a);
    AddsKeepsSafe(q1, b, job);
    var q2 := Do(q1, b);
    var p: Place :| Holds(q2, p, job) && (p.AtProcessing? ==> p.r in q2.leases);
    RemoveKeepsSafe(q2, PopReady, job, if p == AtReady(0) then AtProcessing(res) else p);
  }

  lemma ReserveCut(q: Queue, res: Reservation, now: int, lease: int, job: Text, k: nat)
    requires Safe(q, job) && res !in q.processing
    requires k <= |ReserveCommands(q, res, now, lease)|
    ensures Safe(Exec(q, ReserveCommands(q, res, now, lease)[..k]), job)
  {
    var cs := ReserveCommands(q, res, now, lease);
    if q.ready == [] {
      assert cs[..k] == [];
    } else if ValidRecord(q.ready[0]) {
      assert cs == [SetProcessing(res, Delivered(q.ready[0])), SetLease(res, now + lease), PopReady];
      HandOutCut(q, res, Delivered(q.ready[0]), now + lease, job, k);
    } else {
      assert cs == [PushDead(q.ready[0]), PopReady];
      RejectCut(q, job, k);
    }
  }

  /** The shape shared by retry, dead-letter and recovery: put back, then forget. */
  lemma PutBackCut(q: Queue, res: Reservation, t: Text, dead: bool, now: int, job: Text, k: nat)
    requires Safe(q, job) && IsDelivery(t)
    requires res in q.processing && RawJob(t) == RawJob(q.processing[res])
    requires k <= 3
    ensures Safe(Exec(q, [PutBack(t, dead, now), DelProcessing(res), DelLease(res)][..k]), job)
  {
    var a, b, c := PutBack(t, dead, now), DelProcessing(res), DelLease(res);
    ExecPrefix(q, a, b, c, k);
    AddsKeepsSafe(q, a, job);
    var p := PutBackPlace(q, res, t, dead, now, job);
    Forget(Do(q, a), res, job, p);
  }

  lemma ExecPrefix(q: Queue, a: Command, b: Command, c: Command, k: nat)
    requires k <= 3
    ensures Exec(q, [a, b, c][..k])
         == if k == 0 then q else if k == 1 then Do(q, a) else if k == 2 then Do(Do(q, a), b)
            else Do(Do(Do(q, a), b), c)
  {
    var cs := [a, b, c];
    Exec1(q, a);
    Exec2(q, a, b);
    Exec3(q, a, b, c);
    assert cs[..0] == [] && cs[..1] == [a] && cs[..2] == [a, b] && cs[..3] == cs;
  }

  /** A place other than the reservation that holds the job once its record is back. */
  lemma PutBackPlace(q: Queue, res: Reservation, t: Text, dead: bool, now: int, job: Text) returns (p: Place)
    requires Safe(q, job) && IsDelivery(t)
    requires res in q.processing && RawJob(t) == RawJob(q.processing[res])
    ensures var q1 := Do(q, PutBack(t, dead, now));
            Holds(q1, p, job) && (p.AtProcessing? ==> p.r in q1.leases) && p != AtProcessing(res)
  {
    p :| Holds(q, p, job) && (p.AtProcessing? ==> p.r in q.leases);
    if p == AtProcessing(res) {
      p := if PutBack(t, dead, now).PushDead? then AtDead(|q.dead|) else AtDelayed(t);
    }
  }

  lemma Forget(q: Queue, res: Reservation, job: Text, p: Place)
    requires Holds(q, p, job) && (p.AtProcessing? ==> p.r in q.leases) && p != AtProcessing(res)
    ensures Safe(Do(q, DelProcessing(res)), job)
    ensures Safe(Do(Do(q, DelProcessing(res)), DelLease(res)), job)
  {
    RemoveKeepsSafe(q, DelProcessing(res), job, p);
    assert Holds(Do(q, DelProcessing(res)), p, job);
    RemoveKeepsSafe(Do(q, DelProcessing(res)), DelLease(res), job, p);
  }

  lemma AckCut(q: Queue, res: Reservation, job: Text, k: nat)
    requires Safe(q, job) && (res in q.processing ==> RawJob(q.processing[res]) != job) && 1 <= k <= 2
    ensures Safe(Exec(q, [DelProcessing(res), DelLease(res)][..k]), job)
  {
    var a, b := DelProcessing(res), DelLease(res);
    var p :| Holds(q, p, job) && (p.AtProcessing? ==> p.r in q.leases);
    Forget(q, res, job, p);
    Exec1(q, a);
    Exec2(q, a, b);
    assert [a, b][..1] == [a] && [a, b][..2] == [a, b];
  }

  /** A request of the owner, cut anywhere: only an acknowledged job may be gone. */
  lemma FinishCut(q: Queue, res: Reservation, request: Request, now: int, lease: int, job: Text, k: nat)
    requires Deliveries(q) && Safe(q, job)
    requires request.Ack? && res in q.processing ==> RawJob(q.processing[res]) != job
    requires k <= |FinishCommands(q, res, request, now, lease)|
    ensures Safe(Exec(q, FinishCommands(q, res, request, now, lease)[..k]), job)
  {
    var cs := FinishCommands(q, res, request, now, lease);
    if cs == [] || k == 0 {
      assert cs[..k] == [];
    } else if request.Renew? {
      assert cs[..k] == cs;
      Exec1(q, cs[0]);
      AddsKeepsSafe(q, cs[0], job);
    } else if request.Ack? {
      AckCut(q, res, job, k);
    } else {
      PutBackCut(q, res, WithError(q.processing[res], request.cause), request.Dead?, now, job, k);
    }
  }

  lemma EntryCut(q: Queue, res: Reservation, now: int, job: Text, k: nat)
    requires Deliveries(q) && Safe(q, job) && k <= |EntryCommands(q, res, now)|
    ensures Safe(Exec(q, EntryCommands(q, res, now)[..k]), job)
  {
    if res in q.processing {
      PutBackCut(q, res, WithError(q.processing[res], LEASE_EXPIRED), false, now, job, k);
    } else {
      var cs := EntryCommands(q, res, now);
      var p :| Holds(q, p, job) && (p.AtProcessing? ==> p.r in q.leases);
      RemoveKeepsSafe(q, cs[0], job, p);
      Exec1(q, cs[0]);
      assert cs[..0] == [] && cs[..1] == cs;
    }
  }

  /** The recoveries so far, and the next one cut anywhere. */
  lemma NextEntryCut(q: Queue, done: seq<Command>, q': Queue, res: Reservation, now: int, job: Text,
                     cs: seq<Command>, k: nat)
    requires Exec(q, done) == q' && Deliveries(q') && Safe(q', job)
    requires cs == done + EntryCommands(q', res, now) && |done| <= k <= |cs|
    ensures Safe(Exec(q, cs[..k]), job)
  {
    var entry := EntryCommands(q', res, now);
    EntryCut(q', res, now, job, k - |done|);
    assert cs[..k] == done + entry[..k - |done|];
    ExecConcat(q, done, entry[..k - |done|]);
  }

  lemma {:induction false} RecoverCut(q: Queue, expired: seq<Reservation>, now: int, job: Text, k: nat)
    requires Deliveries(q) && Safe(q, job) && k <= |RecoverCommands(q, expired, now)|
    ensures Safe(Exec(q, RecoverCommands(q, expired, now)[..k]), job)
    decreases |expired|
  {
    var cs := RecoverCommands(q, expired, now);
    if expired == [] {
      assert cs[..k] == [];
    } else {
      var front, res := expired[..|expired| - 1], expired[|expired| - 1];
      var done := RecoverCommands(q, front, now);
      if k <= |done| {
        assert cs[..k] == done[..k];
        RecoverCut(q, front, now, job, k);
      } else {
        assert done[..|done|] == done;
        RecoverCut(q, front, now, job, |done|);
        RecoverWhole(q, front, now);
        NextEntryCut(q, done, RecoverAll(q, front, now), res, now, job, cs, k);
      }
    }
  }

  lemma PromoteOneCut(q: Queue, t: Text, job: Text, k: nat)
    requires Safe(q, job) && k <= 2
    ensures Safe(Exec(q, [PushReady(t), DelDelayed(t)][..k]), job)
  {
    var p: Place :| Holds(q, p, job) && (p.AtProcessing? ==> p.r in q.leases);
    MoveCut(q, PushReady(t), DelDelayed(t), job, if p == AtDelayed(t) then AtReady(|q.ready|) else p, k);
  }

  lemma {:induction false} PromoteCut(q: Queue, due: seq<Text>, job: Text, k: nat)
    requires Safe(q, job) && k <= |PromoteCommands(due)|
    ensures Safe(Exec(q, PromoteCommands(due)[..k]), job)
    decreases |due|
  {
    var cs := PromoteCommands(due);
    if due == [] {
      assert cs[..k] == [];
    } else {
      var front, t := due[..|due| - 1], due[|due| - 1];
      var done := PromoteCommands(front);
      if k <= |done| {
        assert cs[..k] == done[..k];
        PromoteCut(q, front, job, k);
      } else {
        var entry := [PushReady(t), DelDelayed(t)];
        assert done[..|done|] == done;
        PromoteCut(q, front, job, |done|);
        PromoteOneCut(Exec(q, done), t, job, k - |done|);
        assert cs[..k] == done + entry[..k - |done|];
        ExecConcat(q, done, entry[..k - |done|]);
      }
    }
  }

  lemma ReplayCut(q: Queue, job: Text, k: nat)
    requires Safe(q, job) && k <= |ReplayCommands(q)|
    ensures Safe(Exec(q, ReplayCommands(q)[..k]), job)
  {
    if q.dead != [] && ValidJob(RawJob(q.dead[0])) {
      var p: Place :| Holds(q, p, job) && (p.AtProcessing? ==> p.r in q.leases);
      MoveCut(q, PushReady(Replayed(q.dead[0])), PopDead, job, if p == AtDead(0) then AtReady(|q.ready|) else p, k);
    }
  }

  // ---- deliveries and their leases --------------------------------------------------------------

  /** Every delivery has a lease, so somebody will settle or recover it. */
  predicate Leased(q: Queue) {
    q.processing.Keys <= q.leases.Keys
  }

  lemma PutBackLeased(q: Queue, res: Reservation, t: Text, dead: bool, now: int, k: nat)
    requires Leased(q) && IsDelivery(t) && k <= 3
    ensures Leased(Exec(q, [PutBack(t, dead, now), DelProcessing(res), DelLease(res)][..k]))
  {
    ExecPrefix(q, PutBack(t, dead, now), DelProcessing(res), DelLease(res), k);
  }

  /** A settlement stopped anywhere leaves no delivery without a lease: the lease goes last. */
  lemma FinishLeased(q: Queue, res: Reservation, request: Request, now: int, lease: int, k: nat)
    requires Deliveries(q) && Leased(q) && k <= |FinishCommands(q, res, request, now, lease)|
    ensures Leased(Exec(q, FinishCommands(q, res, request, now, lease)[..k]))
  {
    var cs := FinishCommands(q, res, request, now, lease);
    if cs == [] || k == 0 {
      assert cs[..k] == [];
    } else if request.Renew? {
      assert cs[..k] == [SetLease(res, now + lease)];
      Exec1(q, cs[0]);
    } else if request.Ack? {
      Exec1(q, cs[0]);
      Exec2(q, cs[0], cs[1]);
      assert cs[..1] == [cs[0]] && cs[..2] == [cs[0], cs[1]];
    } else {
      PutBackLeased(q, res, WithError(q.processing[res], request.cause), request.Dead?, now, k);
    }
  }

  lemma EntryLeased(q: Queue, res: Reservation, now: int, k: nat)
    requires Deliveries(q) && Leased(q) && k <= |EntryCommands(q, res, now)|
    ensures Leased(Exec(q, EntryCommands(q, res, now)[..k]))
  {
    if res in q.processing {
      PutBackLeased(q, res, WithError(q.processing[res], LEASE_EXPIRED), false, now, k);
    } else {
      var cs := EntryCommands(q, res, now);
      Exec1(q, cs[0]);
      assert cs[..0] == [] && cs[..1] == cs;
    }
  }

  /** And so does a recovery. */
  lemma {:induction false} RecoverLeased(q: Queue, expired: seq<Reservation>, now: int, k: nat)
    requires Deliveries(q) && Leased(q) && k <= |RecoverCommands(q, expired, now)|
    ensures Leased(Exec(q, RecoverCommands(q, expired, now)[..k]))
    decreases |expired|
  {
    var cs := RecoverCommands(q, expired, now);
    if expired == [] {
      assert cs[..k] == [];
    } else {
      var front, res := expired[..|expired| - 1], expired[|expired| - 1];
      var done := RecoverCommands(q, front, now);
      if k <= |done| {
        assert cs[..k] == done[..k];
        RecoverLeased(q, front, now, k);
      } else {
        assert done[..|done|] == done;
        RecoverLeased(q, front, now, |done|);
        RecoverWhole(q, front, now);
        NextEntryLeased(q, done, RecoverAll(q, front, now), res, now, cs, k);
      }
    }
  }

  lemma NextEntryLeased(q: Queue, done: seq<Command>, q': Queue, res: Reservation, now: int, cs: seq<Command>, k: nat)
    requires Exec(q, done) == q' && Deliveries(q') && Leased(q')
    requires cs == done + EntryCommands(q', res, now) && |done| <= k <= |cs|
    ensures Leased(Exec(q, cs[..k]))
  {
    var entry := EntryCommands(q', res, now);
    EntryLeased(q', res, now, k - |done|);
    assert cs[..k] == done + entry[..k - |done|];
    ExecConcat(q, done, entry[..k - |done|]);
  }

  /** What a reserve script leaves that stops after its first command, its second, or none of its
      three: the record is in the ready list until the last, and after the first it is also held,
      without a lease. */
  lemma ReserveStops(q: Queue, res: Reservation, now: int, lease: int, k: nat)
    requires q.ready != [] && ValidRecord(q.ready[0]) && 1 <= k <= 3
    ensures 3 == |ReserveCommands(q, res, now, lease)|
    ensures
      Exec(q, ReserveCommands(q, res, now, lease)[..k])
      == q.(processing := q.processing[res := Delivered(q.ready[0])],
            leases := if k == 1 then q.leases else q.leases[res := now + lease],
            ready := if k == 3 then q.ready[1..] else q.ready)
  {
    ExecPrefix(q, SetProcessing(res, Delivered(q.ready[0])), SetLease(res, now + lease), PopReady, k);
  }

  /** What a cut settlement leaves behind is harmless: a lease without an entry answers every
      request with 0, and exactly the recoveries that reach it forget it; they touch nothing else
      for it.  A recovery of fewer than a hundred leases reaches every one that has run out. */
  lemma OrphanLeaseCleaned(q: Queue, res: Reservation, expired: seq<Reservation>, now: int, request: Request,
                           lease: int)
    requires Deliveries(q) && res in q.leases && res !in q.processing
    requires IsRange(q.leases, now, BATCH, expired)
    ensures Finish(q, res, request, now, lease) == q
    ensures res !in RecoverAll(q, expired, now).leases <==> res in expired
    ensures q.leases[res] <= now && |expired| < BATCH ==> res in expired
    ensures RecoverOne(q, res, now) == q.(leases := q.leases - {res})
  {
    RecoverEnds(q, expired, now);
  }

  // ---- runs in which every script may stop -----------------------------------------------------

  /** History: reservation ids handed to scripts, jobs enqueued, jobs whose ack deleted their
      delivery. */
  datatype State = State(q: Queue, now: int, issued: set<Reservation>, known: set<Text>, acked: set<Text>)

  /** A script that executes its first k commands. */
  datatype Cut = Cut(step: Q.Step, k: nat)

  function Commands(s: State, step: Q.Step): seq<Command>
    requires Deliveries(s.q)
  {
    match step
    case EnqueueStep(t) => [PushReady(t)]
    case ReserveStep(res, lease) => ReserveCommands(s.q, res, s.now, lease)
    case PromoteStep(due) => PromoteCommands(due)
    case RecoverStep(expired) => RecoverCommands(s.q, expired, s.now)
    case FinishStep(res, request, lease) => FinishCommands(s.q, res, request, s.now, lease)
    case ReplayStep => ReplayCommands(s.q)
    case TickStep(_) => []
  }

  /** NewWithLease makes every lease last: never less than three milliseconds. */
  predicate Lasting(step: Q.Step) {
    match step
    case ReserveStep(_, lease) => 0 < lease
    case FinishStep(_, _, lease) => 0 < lease
    case _ => true
  }

  ghost predicate Enabled(s: State, c: Cut)
    requires Deliveries(s.q)
  {
    && Q.Enabled(Q.State(s.q, s.now, s.issued), c.step) && Lasting(c.step)
    && c.k <= |Commands(s, c.step)|
  }

  /** The deletion that acknowledges a job is the first command of its script. */
  predicate Acks(s: State, c: Cut) {
    c.step.FinishStep? && c.step.request.Ack? && Owned(s.q, c.step.res, s.now) && 1 <= c.k
  }

  ghost function Apply(s: State, c: Cut): State
    requires Deliveries(s.q) && Enabled(s, c)
  {
    State(Exec(s.q, Commands(s, c.step)[..c.k]),
          if c.step.TickStep? then c.step.now else s.now,
          if c.step.ReserveStep? then s.issued + {c.step.res} else s.issued,
          if c.step.EnqueueStep? && c.k == 1 then s.known + {RawJob(c.step.t)} else s.known,
          if Acks(s, c) then s.acked + {RawJob(s.q.processing[c.step.res])} else s.acked)
  }

  predicate WellKept(q: Queue, issued: set<Reservation>) {
    Deliveries(q) && q.processing.Keys <= issued && q.leases.Keys <= issued
  }

  ghost predicate NothingLost(s: State) {
    forall job :: job in s.known && job !in s.acked ==> Safe(s.q, job)
  }

  ghost predicate Inv(s: State) {
    WellKept(s.q, s.issued) && NothingLost(s)
  }

  /** Nobody stopped: the commands are the script. */
  lemma WholeScript(s: State, step: Q.Step)
    requires Deliveries(s.q)
    ensures Exec(s.q, Commands(s, step)) == Q.Apply(Q.State(s.q, s.now, s.issued), step).q
  {
    match step
    case EnqueueStep(t) => Exec1(s.q, PushReady(t));
    case ReserveStep(res, lease) => ReserveWhole(s.q, res, s.now, lease);
    case PromoteStep(due) => PromoteWhole(s.q, due);
    case RecoverStep(expired) => RecoverWhole(s.q, expired, s.now);
    case FinishStep(res, request, lease) => FinishWhole(s.q, res, request, s.now, lease);
    case ReplayStep => ReplayWhole(s.q);
    case TickStep(_) =>
  }

  /** And a script that does not stop is a step of QueueRuns. */
  lemma WholeCut(s: State, c: Cut)
    requires Deliveries(s.q) && Enabled(s, c) && c.k == |Commands(s, c.step)|
    ensures
      var s', t := Apply(s, c), Q.Apply(Q.State(s.q, s.now, s.issued), c.step);
      s'.q == t.q && s'.now == t.now && s'.issued == t.issued
  {
    WholeScript(s, c.step);
    assert Commands(s, c.step)[..c.k] == Commands(s, c.step);
  }

  // ---- what single commands write ---------------------------------------------------------------

  /** The command writes only readable deliveries, only under known reservations, and only
      leases that end after d. */
  predicate Mild(c: Command, issued: set<Reservation>, d: int) {
    match c
    case SetProcessing(r, t) => r in issued && IsDelivery(t)
    case SetLease(r, deadline) => r in issued && d < deadline
    case _ => true
  }

  predicate AllMild(cs: seq<Command>, issued: set<Reservation>, d: int) {
    forall i :: 0 <= i < |cs| ==> Mild(cs[i], issued, d)
  }

  lemma {:induction false} PromoteIsMild(due: seq<Text>, issued: set<Reservation>, d: int)
    ensures AllMild(PromoteCommands(due), issued, d)
    decreases |due|
  {
    if due != [] {
      PromoteIsMild(due[..|due| - 1], issued, d);
    }
  }

  /** Recovery neither reserves nor leases anything. */
  lemma {:induction false} RecoverIsMild(q: Queue, expired: seq<Reservation>, now: int, issued: set<Reservation>,
                                         d: int)
    requires Deliveries(q)
    ensures AllMild(RecoverCommands(q, expired, now), issued, d)
    decreases |expired|
  {
    if expired != [] {
      RecoverIsMild(q, expired[..|expired| - 1], now, issued, d);
    }
  }

  lemma CommandsAreMild(s: State, c: Cut, d: int)
    requires WellKept(s.q, s.issued) && Enabled(s, c) && d <= s.now
    ensures AllMild(Commands(s, c.step), Apply(s, c).issued, d)
  {
    match c.step
    case PromoteStep(due) => PromoteIsMild(due, s.issued, d);
    case RecoverStep(expired) => RecoverIsMild(s.q, expired, s.now, s.issued, d);
    case _ =>
  }

  lemma OneMildKeeps(q: Queue, c: Command, issued: set<Reservation>, d: int)
    requires WellKept(q, issued) && Mild(c, issued, d)
    ensures WellKept(Do(q, c), issued)
  {
  }

  lemma {:induction false} MildKeeps(q: Queue, cs: seq<Command>, issued: set<Reservation>, d: int)
    requires WellKept(q, issued) && AllMild(cs, issued, d)
    ensures WellKept(Exec(q, cs), issued)
    decreases |cs|
  {
    if cs != [] {
      MildKeeps(q, cs[..|cs| - 1], issued, d);
      OneMildKeeps(Exec(q, cs[..|cs| - 1]), cs[|cs| - 1], issued, d);
    }
  }

  // ---- no job is lost ---------------------------------------------------------------------------

  lemma CutKeepsSafe(s: State, c: Cut, job: Text)
    requires WellKept(s.q, s.issued) && Enabled(s, c) && Safe(s.q, job)
    requires Acks(s, c) ==> RawJob(s.q.processing[c.step.res]) != job
    ensures Safe(Apply(s, c).q, job)
  {
    match c.step
    case EnqueueStep(t) => EnqueueCut(s.q, t, job, c.k);
    case ReserveStep(res, lease) => ReserveCut(s.q, res, s.now, lease, job, c.k);
    case PromoteStep(due) => PromoteCut(s.q, due, job, c.k);
    case RecoverStep(expired) => RecoverCut(s.q, expired, s.now, job, c.k);
    case FinishStep(res, request, lease) =>
      if request.Ack? && c.k == 0 {
        assert FinishCommands(s.q, res, request, s.now, lease)[..0] == [];
      } else if Owned(s.q, res, s.now) {
        FinishCut(s.q, res, request, s.now, lease, job, c.k);
      }
    case ReplayStep => ReplayCut(s.q, job, c.k);
    case TickStep(_) =>
  }

  lemma EnqueueCut(q: Queue, t: Text, job: Text, k: nat)
    requires k <= 1 && (Safe(q, job) || (k == 1 && RawJob(t) == job))
    ensures Safe(Exec(q, [PushReady(t)][..k]), job)
  {
    Exec1(q, PushReady(t));
    assert [PushReady(t)][..0] == [] && [PushReady(t)][..1] == [PushReady(t)];
    if Safe(q, job) {
      AddsKeepsSafe(q, PushReady(t), job);
    } else {
      assert Holds(Do(q, PushReady(t)), AtReady(|q.ready|), job);
    }
  }

  lemma CutKeepsInv(s: State, c: Cut)
    requires Inv(s) && Enabled(s, c)
    ensures Inv(Apply(s, c))
  {
    var s' := Apply(s, c);
    CommandsAreMild(s, c, s.now);
    MildKeeps(s.q, Commands(s, c.step)[..c.k], s'.issued, s.now);
    forall job | job in s'.known && job !in s'.acked ensures Safe(s'.q, job) {
      if job in s.known {
        CutKeepsSafe(s, c, job);
      } else {
        EnqueueCut(s.q, c.step.t, job, c.k);
      }
    }
  }

  /** A job becomes acknowledged only when its owner's ack deletes its delivery. */
  lemma OnlyAckAcknowledges(s: State, c: Cut, job: Text)
    requires Inv(s) && Enabled(s, c) && job !in s.acked && job in Apply(s, c).acked
    ensures c.step.FinishStep? && c.step.request == Ack && 1 <= c.k && Owned(s.q, c.step.res, s.now)
    ensures RawJob(s.q.processing[c.step.res]) == job && c.step.res !in Apply(s, c).q.processing
  {
    var res := c.step.res;
    Exec1(s.q, DelProcessing(res));
    Exec2(s.q, DelProcessing(res), DelLease(res));
    var cs := Commands(s, c.step);
    assert cs[..1] == [cs[0]] && cs[..2] == [cs[0], cs[1]];
  }

  ghost function Next(s: State, c: Cut): (s': State)
    requires Inv(s) && Enabled(s, c)
    ensures Inv(s')
  {
    CutKeepsInv(s, c);
    Apply(s, c)
  }

  ghost predicate Legal(s: State, cuts: seq<Cut>)
    requires Inv(s)
    decreases |cuts|
  {
    cuts == [] || (Enabled(s, cuts[0]) && Legal(Next(s, cuts[0]), cuts[1..]))
  }

  ghost function Run(s: State, cuts: seq<Cut>): State
    requires Inv(s) && Legal(s, cuts)
    decreases |cuts|
  {
    if cuts == [] then s else Run(Next(s, cuts[0]), cuts[1..])
  }

  lemma {:induction false} RunKeepsInv(s: State, cuts: seq<Cut>)
    requires Inv(s) && Legal(s, cuts)
    ensures Inv(Run(s, cuts))
    decreases |cuts|
  {
    if cuts != [] {
      RunKeepsInv(Next(s, cuts[0]), cuts[1..]);
    }
  }

  /** Over every run in which any script may stop anywhere, a job that was enqueued and not
      acknowledged is in a list, delayed, or being processed under a lease. */
  lemma CutRunsLoseNothing(start: State, cuts: seq<Cut>, job: Text)
    requires Inv(start) && Legal(start, cuts)
    ensures
      var s := Run(start, cuts);
      job in s.known && job !in s.acked ==> Safe(s.q, job)
  {
    RunKeepsInv(start, cuts);
  }

  /** The empty queue, where a run may begin. */
  function Start(): (s: State)
    ensures Inv(s)
  {
    State(EMPTY_QUEUE, 0, {}, {}, {})
  }

  lemma {:induction false} KnownStays(s: State, cuts: seq<Cut>, job: Text)
    requires Inv(s) && Legal(s, cuts) && job in s.known
    ensures job in Run(s, cuts).known
    decreases |cuts|
  {
    if cuts != [] {
      KnownStays(Next(s, cuts[0]), cuts[1..], job);
    }
  }

  lemma {:induction false} EnqueuedIsKnown(s: State, cuts: seq<Cut>, i: nat, t: Text)
    requires Inv(s) && Legal(s, cuts) && i < |cuts| && cuts[i] == Cut(Q.EnqueueStep(t), 1)
    ensures RawJob(t) in Run(s, cuts).known
    decreases |cuts|
  {
    if i == 0 {
      KnownStays(Next(s, cuts[0]), cuts[1..], RawJob(t));
    } else {
      EnqueuedIsKnown(Next(s, cuts[0]), cuts[1..], i - 1, t);
    }
  }

  /** From the empty queue on: whatever was enqueued at any point of the run is acknowledged or
      still there at its end. */
  lemma EnqueuedIsAckedOrSafe(cuts: seq<Cut>, i: nat, t: Text)
    requires Legal(Start(), cuts) && i < |cuts| && cuts[i] == Cut(Q.EnqueueStep(t), 1)
    ensures
      var s := Run(Start(), cuts);
      RawJob(t) in s.acked || Safe(s.q, RawJob(t))
  {
    EnqueuedIsKnown(Start(), cuts, i, t);
    CutRunsLoseNothing(Start(), cuts, RawJob(t));
  }

  /** Scripts may begin to stop half way at any moment of the running system's life. */
  lemma SystemIsSafe(s: JobSystem.System)
    requires JobSystem.Inv(s)
    ensures Inv(State(s.core.q, s.core.now, s.core.issued, s.known, s.acked.Keys))
  {
    forall job | job in s.known && job !in s.acked.Keys ensures Safe(s.core.q, job) {
      JobSystem.WhereIsTheJob(s, job);
      var p :| Holds(s.core.q, p, job);
      assert p.AtProcessing? ==> p.r in s.core.q.leases;
    }
  }

  // ---- orphans are cleaned ----------------------------------------------------------------------

  /** Leases that a recovery may take before, or together with, one that ends at d. */
  function Ahead(q: Queue, d: int): set<Reservation> {
    set r | r in q.leases && q.leases[r] <= d
  }

  /** A lease without a delivery, which has run out. */
  predicate Orphan(s: State, res: Reservation, d: int) {
    && res in s.issued && res in s.q.leases && res !in s.q.processing
    && s.q.leases[res] == d && d <= s.now
  }

  predicate WholeRecovery(s: State, c: Cut)
    requires Deliveries(s.q)
  {
    c.step.RecoverStep? && c.k == |Commands(s, c.step)|
  }

  ghost function WholeRecoveries(s: State, cuts: seq<Cut>): nat
    requires Inv(s) && Legal(s, cuts)
    decreases |cuts|
  {
    if cuts == [] then 0
    else (if WholeRecovery(s, cuts[0]) then 1 else 0) + WholeRecoveries(Next(s, cuts[0]), cuts[1..])
  }

  lemma RecoveriesCount(s: State, c: Cut, rest: seq<Cut>)
    requires Inv(s) && Enabled(s, c) && Legal(Next(s, c), rest)
    ensures Legal(s, [c] + rest)
    ensures WholeRecoveries(s, [c] + rest)
         == WholeRecoveries(Next(s, c), rest)
            + if c.step.RecoverStep? && c.k == |RecoverCommands(s.q, c.step.expired, s.now)| then 1 else 0
  {
    assert ([c] + rest)[1..] == rest;
  }

  lemma OneMildShrinksAhead(q: Queue, c: Command, issued: set<Reservation>, d: int)
    requires Mild(c, issued, d)
    ensures Ahead(Do(q, c), d) <= Ahead(q, d)
  {
  }

  /** No command adds a lease in front of d. */
  lemma {:induction false} MildShrinksAhead(q: Queue, cs: seq<Command>, issued: set<Reservation>, d: int)
    requires AllMild(cs, issued, d)
    ensures Ahead(Exec(q, cs), d) <= Ahead(q, d)
    decreases |cs|
  {
    if cs != [] {
      MildShrinksAhead(q, cs[..|cs| - 1], issued, d);
      OneMildShrinksAhead(Exec(q, cs[..|cs| - 1]), cs[|cs| - 1], issued, d);
    }
  }

  /** Commands that leave a reservation's delivery alone, and its lease but for removing it. */
  predicate SparesIt(c: Command, res: Reservation) {
    match c
    case SetProcessing(r, _) => r != res
    case DelProcessing(r) => r != res
    case SetLease(r, _) => r != res
    case _ => true
  }

  predicate AllSpare(cs: seq<Command>, res: Reservation) {
    forall i :: 0 <= i < |cs| ==> SparesIt(cs[i], res)
  }

  /** Between the two queues the reservation lost its lease, or kept it as it was. */
  predicate SameOrGone(q: Queue, q': Queue, res: Reservation) {
    res !in q'.processing && (res in q'.leases ==> res in q.leases && q'.leases[res] == q.leases[res])
  }

  lemma OneSparedOrGone(q: Queue, c: Command, res: Reservation)
    requires SparesIt(c, res) && res !in q.processing
    ensures SameOrGone(q, Do(q, c), res)
  {
  }

  lemma {:induction false} SparedOrGone(q: Queue, cs: seq<Command>, res: Reservation)
    requires AllSpare(cs, res) && res !in q.processing
    ensures SameOrGone(q, Exec(q, cs), res)
    decreases |cs|
  {
    if cs != [] {
      SparedOrGone(q, cs[..|cs| - 1], res);
      OneSparedOrGone(Exec(q, cs[..|cs| - 1]), cs[|cs| - 1], res);
    }
  }

  lemma {:induction false} PromoteSpares(due: seq<Text>, res: Reservation)
    ensures AllSpare(PromoteCommands(due), res)
    decreases |due|
  {
    if due != [] {
      PromoteSpares(due[..|due| - 1], res);
    }
  }

  lemma {:induction false} RecoverSpares(q: Queue, expired: seq<Reservation>, now: int, res: Reservation)
    requires Deliveries(q) && (res !in expired || res !in q.processing)
    ensures AllSpare(RecoverCommands(q, expired, now), res)
    decreases |expired|
  {
    if expired != [] {
      var front := expired[..|expired| - 1];
      assert expired == front + [expired[|expired| - 1]];
      RecoverSpares(q, front, now, res);
      RecoverEnds(q, front, now);
    }
  }

  lemma CommandsSpare(s: State, c: Cut, res: Reservation)
    requires WellKept(s.q, s.issued) && Enabled(s, c) && res in s.issued
    requires res !in s.q.processing || res !in s.q.leases
    ensures AllSpare(Commands(s, c.step), res)
  {
    match c.step
    case PromoteStep(due) => PromoteSpares(due, res);
    case RecoverStep(expired) => RecoverSpares(s.q, expired, s.now, res);
    case _ =>
  }

  /** A recovery that does not reach the orphan is a full batch of leases ahead of it. */
  lemma PassedOver(q: Queue, expired: seq<Reservation>, now: int, res: Reservation, d: int)
    requires Deliveries(q) && res in q.leases && q.leases[res] == d && d <= now
    requires IsRange(q.leases, now, BATCH, expired) && res !in expired
    ensures |Ahead(RecoverAll(q, expired, now), d)| + BATCH == |Ahead(q, d)|
  {
    RecoverEnds(q, expired, now);
    DistinctMembers(expired);
    var gone := Members(expired);
    assert gone <= Ahead(q, d);
    assert Ahead(RecoverAll(q, expired, now), d) == Ahead(q, d) - gone;
  }

  lemma OrphanStep(s: State, c: Cut, res: Reservation, d: int)
    requires Inv(s) && Enabled(s, c) && Orphan(s, res, d)
    ensures Orphan(Apply(s, c), res, d) || res !in Apply(s, c).q.leases
    ensures Ahead(Apply(s, c).q, d) <= Ahead(s.q, d)
  {
    var cs := Commands(s, c.step)[..c.k];
    CommandsSpare(s, c, res);
    SparedOrGone(s.q, cs, res);
    CommandsAreMild(s, c, d);
    MildShrinksAhead(s.q, cs, Apply(s, c).issued, d);
  }

  lemma RecoveryStep(s: State, c: Cut, res: Reservation, d: int)
    requires Inv(s) && Enabled(s, c) && Orphan(s, res, d) && WholeRecovery(s, c)
    requires res in Apply(s, c).q.leases
    ensures |Ahead(Apply(s, c).q, d)| + BATCH == |Ahead(s.q, d)|
  {
    assert Commands(s, c.step)[..c.k] == Commands(s, c.step);
    WholeScript(s, c.step);
    RecoverEnds(s.q, c.step.expired, s.now);
    PassedOver(s.q, c.step.expired, s.now, res, d);
  }

  /** The reservation was used, and nothing is left of it. */
  predicate Forgotten(s: State, res: Reservation) {
    res in s.issued && res !in s.q.leases && res !in s.q.processing
  }

  lemma {:induction false} ForgottenForever(s: State, cuts: seq<Cut>, res: Reservation)
    requires Inv(s) && Legal(s, cuts) && Forgotten(s, res)
    ensures Forgotten(Run(s, cuts), res)
    decreases |cuts|
  {
    if cuts != [] {
      CommandsSpare(s, cuts[0], res);
      SparedOrGone(s.q, Commands(s, cuts[0].step)[..cuts[0].k], res);
      ForgottenForever(Next(s, cuts[0]), cuts[1..], res);
    }
  }

  lemma SmallerSet<K>(a: set<K>, b: set<K>)
    requires a <= b
    ensures |a| <= |b|
  {
    if a != b {
      var x :| x in b && x !in a;
      assert a <= b - {x};
      SmallerSet(a, b - {x});
    }
  }

  /** An orphaned lease that has run out is gone for good after as many whole recoveries as
      hundreds of leases run out no later than it, whatever else happens and wherever other
      scripts stop. */
  lemma {:induction false} OrphansAreCleaned(s: State, cuts: seq<Cut>, res: Reservation, d: int)
    requires Inv(s) && Legal(s, cuts) && Orphan(s, res, d)
    ensures |Ahead(s.q, d)| <= BATCH * WholeRecoveries(s, cuts) ==> Forgotten(Run(s, cuts), res)
    decreases |cuts|
  {
    if cuts == [] {
      assert res in Ahead(s.q, d);
    } else {
      var s' := Next(s, cuts[0]);
      OrphanStep(s, cuts[0], res, d);
      SmallerSet(Ahead(s'.q, d), Ahead(s.q, d));
      if res !in s'.q.leases {
        CommandsSpare(s, cuts[0], res);
        SparedOrGone(s.q, Commands(s, cuts[0].step)[..cuts[0].k], res);
        ForgottenForever(s', cuts[1..], res);
      } else {
        if WholeRecovery(s, cuts[0]) {
          RecoveryStep(s, cuts[0], res, d);
        }
        OrphansAreCleaned(s', cuts[1..], res, d);
      }
    }
  }

  // ---- what a stopped reserve leaves behind -----------------------------------------------------

  /** A delivery without a lease. */
  predicate Unleased(q: Queue, res: Reservation) {
    res in q.processing && res !in q.leases
  }

  lemma {:induction false} SparedStays(q: Queue, cs: seq<Command>, res: Reservation)
    requires Unleased(q, res) && AllSpare(cs, res)
    ensures Unleased(Exec(q, cs), res) && Exec(q, cs).processing[res] == q.processing[res]
    decreases |cs|
  {
    if cs != [] {
      SparedStays(q, cs[..|cs| - 1], res);
    }
  }

  /** Nobody settles, recovers or removes it, ever: a reserve script that stops after its first
      command leaves an entry in the processing hash that stays for good. */
  lemma {:induction false} UnleasedForever(s: State, cuts: seq<Cut>, res: Reservation)
    requires Inv(s) && Legal(s, cuts) && Unleased(s.q, res) && res in s.issued
    ensures Unleased(Run(s, cuts).q, res) && Run(s, cuts).q.processing[res] == s.q.processing[res]
    decreases |cuts|
  {
    if cuts != [] {
      CommandsSpare(s, cuts[0], res);
      SparedStays(s.q, Commands(s, cuts[0].step)[..cuts[0].k], res);
      UnleasedForever(Next(s, cuts[0]), cuts[1..], res);
    }
  }
}
