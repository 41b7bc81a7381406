/** What the scripts of the job queue keep.

    Every law about counts (how many copies of a job there are, how many deliveries it has
    left, how much work the queue still holds) is the same weighted sum over the records of
    the queue, so each script is analysed once, for an arbitrary weight. */
module QueueLaws {
  import opened JobRecords
  import opened JobQueue
  import opened QueueBatches

  datatype Kind = InReady | InProcessing | InDelayed | InDead

  type Weight = (Kind, Text) -> nat

  function SumSeq(s: seq<Text>, kind: Kind, w: Weight): nat {
    if s == [] then 0 else w(kind, s[0]) + SumSeq(s[1..], kind, w)
  }

  ghost function SumHash(h: map<Reservation, Text>, w: Weight): nat
    decreases h.Keys
  {
    if h == map[] then 0
    else var r :| r in h; w(InProcessing, h[r]) + SumHash(h - {r}, w)
  }

  ghost function SumSet(z: set<Text>, w: Weight): nat {
    if z == {} then 0 else var t :| t in z; w(InDelayed, t) + SumSet(z - {t}, w)
  }

  ghost function Sum(q: Queue, w: Weight): nat {
    SumSeq(q.ready, InReady, w) + SumHash(q.processing, w) + SumSet(q.delayed.Keys, w)
    + SumSeq(q.dead, InDead, w)
  }

  lemma {:induction false} SumSeqPush(s: seq<Text>, t: Text, kind: Kind, w: Weight)
    ensures SumSeq(s + [t], kind, w) == SumSeq(s, kind, w) + w(kind, t)
  {
    if s == [] {
      assert ([t])[1..] == [];
    } else {
      assert (s + [t])[1..] == s[1..] + [t];
      SumSeqPush(s[1..], t, kind, w);
    }
  }

  lemma {:induction false} SumHashDrop(h: map<Reservation, Text>, r: Reservation, w: Weight)
    requires r in h
    ensures SumHash(h, w) == w(InProcessing, h[r]) + SumHash(h - {r}, w)
    decreases h.Keys
  {
    var first :| first in h && SumHash(h, w) == w(InProcessing, h[first]) + SumHash(h - {first}, w);
    if first != r {
      SumHashDrop(h - {first}, r, w);
      SumHashDrop(h - {r}, first, w);
      assert h - {first} - {r} == h - {r} - {first};
    }
  }

  lemma {:induction false} SumSetDrop(z: set<Text>, t: Text, w: Weight)
    requires t in z
    ensures SumSet(z, w) == w(InDelayed, t) + SumSet(z - {t}, w)
  {
    var first :| first in z && SumSet(z, w) == w(InDelayed, first) + SumSet(z - {first}, w);
    if first != t {
      SumSetDrop(z - {first}, t, w);
      SumSetDrop(z - {t}, first, w);
      assert z - {first} - {t} == z - {t} - {first};
    }
  }

  lemma SumHashAdd(h: map<Reservation, Text>, r: Reservation, t: Text, w: Weight)
    requires r !in h
    ensures SumHash(h[r := t], w) == SumHash(h, w) + w(InProcessing, t)
  {
    SumHashDrop(h[r := t], r, w);
    assert h[r := t] - {r} == h;
  }

  lemma SumSetAdd(z: map<Text, int>, t: Text, score: int, w: Weight)
    ensures SumSet(z[t := score].Keys, w) == SumSet(z.Keys, w) + if t in z then 0 else w(InDelayed, t)
  {
    if t in z {
      assert z[t := score].Keys == z.Keys;
    } else {
      SumSetDrop(z[t := score].Keys, t, w);
      assert z[t := score].Keys - {t} == z.Keys;
    }
  }

  // ---- the effect of each script on an arbitrary weight ------------------------------

  lemma EnqueueSum(q: Queue, t: Text, w: Weight)
    ensures Sum(Enqueue(q, t), w) == Sum(q, w) + w(InReady, t)
  {
    SumSeqPush(q.ready, t, InReady, w);
  }

  lemma ReserveSum(q: Queue, res: Reservation, now: int, lease: int, w: Weight)
    requires res !in q.processing && q.ready != []
    ensures
      var t := q.ready[0];
      Sum(Reserve(q, res, now, lease), w) + w(InReady, t)
        == Sum(q, w) + if ValidRecord(t) then w(InProcessing, Delivered(t)) else w(InDead, t)
  {
    var t := q.ready[0];
    if ValidRecord(t) {
      SumHashAdd(q.processing, res, Delivered(t), w);
    } else {
      SumSeqPush(q.dead, t, InDead, w);
    }
  }

  lemma PromoteSum(q: Queue, t: Text, w: Weight)
    requires t in q.delayed
    ensures Sum(PromoteOne(q, t), w) + w(InDelayed, t) == Sum(q, w) + w(InReady, t)
  {
    SumSeqPush(q.ready, t, InReady, w);
    SumSetDrop(q.delayed.Keys, t, w);
    assert (q.delayed - {t}).Keys == q.delayed.Keys - {t};
  }

  /** Where a failed delivery goes. */
  function SettledKind(t: Text, dead: bool): Kind {
    if dead || MAX_ATTEMPTS <= Attempts(t) then InDead else InDelayed
  }

  /** A delayed record is a set member: an equal record already there swallows the new one. */
  predicate Collapses(q: Queue, t: Text, dead: bool) {
    SettledKind(t, dead) == InDelayed && t in q.delayed
  }

  lemma SettleSum(q: Queue, t: Text, dead: bool, now: int, w: Weight)
    requires IsDelivery(t)
    ensures Sum(Settle(q, t, dead, now), w)
         == Sum(q, w) + if Collapses(q, t, dead) then 0 else w(SettledKind(t, dead), t)
  {
    if SettledKind(t, dead) == InDead {
      SumSeqPush(q.dead, t, InDead, w);
    } else {
      SumSetAdd(q.delayed, t, now + Backoff(Attempts(t)), w);
    }
  }

  lemma DropSum(q: Queue, res: Reservation, w: Weight)
    requires res in q.processing
    ensures Sum(Drop(q, res), w) + w(InProcessing, q.processing[res]) == Sum(q, w)
  {
    SumHashDrop(q.processing, res, w);
  }

  lemma RecoverSum(q: Queue, res: Reservation, now: int, w: Weight)
    requires Deliveries(q) && res in q.processing
    ensures
      var t := WithError(q.processing[res], LEASE_EXPIRED);
      Sum(RecoverOne(q, res, now), w) + w(InProcessing, q.processing[res])
        == Sum(q, w) + if Collapses(q, t, false) then 0 else w(SettledKind(t, false), t)
  {
    var t := WithError(q.processing[res], LEASE_EXPIRED);
    SettleSum(q, t, false, now, w);
    DropSum(Settle(q, t, false, now), res, w);
  }

  lemma FinishSum(q: Queue, res: Reservation, request: Request, now: int, lease: int, w: Weight)
    requires Deliveries(q) && Owned(q, res, now) && (request.Retry? || request.Dead?)
    ensures
      var t := WithError(q.processing[res], request.cause);
      Sum(Finish(q, res, request, now, lease), w) + w(InProcessing, q.processing[res])
        == Sum(q, w) + if Collapses(q, t, request.Dead?) then 0 else w(SettledKind(t, request.Dead?), t)
  {
    var t := WithError(q.processing[res], request.cause);
    SettleSum(q, t, request.Dead?, now, w);
    DropSum(Settle(q, t, request.Dead?, now), res, w);
  }

  lemma ReplaySum(q: Queue, w: Weight)
    requires q.dead != [] && ValidJob(RawJob(q.dead[0]))
    ensures Sum(Replay(q), w) + w(InDead, q.dead[0]) == Sum(q, w) + w(InReady, Replayed(q.dead[0]))
  {
    SumSeqPush(q.ready, Replayed(q.dead[0]), InReady, w);
  }

  // ---- copies of a job ---------------------------------------------------------------

  function CopyWeight(job: Text): Weight {
    (kind, t) => if RawJob(t) == job then 1 else 0
  }

  /** How many records of the queue carry this job. */
  ghost function Copies(q: Queue, job: Text): nat {
    Sum(q, CopyWeight(job))
  }

  /** No job is in the queue twice. */
  ghost predicate NoDuplicates(q: Queue) {
    forall job :: Copies(q, job) <= 1
  }

  lemma EmptyHasNoCopies(job: Text)
    ensures Copies(EMPTY_QUEUE, job) == 0
  {
  }

  lemma EnqueueCopies(q: Queue, t: Text, job: Text)
    ensures Copies(Enqueue(q, t), job) == Copies(q, job) + if RawJob(t) == job then 1 else 0
  {
    EnqueueSum(q, t, CopyWeight(job));
  }

  lemma ReserveCopies(q: Queue, res: Reservation, now: int, lease: int, job: Text)
    requires res !in q.processing
    ensures Copies(Reserve(q, res, now, lease), job) == Copies(q, job)
  {
    if q.ready != [] {
      ReserveSum(q, res, now, lease, CopyWeight(job));
    }
  }

  lemma {:induction false} PromoteCopies(q: Queue, due: seq<Text>, job: Text)
    requires PicksOf(due, q.delayed)
    ensures Copies(PromoteAll(q, due), job) == Copies(q, job)
    decreases |due|
  {
    if due != [] {
      var front, t := due[..|due| - 1], due[|due| - 1];
      LastIsPicked(due, q.delayed);
      PromoteCopies(q, front, job);
      PromoteEnds(q, front);
      PromoteSum(PromoteAll(q, front), t, CopyWeight(job));
    }
  }

  lemma RecoverCopies(q: Queue, res: Reservation, now: int, job: Text)
    requires Deliveries(q) && NoDuplicates(q)
    ensures Copies(RecoverOne(q, res, now), job) == Copies(q, job)
  {
    if res in q.processing {
      var t := WithError(q.processing[res], LEASE_EXPIRED);
      NoCollapse(q, res, t, false);
      RecoverSum(q, res, now, CopyWeight(job));
    }
  }

  lemma FinishCopies(q: Queue, res: Reservation, request: Request, now: int, lease: int, job: Text)
    requires Deliveries(q) && NoDuplicates(q)
    ensures Copies(Finish(q, res, request, now, lease), job)
         == Copies(q, job) - if Owned(q, res, now) && request.Ack? && RawJob(q.processing[res]) == job then 1 else 0
  {
    if Owned(q, res, now) {
      match request
      case Renew =>
      case Ack => DropSum(q, res, CopyWeight(job));
      case _ =>
        NoCollapse(q, res, WithError(q.processing[res], request.cause), request.Dead?);
        FinishSum(q, res, request, now, lease, CopyWeight(job));
    }
  }

  lemma ReplayCopies(q: Queue, job: Text)
    ensures Copies(Replay(q), job) == Copies(q, job)
  {
    if q.dead != [] && ValidJob(RawJob(q.dead[0])) {
      ReplaySum(q, CopyWeight(job));
    }
  }

  /** A job being processed is not delayed as well, so its record cannot be swallowed. */
  lemma NoCollapse(q: Queue, res: Reservation, t: Text, dead: bool)
    requires NoDuplicates(q) && res in q.processing && RawJob(t) == RawJob(q.processing[res])
    ensures !Collapses(q, t, dead)
  {
    var w := CopyWeight(RawJob(t));
    assert Copies(q, RawJob(t)) <= 1;
    if t in q.delayed {
      SumHashDrop(q.processing, res, w);
      SumSetDrop(q.delayed.Keys, t, w);
    }
  }

  /** Exactly when a retry loses the job it puts back: the record it writes is already
      delayed.  This is why conservation needs job ids to be unique. */
  lemma RetryLosesIffCollapse(q: Queue, res: Reservation, cause: Text, now: int, lease: int)
    requires Deliveries(q) && Owned(q, res, now)
    ensures
      var job := RawJob(q.processing[res]);
      var t := WithError(q.processing[res], cause);
      Copies(Finish(q, res, Retry(cause), now, lease), job) < Copies(q, job) <==> Collapses(q, t, false)
  {
    FinishSum(q, res, Retry(cause), now, lease, CopyWeight(RawJob(q.processing[res])));
  }

  // ---- places --------------------------------------------------------------------------

  datatype Place = AtReady(i: nat) | AtProcessing(r: Reservation) | AtDelayed(t: Text) | AtDead(i: nat)

  predicate Holds(q: Queue, p: Place, job: Text) {
    match p
    case AtReady(i) => i < |q.ready| && RawJob(q.ready[i]) == job
    case AtProcessing(r) => r in q.processing && RawJob(q.processing[r]) == job
    case AtDelayed(t) => t in q.delayed && RawJob(t) == job
    case AtDead(i) => i < |q.dead| && RawJob(q.dead[i]) == job
  }

  lemma {:induction false} SumSeqAt(s: seq<Text>, i: nat, kind: Kind, w: Weight)
    requires i < |s|
    ensures SumSeq(s, kind, w) == w(kind, s[i]) + SumSeq(s[..i] + s[i + 1..], kind, w)
  {
    if i == 0 {
      assert s[..0] + s[1..] == s[1..];
    } else {
      SumSeqAt(s[1..], i - 1, kind, w);
      assert (s[..i] + s[i + 1..])[1..] == s[1..][..i - 1] + s[1..][i - 1 + 1..];
    }
  }

  lemma SumSeqTwo(s: seq<Text>, i: nat, k: nat, kind: Kind, w: Weight)
    requires i < k < |s|
    ensures SumSeq(s, kind, w) >= w(kind, s[i]) + w(kind, s[k])
  {
    SumSeqAt(s, k, kind, w);
    var rest := s[..k] + s[k + 1..];
    assert rest[i] == s[i];
    SumSeqAt(rest, i, kind, w);
  }

  /** The part of the sum that comes from the kind of place `p` is, and that part alone. */
  lemma PlaceCounts(q: Queue, p: Place, job: Text)
    requires Holds(q, p, job)
    ensures var w := CopyWeight(job);
            match p
            case AtReady(_) => SumSeq(q.ready, InReady, w) >= 1
            case AtProcessing(_) => SumHash(q.processing, w) >= 1
            case AtDelayed(_) => SumSet(q.delayed.Keys, w) >= 1
            case AtDead(_) => SumSeq(q.dead, InDead, w) >= 1
  {
    var w := CopyWeight(job);
    match p
    case AtReady(i) => SumSeqAt(q.ready, i, InReady, w);
    case AtProcessing(r) => SumHashDrop(q.processing, r, w);
    case AtDelayed(t) => SumSetDrop(q.delayed.Keys, t, w);
    case AtDead(i) => SumSeqAt(q.dead, i, InDead, w);
  }

  lemma {:induction false} SeqHolds(s: seq<Text>, kind: Kind, job: Text) returns (i: nat)
    requires SumSeq(s, kind, CopyWeight(job)) >= 1
    ensures i < |s| && RawJob(s[i]) == job
  {
    if RawJob(s[0]) == job {
      i := 0;
    } else {
      var k := SeqHolds(s[1..], kind, job);
      i := k + 1;
    }
  }

  lemma {:induction false} HashHolds(h: map<Reservation, Text>, job: Text) returns (r: Reservation)
    requires SumHash(h, CopyWeight(job)) >= 1
    ensures r in h && RawJob(h[r]) == job
    decreases h.Keys
  {
    r :| r in h;
    SumHashDrop(h, r, CopyWeight(job));
    if RawJob(h[r]) != job {
      r := HashHolds(h - {r}, job);
    }
  }

  lemma {:induction false} SetHolds(z: set<Text>, job: Text) returns (t: Text)
    requires SumSet(z, CopyWeight(job)) >= 1
    ensures t in z && RawJob(t) == job
  {
    t :| t in z;
    SumSetDrop(z, t, CopyWeight(job));
    if RawJob(t) != job {
      t := SetHolds(z - {t}, job);
    }
  }

  /** A counted job is somewhere. */
  lemma CountedIsHeld(q: Queue, job: Text) returns (p: Place)
    requires Copies(q, job) >= 1
    ensures Holds(q, p, job)
  {
    var w := CopyWeight(job);
    if SumSeq(q.ready, InReady, w) >= 1 {
      var i := SeqHolds(q.ready, InReady, job);
      p := AtReady(i);
    } else if SumHash(q.processing, w) >= 1 {
      var r := HashHolds(q.processing, job);
      p := AtProcessing(r);
    } else if SumSet(q.delayed.Keys, w) >= 1 {
      var t := SetHolds(q.delayed.Keys, job);
      p := AtDelayed(t);
    } else {
      var i := SeqHolds(q.dead, InDead, job);
      p := AtDead(i);
    }
  }

  /** A job counted at most once is in at most one place. */
  lemma HeldOnce(q: Queue, job: Text, p: Place, p': Place)
    requires Copies(q, job) <= 1 && Holds(q, p, job) && Holds(q, p', job)
    ensures p == p'
  {
    var w := CopyWeight(job);
    PlaceCounts(q, p, job);
    PlaceCounts(q, p', job);
    if p != p' {
      match p
      case AtReady(i) =>
        SumSeqTwo(q.ready, Min(i, p'.i), if i < p'.i then p'.i else i, InReady, w);
      case AtProcessing(r) =>
        SumHashDrop(q.processing, r, w);
        SumHashDrop(q.processing - {r}, p'.r, w);
      case AtDelayed(t) =>
        SumSetDrop(q.delayed.Keys, t, w);
        SumSetDrop(q.delayed.Keys - {t}, p'.t, w);
      case AtDead(i) =>
        SumSeqTwo(q.dead, Min(i, p'.i), if i < p'.i then p'.i else i, InDead, w);
    }
  }
}
