/** The Redis side of the job queue: one atomic step per Lua script, first as functions on a
    queue value, then as the scripts themselves, updating the five Redis keys in place. */
module JobQueue {
  import opened JobRecords

  /** Reservation ids are UUIDs; any type with equality would do. */
  type Reservation = nat

  /** The five keys: two lists, one hash, two sorted sets (member to score, milliseconds). */
  datatype Queue = Queue(
    ready: seq<Text>,
    processing: map<Reservation, Text>,
    leases: map<Reservation, int>,
    delayed: map<Text, int>,
    dead: seq<Text>)

  datatype Request = Ack | Renew | Retry(cause: Text) | Dead(cause: Text)

  datatype Reply = Empty | Invalid | Delivery(raw: Text)

  const BATCH := 100
  const EMPTY_QUEUE := Queue([], map[], map[], map[], [])

  /** Only the reserve script writes to the processing hash. */
  predicate Deliveries(q: Queue) {
    forall r :: r in q.processing ==> IsDelivery(q.processing[r])
  }

  /** What every script keeps: readable deliveries, each with exactly one lease. */
  predicate WellFormed(q: Queue) {
    Deliveries(q) && q.processing.Keys == q.leases.Keys
  }

  /** The reservation exists and its lease has not run out. */
  predicate Owned(q: Queue, res: Reservation, now: int) {
    res in q.processing && res in q.leases && now < q.leases[res]
  }

  function Enqueue(q: Queue, t: Text): Queue {
    q.(ready := q.ready + [t])
  }

  function Reserve(q: Queue, res: Reservation, now: int, lease: int): Queue {
    if q.ready == [] then q
    else if !ValidRecord(q.ready[0]) then q.(dead := q.dead + [q.ready[0]], ready := q.ready[1..])
    else q.(processing := q.processing[res := Delivered(q.ready[0])],
            leases := q.leases[res := now + lease],
            ready := q.ready[1..])
  }

  function ReserveReply(q: Queue): Reply {
    if q.ready == [] then Empty
    else if !ValidRecord(q.ready[0]) then Invalid
    else Delivery(Delivered(q.ready[0]))
  }

  function PromoteOne(q: Queue, t: Text): Queue {
    q.(ready := q.ready + [t], delayed := q.delayed - {t})
  }

  function PromoteAll(q: Queue, due: seq<Text>): Queue
    decreases |due|
  {
    if due == [] then q else PromoteOne(PromoteAll(q, due[..|due| - 1]), due[|due| - 1])
  }

  /** A failed or abandoned delivery: dead-letter it, or delay the next attempt. */
  function Settle(q: Queue, t: Text, dead: bool, now: int): Queue
    requires IsDelivery(t)
  {
    if dead || MAX_ATTEMPTS <= Attempts(t) then q.(dead := q.dead + [t])
    else q.(delayed := q.delayed[t := now + Backoff(Attempts(t))])
  }

  function Drop(q: Queue, res: Reservation): Queue {
    q.(processing := q.processing - {res}, leases := q.leases - {res})
  }

  const LEASE_EXPIRED := Broken("processing lease expired")

  function RecoverOne(q: Queue, res: Reservation, now: int): (q': Queue)
    requires Deliveries(q)
    ensures Deliveries(q')
  {
    if res in q.processing
    then Drop(Settle(q, WithError(q.processing[res], LEASE_EXPIRED), false, now), res)
    else q.(leases := q.leases - {res})
  }

  function RecoverAll(q: Queue, expired: seq<Reservation>, now: int): (q': Queue)
    requires Deliveries(q)
    ensures Deliveries(q')
    decreases |expired|
  {
    if expired == [] then q
    else RecoverOne(RecoverAll(q, expired[..|expired| - 1], now), expired[|expired| - 1], now)
  }

  lemma RecoverAllStep(q: Queue, expired: seq<Reservation>, i: nat, now: int)
    requires Deliveries(q) && i < |expired|
    ensures RecoverAll(q, expired[..i + 1], now)
         == RecoverOne(RecoverAll(q, expired[..i], now), expired[i], now)
  {
    assert expired[..i + 1][..i] == expired[..i];
  }

  function Cause(request: Request): Text
    requires request.Retry? || request.Dead?
  {
    request.cause
  }

  function Finish(q: Queue, res: Reservation, request: Request, now: int, lease: int): (q': Queue)
    requires Deliveries(q)
    ensures Deliveries(q')
  {
    if !Owned(q, res, now) then q
    else match request
      case Renew => q.(leases := q.leases[res := now + lease])
      case Ack => Drop(q, res)
      case Retry(cause) => Drop(Settle(q, WithError(q.processing[res], cause), false, now), res)
      case Dead(cause) => Drop(Settle(q, WithError(q.processing[res], cause), true, now), res)
  }

  function Replay(q: Queue): Queue {
    if q.dead == [] || !ValidJob(RawJob(q.dead[0])) then q
    else q.(ready := q.ready + [Replayed(q.dead[0])], dead := q.dead[1..])
  }

  /** What ZRANGEBYSCORE key -inf now LIMIT 0 limit may return: members that are due, each
      once, lowest scores first, all of them unless the limit cuts the answer short.  Members
      with equal scores come in any order, so nothing below depends on Redis's tie rule. */
  ghost predicate IsRange<K(!new)>(z: map<K, int>, now: int, limit: nat, out: seq<K>) {
    && |out| <= limit
    && (forall i :: 0 <= i < |out| ==> out[i] in z && z[out[i]] <= now)
    && (forall i, j :: 0 <= i < j < |out| ==> out[i] != out[j] && z[out[i]] <= z[out[j]])
    && (forall k, i :: k in z && k !in out && 0 <= i < |out| ==> z[out[i]] <= z[k])
    && (|out| < limit ==> forall k :: k in z && z[k] <= now ==> k in out)
  }

  lemma {:induction false} LeastScored<K>(z: map<K, int>, s: set<K>) returns (least: K)
    requires s != {} && s <= z.Keys
    ensures least in s && forall k :: k in s ==> z[least] <= z[k]
    decreases s
  {
    least :| least in s;
    if s != {least} {
      var other := LeastScored(z, s - {least});
      if z[other] < z[least] {
        least := other;
      }
    }
  }

  /** The sorted-set query itself. */
  method RangeByScore<K(==, !new)>(z: map<K, int>, now: int, limit: nat) returns (out: seq<K>)
    ensures IsRange(z, now, limit, out)
  {
    out := [];
    var due := set k | k in z && z[k] <= now;
    while due != {} && |out| < limit
      invariant |out| <= limit
      invariant forall k :: k in z && z[k] <= now <==> k in due || k in out
      invariant forall i :: 0 <= i < |out| ==> out[i] !in due && out[i] in z
      invariant forall i, j :: 0 <= i < j < |out| ==> out[i] != out[j] && z[out[i]] <= z[out[j]]
      invariant forall i, k :: 0 <= i < |out| && k in due ==> z[out[i]] <= z[k]
      decreases due
    {
      ghost var least := LeastScored(z, due);
      var k :| k in due && forall other :: other in due ==> z[k] <= z[other];
      out := out + [k];
      due := due - {k};
    }
    forall k, i | k in z && k !in out && 0 <= i < |out| ensures z[out[i]] <= z[k] {
      assert out[i] in out;
    }
  }

  function Members<K>(s: seq<K>): set<K> {
    set k | k in s
  }

  lemma {:induction false} DistinctMembers<K>(s: seq<K>)
    requires forall i, j :: 0 <= i < j < |s| ==> s[i] != s[j]
    ensures |Members(s)| == |s|
  {
    if s != [] {
      DistinctMembers(s[1..]);
      assert s == [s[0]] + s[1..];
      assert Members(s) == {s[0]} + Members(s[1..]);
    }
  }

  /** Such an answer has as many members as are due, or as the limit allows: the first to fall due,
      in that order. */
  lemma RangeCount<K(!new)>(z: map<K, int>, now: int, limit: nat, out: seq<K>)
    requires IsRange(z, now, limit, out)
    ensures forall i :: 0 <= i < |out| ==> out[i] in z && z[out[i]] <= now
    ensures forall i, j :: 0 <= i < j < |out| ==> z[out[i]] <= z[out[j]]
    ensures forall k, i :: k in z && k !in out && 0 <= i < |out| ==> z[out[i]] <= z[k]
    ensures
      var due := set k | k in z && z[k] <= now;
      |out| == if |due| <= limit then |due| else limit
  {
    var due := set k | k in z && z[k] <= now;
    DistinctMembers(out);
    assert Members(out) <= due;
    SubsetSize(Members(out), due);
    if |out| < limit {
      assert Members(out) == due;
    }
  }

  lemma {:induction false} SubsetSize<K>(a: set<K>, b: set<K>)
    requires a <= b
    ensures |a| <= |b| && (|a| == |b| ==> a == b)
  {
    if a != {} {
      var k :| k in a;
      SubsetSize(a - {k}, b - {k});
      assert a == (a - {k}) + {k} && b == (b - {k}) + {k};
    } else if |b| == 0 {
      assert b == {};
    }
  }

  /** How many members of a sorted set are due, up to a hundred. */
  function DueUpTo100<K>(z: map<K, int>, now: int): nat {
    var due := set k | k in z && z[k] <= now;
    if |due| < 100 then |due| else 100
  }

  /** The Redis keys of one queue, updated in place by the scripts. */
  class RedisQueue {
    var ready: seq<Text>
    var processing: map<Reservation, Text>
    var leases: map<Reservation, int>
    var delayed: map<Text, int>
    var dead: seq<Text>

    ghost function Contents(): Queue
      reads this
    {
      Queue(ready, processing, leases, delayed, dead)
    }

    ghost predicate Valid()
      reads this
    {
      Deliveries(Contents())
    }

    constructor ()
      ensures Valid() && Contents() == EMPTY_QUEUE
    {
      ready, processing, leases, delayed, dead := [], map[], map[], map[], [];
    }

    method EnqueueJob(t: Text)
      requires Valid()
      modifies this
      ensures Valid() && Contents() == Enqueue(old(Contents()), t)
    {
      ready := ready + [t];
    }

    method ReserveScript(res: Reservation, now: int, lease: int) returns (reply: Reply)
      requires Valid()
      modifies this
      ensures Valid() && Contents() == Reserve(old(Contents()), res, now, lease)
      ensures reply == ReserveReply(old(Contents()))
    {
      if ready == [] {
        return Empty;
      }
      var raw := ready[0];
      if !ValidRecord(raw) {
        dead := dead + [raw];
        ready := ready[1..];
        return Invalid;
      }
      raw := Delivered(raw);
      processing := processing[res := raw];
      leases := leases[res := now + lease];
      ready := ready[1..];
      reply := Delivery(raw);
    }

    /** The body of the promotion loop. */
    method PromoteEntry(t: Text)
      modifies this
      ensures Contents() == PromoteOne(old(Contents()), t)
      ensures processing == old(processing) && leases == old(leases)
    {
      ready := ready + [t];
      delayed := delayed - {t};
    }

    method PromoteScript(now: int) returns (n: nat, ghost due: seq<Text>)
      requires Valid()
      modifies this
      ensures Valid() && Contents() == PromoteAll(old(Contents()), due)
      ensures IsRange(old(delayed), now, BATCH, due) && n == |due| == DueUpTo100(old(delayed), now)
    {
      var jobs := RangeByScore(delayed, now, BATCH);
      ghost var before := Contents();
      var i := 0;
      while i < |jobs|
        invariant 0 <= i <= |jobs|
        invariant Contents() == PromoteAll(before, jobs[..i])
        invariant processing == before.processing && leases == before.leases
      {
        assert jobs[..i + 1][..i] == jobs[..i];
        PromoteEntry(jobs[i]);
        i := i + 1;
      }
      assert jobs[..i] == jobs;
      RangeCount(before.delayed, now, BATCH, jobs);
      n, due := |jobs|, jobs;
    }

    /** The body of the recovery loop. */
    method RecoverEntry(res: Reservation, now: int)
      requires Valid()
      modifies this
      ensures Valid() && Contents() == RecoverOne(old(Contents()), res, now)
    {
      if res in processing {
        var raw := WithError(processing[res], LEASE_EXPIRED);
        if MAX_ATTEMPTS <= Attempts(raw) {
          dead := dead + [raw];
        } else {
          delayed := delayed[raw := now + Backoff(Attempts(raw))];
        }
        processing := processing - {res};
      }
      leases := leases - {res};
    }

    method RecoverScript(now: int) returns (n: nat, ghost expired: seq<Reservation>)
      requires Valid()
      modifies this
      ensures Valid() && Contents() == RecoverAll(old(Contents()), expired, now)
      ensures IsRange(old(leases), now, BATCH, expired) && n == |expired| == DueUpTo100(old(leases), now)
    {
      var found := RangeByScore(leases, now, BATCH);
      ghost var before := Contents();
      var i := 0;
      while i < |found|
        invariant 0 <= i <= |found|
        invariant Valid() && Contents() == RecoverAll(before, found[..i], now)
      {
        ghost var next := RecoverOne(Contents(), found[i], now);
        RecoverAllStep(before, found, i, now);
        RecoverEntry(found[i], now);
        assert Contents() == next;
        i := i + 1;
      }
      assert found[..i] == found;
      RangeCount(before.leases, now, BATCH, found);
      n, expired := |found|, found;
    }

    /** n == 0 is ErrReservationLost. */
    method FinishScript(res: Reservation, request: Request, now: int, lease: int) returns (n: nat)
      requires Valid()
      modifies this
      ensures Valid() && Contents() == Finish(old(Contents()), res, request, now, lease)
      ensures n == if Owned(old(Contents()), res, now) then 1 else 0
    {
      if res !in processing || res !in leases || leases[res] <= now {
        return 0;
      }
      if request == Renew {
        leases := leases[res := now + lease];
        return 1;
      }
      ghost var before := Contents();
      if request != Ack {
        var raw := WithError(processing[res], Cause(request));
        if request.Dead? || MAX_ATTEMPTS <= Attempts(raw) {
          dead := dead + [raw];
        } else {
          delayed := delayed[raw := now + Backoff(Attempts(raw))];
        }
        assert Contents() == Settle(before, raw, request.Dead?, now);
      }
      processing := processing - {res};
      leases := leases - {res};
      n := 1;
    }

    /** scripts/replay-dead-job.lua; false covers the empty list and the refused record. */
    method ReplayScript() returns (moved: bool)
      requires Valid()
      modifies this
      ensures Valid() && Contents() == Replay(old(Contents()))
      ensures moved == (old(dead) != [] && ValidJob(RawJob(old(dead)[0])))
    {
      if dead == [] || !ValidJob(RawJob(dead[0])) {
        return false;
      }
      ready := ready + [Replayed(dead[0])];
      dead := dead[1..];
      moved := true;
    }

    /** One turn of Reserve's polling loop.  The clock is read once by each script. */
    method Poll(res: Reservation, t1: int, t2: int, t3: int, lease: int) returns (reply: Reply)
      requires Valid() && t1 <= t2 <= t3
      modifies this
      ensures Valid()
      ensures exists expired, due ::
                && IsRange(old(leases), t1, BATCH, expired)
                && (var q := RecoverAll(old(Contents()), expired, t1);
                    && IsRange(q.delayed, t2, BATCH, due)
                    && Contents() == Reserve(PromoteAll(q, due), res, t3, lease)
                    && reply == ReserveReply(PromoteAll(q, due)))
    {
      var _, expired := RecoverScript(t1);
      var _, due := PromoteScript(t2);
      reply := ReserveScript(res, t3, lease);
    }
  }
}
