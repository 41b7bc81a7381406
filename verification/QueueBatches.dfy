/** What the two batch scripts, promotion and recovery, take away. */
module QueueBatches {
  import opened JobRecords
  import opened JobQueue

  lemma {:induction false} PromoteKeepsLeases(q: Queue, due: seq<Text>)
    ensures var q' := PromoteAll(q, due); q'.processing == q.processing && q'.leases == q.leases
    decreases |due|
  {
    if due != [] {
      PromoteKeepsLeases(q, due[..|due| - 1]);
    }
  }

  /** Putting a record back touches neither deliveries nor leases. */
  lemma SettleKeepsHeld(q: Queue, t: Text, dead: bool, now: int)
    requires IsDelivery(t)
    ensures Settle(q, t, dead, now).processing == q.processing
    ensures Settle(q, t, dead, now).leases == q.leases
  {
  }

  lemma RecoverOneEnds(q: Queue, res: Reservation, now: int)
    requires Deliveries(q)
    ensures RecoverOne(q, res, now).processing == q.processing - {res}
    ensures RecoverOne(q, res, now).leases == q.leases - {res}
  {
    if res in q.processing {
      SettleKeepsHeld(q, WithError(q.processing[res], LEASE_EXPIRED), false, now);
    } else {
      assert q.processing - {res} == q.processing;
    }
  }

  /** Recovery ends exactly the reservations it was given. */
  lemma {:induction false} RecoverEnds(q: Queue, expired: seq<Reservation>, now: int)
    requires Deliveries(q)
    ensures RecoverAll(q, expired, now).processing == q.processing - Members(expired)
    ensures RecoverAll(q, expired, now).leases == q.leases - Members(expired)
    decreases |expired|
  {
    if expired == [] {
      assert RecoverAll(q, expired, now) == q;
    } else {
      var front, last := expired[..|expired| - 1], expired[|expired| - 1];
      var q' := RecoverAll(q, front, now);
      RecoverEnds(q, front, now);
      RecoverOneEnds(q', last, now);
      assert RecoverAll(q, expired, now) == RecoverOne(q', last, now);
      assert expired == front + [last];
      assert Members(expired) == Members(front) + {last};
      MinusTwice(q.processing, Members(front), {last});
      MinusTwice(q.leases, Members(front), {last});
    }
  }

  /** Promotion takes exactly the records it was given out of the delayed set. */
  lemma {:induction false} PromoteEnds(q: Queue, due: seq<Text>)
    ensures PromoteAll(q, due).delayed == q.delayed - Members(due)
    decreases |due|
  {
    if due == [] {
      assert PromoteAll(q, due) == q;
    } else {
      var front, last := due[..|due| - 1], due[|due| - 1];
      PromoteEnds(q, front);
      assert due == front + [last];
      assert Members(due) == Members(front) + {last};
      MinusTwice(q.delayed, Members(front), {last});
    }
  }

  /** Different keys of a map, as a range query returns them. */
  ghost predicate PicksOf<K, V>(s: seq<K>, m: map<K, V>) {
    && (forall i :: 0 <= i < |s| ==> s[i] in m)
    && (forall i, j :: 0 <= i < j < |s| ==> s[i] != s[j])
  }

  lemma LastIsPicked<K, V>(s: seq<K>, m: map<K, V>)
    requires PicksOf(s, m) && s != []
    ensures PicksOf(s[..|s| - 1], m) && s[|s| - 1] in m - Members(s[..|s| - 1])
  {
  }

  lemma MinusTwice<K, V>(m: map<K, V>, a: set<K>, b: set<K>)
    ensures m - a - b == m - (a + b)
  {
  }
}
