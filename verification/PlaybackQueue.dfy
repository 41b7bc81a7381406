/** The "next up" queue of every user, in one table: appending, reserving an entry before it
    is played, and consuming it once playback starts.

    First the statements as methods on the table.  Then the requests as they interleave: an
    append holds the user's row between reading the largest position and inserting, a
    reservation skips the rows that other transactions hold, and the old removal by song
    selects an entry before it deletes it. */
module PlaybackQueue {
  import opened Wrappers

  type EntryId = nat
  type UserId = nat
  type Token = nat

  const LEASE := 60_000

  datatype Lease = Lease(token: Token, until: int)

  /** reservation_id and reserved_until are set and cleared together. */
  datatype Entry = Entry(user: UserId, song: nat, position: nat, lease: Option<Lease>)

  type Rows = map<EntryId, Entry>

  predicate Free(e: Entry, now: int) {
    e.lease.None? || e.lease.value.until <= now
  }

  predicate Holds(e: Entry, token: Token) {
    e.lease.Some? && e.lease.value.token == token
  }

  predicate Active(e: Entry, token: Token, now: int) {
    Holds(e, token) && now < e.lease.value.until
  }

  /** The rows the reservation query may return: `locked` are rows other transactions hold. */
  predicate Candidate(rows: Rows, user: UserId, wanted: Option<EntryId>, now: int, locked: set<EntryId>, id: EntryId) {
    && id in rows && id !in locked
    && rows[id].user == user && Free(rows[id], now) && (wanted.Some? ==> wanted.value == id)
  }

  predicate Earlier(rows: Rows, a: EntryId, b: EntryId)
    requires a in rows && b in rows
  {
    rows[a].position < rows[b].position || (rows[a].position == rows[b].position && a <= b)
  }

  /** ORDER BY position, id LIMIT 1 over the candidates. */
  ghost predicate IsFirst(rows: Rows, user: UserId, wanted: Option<EntryId>, now: int, locked: set<EntryId>,
                          id: EntryId) {
    && Candidate(rows, user, wanted, now, locked, id)
    && forall other :: Candidate(rows, user, wanted, now, locked, other) ==> Earlier(rows, id, other)
  }

  function Grant(rows: Rows, id: EntryId, token: Token, now: int): Rows
    requires id in rows
  {
    rows[id := rows[id].(lease := Some(Lease(token, now + LEASE)))]
  }

  /** DELETE ... WHERE user_id, reservation_id and an unexpired lease match. */
  predicate Consumes(rows: Rows, user: UserId, token: Token, now: int, id: EntryId) {
    id in rows && rows[id].user == user && Active(rows[id], token, now)
  }

  function Confirmed(rows: Rows, user: UserId, token: Token, now: int): Rows {
    map id | id in rows && !Consumes(rows, user, token, now, id) :: rows[id]
  }

  function Released(rows: Rows, user: UserId, token: Token): Rows {
    map id | id in rows ::
      if rows[id].user == user && Holds(rows[id], token) then rows[id].(lease := None) else rows[id]
  }

  function RemovedEntry(rows: Rows, user: UserId, id: EntryId): Rows {
    if id in rows && rows[id].user == user then rows - {id} else rows
  }

  /** COALESCE(MAX(position), 0) over one user's rows. */
  ghost predicate IsMaxPosition(rows: Rows, user: UserId, max: nat) {
    && (forall id :: id in rows && rows[id].user == user ==> rows[id].position <= max)
    && (max == 0 || exists id :: id in rows && rows[id].user == user && rows[id].position == max)
  }

  /** An entry of the user, the one that is wanted if one is, that nobody else has locked and on
      which no token is active. */
  ghost predicate Grantable(rows: Rows, user: UserId, wanted: Option<EntryId>, now: int, locked: set<EntryId>,
                            id: EntryId) {
    && id in rows && id !in locked && rows[id].user == user && (wanted == None || wanted == Some(id))
    && forall token :: !Active(rows[id], token, now)
  }

  lemma NobodyActive(rows: Rows, id: EntryId, now: int)
    ensures id in rows && (forall token :: !Active(rows[id], token, now)) ==> Free(rows[id], now)
  {
    if id in rows && rows[id].lease.Some? && now < rows[id].lease.value.until {
      assert Active(rows[id], rows[id].lease.value.token, now);
    }
  }

  // ---- the repository ----------------------------------------------------------------------

  class PlayerRepository {
    var rows: Rows
    var nextId: EntryId

    ghost predicate Valid()
      reads this
    {
      forall id :: id in rows ==> id < nextId
    }

    constructor ()
      ensures Valid() && rows == map[]
    {
      rows, nextId := map[], 1;
    }

    /** The table scan behind the ordered query. */
    method FirstCandidate(user: UserId, wanted: Option<EntryId>, now: int, locked: set<EntryId>)
      returns (first: Option<EntryId>)
      ensures first.Some? ==> IsFirst(rows, user, wanted, now, locked, first.value)
      ensures first.None? ==> forall id :: !Candidate(rows, user, wanted, now, locked, id)
    {
      first := None;
      var rest := rows.Keys;
      while rest != {}
        invariant rest <= rows.Keys
        invariant first.Some? ==> Candidate(rows, user, wanted, now, locked, first.value)
        invariant forall id :: Candidate(rows, user, wanted, now, locked, id) && id !in rest ==>
                    first.Some? && Earlier(rows, first.value, id)
        decreases rest
      {
        var id :| id in rest;
        rest := rest - {id};
        if Candidate(rows, user, wanted, now, locked, id) && (first.None? || !Earlier(rows, first.value, id)) {
          first := Some(id);
        }
      }
    }

    method MaxPosition(user: UserId) returns (max: nat)
      ensures IsMaxPosition(rows, user, max)
    {
      max := 0;
      var rest := rows.Keys;
      ghost var done := {};
      while rest != {}
        invariant rest + done == rows.Keys
        invariant forall id :: id in done && rows[id].user == user ==> rows[id].position <= max
        invariant max == 0 || exists id :: id in rows && rows[id].user == user && rows[id].position == max
        decreases rest
      {
        var id :| id in rest;
        rest, done := rest - {id}, done + {id};
        if rows[id].user == user && max < rows[id].position {
          max := rows[id].position;
        }
      }
    }

    method AppendToQueue(user: UserId, song: nat)
      requires Valid()
      modifies this
      ensures Valid()
      ensures exists max: nat :: IsMaxPosition(old(rows), user, max)
                         && rows == old(rows)[old(nextId) := Entry(user, song, max + 1, None)]
      ensures
        var e := rows[old(nextId)];
        && e.user == user && e.song == song && e.lease == None
        && (forall id :: id in old(rows) && old(rows)[id].user == user ==> old(rows)[id].position < e.position)
        && (e.position == 1 ||
            exists id :: id in old(rows) && old(rows)[id].user == user && old(rows)[id].position + 1 == e.position)
    {
      var max := MaxPosition(user);
      rows := rows[nextId := Entry(user, song, max + 1, None)];
      nextId := nextId + 1;
    }

    /** None: nothing is available (an error if a particular entry was asked for). */
    method ReserveQueueEntry(user: UserId, wanted: Option<EntryId>, now: int, locked: set<EntryId>, token: Token)
      returns (granted: Option<EntryId>)
      requires Valid()
      modifies this`rows
      ensures Valid()
      ensures granted.Some? ==> IsFirst(old(rows), user, wanted, now, locked, granted.value)
      ensures granted.Some? ==>
        var e := old(rows)[granted.value];
        && e.user == user && granted.value !in locked && (wanted.Some? ==> wanted.value == granted.value)
        && (e.lease.Some? ==> e.lease.value.until <= now)
        && rows == old(rows)[granted.value := Entry(user, e.song, e.position, Some(Lease(token, now + 60_000)))]
        && forall id :: Grantable(old(rows), user, wanted, now, locked, id) ==>
             e.position < old(rows)[id].position || (e.position == old(rows)[id].position && granted.value <= id)
      ensures granted.None? ==> rows == old(rows) && forall id :: !Grantable(rows, user, wanted, now, locked, id)
    {
      forall id | Grantable(rows, user, wanted, now, locked, id)
        ensures Candidate(rows, user, wanted, now, locked, id)
      {
        NobodyActive(rows, id, now);
      }
      granted := FirstCandidate(user, wanted, now, locked);
      if granted.Some? {
        rows := Grant(rows, granted.value, token, now);
      }
    }

    /** false is ErrQueueUnavailable: no row matched. */
    method ConfirmQueueEntry(user: UserId, token: Token, now: int) returns (ok: bool)
      requires Valid()
      modifies this`rows
      ensures Valid() && rows == Confirmed(old(rows), user, token, now)
      ensures ok <==> exists id :: Consumes(old(rows), user, token, now, id)
      ensures forall id :: id in rows ==> id in old(rows) && rows[id] == old(rows)[id]
      ensures forall id :: id in old(rows) ==>
        var e := old(rows)[id];
        id !in rows <==> e.user == user && e.lease.Some? && e.lease.value.token == token && now < e.lease.value.until
    {
      var matched := set id | id in rows && Consumes(rows, user, token, now, id);
      rows := rows - matched;
      ok := matched != {};
      assert forall id :: id in matched <==> Consumes(old(rows), user, token, now, id);
    }

    method ReleaseQueueEntry(user: UserId, token: Token)
      requires Valid()
      modifies this`rows
      ensures Valid() && rows == Released(old(rows), user, token)
      ensures forall id :: id in rows && rows[id].user == user ==> !Holds(rows[id], token)
      ensures forall id :: id in old(rows) && (old(rows)[id].user != user || !Holds(old(rows)[id], token)) ==>
        id in rows && rows[id] == old(rows)[id]
      ensures forall id :: id in old(rows) && old(rows)[id].user == user && Holds(old(rows)[id], token) ==>
        id in rows && rows[id] == Entry(user, old(rows)[id].song, old(rows)[id].position, None)
    {
      var matched := set id | id in rows && rows[id].user == user && Holds(rows[id], token);
      while matched != {}
        invariant rows.Keys == old(rows).Keys && matched <= rows.Keys
        invariant forall id :: id in matched ==> rows[id] == old(rows)[id]
        invariant forall id :: id in rows && id !in matched ==> rows[id] == Released(old(rows), user, token)[id]
        decreases matched
      {
        var id :| id in matched;
        rows := rows[id := rows[id].(lease := None)];
        matched := matched - {id};
      }
    }

    method RemoveQueueEntry(user: UserId, id: EntryId)
      requires Valid()
      modifies this`rows
      ensures Valid() && rows == RemovedEntry(old(rows), user, id)
      ensures id in rows ==> rows[id].user != user
      ensures forall i :: i in old(rows) && (i != id || old(rows)[i].user != user) ==>
        i in rows && rows[i] == old(rows)[i]
    {
      if id in rows && rows[id].user == user {
        rows := rows - {id};
      }
    }
  }

  // ---- concurrent requests -----------------------------------------------------------------

  /** `appending` holds, for each user row locked by an append, the maximum it has read;
      `removing` the entries that RemoveFromQueue has selected and not yet deleted.  History:
      tokens ever issued, entries consumed and tokens that consumed them. */
  datatype State = State(
    rows: Rows, nextId: EntryId, now: int,
    appending: map<UserId, nat>, removing: set<(UserId, EntryId)>,
    tokens: set<Token>, consumed: seq<EntryId>, spent: seq<Token>)

  const START := State(map[], 1, 0, map[], {}, {}, [], [])

  datatype Step =
    | AppendRead(user: UserId, max: nat)
    | AppendInsert(user: UserId, song: nat)
    | AppendAbort(user: UserId)
    | Reserve(user: UserId, wanted: Option<EntryId>, locked: set<EntryId>, id: EntryId, token: Token)
    | Confirm(user: UserId, token: Token, hit: Option<EntryId>)
    | Release(user: UserId, token: Token)
    | Remove(user: UserId, id: EntryId)
    | SelectSong(user: UserId, song: nat, id: EntryId)
    | DeleteSelected(user: UserId, id: EntryId)
    | Tick(now: int)

  ghost predicate Enabled(s: State, step: Step) {
    match step
    case AppendRead(user, max) => user !in s.appending && IsMaxPosition(s.rows, user, max)
    case AppendInsert(user, _) => user in s.appending
    case AppendAbort(user) => user in s.appending
    case Reserve(user, wanted, locked, id, token) =>
      token !in s.tokens && IsFirst(s.rows, user, wanted, s.now, locked, id)
    case Confirm(user, token, hit) =>
      if hit.Some? then Consumes(s.rows, user, token, s.now, hit.value)
      else forall i :: !Consumes(s.rows, user, token, s.now, i)
    case SelectSong(user, song, id) => id in s.rows && s.rows[id].user == user && s.rows[id].song == song
    case DeleteSelected(user, id) => (user, id) in s.removing
    case Tick(now) => s.now <= now
    case _ => true
  }

  ghost function Apply(s: State, step: Step): State
    requires Enabled(s, step)
  {
    match step
    case AppendRead(user, max) => s.(appending := s.appending[user := max])
    case AppendInsert(user, song) =>
      s.(rows := s.rows[s.nextId := Entry(user, song, s.appending[user] + 1, None)],
         nextId := s.nextId + 1, appending := s.appending - {user})
    case AppendAbort(user) => s.(appending := s.appending - {user})
    case Reserve(_, _, _, id, token) => s.(rows := Grant(s.rows, id, token, s.now), tokens := s.tokens + {token})
    case Confirm(user, token, hit) =>
      var s' := s.(rows := Confirmed(s.rows, user, token, s.now));
      if hit.Some? then s'.(consumed := s.consumed + [hit.value], spent := s.spent + [token]) else s'
    case Release(user, token) => s.(rows := Released(s.rows, user, token))
    case Remove(user, id) => s.(rows := RemovedEntry(s.rows, user, id))
    case SelectSong(user, _, id) => s.(removing := s.removing + {(user, id)})
    case DeleteSelected(user, id) => s.(rows := s.rows - {id}, removing := s.removing - {(user, id)})
    case Tick(now) => s.(now := now)
  }

  /** Two entries of a user are in the order in which they were appended. */
  predicate InAppendOrder(rows: Rows) {
    forall a, b :: a in rows && b in rows && rows[a].user == rows[b].user && a < b ==>
      rows[a].position < rows[b].position
  }

  ghost predicate OneTokenOneEntry(rows: Rows) {
    forall a, b, token :: a in rows && b in rows && Holds(rows[a], token) && Holds(rows[b], token) ==> a == b
  }

  /** A token that can never consume anything again. */
  predicate Dead(s: State, token: Token) {
    token in s.tokens && forall id :: id in s.rows ==> !Active(s.rows[id], token, s.now)
  }

  predicate IdsIssued(s: State) {
    forall id :: id in s.rows ==> id < s.nextId
  }

  predicate TokensIssued(s: State) {
    forall id :: id in s.rows && s.rows[id].lease.Some? ==> s.rows[id].lease.value.token in s.tokens
  }

  ghost predicate RowsInv(s: State) {
    IdsIssued(s) && TokensIssued(s) && InAppendOrder(s.rows) && OneTokenOneEntry(s.rows)
  }

  predicate AppendInv(s: State) {
    && (forall user, id :: user in s.appending && id in s.rows && s.rows[id].user == user ==>
          s.rows[id].position <= s.appending[user])
    && (forall r :: r in s.removing ==> r.1 < s.nextId && (r.1 in s.rows ==> s.rows[r.1].user == r.0))
  }

  predicate NoneTwice<T(==)>(list: seq<T>) {
    forall i, j :: 0 <= i < j < |list| ==> list[i] != list[j]
  }

  predicate ConsumedInv(s: State) {
    && NoneTwice(s.consumed) && NoneTwice(s.spent)
    && (forall id :: id in s.consumed ==> id !in s.rows && id < s.nextId)
    && (forall token :: token in s.spent ==> Dead(s, token))
  }

  ghost predicate Inv(s: State) {
    RowsInv(s) && AppendInv(s) && ConsumedInv(s)
  }

  lemma StepKeepsTokens(s: State, step: Step)
    requires RowsInv(s) && Enabled(s, step)
    ensures TokensIssued(Apply(s, step)) && OneTokenOneEntry(Apply(s, step).rows)
  {
  }

  lemma StepKeepsOrder(s: State, step: Step)
    requires RowsInv(s) && AppendInv(s) && Enabled(s, step)
    ensures IdsIssued(Apply(s, step)) && InAppendOrder(Apply(s, step).rows)
  {
  }

  lemma StepKeepsRows(s: State, step: Step)
    requires RowsInv(s) && AppendInv(s) && Enabled(s, step)
    ensures RowsInv(Apply(s, step))
  {
    StepKeepsTokens(s, step);
    StepKeepsOrder(s, step);
  }

  lemma StepKeepsAppends(s: State, step: Step)
    requires RowsInv(s) && AppendInv(s) && Enabled(s, step)
    ensures AppendInv(Apply(s, step))
  {
  }

  lemma DeadStaysDead(s: State, step: Step, token: Token)
    requires Inv(s) && Enabled(s, step) && Dead(s, token)
    ensures Dead(Apply(s, step), token)
  {
  }

  /** Consuming an entry removes it, and with it the only row its token was on. */
  lemma ConfirmKillsToken(s: State, step: Step)
    requires Inv(s) && Enabled(s, step) && step.Confirm? && step.hit.Some?
    ensures Dead(Apply(s, step), step.token) && step.token !in s.spent
    ensures Apply(s, step).rows == s.rows - {step.hit.value}
  {
  }

  lemma StepKeepsConsumed(s: State, step: Step)
    requires Inv(s) && Enabled(s, step)
    ensures ConsumedInv(Apply(s, step))
  {
    forall token | token in s.spent ensures Dead(Apply(s, step), token) {
      DeadStaysDead(s, step, token);
    }
    if step.Confirm? && step.hit.Some? {
      ConfirmKillsToken(s, step);
    }
  }

  lemma StepKeepsInv(s: State, step: Step)
    requires Inv(s) && Enabled(s, step)
    ensures Inv(Apply(s, step)) && Apply(s, step).now == if step.Tick? then step.now else s.now
  {
    StepKeepsRows(s, step);
    StepKeepsAppends(s, step);
    StepKeepsConsumed(s, step);
  }

  ghost predicate Legal(s: State, steps: seq<Step>)
    decreases |steps|
  {
    steps == [] || (Enabled(s, steps[0]) && Legal(Apply(s, steps[0]), steps[1..]))
  }

  ghost function Run(s: State, steps: seq<Step>): State
    requires Legal(s, steps)
    decreases |steps|
  {
    if steps == [] then s else Run(Apply(s, steps[0]), steps[1..])
  }

  lemma {:induction false} RunKeepsInv(s: State, steps: seq<Step>)
    requires Inv(s) && Legal(s, steps)
    ensures Inv(Run(s, steps))
    decreases |steps|
  {
    if steps != [] {
      StepKeepsInv(s, steps[0]);
      RunKeepsInv(Apply(s, steps[0]), steps[1..]);
    }
  }

  // ---- what every run keeps ------------------------------------------------------------------

  /** Live entries of a user have different positions, in the order they were appended; every
      token is on at most one entry; no entry is consumed twice and no token consumes twice. */
  lemma QueueIsOrderly(steps: seq<Step>, a: EntryId, b: EntryId)
    requires Legal(START, steps)
    requires var rows := Run(START, steps).rows; a in rows && b in rows && rows[a].user == rows[b].user && a != b
    ensures
      var s := Run(START, steps);
      && (a < b <==> s.rows[a].position < s.rows[b].position)
      && (s.rows[a].lease.Some? ==> !Holds(s.rows[b], s.rows[a].lease.value.token))
      && NoneTwice(s.consumed) && NoneTwice(s.spent) && a !in s.consumed
  {
    RunKeepsInv(START, steps);
  }

  /** Once a token has expired, been released, superseded or used, no confirmation with it ever
      deletes an entry again, and releasing it leaves every other token's reservation alone. */
  lemma {:induction false} DeadTokenIsHarmless(s: State, steps: seq<Step>, token: Token, user: UserId)
    requires Inv(s) && Legal(s, steps) && Dead(s, token)
    ensures
      var s' := Run(s, steps);
      && Dead(s', token)
      && Confirmed(s'.rows, user, token, s'.now) == s'.rows
      && (forall id :: id in s'.rows && !Holds(s'.rows[id], token) ==>
            Released(s'.rows, user, token)[id] == s'.rows[id])
    decreases |steps|
  {
    if steps != [] {
      StepKeepsInv(s, steps[0]);
      DeadStaysDead(s, steps[0], token);
      DeadTokenIsHarmless(Apply(s, steps[0]), steps[1..], token, user);
    }
  }

  /** Reserving an entry makes the new token active and kills whatever token was on the entry
      before, at once and for ever: an entry never has two active reservations. */
  lemma GrantSupersedes(s: State, step: Step, previous: Token, steps: seq<Step>)
    requires Inv(s) && Enabled(s, step) && step.Reserve? && Holds(s.rows[step.id], previous)
    requires Legal(Apply(s, step), steps)
    ensures Active(Apply(s, step).rows[step.id], step.token, s.now)
    ensures Dead(Run(Apply(s, step), steps), previous)
  {
    StepKeepsInv(s, step);
    DeadTokenIsHarmless(Apply(s, step), steps, previous, step.user);
  }

  /** A token its owner has let go is dead for ever. */
  lemma ReleaseKills(s: State, step: Step, steps: seq<Step>)
    requires Inv(s) && Enabled(s, step) && step.Release? && step.token in s.tokens
    requires forall id :: id in s.rows && Holds(s.rows[id], step.token) ==> s.rows[id].user == step.user
    requires Legal(Apply(s, step), steps)
    ensures Dead(Run(Apply(s, step), steps), step.token)
  {
    StepKeepsInv(s, step);
    DeadTokenIsHarmless(Apply(s, step), steps, step.token, step.user);
  }

  /** A confirmation that is accepted consumes exactly one entry, which never returns, and kills
      its token for ever. */
  lemma ConfirmConsumesOne(s: State, step: Step, steps: seq<Step>)
    requires Inv(s) && Enabled(s, step) && step.Confirm? && step.hit.Some?
    requires Legal(Apply(s, step), steps)
    ensures Apply(s, step).rows == s.rows - {step.hit.value}
    ensures
      var s' := Run(Apply(s, step), steps);
      Dead(s', step.token) && step.hit.value !in s'.rows
  {
    StepKeepsInv(s, step);
    ConfirmKillsToken(s, step);
    DeadTokenIsHarmless(Apply(s, step), steps, step.token, step.user);
    ConsumedIsRemembered(Apply(s, step), steps);
    RunKeepsInv(Apply(s, step), steps);
    assert step.hit.value in Apply(s, step).consumed;
  }

  lemma {:induction false} ConsumedIsRemembered(s: State, steps: seq<Step>)
    requires Inv(s) && Legal(s, steps)
    ensures s.consumed <= Run(s, steps).consumed
    decreases |steps|
  {
    if steps != [] {
      StepKeepsInv(s, steps[0]);
      ConsumedIsRemembered(Apply(s, steps[0]), steps[1..]);
    }
  }

  // ---- how long an entry and a reservation last -------------------------------------------

  /** The step takes this entry out of the table. */
  predicate TakesOut(s: State, step: Step, id: EntryId) {
    match step
    case Confirm(_, _, hit) => hit == Some(id)
    case Remove(user, i) => i == id && id in s.rows && s.rows[id].user == user
    case DeleteSelected(_, i) => i == id
    case _ => false
  }

  predicate SameEntry(e: Entry, e': Entry) {
    e'.user == e.user && e'.song == e.song && e'.position == e.position
  }

  /** What is in the table stays, with its song and its place, until it is taken out; and what is
      taken out is gone. */
  lemma StepKeepsEntry(s: State, step: Step, id: EntryId)
    requires Inv(s) && Enabled(s, step) && id in s.rows
    ensures
      var rows := Apply(s, step).rows;
      if TakesOut(s, step, id) then id !in rows else id in rows && SameEntry(s.rows[id], rows[id])
  {
  }

  ghost predicate TakenOut(s: State, steps: seq<Step>, id: EntryId)
    requires Legal(s, steps)
    decreases |steps|
  {
    steps != [] && (TakesOut(s, steps[0], id) || TakenOut(Apply(s, steps[0]), steps[1..], id))
  }

  /** Over every run an entry is in the table, with its song and its place, exactly until a
      confirmation or a removal takes it out; its number is not used again. */
  lemma {:induction false} EntryStays(s: State, steps: seq<Step>, id: EntryId)
    requires Inv(s) && Legal(s, steps) && id in s.rows
    ensures
      var rows := Run(s, steps).rows;
      if TakenOut(s, steps, id) then id !in rows else id in rows && SameEntry(s.rows[id], rows[id])
    decreases |steps|
  {
    if steps != [] {
      StepKeepsInv(s, steps[0]);
      StepKeepsEntry(s, steps[0], id);
      if TakesOut(s, steps[0], id) {
        NumberNotReused(Apply(s, steps[0]), steps[1..], id);
      } else {
        EntryStays(Apply(s, steps[0]), steps[1..], id);
      }
    }
  }

  lemma {:induction false} NumberNotReused(s: State, steps: seq<Step>, id: EntryId)
    requires Legal(s, steps) && id !in s.rows && id < s.nextId
    ensures id !in Run(s, steps).rows
    decreases |steps|
  {
    if steps != [] {
      NumberNotReused(Apply(s, steps[0]), steps[1..], id);
    }
  }

  /** A selected entry can be deleted, and is gone then. */
  lemma SelectedIsDeleted(s: State, user: UserId, song: nat, id: EntryId)
    requires Inv(s) && Enabled(s, SelectSong(user, song, id))
    ensures
      var s1 := Apply(s, SelectSong(user, song, id));
      && Enabled(s1, DeleteSelected(user, id)) && s1.rows == s.rows
      && Apply(s1, DeleteSelected(user, id)).rows == s.rows - {id}
  {
  }

  /** After reading the largest position an append can insert, or give up. */
  lemma AppendContinues(s: State, user: UserId, max: nat, song: nat)
    requires Inv(s) && Enabled(s, AppendRead(user, max))
    ensures
      var s1 := Apply(s, AppendRead(user, max));
      && Enabled(s1, AppendInsert(user, song)) && s1.rows == s.rows && s1.nextId == s.nextId
      && Apply(s1, AppendInsert(user, song)).rows[s.nextId].position == max + 1
      && user !in Apply(s1, AppendInsert(user, song)).appending
      && Enabled(s1, AppendAbort(user)) && Apply(s1, AppendAbort(user)) == s
  {
  }

  /** An append that has read the largest position ends with the new entry behind all of the
      user's, and from then on EntryStays holds of it. */
  lemma AppendedLast(s: State, user: UserId, song: nat)
    requires Inv(s) && Enabled(s, AppendInsert(user, song))
    ensures
      var rows := Apply(s, AppendInsert(user, song)).rows;
      && s.nextId !in s.rows && rows.Keys == s.rows.Keys + {s.nextId}
      && rows[s.nextId].user == user && rows[s.nextId].song == song && rows[s.nextId].lease == None
      && (forall id :: id in s.rows ==> rows[id] == s.rows[id])
      && (forall id :: id in s.rows && s.rows[id].user == user ==> s.rows[id].position < rows[s.nextId].position)
  {
  }

  /** The token has its lease on this entry until then, and on no other. */
  predicate LeasedUntil(s: State, id: EntryId, token: Token, until: int) {
    && token in s.tokens
    && (s.now < until ==> id in s.rows && s.rows[id].lease == Some(Lease(token, until)))
    && (forall i :: i in s.rows && s.rows[i].lease.Some? && s.rows[i].lease.value.token == token ==>
          i == id && s.rows[i].lease.value.until == until)
  }

  /** Steps that may end the reservation early: its release, or taking out its entry. */
  predicate EndsEarly(s: State, step: Step, id: EntryId, token: Token) {
    TakesOut(s, step, id) || (step.Release? && step.token == token)
  }

  lemma StepKeepsLease(s: State, step: Step, id: EntryId, token: Token, until: int)
    requires Inv(s) && Enabled(s, step) && LeasedUntil(s, id, token, until) && !EndsEarly(s, step, id, token)
    ensures LeasedUntil(Apply(s, step), id, token, until)
  {
  }

  ghost predicate LeftAlone(s: State, steps: seq<Step>, id: EntryId, token: Token)
    requires Legal(s, steps)
    decreases |steps|
  {
    steps == [] || (!EndsEarly(s, steps[0], id, token) && LeftAlone(Apply(s, steps[0]), steps[1..], id, token))
  }

  lemma {:induction false} RunKeepsLease(s: State, steps: seq<Step>, id: EntryId, token: Token, until: int)
    requires Inv(s) && Legal(s, steps) && LeasedUntil(s, id, token, until) && LeftAlone(s, steps, id, token)
    ensures LeasedUntil(Run(s, steps), id, token, until)
    decreases |steps|
  {
    if steps != [] {
      StepKeepsInv(s, steps[0]);
      StepKeepsLease(s, steps[0], id, token, until);
      RunKeepsLease(Apply(s, steps[0]), steps[1..], id, token, until);
    }
  }

  /** A reservation lasts a minute: over every run that neither releases it nor takes out its entry,
      a confirmation with its token deletes that entry before a minute has passed, and nothing
      after. */
  lemma LeaseLastsAMinute(s: State, step: Step, steps: seq<Step>)
    requires Inv(s) && Enabled(s, step) && step.Reserve? && Legal(Apply(s, step), steps)
    requires LeftAlone(Apply(s, step), steps, step.id, step.token)
    ensures
      var s' := Run(Apply(s, step), steps);
      && (s'.now < s.now + 60_000 ==>
            step.id in s'.rows && Confirmed(s'.rows, step.user, step.token, s'.now) == s'.rows - {step.id})
      && (s.now + 60_000 <= s'.now ==> Confirmed(s'.rows, step.user, step.token, s'.now) == s'.rows)
  {
    StepKeepsInv(s, step);
    RunKeepsLease(Apply(s, step), steps, step.id, step.token, s.now + 60_000);
    OwnerStays(Apply(s, step), steps, step.id, step.token);
    OnlyLeased(Run(Apply(s, step), steps), step.user, step.id, step.token, s.now + 60_000);
  }

  lemma OnlyLeased(s: State, user: UserId, id: EntryId, token: Token, until: int)
    requires LeasedUntil(s, id, token, until) && id in s.rows && s.rows[id].user == user
    ensures s.now < until ==> Confirmed(s.rows, user, token, s.now) == s.rows - {id}
    ensures until <= s.now ==> Confirmed(s.rows, user, token, s.now) == s.rows
  {
  }

  lemma {:induction false} OwnerStays(s: State, steps: seq<Step>, id: EntryId, token: Token)
    requires Inv(s) && Legal(s, steps) && id in s.rows && LeftAlone(s, steps, id, token)
    ensures id in Run(s, steps).rows && SameEntry(s.rows[id], Run(s, steps).rows[id])
    decreases |steps|
  {
    if steps != [] {
      StepKeepsInv(s, steps[0]);
      StepKeepsEntry(s, steps[0], id);
      OwnerStays(Apply(s, steps[0]), steps[1..], id, token);
    }
  }

  predicate ActsFor(step: Step, user: UserId) {
    step.Tick? || step.user == user
  }

  function RowsOf(rows: Rows, user: UserId): Rows {
    map id | id in rows && rows[id].user == user :: rows[id]
  }

  lemma StepLeavesOthers(s: State, step: Step, user: UserId, other: UserId)
    requires Inv(s) && Enabled(s, step) && ActsFor(step, user) && other != user
    ensures RowsOf(Apply(s, step).rows, other) == RowsOf(s.rows, other)
  {
    var rows, rows' := s.rows, Apply(s, step).rows;
    assert forall id :: SameFor(rows, rows', other, id);
    SameRowsOf(rows, rows', other);
  }

  predicate SameFor(rows: Rows, rows': Rows, user: UserId, id: EntryId) {
    && (id in rows' && rows'[id].user == user <==> id in rows && rows[id].user == user)
    && (id in rows' && rows'[id].user == user ==> rows'[id] == rows[id])
  }

  lemma SameRowsOf(rows: Rows, rows': Rows, user: UserId)
    requires forall id :: SameFor(rows, rows', user, id)
    ensures RowsOf(rows', user) == RowsOf(rows, user)
  {
    var mine, mine' := RowsOf(rows, user), RowsOf(rows', user);
    forall id ensures (id in mine' <==> id in mine) && (id in mine ==> mine'[id] == mine[id]) {
      assert SameFor(rows, rows', user, id);
    }
  }

  /** However many requests of one user run, no other user's rows change. */
  lemma {:induction false} OthersUntouched(s: State, steps: seq<Step>, user: UserId, other: UserId)
    requires Inv(s) && Legal(s, steps) && other != user
    requires forall step :: step in steps ==> ActsFor(step, user)
    ensures RowsOf(Run(s, steps).rows, other) == RowsOf(s.rows, other)
    decreases |steps|
  {
    if steps != [] {
      StepKeepsInv(s, steps[0]);
      StepLeavesOthers(s, steps[0], user, other);
      OthersUntouched(Apply(s, steps[0]), steps[1..], user, other);
    }
  }
}
