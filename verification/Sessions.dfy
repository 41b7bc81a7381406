/** Login sessions of one account in Redis: one hash with a single time to live for all its
    rows, and a revocation marker.  The scripts are methods on the keys; what they mean is an
    ideal table in which every session simply expires on its own. */
module Sessions {
  import opened Wrappers

  type SessionId = nat
  type Digest = nat
  type Generation = nat

  /** Reading the generation key when it was never set gives the empty string. */
  const NO_GENERATION: Generation := 0

  datatype Row = Row(device: string, createdAt: int, lastUsedAt: int, expiresAt: int,
                     refresh: Digest, credential: Digest)

  datatype Keys = Keys(rows: map<SessionId, Row>, expireAt: Option<int>, generation: Generation)

  const NO_KEYS := Keys(map[], None, NO_GENERATION)

  datatype Op =
    | Create(generation: Generation, id: SessionId, row: Row)
    | Get(id: SessionId)
    | Rotate(id: SessionId, previous: Digest, next: Digest, credential: Digest, ttl: int)
    | List(current: SessionId)
    | Revoke(caller: Option<SessionId>, target: SessionId)
    | RevokeAll(caller: Option<SessionId>, generation: Generation)

  datatype Reply = Code(n: int) | Found(row: Option<Row>) | Listed(rows: map<SessionId, Row>)

  // ---- the ideal table -------------------------------------------------------------------

  /** Rows are never pruned here; a row counts until its own expiry. */
  datatype Ideal = Ideal(table: map<SessionId, Row>, generation: Generation)

  predicate Has(rows: map<SessionId, Row>, id: SessionId, now: int) {
    id in rows && now < rows[id].expiresAt
  }

  function Live(rows: map<SessionId, Row>, now: int): map<SessionId, Row> {
    map id | id in rows && now < rows[id].expiresAt :: rows[id]
  }

  function Rotated(row: Row, next: Digest, ttl: int, now: int): Row {
    row.(refresh := next, lastUsedAt := now, expiresAt := now + ttl)
  }

  predicate MayRotate(rows: map<SessionId, Row>, id: SessionId, previous: Digest, credential: Digest, now: int) {
    Has(rows, id, now) && rows[id].refresh == previous && rows[id].credential == credential
  }

  predicate CallerGone(rows: map<SessionId, Row>, caller: Option<SessionId>, now: int) {
    caller.Some? && !Has(rows, caller.value, now)
  }

  function IdealStep(s: Ideal, op: Op, now: int): Ideal {
    match op
    case Create(generation, id, row) =>
      if generation != s.generation then s else s.(table := s.table[id := row])
    case Rotate(id, previous, next, credential, ttl) =>
      if 0 < ttl && MayRotate(s.table, id, previous, credential, now)
      then s.(table := s.table[id := Rotated(s.table[id], next, ttl, now)]) else s
    case Revoke(caller, target) =>
      if CallerGone(s.table, caller, now) then s else s.(table := s.table - {target})
    case RevokeAll(caller, generation) =>
      if CallerGone(s.table, caller, now) then s else Ideal(map[], generation)
    case _ => s
  }

  /** Code(-2) is the wrapper's refusal of a time to live that is not positive. */
  function IdealReply(s: Ideal, op: Op, now: int): Reply {
    match op
    case Create(generation, _, _) => Code(if generation != s.generation then 0 else 1)
    case Get(id) => Found(if Has(s.table, id, now) then Some(s.table[id]) else None)
    case Rotate(id, previous, _, credential, ttl) =>
      if ttl <= 0 then Code(-2) else Code(if MayRotate(s.table, id, previous, credential, now) then 1 else 0)
    case List(current) =>
      if !Has(s.table, current, now) then Code(-1) else Listed(Live(s.table, now))
    case Revoke(caller, target) =>
      Code(if CallerGone(s.table, caller, now) then -1 else if Has(s.table, target, now) then 1 else 0)
    case RevokeAll(caller, _) => Code(if CallerGone(s.table, caller, now) then 0 else 1)
  }

  // ---- the scripts as functions on the keys ------------------------------------------------

  ghost predicate IsLatest(rows: map<SessionId, Row>, latest: int) {
    && (exists id :: id in rows && rows[id].expiresAt == latest)
    && (forall id :: id in rows ==> rows[id].expiresAt <= latest)
  }

  /** The time to live is that of the longest row; no rows, no key. */
  ghost predicate TtlOk(k: Keys) {
    match k.expireAt
    case None => k.rows == map[]
    case Some(at) => k.rows != map[] && IsLatest(k.rows, at)
  }

  /** active(id): forgets the row when it has expired. */
  function Probe(rows: map<SessionId, Row>, id: SessionId, now: int): map<SessionId, Row> {
    if id in rows && rows[id].expiresAt <= now then rows - {id} else rows
  }

  /** The rows a script leaves behind; retain() prunes them on every path but two. */
  function RowsAfter(k: Keys, op: Op, now: int): map<SessionId, Row> {
    match op
    case Create(generation, id, row) =>
      if generation != k.generation then k.rows else Live(k.rows[id := row], now)
    case Get(id) => Live(Probe(k.rows, id, now), now)
    case Rotate(id, previous, next, credential, ttl) =>
      if ttl <= 0 then k.rows
      else if MayRotate(k.rows, id, previous, credential, now)
      then Live(k.rows[id := Rotated(k.rows[id], next, ttl, now)], now)
      else Live(Probe(k.rows, id, now), now)
    case List(current) => Live(Probe(k.rows, current, now), now)
    case Revoke(caller, target) =>
      if CallerGone(k.rows, caller, now) then Live(k.rows, now) else Live(k.rows - {target}, now)
    case RevokeAll(caller, _) =>
      if CallerGone(k.rows, caller, now) then Live(k.rows, now) else map[]
  }

  function GenerationAfter(k: Keys, op: Op, now: int): Generation {
    if op.RevokeAll? && !CallerGone(k.rows, op.caller, now) then op.generation else k.generation
  }

  function ReplyOf(k: Keys, op: Op, now: int): Reply {
    IdealReply(Ideal(k.rows, k.generation), op, now)
  }

  /** The script `op` may take the keys from k to k'. */
  ghost predicate ScriptStep(k: Keys, op: Op, now: int, k': Keys) {
    k'.rows == RowsAfter(k, op, now) && k'.generation == GenerationAfter(k, op, now) && TtlOk(k')
  }

  /** Redis may drop the whole hash once its time to live has passed. */
  predicate ExpiryStep(k: Keys, now: int, k': Keys) {
    k.expireAt.Some? && k.expireAt.value <= now && k' == k.(rows := map[], expireAt := None)
  }

  // ---- the scripts ---------------------------------------------------------------------------

  class SessionStore {
    var rows: map<SessionId, Row>
    var expireAt: Option<int>
    var generation: Generation

    ghost function Contents(): Keys
      reads this
    {
      Keys(rows, expireAt, generation)
    }

    ghost predicate Valid()
      reads this
    {
      TtlOk(Contents())
    }

    constructor ()
      ensures Valid() && Contents() == NO_KEYS
    {
      rows, expireAt, generation := map[], None, NO_GENERATION;
    }

    method Active(id: SessionId, now: int) returns (row: Option<Row>)
      modifies this`rows
      ensures rows == Probe(old(rows), id, now)
      ensures row == if Has(old(rows), id, now) then Some(old(rows)[id]) else None
    {
      if id !in rows {
        return None;
      }
      if rows[id].expiresAt <= now {
        rows := rows - {id};
        return None;
      }
      row := Some(rows[id]);
    }

    /** Prunes what has expired and gives the key the longest remaining time to live. */
    method Retain(now: int)
      requires 0 <= now
      modifies this`rows, this`expireAt
      ensures Valid() && rows == Live(old(rows), now)
    {
      var latest := 0;
      var fields := rows.Keys;
      ghost var done := {};
      while fields != {}
        invariant fields !! done && fields + done == old(rows.Keys)
        invariant rows.Keys <= old(rows.Keys) && fields <= rows.Keys
        invariant forall id :: id in rows ==> rows[id] == old(rows)[id]
        invariant forall id :: id in done ==> (id in rows <==> now < old(rows)[id].expiresAt)
        invariant forall id :: id in done && id in rows ==> rows[id].expiresAt <= latest
        invariant latest == 0 || exists id :: id in done && id in rows && rows[id].expiresAt == latest
        invariant latest == 0 || now < latest
        invariant forall id :: id in done && id in rows ==> now < latest
        decreases fields
      {
        var id :| id in fields;
        var row := Active(id, now);
        if row.Some? && latest < row.value.expiresAt {
          latest := row.value.expiresAt;
        }
        fields, done := fields - {id}, done + {id};
      }
      assert rows == Live(old(rows), now);
      if now < latest {
        expireAt := Some(latest);
      } else {
        rows, expireAt := map[], None;
      }
    }

    method CreateScript(now: int, expected: Generation, id: SessionId, row: Row) returns (n: int)
      requires Valid() && 0 <= now
      modifies this
      ensures ScriptStep(old(Contents()), Create(expected, id, row), now, Contents())
      ensures Code(n) == ReplyOf(old(Contents()), Create(expected, id, row), now)
    {
      if generation != expected {
        return 0;
      }
      rows := rows[id := row];
      Retain(now);
      n := 1;
    }

    method GetScript(now: int, id: SessionId) returns (row: Option<Row>)
      requires Valid() && 0 <= now
      modifies this
      ensures ScriptStep(old(Contents()), Get(id), now, Contents())
      ensures Found(row) == ReplyOf(old(Contents()), Get(id), now)
    {
      row := Active(id, now);
      Retain(now);
    }

    method RotateScript(now: int, id: SessionId, previous: Digest, next: Digest, credential: Digest, ttl: int)
      returns (n: int)
      requires Valid() && 0 <= now
      modifies this
      ensures ScriptStep(old(Contents()), Rotate(id, previous, next, credential, ttl), now, Contents())
      ensures Code(n) == ReplyOf(old(Contents()), Rotate(id, previous, next, credential, ttl), now)
    {
      if ttl <= 0 {
        return -2;
      }
      var row := Active(id, now);
      if row.None? || row.value.refresh != previous || row.value.credential != credential {
        Retain(now);
        return 0;
      }
      rows := rows[id := row.value.(refresh := next, lastUsedAt := now, expiresAt := now + ttl)];
      Retain(now);
      n := 1;
    }

    /** The reply is the rows of the hash after pruning; None is the refusal {-1}. */
    method ListScript(now: int, caller: SessionId) returns (found: Option<map<SessionId, Row>>)
      requires Valid() && 0 <= now
      modifies this
      ensures ScriptStep(old(Contents()), List(caller), now, Contents())
      ensures ReplyOf(old(Contents()), List(caller), now) == if found.Some? then Listed(found.value) else Code(-1)
    {
      var row := Active(caller, now);
      Retain(now);
      if row.None? {
        return None;
      }
      found := Some(rows);
    }

    method RevokeScript(now: int, caller: Option<SessionId>, target: SessionId) returns (n: int)
      requires Valid() && 0 <= now
      modifies this
      ensures ScriptStep(old(Contents()), Revoke(caller, target), now, Contents())
      ensures Code(n) == ReplyOf(old(Contents()), Revoke(caller, target), now)
    {
      if caller.Some? {
        var row := Active(caller.value, now);
        if row.None? {
          Retain(now);
          return -1;
        }
      }
      var row := Active(target, now);
      rows := rows - {target};
      Retain(now);
      n := if row.None? then 0 else 1;
    }

    method RevokeAllScript(now: int, caller: Option<SessionId>, marker: Generation) returns (n: int)
      requires Valid() && 0 <= now
      modifies this
      ensures ScriptStep(old(Contents()), RevokeAll(caller, marker), now, Contents())
      ensures Code(n) == ReplyOf(old(Contents()), RevokeAll(caller, marker), now)
    {
      if caller.Some? {
        var row := Active(caller.value, now);
        if row.None? {
          Retain(now);
          return 0;
        }
      }
      rows, expireAt := map[], None;
      generation := marker;
      n := 1;
    }
  }

  // ---- the hash refines the ideal table --------------------------------------------------

  /** The same sessions are alive, now and at every later moment, and the markers agree. */
  ghost predicate Refines(k: Keys, s: Ideal, now: int) {
    && TtlOk(k) && k.generation == s.generation
    && forall t :: now <= t ==> Live(k.rows, t) == Live(s.table, t)
  }

  lemma LiveTwice(rows: map<SessionId, Row>, now: int, t: int)
    requires now <= t
    ensures Live(Live(rows, now), t) == Live(rows, t)
  {
  }

  lemma AliveNowAliveLater(k: map<SessionId, Row>, s: map<SessionId, Row>, now: int)
    requires Live(k, now) == Live(s, now)
    ensures forall t :: now <= t ==> Live(k, t) == Live(s, t)
  {
    forall t | now <= t ensures Live(k, t) == Live(s, t) {
      LiveTwice(k, now, t);
      LiveTwice(s, now, t);
    }
  }

  lemma HasAgrees(k: map<SessionId, Row>, s: map<SessionId, Row>, id: SessionId, now: int)
    requires Live(k, now) == Live(s, now)
    ensures Has(k, id, now) == Has(s, id, now)
    ensures Has(k, id, now) ==> k[id] == s[id]
  {
    assert Has(k, id, now) <==> id in Live(k, now);
    assert Has(s, id, now) <==> id in Live(s, now);
    assert id in Live(k, now) ==> Live(k, now)[id] == k[id] && Live(s, now)[id] == s[id];
  }

  lemma LiveUpdate(k: map<SessionId, Row>, s: map<SessionId, Row>, id: SessionId, row: Row, now: int)
    requires Live(k, now) == Live(s, now)
    ensures Live(k[id := row], now) == Live(s[id := row], now)
  {
    forall other ensures Has(k, other, now) == Has(s, other, now) && (Has(k, other, now) ==> k[other] == s[other]) {
      HasAgrees(k, s, other, now);
    }
  }

  lemma LiveRemove(k: map<SessionId, Row>, s: map<SessionId, Row>, id: SessionId, now: int)
    requires Live(k, now) == Live(s, now)
    ensures Live(k - {id}, now) == Live(s - {id}, now)
  {
    assert Live(k - {id}, now) == Live(k, now) - {id};
    assert Live(s - {id}, now) == Live(s, now) - {id};
  }

  lemma PruningIsHarmless(rows: map<SessionId, Row>, id: SessionId, now: int)
    ensures Live(Probe(rows, id, now), now) == Live(rows, now) == Live(Live(rows, now), now)
  {
  }

  lemma ReplyRefines(k: Keys, s: Ideal, op: Op, now: int)
    requires Live(k.rows, now) == Live(s.table, now) && k.generation == s.generation
    ensures ReplyOf(k, op, now) == IdealReply(s, op, now)
  {
    forall id
      ensures Has(k.rows, id, now) == Has(s.table, id, now)
      ensures Has(k.rows, id, now) ==> k.rows[id] == s.table[id]
    {
      HasAgrees(k.rows, s.table, id, now);
    }
  }

  lemma GenerationRefines(k: Keys, s: Ideal, op: Op, now: int)
    requires Live(k.rows, now) == Live(s.table, now) && k.generation == s.generation
    ensures GenerationAfter(k, op, now) == IdealStep(s, op, now).generation
  {
    if op.RevokeAll? && op.caller.Some? {
      HasAgrees(k.rows, s.table, op.caller.value, now);
    }
  }

  lemma RowsRefine(k: Keys, s: Ideal, op: Op, now: int)
    requires Live(k.rows, now) == Live(s.table, now) && k.generation == s.generation
    ensures Live(RowsAfter(k, op, now), now) == Live(IdealStep(s, op, now).table, now)
  {
    match op
    case Create(_, id, row) =>
      LiveUpdate(k.rows, s.table, id, row, now);
      LiveTwice(k.rows[id := row], now, now);
    case Get(id) =>
      PruningIsHarmless(k.rows, id, now);
    case Rotate(id, previous, next, credential, ttl) =>
      HasAgrees(k.rows, s.table, id, now);
      PruningIsHarmless(k.rows, id, now);
      LiveTwice(Probe(k.rows, id, now), now, now);
      if MayRotate(k.rows, id, previous, credential, now) {
        var row := Rotated(k.rows[id], next, ttl, now);
        LiveUpdate(k.rows, s.table, id, row, now);
        LiveTwice(k.rows[id := row], now, now);
      }
    case List(current) =>
      PruningIsHarmless(k.rows, current, now);
    case Revoke(caller, target) =>
      if caller.Some? {
        HasAgrees(k.rows, s.table, caller.value, now);
      }
      LiveTwice(k.rows, now, now);
      LiveTwice(k.rows - {target}, now, now);
      LiveRemove(k.rows, s.table, target, now);
    case RevokeAll(caller, _) =>
      if caller.Some? {
        HasAgrees(k.rows, s.table, caller.value, now);
      }
      LiveTwice(k.rows, now, now);
  }

  /** A script gives the answer the ideal table gives, and takes the same sessions away. */
  lemma ScriptRefines(k: Keys, s: Ideal, op: Op, now: int, k': Keys)
    requires Refines(k, s, now) && ScriptStep(k, op, now, k')
    ensures ReplyOf(k, op, now) == IdealReply(s, op, now)
    ensures Refines(k', IdealStep(s, op, now), now)
  {
    ReplyRefines(k, s, op, now);
    GenerationRefines(k, s, op, now);
    RowsRefine(k, s, op, now);
    AliveNowAliveLater(k'.rows, IdealStep(s, op, now).table, now);
  }

  /** Redis dropping the key never drops a session that is still alive. */
  lemma ExpiryRefines(k: Keys, s: Ideal, now: int, k': Keys)
    requires Refines(k, s, now) && ExpiryStep(k, now, k')
    ensures Refines(k', s, now)
  {
    assert Live(k.rows, now) == map[];
    AliveNowAliveLater(k'.rows, s.table, now);
  }

  datatype Event = Script(op: Op, after: Keys) | KeyExpires | TimePasses(now: int)

  /** A history of the keys, starting at `now`: scripts, key expiry and passing time. */
  ghost predicate Possible(k: Keys, now: int, events: seq<Event>)
    decreases |events|
  {
    events == [] ||
    match events[0]
    case Script(op, after) => ScriptStep(k, op, now, after) && Possible(after, now, events[1..])
    case KeyExpires =>
      var after := k.(rows := map[], expireAt := None);
      ExpiryStep(k, now, after) && Possible(after, now, events[1..])
    case TimePasses(later) => now <= later && Possible(k, later, events[1..])
  }

  /** The answers the scripts give over a history. */
  function Replies(k: Keys, now: int, events: seq<Event>): seq<Reply>
    decreases |events|
  {
    if events == [] then []
    else match events[0]
      case Script(op, after) => [ReplyOf(k, op, now)] + Replies(after, now, events[1..])
      case KeyExpires => Replies(k.(rows := map[], expireAt := None), now, events[1..])
      case TimePasses(later) => Replies(k, later, events[1..])
  }

  function IdealReplies(s: Ideal, now: int, events: seq<Event>): seq<Reply>
    decreases |events|
  {
    if events == [] then []
    else match events[0]
      case Script(op, _) => [IdealReply(s, op, now)] + IdealReplies(IdealStep(s, op, now), now, events[1..])
      case KeyExpires => IdealReplies(s, now, events[1..])
      case TimePasses(later) => IdealReplies(s, later, events[1..])
  }

  /** Over every history the hash with its one time to live answers every script as the ideal
      table would: no session outlives its own expiry, and none dies early because of pruning
      or because Redis dropped the key. */
  lemma {:induction false} HashRefinesIdeal(k: Keys, s: Ideal, now: int, events: seq<Event>)
    requires Refines(k, s, now) && Possible(k, now, events)
    ensures Replies(k, now, events) == IdealReplies(s, now, events)
    decreases |events|
  {
    if events != [] {
      match events[0]
      case Script(op, after) =>
        ScriptRefines(k, s, op, now, after);
        HashRefinesIdeal(after, IdealStep(s, op, now), now, events[1..]);
      case KeyExpires =>
        var after := k.(rows := map[], expireAt := None);
        ExpiryRefines(k, s, now, after);
        HashRefinesIdeal(after, s, now, events[1..]);
      case TimePasses(later) =>
        HashRefinesIdeal(k, s, later, events[1..]);
    }
  }

  lemma FreshKeysRefine(now: int, events: seq<Event>)
    requires Possible(NO_KEYS, now, events)
    ensures Replies(NO_KEYS, now, events) == IdealReplies(Ideal(map[], NO_GENERATION), now, events)
  {
    HashRefinesIdeal(NO_KEYS, Ideal(map[], NO_GENERATION), now, events);
  }

  // ---- what the scripts mean for one session ----------------------------------------------

  predicate AliveAt(k: Keys, id: SessionId, t: int) {
    id in k.rows && t < k.rows[id].expiresAt
  }

  /** The session is alive at the same later times as before, with the same row. */
  predicate Untouched(k: Keys, k': Keys, id: SessionId, now: int) {
    && (AliveAt(k', id, now) <==> AliveAt(k, id, now))
    && (AliveAt(k, id, now) ==> k'.rows[id] == k.rows[id])
  }

  ghost predicate OthersUntouched(k: Keys, k': Keys, id: SessionId, now: int) {
    forall other :: other != id ==> Untouched(k, k', other, now)
  }

  ghost predicate AllUntouched(k: Keys, k': Keys, now: int) {
    k'.generation == k.generation && forall id :: Untouched(k, k', id, now)
  }

  lemma CreateMeans(k: Keys, generation: Generation, id: SessionId, row: Row, now: int, k': Keys)
    requires ScriptStep(k, Create(generation, id, row), now, k')
    ensures
      var reply := ReplyOf(k, Create(generation, id, row), now);
      if generation == k.generation then
        && reply == Code(1) && k'.generation == k.generation && OthersUntouched(k, k', id, now)
        && (AliveAt(k', id, now) <==> now < row.expiresAt) && (now < row.expiresAt ==> k'.rows[id] == row)
      else reply == Code(0) && AllUntouched(k, k', now)
  {
  }

  /** An accepted rotation writes the new digest, the time of use and the new expiry into the row
      and keeps its device, its time of creation and its credential. */
  lemma RotateMeans(k: Keys, id: SessionId, previous: Digest, next: Digest, credential: Digest, ttl: int, now: int,
                    k': Keys)
    requires ScriptStep(k, Rotate(id, previous, next, credential, ttl), now, k')
    ensures
      var reply := ReplyOf(k, Rotate(id, previous, next, credential, ttl), now);
      && (reply == Code(1) <==>
            0 < ttl && AliveAt(k, id, now) && k.rows[id].refresh == previous && k.rows[id].credential == credential)
      && (reply == Code(-2) <==> ttl <= 0)
      && (reply == Code(1) ==>
            && OthersUntouched(k, k', id, now) && k'.generation == k.generation && AliveAt(k', id, now)
            && k'.rows[id].refresh == next && k'.rows[id].lastUsedAt == now && k'.rows[id].expiresAt == now + ttl
            && k'.rows[id].device == k.rows[id].device && k'.rows[id].createdAt == k.rows[id].createdAt
            && k'.rows[id].credential == k.rows[id].credential)
      && (reply != Code(1) ==> AllUntouched(k, k', now) && (reply == Code(0) || reply == Code(-2)))
  {
  }

  lemma ReadsMean(k: Keys, id: SessionId, now: int, k': Keys)
    ensures ScriptStep(k, Get(id), now, k') ==>
      && AllUntouched(k, k', now)
      && ReplyOf(k, Get(id), now) == Found(if AliveAt(k, id, now) then Some(k.rows[id]) else None)
    ensures ScriptStep(k, List(id), now, k') ==>
      && AllUntouched(k, k', now)
      && match ReplyOf(k, List(id), now)
         case Code(n) => n == -1 && !AliveAt(k, id, now)
         case Found(_) => false
         case Listed(rows) =>
           && AliveAt(k, id, now)
           && forall i :: (i in rows <==> AliveAt(k, i, now)) && (i in rows ==> rows[i] == k.rows[i])
  {
  }

  lemma RevokeMeans(k: Keys, caller: Option<SessionId>, target: SessionId, now: int, k': Keys)
    requires ScriptStep(k, Revoke(caller, target), now, k')
    ensures
      var reply := ReplyOf(k, Revoke(caller, target), now);
      if caller.Some? && !AliveAt(k, caller.value, now) then reply == Code(-1) && AllUntouched(k, k', now)
      else
        && reply == Code(if AliveAt(k, target, now) then 1 else 0)
        && target !in k'.rows && OthersUntouched(k, k', target, now) && k'.generation == k.generation
  {
  }

  lemma RevokeAllMeans(k: Keys, caller: Option<SessionId>, generation: Generation, now: int, k': Keys)
    requires ScriptStep(k, RevokeAll(caller, generation), now, k')
    ensures
      var reply := ReplyOf(k, RevokeAll(caller, generation), now);
      if caller.Some? && !AliveAt(k, caller.value, now) then reply == Code(0) && AllUntouched(k, k', now)
      else reply == Code(1) && k'.rows == map[] && k'.generation == generation
  {
  }

  // ---- how long a session lasts ------------------------------------------------------------

  function KeysAfter(k: Keys, events: seq<Event>): Keys
    decreases |events|
  {
    if events == [] then k
    else match events[0]
      case Script(_, after) => KeysAfter(after, events[1..])
      case KeyExpires => KeysAfter(k.(rows := map[], expireAt := None), events[1..])
      case TimePasses(_) => KeysAfter(k, events[1..])
  }

  function TimeAfter(now: int, events: seq<Event>): int
    decreases |events|
  {
    if events == [] then now
    else TimeAfter(if events[0].TimePasses? then events[0].now else now, events[1..])
  }

  lemma KeysFollow(k: Keys, op: Op, after: Keys, later: int, rest: seq<Event>)
    ensures KeysAfter(k, []) == k && KeysAfter(k, [Script(op, after)] + rest) == KeysAfter(after, rest)
    ensures KeysAfter(k, [TimePasses(later)] + rest) == KeysAfter(k, rest)
  {
    assert ([Script(op, after)] + rest)[1..] == rest && ([TimePasses(later)] + rest)[1..] == rest;
  }

  /** The script may change this session. */
  predicate Touches(op: Op, id: SessionId) {
    match op
    case Create(_, i, _) => i == id
    case Rotate(i, _, _, _, _) => i == id
    case Revoke(_, target) => target == id
    case RevokeAll(_, _) => true
    case _ => false
  }

  lemma ScriptLeaves(k: Keys, op: Op, now: int, k': Keys, id: SessionId)
    requires ScriptStep(k, op, now, k') && !Touches(op, id)
    ensures Untouched(k, k', id, now)
  {
    match op
    case Create(generation, i, row) => CreateMeans(k, generation, i, row, now, k');
    case Rotate(i, previous, next, credential, ttl) => RotateMeans(k, i, previous, next, credential, ttl, now, k');
    case Revoke(caller, target) => RevokeMeans(k, caller, target, now, k');
    case Get(i) => ReadsMean(k, i, now, k');
    case List(i) => ReadsMean(k, i, now, k');
    case RevokeAll(_, _) =>
  }

  /** Over every history in which nobody creates, rotates or revokes it, a session is alive at the
      end if and only if its own expiry has not come, whatever happened to the others and to the
      key that holds them all. */
  lemma {:induction false} LastsUntilExpiry(k: Keys, now: int, events: seq<Event>, id: SessionId)
    requires TtlOk(k) && Possible(k, now, events)
    requires forall e :: e in events && e.Script? ==> !Touches(e.op, id)
    ensures now <= TimeAfter(now, events)
    ensures
      var k', t := KeysAfter(k, events), TimeAfter(now, events);
      (AliveAt(k', id, t) <==> AliveAt(k, id, t)) && (AliveAt(k', id, t) ==> k'.rows[id] == k.rows[id])
    decreases |events|
  {
    if events != [] {
      var rest := events[1..];
      match events[0]
      case Script(op, after) =>
        assert events[0] in events;
        ScriptLeaves(k, op, now, after, id);
        LastsUntilExpiry(after, now, rest, id);
      case KeyExpires =>
        LastsUntilExpiry(k.(rows := map[], expireAt := None), now, rest, id);
      case TimePasses(later) =>
        LastsUntilExpiry(k, later, rest, id);
    }
  }

  /** So a rotation at `now` keeps its session alive at exactly the times before now + ttl. */
  lemma RotationLasts(k: Keys, id: SessionId, previous: Digest, next: Digest, credential: Digest, ttl: int, now: int,
                      k': Keys, events: seq<Event>)
    requires ScriptStep(k, Rotate(id, previous, next, credential, ttl), now, k')
    requires ReplyOf(k, Rotate(id, previous, next, credential, ttl), now) == Code(1)
    requires Possible(k', now, events) && forall e :: e in events && e.Script? ==> !Touches(e.op, id)
    ensures
      var end, t := KeysAfter(k', events), TimeAfter(now, events);
      && (AliveAt(end, id, t) <==> t < now + ttl)
      && (t < now + ttl ==> end.rows[id].refresh == next && end.rows[id].credential == credential)
  {
    RotateMeans(k, id, previous, next, credential, ttl, now, k');
    LastsUntilExpiry(k', now, events, id);
  }
}
