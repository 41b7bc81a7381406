/** Login, refresh, password reset and revocation of one account as they interleave. */
module AuthProtocol {
  import opened Wrappers
  import opened Sessions

  // Each step is one SQL statement or one Redis script; nothing spans the two stores.  The
  // password hash is named by the number of the update that stored it (every hash has its own
  // salt, so no two updates store the same one), tokens and session ids are fresh, and a
  // digest stands for what it is the digest of.

  type ProcessId = nat

  datatype Process =
    | LoginStart
    | LoginRead(hash: nat)                              // user found by email
    | LoginMarked(hash: nat, generation: Generation)    // revocation marker read
    | LoginMatched(hash: nat, generation: Generation)   // password compared
    | LoginVerified(hash: nat, generation: Generation)  // user read again, same hash
    | RefreshStart(token: Digest, id: SessionId)
    | RefreshRead(token: Digest, id: SessionId, hash: nat)
    | RefreshChecked(token: Digest, id: SessionId, hash: nat)
    | ResetStart(ticket: nat)
    | ResetAllowed(ticket: nat)                         // reset token consumed
    | ResetStored(version: nat)                         // password updated
    | Ended(ok: bool)

  /** The last seven fields are history: the reset tokens and markers ever issued, the newest password
      update whose revocation has run, the refresh tokens each session went through, the
      credential it was created with, the refresh tokens and reset tokens that were accepted. */
  datatype Auth = Auth(
    keys: Keys, now: int, password: nat, procs: map<ProcessId, Process>, tickets: set<nat>,
    usedTickets: set<nat>, markers: set<Generation>, fence: nat,
    chains: map<SessionId, seq<Digest>>, credentials: map<SessionId, nat>,
    spent: seq<Digest>, redeemed: seq<nat>)

  datatype Step =
    | Spawn(pid: ProcessId, process: Process)
    | ReadUser(pid: ProcessId)
    | ReadMarker(pid: ProcessId)
    | ComparePassword(pid: ProcessId)
    | ReadUserAgain(pid: ProcessId)
    | StoreSession(pid: ProcessId, id: SessionId, row: Row, after: Keys)
    | ReadSession(pid: ProcessId, after: Keys)
    | RotateSession(pid: ProcessId, next: Digest, ttl: int, after: Keys)
    | SendTicket(ticket: nat)
    | ConsumeTicket(pid: ProcessId)
    | TicketExpires(ticket: nat)
    | StorePassword(pid: ProcessId)
    | RevokeEverything(pid: ProcessId, generation: Generation, after: Keys)
    | OtherScript(op: Op, after: Keys)    // list, revoke one, revoke all by the user, get
    | KeyExpires
    | TimePasses(now: int)
    | Fail(pid: ProcessId)                // an error or a refusal ends the request

  function Last(chain: seq<Digest>): Digest
    requires chain != []
  {
    chain[|chain| - 1]
  }

  function ChainOf(chains: map<SessionId, seq<Digest>>, id: SessionId): seq<Digest> {
    if id in chains then chains[id] else []
  }

  /** The refresh token was handed out in this session. */
  predicate Issued(chains: map<SessionId, seq<Digest>>, token: Digest) {
    exists id :: id in chains && token in chains[id]
  }

  /** The script a step runs, when it runs one. */
  function OpOf(s: Auth, step: Step): Option<Op> {
    match step
    case StoreSession(pid, id, row, _) =>
      if pid in s.procs && s.procs[pid].LoginVerified? then Some(Create(s.procs[pid].generation, id, row)) else None
    case ReadSession(pid, _) =>
      if pid in s.procs && s.procs[pid].RefreshRead? then Some(Get(s.procs[pid].id)) else None
    case RotateSession(pid, next, ttl, _) =>
      if pid in s.procs && s.procs[pid].RefreshChecked?
      then Some(Rotate(s.procs[pid].id, s.procs[pid].token, next, s.procs[pid].hash, ttl)) else None
    case RevokeEverything(pid, generation, _) =>
      if pid in s.procs && s.procs[pid].ResetStored? then Some(RevokeAll(None, generation)) else None
    case OtherScript(op, _) => if op.Create? || op.Rotate? then None else Some(op)
    case _ => None
  }

  predicate IsScript(step: Step) {
    step.StoreSession? || step.ReadSession? || step.RotateSession? || step.RevokeEverything? || step.OtherScript?
  }

  ghost predicate Enabled(s: Auth, step: Step) {
    match step
    case Spawn(pid, process) => pid !in s.procs && (process.LoginStart? || process.RefreshStart? || process.ResetStart?)
    case ReadUser(pid) => pid in s.procs && (s.procs[pid].LoginStart? || s.procs[pid].RefreshStart?)
    case ReadMarker(pid) => pid in s.procs && s.procs[pid].LoginRead?
    case ComparePassword(pid) => pid in s.procs && s.procs[pid].LoginMarked?
    case ReadUserAgain(pid) => pid in s.procs && s.procs[pid].LoginMatched?
    case SendTicket(ticket) => ticket !in s.usedTickets
    case ConsumeTicket(pid) => pid in s.procs && s.procs[pid].ResetStart?
    case TicketExpires(_) => true
    case StorePassword(pid) => pid in s.procs && s.procs[pid].ResetAllowed?
    case KeyExpires => ExpiryStep(s.keys, s.now, s.keys.(rows := map[], expireAt := None))
    case TimePasses(now) => s.now <= now
    case Fail(pid) => pid in s.procs && !s.procs[pid].Ended?
    case _ => ScriptEnabled(s, step)
  }

  /** The script runs for the request that asks for it; new markers, session ids and refresh
      tokens were never used before. */
  ghost predicate ScriptEnabled(s: Auth, step: Step)
    requires IsScript(step)
  {
    && OpOf(s, step).Some?
    && ScriptStep(s.keys, OpOf(s, step).value, s.now, step.after)
    && (OpOf(s, step).value.RevokeAll? ==> OpOf(s, step).value.generation !in s.markers)
    && (step.StoreSession? ==>
          && step.id !in s.chains && !Issued(s.chains, step.row.refresh)
          && step.row.credential == s.procs[step.pid].hash)
    && (step.RotateSession? ==> !Issued(s.chains, step.next))
  }

  /** The script was accepted: a session stored or a token rotated. */
  predicate Accepted(s: Auth, step: Step) {
    (step.StoreSession? || step.RotateSession?)
    && OpOf(s, step).Some? && ReplyOf(s.keys, OpOf(s, step).value, s.now) == Code(1)
  }

  function Moved(s: Auth, pid: ProcessId, process: Process): Auth {
    s.(procs := s.procs[pid := process])
  }

  /** The second read of the user, and the check on what GetSession returned. */
  function AfterReadAgain(p: Process, password: nat): Process
    requires p.LoginMatched?
  {
    if p.hash == password then LoginVerified(p.hash, p.generation) else Ended(false)
  }

  function AfterReadSession(p: Process, rows: map<SessionId, Row>, now: int): Process
    requires p.RefreshRead?
  {
    if Has(rows, p.id, now) && rows[p.id].credential == p.hash then RefreshChecked(p.token, p.id, p.hash)
    else Ended(false)
  }

  ghost function Apply(s: Auth, step: Step): Auth
    requires Enabled(s, step)
  {
    match step
    case Spawn(pid, process) => Moved(s, pid, process)
    case ReadUser(pid) =>
      var p := s.procs[pid];
      Moved(s, pid, if p.RefreshStart? then RefreshRead(p.token, p.id, s.password) else LoginRead(s.password))
    case ReadMarker(pid) => Moved(s, pid, LoginMarked(s.procs[pid].hash, s.keys.generation))
    case ComparePassword(pid) => Moved(s, pid, LoginMatched(s.procs[pid].hash, s.procs[pid].generation))
    case ReadUserAgain(pid) => Moved(s, pid, AfterReadAgain(s.procs[pid], s.password))
    case StoreSession(pid, id, row, after) =>
      var s' := Moved(s, pid, Ended(Accepted(s, step))).(keys := after);
      if Accepted(s, step)
      then s'.(chains := s.chains[id := [row.refresh]], credentials := s.credentials[id := row.credential])
      else s'
    case ReadSession(pid, after) =>
      Moved(s, pid, AfterReadSession(s.procs[pid], s.keys.rows, s.now)).(keys := after)
    case RotateSession(pid, next, ttl, after) =>
      var p := s.procs[pid];
      var s' := Moved(s, pid, Ended(Accepted(s, step))).(keys := after);
      if Accepted(s, step)
      then s'.(chains := s.chains[p.id := ChainOf(s.chains, p.id) + [next]], spent := s.spent + [p.token])
      else s'
    case SendTicket(ticket) => s.(tickets := s.tickets + {ticket}, usedTickets := s.usedTickets + {ticket})
    case ConsumeTicket(pid) =>
      var ticket := s.procs[pid].ticket;
      if ticket in s.tickets
      then Moved(s, pid, ResetAllowed(ticket)).(tickets := s.tickets - {ticket}, redeemed := s.redeemed + [ticket])
      else Moved(s, pid, Ended(false))
    case TicketExpires(ticket) => s.(tickets := s.tickets - {ticket})
    case StorePassword(pid) => Moved(s, pid, ResetStored(s.password + 1)).(password := s.password + 1)
    case RevokeEverything(pid, generation, after) =>
      Moved(s, pid, Ended(true)).(keys := after, markers := s.markers + {generation},
                                  fence := Newer(s.fence, s.procs[pid].version))
    case OtherScript(op, after) =>
      s.(keys := after, markers := if op.RevokeAll? then s.markers + {op.generation} else s.markers)
    case KeyExpires => s.(keys := s.keys.(rows := map[], expireAt := None))
    case TimePasses(now) => s.(now := now)
    case Fail(pid) => Moved(s, pid, Ended(false))
  }

  /** Every stored row belongs to a session the history knows. */
  predicate Known(s: Auth) {
    s.keys.rows.Keys <= s.chains.Keys && s.chains.Keys == s.credentials.Keys
  }

  function Newer(a: nat, b: nat): nat {
    if a <= b then b else a
  }

  const START := Auth(NO_KEYS, 0, 0, map[], {}, {}, {NO_GENERATION}, 0, map[], map[], [], [])

  /** Where the rows of the hash come from. */
  lemma RowsOrigin(k: Keys, op: Op, now: int, id: SessionId)
    requires id in RowsAfter(k, op, now)
    ensures
      var row := RowsAfter(k, op, now)[id];
      || (id in k.rows && row == k.rows[id])
      || (op.Create? && op.generation == k.generation && id == op.id && row == op.row)
      || (op.Rotate? && 0 < op.ttl && id == op.id && MayRotate(k.rows, id, op.previous, op.credential, now)
          && row == Rotated(k.rows[id], op.next, op.ttl, now))
  {
  }

  // ---- the fence ---------------------------------------------------------------------------

  predicate ProcessFenced(s: Auth, p: Process) {
    && (p.LoginMarked? || p.LoginMatched? || p.LoginVerified? ==> p.generation in s.markers)
    && (p.LoginVerified? && p.generation == s.keys.generation ==> s.fence <= p.hash)
    && (p.ResetStored? ==> p.version <= s.password)
  }

  /** No stored session carries a credential older than the newest completed reset, and no
      login that may still store one does. */
  predicate Fenced(s: Auth) {
    s.fence <= s.password && s.keys.generation in s.markers && RowsFenced(s) && ProcessesFenced(s)
  }

  predicate RowsFenced(s: Auth) {
    forall id :: id in s.keys.rows ==> s.fence <= s.keys.rows[id].credential
  }

  predicate ProcessesFenced(s: Auth) {
    forall pid :: pid in s.procs ==> ProcessFenced(s, s.procs[pid])
  }

  lemma ScriptKeepsRowsFenced(s: Auth, step: Step)
    requires Known(s) && Fenced(s) && Enabled(s, step) && IsScript(step)
    ensures RowsFenced(Apply(s, step))
  {
    var s' := Apply(s, step);
    var op := OpOf(s, step).value;
    forall id | id in s'.keys.rows ensures s'.fence <= s'.keys.rows[id].credential {
      RowsOrigin(s.keys, op, s.now, id);
    }
  }

  lemma ScriptKeepsProcessesFenced(s: Auth, step: Step)
    requires Known(s) && Fenced(s) && Enabled(s, step) && IsScript(step)
    ensures ProcessesFenced(Apply(s, step))
  {
  }

  lemma ScriptKeepsFence(s: Auth, step: Step)
    requires Known(s) && Fenced(s) && Enabled(s, step) && IsScript(step)
    ensures Fenced(Apply(s, step))
  {
    ScriptKeepsRowsFenced(s, step);
    ScriptKeepsProcessesFenced(s, step);
  }

  lemma StepKeepsFence(s: Auth, step: Step)
    requires Known(s) && Fenced(s) && Enabled(s, step)
    ensures Fenced(Apply(s, step)) && s.fence <= Apply(s, step).fence
  {
    if IsScript(step) {
      ScriptKeepsFence(s, step);
    }
  }

  // ---- the refresh tokens of a session -------------------------------------------------------

  /** Positions of accepted refresh tokens determine session and place: no token was handed
      out twice. */
  predicate TokensUnique(chains: map<SessionId, seq<Digest>>) {
    forall id, id', i, i' ::
      (&& id in chains && id' in chains && 0 <= i < |chains[id]| && 0 <= i' < |chains[id']|
       && chains[id][i] == chains[id'][i'])
      ==> id == id' && i == i'
  }

  /** The token was exchanged: it is in some chain and not at its end. */
  predicate Exchanged(chains: map<SessionId, seq<Digest>>, token: Digest) {
    exists id, i :: id in chains && 0 <= i < |chains[id]| - 1 && chains[id][i] == token
  }

  /** Each stored row carries the last token of its session's chain and the credential the
      session began with. */
  predicate RowsLinked(rows: map<SessionId, Row>, chains: map<SessionId, seq<Digest>>,
                       credentials: map<SessionId, nat>) {
    && rows.Keys <= chains.Keys && chains.Keys == credentials.Keys
    && (forall id :: id in chains ==> chains[id] != [])
    && (forall id :: id in rows ==> rows[id].refresh == Last(chains[id]) && rows[id].credential == credentials[id])
  }

  /** Accepted tokens are pairwise different and none is a chain's last. */
  predicate SpentOnce(chains: map<SessionId, seq<Digest>>, spent: seq<Digest>) {
    && (forall token :: token in spent ==> Exchanged(chains, token))
    && (forall i, j :: 0 <= i < j < |spent| ==> spent[i] != spent[j])
  }

  predicate Chained(s: Auth) {
    && Known(s) && RowsLinked(s.keys.rows, s.chains, s.credentials)
    && TokensUnique(s.chains) && SpentOnce(s.chains, s.spent)
  }

  lemma NewChain(chains: map<SessionId, seq<Digest>>, id: SessionId, token: Digest)
    requires TokensUnique(chains) && id !in chains && !Issued(chains, token)
    ensures TokensUnique(chains[id := [token]])
    ensures forall t :: Exchanged(chains, t) ==> Exchanged(chains[id := [token]], t)
  {
    var chains' := chains[id := [token]];
    forall t | Exchanged(chains, t) ensures Exchanged(chains', t) {
      var a, i :| a in chains && 0 <= i < |chains[a]| - 1 && chains[a][i] == t;
      assert chains'[a] == chains[a];
    }
  }

  lemma LongerChain(chains: map<SessionId, seq<Digest>>, id: SessionId, token: Digest)
    requires TokensUnique(chains) && id in chains && chains[id] != [] && !Issued(chains, token)
    ensures TokensUnique(chains[id := chains[id] + [token]])
    ensures Exchanged(chains[id := chains[id] + [token]], Last(chains[id]))
    ensures forall t :: Exchanged(chains, t) ==> Exchanged(chains[id := chains[id] + [token]], t)
    ensures !Exchanged(chains, Last(chains[id]))
  {
    var chains' := chains[id := chains[id] + [token]];
    assert chains'[id][|chains[id]| - 1] == Last(chains[id]);
    forall t | Exchanged(chains, t) ensures Exchanged(chains', t) {
      var a, i :| a in chains && 0 <= i < |chains[a]| - 1 && chains[a][i] == t;
      assert chains'[a][i] == t;
    }
    forall a, b, i, j | a in chains' && b in chains' && 0 <= i < |chains'[a]| && 0 <= j < |chains'[b]|
                        && chains'[a][i] == chains'[b][j]
      ensures a == b && i == j
    {
      assert i < |chains[a]| ==> chains'[a][i] == chains[a][i] && chains[a][i] in chains[a];
      assert j < |chains[b]| ==> chains'[b][j] == chains[b][j] && chains[b][j] in chains[b];
    }
  }

  /** The rows of a script are old ones, but for one that was just written. */
  predicate OneWritten(rows: map<SessionId, Row>, rows': map<SessionId, Row>, id: SessionId, row: Row) {
    forall i :: i in rows' ==> (i in rows && rows'[i] == rows[i] && i != id) || (i == id && rows'[i] == row)
  }

  lemma NewRow(rows: map<SessionId, Row>, rows': map<SessionId, Row>, chains: map<SessionId, seq<Digest>>,
               credentials: map<SessionId, nat>, id: SessionId, row: Row)
    requires RowsLinked(rows, chains, credentials) && id !in chains && OneWritten(rows, rows', id, row)
    ensures RowsLinked(rows', chains[id := [row.refresh]], credentials[id := row.credential])
  {
  }

  lemma RotatedRow(rows: map<SessionId, Row>, rows': map<SessionId, Row>, chains: map<SessionId, seq<Digest>>,
                   credentials: map<SessionId, nat>, id: SessionId, row: Row)
    requires RowsLinked(rows, chains, credentials) && id in rows && OneWritten(rows, rows', id, row)
    requires row.credential == rows[id].credential
    ensures RowsLinked(rows', chains[id := chains[id] + [row.refresh]], credentials)
  {
  }

  lemma StoreKeepsChains(s: Auth, step: Step)
    requires Chained(s) && Enabled(s, step) && step.StoreSession?
    ensures Chained(Apply(s, step))
  {
    if Accepted(s, step) {
      NewChain(s.chains, step.id, step.row.refresh);
      NewRow(s.keys.rows, step.after.rows, s.chains, s.credentials, step.id, step.row);
    } else {
      RefusedScript(s, step);
      FewerRows(s, Apply(s, step));
    }
  }

  /** An accepted rotation wrote one row and exchanged the token that was the last. */
  lemma AcceptedRotation(s: Auth, step: Step)
    requires Chained(s) && Enabled(s, step) && step.RotateSession? && Accepted(s, step)
    ensures
      var p := s.procs[step.pid];
      && MayRotate(s.keys.rows, p.id, p.token, p.hash, s.now)
      && OneWritten(s.keys.rows, step.after.rows, p.id, Rotated(s.keys.rows[p.id], step.next, step.ttl, s.now))
  {
  }

  lemma SpentMore(chains: map<SessionId, seq<Digest>>, id: SessionId, token: Digest, spent: seq<Digest>)
    requires TokensUnique(chains) && SpentOnce(chains, spent)
    requires id in chains && chains[id] != [] && !Issued(chains, token)
    ensures SpentOnce(chains[id := chains[id] + [token]], spent + [Last(chains[id])])
  {
    LongerChain(chains, id, token);
  }

  lemma RotateKeepsChains(s: Auth, step: Step)
    requires Chained(s) && Enabled(s, step) && step.RotateSession?
    ensures Chained(Apply(s, step))
  {
    var p := s.procs[step.pid];
    if Accepted(s, step) {
      AcceptedRotation(s, step);
      var row := Rotated(s.keys.rows[p.id], step.next, step.ttl, s.now);
      LongerChain(s.chains, p.id, step.next);
      SpentMore(s.chains, p.id, step.next, s.spent);
      RotatedRow(s.keys.rows, step.after.rows, s.chains, s.credentials, p.id, row);
    } else {
      RefusedScript(s, step);
      FewerRows(s, Apply(s, step));
    }
  }

  /** A script that was refused only prunes. */
  lemma RefusedScript(s: Auth, step: Step)
    requires Known(s) && Enabled(s, step) && (step.StoreSession? || step.RotateSession?) && !Accepted(s, step)
    ensures forall id :: id in step.after.rows ==> id in s.keys.rows && step.after.rows[id] == s.keys.rows[id]
  {
  }

  lemma OtherScriptKeepsChains(s: Auth, step: Step)
    requires Chained(s) && Enabled(s, step) && IsScript(step) && !step.StoreSession? && !step.RotateSession?
    ensures Chained(Apply(s, step))
  {
    var s' := Apply(s, step);
    forall id | id in s'.keys.rows ensures id in s.keys.rows && s'.keys.rows[id] == s.keys.rows[id] {
      RowsOrigin(s.keys, OpOf(s, step).value, s.now, id);
    }
    FewerRows(s, s');
  }

  lemma FewerRows(s: Auth, s': Auth)
    requires Chained(s) && s'.chains == s.chains && s'.credentials == s.credentials && s'.spent == s.spent
    requires forall id :: id in s'.keys.rows ==> id in s.keys.rows && s'.keys.rows[id] == s.keys.rows[id]
    ensures Chained(s')
  {
  }

  lemma StepKeepsChains(s: Auth, step: Step)
    requires Chained(s) && Enabled(s, step)
    ensures Chained(Apply(s, step))
  {
    if step.StoreSession? {
      StoreKeepsChains(s, step);
    } else if step.RotateSession? {
      RotateKeepsChains(s, step);
    } else if IsScript(step) {
      OtherScriptKeepsChains(s, step);
    }
  }

  // ---- reset tokens ----------------------------------------------------------------------------

  predicate TicketsOnce(tickets: set<nat>, usedTickets: set<nat>, redeemed: seq<nat>) {
    && tickets <= usedTickets
    && (forall t :: t in redeemed ==> t in usedTickets && t !in tickets)
    && (forall i, j :: 0 <= i < j < |redeemed| ==> redeemed[i] != redeemed[j])
  }

  // ---- whole runs --------------------------------------------------------------------------------

  predicate Inv(s: Auth) {
    Chained(s) && Fenced(s) && TicketsOnce(s.tickets, s.usedTickets, s.redeemed)
  }

  lemma StepKeepsTickets(s: Auth, step: Step)
    requires Known(s) && TicketsOnce(s.tickets, s.usedTickets, s.redeemed) && Enabled(s, step)
    ensures var s' := Apply(s, step); TicketsOnce(s'.tickets, s'.usedTickets, s'.redeemed)
  {
  }

  lemma StepKeepsInv(s: Auth, step: Step)
    requires Inv(s) && Enabled(s, step)
    ensures Inv(Apply(s, step)) && Apply(s, step).now == if step.TimePasses? then step.now else s.now
  {
    StepKeepsChains(s, step);
    StepKeepsFence(s, step);
    StepKeepsTickets(s, step);
  }

  ghost predicate Legal(s: Auth, steps: seq<Step>)
    decreases |steps|
  {
    steps == [] || (Enabled(s, steps[0]) && Legal(Apply(s, steps[0]), steps[1..]))
  }

  ghost function Run(s: Auth, steps: seq<Step>): Auth
    requires Legal(s, steps)
    decreases |steps|
  {
    if steps == [] then s else Run(Apply(s, steps[0]), steps[1..])
  }

  lemma {:induction false} RunKeepsInv(s: Auth, steps: seq<Step>)
    requires Inv(s) && Legal(s, steps)
    ensures Inv(Run(s, steps))
    decreases |steps|
  {
    if steps != [] {
      StepKeepsInv(s, steps[0]);
      RunKeepsInv(Apply(s, steps[0]), steps[1..]);
    }
  }

  lemma {:induction false} FenceHolds(s: Auth, steps: seq<Step>)
    requires Inv(s) && Legal(s, steps)
    ensures s.fence <= Run(s, steps).fence
    decreases |steps|
  {
    if steps != [] {
      StepKeepsInv(s, steps[0]);
      StepKeepsFence(s, steps[0]);
      FenceHolds(Apply(s, steps[0]), steps[1..]);
    }
  }

  /** Once the revocation of a password reset has run, then whatever logins, refreshes and
      other resets were or are under way, no stored session carries a credential older than
      the password that reset stored, ever again. */
  lemma ResetFencesSessions(s: Auth, pid: ProcessId, generation: Generation, after: Keys, steps: seq<Step>)
    requires Inv(s) && Enabled(s, RevokeEverything(pid, generation, after))
    requires Legal(Apply(s, RevokeEverything(pid, generation, after)), steps)
    ensures
      var rows := Run(Apply(s, RevokeEverything(pid, generation, after)), steps).keys.rows;
      forall id :: id in rows ==> s.procs[pid].version <= rows[id].credential
  {
    StepKeepsInv(s, RevokeEverything(pid, generation, after));
    FenceHolds(Apply(s, RevokeEverything(pid, generation, after)), steps);
    RunKeepsInv(Apply(s, RevokeEverything(pid, generation, after)), steps);
  }

  /** A revocation marker that is no longer current. */
  predicate OldMarker(s: Auth, generation: Generation) {
    generation in s.markers && generation != s.keys.generation
  }

  lemma {:induction false} OldMarkerStaysOld(s: Auth, steps: seq<Step>, generation: Generation)
    requires Inv(s) && Legal(s, steps) && OldMarker(s, generation)
    ensures OldMarker(Run(s, steps), generation)
    decreases |steps|
  {
    if steps != [] {
      StepKeepsInv(s, steps[0]);
      OldMarkerStaysOld(Apply(s, steps[0]), steps[1..], generation);
    }
  }

  /** A login that read the marker before some revocation ends refused, however late it tries
      to store its session: the script answers 0 and writes nothing. */
  lemma LateLoginIsRefused(s: Auth, steps: seq<Step>, step: Step)
    requires Inv(s) && Legal(s, steps) && Enabled(Run(s, steps), step) && step.StoreSession?
    requires OldMarker(s, Run(s, steps).procs[step.pid].generation)
    ensures
      var s' := Run(s, steps);
      && ReplyOf(s'.keys, OpOf(s', step).value, s'.now) == Code(0)
      && Apply(s', step).keys.rows == s'.keys.rows
      && Apply(s', step).procs[step.pid] == Ended(false)
  {
    RunKeepsInv(s, steps);
    OldMarkerStaysOld(s, steps, Run(s, steps).procs[step.pid].generation);
  }

  /** The login cannot succeed any more: it has read a password that was replaced and will
      read it again, or it carries a marker that was replaced. */
  predicate Overtaken(s: Auth, pid: ProcessId) {
    pid in s.procs &&
    match s.procs[pid]
    case LoginRead(hash) => hash < s.password
    case LoginMarked(hash, generation) => hash < s.password || OldMarker(s, generation)
    case LoginMatched(hash, generation) => hash < s.password || OldMarker(s, generation)
    case LoginVerified(_, generation) => OldMarker(s, generation)
    case Ended(ok) => !ok
    case _ => false
  }

  lemma OtherScriptKeepsOvertaken(s: Auth, step: Step, pid: ProcessId)
    requires Known(s) && Enabled(s, step) && step.OtherScript? && Overtaken(s, pid)
    ensures Overtaken(Apply(s, step), pid)
  {
  }

  lemma ScriptKeepsOvertaken(s: Auth, step: Step, pid: ProcessId)
    requires Known(s) && Enabled(s, step) && IsScript(step) && Overtaken(s, pid)
    ensures Overtaken(Apply(s, step), pid)
  {
    if step.OtherScript? {
      OtherScriptKeepsOvertaken(s, step, pid);
    }
  }

  lemma StepKeepsOvertaken(s: Auth, step: Step, pid: ProcessId)
    requires Known(s) && Enabled(s, step) && Overtaken(s, pid)
    ensures Overtaken(Apply(s, step), pid)
  {
    if IsScript(step) {
      ScriptKeepsOvertaken(s, step, pid);
    }
  }

  lemma {:induction false} OvertakenForever(s: Auth, steps: seq<Step>, pid: ProcessId)
    requires Inv(s) && Legal(s, steps) && Overtaken(s, pid)
    ensures Overtaken(Run(s, steps), pid)
    decreases |steps|
  {
    if steps != [] {
      StepKeepsInv(s, steps[0]);
      StepKeepsOvertaken(s, steps[0], pid);
      OvertakenForever(Apply(s, steps[0]), steps[1..], pid);
    }
  }

  /** A login under way when the revocation of a reset runs is refused in the end if it has
      read its marker already, or if the password it read is older than the one the reset
      stored. */
  lemma RevocationRefusesLogins(s: Auth, reset: ProcessId, generation: Generation, after: Keys, pid: ProcessId,
                                steps: seq<Step>)
    requires Inv(s) && Enabled(s, RevokeEverything(reset, generation, after))
    requires Legal(Apply(s, RevokeEverything(reset, generation, after)), steps)
    requires pid in s.procs
    requires
      match s.procs[pid]
      case LoginRead(hash) => hash < s.procs[reset].version
      case p => p.LoginMarked? || p.LoginMatched? || p.LoginVerified?
    ensures
      var s' := Run(Apply(s, RevokeEverything(reset, generation, after)), steps);
      Overtaken(s', pid) && s'.procs[pid] != Ended(true)
  {
    assert ProcessFenced(s, s.procs[pid]) && ProcessFenced(s, s.procs[reset]);
    StepKeepsInv(s, RevokeEverything(reset, generation, after));
    OvertakenForever(Apply(s, RevokeEverything(reset, generation, after)), steps, pid);
  }

  /** Over every run: each refresh token is accepted at most once, the stored digest is always
      that of the last token handed out in the session, and a session keeps the credential it
      was created with. */
  lemma RotationIsALinearChain(steps: seq<Step>, id: SessionId)
    requires Legal(START, steps)
    ensures
      var s := Run(START, steps);
      && (forall i, j :: 0 <= i < j < |s.spent| ==> s.spent[i] != s.spent[j])
      && (id in s.keys.rows ==>
            && id in s.chains && s.chains[id] != [] && s.keys.rows[id].refresh == Last(s.chains[id])
            && s.keys.rows[id].refresh !in s.spent
            && id in s.credentials && s.keys.rows[id].credential == s.credentials[id])
  {
    RunKeepsInv(START, steps);
  }

  /** The session existed and is not alive any more. */
  predicate Gone(s: Auth, id: SessionId) {
    id in s.chains && !Has(s.keys.rows, id, s.now)
  }

  lemma StepKeepsGone(s: Auth, step: Step, id: SessionId)
    requires Known(s) && Enabled(s, step) && Gone(s, id)
    ensures Gone(Apply(s, step), id)
  {
    if IsScript(step) {
      ScriptKeepsGone(s, step, id);
    }
  }

  lemma ScriptKeepsGone(s: Auth, step: Step, id: SessionId)
    requires Known(s) && Enabled(s, step) && IsScript(step) && Gone(s, id)
    ensures Gone(Apply(s, step), id)
  {
    var op := OpOf(s, step).value;
    if id in RowsAfter(s.keys, op, s.now) {
      RowsOrigin(s.keys, op, s.now, id);
    }
  }

  /** A session that was revoked, replaced by nothing or left to expire never comes back. */
  lemma {:induction false} GoneForever(s: Auth, steps: seq<Step>, id: SessionId)
    requires Inv(s) && Legal(s, steps) && Gone(s, id)
    ensures Gone(Run(s, steps), id)
    decreases |steps|
  {
    if steps != [] {
      StepKeepsInv(s, steps[0]);
      StepKeepsGone(s, steps[0], id);
      GoneForever(Apply(s, steps[0]), steps[1..], id);
    }
  }

  /** The refresh will be refused: its session was created under an older password than the
      one it reads. */
  predicate Doomed(s: Auth, pid: ProcessId) {
    pid in s.procs &&
    match s.procs[pid]
    case RefreshStart(_, id) => id in s.credentials && s.credentials[id] < s.password
    case RefreshRead(_, id, hash) => id in s.credentials && s.credentials[id] < hash
    case Ended(ok) => !ok
    case _ => false
  }

  lemma OtherScriptKeepsDoomed(s: Auth, step: Step, pid: ProcessId)
    requires Chained(s) && Enabled(s, step) && step.OtherScript? && Doomed(s, pid)
    ensures Doomed(Apply(s, step), pid)
  {
  }

  lemma ScriptKeepsDoomed(s: Auth, step: Step, pid: ProcessId)
    requires Chained(s) && Enabled(s, step) && IsScript(step) && Doomed(s, pid)
    ensures Doomed(Apply(s, step), pid)
  {
    if step.OtherScript? {
      OtherScriptKeepsDoomed(s, step, pid);
    }
  }

  lemma StepKeepsDoomed(s: Auth, step: Step, pid: ProcessId)
    requires Chained(s) && Enabled(s, step) && Doomed(s, pid)
    ensures Doomed(Apply(s, step), pid)
  {
    if IsScript(step) {
      ScriptKeepsDoomed(s, step, pid);
    }
  }

  /** After a password change every refresh of a session from before it is refused, whether or
      not the revocation that should follow the change ever runs. */
  lemma {:induction false} RefreshAfterPasswordChange(s: Auth, steps: seq<Step>, pid: ProcessId)
    requires Inv(s) && Legal(s, steps) && Doomed(s, pid)
    ensures Doomed(Run(s, steps), pid) && Run(s, steps).procs[pid] != Ended(true)
    decreases |steps|
  {
    if steps != [] {
      StepKeepsInv(s, steps[0]);
      StepKeepsDoomed(s, steps[0], pid);
      RefreshAfterPasswordChange(Apply(s, steps[0]), steps[1..], pid);
    }
  }

  /** A token that was sent can be used until it expires. */
  lemma TicketIsSent(s: Auth, ticket: nat)
    requires Enabled(s, SendTicket(ticket))
    ensures ticket in Apply(s, SendTicket(ticket)).tickets
    ensures ticket !in Apply(s, TicketExpires(ticket)).tickets
  {
  }

  /** Redis may drop the hash when its time has come, and any request may fail. */
  lemma SurroundingsAct(s: Auth, pid: ProcessId)
    requires Enabled(s, Fail(pid))
    ensures Apply(s, Fail(pid)).procs == s.procs[pid := Ended(false)]
    ensures s.keys.expireAt.Some? && s.keys.expireAt.value <= s.now ==>
      Enabled(s, Step.KeyExpires) && Apply(s, Step.KeyExpires).keys.rows == map[]
  {
  }

  /** A user may list, look up and revoke sessions at any moment. */
  lemma OthersMayRun(s: Auth, op: Op, after: Keys)
    requires ScriptStep(s.keys, op, s.now, after) && (op.RevokeAll? ==> op.generation !in s.markers)
    ensures op.Get? || op.List? || op.Revoke? || op.RevokeAll? ==>
      Enabled(s, OtherScript(op, after)) && Apply(s, OtherScript(op, after)).keys == after
  {
  }

  /** A password reset token is accepted at most once, however many requests present it. */
  lemma ResetTokenOnce(steps: seq<Step>)
    requires Legal(START, steps)
    ensures
      var redeemed := Run(START, steps).redeemed;
      forall i, j :: 0 <= i < j < |redeemed| ==> redeemed[i] != redeemed[j]
  {
    RunKeepsInv(START, steps);
  }

  // ---- requests that meet nobody ---------------------------------------------------------

  lemma RunOne(s: Auth, step: Step, rest: seq<Step>)
    requires Enabled(s, step) && Legal(Apply(s, step), rest)
    ensures Legal(s, [step] + rest) && Run(s, [step] + rest) == Run(Apply(s, step), rest)
  {
    assert ([step] + rest)[1..] == rest;
  }

  predicate At(s: Auth, pid: ProcessId, p: Process) {
    pid in s.procs && s.procs[pid] == p
  }

  function StoreSteps(pid: ProcessId, id: SessionId, row: Row, after: Keys): seq<Step> {
    [ReadUserAgain(pid)] + ([StoreSession(pid, id, row, after)] + [])
  }

  function LoginSteps(pid: ProcessId, id: SessionId, row: Row, after: Keys): seq<Step> {
    [Spawn(pid, LoginStart)] + ([ReadUser(pid)] + MatchSteps(pid, id, row, after))
  }

  function MatchSteps(pid: ProcessId, id: SessionId, row: Row, after: Keys): seq<Step> {
    [ReadMarker(pid)] + ([ComparePassword(pid)] + StoreSteps(pid, id, row, after))
  }

  /** What a row needs to be stored by a login that is not disturbed. */
  ghost predicate Storable(s: Auth, id: SessionId, row: Row, after: Keys) {
    && id !in s.chains && !Issued(s.chains, row.refresh) && row.credential == s.password
    && ScriptStep(s.keys, Create(s.keys.generation, id, row), s.now, after)
  }

  ghost predicate LoggedIn(s: Auth, s': Auth, pid: ProcessId, id: SessionId, row: Row, after: Keys) {
    At(s', pid, Ended(true)) && s'.keys == after && s'.chains == s.chains[id := [row.refresh]]
  }

  lemma StoreAlone(s: Auth, pid: ProcessId, id: SessionId, row: Row, after: Keys)
    requires Known(s) && At(s, pid, LoginMatched(s.password, s.keys.generation)) && Storable(s, id, row, after)
    ensures
      var steps := StoreSteps(pid, id, row, after);
      Legal(s, steps) && LoggedIn(s, Run(s, steps), pid, id, row, after)
  {
    var s1 := Apply(s, ReadUserAgain(pid));
    RunOne(s1, StoreSession(pid, id, row, after), []);
    RunOne(s, ReadUserAgain(pid), [StoreSession(pid, id, row, after)] + []);
  }

  lemma MatchAlone(s: Auth, pid: ProcessId, id: SessionId, row: Row, after: Keys)
    requires Known(s) && At(s, pid, LoginRead(s.password)) && Storable(s, id, row, after)
    ensures
      var steps := MatchSteps(pid, id, row, after);
      Legal(s, steps) && LoggedIn(s, Run(s, steps), pid, id, row, after)
  {
    var s1 := Apply(s, ReadMarker(pid));
    StoreAlone(Apply(s1, ComparePassword(pid)), pid, id, row, after);
    RunOne(s1, ComparePassword(pid), StoreSteps(pid, id, row, after));
    RunOne(s, ReadMarker(pid), [ComparePassword(pid)] + StoreSteps(pid, id, row, after));
  }

  /** A login with the right password and nobody in between stores its session. */
  lemma LoginAlone(s: Auth, pid: ProcessId, id: SessionId, row: Row, after: Keys)
    requires Known(s) && pid !in s.procs && Storable(s, id, row, after)
    ensures
      var steps := LoginSteps(pid, id, row, after);
      Legal(s, steps) && LoggedIn(s, Run(s, steps), pid, id, row, after)
  {
    var s1 := Apply(s, Spawn(pid, LoginStart));
    MatchAlone(Apply(s1, ReadUser(pid)), pid, id, row, after);
    RunOne(s1, ReadUser(pid), MatchSteps(pid, id, row, after));
    RunOne(s, Spawn(pid, LoginStart), [ReadUser(pid)] + MatchSteps(pid, id, row, after));
  }

  function RotateSteps(pid: ProcessId, next: Digest, ttl: int, read: Keys, after: Keys): seq<Step> {
    [ReadSession(pid, read)] + ([RotateSession(pid, next, ttl, after)] + [])
  }

  /** What the rotation script needs to accept, and what acceptance leaves. */
  ghost predicate Rotatable(s: Auth, id: SessionId, token: Digest, next: Digest, ttl: int) {
    !Issued(s.chains, next) && 0 < ttl && MayRotate(s.keys.rows, id, token, s.password, s.now)
  }

  ghost predicate Refreshed(s: Auth, s': Auth, pid: ProcessId, id: SessionId, token: Digest, next: Digest,
                            after: Keys) {
    && At(s', pid, Ended(true)) && s'.keys == after && s'.spent == s.spent + [token]
    && id in s.chains && s'.chains == s.chains[id := s.chains[id] + [next]]
  }

  lemma RotateAlone(s: Auth, pid: ProcessId, id: SessionId, token: Digest, next: Digest, ttl: int, read: Keys,
                    after: Keys)
    requires Known(s) && At(s, pid, RefreshRead(token, id, s.password)) && Rotatable(s, id, token, next, ttl)
    requires ScriptStep(s.keys, Get(id), s.now, read)
    requires ScriptStep(read, Rotate(id, token, next, s.password, ttl), s.now, after)
    ensures
      var steps := RotateSteps(pid, next, ttl, read, after);
      Legal(s, steps) && Refreshed(s, Run(s, steps), pid, id, token, next, after)
  {
    assert id in read.rows && read.rows[id] == s.keys.rows[id];
    RunOne(s, ReadSession(pid, read), [RotateSession(pid, next, ttl, after)] + []);
  }

  /** A refresh with the current token of a living session under the current password, and
      nobody in between, is accepted and extends the chain. */
  lemma RefreshAlone(s: Auth, pid: ProcessId, id: SessionId, token: Digest, next: Digest, ttl: int, read: Keys,
                     after: Keys)
    requires Known(s) && pid !in s.procs && Rotatable(s, id, token, next, ttl)
    requires ScriptStep(s.keys, Get(id), s.now, read)
    requires ScriptStep(read, Rotate(id, token, next, s.password, ttl), s.now, after)
    ensures
      var steps := [Spawn(pid, RefreshStart(token, id))] + ([ReadUser(pid)] + RotateSteps(pid, next, ttl, read, after));
      Legal(s, steps) && Refreshed(s, Run(s, steps), pid, id, token, next, after)
  {
    var s1 := Apply(s, Spawn(pid, RefreshStart(token, id)));
    RotateAlone(Apply(s1, ReadUser(pid)), pid, id, token, next, ttl, read, after);
    RunOne(s1, ReadUser(pid), RotateSteps(pid, next, ttl, read, after));
    RunOne(s, Spawn(pid, RefreshStart(token, id)), [ReadUser(pid)] + RotateSteps(pid, next, ttl, read, after));
  }

  function RevokeSteps(pid: ProcessId, generation: Generation, after: Keys): seq<Step> {
    [StorePassword(pid)] + ([RevokeEverything(pid, generation, after)] + [])
  }

  /** The reset is over: no session, and the fence at the present password. */
  predicate Revoked(s: Auth, s': Auth, pid: ProcessId) {
    && At(s', pid, Ended(true)) && s'.keys.rows == map[] && s'.fence == s'.password == s.password
  }

  lemma RevokeAlone(s: Auth, pid: ProcessId, ticket: nat, generation: Generation, after: Keys)
    requires Inv(s) && At(s, pid, ResetAllowed(ticket)) && generation !in s.markers
    requires ScriptStep(s.keys, RevokeAll(None, generation), s.now, after)
    ensures
      var steps := RevokeSteps(pid, generation, after);
      Legal(s, steps) && At(Run(s, steps), pid, Ended(true)) && Run(s, steps).keys.rows == map[]
      && Run(s, steps).fence == Run(s, steps).password == s.password + 1
      && Run(s, steps).tickets == s.tickets && Run(s, steps).redeemed == s.redeemed
  {
    var s1 := Apply(s, StorePassword(pid));
    RunOne(s, StorePassword(pid), [RevokeEverything(pid, generation, after)] + []);
  }

  /** A reset with a valid token and nobody in between leaves no session and moves the fence
      to the new password. */
  lemma ResetAlone(s: Auth, pid: ProcessId, ticket: nat, generation: Generation, after: Keys)
    requires Inv(s) && pid !in s.procs && ticket in s.tickets && generation !in s.markers
    requires ScriptStep(s.keys, RevokeAll(None, generation), s.now, after)
    ensures
      var steps := [Spawn(pid, ResetStart(ticket))] + ([ConsumeTicket(pid)] + RevokeSteps(pid, generation, after));
      Legal(s, steps) && At(Run(s, steps), pid, Ended(true)) && Run(s, steps).keys.rows == map[]
      && Run(s, steps).fence == Run(s, steps).password == s.password + 1
      && Run(s, steps).tickets == s.tickets - {ticket} && Run(s, steps).redeemed == s.redeemed + [ticket]
  {
    var s1 := Apply(s, Spawn(pid, ResetStart(ticket)));
    RevokeAlone(Apply(s1, ConsumeTicket(pid)), pid, ticket, generation, after);
    RunOne(s1, ConsumeTicket(pid), RevokeSteps(pid, generation, after));
    RunOne(s, Spawn(pid, ResetStart(ticket)), [ConsumeTicket(pid)] + RevokeSteps(pid, generation, after));
  }
}
