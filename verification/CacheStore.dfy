/** GetOrLoadJSON for one key in one process: any number of requests and background refreshes
    share one in-flight load and one Redis entry.  Redis answers every command; a loader run is
    named by a fresh number, which also stands for the value it returned. */
module CacheStore {
  import opened Wrappers

  type ProcessId = nat
  type LoadId = nat

  /** `ttl` is how long a value is fresh, `stale` how much longer it may be served, in
      milliseconds.  Both come from the environment unchecked. */
  datatype Config = Config(ttl: int, stale: int)

  datatype Cell =
    | Empty
    | Junk                                                     // not an envelope
    | Envelope(value: LoadId, fetchedAt: int, expireAt: Option<int>)

  datatype Process =
    | Asking                                                   // first GET to be sent
    | Dropping                                                 // DEL of an unreadable value
    | Joining                                                  // about to enter singleflight
    | Waiting(leader: ProcessId)
    | Rechecking                                               // leader: second GET
    | Loading(id: LoadId)
    | Storing(id: LoadId, fetchedAt: int)
    | Ending(result: Option<LoadId>)
    | Returned(value: LoadId)
    | Failed

  /** A loader run; `after` is the fetch time of the entry it replaces, unless that entry was
      deleted or overwritten from outside in the meantime. */
  datatype Load = Load(startedAt: int, after: Option<int>)

  /** `flight` is the key's entry in the singleflight group.  History: loader runs started, fetch
      times of the values they returned, when each value was stored last, the newest value stored
      here, and whether something else touched the key since. */
  datatype Store = Store(
    config: Config, now: int, cell: Cell, flight: Option<ProcessId>, procs: map<ProcessId, Process>,
    loads: map<LoadId, Load>, fetched: map<LoadId, int>, stored: map<LoadId, int>,
    newest: Option<LoadId>, touched: bool)

  function Start(config: Config): Store {
    Store(config, 0, Empty, None, map[], map[], map[], map[], None, false)
  }

  datatype Step =
    | Arrive(pid: ProcessId)
    | FirstGet(pid: ProcessId, refresher: ProcessId)
    | DropJunk(pid: ProcessId)
    | Enter(pid: ProcessId)
    | SecondGet(pid: ProcessId, id: LoadId)
    | LoaderReturns(pid: ProcessId, ok: bool)
    | Set(pid: ProcessId)
    | Leave(pid: ProcessId)
    | KeyExpires
    | Outside(cell: Cell)                                      // Delete, or a write of another shape
    | Foreign(id: LoadId, fetchedAt: int)                      // another instance loaded and stored
    | Tick(now: int)

  /** SET with an expiration: one that is not positive is not sent, and the key never expires. */
  function Expiry(config: Config, now: int): Option<int> {
    if config.ttl + config.stale <= 0 then None else Some(now + config.ttl + config.stale)
  }

  predicate Expired(cell: Cell, now: int) {
    cell.Envelope? && cell.expireAt.Some? && cell.expireAt.value < now
  }

  /** What a GET finds: Redis hides a key whose time to live has passed. */
  function Visible(cell: Cell, now: int): Cell {
    if Expired(cell, now) then Empty else cell
  }

  function Seen(s: Store): Cell {
    Visible(s.cell, s.now)
  }

  predicate Fresh(s: Store) {
    Seen(s).Envelope? && s.now - Seen(s).fetchedAt <= s.config.ttl
  }

  predicate At(s: Store, pid: ProcessId, p: Process) {
    pid in s.procs && s.procs[pid] == p
  }

  predicate Enabled(s: Store, step: Step) {
    match step
    case Arrive(pid) => pid !in s.procs
    case FirstGet(pid, refresher) => At(s, pid, Asking) && refresher !in s.procs
    case DropJunk(pid) => At(s, pid, Dropping)
    case Enter(pid) => At(s, pid, Joining)
    case SecondGet(pid, id) => At(s, pid, Rechecking) && id !in s.loads
    case LoaderReturns(pid, _) => pid in s.procs && s.procs[pid].Loading?
    case Set(pid) => pid in s.procs && s.procs[pid].Storing?
    case Leave(pid) => pid in s.procs && s.procs[pid].Ending?
    case KeyExpires => Expired(s.cell, s.now)
    case Outside(cell) => !cell.Envelope?
    case Foreign(id, fetchedAt) => id !in s.loads && fetchedAt <= s.now
    case Tick(now) => s.now <= now
  }

  /** When the newest value was fetched. */
  function FetchTime(s: Store): Option<int> {
    if s.newest.Some? && s.newest.value in s.fetched then Some(s.fetched[s.newest.value]) else None
  }

  function Moved(s: Store, pid: ProcessId, p: Process): Store {
    s.(procs := s.procs[pid := p])
  }

  function Outcome(result: Option<LoadId>): Process {
    if result.Some? then Returned(result.value) else Failed
  }

  /** What a request does after its first GET. */
  function FirstAnswer(seen: Cell): Process {
    match seen
    case Empty => Joining
    case Junk => Dropping
    case Envelope(value, _, _) => Returned(value)
  }

  /** The leader leaves the group and everybody who waited gets its result. */
  function Woken(procs: map<ProcessId, Process>, leader: ProcessId, result: Option<LoadId>): map<ProcessId, Process> {
    map pid | pid in procs ::
      if pid == leader || procs[pid] == Waiting(leader) then Outcome(result) else procs[pid]
  }

  function Apply(s: Store, step: Step): Store
    requires Enabled(s, step)
  {
    match step
    case Arrive(pid) => Moved(s, pid, Asking)
    case FirstGet(pid, refresher) =>
      var s' := Moved(s, pid, FirstAnswer(Seen(s)));
      if Seen(s).Envelope? && !Fresh(s) then Moved(s', refresher, Joining) else s'
    case DropJunk(pid) => Moved(s, pid, Joining).(cell := Empty, touched := true)
    case Enter(pid) =>
      if s.flight.None? then Moved(s, pid, Rechecking).(flight := Some(pid))
      else Moved(s, pid, Waiting(s.flight.value))
    case SecondGet(pid, id) =>
      if Fresh(s) then Moved(s, pid, Ending(Some(s.cell.value)))
      else Moved(s, pid, Loading(id)).(loads := s.loads[id := Load(s.now, if s.touched then None else FetchTime(s))])
    case LoaderReturns(pid, ok) =>
      var id := s.procs[pid].id;
      if ok then Moved(s, pid, Storing(id, s.now)).(fetched := s.fetched[id := s.now])
      else Moved(s, pid, Ending(None))
    case Set(pid) =>
      var p := s.procs[pid];
      Moved(s, pid, Ending(Some(p.id))).(
        cell := Envelope(p.id, p.fetchedAt, Expiry(s.config, s.now)),
        stored := s.stored[p.id := s.now], newest := Some(p.id), touched := false)
    case Leave(pid) => s.(procs := Woken(s.procs, pid, s.procs[pid].result), flight := None)
    case KeyExpires => s.(cell := Empty)
    case Outside(cell) => s.(cell := cell, touched := true)
    case Foreign(id, fetchedAt) =>
      s.(cell := Envelope(id, fetchedAt, Expiry(s.config, s.now)), touched := true,
         loads := s.loads[id := Load(fetchedAt, None)], fetched := s.fetched[id := fetchedAt],
         stored := s.stored[id := s.now])
    case Tick(now) => s.(now := now)
  }

  /** The process is running loadAndStore. */
  predicate Leads(p: Process) {
    p.Rechecking? || p.Loading? || p.Storing? || p.Ending?
  }

  /** Only the process named in the group runs loadAndStore, and only for it does anybody wait. */
  predicate FlightInv(s: Store) {
    && (forall pid :: pid in s.procs && Leads(s.procs[pid]) ==> s.flight == Some(pid))
    && (s.flight.Some? ==> s.flight.value in s.procs && Leads(s.procs[s.flight.value]))
    && (forall pid :: pid in s.procs && s.procs[pid].Waiting? ==> s.flight == Some(s.procs[pid].leader))
  }

  /** Every value around came from a loader run that returned, with its own fetch time. */
  predicate ValueInv(s: Store) {
    && s.fetched.Keys <= s.loads.Keys
    && (s.cell.Envelope? ==>
          s.cell.value in s.stored && s.cell.expireAt == Expiry(s.config, s.stored[s.cell.value]))
    && (s.cell.Envelope? ==> s.cell.value in s.fetched && s.fetched[s.cell.value] == s.cell.fetchedAt)
    && (forall pid :: pid in s.procs ==> ProcessValue(s.procs[pid], s.loads, s.fetched, s.now))
  }

  predicate ProcessValue(p: Process, loads: map<LoadId, Load>, fetched: map<LoadId, int>, now: int) {
    match p
    case Loading(id) => id in loads && id !in fetched
    case Storing(id, fetchedAt) => id in fetched && fetched[id] == fetchedAt && fetchedAt <= now
    case Ending(result) => result.Some? ==> result.value in fetched
    case Returned(value) => value in fetched
    case _ => true
  }

  /** Redis does not drop a value while it is fresh. */
  predicate KeepsFresh(config: Config) {
    0 <= config.stale || config.ttl + config.stale <= 0
  }

  /** While nobody else touches the key its newest value stays in it, until it has been there for
      `ttl + stale` if that is positive. */
  predicate CellInv(s: Store) {
    !s.touched ==>
      match s.newest
      case None => s.cell.Empty?
      case Some(id) =>
        && id in s.stored && id in s.fetched && s.fetched[id] <= s.stored[id]
        && if s.cell.Envelope? then s.cell.value == id
           else s.cell.Empty? && 0 < s.config.ttl + s.config.stale < s.now - s.stored[id]
  }

  /** No load starts while the value before it is fresh. */
  predicate SpacingInv(s: Store) {
    forall id :: id in s.loads && s.loads[id].after.Some? ==>
      s.loads[id].after.value + s.config.ttl < s.loads[id].startedAt
  }

  predicate Inv(s: Store) {
    FlightInv(s) && ValueInv(s) && CellInv(s) && (KeepsFresh(s.config) ==> SpacingInv(s))
  }

  /** Moving one process that neither leads nor waits, before or after, keeps the group right. */
  lemma BystanderMoves(s: Store, pid: ProcessId, p: Process)
    requires FlightInv(s) && !Leads(p) && !p.Waiting?
    requires pid in s.procs ==> !Leads(s.procs[pid])
    ensures FlightInv(Moved(s, pid, p))
  {
  }

  lemma LeaderMoves(s: Store, pid: ProcessId, p: Process)
    requires FlightInv(s) && Leads(p) && pid in s.procs && Leads(s.procs[pid])
    ensures FlightInv(Moved(s, pid, p))
  {
  }

  lemma LeaderLeaves(s: Store, pid: ProcessId)
    requires FlightInv(s) && Enabled(s, Leave(pid))
    ensures FlightInv(Apply(s, Leave(pid)))
  {
    var procs := Woken(s.procs, pid, s.procs[pid].result);
    forall other | other in procs ensures !Leads(procs[other]) && !procs[other].Waiting? {
      assert Leads(s.procs[other]) ==> other == pid;
    }
  }

  lemma FirstGetKeepsFlight(s: Store, pid: ProcessId, refresher: ProcessId)
    requires FlightInv(s) && Enabled(s, FirstGet(pid, refresher))
    ensures FlightInv(Apply(s, FirstGet(pid, refresher)))
  {
    var p := FirstAnswer(Seen(s));
    BystanderMoves(s, pid, p);
    BystanderMoves(Moved(s, pid, p), refresher, Joining);
  }

  lemma LeaderStepKeepsFlight(s: Store, step: Step)
    requires FlightInv(s) && Enabled(s, step) && (step.SecondGet? || step.LoaderReturns? || step.Set?)
    ensures FlightInv(Apply(s, step))
  {
    LeaderMoves(s, step.pid, Apply(s, step).procs[step.pid]);
  }

  lemma StepKeepsFlight(s: Store, step: Step)
    requires FlightInv(s) && Enabled(s, step)
    ensures FlightInv(Apply(s, step))
  {
    match step
    case Arrive(pid) => BystanderMoves(s, pid, Asking);
    case FirstGet(pid, refresher) => FirstGetKeepsFlight(s, pid, refresher);
    case DropJunk(pid) => BystanderMoves(s, pid, Joining);
    case Leave(pid) => LeaderLeaves(s, pid);
    case SecondGet(_, _) => LeaderStepKeepsFlight(s, step);
    case LoaderReturns(_, _) => LeaderStepKeepsFlight(s, step);
    case Set(_) => LeaderStepKeepsFlight(s, step);
    case _ =>
  }

  /** The only process that is loading is the one whose loader returns. */
  lemma ReturnKeepsValues(s: Store, pid: ProcessId, ok: bool)
    requires FlightInv(s) && ValueInv(s) && Enabled(s, LoaderReturns(pid, ok))
    ensures ValueInv(Apply(s, LoaderReturns(pid, ok)))
  {
    var s' := Apply(s, LoaderReturns(pid, ok));
    forall other | other in s'.procs ensures ProcessValue(s'.procs[other], s'.loads, s'.fetched, s'.now) {
      assert ProcessValue(s.procs[other], s.loads, s.fetched, s.now);
      assert Leads(s.procs[other]) ==> other == pid;
    }
    assert ProcessValue(s.procs[pid], s.loads, s.fetched, s.now);
  }

  lemma LeaveKeepsValues(s: Store, pid: ProcessId)
    requires ValueInv(s) && Enabled(s, Leave(pid))
    ensures ValueInv(Apply(s, Leave(pid)))
  {
    var s' := Apply(s, Leave(pid));
    assert ProcessValue(s.procs[pid], s.loads, s.fetched, s.now);
    forall other | other in s'.procs ensures ProcessValue(s'.procs[other], s'.loads, s'.fetched, s'.now) {
      assert ProcessValue(s.procs[other], s.loads, s.fetched, s.now);
    }
  }

  lemma SecondGetKeepsValues(s: Store, pid: ProcessId, id: LoadId)
    requires ValueInv(s) && Enabled(s, SecondGet(pid, id))
    ensures ValueInv(Apply(s, SecondGet(pid, id)))
  {
    var s' := Apply(s, SecondGet(pid, id));
    forall other | other in s'.procs ensures ProcessValue(s'.procs[other], s'.loads, s'.fetched, s'.now) {
      assert ProcessValue(s.procs[other], s.loads, s.fetched, s.now);
    }
  }

  lemma SetKeepsValues(s: Store, pid: ProcessId)
    requires ValueInv(s) && Enabled(s, Set(pid))
    ensures ValueInv(Apply(s, Set(pid)))
  {
    assert ProcessValue(s.procs[pid], s.loads, s.fetched, s.now);
  }

  lemma ForeignKeepsValues(s: Store, id: LoadId, fetchedAt: int)
    requires ValueInv(s) && Enabled(s, Foreign(id, fetchedAt))
    ensures ValueInv(Apply(s, Foreign(id, fetchedAt)))
  {
    var s' := Apply(s, Foreign(id, fetchedAt));
    forall pid | pid in s'.procs ensures ProcessValue(s'.procs[pid], s'.loads, s'.fetched, s'.now) {
      assert ProcessValue(s.procs[pid], s.loads, s.fetched, s.now);
    }
  }

  lemma StepKeepsValues(s: Store, step: Step)
    requires FlightInv(s) && ValueInv(s) && Enabled(s, step)
    ensures ValueInv(Apply(s, step))
  {
    match step
    case LoaderReturns(pid, ok) => ReturnKeepsValues(s, pid, ok);
    case Leave(pid) => LeaveKeepsValues(s, pid);
    case SecondGet(pid, id) => SecondGetKeepsValues(s, pid, id);
    case Set(pid) => SetKeepsValues(s, pid);
    case Foreign(id, fetchedAt) => ForeignKeepsValues(s, id, fetchedAt);
    case _ =>
  }

  lemma StepKeepsCell(s: Store, step: Step)
    requires CellInv(s) && ValueInv(s) && Enabled(s, step)
    ensures CellInv(Apply(s, step))
  {
    match step
    case Set(pid) => assert ProcessValue(s.procs[pid], s.loads, s.fetched, s.now);
    case LoaderReturns(pid, _) => assert ProcessValue(s.procs[pid], s.loads, s.fetched, s.now);
    case _ =>
  }

  lemma StepKeepsSpacing(s: Store, step: Step)
    requires KeepsFresh(s.config) && SpacingInv(s) && CellInv(s) && ValueInv(s) && Enabled(s, step)
    ensures SpacingInv(Apply(s, step))
  {
  }

  lemma ConfigStays(s: Store, step: Step)
    requires Enabled(s, step)
    ensures Apply(s, step).config == s.config
  {
  }

  lemma StepKeepsInv(s: Store, step: Step)
    requires Inv(s) && Enabled(s, step)
    ensures Inv(Apply(s, step)) && Apply(s, step).config == s.config
  {
    StepKeepsFlight(s, step);
    StepKeepsValues(s, step);
    StepKeepsCell(s, step);
    ConfigStays(s, step);
    if KeepsFresh(s.config) {
      StepKeepsSpacing(s, step);
    }
  }

  // ---- every run -------------------------------------------------------------------------------

  predicate Legal(s: Store, steps: seq<Step>)
    decreases |steps|
  {
    steps == [] || (Enabled(s, steps[0]) && Legal(Apply(s, steps[0]), steps[1..]))
  }

  function Run(s: Store, steps: seq<Step>): Store
    requires Legal(s, steps)
    decreases |steps|
  {
    if steps == [] then s else Run(Apply(s, steps[0]), steps[1..])
  }

  lemma {:induction false} RunKeepsInv(s: Store, steps: seq<Step>)
    requires Inv(s) && Legal(s, steps)
    ensures Inv(Run(s, steps)) && Run(s, steps).config == s.config
    decreases |steps|
  {
    if steps != [] {
      StepKeepsInv(s, steps[0]);
      RunKeepsInv(Apply(s, steps[0]), steps[1..]);
    }
  }

  /** At most one loader runs at a time, however many requests and refreshes there are. */
  lemma {:induction false} OneLoaderAtATime(config: Config, steps: seq<Step>, a: ProcessId, b: ProcessId)
    requires Legal(Start(config), steps)
    requires
      var procs := Run(Start(config), steps).procs;
      a in procs && b in procs && procs[a].Loading? && procs[b].Loading?
    ensures a == b
  {
    RunKeepsInv(Start(config), steps);
  }

  predicate SpacedLoad(s: Store, load: Load) {
    load.after.Some? ==> load.after.value + s.config.ttl < load.startedAt
  }

  /** A loader run that follows a stored value, with nothing else done to the key in between,
      starts more than `ttl` after that value was fetched, if Redis keeps values that long. */
  lemma {:induction false} LoadsAreSpaced(config: Config, steps: seq<Step>, id: LoadId)
    requires KeepsFresh(config)
    requires Legal(Start(config), steps) && id in Run(Start(config), steps).loads
    ensures SpacedLoad(Run(Start(config), steps), Run(Start(config), steps).loads[id])
  {
    RunKeepsInv(Start(config), steps);
  }

  /** Every value anybody is given was returned by a loader run. */
  lemma {:induction false} ValuesComeFromLoads(config: Config, steps: seq<Step>, pid: ProcessId)
    requires Legal(Start(config), steps)
    requires pid in Run(Start(config), steps).procs && Run(Start(config), steps).procs[pid].Returned?
    ensures
      var s := Run(Start(config), steps);
      s.procs[pid].value in s.loads && s.procs[pid].value in s.fetched
  {
    RunKeepsInv(Start(config), steps);
  }

  /** A request answered without starting or joining a load, and without asking for a
      background refresh, gets a value fetched at most `ttl` ago. */
  lemma {:induction false} FreshPathIsFresh(config: Config, steps: seq<Step>, pid: ProcessId, refresher: ProcessId)
    requires Legal(Start(config), steps) && Enabled(Run(Start(config), steps), FirstGet(pid, refresher))
    ensures
      var s := Run(Start(config), steps);
      var s' := Apply(s, FirstGet(pid, refresher));
      s'.procs[pid].Returned? && refresher !in s'.procs ==>
        s'.procs[pid].value in s'.fetched && s.now - s'.fetched[s'.procs[pid].value] <= config.ttl
  {
    RunKeepsInv(Start(config), steps);
  }

  /** What this request would be answered at once was stored at most `ttl + stale` ago. */
  predicate ServedInTime(s: Store, pid: ProcessId, refresher: ProcessId)
    requires Enabled(s, FirstGet(pid, refresher))
  {
    var p := Apply(s, FirstGet(pid, refresher)).procs[pid];
    p.Returned? ==> p.value in s.stored && s.now <= s.stored[p.value] + s.config.ttl + s.config.stale
  }

  /** With a positive expiration a value is served from the cache for at most `ttl + stale`
      after it was stored. */
  lemma {:induction false} ServedWithinLimit(config: Config, steps: seq<Step>, pid: ProcessId, refresher: ProcessId)
    requires 0 < config.ttl + config.stale
    requires Legal(Start(config), steps) && Enabled(Run(Start(config), steps), FirstGet(pid, refresher))
    ensures ServedInTime(Run(Start(config), steps), pid, refresher)
  {
    RunKeepsInv(Start(config), steps);
  }

  /** Over every run: while nobody else touches the key, the value stored last is what a GET finds,
      until `ttl + stale` have passed since it was stored if that is positive, and for ever
      otherwise; Redis may not drop it before. */
  lemma {:induction false} FoundWhileItLasts(config: Config, steps: seq<Step>, id: LoadId)
    requires Legal(Start(config), steps)
    requires Run(Start(config), steps).newest == Some(id) && !Run(Start(config), steps).touched
    ensures
      var s := Run(Start(config), steps);
      && id in s.stored && id in s.fetched
      && (config.ttl + config.stale <= 0 || s.now <= s.stored[id] + config.ttl + config.stale ==>
            Seen(s).Envelope? && Seen(s).value == id && Seen(s).fetchedAt == s.fetched[id] && !Enabled(s, KeyExpires))
  {
    RunKeepsInv(Start(config), steps);
  }

  /** A request in that time is answered at once with that value, whatever the loader does: alone if
      the value is fresh, and with a background refresh about to load if it is stale. */
  lemma {:induction false} AnsweredAtOnce(config: Config, steps: seq<Step>, id: LoadId, pid: ProcessId,
                                          refresher: ProcessId)
    requires Legal(Start(config), steps) && pid != refresher
    requires Run(Start(config), steps).newest == Some(id) && !Run(Start(config), steps).touched
    requires Enabled(Run(Start(config), steps), FirstGet(pid, refresher))
    ensures
      var s := Run(Start(config), steps);
      var s' := Apply(s, FirstGet(pid, refresher));
      && id in s.stored && id in s.fetched
      && (config.ttl + config.stale <= 0 || s.now <= s.stored[id] + config.ttl + config.stale ==>
            && At(s', pid, Returned(id)) && s'.cell == s.cell
            && if s.now <= s.fetched[id] + config.ttl then refresher !in s'.procs else At(s', refresher, Joining))
  {
    FoundWhileItLasts(config, steps, id);
    RunKeepsInv(Start(config), steps);
    var s := Run(Start(config), steps);
    if Seen(s).Envelope? && Seen(s).value == id {
      FirstGetFinds(s, id, pid, refresher);
    }
  }

  lemma FirstGetFinds(s: Store, id: LoadId, pid: ProcessId, refresher: ProcessId)
    requires Enabled(s, FirstGet(pid, refresher)) && pid != refresher && Seen(s).Envelope? && Seen(s).value == id
    ensures
      var s' := Apply(s, FirstGet(pid, refresher));
      && At(s', pid, Returned(id)) && s'.cell == s.cell
      && if s.now <= Seen(s).fetchedAt + s.config.ttl then refresher !in s'.procs else At(s', refresher, Joining)
  {
  }

  /** The leader's result is everybody's: whoever comes while it is at work waits for it, and
      returns the same value in the end, or fails with it; and a leader that finds a fresh value in
      its second GET returns that one. */
  lemma ResultIsShared(s: Store, leader: ProcessId, pid: ProcessId, id: LoadId)
    ensures Enabled(s, Enter(pid)) && s.flight == Some(leader) ==> At(Apply(s, Enter(pid)), pid, Waiting(leader))
    ensures Enabled(s, Leave(leader)) && (pid == leader || At(s, pid, Waiting(leader))) ==>
      && Apply(s, Leave(leader)).flight.None?
      && At(Apply(s, Leave(leader)), pid,
            match s.procs[leader].result case None => Failed case Some(value) => Returned(value))
    ensures Enabled(s, Leave(leader)) && pid in s.procs && pid != leader && s.procs[pid] != Waiting(leader) ==>
      At(Apply(s, Leave(leader)), pid, s.procs[pid])
    ensures Enabled(s, SecondGet(leader, id)) && Seen(s).Envelope? && s.now <= Seen(s).fetchedAt + s.config.ttl ==>
      At(Apply(s, SecondGet(leader, id)), leader, Ending(Some(Seen(s).value)))
  {
  }

  /** What the surroundings may do to the key at any time. */
  lemma SurroundingsAct(s: Store, cell: Cell)
    ensures Enabled(s, KeyExpires) ==> Apply(s, KeyExpires).cell.Empty? && Apply(s, KeyExpires).touched == s.touched
    ensures !cell.Envelope? ==> Enabled(s, Outside(cell)) && Apply(s, Outside(cell)).cell == cell
    ensures !cell.Envelope? ==> Apply(s, Outside(cell)).touched
  {
  }

  // ---- the code of one request -----------------------------------------------------------------

  /** The clock readings of one request: first GET, second GET, envelope built, SET. */
  datatype Times = Times(first: int, second: int, loaded: int, stored: int)

  predicate InOrder(t: Times) {
    t.first <= t.second <= t.loaded <= t.stored
  }

  /** A request that nobody disturbs: the group is free and its names are new. */
  predicate Undisturbed(s: Store, t: Times, pid: ProcessId, refresher: ProcessId, id: LoadId) {
    && InOrder(t) && s.now == t.first && s.flight.None?
    && pid !in s.procs && refresher !in s.procs && pid != refresher && id !in s.loads
  }

  /** From this state the protocol has a run with the same answer, refresh and entry. */
  ghost predicate IsARun(s: Store, t: Times, pid: ProcessId, refresher: ProcessId, id: LoadId, loads: bool,
                         value: Option<LoadId>, refresh: bool, cell: Cell)
  {
    var steps := RequestSteps(Seen(s), t, pid, refresher, id, loads);
    && Legal(s, steps)
    && At(Run(s, steps), pid, Outcome(value)) && (refresher in Run(s, steps).procs <==> refresh)
    && Seen(Run(s, steps)) == Visible(cell, Run(s, steps).now)
  }

  /** One cache key, used by one request at a time. */
  class KeyedStore {
    const config: Config
    var cell: Cell

    constructor (config: Config)
      ensures this.config == config && cell == Empty
    {
      this.config := config;
      cell := Empty;
    }

    method LoadAndStore(t: Times, id: LoadId, loads: bool) returns (value: Option<LoadId>)
      modifies this
      ensures
        var seen := Visible(old(cell), t.second);
        if seen.Envelope? && t.second - seen.fetchedAt <= config.ttl then value == Some(seen.value) && cell == seen
        else if loads then value == Some(id) && cell == Envelope(id, t.loaded, Expiry(config, t.stored))
        else value == None && cell == seen
    {
      cell := Visible(cell, t.second);
      if cell.Envelope? && t.second - cell.fetchedAt <= config.ttl {
        return Some(cell.value);
      }
      if !loads {
        return None;
      }
      cell := Envelope(id, t.loaded, Expiry(config, t.stored));
      value := Some(id);
    }

    /** `refresh` says that a background refresh was started.  What the request does is one of the
        runs that the theorems above are about. */
    method GetOrLoadJSON(t: Times, id: LoadId, loads: bool) returns (value: Option<LoadId>, refresh: bool)
      requires InOrder(t)
      modifies this
      ensures
        var seen := Visible(old(cell), t.first);
        if seen.Envelope? then
          value == Some(seen.value) && cell == seen && (refresh <==> config.ttl < t.first - seen.fetchedAt)
        else
          && !refresh && value == (if loads then Some(id) else None)
          && cell == if loads then Envelope(id, t.loaded, Expiry(config, t.stored)) else Empty
      ensures forall s: Store, pid, refresher ::
        Undisturbed(s, t, pid, refresher, id) && s.config == config && s.cell == old(cell) ==>
          IsARun(s, t, pid, refresher, id, loads, value, refresh, cell)
    {
      ghost var before := cell;
      cell := Visible(cell, t.first);
      refresh := false;
      if cell.Envelope? && t.first - cell.fetchedAt <= config.ttl {
        value := Some(cell.value);
      } else if cell.Envelope? {
        value, refresh := Some(cell.value), true;
      } else {
        if cell.Junk? {
          cell := Empty;
        }
        value := LoadAndStore(t, id, loads);
      }
      forall s: Store, pid, refresher
        | Undisturbed(s, t, pid, refresher, id) && s.config == config && s.cell == before
        ensures IsARun(s, t, pid, refresher, id, loads, value, refresh, cell)
      {
        RequestIsARun(s, t, pid, refresher, id, loads, value, refresh, cell);
      }
    }
  }

  /** The steps of a request that meets nobody, by what its first GET sees. */
  function RequestSteps(seen: Cell, t: Times, pid: ProcessId, refresher: ProcessId, id: LoadId,
                        loads: bool): seq<Step> {
    [Arrive(pid)] + ([FirstGet(pid, refresher)] + AnswerSteps(seen, t, pid, id, loads))
  }

  function AnswerSteps(seen: Cell, t: Times, pid: ProcessId, id: LoadId, loads: bool): seq<Step> {
    match seen
    case Envelope(_, _, _) => []
    case Junk => [DropJunk(pid)] + LoadSteps(t, pid, id, loads)
    case Empty => LoadSteps(t, pid, id, loads)
  }

  function LoadSteps(t: Times, pid: ProcessId, id: LoadId, loads: bool): seq<Step> {
    [Enter(pid)] + ([Tick(t.second)] + LoaderSteps(t, pid, id, loads))
  }

  function LoaderSteps(t: Times, pid: ProcessId, id: LoadId, loads: bool): seq<Step> {
    [SecondGet(pid, id)] + ([Tick(t.loaded)] + StoreSteps(t, pid, loads))
  }

  function StoreSteps(t: Times, pid: ProcessId, loads: bool): seq<Step> {
    [LoaderReturns(pid, loads)] + if loads then [Tick(t.stored)] + ([Set(pid)] + LeaveSteps(pid)) else LeaveSteps(pid)
  }

  function LeaveSteps(pid: ProcessId): seq<Step> {
    [Leave(pid)] + []
  }

  lemma RunOne(s: Store, step: Step, rest: seq<Step>)
    requires Enabled(s, step) && Legal(Apply(s, step), rest)
    ensures Legal(s, [step] + rest) && Run(s, [step] + rest) == Run(Apply(s, step), rest)
  {
    assert ([step] + rest)[1..] == rest;
  }

  /** What a load that meets nobody ends in. */
  predicate Loaded(s: Store, s': Store, t: Times, pid: ProcessId, id: LoadId, loads: bool) {
    && At(s', pid, Outcome(if loads then Some(id) else None))
    && s'.procs.Keys == s.procs.Keys + {pid}
    && s'.flight.None? && s'.config == s.config && s'.loads.Keys <= s.loads.Keys + {id}
    && if loads then
         && s'.cell == Envelope(id, t.loaded, Expiry(s.config, t.stored)) && s'.now == t.stored
         && id in s'.stored && s'.stored[id] == t.stored && s'.newest == Some(id) && !s'.touched
         && id in s'.fetched && s'.fetched[id] == t.loaded
       else Seen(s').Empty?
  }

  lemma StoreAlone(s: Store, t: Times, pid: ProcessId, id: LoadId, loads: bool)
    requires InOrder(t) && s.now == t.loaded && At(s, pid, Loading(id)) && Seen(s).Empty?
    ensures Legal(s, StoreSteps(t, pid, loads)) && Loaded(s, Run(s, StoreSteps(t, pid, loads)), t, pid, id, loads)
  {
    var s1 := Apply(s, LoaderReturns(pid, loads));
    if loads {
      var s2 := Apply(s1, Tick(t.stored));
      var s3 := Apply(s2, Set(pid));
      RunOne(s3, Leave(pid), []);
      RunOne(s2, Set(pid), LeaveSteps(pid));
      RunOne(s1, Tick(t.stored), [Set(pid)] + LeaveSteps(pid));
      RunOne(s, LoaderReturns(pid, loads), [Tick(t.stored)] + ([Set(pid)] + LeaveSteps(pid)));
    } else {
      RunOne(s1, Leave(pid), []);
      RunOne(s, LoaderReturns(pid, loads), LeaveSteps(pid));
    }
  }

  lemma LoaderAlone(s: Store, t: Times, pid: ProcessId, id: LoadId, loads: bool)
    requires InOrder(t) && s.now == t.second && At(s, pid, Rechecking) && Seen(s).Empty? && id !in s.loads
    ensures Legal(s, LoaderSteps(t, pid, id, loads))
    ensures Loaded(s, Run(s, LoaderSteps(t, pid, id, loads)), t, pid, id, loads)
  {
    var s1 := Apply(s, SecondGet(pid, id));
    StoreAlone(Apply(s1, Tick(t.loaded)), t, pid, id, loads);
    RunOne(s1, Tick(t.loaded), StoreSteps(t, pid, loads));
    RunOne(s, SecondGet(pid, id), [Tick(t.loaded)] + StoreSteps(t, pid, loads));
  }

  lemma LoadAlone(s: Store, t: Times, pid: ProcessId, id: LoadId, loads: bool)
    requires InOrder(t) && s.now == t.first && At(s, pid, Joining) && s.flight.None?
    requires Seen(s).Empty? && id !in s.loads
    ensures Legal(s, LoadSteps(t, pid, id, loads))
    ensures Loaded(s, Run(s, LoadSteps(t, pid, id, loads)), t, pid, id, loads)
  {
    var s1 := Apply(s, Enter(pid));
    LoaderAlone(Apply(s1, Tick(t.second)), t, pid, id, loads);
    RunOne(s1, Tick(t.second), LoaderSteps(t, pid, id, loads));
    RunOne(s, Enter(pid), [Tick(t.second)] + LoaderSteps(t, pid, id, loads));
  }

  lemma AnswerAlone(s: Store, t: Times, pid: ProcessId, id: LoadId, loads: bool)
    requires InOrder(t) && s.now == t.first && s.flight.None? && !Seen(s).Envelope? && id !in s.loads
    requires At(s, pid, if Seen(s).Junk? then Dropping else Joining)
    ensures Legal(s, AnswerSteps(Seen(s), t, pid, id, loads))
    ensures Loaded(s, Run(s, AnswerSteps(Seen(s), t, pid, id, loads)), t, pid, id, loads)
  {
    if Seen(s).Junk? {
      LoadAlone(Apply(s, DropJunk(pid)), t, pid, id, loads);
      RunOne(s, DropJunk(pid), LoadSteps(t, pid, id, loads));
    } else {
      LoadAlone(s, t, pid, id, loads);
    }
  }

  lemma ArriveAlone(s: Store, pid: ProcessId, refresher: ProcessId, rest: seq<Step>)
    requires pid !in s.procs && refresher !in s.procs && pid != refresher
    requires Legal(Apply(Apply(s, Arrive(pid)), FirstGet(pid, refresher)), rest)
    ensures
      var steps := [Arrive(pid)] + ([FirstGet(pid, refresher)] + rest);
      Legal(s, steps) && Run(s, steps) == Run(Apply(Apply(s, Arrive(pid)), FirstGet(pid, refresher)), rest)
  {
    RunOne(Apply(s, Arrive(pid)), FirstGet(pid, refresher), rest);
    RunOne(s, Arrive(pid), [FirstGet(pid, refresher)] + rest);
  }

  /** The state after a first GET that found nothing to answer with. */
  predicate Missed(s: Store, s1: Store, pid: ProcessId) {
    && At(s1, pid, if Seen(s).Junk? then Dropping else Joining)
    && s1.procs.Keys == s.procs.Keys + {pid} && s1.flight == s.flight && s1.now == s.now
    && s1.cell == s.cell && s1.loads == s.loads && s1.config == s.config
  }

  lemma FirstGetMisses(s: Store, pid: ProcessId, refresher: ProcessId)
    requires pid !in s.procs && refresher !in s.procs && pid != refresher && !Seen(s).Envelope?
    ensures Missed(s, Apply(Apply(s, Arrive(pid)), FirstGet(pid, refresher)), pid)
  {
  }

  lemma MissAnswered(s: Store, s1: Store, t: Times, pid: ProcessId, refresher: ProcessId, id: LoadId, loads: bool)
    requires Undisturbed(s, t, pid, refresher, id) && !Seen(s).Envelope? && Missed(s, s1, pid)
    ensures
      var steps := AnswerSteps(Seen(s), t, pid, id, loads);
      Legal(s1, steps) && refresher !in Run(s1, steps).procs && Loaded(s1, Run(s1, steps), t, pid, id, loads)
  {
    AnswerAlone(s1, t, pid, id, loads);
  }

  /** A miss that meets nobody loads, stores and answers with what it loaded. */
  lemma MissIsARun(s: Store, t: Times, pid: ProcessId, refresher: ProcessId, id: LoadId, loads: bool)
    requires Undisturbed(s, t, pid, refresher, id) && !Seen(s).Envelope?
    ensures
      var steps := RequestSteps(Seen(s), t, pid, refresher, id, loads);
      Legal(s, steps) && refresher !in Run(s, steps).procs && Loaded(s, Run(s, steps), t, pid, id, loads)
  {
    FirstGetMisses(s, pid, refresher);
    MissAnswered(s, Apply(Apply(s, Arrive(pid)), FirstGet(pid, refresher)), t, pid, refresher, id, loads);
    ArriveAlone(s, pid, refresher, AnswerSteps(Seen(s), t, pid, id, loads));
  }

  /** A hit is answered at once: a fresh value alone, a stale one with a refresh about to join. */
  lemma HitIsARun(s: Store, t: Times, pid: ProcessId, refresher: ProcessId, id: LoadId, loads: bool)
    requires Undisturbed(s, t, pid, refresher, id) && Seen(s).Envelope?
    ensures
      var steps := RequestSteps(Seen(s), t, pid, refresher, id, loads);
      && Legal(s, steps) && Run(s, steps).cell == s.cell && Run(s, steps).now == s.now
      && At(Run(s, steps), pid, Returned(s.cell.value))
      && (refresher in Run(s, steps).procs <==> s.config.ttl < s.now - s.cell.fetchedAt)
      && (refresher in Run(s, steps).procs ==> At(Run(s, steps), refresher, Joining))
  {
    ArriveAlone(s, pid, refresher, []);
  }

  lemma RequestIsARun(s: Store, t: Times, pid: ProcessId, refresher: ProcessId, id: LoadId, loads: bool,
                      value: Option<LoadId>, refresh: bool, cell: Cell)
    requires Undisturbed(s, t, pid, refresher, id)
    requires
      var seen := Seen(s);
      if seen.Envelope? then
        value == Some(seen.value) && cell == seen && (refresh <==> s.config.ttl < t.first - seen.fetchedAt)
      else
        && !refresh && value == (if loads then Some(id) else None)
        && cell == if loads then Envelope(id, t.loaded, Expiry(s.config, t.stored)) else Empty
    ensures IsARun(s, t, pid, refresher, id, loads, value, refresh, cell)
  {
    if Seen(s).Envelope? {
      HitIsARun(s, t, pid, refresher, id, loads);
    } else {
      MissIsARun(s, t, pid, refresher, id, loads);
    }
  }

  // ---- settings that are not positive ----------------------------------------------------------

  lemma {:induction false} RunConcat(s: Store, a: seq<Step>, b: seq<Step>)
    requires Legal(s, a) && Legal(Run(s, a), b)
    ensures Legal(s, a + b) && Run(s, a + b) == Run(Run(s, a), b)
    decreases |a|
  {
    if a == [] {
      assert a + b == b;
    } else {
      RunConcat(Apply(s, a[0]), a[1..], b);
      assert (a + b)[1..] == a[1..] + b;
    }
  }

  /** The first request of all: it loads at time 0 and is answered. */
  function FirstLoad(): seq<Step> {
    RequestSteps(Empty, Times(0, 0, 0, 0), 0, 1, 0, true)
  }

  /** The state it leaves behind. */
  predicate Primed(s: Store, config: Config) {
    && s.config == config && s.now == 0 && s.cell == Envelope(0, 0, Expiry(config, 0)) && s.flight.None?
    && s.procs.Keys == {0} && s.loads.Keys <= {0} && 0 in s.stored && s.stored[0] == 0
    && s.newest == Some(0) && !s.touched && 0 in s.fetched && s.fetched[0] == 0
  }

  lemma FirstLoadRuns(config: Config) returns (s: Store)
    ensures Legal(Start(config), FirstLoad()) && s == Run(Start(config), FirstLoad()) && Primed(s, config)
  {
    MissIsARun(Start(config), Times(0, 0, 0, 0), 0, 1, 0, true);
    s := Run(Start(config), FirstLoad());
  }

  lemma Continue(s: Store, a: seq<Step>, mid: Store, b: seq<Step>)
    requires Legal(s, a) && mid == Run(s, a) && Legal(mid, b)
    ensures Legal(s, a + b) && Run(s, a + b) == Run(mid, b)
  {
    RunConcat(s, a, b);
  }

  lemma ArriveAt(s: Store, config: Config, age: nat)
    requires Primed(s, config) && config.ttl + config.stale <= 0
    ensures Legal(s, [Tick(age)] + ([Arrive(1)] + []))
    ensures
      var s' := Run(s, [Tick(age)] + ([Arrive(1)] + []));
      && Enabled(s', FirstGet(1, 2)) && s'.config == config && s'.now == age && s'.stored == s.stored
      && Apply(s', FirstGet(1, 2)).procs[1] == Returned(0)
  {
    var s1 := Apply(s, Tick(age));
    RunOne(s1, Arrive(1), []);
    RunOne(s, Tick(age), [Arrive(1)] + []);
  }

  /** Without a positive expiration a value may be served at any age. */
  lemma ServedAtAnyAge(config: Config, age: nat) returns (steps: seq<Step>)
    requires config.ttl + config.stale <= 0
    ensures Legal(Start(config), steps) && Enabled(Run(Start(config), steps), FirstGet(1, 2))
    ensures
      var s := Run(Start(config), steps);
      && s.config == config && s.now == age && 0 in s.stored && s.stored[0] == 0
      && Apply(s, FirstGet(1, 2)).procs[1] == Returned(0)
  {
    var s := FirstLoadRuns(config);
    ArriveAt(s, config, age);
    steps := [Tick(age)] + ([Arrive(1)] + []);
    Continue(Start(config), FirstLoad(), s, steps);
    steps := FirstLoad() + steps;
  }

  ghost predicate Bounded(config: Config) {
    forall steps, pid, refresher ::
      Legal(Start(config), steps) && Enabled(Run(Start(config), steps), FirstGet(pid, refresher)) ==>
        ServedInTime(Run(Start(config), steps), pid, refresher)
  }

  /** The bound on what is served holds if and only if the expiration is positive. */
  lemma BoundedIffExpiring(config: Config)
    ensures Bounded(config) <==> 0 < config.ttl + config.stale
  {
    if 0 < config.ttl + config.stale {
      forall steps, pid, refresher
        | Legal(Start(config), steps) && Enabled(Run(Start(config), steps), FirstGet(pid, refresher))
        ensures ServedInTime(Run(Start(config), steps), pid, refresher)
      {
        ServedWithinLimit(config, steps, pid, refresher);
      }
    } else {
      var steps := ServedAtAnyAge(config, 1);
      assert !ServedInTime(Run(Start(config), steps), 1, 2);
    }
  }

  /** The steps of the next request up to its load. */
  function SecondLoad(end: int): seq<Step> {
    [Tick(end)] + ([Arrive(1)] + ([FirstGet(1, 2)] + LoadAgain()))
  }

  function LoadAgain(): seq<Step> {
    [Enter(1)] + ([SecondGet(1, 1)] + [])
  }

  lemma LoadAgainRuns(s: Store)
    requires At(s, 1, Joining) && s.flight.None? && Seen(s).Empty? && 1 !in s.loads && !s.touched
    ensures Legal(s, LoadAgain())
    ensures
      var s' := Run(s, LoadAgain());
      s'.config == s.config && 1 in s'.loads && s'.loads[1] == Load(s.now, FetchTime(s))
  {
    var s1 := Apply(s, Enter(1));
    RunOne(s1, SecondGet(1, 1), []);
    RunOne(s, Enter(1), [SecondGet(1, 1)] + []);
  }

  lemma SecondLoadRuns(s: Store, end: int)
    requires Primed(s, s.config) && 0 <= end && Visible(s.cell, end).Empty?
    ensures Legal(s, SecondLoad(end))
    ensures
      var s' := Run(s, SecondLoad(end));
      s'.config == s.config && 1 in s'.loads && s'.loads[1] == Load(end, Some(0))
  {
    var s1 := Apply(s, Tick(end));
    FirstGetMisses(s1, 1, 2);
    LoadAgainRuns(Apply(Apply(s1, Arrive(1)), FirstGet(1, 2)));
    ArriveAlone(s1, 1, 2, LoadAgain());
    RunOne(s, Tick(end), [Arrive(1)] + ([FirstGet(1, 2)] + LoadAgain()));
  }

  /** As soon as Redis has dropped a value that is still fresh, it is loaded again. */
  lemma EarlyLoad(config: Config) returns (steps: seq<Step>)
    requires !KeepsFresh(config)
    ensures Legal(Start(config), steps)
    ensures
      var s := Run(Start(config), steps);
      s.config == config && 1 in s.loads && !SpacedLoad(s, s.loads[1])
  {
    var s := FirstLoadRuns(config);
    var end := config.ttl + config.stale + 1;
    SecondLoadRuns(s, end);
    Continue(Start(config), FirstLoad(), s, SecondLoad(end));
    steps := FirstLoad() + SecondLoad(end);
  }

  ghost predicate Spaced(config: Config) {
    forall steps, id :: Legal(Start(config), steps) && id in Run(Start(config), steps).loads ==>
      SpacedLoad(Run(Start(config), steps), Run(Start(config), steps).loads[id])
  }

  /** Loads are spaced if and only if Redis keeps what is fresh; with the same time for `ttl` and
      `stale`, as every caller has it, it does. */
  lemma SpacedIffKeepsFresh(config: Config)
    ensures Spaced(config) <==> KeepsFresh(config)
    ensures config.ttl == config.stale ==> Spaced(config)
  {
    if KeepsFresh(config) {
      forall steps, id | Legal(Start(config), steps) && id in Run(Start(config), steps).loads
        ensures SpacedLoad(Run(Start(config), steps), Run(Start(config), steps).loads[id])
      {
        LoadsAreSpaced(config, steps, id);
      }
      assert Spaced(config);
    } else {
      var steps := EarlyLoad(config);
      assert !Spaced(config);
    }
  }
}
