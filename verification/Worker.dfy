/** One job being processed by a worker: the goroutine that runs the handler and settles the
    job, and the goroutine that keeps its lease alive.  They interleave freely; a select with
    several ready branches may take any of them. */
module Worker {
  import opened Wrappers
  import opened JobRecords
  import opened JobQueue

  datatype Main =
    | Reserved              // the job was handed to this worker
    | Handling              // the handler runs
    | Stopping              // the handler returned and stopHeartbeat is closed
    | Checking              // the heartbeat returned nil; the context is checked next
    | Settling              // a settlement call is out
    | Finished

  datatype Beat = Idle | Selecting | Renewing | Exited(failed: bool)

  /** `result` is the handler's outcome once it returned: None is a nil error.
      `calls` lists the queue requests issued so far; the last two fields remember that a
      renewal failed and that somebody noticed a cancelled context. */
  datatype Process = Process(
    main: Main, beat: Beat, hasHandler: bool, result: Option<Option<Text>>, stopClosed: bool,
    parentCancelled: bool, handlerCancelled: bool,
    calls: seq<Request>, renewFailed: bool, cancelSeen: bool)

  const NEW_PROCESS := Process(Reserved, Idle, false, None, false, false, false, [], false, false)

  datatype Event =
    | Begin(hasHandler: bool, cause: Text)
    | HandlerReturns(error: Option<Text>)
    | ParentCancels
    | BeatStops
    | BeatSeesCancel
    | BeatTicks
    | RenewReplies(ok: bool)
    | MainReceives
    | MainChecks
    | SettlementReplies

  predicate Can(p: Process, e: Event) {
    match e
    case Begin(_, _) => p.main.Reserved?
    case HandlerReturns(_) => p.main.Handling?
    case ParentCancels => true
    case BeatStops => p.beat.Selecting? && p.stopClosed
    case BeatSeesCancel => p.beat.Selecting? && p.handlerCancelled
    case BeatTicks => p.beat.Selecting?
    case RenewReplies(_) => p.beat.Renewing?
    case MainReceives => p.main.Stopping? && p.beat.Exited?
    case MainChecks => p.main.Checking?
    case SettlementReplies => p.main.Settling?
  }

  /** The call MainChecks makes when the context is still alive. */
  function Verdict(result: Option<Text>): Request {
    match result case None => Ack case Some(cause) => Retry(cause)
  }

  function React(p: Process, e: Event): Process
    requires Can(p, e) && Inv(p)
  {
    match e
    case Begin(hasHandler, cause) =>
      if hasHandler then
        p.(main := Handling, beat := Selecting, hasHandler := true, handlerCancelled := p.parentCancelled)
      else p.(main := Settling, calls := p.calls + [Dead(cause)])
    case HandlerReturns(error) => p.(main := Stopping, result := Some(error), stopClosed := true)
    case ParentCancels => p.(parentCancelled := true, handlerCancelled := true)
    case BeatStops => p.(beat := Exited(false))
    case BeatSeesCancel => p.(beat := Exited(true), cancelSeen := true)
    case BeatTicks => p.(beat := Renewing, calls := p.calls + [Renew])
    case RenewReplies(ok) =>
      if ok then p.(beat := Selecting)
      else p.(beat := Exited(true), handlerCancelled := true, renewFailed := true)
    case MainReceives => p.(main := if p.beat.failed then Finished else Checking)
    case MainChecks =>
      if p.parentCancelled then p.(main := Finished, cancelSeen := true)
      else p.(main := Settling, calls := p.calls + [Verdict(p.result.value)])
    case SettlementReplies => p.(main := Finished)
  }

  function Settlements(calls: seq<Request>): seq<Request> {
    if calls == [] then []
    else
      var before := Settlements(calls[..|calls| - 1]);
      if calls[|calls| - 1].Renew? then before else before + [calls[|calls| - 1]]
  }

  predicate Inv(p: Process) {
    Shape(p) && BeatInv(p) && SettlementInv(p)
  }

  /** Where the two goroutines can be together. */
  predicate Shape(p: Process) {
    && (p.main.Reserved? <==> p.beat.Idle? && p.calls == [])
    && (p.main.Reserved? ==> !p.hasHandler && p.result.None? && !p.stopClosed)
    && (p.hasHandler <==> !p.beat.Idle?)
    && (p.main.Handling? ==> p.result.None? && !p.stopClosed)
    && (p.result.Some? || p.stopClosed ==> p.hasHandler)
    && (p.beat == Exited(false) ==> p.stopClosed)
    && (p.hasHandler && !p.main.Handling? ==> p.result.Some? && p.stopClosed)
    && (p.main.Handling? || p.main.Stopping? || p.main.Checking? ==> p.hasHandler)
    && (p.main.Checking? || p.main.Settling? || p.main.Finished? ==> p.hasHandler ==> p.beat.Exited?)
  }

  /** What the heartbeat knows when it returns, and when the handler is told to stop. */
  predicate BeatInv(p: Process) {
    && (p.handlerCancelled <==> p.parentCancelled || p.renewFailed)
    && (p.renewFailed || p.cancelSeen ==> p.beat.Exited?)
    && (p.beat.Exited? && p.beat.failed ==> p.renewFailed || p.cancelSeen)
    && (p.beat.Exited? && !p.beat.failed ==> !p.renewFailed && (p.cancelSeen ==> p.main.Finished?))
    && (p.main.Checking? || p.main.Settling? ==> p.hasHandler ==> p.beat == Exited(false))
  }

  predicate SettlementInv(p: Process) {
    if Settled(p) then
      && p.calls != [] && Settlements(p.calls) == [Last(p.calls)]
      && (if !p.hasHandler then Last(p.calls).Dead?
          else p.result.Some? && Last(p.calls) == if p.result.value.None? then Ack else Retry(p.result.value.value))
    else Settlements(p.calls) == []
  }

  function Last(calls: seq<Request>): Request
    requires calls != []
  {
    calls[|calls| - 1]
  }

  /** A settlement was issued: the process reached that point and saw no failure. */
  predicate Settled(p: Process) {
    p.main.Settling? || (p.main.Finished? && !p.renewFailed && !p.cancelSeen)
  }

  lemma SettlementsPush(calls: seq<Request>, r: Request)
    ensures Settlements(calls + [r]) == Settlements(calls) + if r.Renew? then [] else [r]
  {
    assert (calls + [r])[..|calls|] == calls;
  }

  lemma ReactKeepsShape(p: Process, e: Event)
    requires Inv(p) && Can(p, e)
    ensures Shape(React(p, e))
  {
  }

  lemma ReactKeepsBeat(p: Process, e: Event)
    requires Inv(p) && Can(p, e)
    ensures BeatInv(React(p, e))
  {
  }

  /** The event issues no request. */
  predicate Quiet(e: Event) {
    !e.Begin? && !e.BeatTicks? && !e.MainChecks?
  }

  lemma QuietSettlesNothing(p: Process, e: Event)
    requires Inv(p) && Can(p, e) && Quiet(e)
    ensures
      var p' := React(p, e);
      && Settled(p') == Settled(p) && p'.calls == p.calls && p'.hasHandler == p.hasHandler
      && (Settled(p) ==> p'.result == p.result)
  {
  }

  lemma BeginKeepsSettlement(p: Process, hasHandler: bool, cause: Text)
    requires Inv(p) && Can(p, Begin(hasHandler, cause))
    ensures SettlementInv(React(p, Begin(hasHandler, cause)))
  {
    SettlementsPush(p.calls, Dead(cause));
  }

  lemma TickKeepsSettlement(p: Process)
    requires Inv(p) && Can(p, BeatTicks)
    ensures SettlementInv(React(p, BeatTicks))
  {
    SettlementsPush(p.calls, Renew);
  }

  lemma CheckKeepsSettlement(p: Process)
    requires Inv(p) && Can(p, MainChecks)
    ensures SettlementInv(React(p, MainChecks))
  {
    SettlementsPush(p.calls, Verdict(p.result.value));
  }

  lemma ReactKeepsSettlement(p: Process, e: Event)
    requires Inv(p) && Can(p, e)
    ensures SettlementInv(React(p, e))
  {
    if e.Begin? {
      BeginKeepsSettlement(p, e.hasHandler, e.cause);
    } else if e.BeatTicks? {
      TickKeepsSettlement(p);
    } else if e.MainChecks? {
      CheckKeepsSettlement(p);
    } else {
      QuietSettlesNothing(p, e);
    }
  }

  lemma ReactKeepsInv(p: Process, e: Event)
    requires Inv(p) && Can(p, e)
    ensures Inv(React(p, e))
  {
    ReactKeepsShape(p, e);
    ReactKeepsBeat(p, e);
    ReactKeepsSettlement(p, e);
  }

  lemma {:induction false} SettlementsMembers(calls: seq<Request>, r: Request)
    ensures r in Settlements(calls) <==> r in calls && !r.Renew?
    decreases |calls|
  {
    if calls != [] {
      var front := calls[..|calls| - 1];
      assert calls == front + [Last(calls)];
      SettlementsMembers(front, r);
      SettlementsPush(front, Last(calls));
    }
  }

  // ---- every interleaving ----------------------------------------------------------------

  ghost predicate Legal(p: Process, events: seq<Event>)
    requires Inv(p)
    decreases |events|
  {
    events == [] || (Can(p, events[0]) && Legal(Next(p, events[0]), events[1..]))
  }

  ghost function Next(p: Process, e: Event): (p': Process)
    requires Inv(p) && Can(p, e)
    ensures Inv(p')
  {
    ReactKeepsInv(p, e);
    React(p, e)
  }

  ghost function After(p: Process, events: seq<Event>): Process
    requires Inv(p) && Legal(p, events)
    decreases |events|
  {
    if events == [] then p else After(Next(p, events[0]), events[1..])
  }

  lemma AfterOne(p: Process, e: Event, rest: seq<Event>)
    requires Inv(p) && Can(p, e) && Legal(Next(p, e), rest)
    ensures Legal(p, [e] + rest) && After(p, [e] + rest) == After(Next(p, e), rest)
  {
    assert ([e] + rest)[1..] == rest;
  }

  lemma {:induction false} AfterKeepsInv(p: Process, events: seq<Event>)
    requires Inv(p) && Legal(p, events)
    ensures Inv(After(p, events))
    decreases |events|
  {
    if events != [] {
      AfterKeepsInv(Next(p, events[0]), events[1..]);
    }
  }

  /** What process promises, in every interleaving of handler, heartbeat, replies and
      cancellation: at most one settlement call; none once a renewal failed or a cancelled
      context was noticed; none while a renewal is out, and no call after it; Ack only when
      the handler returned nil; a process that ends without such a failure has settled; and the
      handler is told to stop exactly when the worker is, or when a renewal failed. */
  lemma ProcessContract(events: seq<Event>)
    requires Legal(NEW_PROCESS, events)
    ensures Contract(After(NEW_PROCESS, events))
  {
    AfterKeepsInv(NEW_PROCESS, events);
    InvMeansContract(After(NEW_PROCESS, events));
  }

  ghost predicate Contract(p: Process) {
    && |Settlements(p.calls)| <= 1
    && (p.renewFailed || p.cancelSeen ==> Settlements(p.calls) == [])
    && (Settlements(p.calls) != [] ==>
          p.calls != [] && !p.beat.Selecting? && !p.beat.Renewing? && !Last(p.calls).Renew?)
    && (Ack in p.calls ==> p.hasHandler && p.result == Some(None))
    && (p.main.Finished? ==> (Settlements(p.calls) != [] <==> !p.renewFailed && !p.cancelSeen))
    && (p.handlerCancelled <==> p.parentCancelled || p.renewFailed)
  }

  lemma InvMeansContract(p: Process)
    requires Inv(p)
    ensures Contract(p)
  {
    SettlementsMembers(p.calls, Ack);
  }

  // ---- which settlement -----------------------------------------------------------------

  lemma {:induction false} ResultStays(p: Process, events: seq<Event>)
    requires Inv(p) && Legal(p, events) && p.result.Some?
    ensures After(p, events).result == p.result
    decreases |events|
  {
    if events != [] {
      ResultStays(Next(p, events[0]), events[1..]);
    }
  }

  lemma {:induction false} ResultIsReturned(p: Process, events: seq<Event>, error: Option<Text>)
    requires Inv(p) && Legal(p, events) && HandlerReturns(error) in events
    ensures After(p, events).hasHandler && After(p, events).result == Some(error)
    decreases |events|
  {
    if events[0] == HandlerReturns(error) {
      ResultStays(Next(p, events[0]), events[1..]);
      AfterKeepsInv(p, events);
    } else {
      ResultIsReturned(Next(p, events[0]), events[1..], error);
    }
  }

  /** A process never takes back a call. */
  lemma CallsGrow(p: Process, e: Event)
    requires Inv(p) && Can(p, e)
    ensures p.calls <= React(p, e).calls
  {
  }

  lemma {:induction false} CallsStay(p: Process, events: seq<Event>)
    requires Inv(p) && Legal(p, events)
    ensures p.calls <= After(p, events).calls
    decreases |events|
  {
    if events != [] {
      CallsGrow(p, events[0]);
      CallsStay(Next(p, events[0]), events[1..]);
    }
  }

  /** Without a handler the job goes to the dead-letter list, with the cause that Begin found. */
  lemma {:induction false} UnhandledIsBuried(p: Process, events: seq<Event>, cause: Text)
    requires Inv(p) && Legal(p, events) && Begin(false, cause) in events
    ensures Dead(cause) in After(p, events).calls
    decreases |events|
  {
    var e, rest := events[0], events[1..];
    if e == Begin(false, cause) {
      var p' := Next(p, e);
      assert p'.calls[|p.calls|] == Dead(cause);
      CallsStay(p', rest);
      assert After(p', rest).calls[|p.calls|] == Dead(cause);
    } else {
      UnhandledIsBuried(Next(p, e), rest, cause);
    }
  }

  /** Over every list of events: what the process asks for is Ack if the handler returned nil,
      Retry with the handler's own error if it returned one, and Dead with the cause if there is
      no handler; and without a handler it does ask. */
  lemma SettlementIsExact(events: seq<Event>)
    requires Legal(NEW_PROCESS, events)
    ensures
      var settled := Settlements(After(NEW_PROCESS, events).calls);
      && (HandlerReturns(None) in events ==> settled == [] || settled == [Ack])
      && (forall e :: HandlerReturns(Some(e)) in events ==> settled == [] || settled == [Retry(e)])
      && (forall cause :: Begin(false, cause) in events ==> settled == [Dead(cause)])
  {
    var p := After(NEW_PROCESS, events);
    AfterKeepsInv(NEW_PROCESS, events);
    forall o | HandlerReturns(o) in events ensures p.hasHandler && p.result == Some(o) {
      ResultIsReturned(NEW_PROCESS, events, o);
    }
    forall cause | Begin(false, cause) in events ensures Settlements(p.calls) == [Dead(cause)] {
      UnhandledIsBuried(NEW_PROCESS, events, cause);
      SettlementsMembers(p.calls, Dead(cause));
    }
  }

  /** A worker that is told to stop while its handler runs, or before the context is checked,
      leaves the job alone: the lease is left to expire. */
  lemma {:induction false} CancelledNeverSettles(p: Process, events: seq<Event>)
    requires Inv(p) && Legal(p, events)
    requires p.parentCancelled && p.hasHandler && Settlements(p.calls) == []
    ensures Settlements(After(p, events).calls) == []
    decreases |events|
  {
    if events != [] {
      var p' := Next(p, events[0]);
      if Quiet(events[0]) || events[0].MainChecks? {
        assert p'.calls == p.calls;
      } else {
        SettlementsPush(p.calls, Renew);
      }
      CancelledNeverSettles(p', events[1..]);
    }
  }

  /** A cancellation reaches the handler's context at once, and the heartbeat may end on it whenever
      it is not waiting for a renewal; a heartbeat that ended so ends the process. */
  lemma CancelIsSeen(p: Process)
    requires Inv(p)
    ensures React(p, ParentCancels).parentCancelled && React(p, ParentCancels).handlerCancelled
    ensures p.beat.Selecting? && p.handlerCancelled ==>
      Can(p, BeatSeesCancel) && React(p, BeatSeesCancel).beat == Exited(true) && React(p, BeatSeesCancel).cancelSeen
    ensures p.main.Stopping? && p.beat == Exited(true) ==>
      Can(p, MainReceives) && React(p, MainReceives).main.Finished? && React(p, MainReceives).calls == p.calls
  {
  }

  /** While the handler runs the lease is kept: unless a renewal failed or the heartbeat noticed a
      cancelled context, a renewal is out or the next tick sends one, and only one. */
  lemma HeartbeatRenews(p: Process)
    requires Inv(p) && p.main.Handling? && !p.renewFailed && !p.cancelSeen
    ensures p.beat.Renewing? || (Can(p, BeatTicks) && React(p, BeatTicks).calls == p.calls + [Renew])
    ensures p.beat.Renewing? ==> Can(p, RenewReplies(true)) && React(p, RenewReplies(true)).beat.Selecting?
    ensures p.beat.Renewing? ==> Can(p, RenewReplies(false)) && React(p, RenewReplies(false)).handlerCancelled
  {
  }

  /** How far a process is from its end. */
  function Distance(p: Process): nat {
    match p.main
    case Reserved => 7
    case Handling => 6
    case Stopping => if p.beat.Renewing? then 5 else if p.beat.Selecting? then 4 else 3
    case Checking => 2
    case Settling => 1
    case Finished => 0
  }

  /** The process is never stuck: until it has finished, some step other than the outside
      cancellation can happen that brings it nearer to its end. */
  lemma NeverStuck(p: Process) returns (e: Event)
    requires Inv(p) && !p.main.Finished?
    ensures Can(p, e) && !e.ParentCancels? && Distance(React(p, e)) < Distance(p)
  {
    match p.main
    case Reserved => e := Begin(true, EMPTY_STRING);
    case Handling => e := HandlerReturns(None);
    case Stopping =>
      match p.beat {
        case Selecting => e := BeatStops;
        case Renewing => e := RenewReplies(true);
        case Exited(_) => e := MainReceives;
      }
    case Checking => e := MainChecks;
    case Settling => e := SettlementReplies;
  }
}
