/** What a connection receives over the life of a hub. */
module HubRuns {
  import opened Wrappers
  import opened Hub

  datatype Event =
    | Connect(c: ClientId, user: UserId)
    | Disconnect(c: ClientId)
    | Dispatch(req: Request)
    | Stop
    | Write(c: ClientId)                   // the write pump takes the next message
    | Direct(c: ClientId, data: Message)   // Client.Send, when the channel is open and has room

  /** `delivered` records what the hub put into each send channel, `put` what anybody did, `written`
      what the write pump took out, `dropped` whom the hub dropped. */
  datatype History = History(
    h: State, stopped: bool, delivered: map<ClientId, seq<Message>>, dropped: set<ClientId>,
    put: map<ClientId, seq<Message>>, written: map<ClientId, seq<Message>>)

  const FRESH := History(NO_CLIENTS, false, map[], {}, map[], map[])

  ghost predicate Enabled(r: History, e: Event) {
    match e
    case Connect(c, _) => !r.stopped && c !in r.h.users
    case Write(c) => c in r.h.channels && r.h.channels[c].queue != []
    case Direct(c, _) => c in r.h.channels && !r.h.channels[c].closed && !Full(r.h.channels[c])
    case _ => !r.stopped
  }

  /** What one channel gained. */
  function Gained(before: Channel, after: Channel): seq<Message> {
    if |before.queue| <= |after.queue| then after.queue[|before.queue|..] else []
  }

  function WithChannel(h: State, c: ClientId, ch: Channel): State {
    h.(channels := h.channels[c := ch])
  }

  ghost predicate Inv(r: History) {
    && WellFormed(r.h) && r.dropped <= r.h.users.Keys
    && r.delivered.Keys == r.put.Keys == r.written.Keys == r.h.users.Keys
  }

  ghost function Apply(r: History, e: Event): History
    requires Inv(r) && Enabled(r, e)
  {
    match e
    case Connect(c, user) =>
      r.(h := Registered(r.h, c, user), delivered := r.delivered[c := []], put := r.put[c := []],
         written := r.written[c := []])
    case Disconnect(c) => r.(h := Removed(r.h, {c}))
    case Dispatch(req) =>
      var h' := Dispatched(r.h, req);
      r.(h := h',
         delivered := map c | c in r.delivered && c in h'.channels ::
           r.delivered[c] + Gained(r.h.channels[c], h'.channels[c]),
         put := map c | c in r.put && c in h'.channels :: r.put[c] + Gained(r.h.channels[c], h'.channels[c]),
         dropped := r.dropped + (r.h.clients - h'.clients))
    case Stop => r.(h := Removed(r.h, r.h.clients), stopped := true)
    case Write(c) =>
      r.(h := WithChannel(r.h, c, r.h.channels[c].(queue := r.h.channels[c].queue[1..])),
         written := r.written[c := r.written[c] + [r.h.channels[c].queue[0]]])
    case Direct(c, data) =>
      r.(h := WithChannel(r.h, c, r.h.channels[c].(queue := r.h.channels[c].queue + [data])),
         put := r.put[c := r.put[c] + [data]])
  }

  lemma DispatchKeepsInv(r: History, req: Request)
    requires Inv(r) && Enabled(r, Dispatch(req))
    ensures Inv(Apply(r, Dispatch(req)))
  {
    OfferedKeeps(r.h, Targets(r.h, req), req.data);
  }

  lemma ApplyKeepsInv(r: History, e: Event)
    requires Inv(r) && Enabled(r, e)
    ensures Inv(Apply(r, e))
  {
    match e
    case Connect(c, user) => RegisteredKeeps(r.h, c, user);
    case Disconnect(c) => RemovedKeeps(r.h, {c});
    case Dispatch(req) => DispatchKeepsInv(r, req);
    case Stop => RemovedKeeps(r.h, r.h.clients);
    case Write(_) => PumpKeepsInv(r, e);
    case Direct(_, _) => PumpKeepsInv(r, e);
  }

  lemma PumpKeepsInv(r: History, e: Event)
    requires Inv(r) && Enabled(r, e) && (e.Write? || e.Direct?)
    ensures Inv(Apply(r, e))
  {
  }

  ghost predicate Legal(events: seq<Event>)
    decreases |events|, 0
  {
    events == [] ||
    (var front := events[..|events| - 1]; Legal(front) && Enabled(Run(front), events[|events| - 1]))
  }

  ghost function Run(events: seq<Event>): (r: History)
    requires Legal(events)
    ensures Inv(r)
    decreases |events|, 1
  {
    if events == [] then FRESH
    else
      var front := events[..|events| - 1];
      ApplyKeepsInv(Run(front), events[|events| - 1]);
      Apply(Run(front), events[|events| - 1])
  }

  // ---- the reference: what was addressed to a connection, read off the events ---------------

  /** The user of a connection that has connected and neither left nor seen the hub stop. */
  function Online(events: seq<Event>, c: ClientId): Option<UserId>
    decreases |events|
  {
    if events == [] then None
    else
      var before := Online(events[..|events| - 1], c);
      match events[|events| - 1]
      case Connect(d, user) => if d == c then Some(user) else before
      case Disconnect(d) => if d == c then None else before
      case Stop => None
      case _ => before
  }

  predicate IsFor(req: Request, c: ClientId, user: UserId) {
    if req.to.Some? then req.to.value == user else req.exclude != Some(c)
  }

  /** Every message dispatched for the connection while it was online, in order. */
  function Addressed(events: seq<Event>, c: ClientId): seq<Message>
    decreases |events|
  {
    if events == [] then []
    else
      var front, e := events[..|events| - 1], events[|events| - 1];
      var before := Addressed(front, c);
      if e.Dispatch? && Online(front, c).Some? && IsFor(e.req, c, Online(front, c).value)
      then before + [e.req.data] else before
  }

  /** What holds of one connection after some events. */
  ghost predicate Account(events: seq<Event>, r: History, c: ClientId) {
    && (c in r.h.users ==>
          && c in r.delivered
          && r.delivered[c] <= Addressed(events, c)
          && (c in r.dropped <==> r.delivered[c] != Addressed(events, c))
          && (c in r.h.clients <==> Online(events, c).Some? && c !in r.dropped)
          && (Online(events, c).Some? ==> Online(events, c).value == r.h.users[c]))
    && (c !in r.h.users ==> Online(events, c).None? && Addressed(events, c) == [])
    && (r.stopped ==> r.h.clients == {})
  }

  lemma DispatchAccount(events: seq<Event>, r: History, req: Request, c: ClientId)
    requires Inv(r) && Enabled(r, Dispatch(req)) && Account(events, r, c)
    ensures Account(events + [Dispatch(req)], Apply(r, Dispatch(req)), c)
  {
    var all := events + [Dispatch(req)];
    assert all[..|all| - 1] == events;
    if c in r.h.users {
      assert c in Targets(r.h, req) <==> c in r.h.clients && IsFor(req, c, r.h.users[c]);
      var h' := Dispatched(r.h, req);
      if c in Targets(r.h, req) {
        assert h'.channels[c] == Offered(r.h.channels[c], req.data);
        assert c in h'.clients <==> !Full(r.h.channels[c]);
      } else {
        assert h'.channels[c] == r.h.channels[c];
        assert Gained(r.h.channels[c], h'.channels[c]) == [];
      }
    }
  }

  lemma EventAccount(events: seq<Event>, r: History, e: Event, c: ClientId)
    requires Inv(r) && Enabled(r, e) && Account(events, r, c)
    ensures Account(events + [e], Apply(r, e), c)
  {
    var all := events + [e];
    assert all[..|all| - 1] == events;
    match e
    case Dispatch(req) => DispatchAccount(events, r, req, c);
    case _ =>
  }

  lemma {:induction false} EveryAccount(events: seq<Event>, c: ClientId)
    requires Legal(events)
    ensures Account(events, Run(events), c)
    decreases |events|
  {
    if events != [] {
      var front, e := events[..|events| - 1], events[|events| - 1];
      EveryAccount(front, c);
      assert events == front + [e];
      EventAccount(front, Run(front), e, c);
    }
  }

  /** For every connection, what the hub put into its send channel is a gap-free prefix, in
      order, of the messages addressed to it while it was online, and all of them unless the
      hub dropped it; a connection is served as long as it is online and was not dropped. */
  lemma GapFreeDelivery(events: seq<Event>, c: ClientId)
    requires Legal(events)
    ensures
      var r := Run(events);
      c in r.h.users ==>
        && c in r.delivered && r.delivered[c] <= Addressed(events, c)
        && (c !in r.dropped <==> r.delivered[c] == Addressed(events, c))
        && (c in r.h.clients <==> Online(events, c).Some? && c !in r.dropped)
  {
    EveryAccount(events, c);
  }

  /** A client is dropped only when its channel is full: sixteen messages wait unread. */
  lemma DroppedWhenFull(r: History, e: Event, c: ClientId)
    requires Inv(r) && Enabled(r, e) && c !in r.dropped && c in Apply(r, e).dropped
    ensures e.Dispatch? && Addressee(r.h, e.req, c) && |r.h.channels[c].queue| == 16
  {
  }

  // ---- what the write pump reads ---------------------------------------------------------------

  /** What was taken out of a channel and what still waits in it are what was put in, in order. */
  ghost predicate Fifo(r: History, c: ClientId) {
    c in r.h.users ==>
      && c in r.written && c in r.put && c in r.h.channels
      && r.put[c] == r.written[c] + r.h.channels[c].queue
  }

  lemma OfferGains(h: State, req: Request, c: ClientId)
    requires WellFormed(h) && c in h.channels
    ensures
      var ch' := Dispatched(h, req).channels[c];
      ch'.queue == h.channels[c].queue + Gained(h.channels[c], ch')
  {
  }

  lemma DispatchFifo(r: History, req: Request, c: ClientId)
    requires Inv(r) && Enabled(r, Dispatch(req)) && Fifo(r, c)
    ensures Fifo(Apply(r, Dispatch(req)), c)
  {
    if c in r.h.users {
      OfferGains(r.h, req, c);
    }
  }

  lemma WriteFifo(r: History, d: ClientId, c: ClientId)
    requires Inv(r) && Enabled(r, Write(d)) && Fifo(r, c)
    ensures Fifo(Apply(r, Write(d)), c)
  {
    if d == c {
      assert r.h.channels[c].queue == [r.h.channels[c].queue[0]] + r.h.channels[c].queue[1..];
    }
  }

  lemma EventFifo(r: History, e: Event, c: ClientId)
    requires Inv(r) && Enabled(r, e) && Fifo(r, c)
    ensures Fifo(Apply(r, e), c)
  {
    match e
    case Dispatch(req) => DispatchFifo(r, req, c);
    case Write(d) => WriteFifo(r, d, c);
    case _ =>
  }

  predicate NoDirect(events: seq<Event>, c: ClientId) {
    forall e :: e in events && e.Direct? ==> e.c != c
  }

  /** Over every run: a new channel is empty, messages leave it in the order in which they were put
      in, closing it loses none of those that wait, and without direct sends they are the ones that
      the hub delivered. */
  lemma {:induction false} ReadInOrder(events: seq<Event>, c: ClientId)
    requires Legal(events)
    ensures Read(events, Run(events), c)
    decreases |events|
  {
    if events != [] {
      var front, e := events[..|events| - 1], events[|events| - 1];
      ReadInOrder(front, c);
      assert events == front + [e];
      EventRead(front, Run(front), e, c);
    }
  }

  ghost predicate Read(events: seq<Event>, r: History, c: ClientId) {
    c in r.h.users ==>
      && c in r.written && c in r.put && c in r.delivered && c in r.h.channels
      && r.put[c] == r.written[c] + r.h.channels[c].queue
      && (NoDirect(events, c) ==> r.delivered[c] == r.written[c] + r.h.channels[c].queue)
  }

  lemma EventRead(events: seq<Event>, r: History, e: Event, c: ClientId)
    requires Inv(r) && Enabled(r, e) && Read(events, r, c)
    ensures Read(events + [e], Apply(r, e), c)
  {
    EventFifo(r, e, c);
    ApplyKeepsInv(r, e);
    if NoDirect(events + [e], c) {
      assert e in events + [e] && forall f :: f in events ==> f in events + [e];
      SamePut(r, e, c);
    }
  }

  /** Without a direct send the hub alone puts messages in. */
  predicate OnlyHubPuts(r: History, c: ClientId) {
    c in r.h.users ==> c in r.put && c in r.delivered && r.put[c] == r.delivered[c]
  }

  lemma SamePut(r: History, e: Event, c: ClientId)
    requires Inv(r) && Enabled(r, e) && (e.Direct? ==> e.c != c) && OnlyHubPuts(r, c)
    ensures OnlyHubPuts(Apply(r, e), c)
  {
  }

  // ---- closing ---------------------------------------------------------------------------------

  predicate IsClosed(h: State, c: ClientId) {
    c in h.channels && h.channels[c].closed
  }

  /** How often the send channel went from open to closed. */
  ghost function Closings(events: seq<Event>, c: ClientId): nat
    requires Legal(events)
    decreases |events|
  {
    if events == [] then 0
    else
      var front := events[..|events| - 1];
      Closings(front, c) + if !IsClosed(Run(front).h, c) && IsClosed(Run(events).h, c) then 1 else 0
  }

  lemma StaysClosed(r: History, e: Event, c: ClientId)
    requires Inv(r) && Enabled(r, e)
    ensures IsClosed(r.h, c) ==> IsClosed(Apply(r, e).h, c)
  {
  }

  /** Each send channel is closed exactly once, when its connection leaves the hub's set, and
      never reopened. */
  lemma {:induction false} ClosedExactlyOnce(events: seq<Event>, c: ClientId)
    requires Legal(events)
    ensures
      var h := Run(events).h;
      Closings(events, c) == (if IsClosed(h, c) then 1 else 0) && (IsClosed(h, c) <==> c in h.users && c !in h.clients)
    decreases |events|
  {
    if events != [] {
      var front, e := events[..|events| - 1], events[|events| - 1];
      ClosedExactlyOnce(front, c);
      StaysClosed(Run(front), e, c);
    }
  }
}
