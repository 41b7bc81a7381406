/** The WebSocket hub: one goroutine owns the set of connections, its index by user, and the
    right to close a connection's send channel.  Connections are named by ids; a send channel
    is a bounded queue that may be closed. */
module Hub {
  import opened Wrappers

  type ClientId = nat
  type UserId = nat
  type Message = nat

  const SEND_BUFFER := 16

  datatype Channel = Channel(queue: seq<Message>, closed: bool)

  /** `users` and `channels` know every connection that was ever registered. */
  datatype State = State(
    clients: set<ClientId>, byUser: map<UserId, set<ClientId>>,
    users: map<ClientId, UserId>, channels: map<ClientId, Channel>)

  datatype Request = Request(data: Message, exclude: Option<ClientId>, to: Option<UserId>)

  const NO_CLIENTS := State({}, map[], map[], map[])

  predicate Full(ch: Channel) {
    SEND_BUFFER <= |ch.queue|
  }

  function Users(clients: set<ClientId>, users: map<ClientId, UserId>): set<UserId>
    requires clients <= users.Keys
  {
    set c | c in clients :: users[c]
  }

  function Peers(clients: set<ClientId>, users: map<ClientId, UserId>, u: UserId): set<ClientId>
    requires clients <= users.Keys
  {
    set c | c in clients && users[c] == u
  }

  /** The clients grouped by user, no group empty. */
  function GroupByUser(clients: set<ClientId>, users: map<ClientId, UserId>): map<UserId, set<ClientId>>
    requires clients <= users.Keys
  {
    map u | u in Users(clients, users) :: Peers(clients, users, u)
  }

  /** The two indexes describe the same connections, and exactly the registered ones have an
      open send channel: closing happens on removal, once. */
  predicate WellFormed(h: State) {
    && h.clients <= h.users.Keys
    && h.channels.Keys == h.users.Keys
    && h.byUser == GroupByUser(h.clients, h.users)
    && (forall c :: c in h.channels ==> (h.channels[c].closed <==> c !in h.clients))
    && (forall c :: c in h.channels ==> |h.channels[c].queue| <= SEND_BUFFER)
  }

  /** Whom a request is for, said without the indexes. */
  predicate Addressee(h: State, req: Request, c: ClientId)
    requires h.clients <= h.users.Keys
  {
    c in h.clients && if req.to.Some? then h.users[c] == req.to.value else req.exclude != Some(c)
  }

  function Targets(h: State, req: Request): set<ClientId>
    requires h.clients <= h.users.Keys
  {
    set c | c in h.clients && Addressee(h, req, c)
  }

  function Registered(h: State, c: ClientId, user: UserId): State
    requires h.clients <= h.users.Keys
  {
    var users := h.users[c := user];
    State(h.clients + {c}, GroupByUser(h.clients + {c}, users), users, h.channels[c := Channel([], false)])
  }

  function Close(channels: map<ClientId, Channel>, gone: set<ClientId>): map<ClientId, Channel> {
    map c | c in channels :: if c in gone then channels[c].(closed := true) else channels[c]
  }

  /** The registered clients among `gone` are removed and their channels closed. */
  function Removed(h: State, gone: set<ClientId>): State
    requires h.clients <= h.users.Keys
  {
    h.(clients := h.clients - gone,
       byUser := GroupByUser(h.clients - gone, h.users),
       channels := Close(h.channels, gone * h.clients))
  }

  /** One channel after one message: taken if there is room, otherwise the client is dropped. */
  function Offered(ch: Channel, data: Message): Channel {
    if Full(ch) then ch.(closed := true) else ch.(queue := ch.queue + [data])
  }

  function Slow(h: State, targets: set<ClientId>): set<ClientId>
    requires targets <= h.channels.Keys
  {
    set c | c in targets && Full(h.channels[c])
  }

  /** The message offered to a set of clients, in whatever order. */
  function OfferedTo(h: State, targets: set<ClientId>, data: Message): State
    requires h.clients <= h.users.Keys && targets <= h.channels.Keys
  {
    State(h.clients - Slow(h, targets),
          GroupByUser(h.clients - Slow(h, targets), h.users),
          h.users,
          map c | c in h.channels :: if c in targets then Offered(h.channels[c], data) else h.channels[c])
  }

  function Dispatched(h: State, req: Request): State
    requires WellFormed(h)
  {
    OfferedTo(h, Targets(h, req), req.data)
  }

  lemma UserHasPeers(clients: set<ClientId>, users: map<ClientId, UserId>, u: UserId)
    requires clients <= users.Keys
    ensures u in Users(clients, users) <==> Peers(clients, users, u) != {}
  {
    if u in Users(clients, users) {
      var c :| c in clients && users[c] == u;
      assert c in Peers(clients, users, u);
    }
  }

  lemma GroupRemove(clients: set<ClientId>, users: map<ClientId, UserId>, c: ClientId)
    requires clients <= users.Keys && c in clients
    ensures users[c] in GroupByUser(clients, users)
    ensures
      var groups := GroupByUser(clients, users);
      var peers := groups[users[c]] - {c};
      GroupByUser(clients - {c}, users)
        == if peers == {} then groups - {users[c]} else groups[users[c] := peers]
  {
    assert users[c] in Users(clients, users);
    forall v ensures v in Users(clients - {c}, users) <==> Peers(clients - {c}, users, v) != {}
             ensures v in Users(clients, users) <==> Peers(clients, users, v) != {}
             ensures Peers(clients - {c}, users, v) == Peers(clients, users, v) - {c}
             ensures v != users[c] ==> Peers(clients - {c}, users, v) == Peers(clients, users, v)
    {
      UserHasPeers(clients - {c}, users, v);
      UserHasPeers(clients, users, v);
    }
  }

  /** One user's group when a connection joins. */
  lemma PeersAdd(clients: set<ClientId>, users: map<ClientId, UserId>, c: ClientId, u: UserId, v: UserId)
    requires clients <= users.Keys && c !in users
    ensures
      var users' := users[c := u];
      && Peers(clients + {c}, users', v) == (Peers(clients, users, v) + if v == u then {c} else {})
      && (v in Users(clients + {c}, users') <==> v == u || v in Users(clients, users))
      && (v !in Users(clients, users) ==> Peers(clients, users, v) == {})
  {
    UserHasPeers(clients + {c}, users[c := u], v);
    UserHasPeers(clients, users, v);
  }

  lemma GroupAdd(clients: set<ClientId>, users: map<ClientId, UserId>, c: ClientId, u: UserId)
    requires clients <= users.Keys && c !in users
    ensures
      var groups := GroupByUser(clients, users);
      GroupByUser(clients + {c}, users[c := u])
        == groups[u := (if u in groups then groups[u] else {}) + {c}]
  {
    var groups := GroupByUser(clients, users);
    var before := if u in groups then groups[u] else {};
    var joined := GroupByUser(clients + {c}, users[c := u]);
    forall v ensures v in joined <==> v == u || v in groups
             ensures v in joined ==> joined[v] == if v == u then before + {c} else groups[v]
    {
      PeersAdd(clients, users, c, u, v);
    }
  }

  lemma RegisteredKeeps(h: State, c: ClientId, user: UserId)
    requires WellFormed(h) && c !in h.users
    ensures WellFormed(Registered(h, c, user))
  {
  }

  /** Registering field by field. */
  lemma RegisteredClient(h: State, c: ClientId, user: UserId)
    requires WellFormed(h) && c !in h.users
    ensures Registered(h, c, user)
         == State(h.clients + {c}, h.byUser[user := (if user in h.byUser then h.byUser[user] else {}) + {c}],
                  h.users[c := user], h.channels[c := Channel([], false)])
  {
    GroupAdd(h.clients, h.users, c, user);
  }

  /** An empty group made first makes no difference. */
  lemma JoinGroup(groups: map<UserId, set<ClientId>>, u: UserId, c: ClientId)
    ensures
      var made := if u in groups then groups else groups[u := {}];
      made[u := made[u] + {c}] == groups[u := (if u in groups then groups[u] else {}) + {c}]
  {
  }

  lemma RemovedKeeps(h: State, gone: set<ClientId>)
    requires WellFormed(h)
    ensures WellFormed(Removed(h, gone))
  {
  }

  lemma OfferedKeeps(h: State, targets: set<ClientId>, data: Message)
    requires WellFormed(h) && targets <= h.clients
    ensures WellFormed(OfferedTo(h, targets, data))
  {
  }

  /** Removing a stranger is nothing. */
  lemma RemovedStranger(h: State, c: ClientId)
    requires WellFormed(h) && c !in h.clients
    ensures Removed(h, {c}) == h
  {
    assert h.clients - {c} == h.clients && {c} * h.clients == {};
    assert Close(h.channels, {}) == h.channels;
  }

  /** Removing a client field by field. */
  lemma RemovedClient(h: State, c: ClientId)
    requires WellFormed(h) && c in h.clients
    ensures h.users[c] in h.byUser && !h.channels[c].closed
    ensures
      var peers := h.byUser[h.users[c]] - {c};
      Removed(h, {c}) == h.(
        clients := h.clients - {c},
        byUser := if peers == {} then h.byUser - {h.users[c]} else h.byUser[h.users[c] := peers],
        channels := Close(h.channels, {c}))
  {
    GroupRemove(h.clients, h.users, c);
    assert {c} * h.clients == {c};
  }

  class HubLoop {
    var clients: set<ClientId>
    var byUser: map<UserId, set<ClientId>>
    var users: map<ClientId, UserId>
    var channels: map<ClientId, Channel>

    ghost function Contents(): State
      reads this
    {
      State(clients, byUser, users, channels)
    }

    ghost predicate Valid()
      reads this
    {
      WellFormed(Contents())
    }

    constructor ()
      ensures Valid() && Contents() == NO_CLIENTS
    {
      clients, byUser, users, channels := {}, map[], map[], map[];
    }

    /** A connection registers once, when it is served. */
    method Register(c: ClientId, user: UserId)
      requires Valid() && c !in users
      modifies this
      ensures Valid() && Contents() == Registered(old(Contents()), c, user)
    {
      RegisteredClient(Contents(), c, user);
      ghost var after, groups := Registered(Contents(), c, user), byUser;
      RegisteredKeeps(Contents(), c, user);
      users := users[c := user];
      channels := channels[c := Channel([], false)];
      clients := clients + {c};
      if user !in byUser {
        byUser := byUser[user := {}];
      }
      byUser := byUser[user := byUser[user] + {c}];
      JoinGroup(groups, user, c);
      assert Contents() == after;
    }

    /** close panics on a closed channel. */
    method CloseChannel(c: ClientId)
      requires c in channels && !channels[c].closed
      modifies this`channels
      ensures channels == Close(old(channels), {c})
    {
      channels := channels[c := channels[c].(closed := true)];
    }

    method RemoveClient(c: ClientId)
      requires Valid()
      modifies this
      ensures Valid() && Contents() == Removed(old(Contents()), {c})
    {
      ghost var after := Removed(Contents(), {c});
      RemovedKeeps(Contents(), {c});
      if c !in clients {
        RemovedStranger(Contents(), c);
        return;
      }
      RemovedClient(Contents(), c);
      clients := clients - {c};
      if users[c] in byUser {
        var peers := byUser[users[c]] - {c};
        byUser := byUser[users[c] := peers];
        if |peers| == 0 {
          byUser := byUser - {users[c]};
        }
      }
      CloseChannel(c);
      assert Contents() == after;
    }

    method Unregister(c: ClientId)
      requires Valid()
      modifies this
      ensures Valid() && Contents() == Removed(old(Contents()), {c})
    {
      if c in clients {
        RemoveClient(c);
      } else {
        RemovedStranger(Contents(), c);
      }
    }

    /** Sending panics on a closed channel, so only registered clients may be sent to. */
    method SendTo(c: ClientId, data: Message)
      requires Valid() && c in clients
      modifies this
      ensures Valid() && Contents() == OfferedTo(old(Contents()), {c}, data)
      ensures old(clients) - {c} <= clients && users == old(users) && channels.Keys == old(channels.Keys)
    {
      if |channels[c].queue| < SEND_BUFFER {
        assert Slow(Contents(), {c}) == {} && clients - {} == clients;
        channels := channels[c := channels[c].(queue := channels[c].queue + [data])];
      } else {
        assert Slow(Contents(), {c}) == {c} && {c} * clients == {c};
        RemoveClient(c);
      }
    }

    /** The range loop of dispatch: every client of `all` but the skipped one. */
    method OfferAll(all: set<ClientId>, skip: Option<ClientId>, data: Message)
      requires Valid() && all <= clients
      modifies this
      ensures Valid() && Contents() == OfferedTo(old(Contents()), Without(all, skip), data)
    {
      var rest := all;
      ghost var before := Contents();
      ghost var done: set<ClientId> := {};
      OfferNobody(before, data);
      while rest != {}
        invariant Valid() && channels.Keys == before.channels.Keys
        invariant rest <= all && rest <= clients
        invariant done == Without(all - rest, skip) && done <= before.channels.Keys
        invariant Contents() == OfferedTo(before, done, data)
        decreases rest
      {
        var c :| c in rest;
        OneLess(all, rest, c, skip);
        rest := rest - {c};
        if skip != Some(c) {
          OfferOneMore(before, done, c, data);
          SendTo(c, data);
          done := done + {c};
        }
      }
      assert all - rest == all;
    }

    method Dispatch(req: Request)
      requires Valid()
      modifies this
      ensures Valid() && Contents() == Dispatched(old(Contents()), req)
    {
      TargetsByIndex(Contents(), req);
      if req.to.Some? {
        if req.to.value in byUser {
          OfferAll(byUser[req.to.value], None, req.data);
        } else {
          OfferNobody(Contents(), req.data);
        }
        return;
      }
      OfferAll(clients, req.exclude, req.data);
    }

    /** The hub stops: every channel still open is closed. */
    method Stop()
      requires Valid()
      modifies this
      ensures Valid() && Contents() == Removed(old(Contents()), old(clients))
    {
      ghost var after := Removed(Contents(), clients);
      RemovedKeeps(Contents(), clients);
      var rest := clients;
      while rest != {}
        invariant rest <= old(clients) && clients == old(clients) && users == old(users) && byUser == old(byUser)
        invariant channels == Close(old(channels), old(clients) - rest)
        decreases rest
      {
        var c :| c in rest;
        CloseChannel(c);
        rest := rest - {c};
      }
      assert clients * clients == clients && clients - {} == clients;
      clients, byUser := {}, map[];
      assert byUser == after.byUser && channels == after.channels;
      assert Contents() == after;
    }
  }

  function Without(all: set<ClientId>, skip: Option<ClientId>): set<ClientId> {
    set c | c in all && skip != Some(c)
  }

  lemma OneLess(all: set<ClientId>, rest: set<ClientId>, c: ClientId, skip: Option<ClientId>)
    requires rest <= all && c in rest
    ensures Without(all - (rest - {c}), skip) == Without(all - rest, skip) + if skip == Some(c) then {} else {c}
    ensures c !in Without(all - rest, skip)
  {
  }

  /** The addressees are what the code finds through its indexes. */
  lemma TargetsByIndex(h: State, req: Request)
    requires WellFormed(h)
    ensures req.to.None? ==> Targets(h, req) == Without(h.clients, req.exclude)
    ensures req.to.Some? ==>
      Targets(h, req) == if req.to.value in h.byUser then Without(h.byUser[req.to.value], None) else {}
    ensures req.to.Some? && req.to.value in h.byUser ==> h.byUser[req.to.value] <= h.clients
  {
    if req.to.Some? {
      UserHasPeers(h.clients, h.users, req.to.value);
      assert Targets(h, req) == Peers(h.clients, h.users, req.to.value);
    }
  }

  lemma OfferNobody(h: State, data: Message)
    requires WellFormed(h)
    ensures OfferedTo(h, {}, data) == h
  {
    assert Slow(h, {}) == {} && h.clients - {} == h.clients;
    assert OfferedTo(h, {}, data).channels == h.channels;
  }

  lemma OfferOneMore(h: State, done: set<ClientId>, c: ClientId, data: Message)
    requires h.clients <= h.users.Keys && h.channels.Keys == h.users.Keys
    requires done <= h.channels.Keys && c in h.channels && c !in done
    ensures
      var h' := OfferedTo(h, done, data);
      OfferedTo(h', {c}, data) == OfferedTo(h, done + {c}, data)
  {
    var h' := OfferedTo(h, done, data);
    assert Slow(h', {c}) == Slow(h, {c});
    assert Slow(h, done + {c}) == Slow(h, done) + Slow(h, {c});
    assert h.clients - Slow(h, done) - Slow(h, {c}) == h.clients - Slow(h, done + {c});
  }
}
