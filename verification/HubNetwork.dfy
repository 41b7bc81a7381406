/** Several hubs joined by a broker that may lose messages and delay them, but hands each
    published message to each instance at most once.

    An instance puts an event on its own broadcast channel and on the broker; its consumer of
    broker messages ignores its own and puts the others on the same channel, so whatever
    reaches a connection was dispatched once from there. */
module HubNetwork {
  import opened Wrappers
  import opened Hub
  import R = HubRuns

  type Instance = nat

  /** An event as published: where, and for whom.  The event itself is named by a fresh number,
      which stands for its encoded bytes. */
  datatype Published = Published(origin: Instance, exclude: Option<ClientId>, to: Option<UserId>)

  type Catalogue = map<Message, Published>

  type Handover = (Instance, Message)

  /** `lines` are the hubs' broadcast channels, `seen` the broker messages an instance was
      handed; the rest is history: what each instance dispatched, what its dispatches put into each
      connection's channel, where and whose each connection is, how many messages its instance had
      dispatched when it connected, and which publications their own hub took. */
  datatype Network = Network(
    hubs: map<Instance, State>, lines: map<Instance, seq<Request>>,
    published: Catalogue, seen: set<Handover>,
    done: map<Instance, seq<Message>>, received: map<ClientId, seq<Message>>,
    home: map<ClientId, Instance>, user: map<ClientId, UserId>, since: map<ClientId, nat>,
    taken: set<Message>)

  datatype Action =
    | Publish(i: Instance, m: Message, exclude: Option<ClientId>, to: Option<UserId>, queued: bool)
    | Receive(i: Instance, m: Message)                    // from the broker
    | Dispatch(i: Instance)
    | Connect(i: Instance, c: ClientId, user: UserId)
    | Local(i: Instance, after: State)                    // leave, stop, write pump, direct send

  function Datas(requests: seq<Request>): seq<Message> {
    seq(|requests|, k requires 0 <= k < |requests| => requests[k].data)
  }

  predicate Distinct(s: seq<Message>) {
    forall j, k :: 0 <= j < k < |s| ==> s[j] != s[k]
  }

  ghost predicate Enabled(n: Network, a: Action) {
    && a.i in n.hubs && a.i in n.lines && a.i in n.done
    && match a
       case Publish(i, m, exclude, to, _) =>
         m !in n.published && (exclude.Some? ==> to.None? && exclude.value in n.home && n.home[exclude.value] == i)
       case Receive(i, m) => m in n.published && (i, m) !in n.seen
       case Dispatch(i) => n.lines[i] != []
       case Connect(_, c, _) => c !in n.home
       case Local(i, after) =>
         WellFormed(after) && after.users == n.hubs[i].users && after.clients <= n.hubs[i].clients
  }

  /** What the consumer of broker messages puts on the broadcast channel: nothing when the
      message came from this instance. */
  function FromBroker(i: Instance, m: Message, p: Published): seq<Request> {
    if p.origin == i then [] else [Request(m, None, p.to)]
  }

  /** What dispatching a request puts into the channel of one connection. */
  function Gain(h: State, req: Request, c: ClientId): seq<Message>
    requires WellFormed(h)
  {
    if c in h.channels then R.Gained(h.channels[c], Dispatched(h, req).channels[c]) else []
  }

  function Gains(h: State, req: Request, cs: set<ClientId>): map<ClientId, seq<Message>>
    requires WellFormed(h)
  {
    map c | c in cs :: Gain(h, req, c)
  }

  function Extended(received: map<ClientId, seq<Message>>, gains: map<ClientId, seq<Message>>)
    : map<ClientId, seq<Message>>
    requires gains.Keys == received.Keys
  {
    map c | c in received :: received[c] + gains[c]
  }

  ghost function Apply(n: Network, a: Action): Network
    requires Enabled(n, a) && WellFormed(n.hubs[a.i])
  {
    match a
    case Publish(i, m, exclude, to, queued) =>
      n.(published := n.published[m := Published(i, exclude, to)],
         taken := if queued then n.taken + {m} else n.taken,
         lines := if queued then n.lines[i := n.lines[i] + [Request(m, exclude, to)]] else n.lines)
    case Receive(i, m) =>
      n.(seen := n.seen + {(i, m)},
         lines := n.lines[i := n.lines[i] + FromBroker(i, m, n.published[m])])
    case Dispatch(i) =>
      var req := n.lines[i][0];
      n.(lines := n.lines[i := n.lines[i][1..]],
         done := n.done[i := n.done[i] + [req.data]],
         received := Extended(n.received, Gains(n.hubs[i], req, n.received.Keys)),
         hubs := n.hubs[i := Dispatched(n.hubs[i], req)])
    case Connect(i, c, user) =>
      n.(hubs := n.hubs[i := Registered(n.hubs[i], c, user)],
         home := n.home[c := i], user := n.user[c := user], received := n.received[c := []],
         since := n.since[c := |n.done[i]|])
    case Local(i, after) => n.(hubs := n.hubs[i := after])
  }

  /** A request waiting at a hub is a faithful copy of what was published. */
  predicate Copy(i: Instance, req: Request, published: Catalogue, seen: set<Handover>) {
    && req.data in published
    && req.to == published[req.data].to
    && (if published[req.data].origin == i then req.exclude == published[req.data].exclude
        else req.exclude == None && (i, req.data) in seen)
  }

  /** The message was published here, or the broker has handed it to this instance. */
  predicate Arrived(i: Instance, m: Message, published: Catalogue, seen: set<Handover>) {
    m in published && (published[m].origin == i || (i, m) in seen)
  }

  /** An instance handles each message at most once, first waiting, then dispatched. */
  predicate HandledOnce(i: Instance, line: seq<Request>, done: seq<Message>, published: Catalogue,
                        seen: set<Handover>) {
    && Distinct(done + Datas(line))
    && (forall req :: req in line ==> Copy(i, req, published, seen))
    && (forall m :: m in done ==> Arrived(i, m, published, seen))
  }

  /** What reached a connection is right: distinct, dispatched at its instance, never excluding
      the connection, and if targeted then at its user. */
  predicate RightlyReceived(c: ClientId, user: UserId, got: seq<Message>, done: seq<Message>, published: Catalogue) {
    && Distinct(got)
    && (forall m :: m in got ==>
          && m in done && m in published
          && published[m].exclude != Some(c)
          && (published[m].to.Some? ==> published[m].to.value == user))
  }

  /** Only broadcasts exclude anybody, and then a connection of the publishing instance. */
  predicate ExcludesOwn(p: Published, home: map<ClientId, Instance>) {
    p.exclude.Some? ==> p.to.None? && p.exclude.value in home && home[p.exclude.value] == p.origin
  }

  /** The line of every instance is right, in terms of the history alone. */
  predicate LinesInv(lines: map<Instance, seq<Request>>, done: map<Instance, seq<Message>>,
                     published: Catalogue, seen: set<Handover>) {
    && lines.Keys == done.Keys
    && forall i :: i in lines ==> HandledOnce(i, lines[i], done[i], published, seen)
  }

  predicate ReceivedInv(received: map<ClientId, seq<Message>>, home: map<ClientId, Instance>,
                        user: map<ClientId, UserId>,
                        done: map<Instance, seq<Message>>, published: Catalogue) {
    && received.Keys == home.Keys == user.Keys
    && (forall c :: c in received ==>
          home[c] in done && RightlyReceived(c, user[c], received[c], done[home[c]], published))
    && (forall m :: m in published ==> ExcludesOwn(published[m], home))
  }

  /** A hub knows exactly the connections made to its instance. */
  predicate HubInv(i: Instance, h: State, home: map<ClientId, Instance>, user: map<ClientId, UserId>) {
    && WellFormed(h)
    && forall c :: c in h.users ==> c in home && home[c] == i && c in user && user[c] == h.users[c]
  }

  predicate HubsInv(hubs: map<Instance, State>, home: map<ClientId, Instance>, user: map<ClientId, UserId>) {
    forall i :: i in hubs ==> HubInv(i, hubs[i], home, user)
  }

  /** The invariant without the hubs' own. */
  predicate HistoryInv(n: Network) {
    && n.hubs.Keys == n.lines.Keys
    && LinesInv(n.lines, n.done, n.published, n.seen)
    && ReceivedInv(n.received, n.home, n.user, n.done, n.published)
  }

  predicate Inv(n: Network) {
    HistoryInv(n) && HubsInv(n.hubs, n.home, n.user)
  }

  /** A message an instance never handled joins its line without making a duplicate. */
  lemma NewRequest(i: Instance, line: seq<Request>, done: seq<Message>, req: Request, published: Catalogue,
                   seen: set<Handover>)
    requires HandledOnce(i, line, done, published, seen) && !Arrived(i, req.data, published, seen)
    ensures Distinct(done + Datas(line + [req]))
  {
    var datas := Datas(line);
    assert Datas(line + [req]) == datas + [req.data];
    forall k | 0 <= k < |line| ensures datas[k] != req.data {
      assert line[k] in line && Copy(i, line[k], published, seen);
    }
    assert done + (datas + [req.data]) == (done + datas) + [req.data];
  }

  lemma PublishKeepsLines(n: Network, a: Action)
    requires LinesInv(n.lines, n.done, n.published, n.seen)
    requires Enabled(n, a) && a.Publish? && WellFormed(n.hubs[a.i])
    ensures var n' := Apply(n, a); LinesInv(n'.lines, n'.done, n'.published, n'.seen)
  {
    var n' := Apply(n, a);
    forall i | i in n'.lines ensures HandledOnce(i, n'.lines[i], n'.done[i], n'.published, n'.seen) {
      if i == a.i && a.queued {
        NewRequest(i, n.lines[i], n.done[i], Request(a.m, a.exclude, a.to), n.published, n.seen);
      }
    }
  }

  lemma ReceiveKeepsLines(n: Network, a: Action)
    requires LinesInv(n.lines, n.done, n.published, n.seen)
    requires Enabled(n, a) && a.Receive? && WellFormed(n.hubs[a.i])
    ensures var n' := Apply(n, a); LinesInv(n'.lines, n'.done, n'.published, n'.seen)
  {
    var n' := Apply(n, a);
    forall i | i in n'.lines ensures HandledOnce(i, n'.lines[i], n'.done[i], n'.published, n'.seen) {
      if i == a.i && n.published[a.m].origin != i {
        NewRequest(i, n.lines[i], n.done[i], Request(a.m, None, n.published[a.m].to), n.published, n.seen);
      } else {
        assert n'.lines[i] == n.lines[i];
      }
    }
  }

  /** The head of the line moves to the dispatched messages, where it was not before. */
  lemma HeadDispatched(i: Instance, line: seq<Request>, done: seq<Message>, published: Catalogue, seen: set<Handover>)
    requires HandledOnce(i, line, done, published, seen) && line != []
    ensures HandledOnce(i, line[1..], done + [line[0].data], published, seen)
    ensures line[0].data !in done && Copy(i, line[0], published, seen)
  {
    var all := done + Datas(line);
    assert Datas(line) == [line[0].data] + Datas(line[1..]);
    assert (done + [line[0].data]) + Datas(line[1..]) == all;
    assert line[0] in line && all[|done|] == line[0].data;
    forall k | 0 <= k < |done| ensures done[k] != line[0].data {
      assert all[k] == done[k];
    }
  }

  lemma DispatchKeepsLines(n: Network, i: Instance)
    requires LinesInv(n.lines, n.done, n.published, n.seen)
    requires Enabled(n, Dispatch(i)) && WellFormed(n.hubs[i])
    ensures var n' := Apply(n, Dispatch(i)); LinesInv(n'.lines, n'.done, n'.published, n'.seen)
  {
    HeadDispatched(i, n.lines[i], n.done[i], n.published, n.seen);
  }

  /** One connection after one dispatch at instance i. */
  lemma DispatchReaches(n: Network, i: Instance, c: ClientId, req: Request, gain: seq<Message>)
    requires HistoryInv(n) && i in n.lines && n.lines[i] != [] && req == n.lines[i][0] && c in n.received
    requires gain != [] ==>
      && gain == [req.data] && n.home[c] == i
      && (req.to.Some? ==> n.user[c] == req.to.value) && (req.to.None? ==> req.exclude != Some(c))
    ensures
      var done := n.done[i := n.done[i] + [req.data]];
      RightlyReceived(c, n.user[c], n.received[c] + gain, done[n.home[c]], n.published)
  {
    HeadDispatched(i, n.lines[i], n.done[i], n.published, n.seen);
    assert RightlyReceived(c, n.user[c], n.received[c], n.done[n.home[c]], n.published);
    assert ExcludesOwn(n.published[req.data], n.home);
    if gain == [] {
      assert n.received[c] + gain == n.received[c];
    }
  }

  /** A gain the dispatch may make: nothing, or its message for a rightful connection. */
  predicate FairGain(n: Network, i: Instance, req: Request, c: ClientId, gain: seq<Message>)
    requires c in n.home && c in n.user
  {
    gain != [] ==>
      && gain == [req.data] && n.home[c] == i
      && (req.to.Some? ==> n.user[c] == req.to.value) && (req.to.None? ==> req.exclude != Some(c))
  }

  predicate AllFair(n: Network, i: Instance, req: Request, gains: map<ClientId, seq<Message>>)
    requires n.received.Keys <= n.home.Keys && n.received.Keys <= n.user.Keys
  {
    gains.Keys == n.received.Keys && forall c :: c in gains ==> FairGain(n, i, req, c, gains[c])
  }

  lemma DispatchKeepsReceived(n: Network, i: Instance, req: Request, gains: map<ClientId, seq<Message>>)
    requires HistoryInv(n) && i in n.lines && n.lines[i] != [] && req == n.lines[i][0]
    requires AllFair(n, i, req, gains)
    ensures
      ReceivedInv(Extended(n.received, gains), n.home, n.user, n.done[i := n.done[i] + [req.data]], n.published)
  {
    forall c | c in n.received
      ensures
        var done := n.done[i := n.done[i] + [req.data]];
        RightlyReceived(c, n.user[c], n.received[c] + gains[c], done[n.home[c]], n.published)
    {
      DispatchReaches(n, i, c, req, gains[c]);
    }
  }

  lemma GainsAreFair(n: Network, i: Instance, h: State, req: Request)
    requires n.received.Keys == n.home.Keys == n.user.Keys && HubInv(i, h, n.home, n.user)
    ensures AllFair(n, i, req, Gains(h, req, n.received.Keys))
  {
  }

  lemma DispatchKeepsHistory(n: Network, i: Instance)
    requires HistoryInv(n) && Enabled(n, Dispatch(i)) && HubInv(i, n.hubs[i], n.home, n.user)
    ensures HistoryInv(Apply(n, Dispatch(i)))
  {
    DispatchKeepsLines(n, i);
    DispatchReceived(n, i, n.hubs[i], n.lines[i][0]);
  }

  lemma DispatchReceived(n: Network, i: Instance, h: State, req: Request)
    requires HistoryInv(n) && HubInv(i, h, n.home, n.user)
    requires i in n.lines && n.lines[i] != [] && req == n.lines[i][0]
    ensures ReceivedInv(Extended(n.received, Gains(h, req, n.received.Keys)), n.home, n.user,
                        n.done[i := n.done[i] + [req.data]], n.published)
  {
    GainsAreFair(n, i, h, req);
    DispatchKeepsReceived(n, i, req, Gains(h, req, n.received.Keys));
  }

  lemma RegisteredWellFormed(i: Instance, h: State, c: ClientId, u: UserId, home: map<ClientId, Instance>,
                             user: map<ClientId, UserId>)
    requires HubInv(i, h, home, user) && c !in home
    ensures HubInv(i, Registered(h, c, u), home[c := i], user[c := u])
  {
  }

  lemma MoreConnections(i: Instance, h: State, c: ClientId, j: Instance, u: UserId, home: map<ClientId, Instance>,
                        user: map<ClientId, UserId>)
    requires HubInv(i, h, home, user) && c !in home
    ensures HubInv(i, h, home[c := j], user[c := u])
  {
  }

  lemma NewcomerReceived(received: map<ClientId, seq<Message>>, home: map<ClientId, Instance>,
                         user: map<ClientId, UserId>,
                         done: map<Instance, seq<Message>>, published: Catalogue, i: Instance, c: ClientId, u: UserId)
    requires ReceivedInv(received, home, user, done, published) && c !in home && i in done
    ensures ReceivedInv(received[c := []], home[c := i], user[c := u], done, published)
  {
    forall m | m in published ensures ExcludesOwn(published[m], home[c := i]) {
      assert ExcludesOwn(published[m], home);
    }
  }

  lemma ConnectKeepsHistory(n: Network, a: Action)
    requires HistoryInv(n) && Enabled(n, a) && a.Connect? && HubInv(a.i, n.hubs[a.i], n.home, n.user)
    ensures HistoryInv(Apply(n, a))
  {
    NewcomerReceived(n.received, n.home, n.user, n.done, n.published, a.i, a.c, a.user);
  }

  /** A message just published has reached nobody yet. */
  lemma NewsReceived(received: map<ClientId, seq<Message>>, home: map<ClientId, Instance>, user: map<ClientId, UserId>,
                     done: map<Instance, seq<Message>>, published: Catalogue, m: Message, p: Published)
    requires ReceivedInv(received, home, user, done, published) && m !in published && ExcludesOwn(p, home)
    ensures ReceivedInv(received, home, user, done, published[m := p])
  {
  }

  lemma PublishKeepsHistory(n: Network, a: Action)
    requires HistoryInv(n) && Enabled(n, a) && a.Publish? && WellFormed(n.hubs[a.i])
    ensures HistoryInv(Apply(n, a))
  {
    PublishKeepsLines(n, a);
    NewsReceived(n.received, n.home, n.user, n.done, n.published, a.m, Published(a.i, a.exclude, a.to));
  }

  lemma ReceiveKeepsHistory(n: Network, a: Action)
    requires HistoryInv(n) && Enabled(n, a) && a.Receive? && WellFormed(n.hubs[a.i])
    ensures HistoryInv(Apply(n, a))
  {
    ReceiveKeepsLines(n, a);
  }

  lemma ActionKeepsHistory(n: Network, a: Action)
    requires HistoryInv(n) && Enabled(n, a) && HubInv(a.i, n.hubs[a.i], n.home, n.user)
    ensures HistoryInv(Apply(n, a))
  {
    if a.Publish? {
      PublishKeepsHistory(n, a);
    } else if a.Receive? {
      ReceiveKeepsHistory(n, a);
    } else if a.Dispatch? {
      DispatchKeepsHistory(n, a.i);
    } else if a.Connect? {
      ConnectKeepsHistory(n, a);
    }
  }

  lemma ActionKeepsHub(n: Network, a: Action, i: Instance)
    requires Enabled(n, a) && HubInv(a.i, n.hubs[a.i], n.home, n.user)
    requires i in n.hubs && HubInv(i, n.hubs[i], n.home, n.user)
    ensures var n' := Apply(n, a); HubInv(i, n'.hubs[i], n'.home, n'.user)
  {
    if a.Connect? {
      if i == a.i {
        RegisteredWellFormed(i, n.hubs[i], a.c, a.user, n.home, n.user);
      } else {
        MoreConnections(i, n.hubs[i], a.c, a.i, a.user, n.home, n.user);
      }
    }
  }

  lemma ActionKeepsInv(n: Network, a: Action)
    requires Inv(n) && Enabled(n, a)
    ensures WellFormed(n.hubs[a.i]) && Inv(Apply(n, a))
    ensures a.Local? ==> Apply(n, a).hubs == n.hubs[a.i := a.after]
  {
    assert HubInv(a.i, n.hubs[a.i], n.home, n.user);
    ActionKeepsHistory(n, a);
    var n' := Apply(n, a);
    forall i | i in n'.hubs ensures HubInv(i, n'.hubs[i], n'.home, n'.user) {
      ActionKeepsHub(n, a, i);
    }
  }

  // ---- the order of what arrives ----------------------------------------------------------------

  /** A published message meant for this connection. */
  predicate IsFor(m: Message, c: ClientId, user: UserId, published: Catalogue) {
    m in published && if published[m].to.Some? then published[m].to.value == user else published[m].exclude != Some(c)
  }

  /** The messages of a list that are meant for this connection, in their order. */
  function Meant(ms: seq<Message>, c: ClientId, user: UserId, published: Catalogue): seq<Message> {
    if ms == [] then []
    else
      var before, last := Meant(ms[..|ms| - 1], c, user, published), ms[|ms| - 1];
      if IsFor(last, c, user, published) then before + [last] else before
  }

  /** What the connection got is a prefix of what its instance dispatched for it since it
      connected, and all of that while it is connected. */
  predicate InOrder(c: ClientId, user: UserId, got: seq<Message>, done: seq<Message>, since: nat, connected: bool,
                    published: Catalogue) {
    && since <= |done|
    && got <= Meant(done[since..], c, user, published)
    && (connected ==> got == Meant(done[since..], c, user, published))
  }

  predicate OrderOf(n: Network, c: ClientId) {
    && c in n.home && c in n.user && c in n.since && c in n.received && n.home[c] in n.done && n.home[c] in n.hubs
    && InOrder(c, n.user[c], n.received[c], n.done[n.home[c]], n.since[c], c in n.hubs[n.home[c]].clients, n.published)
  }

  predicate OrderInv(n: Network) {
    forall c :: c in n.received ==> OrderOf(n, c)
  }

  lemma MeantPush(ms: seq<Message>, m: Message, c: ClientId, user: UserId, published: Catalogue)
    ensures Meant(ms + [m], c, user, published)
         == Meant(ms, c, user, published) + if IsFor(m, c, user, published) then [m] else []
  {
    assert (ms + [m])[..|ms|] == ms;
  }

  /** Publishing more does not change for whom the older messages were. */
  lemma {:induction false} MeantStays(ms: seq<Message>, c: ClientId, user: UserId, published: Catalogue, m: Message,
                                      p: Published)
    requires m !in ms
    ensures Meant(ms, c, user, published[m := p]) == Meant(ms, c, user, published)
  {
    if ms != [] {
      MeantStays(ms[..|ms| - 1], c, user, published, m, p);
      assert ms[|ms| - 1] in ms;
    }
  }

  /** One more dispatch: a connected client gets the message if it is meant for it, or is
      dropped. */
  lemma DispatchInOrder(c: ClientId, user: UserId, got: seq<Message>, done: seq<Message>, since: nat,
                        published: Catalogue, m: Message, gain: seq<Message>, connected: bool, after: bool)
    requires InOrder(c, user, got, done, since, connected, published)
    requires connected || (gain == [] && !after)
    requires connected && IsFor(m, c, user, published) ==> gain == if after then [m] else []
    requires connected && !IsFor(m, c, user, published) ==> gain == []
    ensures InOrder(c, user, got + gain, done + [m], since, after, published)
  {
    assert (done + [m])[since..] == done[since..] + [m];
    MeantPush(done[since..], m, c, user, published);
  }

  /** At the instance of a connection the request says the same as the publication. */
  lemma CopyIsFor(i: Instance, req: Request, c: ClientId, h: State, n: Network)
    requires HistoryInv(n) && HubInv(i, h, n.home, n.user) && Copy(i, req, n.published, n.seen) && c in h.clients
    ensures Addressee(h, req, c) <==> IsFor(req.data, c, n.user[c], n.published)
  {
    assert ExcludesOwn(n.published[req.data], n.home);
  }

  lemma GainOf(h: State, req: Request, c: ClientId)
    requires WellFormed(h) && c in h.channels
    ensures
      var after := c in Dispatched(h, req).clients;
      if c in h.clients && Addressee(h, req, c) then Gain(h, req, c) == if after then [req.data] else []
      else Gain(h, req, c) == [] && (after <==> c in h.clients)
  {
    assert c in Targets(h, req) <==> c in h.clients && Addressee(h, req, c);
  }

  /** A connection of the instance that dispatches. */
  lemma DispatchAtHome(n: Network, i: Instance, h: State, req: Request, c: ClientId, done: seq<Message>)
    requires HistoryInv(n) && HubInv(i, h, n.home, n.user) && Copy(i, req, n.published, n.seen)
    requires c in n.user && c in n.received && c in n.since
    requires InOrder(c, n.user[c], n.received[c], done, n.since[c], c in h.clients, n.published)
    ensures InOrder(c, n.user[c], n.received[c] + Gain(h, req, c), done + [req.data], n.since[c],
                    c in Dispatched(h, req).clients, n.published)
  {
    if c in h.channels {
      GainOf(h, req, c);
    }
    if c in h.clients {
      CopyIsFor(i, req, c, h, n);
    }
    DispatchInOrder(c, n.user[c], n.received[c], done, n.since[c], n.published, req.data, Gain(h, req, c),
                    c in h.clients, c in Dispatched(h, req).clients);
  }

  lemma StrangerGainsNothing(i: Instance, h: State, req: Request, c: ClientId, home: map<ClientId, Instance>,
                             user: map<ClientId, UserId>)
    requires HubInv(i, h, home, user) && c in home && home[c] != i
    ensures Gain(h, req, c) == []
  {
  }

  lemma DispatchKeepsOrder(n: Network, i: Instance, h: State, req: Request, c: ClientId)
    requires HistoryInv(n) && Enabled(n, Dispatch(i)) && OrderOf(n, c)
    requires h == n.hubs[i] && HubInv(i, h, n.home, n.user)
    requires req == n.lines[i][0] && Copy(i, req, n.published, n.seen)
    ensures OrderOf(Apply(n, Dispatch(i)), c)
  {
    if n.home[c] == i {
      DispatchAtHome(n, i, h, req, c, n.done[i]);
    } else {
      StrangerGainsNothing(i, h, req, c, n.home, n.user);
      assert n.received[c] + [] == n.received[c];
    }
  }

  lemma PublishKeepsOrder(n: Network, a: Action, c: ClientId)
    requires HistoryInv(n) && Enabled(n, a) && a.Publish? && WellFormed(n.hubs[a.i]) && OrderOf(n, c)
    ensures OrderOf(Apply(n, a), c)
  {
    var i := n.home[c];
    assert HandledOnce(i, n.lines[i], n.done[i], n.published, n.seen);
    forall m | m in n.done[i][n.since[c]..] ensures m != a.m {
      assert m in n.done[i] && Arrived(i, m, n.published, n.seen);
    }
    MeantStays(n.done[i][n.since[c]..], c, n.user[c], n.published, a.m, Published(a.i, a.exclude, a.to));
  }

  lemma NewcomerInOrder(c: ClientId, user: UserId, done: seq<Message>, connected: bool, published: Catalogue)
    ensures InOrder(c, user, [], done, |done|, connected, published)
  {
    assert done[|done|..] == [];
  }

  lemma NewcomerOrder(n: Network, a: Action)
    requires HistoryInv(n) && Enabled(n, a) && a.Connect? && WellFormed(n.hubs[a.i])
    ensures OrderOf(Apply(n, a), a.c)
    ensures a.c in Apply(n, a).hubs[a.i].clients && Apply(n, a).user[a.c] == a.user
  {
    NewcomerInOrder(a.c, a.user, n.done[a.i], true, n.published);
  }

  lemma ConnectKeepsOrder(n: Network, a: Action, c: ClientId)
    requires Enabled(n, a) && a.Connect? && WellFormed(n.hubs[a.i])
    requires c != a.c && OrderOf(n, c)
    ensures OrderOf(Apply(n, a), c)
  {
  }

  /** Once a connection is out of its hub's set it stays out. */
  lemma LocalKeepsOrder(n: Network, a: Action, c: ClientId)
    requires Enabled(n, a) && a.Local? && WellFormed(n.hubs[a.i]) && OrderOf(n, c)
    ensures OrderOf(Apply(n, a), c)
  {
  }

  lemma ActionKeepsOrderOf(n: Network, a: Action, c: ClientId)
    requires HistoryInv(n) && Enabled(n, a) && HubInv(a.i, n.hubs[a.i], n.home, n.user)
    requires OrderOf(n, c) || (a.Connect? && c == a.c)
    ensures OrderOf(Apply(n, a), c)
  {
    match a
    case Publish(_, _, _, _, _) => PublishKeepsOrder(n, a, c);
    case Receive(_, _) =>
    case Dispatch(i) =>
      HeadDispatched(i, n.lines[i], n.done[i], n.published, n.seen);
      DispatchKeepsOrder(n, i, n.hubs[i], n.lines[i][0], c);
    case Connect(_, _, _) =>
      if c == a.c {
        NewcomerOrder(n, a);
      } else {
        ConnectKeepsOrder(n, a, c);
      }
    case Local(_, _) => LocalKeepsOrder(n, a, c);
  }

  lemma ReceivedKeys(n: Network, a: Action)
    requires Enabled(n, a) && WellFormed(n.hubs[a.i])
    ensures Apply(n, a).received.Keys == n.received.Keys + if a.Connect? then {a.c} else {}
  {
  }

  lemma ActionKeepsOrder(n: Network, a: Action)
    requires HistoryInv(n) && Enabled(n, a) && OrderInv(n) && HubInv(a.i, n.hubs[a.i], n.home, n.user)
    ensures OrderInv(Apply(n, a))
  {
    ReceivedKeys(n, a);
    forall c | c in Apply(n, a).received ensures OrderOf(Apply(n, a), c) {
      ActionKeepsOrderOf(n, a, c);
    }
  }

  // ---- nothing that arrives is dropped ---------------------------------------------------------

  /** The message reached this instance: it was published here and the hub took it, or the broker
      handed it over and it was published elsewhere. */
  predicate Reached(n: Network, i: Instance, m: Message) {
    m in n.published && if n.published[m].origin == i then m in n.taken else (i, m) in n.seen
  }

  /** It waits in line or was dispatched. */
  predicate Handling(n: Network, i: Instance, m: Message) {
    i in n.lines && i in n.done && (m in n.done[i] || exists req :: req in n.lines[i] && req.data == m)
  }

  predicate HandledInv(n: Network) {
    && (forall h :: h in n.seen ==> h.1 in n.published)
    && (forall m :: m in n.taken ==> m in n.published)
    && forall i, m :: i in n.lines && m in n.published && Reached(n, i, m) ==> Handling(n, i, m)
  }

  /** A line that only grew, or gave its head to the dispatched messages, keeps what it handled. */
  lemma LineKeeps(n: Network, n': Network, i: Instance, m: Message)
    requires Handling(n, i, m) && i in n'.lines && i in n'.done
    requires n.done[i] <= n'.done[i]
    requires forall req :: req in n.lines[i] ==> req in n'.lines[i] || req.data in n'.done[i]
    ensures Handling(n', i, m)
  {
  }

  lemma DispatchKeepsLine(n: Network, i: Instance, req: Request)
    requires i in n.lines && n.lines[i] != [] && req in n.lines[i]
    ensures req in n.lines[i][1..] || req == n.lines[i][0]
  {
  }

  lemma ActionKeepsLine(n: Network, a: Action, i: Instance, m: Message)
    requires HistoryInv(n) && Enabled(n, a) && WellFormed(n.hubs[a.i]) && i in n.lines && Handling(n, i, m)
    ensures Handling(Apply(n, a), i, m)
  {
    var n' := Apply(n, a);
    forall req | req in n.lines[i] ensures req in n'.lines[i] || req.data in n'.done[i] {
      if a.Dispatch? && i == a.i {
        DispatchKeepsLine(n, i, req);
      }
    }
    LineKeeps(n, n', i, m);
  }

  /** What an action adds is in line right after it. */
  lemma NewsInLine(n: Network, a: Action, i: Instance, m: Message)
    requires HistoryInv(n) && Enabled(n, a) && WellFormed(n.hubs[a.i]) && i in n.lines
    requires Reached(Apply(n, a), i, m) && !Reached(n, i, m)
    requires (forall h :: h in n.seen ==> h.1 in n.published) && forall m' :: m' in n.taken ==> m' in n.published
    ensures Handling(Apply(n, a), i, m)
  {
    var n' := Apply(n, a);
    assert i == a.i && (a.Publish? || a.Receive?);
    assert n'.lines[i][|n'.lines[i]| - 1].data == m;
    assert n'.lines[i][|n'.lines[i]| - 1] in n'.lines[i];
  }

  lemma ActionKeepsHandled(n: Network, a: Action)
    requires HistoryInv(n) && Enabled(n, a) && WellFormed(n.hubs[a.i]) && HandledInv(n)
    ensures HandledInv(Apply(n, a))
  {
    var n' := Apply(n, a);
    forall i, m | i in n'.lines && m in n'.published && Reached(n', i, m) ensures Handling(n', i, m) {
      if Reached(n, i, m) {
        ActionKeepsLine(n, a, i, m);
      } else {
        NewsInLine(n, a, i, m);
      }
    }
  }

  // ---- whole runs ------------------------------------------------------------------------------

  ghost function Next(n: Network, a: Action): (n': Network)
    requires Inv(n) && Enabled(n, a)
    ensures Inv(n')
  {
    ActionKeepsInv(n, a);
    Apply(n, a)
  }

  ghost predicate Legal(n: Network, actions: seq<Action>)
    requires Inv(n)
    decreases |actions|
  {
    actions == [] || (Enabled(n, actions[0]) && Legal(Next(n, actions[0]), actions[1..]))
  }

  ghost function Run(n: Network, actions: seq<Action>): Network
    requires Inv(n) && Legal(n, actions)
    decreases |actions|
  {
    if actions == [] then n else Run(Next(n, actions[0]), actions[1..])
  }

  /** Any number of instances, nobody connected, nothing published. */
  function Idle(instances: set<Instance>): (n: Network)
    ensures Inv(n)
  {
    Network(map i | i in instances :: NO_CLIENTS, map i | i in instances :: [], map[], {},
            map i | i in instances :: [], map[], map[], map[], map[], {})
  }

  lemma {:induction false} RunKeepsInv(n: Network, actions: seq<Action>)
    requires Inv(n) && Legal(n, actions)
    ensures Inv(Run(n, actions))
    decreases |actions|
  {
    if actions != [] {
      RunKeepsInv(Next(n, actions[0]), actions[1..]);
    }
  }

  /** From idle instances on, and across all of them, whatever the broker loses or delays: a connection receives each
      event at most once, never one published with itself excluded, and a targeted event only
      if it belongs to the target user. */
  lemma AtMostOnceEverywhere(start: Network, actions: seq<Action>, c: ClientId)
    requires Inv(start) && Legal(start, actions)
    ensures ReceivesRightly(Run(start, actions), c)
  {
    RunKeepsInv(start, actions);
  }

  lemma {:induction false} RunKeepsOrder(n: Network, actions: seq<Action>)
    requires Inv(n) && OrderInv(n) && Legal(n, actions)
    ensures OrderInv(Run(n, actions))
    decreases |actions|
  {
    if actions != [] {
      ActionKeepsOrder(n, actions[0]);
      RunKeepsOrder(Next(n, actions[0]), actions[1..]);
    }
  }

  /** From idle instances on, whatever the broker loses or delays: what a connection got is an
      ordered prefix, without a gap, of the events meant for it among all that its instance
      dispatched since it connected, and all of those as long as it is connected. */
  lemma InOrderEverywhere(instances: set<Instance>, actions: seq<Action>, c: ClientId)
    requires Legal(Idle(instances), actions) && c in Run(Idle(instances), actions).received
    ensures OrderOf(Run(Idle(instances), actions), c)
  {
    RunKeepsOrder(Idle(instances), actions);
  }

  lemma {:induction false} RunKeepsHandled(n: Network, actions: seq<Action>)
    requires Inv(n) && HandledInv(n) && Legal(n, actions)
    ensures HandledInv(Run(n, actions))
    decreases |actions|
  {
    if actions != [] {
      assert HubInv(actions[0].i, n.hubs[actions[0].i], n.home, n.user);
      ActionKeepsHandled(n, actions[0]);
      RunKeepsHandled(Next(n, actions[0]), actions[1..]);
    }
  }

  lemma InLineOrDone(n: Network, i: Instance, m: Message)
    requires Handling(n, i, m)
    ensures m in n.done[i] || m in Datas(n.lines[i])
  {
    if m !in n.done[i] {
      var req :| req in n.lines[i] && req.data == m;
      var k :| 0 <= k < |n.lines[i]| && n.lines[i][k] == req;
      assert Datas(n.lines[i])[k] == m;
    }
  }

  /** What the history remembers of a publication and of a hand-over. */
  predicate Remembers(n: Network, a: Action) {
    match a
    case Publish(i, m, exclude, to, queued) =>
      m in n.published && n.published[m] == Published(i, exclude, to) && (queued ==> m in n.taken)
    case Receive(i, m) => (i, m) in n.seen
    case _ => true
  }

  lemma MemoryStays(n: Network, a: Action, b: Action)
    requires Enabled(n, a) && WellFormed(n.hubs[a.i])
    ensures Remembers(Apply(n, a), a) && (Remembers(n, b) ==> Remembers(Apply(n, a), b))
  {
  }

  lemma {:induction false} MemoryLasts(n: Network, actions: seq<Action>, b: Action)
    requires Inv(n) && Legal(n, actions) && (Remembers(n, b) || b in actions)
    ensures Remembers(Run(n, actions), b)
    decreases |actions|
  {
    if actions != [] {
      assert HubInv(actions[0].i, n.hubs[actions[0].i], n.home, n.user);
      MemoryStays(n, actions[0], b);
      MemoryLasts(Next(n, actions[0]), actions[1..], b);
    }
  }

  /** Over every run: a message that the broker hands to an instance, if it was published at
      another one, and a message that is published and taken by the hub of its own instance, waits
      in the instance's line or was dispatched from it. */
  lemma ArrivalsAreHandled(instances: set<Instance>, actions: seq<Action>, a: Action)
    requires Legal(Idle(instances), actions) && a in actions && a.i in Run(Idle(instances), actions).lines
    ensures
      var n := Run(Idle(instances), actions);
      && n.lines.Keys == n.done.Keys
      && (a.Publish? && a.queued ==> a.m in n.done[a.i] || a.m in Datas(n.lines[a.i]))
      && (a.Receive? && a.m in n.published && n.published[a.m].origin != a.i ==>
            a.m in n.done[a.i] || a.m in Datas(n.lines[a.i]))
  {
    MemoryLasts(Idle(instances), actions, a);
    if a.Publish? || a.Receive? {
      NothingIsDropped(instances, actions, a.i, a.m);
    }
    RunKeepsInv(Idle(instances), actions);
  }

  /** The same by what the history remembers. */
  lemma NothingIsDropped(instances: set<Instance>, actions: seq<Action>, i: Instance, m: Message)
    requires Legal(Idle(instances), actions)
    ensures
      var n := Run(Idle(instances), actions);
      && n.lines.Keys == n.done.Keys
      && (i in n.lines && m in n.published
          && (if n.published[m].origin == i then m in n.taken else (i, m) in n.seen) ==>
            m in n.done[i] || m in Datas(n.lines[i]))
  {
    RunKeepsInv(Idle(instances), actions);
    RunKeepsHandled(Idle(instances), actions);
    var n := Run(Idle(instances), actions);
    if i in n.lines && m in n.published && Reached(n, i, m) {
      InLineOrDone(n, i, m);
    }
  }

  lemma {:induction false} MeantHas(ms: seq<Message>, c: ClientId, user: UserId, published: Catalogue, m: Message)
    requires m in ms && IsFor(m, c, user, published)
    ensures m in Meant(ms, c, user, published)
  {
    if ms[|ms| - 1] != m {
      assert ms == ms[..|ms| - 1] + [ms[|ms| - 1]];
      MeantHas(ms[..|ms| - 1], c, user, published, m);
    }
  }

  lemma DrainedLineReaches(n: Network, i: Instance, m: Message, c: ClientId)
    requires HandledInv(n) && OrderOf(n, c) && n.home[c] == i && c in n.hubs[i].clients
    requires i in n.lines && n.lines[i] == [] && Reached(n, i, m) && m !in n.done[i][..n.since[c]]
    requires match n.published[m].to case Some(u) => n.user[c] == u case None => n.published[m].exclude != Some(c)
    ensures m in n.received[c]
  {
    InLineOrDone(n, i, m);
    var done, since := n.done[i], n.since[c];
    assert done == done[..since] + done[since..];
    MeantHas(done[since..], c, n.user[c], n.published, m);
  }

  /** A message that reached the instance, from here or from elsewhere, and that is for this
      connection. */
  predicate DueTo(n: Network, i: Instance, m: Message, c: ClientId) {
    && m in n.published && (if n.published[m].origin == i then m in n.taken else (i, m) in n.seen)
    && c in n.user
    && match n.published[m].to case Some(u) => n.user[c] == u case None => n.published[m].exclude != Some(c)
  }

  /** Once the line is empty, every connection that its hub still has got each such message that is
      for it, unless that was dispatched before the connection was made. */
  lemma EverybodyIsReached(instances: set<Instance>, actions: seq<Action>, i: Instance, m: Message, c: ClientId)
    requires Legal(Idle(instances), actions)
    ensures
      var n := Run(Idle(instances), actions);
      i in n.hubs && c in n.hubs[i].clients ==>
        && i in n.lines && i in n.done && c in n.received && c in n.since && n.since[c] <= |n.done[i]|
        && (n.lines[i] == [] && DueTo(n, i, m, c) ==> m in n.done[i][..n.since[c]] || m in n.received[c])
  {
    RunKeepsInv(Idle(instances), actions);
    RunKeepsOrder(Idle(instances), actions);
    RunKeepsHandled(Idle(instances), actions);
    ClientIsReached(Run(Idle(instances), actions), i, m, c);
  }

  lemma ClientIsReached(n: Network, i: Instance, m: Message, c: ClientId)
    requires Inv(n) && OrderInv(n) && HandledInv(n)
    ensures i in n.hubs && c in n.hubs[i].clients ==>
      && i in n.lines && i in n.done && c in n.received && c in n.since && n.since[c] <= |n.done[i]|
      && (n.lines[i] == [] && DueTo(n, i, m, c) ==> m in n.done[i][..n.since[c]] || m in n.received[c])
  {
    if i in n.hubs && c in n.hubs[i].clients {
      assert HubInv(i, n.hubs[i], n.home, n.user) && OrderOf(n, c);
      if n.lines[i] == [] && DueTo(n, i, m, c) && m !in n.done[i][..n.since[c]] {
        DrainedLineReaches(n, i, m, c);
      }
    }
  }

  /** A connection of the network, if it is one, got every event once and by right. */
  ghost predicate ReceivesRightly(n: Network, c: ClientId) {
    c in n.received ==>
      && c in n.user && Distinct(n.received[c])
      && forall m :: m in n.received[c] ==>
           && m in n.published
           && n.published[m].exclude != Some(c)
           && (n.published[m].to.Some? ==> n.published[m].to.value == n.user[c])
  }
}
