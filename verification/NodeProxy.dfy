/**
 The control-socket multiplexer: browser sockets bridged over their node's socket, each under its own session id, with
 acknowledged calls in flight. Disconnecting a browser socket takes its whole connection down.
 */
module NodeProxy {
  import opened Options

  const CALL_TIMEOUT: int := 60 * 1000

  type ClientId = nat
  type ConnId = nat
  type SocketId = nat
  type SessionId = nat
  type CallId = nat

  /** A bridged browser socket. Only `connected` ever changes. */
  datatype Client = Client(conn: ConnId, user: nat, node: string, sock: SocketId, session: SessionId, connected: bool)

  datatype Call = Call(session: SessionId, placedAt: int, due: int)

  /** What hangs on one node socket. */
  datatype Table = Table(sessions: map<SessionId, ClientId>, calls: map<CallId, Call>)

  datatype NodeSocket = NodeSocket(node: string, connected: bool)

  /** What one event did: the call it acknowledged, and the sessions whose clients left. */
  datatype Entry = Entry(acked: Option<CallId>, session: SessionId, left: set<SessionId>)

  /** `usedCalls` (the session each call was placed under) and `log` only record what happened. */
  datatype World = World(
    now: int,
    clients: map<ClientId, Client>,
    tables: map<SocketId, Table>,
    byNode: map<string, set<ClientId>>,
    current: map<string, SocketId>,
    nodes: map<SocketId, NodeSocket>,
    usedCalls: map<CallId, SessionId>,
    log: seq<Entry>)

  // ---------- clients leaving ----------

  function SessionsOn(clients: map<ClientId, Client>, cs: set<ClientId>, k: SocketId): set<SessionId> {
    set c | c in cs && c in clients && clients[c].sock == k :: clients[c].session
  }

  function AtNode(clients: map<ClientId, Client>, cs: set<ClientId>, n: string): set<ClientId> {
    set c | c in cs && c in clients && clients[c].node == n
  }

  /** Session ids and the calls in flight under them. */
  function Purge(t: Table, gone: set<SessionId>): Table {
    Table(t.sessions - gone, map k | k in t.calls && t.calls[k].session !in gone :: t.calls[k])
  }

  function MarkGone(clients: map<ClientId, Client>, cs: set<ClientId>): map<ClientId, Client> {
    map c | c in clients :: if c in cs then clients[c].(connected := false) else clients[c]
  }

  function PurgeAll(w: World, cs: set<ClientId>): map<SocketId, Table> {
    map k | k in w.tables :: Purge(w.tables[k], SessionsOn(w.clients, cs, k))
  }

  function UntrackAll(w: World, cs: set<ClientId>): map<string, set<ClientId>> {
    map n | n in w.byNode :: w.byNode[n] - AtNode(w.clients, cs, n)
  }

  /** The disconnect handlers of these clients have run. */
  function Gone(w: World, cs: set<ClientId>): World {
    w.(clients := MarkGone(w.clients, cs), tables := PurgeAll(w, cs), byNode := UntrackAll(w, cs))
  }

  /** The connected clients on the connections of the given ones. */
  function OnConns(clients: map<ClientId, Client>, cs: set<ClientId>): set<ClientId> {
    set c, d | c in cs && c in clients && clients[c].connected
               && d in clients && clients[d].connected && clients[d].conn == clients[c].conn :: d
  }

  /** Disconnecting these clients: one that already left is skipped, another takes its connection down. */
  function Disconnect(w: World, cs: set<ClientId>): World {
    Gone(w, OnConns(w.clients, cs))
  }

  /** The sessions whose clients left between the two states. */
  function LeftBetween(before: map<ClientId, Client>, after: map<ClientId, Client>): set<SessionId> {
    set c | c in before && before[c].connected && c in after && !after[c].connected :: before[c].session
  }

  function Logged(w: World, v: World): World {
    v.(log := w.log + [Entry(None, 0, LeftBetween(w.clients, v.clients))])
  }

  // ---------- the steps ----------

  datatype Event =
    | NodeUp(k: SocketId, node: string)
    | Register(k: SocketId)
    | NodeDown(k: SocketId)
    | Bridge(c: ClientId, conn: ConnId, user: nat, node: string, session: SessionId)
    | Ask(c: ClientId, call: CallId)
    | Reply(k: SocketId, session: SessionId, call: CallId)
    | TimedOut(k: SocketId, call: CallId)
    | Close(k: SocketId, session: SessionId)
    | Leave(c: ClientId)
    | ConnDown(conn: ConnId)
    | DropUser(node: string, user: nat)
    | Tick(until: int)

  predicate Online(w: World, node: string) {
    node in w.current && w.current[node] in w.nodes && w.nodes[w.current[node]].connected
  }

  function OfConn(clients: map<ClientId, Client>, conn: ConnId): set<ClientId> {
    set c | c in clients && clients[c].connected && clients[c].conn == conn
  }

  function OfUser(w: World, node: string, user: nat): set<ClientId> {
    set c | node in w.byNode && c in w.byNode[node] && c in w.clients && w.clients[c].user == user
  }

  predicate Enabled(w: World, e: Event) {
    match e
    case NodeUp(k, _) => k !in w.nodes
    case Register(k) => k in w.nodes
    case NodeDown(k) => k in w.nodes && w.nodes[k].connected
    case Bridge(c, _, _, _, session) =>
      c !in w.clients && forall d :: d in w.clients ==> w.clients[d].session != session
    case Ask(c, call) => c in w.clients && w.clients[c].connected && call !in w.usedCalls
    case TimedOut(k, call) => k in w.tables && call in w.tables[k].calls && w.tables[k].calls[call].due <= w.now
    case Leave(c) => c in w.clients && w.clients[c].connected
    case Tick(until) =>
      w.now <= until
      && forall k, call :: k in w.tables && call in w.tables[k].calls ==> until <= w.tables[k].calls[call].due
    case _ => true
  }

  function Clients(w: World, k: SocketId): set<ClientId> {
    if k in w.tables then w.tables[k].sessions.Values else {}
  }

  function Tracked(w: World, node: string): set<ClientId> {
    if node in w.byNode then w.byNode[node] else {}
  }

  function TableOf(w: World, k: SocketId): Table {
    if k in w.tables then w.tables[k] else Table(map[], map[])
  }

  /** The socket's bridged clients go; if it still was its node's socket, all the node's clients go. */
  function LoseNode(w: World, k: SocketId): World
    requires k in w.nodes
  {
    var n := w.nodes[k].node;
    var w1 := w.(nodes := w.nodes[k := NodeSocket(n, false)]);
    var w2 := Disconnect(w1, Clients(w1, k));
    if n in w2.current && w2.current[n] == k then
      var w3 := Disconnect(w2.(current := w2.current - {n}), Tracked(w2, n));
      w3.(byNode := w3.byNode - {n})
    else w2
  }

  function Open(w: World, c: ClientId, conn: ConnId, user: nat, node: string, session: SessionId): World
    requires Online(w, node)
  {
    var k := w.current[node];
    var t := TableOf(w, k);
    w.(clients := w.clients[c := Client(conn, user, node, k, session, true)],
       tables := w.tables[k := t.(sessions := t.sessions[session := c])],
       byNode := w.byNode[node := Tracked(w, node) + {c}])
  }

  function Place(w: World, c: ClientId, call: CallId): World
    requires c in w.clients
  {
    var k := w.clients[c].sock;
    if k !in w.nodes || !w.nodes[k].connected || k !in w.tables then w
    else
      var t := w.tables[k];
      w.(tables := w.tables[k := t.(calls := t.calls[call := Call(w.clients[c].session, w.now, w.now + CALL_TIMEOUT)])],
         usedCalls := w.usedCalls[call := w.clients[c].session])
  }

  /** The call leaves the table and is acknowledged. */
  function Acknowledge(w: World, k: SocketId, call: CallId): World
    requires k in w.tables && call in w.tables[k].calls
  {
    var t := w.tables[k];
    w.(tables := w.tables[k := t.(calls := t.calls - {call})],
       log := w.log + [Entry(Some(call), t.calls[call].session, {})])
  }

  function Answer(w: World, k: SocketId, session: SessionId, call: CallId): World {
    if k in w.tables && call in w.tables[k].calls && w.tables[k].calls[call].session == session
    then Acknowledge(w, k, call)
    else w
  }

  function CloseSession(w: World, k: SocketId, session: SessionId): World {
    if k !in w.tables || session !in w.tables[k].sessions then w
    else
      var c := w.tables[k].sessions[session];
      var v := w.(tables := w.tables[k := w.tables[k].(sessions := w.tables[k].sessions - {session})]);
      Logged(w, Disconnect(v, {c}))
  }

  function Step(w: World, e: Event): World
    requires Enabled(w, e)
  {
    match e
    case NodeUp(k, node) => w.(nodes := w.nodes[k := NodeSocket(node, true)], current := w.current[node := k])
    case Register(k) => w.(current := w.current[w.nodes[k].node := k])
    case NodeDown(k) => Logged(w, LoseNode(w, k))
    case Bridge(c, conn, user, node, session) =>
      if Online(w, node) then Open(w, c, conn, user, node, session)
      else Logged(w, Gone(w, OfConn(w.clients, conn)))
    case Ask(c, call) => Place(w, c, call)
    case Reply(k, session, call) => Answer(w, k, session, call)
    case TimedOut(k, call) => Acknowledge(w, k, call)
    case Close(k, session) => CloseSession(w, k, session)
    case Leave(c) => Logged(w, Gone(w, {c}))
    case ConnDown(conn) => Logged(w, Gone(w, OfConn(w.clients, conn)))
    case DropUser(node, user) => Logged(w, Disconnect(w, OfUser(w, node, user)))
    case Tick(until) => w.(now := until)
  }

  // ---------- the invariant ----------

  /** The session belongs to a connected client that was bridged under it over this socket. */
  predicate Bridged(w: World, k: SocketId, s: SessionId, c: ClientId) {
    c in w.clients && w.clients[c].connected && w.clients[c].sock == k && w.clients[c].session == s
  }

  ghost predicate SessionsLive(w: World) {
    forall k, s :: k in w.tables && s in w.tables[k].sessions ==> Bridged(w, k, s, w.tables[k].sessions[s])
  }

  predicate Listed(w: World, c: ClientId)
    requires c in w.clients
  {
    var p := w.clients[c];
    && p.sock in w.tables && p.session in w.tables[p.sock].sessions && w.tables[p.sock].sessions[p.session] == c
    && p.node in w.byNode && c in w.byNode[p.node]
    && p.sock in w.nodes && w.nodes[p.sock].connected && w.nodes[p.sock].node == p.node
  }

  ghost predicate ClientsListed(w: World) {
    forall c :: c in w.clients && w.clients[c].connected ==> Listed(w, c)
  }

  ghost predicate ByNodeLive(w: World) {
    forall n, c :: n in w.byNode && c in w.byNode[n] ==>
      c in w.clients && w.clients[c].connected && w.clients[c].node == n
  }

  ghost predicate SessionsUnique(w: World) {
    forall c, d :: c in w.clients && d in w.clients && w.clients[c].session == w.clients[d].session ==> c == d
  }

  /** The call belongs to a live session of the same socket, and was placed at most 60 s ago. */
  predicate CallLive(t: Table, call: CallId, used: map<CallId, SessionId>, now: int) {
    && call in t.calls && t.calls[call].session in t.sessions && call in used && used[call] == t.calls[call].session
    && t.calls[call].due == t.calls[call].placedAt + CALL_TIMEOUT && t.calls[call].placedAt <= now <= t.calls[call].due
  }

  ghost predicate CallsLive(w: World) {
    forall k, call :: k in w.tables && call in w.tables[k].calls ==> CallLive(w.tables[k], call, w.usedCalls, w.now)
  }

  ghost predicate CallsUnique(w: World) {
    forall k, j, call :: k in w.tables && j in w.tables && call in w.tables[k].calls && call in w.tables[j].calls ==>
      k == j
  }

  ghost predicate CurrentLive(w: World) {
    forall n :: n in w.current ==> w.current[n] in w.nodes && w.nodes[w.current[n]].node == n
  }

  ghost predicate Linked(w: World) {
    && SessionsLive(w) && ClientsListed(w) && ByNodeLive(w) && SessionsUnique(w)
    && CallsLive(w) && CallsUnique(w) && CurrentLive(w)
  }

  // ---------- clients leaving keeps the invariant ----------

  lemma GoneSessions(w: World, cs: set<ClientId>)
    requires Linked(w)
    ensures SessionsLive(Gone(w, cs)) && ByNodeLive(Gone(w, cs)) && SessionsUnique(Gone(w, cs))
            && CurrentLive(Gone(w, cs))
  {
    var v := Gone(w, cs);
    forall k, s | k in v.tables && s in v.tables[k].sessions ensures Bridged(v, k, s, v.tables[k].sessions[s]) {
      var c := w.tables[k].sessions[s];
      assert Bridged(w, k, s, c);
    }
  }

  lemma GoneListed(w: World, cs: set<ClientId>)
    requires Linked(w)
    ensures ClientsListed(Gone(w, cs))
  {
    var v := Gone(w, cs);
    forall c | c in v.clients && v.clients[c].connected ensures Listed(v, c) {
      assert Listed(w, c) && c !in cs;
    }
  }

  lemma GoneCalls(w: World, cs: set<ClientId>)
    requires Linked(w)
    ensures CallsLive(Gone(w, cs)) && CallsUnique(Gone(w, cs))
  {
    var v := Gone(w, cs);
    forall k, call | k in v.tables && call in v.tables[k].calls
      ensures CallLive(v.tables[k], call, v.usedCalls, v.now)
    {
      assert CallLive(w.tables[k], call, w.usedCalls, w.now);
    }
  }

  lemma GoneKeeps(w: World, cs: set<ClientId>)
    requires Linked(w)
    ensures Linked(Gone(w, cs))
  {
    GoneSessions(w, cs);
    GoneListed(w, cs);
    GoneCalls(w, cs);
    hide Gone;
  }

  lemma NoneLeft(w: World, cs: set<ClientId>, d: ClientId)
    requires d in cs
    ensures var v := Disconnect(w, cs); d in v.clients ==> !v.clients[d].connected
  {
    if d in w.clients && w.clients[d].connected {
      assert d in OnConns(w.clients, cs);
    }
  }

  lemma LoseNodeKeeps(w: World, k: SocketId)
    requires Linked(w) && k in w.nodes && w.nodes[k].connected
    ensures Linked(LoseNode(w, k))
  {
    var n := w.nodes[k].node;
    var nodes := w.nodes[k := NodeSocket(n, false)];
    var cs := Clients(w, k);
    var v := Disconnect(w, cs);
    GoneKeeps(w, OnConns(w.clients, cs));
    assert Disconnect(w.(nodes := nodes), cs) == v.(nodes := nodes);
    NoSocketClients(w, k);
    if n in w.current && w.current[n] == k {
      GoneKeeps(v, OnConns(v.clients, Tracked(v, n)));
      var u := Disconnect(v, Tracked(v, n));
      assert LoseNode(w, k) == u.(nodes := nodes, current := w.current - {n}, byNode := u.byNode - {n});
      NoNodeClients(v, n);
      SwitchOff(u, k, n);
    } else {
      SwitchOffReplaced(v, k);
    }
  }

  /** After its clients were disconnected, nothing is bridged over the socket. */
  lemma NoSocketClients(w: World, k: SocketId)
    requires Linked(w)
    ensures var v := Disconnect(w, Clients(w, k));
            forall c :: c in v.clients && v.clients[c].connected ==> v.clients[c].sock != k
  {
    forall c | c in w.clients && w.clients[c].connected && w.clients[c].sock == k ensures c in Clients(w, k) {
      assert Listed(w, c);
      assert w.clients[c].session in w.tables[k].sessions.Keys;
    }
    var v := Disconnect(w, Clients(w, k));
    forall c | c in v.clients && v.clients[c].connected ensures v.clients[c].sock != k {
      if c in Clients(w, k) {
        NoneLeft(w, Clients(w, k), c);
      }
    }
  }

  lemma NoNodeClients(w: World, n: string)
    requires Linked(w)
    ensures var v := Disconnect(w, Tracked(w, n));
            forall c :: c in v.clients && v.clients[c].connected ==> v.clients[c].node != n
  {
    var v := Disconnect(w, Tracked(w, n));
    forall c | c in v.clients && v.clients[c].connected ensures v.clients[c].node != n {
      assert c in w.clients && w.clients[c].connected && Listed(w, c);
      if c in Tracked(w, n) {
        NoneLeft(w, Tracked(w, n), c);
      }
    }
  }

  lemma SwitchOffReplaced(v: World, k: SocketId)
    requires Linked(v) && k in v.nodes && !(v.nodes[k].node in v.current && v.current[v.nodes[k].node] == k)
    requires forall c :: c in v.clients && v.clients[c].connected ==> v.clients[c].sock != k
    ensures Linked(v.(nodes := v.nodes[k := NodeSocket(v.nodes[k].node, false)]))
  {
    var u := v.(nodes := v.nodes[k := NodeSocket(v.nodes[k].node, false)]);
    forall c | c in u.clients && u.clients[c].connected ensures Listed(u, c) {
      assert Listed(v, c);
    }
    assert SessionsLive(u) by {
      forall j, s | j in u.tables && s in u.tables[j].sessions ensures Bridged(u, j, s, u.tables[j].sessions[s]) {
        assert Bridged(v, j, s, v.tables[j].sessions[s]);
      }
    }
  }

  lemma SwitchOff(v: World, k: SocketId, n: string)
    requires Linked(v) && k in v.nodes && v.nodes[k].node == n
    requires forall c :: c in v.clients && v.clients[c].connected ==> v.clients[c].sock != k && v.clients[c].node != n
    ensures Linked(v.(nodes := v.nodes[k := NodeSocket(n, false)],
                      current := v.current - {n}, byNode := v.byNode - {n}))
  {
    var u := v.(nodes := v.nodes[k := NodeSocket(n, false)], current := v.current - {n}, byNode := v.byNode - {n});
    forall c | c in u.clients && u.clients[c].connected ensures Listed(u, c) {
      assert Listed(v, c);
    }
    assert SessionsLive(u) by {
      forall j, s | j in u.tables && s in u.tables[j].sessions ensures Bridged(u, j, s, u.tables[j].sessions[s]) {
        assert Bridged(v, j, s, v.tables[j].sessions[s]);
      }
    }
  }
}
