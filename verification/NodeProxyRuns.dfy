/**
 Every run of the multiplexer: what stays linked, whom a call is acknowledged to, and what a dropped node socket takes
 with it.
 */
module NodeProxyRuns {
  import opened Options
  import opened NodeProxy

  // ---------- every step keeps the invariant ----------

  lemma LoggedKeeps(w: World, v: World)
    requires Linked(v)
    ensures Linked(Logged(w, v))
  {
    var u := Logged(w, v);
    forall k, s | k in u.tables && s in u.tables[k].sessions ensures Bridged(u, k, s, u.tables[k].sessions[s]) {
      assert Bridged(v, k, s, v.tables[k].sessions[s]);
    }
    forall c | c in u.clients && u.clients[c].connected ensures Listed(u, c) {
      assert Listed(v, c);
    }
  }

  lemma NodeUpKeeps(w: World, k: SocketId, node: string)
    requires Linked(w) && k !in w.nodes
    ensures Linked(Step(w, NodeUp(k, node)))
  {
    var v := Step(w, NodeUp(k, node));
    forall j, s | j in v.tables && s in v.tables[j].sessions ensures Bridged(v, j, s, v.tables[j].sessions[s]) {
      assert Bridged(w, j, s, w.tables[j].sessions[s]);
    }
    forall c | c in v.clients && v.clients[c].connected ensures Listed(v, c) {
      assert Listed(w, c);
    }
  }

  lemma RegisterKeeps(w: World, k: SocketId)
    requires Linked(w) && k in w.nodes
    ensures Linked(Step(w, Register(k)))
  {
    var v := Step(w, Register(k));
    forall j, s | j in v.tables && s in v.tables[j].sessions ensures Bridged(v, j, s, v.tables[j].sessions[s]) {
      assert Bridged(w, j, s, w.tables[j].sessions[s]);
    }
    forall c | c in v.clients && v.clients[c].connected ensures Listed(v, c) {
      assert Listed(w, c);
    }
  }

  lemma OpenSessions(w: World, c: ClientId, conn: ConnId, user: nat, node: string, session: SessionId)
    requires Linked(w) && Online(w, node) && Enabled(w, Bridge(c, conn, user, node, session))
    ensures SessionsLive(Open(w, c, conn, user, node, session)) && ByNodeLive(Open(w, c, conn, user, node, session))
  {
    var v := Open(w, c, conn, user, node, session);
    var k := w.current[node];
    forall j, s | j in v.tables && s in v.tables[j].sessions ensures Bridged(v, j, s, v.tables[j].sessions[s]) {
      if j in w.tables && s in w.tables[j].sessions && !(j == k && s == session) {
        assert Bridged(w, j, s, w.tables[j].sessions[s]);
      }
    }
  }

  lemma OpenListed(w: World, c: ClientId, conn: ConnId, user: nat, node: string, session: SessionId)
    requires Linked(w) && Online(w, node) && Enabled(w, Bridge(c, conn, user, node, session))
    ensures ClientsListed(Open(w, c, conn, user, node, session))
  {
    var v := Open(w, c, conn, user, node, session);
    forall d | d in v.clients && v.clients[d].connected ensures Listed(v, d) {
      if d != c {
        assert Listed(w, d);
      }
    }
  }

  lemma OpenKeeps(w: World, c: ClientId, conn: ConnId, user: nat, node: string, session: SessionId)
    requires Linked(w) && Online(w, node) && Enabled(w, Bridge(c, conn, user, node, session))
    ensures Linked(Open(w, c, conn, user, node, session))
  {
    OpenSessions(w, c, conn, user, node, session);
    OpenListed(w, c, conn, user, node, session);
    OpenCalls(w, c, conn, user, node, session);
    hide SessionsLive;
    hide ClientsListed;
    hide ByNodeLive;
    hide CallsLive;
    hide CallsUnique;
  }

  lemma OpenCalls(w: World, c: ClientId, conn: ConnId, user: nat, node: string, session: SessionId)
    requires Linked(w) && Online(w, node)
    ensures CallsLive(Open(w, c, conn, user, node, session)) && CallsUnique(Open(w, c, conn, user, node, session))
  {
    hide SessionsLive;
    hide ClientsListed;
    hide ByNodeLive;
    hide SessionsUnique;
    var v := Open(w, c, conn, user, node, session);
    forall j, call | j in v.tables && call in v.tables[j].calls
      ensures CallLive(v.tables[j], call, v.usedCalls, v.now)
    {
      assert CallLive(w.tables[j], call, w.usedCalls, w.now);
    }
  }

  /** Steps on calls leave sessions and clients as they are. */
  lemma SameSessions(w: World, v: World)
    requires Linked(w) && v.clients == w.clients && v.byNode == w.byNode && v.current == w.current && v.nodes == w.nodes
    requires v.tables.Keys == w.tables.Keys
    requires forall k :: k in w.tables ==> v.tables[k].sessions == w.tables[k].sessions
    ensures SessionsLive(v) && ClientsListed(v) && ByNodeLive(v) && SessionsUnique(v) && CurrentLive(v)
  {
    forall j, s | j in v.tables && s in v.tables[j].sessions ensures Bridged(v, j, s, v.tables[j].sessions[s]) {
      assert Bridged(w, j, s, w.tables[j].sessions[s]);
    }
    forall d | d in v.clients && v.clients[d].connected ensures Listed(v, d) {
      assert Listed(w, d);
    }
  }

  lemma PlaceCalls(w: World, c: ClientId, call: CallId)
    requires Linked(w) && Enabled(w, Ask(c, call))
    ensures CallsLive(Place(w, c, call)) && CallsUnique(Place(w, c, call))
  {
    hide SessionsLive;
    hide ByNodeLive;
    hide SessionsUnique;
    var v := Place(w, c, call);
    assert Listed(w, c);
    forall j | j in w.tables ensures call !in w.tables[j].calls {
      assert call in w.tables[j].calls ==> CallLive(w.tables[j], call, w.usedCalls, w.now);
    }
    forall j, x | j in v.tables && x in v.tables[j].calls ensures CallLive(v.tables[j], x, v.usedCalls, v.now) {
      assert x in w.tables[j].calls ==> CallLive(w.tables[j], x, w.usedCalls, w.now);
    }
  }

  lemma PlaceKeeps(w: World, c: ClientId, call: CallId)
    requires Linked(w) && Enabled(w, Ask(c, call))
    ensures Linked(Place(w, c, call))
  {
    hide SessionsLive;
    hide ByNodeLive;
    hide SessionsUnique;
    hide CallsLive;
    hide CallsUnique;
    assert Listed(w, c);
    PlaceCalls(w, c, call);
    SameSessions(w, Place(w, c, call));
  }

  lemma AcknowledgeCalls(w: World, k: SocketId, call: CallId)
    requires CallsLive(w) && CallsUnique(w) && k in w.tables && call in w.tables[k].calls
    ensures CallsLive(Acknowledge(w, k, call)) && CallsUnique(Acknowledge(w, k, call))
  {
    var v := Acknowledge(w, k, call);
    forall j, x | j in v.tables && x in v.tables[j].calls ensures CallLive(v.tables[j], x, v.usedCalls, v.now) {
      assert CallLive(w.tables[j], x, w.usedCalls, w.now);
    }
  }

  lemma AcknowledgeKeeps(w: World, k: SocketId, call: CallId)
    requires Linked(w) && k in w.tables && call in w.tables[k].calls
    ensures Linked(Acknowledge(w, k, call))
  {
    hide SessionsLive;
    hide ClientsListed;
    hide ByNodeLive;
    hide SessionsUnique;
    hide CallsLive;
    hide CallsUnique;
    AcknowledgeCalls(w, k, call);
    SameSessions(w, Acknowledge(w, k, call));
  }

  /** A session that is purged anyway may be deleted first. */
  lemma PurgeAfterDelete(w: World, k: SocketId, session: SessionId, cs: set<ClientId>)
    requires k in w.tables && session in SessionsOn(w.clients, cs, k)
    ensures var v := w.(tables := w.tables[k := w.tables[k].(sessions := w.tables[k].sessions - {session})]);
            PurgeAll(v, cs) == PurgeAll(w, cs)
  {
    var gone := SessionsOn(w.clients, cs, k);
    assert w.tables[k].sessions - {session} - gone == w.tables[k].sessions - gone;
  }

  /** The node's close message leads to what disconnecting the client does. */
  lemma CloseIsDisconnect(w: World, k: SocketId, session: SessionId)
    requires Linked(w) && k in w.tables && session in w.tables[k].sessions
    ensures var c := w.tables[k].sessions[session];
            CloseSession(w, k, session) == Logged(w, Disconnect(w, {c}))
  {
    var c := w.tables[k].sessions[session];
    assert Bridged(w, k, session, c);
    var cs := OnConns(w.clients, {c});
    assert c in cs;
    PurgeAfterDelete(w, k, session, cs);
    hide Linked;
    hide PurgeAll;
  }

  lemma TickKeeps(w: World, until: int)
    requires Linked(w) && Enabled(w, Tick(until))
    ensures Linked(Step(w, Tick(until)))
  {
    var v := w.(now := until);
    forall j, s | j in v.tables && s in v.tables[j].sessions ensures Bridged(v, j, s, v.tables[j].sessions[s]) {
      assert Bridged(w, j, s, w.tables[j].sessions[s]);
    }
    forall d | d in v.clients && v.clients[d].connected ensures Listed(v, d) {
      assert Listed(w, d);
    }
    forall j, x | j in v.tables && x in v.tables[j].calls ensures CallLive(v.tables[j], x, v.usedCalls, v.now) {
      assert CallLive(w.tables[j], x, w.usedCalls, w.now);
    }
  }

  lemma StepKeeps(w: World, e: Event)
    requires Linked(w) && Enabled(w, e)
    ensures Linked(Step(w, e))
  {
    hide Linked;
    hide LoseNode;
    hide Gone;
    hide Open;
    hide Place;
    hide Acknowledge;
    hide Logged;
    match e
    case NodeUp(k, node) => NodeUpKeeps(w, k, node);
    case Register(k) => RegisterKeeps(w, k);
    case NodeDown(k) => LoseNodeKeeps(w, k); LoggedKeeps(w, LoseNode(w, k));
    case Bridge(c, conn, user, node, session) =>
      if Online(w, node) {
        OpenKeeps(w, c, conn, user, node, session);
      } else {
        GoneKeeps(w, OfConn(w.clients, conn));
        LoggedKeeps(w, Gone(w, OfConn(w.clients, conn)));
      }
    case Ask(c, call) => PlaceKeeps(w, c, call);
    case Reply(k, session, call) =>
      if Answer(w, k, session, call) != w {
        AcknowledgeKeeps(w, k, call);
      }
    case TimedOut(k, call) => AcknowledgeKeeps(w, k, call);
    case Close(k, session) =>
      if k in w.tables && session in w.tables[k].sessions {
        CloseIsDisconnect(w, k, session);
        var cs := OnConns(w.clients, {w.tables[k].sessions[session]});
        GoneKeeps(w, cs);
        LoggedKeeps(w, Gone(w, cs));
      }
    case Leave(c) => GoneKeeps(w, {c}); LoggedKeeps(w, Gone(w, {c}));
    case ConnDown(conn) =>
      GoneKeeps(w, OfConn(w.clients, conn));
      LoggedKeeps(w, Gone(w, OfConn(w.clients, conn)));
    case DropUser(node, user) =>
      var cs := OnConns(w.clients, OfUser(w, node, user));
      GoneKeeps(w, cs);
      LoggedKeeps(w, Gone(w, cs));
    case Tick(until) => TickKeeps(w, until);
  }

  // ---------- what linked means ----------

  predicate Holds(w: World, k: SocketId, s: SessionId, c: ClientId) {
    k in w.tables && s in w.tables[k].sessions && w.tables[k].sessions[s] == c
  }

  /** A node's client set is the union of the session tables of its sockets. */
  lemma ClientSetIsUnion(w: World, n: string, c: ClientId)
    requires Linked(w)
    ensures c in Tracked(w, n) <==>
            exists k, s :: k in w.nodes && w.nodes[k].node == n && Holds(w, k, s, c)
  {
    if c in Tracked(w, n) {
      assert Listed(w, c);
      var k, s := w.clients[c].sock, w.clients[c].session;
      assert k in w.nodes && w.nodes[k].node == n && Holds(w, k, s, c);
    }
    if k, s :| k in w.nodes && w.nodes[k].node == n && Holds(w, k, s, c) {
      assert Bridged(w, k, s, c) && Listed(w, c);
    }
  }

  /** A connected client that hangs on this socket, which is connected. */
  predicate BridgedOver(w: World, k: SocketId, c: ClientId) {
    c in w.clients && w.clients[c].connected && w.clients[c].sock == k && k in w.nodes && w.nodes[k].connected
  }

  lemma BridgedOverLive(w: World, k: SocketId, s: SessionId)
    requires Linked(w) && k in w.tables && s in w.tables[k].sessions
    ensures BridgedOver(w, k, w.tables[k].sessions[s])
  {
    assert Bridged(w, k, s, w.tables[k].sessions[s]) && Listed(w, w.tables[k].sessions[s]);
  }

  /** Neither a session nor a call is left on a node socket that dropped. */
  lemma DroppedSocketIsEmpty(w: World, k: SocketId)
    requires Linked(w) && Enabled(w, NodeDown(k))
    ensures var v := Step(w, NodeDown(k)); k in v.tables ==> v.tables[k] == Table(map[], map[])
  {
    var v := Step(w, NodeDown(k));
    StepKeeps(w, NodeDown(k));
    if k in v.tables {
      forall s | s in v.tables[k].sessions ensures BridgedOver(v, k, v.tables[k].sessions[s]) {
        BridgedOverLive(v, k, s);
      }
      forall s ensures s !in v.tables[k].sessions {
        assert s in v.tables[k].sessions ==> BridgedOver(v, k, v.tables[k].sessions[s]);
      }
      forall call ensures call !in v.tables[k].calls {
        assert call in v.tables[k].calls ==> CallLive(v.tables[k], call, v.usedCalls, v.now);
      }
    }
  }

  /**
   When a replaced node socket drops, a client bridged over another socket, on a connection that carries nothing bridged
   over the dropped one, stays connected with its session, its calls and its place in the node's client set.
   */
  lemma OthersUntouched(w: World, k: SocketId, c: ClientId)
    requires Linked(w) && Enabled(w, NodeDown(k)) && !(w.nodes[k].node in w.current && w.current[w.nodes[k].node] == k)
    requires c in w.clients && w.clients[c].connected
    requires forall d :: d in w.clients && w.clients[d].connected && w.clients[d].sock == k ==>
               w.clients[d].conn != w.clients[c].conn
    ensures var v := Step(w, NodeDown(k));
            var p := w.clients[c];
            && c in v.clients && v.clients[c] == p && c in Tracked(v, p.node)
            && p.sock in v.tables && p.session in v.tables[p.sock].sessions && v.tables[p.sock].sessions[p.session] == c
            && (forall call :: call in w.tables[p.sock].calls && w.tables[p.sock].calls[call].session == p.session ==>
                  call in v.tables[p.sock].calls && v.tables[p.sock].calls[call] == w.tables[p.sock].calls[call])
  {
    var p := w.clients[c];
    assert Listed(w, c);
    var cs := OnConns(w.clients, Clients(w, k));
    forall d | d in Clients(w, k) ensures BridgedOver(w, k, d) {
      var s :| s in w.tables[k].sessions && w.tables[k].sessions[s] == d;
      assert Bridged(w, k, s, d);
    }
    assert c !in cs;
    assert p.session !in SessionsOn(w.clients, cs, p.sock);
  }

  // ---------- acknowledgements over whole runs ----------

  function Start(now: int): World {
    World(now, map[], map[], map[], map[], map[], map[], [])
  }

  predicate IsRun(w: World, es: seq<Event>)
    decreases es
  {
    es == [] || (Enabled(w, es[0]) && IsRun(Step(w, es[0]), es[1..]))
  }

  function After(w: World, es: seq<Event>): World
    requires IsRun(w, es)
    decreases es
  {
    if es == [] then w else After(Step(w, es[0]), es[1..])
  }

  /** The entry is past: its call is in no table, and the clients whose sessions it ended are gone. */
  predicate Past(w: World, e: Entry) {
    && (e.acked.Some? ==>
          && e.acked.value in w.usedCalls
          && forall k :: k in w.tables ==> e.acked.value !in w.tables[k].calls)
    && (forall c :: c in w.clients && w.clients[c].session in e.left ==> !w.clients[c].connected)
    && (forall s :: s in e.left ==> HasSession(w.clients, s))
  }

  predicate HasSession(clients: map<ClientId, Client>, s: SessionId) {
    exists c :: c in clients && clients[c].session == s
  }

  ghost predicate AllPast(w: World) {
    forall i :: 0 <= i < |w.log| ==> Past(w, w.log[i])
  }

  /** `later` acknowledges neither what `earlier` did, nor a call of a session that had left by then. */
  predicate Apart(earlier: Entry, later: Entry) {
    later.acked.Some? ==> earlier.acked != later.acked && later.session !in earlier.left && later.session !in later.left
  }

  predicate Orderly(log: seq<Entry>) {
    forall i, j | 0 <= i < j < |log| :: Apart(log[i], log[j])
  }

  predicate InFlight(w: World, call: CallId) {
    exists k :: k in w.tables && call in w.tables[k].calls
  }

  /** Clients keep their sessions and do not come back, new ones have new sessions, and only new calls appear. */
  ghost predicate Grows(w: World, v: World) {
    && (forall call :: call in w.usedCalls ==> call in v.usedCalls && v.usedCalls[call] == w.usedCalls[call])
    && (forall c :: c in w.clients ==> c in v.clients && v.clients[c].session == w.clients[c].session
                                       && (v.clients[c].connected ==> w.clients[c].connected))
    && (forall c :: c in v.clients && c !in w.clients ==> !HasSession(w.clients, v.clients[c].session))
    && (forall call :: InFlight(v, call) ==> call !in w.usedCalls || InFlight(w, call))
  }

  lemma GoneGrows(w: World, cs: set<ClientId>)
    ensures Grows(w, Gone(w, cs))
  {
  }

  lemma GrowsOn(w: World, v: World, u: World)
    requires Grows(w, v) && Grows(v, u) && v.clients.Keys == w.clients.Keys
    ensures Grows(w, u)
  {
    forall c | c in u.clients && c !in w.clients ensures !HasSession(w.clients, u.clients[c].session) {
      if HasSession(w.clients, u.clients[c].session) {
        var d :| d in w.clients && w.clients[d].session == u.clients[c].session;
        assert d in v.clients && HasSession(v.clients, u.clients[c].session);
      }
    }
  }

  lemma LoseNodeGrows(w: World, k: SocketId)
    requires k in w.nodes
    ensures Grows(w, LoseNode(w, k))
  {
    hide Grows;
    hide Gone;
    var n := w.nodes[k].node;
    var w1 := w.(nodes := w.nodes[k := NodeSocket(n, false)]);
    SameGrows(w, w1);
    var w2 := Disconnect(w1, Clients(w1, k));
    GoneGrows(w1, OnConns(w1.clients, Clients(w1, k)));
    GoneSame(w1, OnConns(w1.clients, Clients(w1, k)));
    GrowsOn(w, w1, w2);
    if n in w2.current && w2.current[n] == k {
      var w3 := w2.(current := w2.current - {n});
      SameGrows(w2, w3);
      GrowsOn(w, w2, w3);
      var cs := OnConns(w3.clients, Tracked(w2, n));
      GoneGrows(w3, cs);
      GoneSame(w3, cs);
      var w4 := Gone(w3, cs);
      GrowsOn(w, w3, w4);
      SameGrows(w4, w4.(byNode := w4.byNode - {n}));
      GrowsOn(w, w4, w4.(byNode := w4.byNode - {n}));
    }
  }

  lemma GoneSame(w: World, cs: set<ClientId>)
    ensures Gone(w, cs).clients.Keys == w.clients.Keys
  {
  }

  lemma SameGrows(w: World, v: World)
    requires v.clients == w.clients && v.tables == w.tables && v.usedCalls == w.usedCalls
    ensures Grows(w, v)
  {
  }

  lemma LoggedGrows(w: World, v: World)
    requires Grows(w, v)
    ensures Grows(w, Logged(w, v))
  {
    assert forall call :: InFlight(Logged(w, v), call) ==> InFlight(v, call);
  }

  lemma OpenGrows(w: World, c: ClientId, conn: ConnId, user: nat, node: string, session: SessionId)
    requires Online(w, node) && Enabled(w, Bridge(c, conn, user, node, session))
    ensures Grows(w, Open(w, c, conn, user, node, session))
  {
    var v := Open(w, c, conn, user, node, session);
    forall call | InFlight(v, call) ensures InFlight(w, call) {
      var k :| k in v.tables && call in v.tables[k].calls;
      assert k in w.tables && call in w.tables[k].calls;
    }
  }

  lemma PlaceGrows(w: World, c: ClientId, call: CallId)
    requires Enabled(w, Ask(c, call))
    ensures Grows(w, Place(w, c, call))
  {
    var v := Place(w, c, call);
    forall x | InFlight(v, x) ensures x !in w.usedCalls || InFlight(w, x) {
      var k :| k in v.tables && x in v.tables[k].calls;
      assert x == call || (k in w.tables && x in w.tables[k].calls);
    }
  }

  lemma AcknowledgeGrows(w: World, k: SocketId, call: CallId)
    requires k in w.tables && call in w.tables[k].calls
    ensures Grows(w, Acknowledge(w, k, call))
  {
    var v := Acknowledge(w, k, call);
    forall x | InFlight(v, x) ensures InFlight(w, x) {
      var j :| j in v.tables && x in v.tables[j].calls;
      assert j in w.tables && x in w.tables[j].calls;
    }
  }

  lemma StepGrows(w: World, e: Event)
    requires Linked(w) && Enabled(w, e)
    ensures Grows(w, Step(w, e))
  {
    hide Grows;
    hide Linked;
    hide Gone;
    hide LoseNode;
    hide Open;
    hide Place;
    hide Acknowledge;
    hide Logged;
    match e
    case NodeUp(_, _) => SameGrows(w, Step(w, e));
    case Register(_) => SameGrows(w, Step(w, e));
    case Tick(_) => SameGrows(w, Step(w, e));
    case NodeDown(k) => LoseNodeGrows(w, k); LoggedGrows(w, LoseNode(w, k));
    case Bridge(c, conn, user, node, session) =>
      if Online(w, node) {
        OpenGrows(w, c, conn, user, node, session);
      } else {
        GoneLoggedGrows(w, OfConn(w.clients, conn));
      }
    case Close(k, session) =>
      if k in w.tables && session in w.tables[k].sessions {
        CloseIsDisconnect(w, k, session);
        GoneLoggedGrows(w, OnConns(w.clients, {w.tables[k].sessions[session]}));
      } else {
        SameGrows(w, Step(w, e));
      }
    case Leave(c) => GoneLoggedGrows(w, {c});
    case ConnDown(conn) => GoneLoggedGrows(w, OfConn(w.clients, conn));
    case DropUser(node, user) => GoneLoggedGrows(w, OnConns(w.clients, OfUser(w, node, user)));
    case Ask(c, call) => PlaceGrows(w, c, call);
    case Reply(k, session, call) =>
      if Answer(w, k, session, call) == w {
        SameGrows(w, w);
      } else {
        AcknowledgeGrows(w, k, call);
      }
    case TimedOut(k, call) => AcknowledgeGrows(w, k, call);
  }

  lemma GoneLoggedGrows(w: World, cs: set<ClientId>)
    ensures Grows(w, Logged(w, Gone(w, cs)))
  {
    GoneGrows(w, cs);
    LoggedGrows(w, Gone(w, cs));
  }

  lemma PastStays(w: World, v: World, e: Entry)
    requires Past(w, e) && Grows(w, v)
    ensures Past(v, e)
  {
    if e.acked.Some? {
      assert !InFlight(w, e.acked.value) && !InFlight(v, e.acked.value);
    }
    forall c | c in v.clients && v.clients[c].session in e.left ensures !v.clients[c].connected {
      assert HasSession(w.clients, v.clients[c].session);
    }
    forall s | s in e.left ensures HasSession(v.clients, s) {
      var c :| c in w.clients && w.clients[c].session == s;
      assert c in v.clients && v.clients[c].session == s;
    }
  }

  /** A call in flight belongs to a connected client, so its session is in no past entry. */
  lemma InFlightIsFresh(w: World, k: SocketId, call: CallId, e: Entry)
    requires Linked(w) && Past(w, e) && k in w.tables && call in w.tables[k].calls
    ensures e.acked != Some(call) && w.tables[k].calls[call].session !in e.left
    ensures exists c ::
              c in w.clients && w.clients[c].connected && w.clients[c].session == w.tables[k].calls[call].session
  {
    assert CallLive(w.tables[k], call, w.usedCalls, w.now);
    var s := w.tables[k].calls[call].session;
    assert Bridged(w, k, s, w.tables[k].sessions[s]);
  }

  lemma LeftIsPast(w: World, v: World)
    requires Linked(v) && Grows(w, v)
    ensures Past(v, Entry(None, 0, LeftBetween(w.clients, v.clients)))
  {
    var left := LeftBetween(w.clients, v.clients);
    forall s | s in left ensures HasSession(v.clients, s) {
      var c :| c in w.clients && w.clients[c].connected && c in v.clients && !v.clients[c].connected
        && w.clients[c].session == s;
      assert c in v.clients && v.clients[c].session == s;
    }
    forall c | c in v.clients && v.clients[c].session in left ensures !v.clients[c].connected {
      var d :| d in w.clients && w.clients[d].connected && d in v.clients && !v.clients[d].connected
               && w.clients[d].session == v.clients[c].session;
      assert d == c;
    }
  }

  /** What a step adds to the log: nothing, the clients that left, or one call in flight that it acknowledged. */
  lemma StepLog(w: World, e: Event)
    requires Linked(w) && Enabled(w, e)
    ensures var v := Step(w, e);
            || v.log == w.log
            || v.log == w.log + [Entry(None, 0, LeftBetween(w.clients, v.clients))]
            || exists k, call :: k in w.tables && call in w.tables[k].calls && v == Acknowledge(w, k, call)
  {
    hide Linked;
    var v := Step(w, e);
    match e
    case Reply(k, session, call) =>
      if v.log != w.log {
        assert k in w.tables && call in w.tables[k].calls && v == Acknowledge(w, k, call);
      }
    case TimedOut(k, call) => assert k in w.tables && call in w.tables[k].calls && v == Acknowledge(w, k, call);
    case _ =>
  }

  lemma EntryKeepsLog(w: World, v: World, e: Entry)
    requires AllPast(w) && Orderly(w.log) && Grows(w, v) && v.log == w.log + [e] && Past(v, e)
    requires forall i :: 0 <= i < |w.log| ==> Apart(w.log[i], e)
    ensures AllPast(v) && Orderly(v.log)
  {
    hide Grows;
    forall i | 0 <= i < |v.log| ensures Past(v, v.log[i]) {
      if i < |w.log| {
        PastStays(w, v, w.log[i]);
      }
    }
    hide Past;
    forall i, j | 0 <= i < j < |v.log| ensures Apart(v.log[i], v.log[j]) {
      if j < |w.log| {
        assert Apart(w.log[i], w.log[j]);
      }
    }
  }

  lemma StepKeepsLog(w: World, e: Event)
    requires Linked(w) && Enabled(w, e) && AllPast(w) && Orderly(w.log)
    ensures AllPast(Step(w, e)) && Orderly(Step(w, e).log)
  {
    var v := Step(w, e);
    StepKeeps(w, e);
    StepGrows(w, e);
    StepLog(w, e);
    hide Step;
    hide Linked;
    hide Grows;
    hide Past;
    if v.log == w.log + [Entry(None, 0, LeftBetween(w.clients, v.clients))] {
      LeftIsPast(w, v);
      EntryKeepsLog(w, v, Entry(None, 0, LeftBetween(w.clients, v.clients)));
    } else if v.log == w.log {
      forall i | 0 <= i < |w.log| ensures Past(v, w.log[i]) {
        PastStays(w, v, w.log[i]);
      }
    } else {
      var k, call :| k in w.tables && call in w.tables[k].calls && v == Acknowledge(w, k, call);
      AcknowledgedIsPast(w, k, call);
      var entry := Entry(Some(call), w.tables[k].calls[call].session, {});
      forall i | 0 <= i < |w.log| ensures Apart(w.log[i], entry) {
        InFlightIsFresh(w, k, call, w.log[i]);
      }
      EntryKeepsLog(w, v, entry);
    }
  }

  lemma AcknowledgedIsPast(w: World, k: SocketId, call: CallId)
    requires Linked(w) && k in w.tables && call in w.tables[k].calls
    ensures Past(Acknowledge(w, k, call), Entry(Some(call), w.tables[k].calls[call].session, {}))
  {
    assert CallLive(w.tables[k], call, w.usedCalls, w.now);
  }

  lemma {:induction false} RunKeeps(w: World, es: seq<Event>)
    requires Linked(w) && AllPast(w) && Orderly(w.log) && IsRun(w, es)
    ensures Linked(After(w, es)) && AllPast(After(w, es)) && Orderly(After(w, es).log)
    decreases es
  {
    if es != [] {
      hide Linked;
      hide Step;
      StepKeeps(w, es[0]);
      StepKeepsLog(w, es[0]);
      RunKeeps(Step(w, es[0]), es[1..]);
    }
  }

  /**
   Whatever comes in whatever order: each proxied call is acknowledged at most once, by reply or by timeout, and never
   after its client left; each call in flight is under a session that is live on that node socket, and within 60 s.
   */
  lemma RunAcknowledgesOnce(start: int, es: seq<Event>)
    requires IsRun(Start(start), es)
    ensures var w := After(Start(start), es);
            && (forall i, j :: 0 <= i < j < |w.log| && w.log[j].acked.Some? ==>
                  w.log[i].acked != w.log[j].acked && w.log[j].session !in w.log[i].left)
            && (forall k, call :: k in w.tables && call in w.tables[k].calls ==>
                  w.tables[k].calls[call].session in w.tables[k].sessions
                  && w.now <= w.tables[k].calls[call].placedAt + CALL_TIMEOUT)
            && (forall k, s :: k in w.tables && s in w.tables[k].sessions ==> Bridged(w, k, s, w.tables[k].sessions[s]))
  {
    RunKeeps(Start(start), es);
    var w := After(Start(start), es);
    forall i, j | 0 <= i < j < |w.log| && w.log[j].acked.Some?
      ensures w.log[i].acked != w.log[j].acked && w.log[j].session !in w.log[i].left
    {
      assert Apart(w.log[i], w.log[j]);
    }
    forall k, call | k in w.tables && call in w.tables[k].calls
      ensures w.tables[k].calls[call].session in w.tables[k].sessions
      ensures w.now <= w.tables[k].calls[call].placedAt + CALL_TIMEOUT
    {
      assert CallLive(w.tables[k], call, w.usedCalls, w.now);
    }
  }
}
