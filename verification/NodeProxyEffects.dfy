/**
 What each event brings about in the multiplexer: who is disconnected, who is bridged, and which sockets there are.
 */
module NodeProxyEffects {
  import opened Options
  import opened NodeProxy
  import opened NodeProxyRuns

  // ---------- who is disconnected ----------

  predicate Connected(w: World, c: ClientId) {
    c in w.clients && w.clients[c].connected
  }

  /** The event disconnects this client, before its connection takes others along. */
  predicate Strikes(w: World, e: Event, d: ClientId)
    requires d in w.clients
  {
    var p := w.clients[d];
    match e
    case ConnDown(conn) => p.conn == conn
    case Bridge(_, conn, _, node, _) => p.conn == conn && !Online(w, node)
    case Close(k, session) => p.sock == k && p.session == session
    case DropUser(node, user) => p.node == node && p.user == user
    case NodeDown(k) =>
      p.sock == k || (k in w.nodes && p.node == w.nodes[k].node && p.node in w.current && w.current[p.node] == k)
    case _ => false
  }

  predicate StruckOn(w: World, e: Event, conn: ConnId, d: ClientId) {
    Connected(w, d) && w.clients[d].conn == conn && Strikes(w, e, d)
  }

  /** A client goes by itself, or with a client on its connection that the event disconnects. */
  predicate Goes(w: World, e: Event, c: ClientId)
    requires c in w.clients
  {
    e == Leave(c) || exists d :: d in w.clients && StruckOn(w, e, w.clients[c].conn, d)
  }

  /** A client keeps everything but its being connected. */
  predicate ClientAsTold(w: World, e: Event, v: World, c: ClientId)
    requires Connected(w, c)
  {
    c in v.clients && v.clients[c] == w.clients[c].(connected := !Goes(w, e, c))
  }

  lemma GoneClient(w: World, v: World, cs: set<ClientId>, c: ClientId)
    requires Connected(w, c) && v.clients == Gone(w, cs).clients
    ensures c in v.clients && v.clients[c] == w.clients[c].(connected := c !in cs)
  {
  }

  /** Disconnecting exactly the clients an event strikes disconnects exactly those that go. */
  lemma StruckGo(w: World, e: Event, cs: set<ClientId>, c: ClientId)
    requires Connected(w, c) && !e.Leave?
    requires forall d :: Connected(w, d) ==> (d in cs <==> Strikes(w, e, d))
    ensures c in OnConns(w.clients, cs) <==> Goes(w, e, c)
  {
    if Goes(w, e, c) {
      var d :| d in w.clients && StruckOn(w, e, w.clients[c].conn, d);
      assert d in cs;
    }
    if c in OnConns(w.clients, cs) {
      var d :| d in cs && Connected(w, d) && w.clients[c].conn == w.clients[d].conn;
      assert StruckOn(w, e, w.clients[c].conn, d);
    }
  }

  lemma StruckConn(w: World, e: Event, conn: ConnId, c: ClientId)
    requires Connected(w, c) && (e == ConnDown(conn) || (e.Bridge? && e.conn == conn && !Online(w, e.node)))
    ensures c in OfConn(w.clients, conn) <==> Goes(w, e, c)
  {
    if w.clients[c].conn == conn {
      assert StruckOn(w, e, conn, c);
    }
  }

  lemma UserClients(w: World, node: string, user: nat, d: ClientId)
    requires Linked(w) && Connected(w, d)
    ensures d in OfUser(w, node, user) <==> w.clients[d].node == node && w.clients[d].user == user
  {
    assert Listed(w, d);
  }

  lemma SocketClients(w: World, k: SocketId, d: ClientId)
    requires Linked(w) && Connected(w, d)
    ensures d in Clients(w, k) <==> w.clients[d].sock == k
  {
    assert Listed(w, d);
    if d in Clients(w, k) {
      var s :| s in w.tables[k].sessions && w.tables[k].sessions[s] == d;
      assert Bridged(w, k, s, d);
    }
    if w.clients[d].sock == k {
      assert w.clients[d].session in w.tables[k].sessions.Keys;
    }
  }

  lemma NodeClients(w: World, n: string, d: ClientId)
    requires Linked(w) && Connected(w, d)
    ensures d in Tracked(w, n) <==> w.clients[d].node == n
  {
    assert Listed(w, d);
  }

  /** Some connected client on this connection hangs on the socket, or belongs to the node. */
  predicate OnSocket(w: World, k: SocketId, conn: ConnId) {
    exists d :: d in w.clients && Connected(w, d) && w.clients[d].conn == conn && w.clients[d].sock == k
  }

  predicate OnNode(w: World, n: string, conn: ConnId) {
    exists d :: d in w.clients && Connected(w, d) && w.clients[d].conn == conn && w.clients[d].node == n
  }

  lemma SocketStruck(w: World, k: SocketId, c: ClientId)
    requires Linked(w) && Connected(w, c)
    ensures c in OnConns(w.clients, Clients(w, k)) <==> OnSocket(w, k, w.clients[c].conn)
  {
    if c in OnConns(w.clients, Clients(w, k)) {
      var d :| d in Clients(w, k) && Connected(w, d) && w.clients[c].conn == w.clients[d].conn;
      SocketClients(w, k, d);
    }
    if OnSocket(w, k, w.clients[c].conn) {
      var d :| d in w.clients && Connected(w, d) && w.clients[d].conn == w.clients[c].conn && w.clients[d].sock == k;
      SocketClients(w, k, d);
    }
  }

  lemma NodeStruck(w: World, n: string, c: ClientId)
    requires Linked(w) && Connected(w, c)
    ensures c in OnConns(w.clients, Tracked(w, n)) <==> OnNode(w, n, w.clients[c].conn)
  {
    if c in OnConns(w.clients, Tracked(w, n)) {
      var d :| d in Tracked(w, n) && Connected(w, d) && w.clients[c].conn == w.clients[d].conn;
      NodeClients(w, n, d);
    }
    if OnNode(w, n, w.clients[c].conn) {
      var d :| d in w.clients && Connected(w, d) && w.clients[d].conn == w.clients[c].conn && w.clients[d].node == n;
      NodeClients(w, n, d);
    }
  }

  lemma Unstruck(w: World, v: World, k: SocketId, d: ClientId)
    requires Linked(w) && v == Disconnect(w, Clients(w, k)) && Connected(w, d) && !OnSocket(w, k, w.clients[d].conn)
    ensures d in v.clients && v.clients[d] == w.clients[d]
  {
    SocketStruck(w, k, d);
    hide Linked;
    hide OnConns;
    hide OnSocket;
    GoneClient(w, v, OnConns(w.clients, Clients(w, k)), d);
  }

  lemma WasConnected(w: World, v: World, cs: set<ClientId>, d: ClientId)
    requires v == Disconnect(w, cs) && Connected(v, d)
    ensures Connected(w, d) && w.clients[d] == v.clients[d]
  {
  }

  /**
   Disconnecting the socket's clients takes whole connections, so the node's clients left are on other connections.
   */
  lemma NodeLeftOver(w: World, v: World, k: SocketId, n: string, conn: ConnId)
    requires Linked(w) && v == Disconnect(w, Clients(w, k)) && !OnSocket(w, k, conn)
    ensures OnNode(v, n, conn) <==> OnNode(w, n, conn)
  {
    hide Linked;
    hide Disconnect;
    hide OnSocket;
    if OnNode(w, n, conn) {
      var d :| d in w.clients && Connected(w, d) && w.clients[d].conn == conn && w.clients[d].node == n;
      Unstruck(w, v, k, d);
      assert d in v.clients && Connected(v, d);
    }
    if OnNode(v, n, conn) {
      var d :| d in v.clients && Connected(v, d) && v.clients[d].conn == conn && v.clients[d].node == n;
      WasConnected(w, v, Clients(w, k), d);
      assert d in w.clients && Connected(w, d);
    }
  }

  lemma LoseNodeIs(w: World, k: SocketId)
    requires k in w.nodes
    ensures var n, v := w.nodes[k].node, Disconnect(w, Clients(w, k));
            LoseNode(w, k).clients ==
              if n in w.current && w.current[n] == k then Disconnect(v, Tracked(v, n)).clients else v.clients
  {
    var n := w.nodes[k].node;
    var nodes := w.nodes[k := NodeSocket(n, false)];
    var cs := Clients(w, k);
    assert Disconnect(w.(nodes := nodes), cs) == Disconnect(w, cs).(nodes := nodes);
  }

  lemma NodeDownClients(w: World, k: SocketId, c: ClientId)
    requires Linked(w) && Enabled(w, NodeDown(k)) && Connected(w, c)
    ensures var n, conn := w.nodes[k].node, w.clients[c].conn;
            var u := LoseNode(w, k);
            c in u.clients && u.clients[c] == w.clients[c].(
              connected := !OnSocket(w, k, conn) && !(n in w.current && w.current[n] == k && OnNode(w, n, conn)))
  {
    hide Linked;
    hide OnConns;
    hide LoseNode;
    hide OnSocket;
    hide OnNode;
    hide Gone;
    var n, conn, cs := w.nodes[k].node, w.clients[c].conn, Clients(w, k);
    var v := Disconnect(w, cs);
    LoseNodeIs(w, k);
    GoneKeeps(w, OnConns(w.clients, cs));
    SocketStruck(w, k, c);
    GoneClient(w, v, OnConns(w.clients, cs), c);
    var u := Disconnect(v, Tracked(v, n));
    if !OnSocket(w, k, conn) {
      NodeStruck(v, n, c);
      NodeLeftOver(w, v, k, n, conn);
      GoneClient(v, u, OnConns(v.clients, Tracked(v, n)), c);
    } else {
      GoneStaysGone(v, u, OnConns(v.clients, Tracked(v, n)), c);
    }
  }

  lemma GoneStaysGone(w: World, v: World, cs: set<ClientId>, c: ClientId)
    requires c in w.clients && !w.clients[c].connected && v == Gone(w, cs)
    ensures c in v.clients && v.clients[c] == w.clients[c]
  {
  }

  lemma NodeDownGoes(w: World, k: SocketId, c: ClientId)
    requires Enabled(w, NodeDown(k)) && Connected(w, c)
    ensures var n, conn := w.nodes[k].node, w.clients[c].conn;
            Goes(w, NodeDown(k), c) <==>
              OnSocket(w, k, conn) || (n in w.current && w.current[n] == k && OnNode(w, n, conn))
  {
    var n, conn, e := w.nodes[k].node, w.clients[c].conn, NodeDown(k);
    if Goes(w, e, c) {
      var d :| d in w.clients && StruckOn(w, e, conn, d);
      assert Connected(w, d);
    }
    if OnSocket(w, k, conn) {
      var d :| d in w.clients && Connected(w, d) && w.clients[d].conn == conn && w.clients[d].sock == k;
      assert StruckOn(w, e, conn, d);
    }
    if n in w.current && w.current[n] == k && OnNode(w, n, conn) {
      var d :| d in w.clients && Connected(w, d) && w.clients[d].conn == conn && w.clients[d].node == n;
      assert StruckOn(w, e, conn, d);
    }
  }

  lemma ClosedSession(w: World, k: SocketId, session: SessionId, d: ClientId)
    requires Linked(w) && Connected(w, d)
    ensures k in w.tables && session in w.tables[k].sessions && w.tables[k].sessions[session] == d <==>
              w.clients[d].sock == k && w.clients[d].session == session
  {
    assert Listed(w, d);
    if k in w.tables && session in w.tables[k].sessions {
      assert Bridged(w, k, session, w.tables[k].sessions[session]);
    }
  }

  lemma CloseClients(w: World, k: SocketId, session: SessionId, c: ClientId)
    requires Linked(w) && Connected(w, c)
    ensures ClientAsTold(w, Close(k, session), Step(w, Close(k, session)), c)
  {
    hide Linked;
    var e := Close(k, session);
    if k in w.tables && session in w.tables[k].sessions {
      var cs := {w.tables[k].sessions[session]};
      CloseIsDisconnect(w, k, session);
      forall d | Connected(w, d) ensures d in cs <==> Strikes(w, e, d) {
        ClosedSession(w, k, session, d);
      }
      StruckGo(w, e, cs, c);
      hide Goes;
      GoneClient(w, Disconnect(w, cs), OnConns(w.clients, cs), c);
    } else {
      forall d | Connected(w, d) ensures !Strikes(w, e, d) {
        ClosedSession(w, k, session, d);
      }
    }
  }

  lemma DropUserClients(w: World, node: string, user: nat, c: ClientId)
    requires Linked(w) && Connected(w, c)
    ensures ClientAsTold(w, DropUser(node, user), Step(w, DropUser(node, user)), c)
  {
    var e, cs := DropUser(node, user), OfUser(w, node, user);
    forall d | Connected(w, d) ensures d in cs <==> Strikes(w, e, d) {
      UserClients(w, node, user, d);
    }
    hide Linked;
    StruckGo(w, e, cs, c);
    hide Goes;
    GoneClient(w, Disconnect(w, cs), OnConns(w.clients, cs), c);
  }

  lemma ConnClients(w: World, e: Event, conn: ConnId, c: ClientId)
    requires Connected(w, c) && (e == ConnDown(conn) || (e.Bridge? && e.conn == conn && !Online(w, e.node)))
    requires Enabled(w, e)
    ensures ClientAsTold(w, e, Step(w, e), c)
  {
    StruckConn(w, e, conn, c);
    hide Goes;
    GoneClient(w, Gone(w, OfConn(w.clients, conn)), OfConn(w.clients, conn), c);
  }

  lemma NoneGoes(w: World, e: Event, c: ClientId)
    requires Connected(w, c) && Enabled(w, e)
    requires e.NodeUp? || e.Register? || e.Ask? || e.Reply? || e.TimedOut? || e.Tick?
             || (e.Bridge? && Online(w, e.node))
    ensures !Goes(w, e, c)
  {
  }

  lemma LeaveClients(w: World, d: ClientId, c: ClientId)
    requires Connected(w, c) && Enabled(w, Leave(d))
    ensures ClientAsTold(w, Leave(d), Step(w, Leave(d)), c)
  {
    assert Goes(w, Leave(d), c) <==> c == d;
  }

  /**
   Every event and every connected client: it is disconnected exactly when the event says so of it, or of a client on
   its connection, and keeps its connection, user, node, socket and session.
   */
  lemma ClientsExactly(w: World, e: Event, c: ClientId)
    requires Linked(w) && Enabled(w, e) && Connected(w, c)
    ensures ClientAsTold(w, e, Step(w, e), c)
  {
    if e.Close? {
      CloseClients(w, e.k, e.session, c);
    } else if e.DropUser? {
      DropUserClients(w, e.node, e.user, c);
    } else if e.ConnDown? || (e.Bridge? && !Online(w, e.node)) {
      ConnClients(w, e, e.conn, c);
    } else if e.NodeDown? {
      NodeDownClients(w, e.k, c);
      NodeDownGoes(w, e.k, c);
      hide Goes;
      hide LoseNode;
    } else if e.Leave? {
      LeaveClients(w, e.c, c);
    } else {
      NoneGoes(w, e, c);
      hide Goes;
    }
  }

  /**
   A client that connects is bridged over its node's current socket, under its new session, exactly when that socket is
   connected.
   */
  lemma BridgeOpens(w: World, e: Event)
    requires Linked(w) && Enabled(w, e) && e.Bridge?
    ensures var v := Step(w, e);
            && (e.c in v.clients <==> Online(w, e.node))
            && (e.c in v.clients ==>
                  && v.clients[e.c] == Client(e.conn, e.user, e.node, w.current[e.node], e.session, true)
                  && Listed(v, e.c) && e.c in Tracked(v, e.node))
  {
    StepKeeps(w, e);
    hide Linked;
  }

  // ---------- node sockets ----------

  function SocketOf(w: World, n: string): Option<SocketId> {
    if n in w.current then Some(w.current[n]) else None
  }

  /** Which node sockets are known and connected, and which one is a node's current one. */
  ghost predicate NodesAsTold(w: World, e: Event, v: World) {
    && (forall k :: k in v.nodes <==> k in w.nodes || (e.NodeUp? && e.k == k))
    && (forall k :: k in v.nodes ==>
          v.nodes[k] == if e.NodeUp? && e.k == k then NodeSocket(e.node, true)
                        else NodeSocket(w.nodes[k].node, w.nodes[k].connected && e != NodeDown(k)))
    && (forall n :: SocketOf(v, n) ==
          if e.NodeUp? && e.node == n then Some(e.k)
          else if e.Register? && e.k in w.nodes && w.nodes[e.k].node == n then Some(e.k)
          else if e.NodeDown? && SocketOf(w, n) == Some(e.k) then None
          else SocketOf(w, n))
  }

  lemma SameNodes(w: World, e: Event, v: World)
    requires v.nodes == w.nodes && v.current == w.current && !e.NodeUp? && !e.Register? && !e.NodeDown?
    ensures NodesAsTold(w, e, v)
  {
  }

  lemma LeavingNodes(w: World, e: Event)
    requires Enabled(w, e) && (e.Leave? || e.ConnDown? || e.DropUser? || e.Close? || e.Bridge?)
    ensures Step(w, e).nodes == w.nodes && Step(w, e).current == w.current
  {
  }

  lemma LostNode(w: World, k: SocketId)
    requires k in w.nodes
    ensures var n, u := w.nodes[k].node, LoseNode(w, k);
            && u.nodes == w.nodes[k := NodeSocket(n, false)]
            && u.current == if n in w.current && w.current[n] == k then w.current - {n} else w.current
  {
  }

  lemma NodeDownNodes(w: World, k: SocketId)
    requires CurrentLive(w) && Enabled(w, NodeDown(k))
    ensures NodesAsTold(w, NodeDown(k), Step(w, NodeDown(k)))
  {
    LostNode(w, k);
    hide LoseNode;
  }

  lemma ComingNodes(w: World, e: Event)
    requires CurrentLive(w) && Enabled(w, e) && (e.NodeUp? || e.Register?)
    ensures NodesAsTold(w, e, Step(w, e))
  {
  }

  lemma QuietNodes(w: World, e: Event)
    requires Enabled(w, e) && (e.Ask? || e.Reply? || e.TimedOut? || e.Tick?)
    ensures Step(w, e).nodes == w.nodes && Step(w, e).current == w.current
  {
  }

  /** Which node sockets are connected, and which is a node's current one, after any event. */
  lemma NodesExactly(w: World, e: Event)
    requires Linked(w) && Enabled(w, e)
    ensures NodesAsTold(w, e, Step(w, e))
  {
    hide Step;
    hide NodesAsTold;
    if e.NodeDown? {
      NodeDownNodes(w, e.k);
    } else if e.NodeUp? || e.Register? {
      ComingNodes(w, e);
    } else if e.Ask? || e.Reply? || e.TimedOut? || e.Tick? {
      QuietNodes(w, e);
      SameNodes(w, e, Step(w, e));
    } else {
      LeavingNodes(w, e);
      SameNodes(w, e, Step(w, e));
    }
  }
}
