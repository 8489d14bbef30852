/**
 The multiplexer as the coordinator runs it: maps and sets updated in place by handlers and loops over snapshots.
 */
module NodeProxyTable {
  import opened Options
  import opened NodeProxy

  // ---------- one more client leaving ----------

  lemma GoneMore(w: World, a: set<ClientId>, b: set<ClientId>)
    ensures Gone(Gone(w, a), b) == Gone(w, a + b)
  {
    var v := Gone(w, a);
    assert v.clients == MarkGone(w.clients, a);
    forall k ensures SessionsOn(v.clients, b, k) == SessionsOn(w.clients, b, k)
                     && SessionsOn(w.clients, a + b, k) == SessionsOn(w.clients, a, k) + SessionsOn(w.clients, b, k)
    {
    }
    forall n ensures AtNode(v.clients, b, n) == AtNode(w.clients, b, n)
                     && AtNode(w.clients, a + b, n) == AtNode(w.clients, a, n) + AtNode(w.clients, b, n)
    {
    }
    assert MarkGone(v.clients, b) == MarkGone(w.clients, a + b);
    PurgeMore(w, a, b);
    UntrackMore(w, a, b);
  }

  lemma PurgeTwice(t: Table, a: set<SessionId>, b: set<SessionId>)
    ensures Purge(Purge(t, a), b) == Purge(t, a + b)
  {
    assert t.sessions - a - b == t.sessions - (a + b);
  }

  lemma PurgeMore(w: World, a: set<ClientId>, b: set<ClientId>)
    ensures PurgeAll(Gone(w, a), b) == PurgeAll(w, a + b)
  {
    hide Purge;
    var v := Gone(w, a);
    forall k | k in w.tables
      ensures Purge(v.tables[k], SessionsOn(v.clients, b, k)) == Purge(w.tables[k], SessionsOn(w.clients, a + b, k))
    {
      PurgeTwice(w.tables[k], SessionsOn(w.clients, a, k), SessionsOn(w.clients, b, k));
      assert SessionsOn(v.clients, b, k) == SessionsOn(w.clients, b, k);
      assert SessionsOn(w.clients, a + b, k) == SessionsOn(w.clients, a, k) + SessionsOn(w.clients, b, k);
    }
  }

  lemma UntrackMore(w: World, a: set<ClientId>, b: set<ClientId>)
    ensures UntrackAll(Gone(w, a), b) == UntrackAll(w, a + b)
  {
    var v := Gone(w, a);
    forall n | n in w.byNode
      ensures v.byNode[n] - AtNode(v.clients, b, n) == w.byNode[n] - AtNode(w.clients, a + b, n)
    {
    }
  }

  lemma GoneNone(w: World)
    ensures Gone(w, {}) == w
  {
    forall k | k in w.tables ensures Purge(w.tables[k], SessionsOn(w.clients, {}, k)) == w.tables[k] {
      assert SessionsOn(w.clients, {}, k) == {};
      PurgeNone(w.tables[k]);
    }
    assert PurgeAll(w, {}) == w.tables;
    forall n | n in w.byNode ensures w.byNode[n] - AtNode(w.clients, {}, n) == w.byNode[n] {
      assert AtNode(w.clients, {}, n) == {};
    }
    assert UntrackAll(w, {}) == w.byNode;
    assert MarkGone(w.clients, {}) == w.clients;
  }

  lemma PurgeNone(t: Table)
    ensures Purge(t, {}) == t
  {
    assert t.sessions - {} == t.sessions;
    assert Purge(t, {}).calls == t.calls;
  }

  lemma OnConnsMore(w: World, a: set<ClientId>, c: ClientId)
    ensures OnConns(w.clients, a) + OnConns(Disconnect(w, a).clients, {c}) == OnConns(w.clients, a + {c})
  {
    var v := Disconnect(w, a);
    forall d | d in OnConns(w.clients, a + {c}) && d !in OnConns(w.clients, a) ensures d in OnConns(v.clients, {c}) {
      var x :| x in a + {c} && x in w.clients && w.clients[x].connected && w.clients[x].conn == w.clients[d].conn;
      assert x == c;
      SameConn(w, a, c, d);
      assert v.clients[c] == w.clients[c] && v.clients[d] == w.clients[d];
      assert v.clients[c].connected && v.clients[d].connected && v.clients[d].conn == v.clients[c].conn;
    }
    forall d | d in OnConns(v.clients, {c}) ensures d in OnConns(w.clients, a + {c}) {
      assert c in w.clients && w.clients[c].connected && w.clients[d].connected
        && w.clients[d].conn == w.clients[c].conn;
    }
    forall d | d in OnConns(w.clients, a) ensures d in OnConns(w.clients, a + {c}) {
      var x :| x in a && x in w.clients && w.clients[x].connected && w.clients[x].conn == w.clients[d].conn;
      assert x in a + {c};
    }
  }

  lemma SameConn(w: World, a: set<ClientId>, c: ClientId, d: ClientId)
    requires c in w.clients && d in w.clients && w.clients[d].connected && w.clients[d].conn == w.clients[c].conn
    ensures c in OnConns(w.clients, a) ==> d in OnConns(w.clients, a)
  {
    if c in OnConns(w.clients, a) {
      var x :| x in a && x in w.clients && w.clients[x].connected && w.clients[x].conn == w.clients[c].conn;
      assert w.clients[d].conn == w.clients[x].conn;
    }
  }

  lemma DisconnectMore(w: World, a: set<ClientId>, c: ClientId)
    ensures Disconnect(Disconnect(w, a), {c}) == Disconnect(w, a + {c})
  {
    OnConnsMore(w, a, c);
    GoneMore(w, OnConns(w.clients, a), OnConns(Disconnect(w, a).clients, {c}));
  }

  lemma OnConnsOne(w: World, c: ClientId)
    ensures OnConns(w.clients, {c}) ==
              if c in w.clients && w.clients[c].connected then OfConn(w.clients, w.clients[c].conn) else {}
  {
  }

  lemma GoneOne(w: World, c: ClientId)
    requires c in w.clients
    ensures var p := w.clients[c];
            Gone(w, {c}) == w.(clients := w.clients[c := p.(connected := false)],
                               tables := if p.sock in w.tables
                                 then w.tables[p.sock := Purge(w.tables[p.sock], {p.session})] else w.tables,
                               byNode := if p.node in w.byNode then w.byNode[p.node := w.byNode[p.node] - {c}]
                                 else w.byNode)
  {
    var p := w.clients[c];
    forall k | k in w.tables ensures Purge(w.tables[k], SessionsOn(w.clients, {c}, k))
                                     == if k == p.sock then Purge(w.tables[k], {p.session}) else w.tables[k]
    {
      assert SessionsOn(w.clients, {c}, k) == if k == p.sock then {p.session} else {};
      PurgeNone(w.tables[k]);
    }
    forall n | n in w.byNode
      ensures w.byNode[n] - AtNode(w.clients, {c}, n) == if n == p.node then w.byNode[n] - {c} else w.byNode[n]
    {
      assert AtNode(w.clients, {c}, n) == if n == p.node then {c} else {};
    }
  }

  class Multiplexer {
    var clients: map<ClientId, Client>
    var tables: map<SocketId, Table>
    var byNode: map<string, set<ClientId>>
    var current: map<string, SocketId>
    var nodes: map<SocketId, NodeSocket>
    var now: int
    ghost var usedCalls: map<CallId, SessionId>
    ghost var log: seq<Entry>

    ghost function Abs(): World
      reads this
    {
      World(now, clients, tables, byNode, current, nodes, usedCalls, log)
    }

    constructor (start: int)
      ensures Abs() == World(start, map[], map[], map[], map[], map[], map[], [])
    {
      clients, tables, byNode, current, nodes, now := map[], map[], map[], map[], map[], start;
      usedCalls, log := map[], [];
    }

    method EnsureDispatcher(k: SocketId)
      modifies this`tables
      ensures tables == old(tables)[k := TableOf(old(Abs()), k)]
    {
      if k in tables {
        assert tables == tables[k := tables[k]];
        return;
      }
      tables := tables[k := Table(map[], map[])];
    }

    method TrackClient(n: string, c: ClientId)
      modifies this`byNode
      ensures byNode == old(byNode)[n := NodeProxy.Tracked(old(Abs()), n) + {c}]
    {
      if n !in byNode {
        byNode := byNode[n := {}];
      }
      byNode := byNode[n := byNode[n] + {c}];
    }

    method UntrackClient(n: string, c: ClientId)
      modifies this`byNode
      ensures byNode == if n in old(byNode) then old(byNode)[n := old(byNode)[n] - {c}] else old(byNode)
    {
      if n in byNode {
        byNode := byNode[n := byNode[n] - {c}];
      }
    }

    method DropSessionCalls(k: SocketId, s: SessionId)
      modifies this`tables
      ensures tables == if k in old(tables)
                        then old(tables)[k := Table(old(tables)[k].sessions, Purge(old(tables)[k], {s}).calls)]
                          else old(tables)
    {
      if k !in tables {
        return;
      }
      ghost var t := tables[k];
      var calls := tables[k].calls;
      var left := calls.Keys;
      while left != {}
        invariant left <= calls.Keys <= t.calls.Keys
        invariant forall x :: x in calls ==> calls[x] == t.calls[x]
        invariant forall x :: x in t.calls ==> (x in calls <==> x in left || t.calls[x].session != s)
      {
        var x :| x in left;
        left := left - {x};
        if calls[x].session == s {
          calls := calls - {x};
        }
      }
      assert calls == Purge(t, {s}).calls;
      tables := tables[k := tables[k].(calls := calls)];
    }

    /** The disconnect handler of a bridged client. */
    method ClientGone(c: ClientId)
      requires c in clients
      modifies this`clients, this`tables, this`byNode
      ensures Abs() == Gone(old(Abs()), {c})
    {
      GoneOne(Abs(), c);
      var p := clients[c];
      clients := clients[c := p.(connected := false)];
      if p.sock in tables {
        tables := tables[p.sock := tables[p.sock].(sessions := tables[p.sock].sessions - {p.session})];
      }
      DropSessionCalls(p.sock, p.session);
      UntrackClient(p.node, c);
      hide Gone;
    }

    /** A connection goes down: the handler of each client on it runs. */
    method ConnectionGone(conn: ConnId)
      modifies this`clients, this`tables, this`byNode
      ensures Abs() == Gone(old(Abs()), OfConn(old(clients), conn))
    {
      var all := OfConn(clients, conn);
      var left := all;
      GoneNone(Abs());
      assert all - left == {};
      while left != {}
        invariant left <= all && all <= clients.Keys && Abs() == Gone(old(Abs()), all - left)
      {
        var c :| c in left;
        ghost var done := all - left;
        left := left - {c};
        GoneMore(old(Abs()), done, {c});
        assert done + {c} == all - left;
        ClientGone(c);
        hide Gone;
      }
      assert all - left == all;
    }

    method DisconnectClient(c: ClientId)
      modifies this`clients, this`tables, this`byNode
      ensures Abs() == Disconnect(old(Abs()), {c})
    {
      OnConnsOne(Abs(), c);
      GoneNone(Abs());
      if c !in clients || !clients[c].connected {
        return;
      }
      ConnectionGone(clients[c].conn);
    }

    method DisconnectEach(snapshot: set<ClientId>)
      modifies this`clients, this`tables, this`byNode
      ensures Abs() == Disconnect(old(Abs()), snapshot)
    {
      var left := snapshot;
      assert OnConns(clients, {}) == {} && snapshot - left == {};
      GoneNone(Abs());
      while left != {}
        invariant left <= snapshot && Abs() == Disconnect(old(Abs()), snapshot - left)
      {
        var c :| c in left;
        ghost var done := snapshot - left;
        left := left - {c};
        DisconnectMore(old(Abs()), done, c);
        assert done + {c} == snapshot - left;
        DisconnectClient(c);
        hide Disconnect;
      }
      assert snapshot - left == snapshot;
    }

    method DisconnectNodeSocketClients(k: SocketId)
      modifies this`clients, this`tables, this`byNode
      ensures Abs() == Disconnect(old(Abs()), Clients(old(Abs()), k))
    {
      DisconnectEach(if k in tables then tables[k].sessions.Values else {});
    }

    method DisconnectNodeClients(n: string)
      modifies this`clients, this`tables, this`byNode
      ensures var v := Disconnect(old(Abs()), NodeProxy.Tracked(old(Abs()), n)); Abs() == v.(byNode := v.byNode - {n})
    {
      if n !in byNode {
        assert OnConns(clients, {}) == {};
        GoneNone(Abs());
        assert byNode - {n} == byNode;
        return;
      }
      DisconnectEach(byNode[n]);
      byNode := byNode - {n};
    }

    method DisconnectNodeUser(n: string, user: nat)
      modifies this`clients, this`tables, this`byNode, this`log
      ensures Abs() == Step(old(Abs()), DropUser(n, user))
    {
      var snapshot := if n in byNode then byNode[n] else {};
      var mine := set c | c in snapshot && c in clients && clients[c].user == user;
      assert mine == OfUser(Abs(), n, user);
      DisconnectEach(mine);
      log := log + [Entry(None, 0, LeftBetween(old(clients), clients))];
    }

    method OnNodeConnected(k: SocketId, n: string)
      requires k !in nodes
      modifies this`nodes, this`current
      ensures Abs() == Step(old(Abs()), NodeUp(k, n))
    {
      nodes := nodes[k := NodeSocket(n, true)];
      current := current[n := k];
    }

    /** A socket that is already attached, or even gone by now, becomes its node's current one. */
    method OnNodeRegistered(k: SocketId)
      requires k in nodes
      modifies this`current
      ensures Abs() == Step(old(Abs()), Register(k))
    {
      current := current[nodes[k].node := k];
    }

    method OnNodeDisconnected(k: SocketId)
      requires k in nodes && nodes[k].connected
      modifies this
      ensures Abs() == Step(old(Abs()), NodeDown(k))
    {
      var n := nodes[k].node;
      nodes := nodes[k := NodeSocket(n, false)];
      DisconnectNodeSocketClients(k);
      if n in current && current[n] == k {
        current := current - {n};
        DisconnectNodeClients(n);
      }
      hide Disconnect;
      log := log + [Entry(None, 0, LeftBetween(old(clients), clients))];
    }

    method OnConnection(c: ClientId, conn: ConnId, user: nat, n: string, session: SessionId)
      requires Enabled(Abs(), Bridge(c, conn, user, n, session))
      modifies this
      ensures Abs() == Step(old(Abs()), Bridge(c, conn, user, n, session))
    {
      if n !in current || current[n] !in nodes || !nodes[current[n]].connected {
        ConnectionGone(conn);
        hide Gone;
        log := log + [Entry(None, 0, LeftBetween(old(clients), clients))];
        return;
      }
      var k := current[n];
      EnsureDispatcher(k);
      tables := tables[k := tables[k].(sessions := tables[k].sessions[session := c])];
      TrackClient(n, c);
      clients := clients[c := Client(conn, user, n, k, session, true)];
    }

    /** A browser event that asks for an acknowledgement. */
    method OnCall(c: ClientId, call: CallId)
      requires Enabled(Abs(), Ask(c, call))
      modifies this`tables, this`usedCalls
      ensures Abs() == Step(old(Abs()), Ask(c, call))
    {
      var k := clients[c].sock;
      if k !in nodes || !nodes[k].connected || k !in tables {
        return;
      }
      var placed := Call(clients[c].session, now, now + CALL_TIMEOUT);
      tables := tables[k := tables[k].(calls := tables[k].calls[call := placed])];
      usedCalls := usedCalls[call := clients[c].session];
    }

    method OnReply(k: SocketId, session: SessionId, call: CallId)
      modifies this`tables, this`log
      ensures Abs() == Step(old(Abs()), Reply(k, session, call))
    {
      if k !in tables || call !in tables[k].calls || tables[k].calls[call].session != session {
        return;
      }
      tables := tables[k := tables[k].(calls := tables[k].calls - {call})];
      log := log + [Entry(Some(call), session, {})];
    }

    method OnTimeout(k: SocketId, call: CallId)
      requires Enabled(Abs(), TimedOut(k, call))
      modifies this`tables, this`log
      ensures Abs() == Step(old(Abs()), TimedOut(k, call))
    {
      ghost var session := tables[k].calls[call].session;
      tables := tables[k := tables[k].(calls := tables[k].calls - {call})];
      log := log + [Entry(Some(call), session, {})];
    }

    method OnClose(k: SocketId, session: SessionId)
      modifies this
      ensures Abs() == Step(old(Abs()), Close(k, session))
    {
      if k !in tables || session !in tables[k].sessions {
        return;
      }
      var c := tables[k].sessions[session];
      tables := tables[k := tables[k].(sessions := tables[k].sessions - {session})];
      DisconnectClient(c);
      hide Disconnect;
      log := log + [Entry(None, 0, LeftBetween(old(clients), clients))];
    }

    method OnLeave(c: ClientId)
      requires c in clients && clients[c].connected
      modifies this
      ensures Abs() == Step(old(Abs()), Leave(c))
    {
      ClientGone(c);
      hide Gone;
      log := log + [Entry(None, 0, LeftBetween(old(clients), clients))];
    }

    method OnConnectionLost(conn: ConnId)
      modifies this
      ensures Abs() == Step(old(Abs()), ConnDown(conn))
    {
      ConnectionGone(conn);
      hide Gone;
      log := log + [Entry(None, 0, LeftBetween(old(clients), clients))];
    }
  }
}
