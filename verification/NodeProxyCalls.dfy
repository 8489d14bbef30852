/** Calls: when they are placed, when they are answered, and that over a whole run none is lost. */
module NodeProxyCalls {
  import opened Options
  import opened NodeProxy
  import opened NodeProxyRuns
  import opened NodeProxyEffects

  // ---------- one event ----------

  /** The reply of the call's own session, or its timeout. */
  predicate Answered(w: World, e: Event, k: SocketId, call: CallId)
    requires k in w.tables && call in w.tables[k].calls
  {
    e == Reply(k, w.tables[k].calls[call].session, call) || e == TimedOut(k, call)
  }

  /** The client under whose session the call was placed. */
  function Caller(w: World, k: SocketId, call: CallId): ClientId
    requires k in w.tables && call in w.tables[k].calls && w.tables[k].calls[call].session in w.tables[k].sessions
  {
    w.tables[k].sessions[w.tables[k].calls[call].session]
  }

  /** A call in flight stays as it is until it is answered or its caller is disconnected. */
  predicate CallAsTold(w: World, e: Event, v: World, k: SocketId, call: CallId)
    requires k in w.tables && call in w.tables[k].calls && w.tables[k].calls[call].session in w.tables[k].sessions
  {
    && k in v.tables
    && (call in v.tables[k].calls <==> !Answered(w, e, k, call) && Connected(v, Caller(w, k, call)))
    && (call in v.tables[k].calls ==> v.tables[k].calls[call] == w.tables[k].calls[call])
  }

  lemma CallerHolds(w: World, k: SocketId, call: CallId)
    requires Linked(w) && k in w.tables && call in w.tables[k].calls
    ensures w.tables[k].calls[call].session in w.tables[k].sessions
    ensures Bridged(w, k, w.tables[k].calls[call].session, Caller(w, k, call))
  {
    assert CallLive(w.tables[k], call, w.usedCalls, w.now);
  }

  /** The tables keep exactly the calls whose callers stay connected. */
  ghost predicate KeepsCall(w: World, v: World, k: SocketId, call: CallId)
    requires k in w.tables && call in w.tables[k].calls && w.tables[k].calls[call].session in w.tables[k].sessions
  {
    && k in v.tables
    && (call in v.tables[k].calls <==> Connected(v, Caller(w, k, call)))
    && (call in v.tables[k].calls ==>
          && v.tables[k].calls[call] == w.tables[k].calls[call]
          && w.tables[k].calls[call].session in v.tables[k].sessions && Caller(v, k, call) == Caller(w, k, call))
  }

  lemma GoneCall(w: World, cs: set<ClientId>, k: SocketId, call: CallId)
    requires Linked(w) && k in w.tables && call in w.tables[k].calls
    ensures w.tables[k].calls[call].session in w.tables[k].sessions && KeepsCall(w, Gone(w, cs), k, call)
  {
    CallerHolds(w, k, call);
    var c, s := Caller(w, k, call), w.tables[k].calls[call].session;
    assert s in SessionsOn(w.clients, cs, k) <==> c in cs;
    hide Linked;
  }

  lemma NoCallComes(w: World, cs: set<ClientId>, k: SocketId, call: CallId)
    requires k in w.tables && call !in w.tables[k].calls
    ensures k in Gone(w, cs).tables && call !in Gone(w, cs).tables[k].calls
  {
  }

  lemma LoseNodeTables(w: World, k: SocketId)
    requires k in w.nodes
    ensures var n, v := w.nodes[k].node, Disconnect(w, Clients(w, k));
            LoseNode(w, k).tables ==
              if n in w.current && w.current[n] == k then Disconnect(v, Tracked(v, n)).tables else v.tables
  {
    var n := w.nodes[k].node;
    var nodes := w.nodes[k := NodeSocket(n, false)];
    var cs := Clients(w, k);
    var v := Disconnect(w, cs);
    assert Disconnect(w.(nodes := nodes), cs) == v.(nodes := nodes);
    assert Disconnect(v.(nodes := nodes, current := v.current - {n}), Tracked(v, n)).tables
        == Disconnect(v, Tracked(v, n)).tables;
  }

  lemma LoseNodeCall(w: World, x: SocketId, k: SocketId, call: CallId)
    requires Linked(w) && x in w.nodes && k in w.tables && call in w.tables[k].calls
    ensures w.tables[k].calls[call].session in w.tables[k].sessions && KeepsCall(w, LoseNode(w, x), k, call)
  {
    hide LoseNode;
    hide Gone;
    var n, cs := w.nodes[x].node, Clients(w, x);
    var v := Disconnect(w, cs);
    var u := Disconnect(v, Tracked(v, n));
    LoseNodeIs(w, x);
    LoseNodeTables(w, x);
    GoneKeeps(w, OnConns(w.clients, cs));
    GoneCall(w, OnConns(w.clients, cs), k, call);
    CallerHolds(w, k, call);
    if n in w.current && w.current[n] == x {
      if call in v.tables[k].calls {
        GoneCall(v, OnConns(v.clients, Tracked(v, n)), k, call);
      } else {
        NoCallComes(v, OnConns(v.clients, Tracked(v, n)), k, call);
        CallerStaysGone(w, cs, v, Tracked(v, n), Caller(w, k, call));
      }
      hide Linked;
    }
  }

  lemma CallerStaysGone(w: World, cs: set<ClientId>, v: World, ds: set<ClientId>, c: ClientId)
    requires c in w.clients && v == Disconnect(w, cs) && !Connected(v, c)
    ensures !Connected(Disconnect(v, ds), c)
  {
  }

  lemma AnsweredCall(w: World, x: SocketId, y: CallId, k: SocketId, call: CallId)
    requires Linked(w) && x in w.tables && y in w.tables[x].calls && k in w.tables && call in w.tables[k].calls
    ensures var v := Acknowledge(w, x, y);
            && k in v.tables && (call in v.tables[k].calls <==> !(x == k && y == call))
            && (call in v.tables[k].calls ==> v.tables[k].calls[call] == w.tables[k].calls[call])
    ensures Connected(Acknowledge(w, x, y), Caller(w, k, call))
            && w.tables[k].calls[call].session in w.tables[k].sessions
  {
    CallerHolds(w, k, call);
  }

  lemma UsedCall(w: World, k: SocketId, call: CallId)
    requires Linked(w) && k in w.tables && call in w.tables[k].calls
    ensures call in w.usedCalls && w.tables[k].calls[call].session in w.tables[k].sessions
    ensures Connected(w, Caller(w, k, call))
  {
    assert CallLive(w.tables[k], call, w.usedCalls, w.now);
    CallerHolds(w, k, call);
  }

  lemma AskedCall(w: World, e: Event, k: SocketId, call: CallId)
    requires Linked(w) && Enabled(w, e) && k in w.tables && call in w.tables[k].calls && e.Ask?
    ensures w.tables[k].calls[call].session in w.tables[k].sessions && CallAsTold(w, e, Step(w, e), k, call)
  {
    hide Linked;
    UsedCall(w, k, call);
  }

  lemma BridgedCall(w: World, e: Event, k: SocketId, call: CallId)
    requires Linked(w) && Enabled(w, e) && k in w.tables && call in w.tables[k].calls && e.Bridge? && Online(w, e.node)
    ensures w.tables[k].calls[call].session in w.tables[k].sessions && CallAsTold(w, e, Step(w, e), k, call)
  {
    hide Linked;
    UsedCall(w, k, call);
  }

  lemma ReplyCall(w: World, e: Event, k: SocketId, call: CallId)
    requires Linked(w) && Enabled(w, e) && k in w.tables && call in w.tables[k].calls && (e.Reply? || e.TimedOut?)
    ensures w.tables[k].calls[call].session in w.tables[k].sessions && CallAsTold(w, e, Step(w, e), k, call)
  {
    hide Linked;
    hide Acknowledge;
    UsedCall(w, k, call);
    if e.k in w.tables && e.call in w.tables[e.k].calls {
      AnsweredCall(w, e.k, e.call, k, call);
    }
  }

  lemma KeptCall(w: World, e: Event, v: World, k: SocketId, call: CallId)
    requires k in w.tables && call in w.tables[k].calls && w.tables[k].calls[call].session in w.tables[k].sessions
    requires KeepsCall(w, v, k, call) && !e.Reply? && !e.TimedOut?
    ensures CallAsTold(w, e, Logged(w, v), k, call)
  {
  }

  lemma GoneEventCall(w: World, e: Event, k: SocketId, call: CallId)
    requires Linked(w) && Enabled(w, e) && k in w.tables && call in w.tables[k].calls
    requires e.Leave? || e.ConnDown? || e.DropUser? || e.Close? || (e.Bridge? && !Online(w, e.node))
    ensures w.tables[k].calls[call].session in w.tables[k].sessions && CallAsTold(w, e, Step(w, e), k, call)
  {
    hide Gone;
    hide CallAsTold;
    hide KeepsCall;
    var cs :=
      if e.Leave? then {e.c}
      else if e.DropUser? then OnConns(w.clients, OfUser(w, e.node, e.user))
      else if e.Close? then
        if e.k in w.tables && e.session in w.tables[e.k].sessions
        then OnConns(w.clients, {w.tables[e.k].sessions[e.session]})
        else {}
      else OfConn(w.clients, e.conn);
    GoneCall(w, cs, k, call);
    if e.Close? && !(e.k in w.tables && e.session in w.tables[e.k].sessions) {
      SameCall(w, e, k, call);
    } else {
      if e.Close? {
        CloseIsDisconnect(w, e.k, e.session);
      }
      KeptCall(w, e, Gone(w, cs), k, call);
    }
  }

  lemma UnmovedCall(w: World, e: Event, k: SocketId, call: CallId)
    requires Linked(w) && Enabled(w, e) && k in w.tables && call in w.tables[k].calls
    requires e.NodeUp? || e.Register? || e.Tick?
    ensures w.tables[k].calls[call].session in w.tables[k].sessions && CallAsTold(w, e, Step(w, e), k, call)
  {
    hide Linked;
    UsedCall(w, k, call);
    var v := Step(w, e);
    assert v.tables == w.tables && v.clients == w.clients;
  }

  lemma QuietCall(w: World, e: Event, k: SocketId, call: CallId)
    requires Linked(w) && Enabled(w, e) && k in w.tables && call in w.tables[k].calls
    requires e.NodeUp? || e.Register? || e.Tick? || e.Ask? || (e.Bridge? && Online(w, e.node))
    ensures w.tables[k].calls[call].session in w.tables[k].sessions && CallAsTold(w, e, Step(w, e), k, call)
  {
    hide Step;
    hide Linked;
    hide CallAsTold;
    if e.Ask? {
      AskedCall(w, e, k, call);
    } else if e.Bridge? {
      BridgedCall(w, e, k, call);
    } else {
      UnmovedCall(w, e, k, call);
    }
  }

  lemma SameCall(w: World, e: Event, k: SocketId, call: CallId)
    requires Linked(w) && k in w.tables && call in w.tables[k].calls && !e.Reply? && !e.TimedOut?
    ensures w.tables[k].calls[call].session in w.tables[k].sessions && CallAsTold(w, e, w, k, call)
  {
    CallerHolds(w, k, call);
  }

  /**
   Every event and every call in flight: it leaves the table when it is answered or its caller goes, and only then.
   */
  lemma CallsExactly(w: World, e: Event, k: SocketId, call: CallId)
    requires Linked(w) && Enabled(w, e) && k in w.tables && call in w.tables[k].calls
    ensures w.tables[k].calls[call].session in w.tables[k].sessions && CallAsTold(w, e, Step(w, e), k, call)
  {
    hide Linked;
    hide CallAsTold;
    if e.Reply? || e.TimedOut? {
      ReplyCall(w, e, k, call);
    } else if e.NodeDown? {
      hide KeepsCall;
      LoseNodeCall(w, e.k, k, call);
      KeptCall(w, e, LoseNode(w, e.k), k, call);
    } else if e.NodeUp? || e.Register? || e.Tick? || e.Ask? || (e.Bridge? && Online(w, e.node)) {
      QuietCall(w, e, k, call);
    } else {
      GoneEventCall(w, e, k, call);
    }
  }

  /**
   The reply to a call in flight, under the call's own session, acknowledges it at once, whenever it comes; a reply
   under any other session, or to a call that is not in flight on that socket, changes nothing.
   */
  lemma ReplyReaches(w: World, k: SocketId, session: SessionId, call: CallId)
    requires Linked(w)
    ensures var v := Step(w, Reply(k, session, call));
            if k in w.tables && call in w.tables[k].calls && w.tables[k].calls[call].session == session
            then !InFlight(v, call) && v.log == w.log + [Entry(Some(call), session, {})]
            else v == w
  {
    if k in w.tables && call in w.tables[k].calls && w.tables[k].calls[call].session == session {
      var v := Step(w, Reply(k, session, call));
      forall j | j in v.tables ensures call !in v.tables[j].calls {
        assert j != k ==> v.tables[j] == w.tables[j];
      }
    }
  }

  /** A connected client's call is always placed, on the client's own node socket, with a timeout of 60 s. */
  lemma AskPlaces(w: World, c: ClientId, call: CallId)
    requires Linked(w) && Enabled(w, Ask(c, call))
    ensures var v, p := Step(w, Ask(c, call)), w.clients[c];
            && p.sock in v.tables && call in v.tables[p.sock].calls
            && v.tables[p.sock].calls[call] == Call(p.session, w.now, w.now + CALL_TIMEOUT)
            && v.usedCalls == w.usedCalls[call := p.session] && v.log == w.log && v.clients == w.clients
  {
    assert Listed(w, c);
  }

  /** A call that is overdue is acknowledged by its timeout. */
  lemma TimeoutAnswers(w: World, k: SocketId, call: CallId)
    requires Linked(w) && Enabled(w, TimedOut(k, call))
    ensures var v := Step(w, TimedOut(k, call));
            !InFlight(v, call) && v.log == w.log + [Entry(Some(call), w.tables[k].calls[call].session, {})]
  {
    ReplyReaches(w, k, w.tables[k].calls[call].session, call);
  }

  // ---------- the fate of every call ----------

  predicate AckedIn(log: seq<Entry>, call: CallId, s: SessionId) {
    exists i :: 0 <= i < |log| && log[i] == Entry(Some(call), s, {})
  }

  predicate CallerLeft(w: World, s: SessionId) {
    exists c :: c in w.clients && w.clients[c].session == s && !w.clients[c].connected
  }

  /** A call is in flight, was acknowledged under its own session, or its caller has left. */
  predicate Accounted(w: World, call: CallId)
    requires call in w.usedCalls
  {
    InFlight(w, call) || AckedIn(w.log, call, w.usedCalls[call]) || CallerLeft(w, w.usedCalls[call])
  }

  ghost predicate AllAccounted(w: World) {
    forall call :: call in w.usedCalls ==> Accounted(w, call)
  }

  lemma UsedExactly(w: World, e: Event)
    requires Linked(w) && Enabled(w, e)
    ensures Step(w, e).usedCalls ==
              if e.Ask? then w.usedCalls[e.call := w.clients[e.c].session] else w.usedCalls
  {
    if e.Ask? {
      AskPlaces(w, e.c, e.call);
    }
    hide Linked;
  }

  lemma LogGrows(w: World, e: Event)
    requires Linked(w) && Enabled(w, e)
    ensures w.log <= Step(w, e).log
  {
    StepLog(w, e);
    hide Linked;
    hide Step;
    if k, call :| k in w.tables && call in w.tables[k].calls && Step(w, e) == Acknowledge(w, k, call) {
    }
  }

  lemma AnsweredLog(w: World, e: Event, k: SocketId, call: CallId)
    requires Linked(w) && Enabled(w, e) && k in w.tables && call in w.tables[k].calls && Answered(w, e, k, call)
    ensures call in w.usedCalls && AckedIn(Step(w, e).log, call, w.usedCalls[call])
  {
    assert CallLive(w.tables[k], call, w.usedCalls, w.now);
    hide Linked;
    var s := w.tables[k].calls[call].session;
    ReplyReaches(w, k, s, call);
    if e.TimedOut? {
      TimeoutAnswers(w, k, call);
    }
    hide Step;
    assert Step(w, e).log[|w.log|] == Entry(Some(call), s, {});
  }

  lemma LostCaller(w: World, v: World, k: SocketId, call: CallId)
    requires Linked(w) && k in w.tables && call in w.tables[k].calls && Grows(w, v)
    requires w.tables[k].calls[call].session in w.tables[k].sessions && !Connected(v, Caller(w, k, call))
    ensures call in w.usedCalls && CallerLeft(v, w.usedCalls[call])
  {
    UsedCall(w, k, call);
    CallerHolds(w, k, call);
    assert CallLive(w.tables[k], call, w.usedCalls, w.now);
    assert Caller(w, k, call) in v.clients;
  }

  lemma FlightEnds(w: World, e: Event, call: CallId)
    requires Linked(w) && Enabled(w, e) && InFlight(w, call)
    ensures call in w.usedCalls && call in Step(w, e).usedCalls && Accounted(Step(w, e), call)
  {
    var k :| k in w.tables && call in w.tables[k].calls;
    var v := Step(w, e);
    UsedCall(w, k, call);
    UsedExactly(w, e);
    CallsExactly(w, e, k, call);
    StepGrows(w, e);
    hide Linked;
    hide Step;
    hide Grows;
    if call in v.tables[k].calls {
      assert InFlight(v, call);
    } else if Answered(w, e, k, call) {
      AnsweredLog(w, e, k, call);
    } else {
      LostCaller(w, v, k, call);
    }
  }

  lemma StaysAccounted(w: World, v: World, call: CallId)
    requires Grows(w, v) && w.log <= v.log && call in w.usedCalls && call in v.usedCalls && !InFlight(w, call)
    requires v.usedCalls[call] == w.usedCalls[call] && Accounted(w, call)
    ensures Accounted(v, call)
  {
    var s := w.usedCalls[call];
    if AckedIn(w.log, call, s) {
      var i :| 0 <= i < |w.log| && w.log[i] == Entry(Some(call), s, {});
      assert v.log[i] == w.log[i];
    } else {
      var c :| c in w.clients && w.clients[c].session == s && !w.clients[c].connected;
      assert c in v.clients && v.clients[c].session == s;
    }
  }

  lemma StepAccounts(w: World, e: Event)
    requires Linked(w) && Enabled(w, e) && AllAccounted(w)
    ensures AllAccounted(Step(w, e))
  {
    var v := Step(w, e);
    UsedExactly(w, e);
    StepGrows(w, e);
    LogGrows(w, e);
    if e.Ask? {
      AskPlaces(w, e.c, e.call);
      assert InFlight(v, e.call);
    }
    hide Linked;
    hide Step;
    hide Grows;
    hide Accounted;
    forall call | call in v.usedCalls ensures Accounted(v, call) {
      if e.Ask? && call == e.call {
        FlownAccounted(v, call);
      } else if InFlight(w, call) {
        FlightEnds(w, e, call);
      } else {
        StaysAccounted(w, v, call);
      }
    }
  }

  lemma FlownAccounted(w: World, call: CallId)
    requires call in w.usedCalls && InFlight(w, call)
    ensures Accounted(w, call)
  {
  }

  lemma {:induction false} RunAccounts(w: World, es: seq<Event>)
    requires Linked(w) && AllAccounted(w) && IsRun(w, es)
    ensures AllAccounted(After(w, es))
    decreases es
  {
    hide Linked;
    hide Step;
    hide AllAccounted;
    if es != [] {
      StepKeeps(w, es[0]);
      StepAccounts(w, es[0]);
      RunAccounts(Step(w, es[0]), es[1..]);
    }
  }

  /**
   In every run no call is lost: each one placed is in flight, or was acknowledged under its own session, or its caller
   has left.
   */
  lemma RunLosesNoCall(start: int, es: seq<Event>, call: CallId)
    requires IsRun(Start(start), es) && call in After(Start(start), es).usedCalls
    ensures Accounted(After(Start(start), es), call)
  {
    RunAccounts(Start(start), es);
  }
}
