/**
 Negotiations succeed: a granted request, its offer, its node's answer and the node's word that it is connected, each
 after any stretch of other events that leaves the session alive, end in a CONNECTED session.
 */
module SignalNegotiation {
  import opened Options
  import opened Signal
  import opened SignalInvariant
  import opened SignalRuns
  import opened SignalEffects
  import opened SignalBeginnings
  import opened SignalMessages

  /** The event is a step of this session's own negotiation. */
  predicate Own(e: Event, sid: SessionId) {
    (e.Offers? || e.Answers? || e.Connects?) && e.sid == sid
  }

  predicate IsClose(m: Entry) {
    !m.BecameConnected? && m.sent.Close?
  }

  /** What was said about a session, but for the refusals to nodes that are not its own. */
  function Handshake(h: seq<Entry>): seq<Entry> {
    if h == [] then []
    else Handshake(h[..|h| - 1]) + if IsClose(h[|h| - 1]) then [] else [h[|h| - 1]]
  }

  lemma {:induction false} HandshakeMore(h: seq<Entry>, es: seq<Entry>)
    ensures Handshake(h + es) == Handshake(h) + Handshake(es)
  {
    if es == [] {
      assert h + es == h;
    } else {
      var front := es[..|es| - 1];
      HandshakeMore(h, front);
      assert (h + es)[..|h + es| - 1] == h + front;
    }
  }

  lemma HandshakeOne(h: seq<Entry>, m: Entry)
    ensures Handshake(h + [m]) == Handshake(h) + if IsClose(m) then [] else [m]
  {
    assert (h + [m])[..|h|] == h;
  }

  /** The session lives, for this browser, in this phase, after this handshake. */
  ghost predicate Stage(t: Table, sid: SessionId, c: Client, phase: Phase, said: seq<Entry>) {
    && Inv(t) && sid in t.sessions
    && t.sessions[sid].client == c && t.sessions[sid].phase == phase && Handshake(t.Log(sid)) == said
  }

  /** Other events say nothing about a session that goes on, but for a refusal to a node that is not its own. */
  lemma QuietSent(t: Table, e: Event, sid: SessionId)
    requires sid in t.sessions && !Own(e, sid) && !Ends(t, e, sid)
    ensures Sent(t, e, sid) == [] || (e.Announces? && Sent(t, e, sid) == [ToNode(e.ns, Close(Unstated))])
  {
    hide Ends;
    assert PhaseAfter(e, sid, t.sessions[sid]) == t.sessions[sid].phase;
  }

  lemma QuietSays(t: Table, e: Event, sid: SessionId)
    requires sid in t.sessions && !Own(e, sid) && !Ends(t, e, sid)
    ensures Handshake(Sent(t, e, sid)) == []
  {
    hide Sent;
    hide Own;
    hide Ends;
    QuietSent(t, e, sid);
    if e.Announces? {
      HandshakeOne([], ToNode(e.ns, Close(Unstated)));
    }
  }

  lemma QuietStep(t: Table, e: Event, u: Table, sid: SessionId, c: Client, phase: Phase, said: seq<Entry>)
    requires Stage(t, sid, c, phase, said) && phase != Connected && !Own(e, sid)
    requires Enabled(t, e) && u == Step(t, e) && sid in u.sessions
    ensures Stage(u, sid, c, phase, said)
  {
    hide Step;
    hide Enabled;
    hide Inv;
    hide Ends;
    hide Sent;
    StepKeepsInv(t, e, u);
    LiveSessionsExactly(t, e, u, sid);
    MessagesExactly(t, e, u, sid);
    QuietSays(t, e, sid);
    HandshakeMore(t.Log(sid), Sent(t, e, sid));
  }

  /** A stretch of events, none of them a step of the session's negotiation, through which the session lives. */
  ghost predicate Stretch(t: Table, es: seq<Event>, sid: SessionId) {
    && IsRun(t, es) && (forall e :: e in es ==> !Own(e, sid))
    && forall k :: 0 <= k <= |es| ==> sid in After(t, es[..k]).sessions
  }

  lemma {:induction false} QuietStretch(
      t: Table, es: seq<Event>, sid: SessionId, c: Client, phase: Phase, said: seq<Entry>)
    requires Stage(t, sid, c, phase, said) && phase != Connected && Stretch(t, es, sid)
    ensures Stage(After(t, es), sid, c, phase, said)
    decreases |es|
  {
    if es != [] {
      var front, e := es[..|es| - 1], es[|es| - 1];
      assert forall k :: 0 <= k <= |front| ==> front[..k] == es[..k];
      assert forall x :: x in front ==> x in es;
      QuietStretch(t, front, sid, c, phase, said);
      assert es[..|es|] == es;
      hide Stage;
      hide Step;
      hide Enabled;
      QuietStep(After(t, front), e, After(t, es), sid, c, phase, said);
    }
  }

  lemma OpeningStage(t: Table, u: Table, c: Client, sid: SessionId)
    requires Inv(t) && Enabled(t, Requests(c, sid, true, true)) && u == Step(t, Requests(c, sid, true, true))
    requires sid in u.sessions
    ensures Stage(u, sid, c, OpenSent, [ToNode(u.sessions[sid].node, Open)])
    ensures Some(u.sessions[sid].node) == t.Registered(c.nodeId)
  {
    hide Inv;
    hide FinishRequest;
    StepKeepsInv(t, Requests(c, sid, true, true), u);
    RequestDecides(t, Requests(c, sid, true, true), u);
    HandshakeOne([], ToNode(u.sessions[sid].node, Open));
  }

  lemma OfferStage(t: Table, u: Table, sid: SessionId, c: Client, said: seq<Entry>)
    requires Stage(t, sid, c, OpenSent, said) && u == Step(t, Offers(c, sid))
    ensures Stage(u, sid, c, OfferReceived, said + [ToNode(t.sessions[sid].node, Offer)])
    ensures Enabled(t, Offers(c, sid))
  {
    NegotiatingEnds(t, sid);
    hide Step;
    hide Inv;
    StepKeepsInv(t, Offers(c, sid), u);
    LiveSessionsExactly(t, Offers(c, sid), u, sid);
    MessagesExactly(t, Offers(c, sid), u, sid);
    HandshakeOne(t.Log(sid), ToNode(t.sessions[sid].node, Offer));
  }

  /** While a session negotiates both its ends are connected, and belong to its node. */
  lemma NegotiatingEnds(t: Table, sid: SessionId)
    requires Inv(t) && sid in t.sessions && t.sessions[sid].phase != Connected
    ensures t.sessions[sid].client in t.clients && t.sessions[sid].node in t.nodes
    ensures t.sessions[sid].nodeId == t.sessions[sid].client.nodeId
  {
    SessionHolds(t, sid);
  }

  lemma AnswerStage(t: Table, u: Table, sid: SessionId, c: Client, said: seq<Entry>, ns: NodeSocket)
    requires Stage(t, sid, c, OfferReceived, said) && ns in t.nodes && ns.nodeId == c.nodeId
    requires u == Step(t, Answers(ns, sid))
    ensures Stage(u, sid, c, Answered, said + [ToClient(c, Answer)])
  {
    NegotiatingEnds(t, sid);
    hide Inv;
    var e := Answers(ns, sid);
    assert Enabled(t, e);
    hide Step;
    hide Enabled;
    StepKeepsInv(t, e, u);
    LiveSessionsExactly(t, e, u, sid);
    MessagesExactly(t, e, u, sid);
    HandshakeOne(t.Log(sid), ToClient(c, Answer));
  }

  lemma ConnectStage(t: Table, u: Table, sid: SessionId, c: Client, phase: Phase, said: seq<Entry>, ns: NodeSocket)
    requires Stage(t, sid, c, phase, said) && ns in t.nodes && ns.nodeId == c.nodeId
    requires u == Step(t, Connects(ns, sid))
    ensures Stage(u, sid, c, Connected, said + [BecameConnected]) && u.sessions[sid].negotiation == None
  {
    SessionOfNode(t, sid);
    hide Inv;
    var e := Connects(ns, sid);
    assert Enabled(t, e);
    hide Step;
    hide Enabled;
    StepKeepsInv(t, e, u);
    LiveSessionsExactly(t, e, u, sid);
    MessagesExactly(t, e, u, sid);
    HandshakeOne(t.Log(sid), BecameConnected);
  }

  lemma AdmittedOpens(t: Table, u: Table, c: Client, sid: SessionId)
    requires Inv(t) && Enabled(t, Requests(c, sid, true, true)) && Admits(t, Requests(c, sid, true, true))
    requires u == Step(t, Requests(c, sid, true, true))
    ensures sid in u.sessions && Stage(u, sid, c, OpenSent, [ToNode(u.sessions[sid].node, Open)])
    ensures Some(u.sessions[sid].node) == t.Registered(c.nodeId)
  {
    hide Step;
    hide Inv;
    hide Enabled;
    RequestDecides(t, Requests(c, sid, true, true), u);
    OpeningStage(t, u, c, sid);
  }

  /**
   From any reachable table: a request that is admitted, the browser's offer, an answer of its node and the node's word
   that it is connected, with any other events in between that leave the session alive, end with the session CONNECTED
   and no negotiation timer, after exactly the messages of one handshake.
   */
  lemma NegotiationSucceeds(
      before: seq<Event>, c: Client, sid: SessionId, n: NodeSocket, m: NodeSocket,
      q1: seq<Event>, q2: seq<Event>, q3: seq<Event>,
      t0: Table, t1: Table, t2: Table, t3: Table, t4: Table, t5: Table, t6: Table, t7: Table)
    requires IsRun(EMPTY, before) && t0 == After(EMPTY, before)
    requires Enabled(t0, Requests(c, sid, true, true)) && Admits(t0, Requests(c, sid, true, true))
    requires t1 == Step(t0, Requests(c, sid, true, true)) && Stretch(t1, q1, sid) && t2 == After(t1, q1)
    requires t3 == Step(t2, Offers(c, sid)) && Stretch(t3, q2, sid) && t4 == After(t3, q2)
    requires t5 == Step(t4, Answers(n, sid)) && Stretch(t5, q3, sid) && t6 == After(t5, q3)
    requires t7 == Step(t6, Connects(m, sid))
    requires n in t4.nodes && m in t6.nodes && n.nodeId == m.nodeId == c.nodeId
    ensures sid in t1.sessions && sid in t2.sessions && sid in t7.sessions
    ensures var s := t7.sessions[sid]; s.phase == Connected && s.client == c && s.negotiation == None
    ensures Handshake(t7.Log(sid)) ==
              [ToNode(t1.sessions[sid].node, Open), ToNode(t2.sessions[sid].node, Offer),
               ToClient(c, Answer), BecameConnected]
    ensures Some(t1.sessions[sid].node) == t0.Registered(c.nodeId)
  {
    hide Step;
    hide Inv;
    hide Enabled;
    hide Admits;
    hide Stretch;
    hide Handshake;
    hide IsRun;
    hide After;
    RunIsSafe(before);
    AdmittedOpens(t0, t1, c, sid);
    var open := ToNode(t1.sessions[sid].node, Open);
    QuietStretch(t1, q1, sid, c, OpenSent, [open]);
    var offer := ToNode(t2.sessions[sid].node, Offer);
    OfferStage(t2, t3, sid, c, [open]);
    QuietStretch(t3, q2, sid, c, OfferReceived, [open] + [offer]);
    AnswerStage(t4, t5, sid, c, [open] + [offer], n);
    QuietStretch(t5, q3, sid, c, Answered, [open] + [offer] + [ToClient(c, Answer)]);
    ConnectStage(t6, t7, sid, c, Answered, [open] + [offer] + [ToClient(c, Answer)], m);
  }

  /** The ordinary course: nothing comes in between, and the node answers over the socket it is registered with. */
  lemma OrdinaryNegotiation(
      before: seq<Event>, c: Client, sid: SessionId, n: NodeSocket,
      t0: Table, t1: Table, t2: Table, t3: Table, t4: Table)
    requires IsRun(EMPTY, before) && t0 == After(EMPTY, before)
    requires Enabled(t0, Requests(c, sid, true, true)) && Admits(t0, Requests(c, sid, true, true))
    requires t0.Registered(c.nodeId) == Some(n)
    requires t1 == Step(t0, Requests(c, sid, true, true)) && t2 == Step(t1, Offers(c, sid))
    requires t3 == Step(t2, Answers(n, sid)) && t4 == Step(t3, Connects(n, sid))
    ensures Enabled(t1, Offers(c, sid)) && Enabled(t2, Answers(n, sid)) && Enabled(t3, Connects(n, sid))
    ensures sid in t4.sessions
    ensures var s := t4.sessions[sid];
            s.phase == Connected && s.client == c && s.negotiation == None
    ensures Handshake(t4.Log(sid)) == [ToNode(n, Open), ToNode(n, Offer), ToClient(c, Answer), BecameConnected]
  {
    hide Step;
    hide Inv;
    hide Admits;
    hide Handshake;
    hide IsRun;
    hide After;
    RunIsSafe(before);
    RegisteredIsThere(t0, c.nodeId);
    AdmittedOpens(t0, t1, c, sid);
    NodesStay(t0, Requests(c, sid, true, true), t1, n);
    OfferStage(t1, t2, sid, c, [ToNode(n, Open)]);
    NodesStay(t1, Offers(c, sid), t2, n);
    AnswerStage(t2, t3, sid, c, [ToNode(n, Open)] + [ToNode(n, Offer)], n);
    NodesStay(t2, Answers(n, sid), t3, n);
    ConnectStage(t3, t4, sid, c, Answered, [ToNode(n, Open)] + [ToNode(n, Offer)] + [ToClient(c, Answer)], n);
  }

  lemma RegisteredIsThere(t: Table, nodeId: NodeId)
    requires Inv(t) && t.Registered(nodeId).Some?
    ensures t.Registered(nodeId).value in t.nodes && t.Registered(nodeId).value.nodeId == nodeId
  {
  }

  lemma NodesStay(t: Table, e: Event, u: Table, n: NodeSocket)
    requires Inv(t) && u == Step(t, e) && n in t.nodes && !e.NodeLeaves?
    ensures n in u.nodes
  {
    hide Step;
    hide Inv;
    SocketsExactly(t, e, u);
  }
}
