/**
 What every turn of the signalling table keeps: whose a session is, which of its timers are armed, and that a pending
 resume holds one connected half.  `SignalLog.dfy` and `SignalBudget.dfy` add the order of offers and answers and the
 per-client budget.
 */
module SignalInvariant {
  import opened InsertionOrder
  import opened Options
  import opened Signal

  /** A live session: whose it is, and which of its timers are armed. */
  predicate SessionInv(t: Table, s: Session) {
    && Anchored(t, s)
    && (s.client !in t.clients ==>
          s.orphan.Some? && s.client in t.leftAt && s.orphan.value <= t.leftAt[s.client] + NODE_OFFLINE_GRACE_MS)
  }

  predicate Anchored(t: Table, s: Session) {
    && s.client.nodeId == s.nodeId && s.node.nodeId == s.nodeId && s.userId == s.client.userId
    && Rank(OpenSent) <= Rank(s.phase) <= Rank(Connected)
    && s.createdAt <= t.now
    && (if s.phase == Connected then s.negotiation == None
        else s.negotiation == Some(s.createdAt + NEGOTIATION_TIMEOUT_MS) && t.now <= s.negotiation.value
             && s.client in t.clients && s.node in t.nodes)
    && (s.orphan.Some? ==> t.now <= s.orphan.value <= t.now + NODE_OFFLINE_GRACE_MS)
  }

  /** A pending resume holds exactly one half, a connected socket of its node, and its timer is armed. */
  predicate PendingInv(t: Table, p: Pending) {
    && p.timer == Some(p.createdAt + NODE_OFFLINE_GRACE_MS) && p.createdAt <= t.now <= p.timer.value
    && (p.node.Some? <==> p.client.None?)
    && (p.node.Some? ==> p.node.value in t.nodes && p.node.value.nodeId == p.nodeId)
    && (p.client.Some? ==> p.client.value in t.clients && p.client.value.nodeId == p.nodeId)
  }

  ghost predicate Sessions(t: Table) {
    forall sid :: sid in t.sessions ==> SessionInv(t, t.sessions[sid])
  }

  ghost predicate Pendings(t: Table) {
    forall sid :: sid in t.pending ==> sid !in t.sessions && PendingInv(t, t.pending[sid])
  }

  ghost predicate Sockets(t: Table) {
    && (forall n :: n in t.registry ==> t.registry[n].nodeId == n)
    && (forall c :: c in t.leftAt ==> c !in t.clients && t.leftAt[c] <= t.now)
  }

  ghost predicate Inv(t: Table) {
    Sessions(t) && Pendings(t) && Sockets(t)
  }

  /** Two tables that differ in neither sockets nor clock. */
  predicate SameSockets(t: Table, u: Table) {
    u.clients == t.clients && u.nodes == t.nodes && u.now == t.now && u.leftAt == t.leftAt && u.registry == t.registry
  }

  /** Changing one session, or ending it. */
  lemma SessionPutKeeps(t: Table, u: Table, sid: SessionId)
    requires Inv(t) && SameSockets(t, u) && (u.pending == t.pending || u.pending == t.pending - {sid})
    requires forall x :: x in u.sessions && x != sid ==> x in t.sessions && u.sessions[x] == t.sessions[x]
    requires sid in u.sessions ==> SessionInv(t, u.sessions[sid]) && sid !in u.pending
    ensures Inv(u)
  {
  }

  lemma PendingPutKeeps(t: Table, u: Table, sid: SessionId)
    requires Inv(t) && SameSockets(t, u) && u.sessions == t.sessions && sid !in t.sessions
    requires sid in u.pending && u.pending == t.pending[sid := u.pending[sid]] && PendingInv(t, u.pending[sid])
    ensures Inv(u)
  {
    forall x | x in u.pending ensures PendingInv(u, u.pending[x]) {
      assert x != sid ==> PendingInv(t, t.pending[x]);
    }
  }

  lemma CloseManyKeeps(t: Table, u: Table, reason: Reason, tellNode: bool, sids: set<SessionId>)
    requires Inv(t) && u == Apply(t, CloseRule(reason, tellNode), sids)
    ensures Inv(u)
  {
    forall sid | sid in u.sessions ensures SessionInv(u, u.sessions[sid]) {
      assert u.sessions[sid] == t.sessions[sid];
    }
  }

  lemma CloseKeeps(t: Table, u: Table, sid: SessionId, reason: Reason, tellNode: bool)
    requires Inv(t) && u == CloseSession(t, sid, reason, tellNode)
    ensures Inv(u)
  {
    SessionPutKeeps(t, u, sid);
  }

  /** Looking at a session's ends again arms the grace timer in time when its browser is away. */
  lemma RefreshKeeps(t: Table, s: Session)
    requires Anchored(t, s)
    requires s.client !in t.clients ==> s.client in t.leftAt
    requires s.client !in t.clients ==>
               if s.orphan.Some? then s.orphan.value <= t.leftAt[s.client] + NODE_OFFLINE_GRACE_MS
               else t.now <= t.leftAt[s.client]
    ensures SessionInv(t, RefreshOrphan(t, s))
  {
  }

  // ---------- the turns ----------

  lemma ClientJoinKeeps(t: Table, u: Table, c: Client)
    requires Inv(t) && c !in t.clients && c !in t.leftAt && u == ClientJoin(t, c)
    ensures Inv(u)
  {
    forall sid | sid in u.sessions ensures SessionInv(u, u.sessions[sid]) {
      assert SessionInv(t, t.sessions[sid]);
    }
  }

  /** A browser that leaves a CONNECTED session starts its grace timer. */
  lemma LeaverKeeps(t: Table, gone: set<Client>, s: Session)
    requires SessionInv(t, s) && gone <= t.clients
    requires s.client in gone ==> s.phase == Connected
    ensures s.client in gone ==> SessionInv(Departed(t, gone), RefreshOrphan(Departed(t, gone), s))
    ensures s.client !in gone ==> SessionInv(Departed(t, gone), s)
  {
    if s.client in gone {
      RefreshKeeps(Departed(t, gone), s);
    }
  }

  lemma ClientsLeaveSessions(t: Table, u: Table, gone: set<Client>)
    requires Sessions(t) && gone <= t.clients && u == ClientsLeave(t, gone)
    ensures Sessions(u)
  {
    var left := Departed(t, gone);
    assert SameSockets(left, u);
    forall sid | sid in u.sessions ensures SessionInv(u, u.sessions[sid]) {
      var s := t.sessions[sid];
      assert SessionInv(t, s);
      assert u.sessions[sid] == if s.client in gone then RefreshOrphan(left, s) else s;
      LeaverKeeps(t, gone, s);
    }
  }

  lemma ClientsLeaveKeeps(t: Table, u: Table, gone: set<Client>)
    requires Inv(t) && gone <= t.clients && u == ClientsLeave(t, gone)
    ensures Inv(u)
  {
    ClientsLeaveSessions(t, u, gone);
    assert u.pending == DropClientHalves(t.pending, gone);
    assert u.sessions.Keys <= t.sessions.Keys;
    forall sid | sid in u.pending ensures sid !in u.sessions && PendingInv(u, u.pending[sid]) {
      assert PendingInv(t, t.pending[sid]);
    }
    assert u.leftAt == Departed(t, gone).leftAt;
  }

  lemma NodeJoinKeeps(t: Table, u: Table, ns: NodeSocket, transient: bool)
    requires Inv(t) && ns !in t.nodes && u == NodeJoin(t, ns, transient)
    ensures Inv(u)
  {
    forall sid | sid in u.sessions ensures SessionInv(u, u.sessions[sid]) {
      assert SessionInv(t, t.sessions[sid]);
    }
    forall sid | sid in u.pending ensures sid !in u.sessions && PendingInv(u, u.pending[sid]) {
      assert PendingInv(t, t.pending[sid]);
    }
  }

  lemma NodeRegisterKeeps(t: Table, u: Table, ns: NodeSocket)
    requires Inv(t) && u == NodeRegister(t, ns)
    ensures Inv(u)
  {
    forall sid | sid in u.sessions ensures SessionInv(u, u.sessions[sid]) {
      assert SessionInv(t, t.sessions[sid]);
    }
    forall sid | sid in u.pending ensures sid !in u.sessions && PendingInv(u, u.pending[sid]) {
      assert PendingInv(t, t.pending[sid]);
    }
  }

  lemma NodeLeaveSessions(t: Table, u: Table, ns: NodeSocket)
    requires Sessions(t) && u == NodeLeave(t, ns)
    ensures Sessions(u)
  {
    var left := NodeDeparted(t, ns);
    forall sid | sid in u.sessions ensures SessionInv(u, u.sessions[sid]) {
      var s := t.sessions[sid];
      assert SessionInv(t, s);
      if sid in BoundTo(t, ns) {
        assert u.sessions[sid] == RefreshOrphan(left, s);
        RefreshKeeps(left, s);
        assert SessionInv(left, u.sessions[sid]);
      } else {
        assert u.sessions[sid] == s;
      }
    }
  }

  lemma NodeLeaveKeeps(t: Table, u: Table, ns: NodeSocket)
    requires Inv(t) && u == NodeLeave(t, ns)
    ensures Inv(u)
  {
    NodeLeaveSessions(t, u, ns);
    assert u.pending == DropNodeHalves(t.pending, ns);
    assert u.sessions.Keys <= t.sessions.Keys;
    forall sid | sid in u.pending ensures sid !in u.sessions && PendingInv(u, u.pending[sid]) {
      assert PendingInv(t, t.pending[sid]);
    }
  }

  lemma FinishRequestKeeps(t: Table, u: Table, c: Client, sid: SessionId, allowed: bool, hasToken: bool)
    requires Inv(t) && sid !in t.sessions && sid !in t.pending && u == FinishRequest(t, c, sid, allowed, hasToken)
    ensures Inv(u)
  {
    hide ClientsLeave;
    match FinishReply(t, c, sid, allowed, hasToken)
    case Denied =>
      if c in t.clients {
        ClientsLeaveKeeps(t, u, {c});
      }
    case Granted(_) =>
      assert SessionInv(t, u.sessions[sid]);
      SessionPutKeeps(t, u, sid);
    case _ =>
  }

  lemma ClientOfferKeeps(t: Table, u: Table, c: Client, sid: SessionId)
    requires Inv(t) && u == ClientOffer(t, c, sid)
    ensures Inv(u)
  {
    if u != t {
      assert SessionInv(t, t.sessions[sid].(phase := OfferReceived));
      SessionPutKeeps(t, u, sid);
    }
  }

  lemma NodeAnswerKeeps(t: Table, u: Table, ns: NodeSocket, sid: SessionId)
    requires Inv(t) && u == NodeAnswer(t, ns, sid)
    ensures Inv(u)
  {
    if u != t {
      assert SessionInv(t, t.sessions[sid].(phase := Answered));
      SessionPutKeeps(t, u, sid);
    }
  }

  lemma NodeConnectedKeeps(t: Table, u: Table, ns: NodeSocket, sid: SessionId)
    requires Inv(t) && u == NodeConnected(t, ns, sid)
    ensures Inv(u)
  {
    if u != t {
      assert SessionInv(t, t.sessions[sid].(phase := Connected, negotiation := None));
      SessionPutKeeps(t, u, sid);
    }
  }

  lemma NodeHangupKeeps(t: Table, u: Table, ns: NodeSocket, sid: SessionId, reason: Reason)
    requires Inv(t) && u == NodeHangup(t, ns, sid, reason)
    ensures Inv(u)
  {
    SessionPutKeeps(t, u, sid);
  }

  lemma ClientHangupKeeps(t: Table, u: Table, c: Client, sid: SessionId)
    requires Inv(t) && u == ClientHangup(t, c, sid)
    ensures Inv(u)
  {
    SessionPutKeeps(t, u, sid);
  }

  /** The half that arrives and the half that waits, if any, belong together. */
  lemma HalvesMatch(t: Table, u: Table, sid: SessionId, nodeId: NodeId, half: Half)
    requires sid in t.pending ==> PendingInv(t, t.pending[sid])
    requires half.NodeHalf? ==> half.node in t.nodes && half.node.nodeId == nodeId
    requires half.ClientHalf? ==> half.client in t.clients && half.client.nodeId == nodeId
    requires u == OfferResume(t, sid, nodeId, half)
    ensures if sid in u.pending then PendingInv(t, u.pending[sid]) && u.sessions == t.sessions
            else sid in u.sessions && SessionInv(t, u.sessions[sid])
    ensures SameSockets(t, u)
  {
  }

  lemma OfferResumeKeeps(t: Table, u: Table, sid: SessionId, nodeId: NodeId, half: Half)
    requires Inv(t) && sid !in t.sessions
    requires half.NodeHalf? ==> half.node in t.nodes && half.node.nodeId == nodeId
    requires half.ClientHalf? ==> half.client in t.clients && half.client.nodeId == nodeId
    requires u == OfferResume(t, sid, nodeId, half)
    ensures Inv(u) && SameSockets(t, u)
  {
    HalvesMatch(t, u, sid, nodeId, half);
    if sid in u.pending {
      PendingPutKeeps(t, u, sid);
    } else {
      SessionPutKeeps(t, u, sid);
    }
  }

  lemma ClientResumeKeeps(t: Table, u: Table, c: Client, sid: SessionId)
    requires Inv(t) && c in t.clients && u == ClientResume(t, c, sid)
    ensures Inv(u)
  {
    if !ResumeRefused(t, c, sid) {
      if sid in t.sessions {
        assert SessionInv(t, t.sessions[sid]);
        RefreshKeeps(t, t.sessions[sid].(client := c));
        SessionPutKeeps(t, u, sid);
      } else {
        OfferResumeKeeps(t, u, sid, c.nodeId, ClientHalf(c));
      }
    }
  }

  lemma AnnounceOneKeeps(t: Table, u: Table, ns: NodeSocket, sid: SessionId)
    requires Inv(t) && ns in t.nodes && u == AnnounceOne(t, ns, sid)
    ensures Inv(u) && SameSockets(t, u)
  {
    hide OfferResume;
    hide RefreshOrphan;
    hide SessionInv;
    if sid !in t.sessions {
      OfferResumeKeeps(t, u, sid, ns.nodeId, NodeHalf(ns));
    } else {
      RebindKeeps(t, u, ns, sid);
      SessionPutKeeps(t, u, sid);
    }
  }

  lemma RebindKeeps(t: Table, u: Table, ns: NodeSocket, sid: SessionId)
    requires sid in t.sessions && SessionInv(t, t.sessions[sid]) && ns in t.nodes && u == AnnounceOne(t, ns, sid)
    ensures sid in u.sessions && SessionInv(t, u.sessions[sid]) && SameSockets(t, u)
  {
    if t.sessions[sid].nodeId == ns.nodeId {
      RefreshKeeps(t, t.sessions[sid].(node := ns));
    }
  }

  lemma {:induction false} AnnounceEachKeeps(t: Table, ns: NodeSocket, sids: seq<SessionId>)
    requires Inv(t) && ns in t.nodes
    ensures Inv(AnnounceEach(t, ns, sids)) && SameSockets(t, AnnounceEach(t, ns, sids))
  {
    if sids != [] {
      var before := AnnounceEach(t, ns, sids[..|sids| - 1]);
      AnnounceEachKeeps(t, ns, sids[..|sids| - 1]);
      AnnounceOneKeeps(before, AnnounceEach(t, ns, sids), ns, sids[|sids| - 1]);
    }
  }

  lemma AnnounceKeeps(t: Table, ns: NodeSocket, sids: seq<SessionId>)
    requires Inv(t) && ns in t.nodes
    ensures Inv(Announce(t, ns, sids))
  {
    var met := AnnounceEach(t, ns, Distinct(sids));
    AnnounceEachKeeps(t, ns, Distinct(sids));
    CloseManyKeeps(met, Announce(t, ns, sids), NodeOffline, false, Unannounced(met, ns.nodeId, sids));
  }

  lemma FireResumeKeeps(t: Table, u: Table, sid: SessionId)
    requires Inv(t) && u == FireResume(t, sid)
    ensures Inv(u)
  {
    if sid in t.pending {
      SessionPutKeeps(t, u, sid);
    }
  }

  lemma RevokeUserKeeps(t: Table, nodeId: NodeId, userId: UserId)
    requires Inv(t)
    ensures Inv(RevokeUser(t, nodeId, userId))
  {
    var closed := Apply(t, CloseRule(AccessRevoked, true), UserSessions(t, nodeId, userId));
    CloseManyKeeps(t, closed, AccessRevoked, true, UserSessions(t, nodeId, userId));
    ClientsLeaveKeeps(closed, RevokeUser(t, nodeId, userId), UserClients(t, nodeId, userId));
  }
}
