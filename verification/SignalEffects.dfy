/**
 What each event brings about, said once for all events: which sockets there are afterwards, which sessions begin, move
 and end, which resumes wait, and what was sent.  It is the counterpart of `SignalRuns`, which says what every event
 keeps.
 */
module SignalEffects {
  import opened Options
  import opened Signal
  import opened SignalById
  import opened SignalInvariant
  import opened SignalRuns
  import opened SignalResume

  // ---------- the sockets ----------

  /** The browser leaves, is refused access, or has its access withdrawn. */
  predicate PutsOut(e: Event, c: Client) {
    || e == Leaves(c)
    || (e.Requests? && e.c == c && !e.allowed)
    || (e.UserRevoked? && c.nodeId == e.nodeId && c.userId == e.userId)
  }

  function RegisteredAs(t: Table, n: NodeId): Option<NodeSocket> {
    if n in t.registry then Some(t.registry[n]) else None
  }

  function RegisteredAfter(t: Table, e: Event, n: NodeId): Option<NodeSocket> {
    if ((e.NodeJoins? && !e.transient) || e.Registers?) && e.ns.nodeId == n then Some(e.ns)
    else if e.NodeLeaves? && RegisteredAs(t, n) == Some(e.ns) then None
    else RegisteredAs(t, n)
  }

  ghost predicate SocketsAsTold(t: Table, e: Event, u: Table) {
    && (forall c :: c in u.clients <==> e == Joins(c) || (c in t.clients && !PutsOut(e, c)))
    && (forall n :: n in u.nodes <==> (e.NodeJoins? && e.ns == n) || (n in t.nodes && e != NodeLeaves(n)))
    && (forall n :: RegisteredAs(u, n) == RegisteredAfter(t, e, n))
    && u.now == if e.Time? then e.now else t.now
  }

  lemma LeftSockets(t: Table, u: Table, gone: set<Client>)
    requires u == ClientsLeave(t, gone)
    ensures u.nodes == t.nodes && u.registry == t.registry && u.now == t.now && u.clients == t.clients - gone
  {
  }

  lemma NodeLeftSockets(t: Table, u: Table, ns: NodeSocket)
    requires Sockets(t) && u == NodeLeave(t, ns)
    ensures SocketsAsTold(t, NodeLeaves(ns), u)
  {
  }

  lemma RevokedSockets(t: Table, u: Table, nodeId: NodeId, userId: UserId)
    requires u == RevokeUser(t, nodeId, userId)
    ensures SocketsAsTold(t, UserRevoked(nodeId, userId), u)
  {
    hide ClientsLeave;
    var closed := Apply(t, CloseRule(AccessRevoked, true), UserSessions(t, nodeId, userId));
    LeftSockets(closed, u, UserClients(t, nodeId, userId));
  }

  lemma RequestedSockets(t: Table, u: Table, c: Client, sid: SessionId, allowed: bool, hasToken: bool)
    requires u == FinishRequest(t, c, sid, allowed, hasToken)
    ensures SocketsAsTold(t, Requests(c, sid, allowed, hasToken), u)
  {
    hide ClientsLeave;
    if !allowed && c in t.clients {
      LeftSockets(t, u, {c});
    }
  }

  /** Events that leave all sockets as they are. */
  predicate Stays(e: Event) {
    || EndsOne(e) || e.Offers? || e.Answers? || e.Connects? || e.ResumeFires? || e.Resumes? || e.Announces?
    || e.LoginsRevoked?
  }

  lemma StayingSockets(t: Table, e: Event, u: Table)
    requires Stays(e) && SameSockets(t, u)
    ensures SocketsAsTold(t, e, u)
  {
  }

  lemma ComingSockets(t: Table, e: Event, u: Table)
    requires u == Step(t, e) && (e.Joins? || e.NodeJoins? || e.Registers? || e.Time?)
    ensures SocketsAsTold(t, e, u)
  {
  }

  lemma ResumeStays(t: Table, u: Table, c: Client, sid: SessionId)
    requires u == ClientResume(t, c, sid)
    ensures SameSockets(t, u)
  {
    if sid != "" {
      hide ClientResume;
      ClientResumeAt(t, u, c, sid);
    }
  }

  lemma HandshakeStays(t: Table, e: Event, u: Table)
    requires u == Step(t, e) && (e.Offers? || e.Answers? || e.Connects? || e.ResumeFires?)
    ensures SameSockets(t, u)
  {
    hide ExpiryEntries;
    hide Transition;
  }

  /** Which browsers and nodes are connected, and which socket is registered for a node, after any event. */
  lemma SocketsExactly(t: Table, e: Event, u: Table)
    requires Inv(t) && u == Step(t, e)
    ensures SocketsAsTold(t, e, u)
  {
    if e.Joins? || e.NodeJoins? || e.Registers? || e.Time? {
      ComingSockets(t, e, u);
      return;
    }
    if EndsOne(e) {
      EndsAtMostOne(t, e, u);
      StayingSockets(t, e, u);
      return;
    }
    if e.Offers? || e.Answers? || e.Connects? || e.ResumeFires? {
      HandshakeStays(t, e, u);
      StayingSockets(t, e, u);
      return;
    }
    hide NodeLeave;
    hide ClientsLeave;
    hide Announce;
    hide RevokeUser;
    hide RevokeLogins;
    hide ClientResume;
    hide FinishRequest;
    match e
    case Leaves(c) => LeftSockets(t, u, {c});
    case NodeLeaves(ns) => hide SocketsAsTold; NodeLeftSockets(t, u, ns);
    case Requests(c, sid, allowed, hasToken) => hide SocketsAsTold; RequestedSockets(t, u, c, sid, allowed, hasToken);
    case UserRevoked(n, user) => hide SocketsAsTold; RevokedSockets(t, u, n, user);
    case LoginsRevoked(logins) => hide SocketsAsTold; LoginsStay(t, u, logins); StayingSockets(t, e, u);
    case Resumes(c, sid) => hide SocketsAsTold; ResumeStays(t, u, c, sid); StayingSockets(t, e, u);
    case Announces(ns, sids) => hide SocketsAsTold; AnnounceAt(t, u, ns, sids, ""); StayingSockets(t, e, u);
  }

  lemma LoginsStay(t: Table, u: Table, logins: set<int>)
    requires u == RevokeLogins(t, logins)
    ensures SameSockets(t, u)
  {
  }

  // ---------- a live session ----------

  /** The browser takes the CONNECTED session over on its present socket. */
  predicate Takes(e: Event, sid: SessionId, s: Session) {
    e.Resumes? && e.sid == sid && sid != "" && s.nodeId == e.c.nodeId && s.userId == e.c.userId && s.phase == Connected
  }

  /** The node claims the session for the socket that announces it. */
  predicate Claims(e: Event, sid: SessionId, s: Session) {
    e.Announces? && sid in e.sids && s.nodeId == e.ns.nodeId
  }

  /** What ends a live session. */
  predicate Ends(t: Table, e: Event, sid: SessionId)
    requires sid in t.sessions
  {
    var s := t.sessions[sid];
    match e
    case Leaves(c) => s.client == c && s.phase != Connected
    case Requests(c, _, allowed, _) => s.client == c && !allowed && s.phase != Connected
    case NodeLeaves(ns) => s.node == ns && s.phase != Connected
    case NodeHangsUp(ns, x, _) => x == sid && s.nodeId == ns.nodeId
    case HangsUp(c, x) => x == sid && s.client == c
    case Announces(ns, sids) => s.nodeId == ns.nodeId && s.phase == Connected && sid !in sids
    case Rechecks(x, allowed) => x == sid && !allowed
    case NegotiationFires(x) => x == sid
    case OrphanFires(x) => x == sid
    case UserRevoked(n, user) => s.nodeId == n && s.userId == user
    case LoginsRevoked(logins) => s.client.login in logins
    case _ => false
  }

  /** Only its own offer, its node's answer and its node's word that it is connected move a session on. */
  function PhaseAfter(e: Event, sid: SessionId, s: Session): Phase {
    if e == Offers(s.client, sid) && s.phase == OpenSent then OfferReceived
    else if e.Answers? && e.sid == sid && e.ns.nodeId == s.nodeId && s.phase == OfferReceived then Answered
    else if e.Connects? && e.sid == sid && e.ns.nodeId == s.nodeId then Connected
    else s.phase
  }

  /** Whether both ends are there is looked at again when one end goes or comes back. */
  predicate LooksAgain(t: Table, e: Event, sid: SessionId, s: Session) {
    || e == Leaves(s.client) || (e.Requests? && e.c == s.client && !e.allowed && e.c in t.clients)
    || e == NodeLeaves(s.node) || Takes(e, sid, s) || Claims(e, sid, s)
  }

  /** The session as it is after an event it survives; its grace timer is cleared exactly when both ends are seen. */
  predicate SessionAsTold(t: Table, e: Event, u: Table, sid: SessionId)
    requires sid in t.sessions && sid in u.sessions
  {
    var s, s' := t.sessions[sid], u.sessions[sid];
    && s'.phase == PhaseAfter(e, sid, s)
    && s'.client == (if Takes(e, sid, s) then e.c else s.client)
    && s'.node == (if Claims(e, sid, s) then e.ns else s.node)
    && s'.nodeId == s.nodeId && s'.userId == s.userId && s'.createdAt == s.createdAt
    && s'.negotiation == (if s'.phase == Connected then None else s.negotiation)
    && s'.orphan == (if !LooksAgain(t, e, sid, s) then s.orphan
                     else if u.NodeTarget(s').Some? && s'.client in u.clients then None
                     else if s.orphan.Some? then s.orphan
                     else Some(t.now + NODE_OFFLINE_GRACE_MS))
  }

  predicate LiveAsTold(t: Table, e: Event, u: Table, sid: SessionId)
    requires sid in t.sessions
  {
    && (sid in u.sessions <==> !Ends(t, e, sid))
    && (sid in u.sessions ==> SessionAsTold(t, e, u, sid))
  }

  lemma SessionHolds(t: Table, sid: SessionId)
    requires Inv(t) && sid in t.sessions
    ensures SessionInv(t, t.sessions[sid])
  {
  }

  lemma OffersAt(t: Table, u: Table, c: Client, x: SessionId, sid: SessionId)
    requires u == ClientOffer(t, c, x) && sid in t.sessions && SessionInv(t, t.sessions[sid])
    ensures LiveAsTold(t, Offers(c, x), u, sid)
  {
  }

  lemma AnswersAt(t: Table, u: Table, ns: NodeSocket, x: SessionId, sid: SessionId)
    requires u == NodeAnswer(t, ns, x) && sid in t.sessions && SessionInv(t, t.sessions[sid])
    ensures LiveAsTold(t, Answers(ns, x), u, sid)
  {
  }

  lemma ConnectsAt(t: Table, u: Table, ns: NodeSocket, x: SessionId, sid: SessionId)
    requires u == NodeConnected(t, ns, x) && sid in t.sessions && SessionInv(t, t.sessions[sid])
    ensures LiveAsTold(t, Connects(ns, x), u, sid)
  {
  }

  lemma UntouchedAt(t: Table, e: Event, u: Table, sid: SessionId)
    requires sid in t.sessions && SessionInv(t, t.sessions[sid]) && sid in u.sessions
    requires u.sessions[sid] == t.sessions[sid] && !Ends(t, e, sid) && !LooksAgain(t, e, sid, t.sessions[sid])
    requires PhaseAfter(e, sid, t.sessions[sid]) == t.sessions[sid].phase
    ensures LiveAsTold(t, e, u, sid)
  {
  }

  /** These events do end the session they are about. */
  lemma EndsItself(t: Table, e: Event, u: Table)
    requires Enabled(t, e) && u == Step(t, e) && EndsOne(e) && e.sid in t.sessions && SessionInv(t, t.sessions[e.sid])
    ensures e.sid in u.sessions <==> !Ends(t, e, e.sid)
  {
    hide CloseEntries;
  }

  lemma EndingAt(t: Table, e: Event, u: Table, sid: SessionId)
    requires Inv(t) && Enabled(t, e) && u == Step(t, e) && sid in t.sessions && EndsOne(e)
    ensures LiveAsTold(t, e, u, sid)
  {
    hide Step;
    hide Enabled;
    hide Inv;
    hide LiveAsTold;
    hide SessionInv;
    SessionHolds(t, sid);
    EndsAtMostOne(t, e, u);
    if sid == e.sid {
      EndsItself(t, e, u);
    }
    if sid in u.sessions {
      UntouchedAt(t, e, u, sid);
    } else {
      EndedAt(t, e, u, sid);
    }
  }

  lemma QuietAt(t: Table, e: Event, u: Table, sid: SessionId)
    requires Inv(t) && u == Step(t, e) && sid in t.sessions
    requires e.Joins? || e.NodeJoins? || e.Registers? || e.ResumeFires? || e.Time?
    ensures LiveAsTold(t, e, u, sid)
  {
    hide Step;
    hide Inv;
    hide LiveAsTold;
    QuietFollows(t, e, u);
    SessionHolds(t, sid);
    UntouchedAt(t, e, u, sid);
  }

  lemma LeavesAt(t: Table, u: Table, c: Client, sid: SessionId)
    requires Inv(t) && u == ClientsLeave(t, {c}) && sid in t.sessions
    ensures LiveAsTold(t, Leaves(c), u, sid)
  {
    hide Inv;
    SessionHolds(t, sid);
    hide ClientsLeave;
    LeaveAt(t, u, {c}, sid);
    LeftSockets(t, u, {c});
  }

  lemma DeniedAt(t: Table, u: Table, c: Client, x: SessionId, hasToken: bool, sid: SessionId)
    requires Inv(t) && c in t.clients && u == ClientsLeave(t, {c}) && sid in t.sessions
    ensures LiveAsTold(t, Requests(c, x, false, hasToken), u, sid)
  {
    hide Inv;
    hide ClientsLeave;
    LeavesAt(t, u, c, sid);
  }

  lemma RequestsAt(t: Table, u: Table, c: Client, x: SessionId, allowed: bool, hasToken: bool, sid: SessionId)
    requires Inv(t) && x !in t.sessions && u == FinishRequest(t, c, x, allowed, hasToken) && sid in t.sessions
    ensures LiveAsTold(t, Requests(c, x, allowed, hasToken), u, sid)
  {
    hide ClientsLeave;
    hide LiveAsTold;
    if !allowed && c in t.clients {
      DeniedAt(t, u, c, x, hasToken, sid);
    } else {
      hide Inv;
      SessionHolds(t, sid);
      UntouchedAt(t, Requests(c, x, allowed, hasToken), u, sid);
    }
  }

  lemma NodeLeavesAt(t: Table, u: Table, ns: NodeSocket, sid: SessionId)
    requires Inv(t) && u == NodeLeave(t, ns) && sid in t.sessions
    ensures LiveAsTold(t, NodeLeaves(ns), u, sid)
  {
    hide Inv;
    hide Apply;
    var left, bound := NodeDeparted(t, ns), BoundTo(t, ns);
    SessionHolds(t, sid);
    ApplyAt(left, Apply(left, NodeGone, bound), NodeGone, bound, sid);
    ApplyKeepsSockets(left, NodeGone, bound);
    NodeTargetsAgree(t, u, ns, t.sessions[sid]);
  }

  lemma ApplyKeepsSockets(t: Table, rule: Rule, sids: set<SessionId>)
    ensures SameSockets(t, Apply(t, rule, sids))
  {
  }

  lemma NodeTargetsAgree(t: Table, u: Table, ns: NodeSocket, s: Session)
    requires u.nodes == t.nodes - {ns}
    requires u.registry == if ns.nodeId in t.registry && t.registry[ns.nodeId] == ns then t.registry - {ns.nodeId}
                           else t.registry
    ensures NodeDeparted(t, ns).NodeTarget(s) == u.NodeTarget(s)
  {
  }

  lemma UserRevokedAt(t: Table, u: Table, nodeId: NodeId, userId: UserId, sid: SessionId)
    requires Inv(t) && u == RevokeUser(t, nodeId, userId) && sid in t.sessions
    ensures LiveAsTold(t, UserRevoked(nodeId, userId), u, sid)
  {
    hide RevokeUser;
    hide SessionInv;
    hide LiveAsTold;
    RevokedSessions(t, u, nodeId, userId);
    SessionHolds(t, sid);
    if sid in u.sessions {
      UntouchedAt(t, UserRevoked(nodeId, userId), u, sid);
    } else {
      EndedAt(t, UserRevoked(nodeId, userId), u, sid);
    }
  }

  lemma LoginsRevokedAt(t: Table, u: Table, logins: set<int>, sid: SessionId)
    requires Inv(t) && u == RevokeLogins(t, logins) && sid in t.sessions
    ensures LiveAsTold(t, LoginsRevoked(logins), u, sid)
  {
    hide SessionInv;
    hide LiveAsTold;
    RevokedLoginKeepsNothing(t, u, logins);
    SessionHolds(t, sid);
    hide RevokeLogins;
    if sid in u.sessions {
      UntouchedAt(t, LoginsRevoked(logins), u, sid);
    } else {
      EndedAt(t, LoginsRevoked(logins), u, sid);
    }
  }

  lemma TakenAt(t: Table, u: Table, c: Client, sid: SessionId)
    requires Inv(t) && u == ClientResume(t, c, sid) && sid in t.sessions && Takes(Resumes(c, sid), sid, t.sessions[sid])
    ensures LiveAsTold(t, Resumes(c, sid), u, sid)
  {
    hide Inv;
    SessionHolds(t, sid);
    hide OfferResume;
  }

  lemma ResumesAt(t: Table, u: Table, c: Client, x: SessionId, sid: SessionId)
    requires Inv(t) && u == ClientResume(t, c, x) && sid in t.sessions
    ensures LiveAsTold(t, Resumes(c, x), u, sid)
  {
    hide LiveAsTold;
    if Takes(Resumes(c, x), sid, t.sessions[sid]) {
      TakenAt(t, u, c, sid);
    } else {
      if x !in t.sessions && x != "" {
        OfferResumeElsewhere(t, u, x, c.nodeId, ClientHalf(c), sid);
      }
      hide OfferResume;
      hide Inv;
      SessionHolds(t, sid);
      UntouchedAt(t, Resumes(c, x), u, sid);
    }
  }

  lemma ClaimedAt(t: Table, u: Table, ns: NodeSocket, sids: seq<SessionId>, sid: SessionId)
    requires sid in t.sessions && SessionInv(t, t.sessions[sid])
    requires sid in u.sessions && t.sessions[sid].nodeId == ns.nodeId && sid in sids
    requires SameSockets(t, u) && u.sessions[sid] == RefreshOrphan(t, t.sessions[sid].(node := ns))
    ensures LiveAsTold(t, Announces(ns, sids), u, sid)
  {
  }

  lemma AnnouncesAt(t: Table, u: Table, ns: NodeSocket, sids: seq<SessionId>, sid: SessionId)
    requires Inv(t) && u == Announce(t, ns, sids) && sid in t.sessions
    ensures LiveAsTold(t, Announces(ns, sids), u, sid)
  {
    hide Announce;
    hide LiveAsTold;
    AnnounceAt(t, u, ns, sids, sid);
    hide Inv;
    SessionHolds(t, sid);
    if Claims(Announces(ns, sids), sid, t.sessions[sid]) {
      ClaimedAt(t, u, ns, sids, sid);
    } else if Ends(t, Announces(ns, sids), sid) {
      EndedAt(t, Announces(ns, sids), u, sid);
    } else {
      UntouchedAt(t, Announces(ns, sids), u, sid);
    }
  }

  lemma EndedAt(t: Table, e: Event, u: Table, sid: SessionId)
    requires sid in t.sessions && sid !in u.sessions && Ends(t, e, sid)
    ensures LiveAsTold(t, e, u, sid)
  {
  }

  lemma HandshakeAt(t: Table, e: Event, u: Table, sid: SessionId)
    requires Inv(t) && u == Step(t, e) && sid in t.sessions && (e.Offers? || e.Answers? || e.Connects?)
    ensures LiveAsTold(t, e, u, sid)
  {
    hide Inv;
    hide LiveAsTold;
    hide ClientOffer;
    hide NodeAnswer;
    hide NodeConnected;
    SessionHolds(t, sid);
    match e
    case Offers(c, x) => OffersAt(t, u, c, x, sid);
    case Answers(ns, x) => AnswersAt(t, u, ns, x, sid);
    case Connects(ns, x) => ConnectsAt(t, u, ns, x, sid);
  }

  lemma OtherAt(t: Table, e: Event, u: Table, sid: SessionId)
    requires Inv(t) && Enabled(t, e) && u == Step(t, e) && sid in t.sessions
    requires e.Leaves? || e.Requests? || e.NodeLeaves? || e.UserRevoked? || e.LoginsRevoked? || e.Resumes?
             || e.Announces?
    ensures LiveAsTold(t, e, u, sid)
  {
    hide LiveAsTold;
    hide Inv;
    hide NodeLeave;
    hide ClientsLeave;
    hide Announce;
    hide RevokeUser;
    hide RevokeLogins;
    hide ClientResume;
    hide FinishRequest;
    match e
    case Leaves(c) => LeavesAt(t, u, c, sid);
    case Requests(c, x, allowed, hasToken) => RequestsAt(t, u, c, x, allowed, hasToken, sid);
    case NodeLeaves(ns) => NodeLeavesAt(t, u, ns, sid);
    case UserRevoked(n, user) => UserRevokedAt(t, u, n, user, sid);
    case LoginsRevoked(logins) => LoginsRevokedAt(t, u, logins, sid);
    case Resumes(c, x) => ResumesAt(t, u, c, x, sid);
    case Announces(ns, sids) => AnnouncesAt(t, u, ns, sids, sid);
  }

  /**
   Every event and every live session: whether it ends, and if not, its phase, its two ends and its timers.  In
   particular a session ends for no other cause than those listed, and for each of them it does end.
   */
  lemma LiveSessionsExactly(t: Table, e: Event, u: Table, sid: SessionId)
    requires Inv(t) && Enabled(t, e) && u == Step(t, e) && sid in t.sessions
    ensures LiveAsTold(t, e, u, sid)
  {
    hide Step;
    hide Enabled;
    hide Inv;
    hide LiveAsTold;
    if EndsOne(e) {
      EndingAt(t, e, u, sid);
      return;
    }
    if e.Joins? || e.NodeJoins? || e.Registers? || e.ResumeFires? || e.Time? {
      QuietAt(t, e, u, sid);
      return;
    }
    if e.Offers? || e.Answers? || e.Connects? {
      HandshakeAt(t, e, u, sid);
      return;
    }
    OtherAt(t, e, u, sid);
  }
}
