/** What each event brings about for an id without a session: which sessions begin, and which resumes wait. */
module SignalBeginnings {
  import opened InsertionOrder
  import opened Options
  import opened Signal
  import opened SignalById
  import opened SignalInvariant
  import opened SignalRuns
  import opened SignalResume
  import opened SignalEffects

  /** The request is admitted: access, a token, the browser still there with room for a session, the node online. */
  predicate Admits(t: Table, e: Event) {
    e.Requests? && e.allowed && e.hasToken && e.c in t.clients && |t.Held(e.c)| < MAX_SESSIONS_PER_SOCKET
    && t.Registered(e.c.nodeId).Some?
  }

  /** One end offers its half of a session that does not live. */
  predicate OffersHalf(t: Table, e: Event, sid: SessionId) {
    sid !in t.sessions && ((e.Resumes? && e.sid == sid && sid != "") || (e.Announces? && sid in e.sids))
  }

  function HalfNode(e: Event): NodeId
    requires e.Resumes? || e.Announces?
  {
    if e.Resumes? then e.c.nodeId else e.ns.nodeId
  }

  /** The other half already waits, for the same node. */
  predicate Meets(t: Table, e: Event, sid: SessionId) {
    OffersHalf(t, e, sid) && sid in t.pending && t.pending[sid].nodeId == HalfNode(e)
    && (if e.Resumes? then t.pending[sid].node.Some? else t.pending[sid].client.Some?)
  }

  predicate Begins(t: Table, e: Event, sid: SessionId) {
    (Admits(t, e) && e.sid == sid) || Meets(t, e, sid)
  }

  /** An admitted request negotiates with the node's registered socket; halves that meet are CONNECTED at once. */
  predicate NewAsTold(t: Table, e: Event, s: Session)
    requires e.Requests? ==> t.Registered(e.c.nodeId).Some?
  {
    && (e.Requests? ==>
          s == Session(e.c, t.Registered(e.c.nodeId).value, e.c.nodeId, e.c.userId, OpenSent,
                       Some(t.now + NEGOTIATION_TIMEOUT_MS), None, t.now))
    && (e.Resumes? ==> s.client == e.c)
    && (e.Announces? ==> s.node == e.ns)
    && s.nodeId == s.client.nodeId && s.userId == s.client.userId && s.createdAt == t.now
    && (!e.Requests? ==> s.phase == Connected && s.negotiation == None && s.orphan == None)
  }

  /** The half that waited is the other end of the session. */
  predicate WaitedFor(t: Table, e: Event, sid: SessionId, s: Session) {
    Meets(t, e, sid) ==>
      if e.Resumes? then Some(s.node) == t.pending[sid].node else Some(s.client) == t.pending[sid].client
  }

  predicate LosesHalf(e: Event, p: Pending) {
    (p.client.Some? && PutsOut(e, p.client.value)) || (p.node.Some? && e == NodeLeaves(p.node.value))
  }

  predicate StillWaits(t: Table, e: Event, sid: SessionId) {
    sid in t.pending && !LosesHalf(e, t.pending[sid]) && e != ResumeFires(sid)
  }

  /** A half that is offered again, or for another node than the one that waited, replaces it. */
  predicate WaitsAsTold(t: Table, e: Event, p: Pending, sid: SessionId) {
    if OffersHalf(t, e, sid) then
      && p.nodeId == HalfNode(e)
      && (if e.Resumes? then p.client == Some(e.c) && p.node == None else p.node == Some(e.ns) && p.client == None)
      && (if sid in t.pending && t.pending[sid].nodeId == HalfNode(e) then p.createdAt == t.pending[sid].createdAt
          else p.createdAt == t.now)
      && p.timer == Some(p.createdAt + NODE_OFFLINE_GRACE_MS)
    else sid in t.pending && p == t.pending[sid]
  }

  ghost predicate AbsentAsTold(t: Table, e: Event, u: Table, sid: SessionId) {
    && (sid in u.sessions <==> Begins(t, e, sid))
    && (sid in u.sessions ==> NewAsTold(t, e, u.sessions[sid]) && WaitedFor(t, e, sid, u.sessions[sid]))
    && (sid in u.pending <==> !Meets(t, e, sid) && (OffersHalf(t, e, sid) || StillWaits(t, e, sid)))
    && (sid in u.pending ==> WaitsAsTold(t, e, u.pending[sid], sid))
  }

  lemma PendingHolds(t: Table, sid: SessionId)
    requires Inv(t) && sid in t.pending
    ensures PendingInv(t, t.pending[sid]) && sid !in t.sessions
  {
  }

  lemma OfferedAbsent(t: Table, u: Table, c: Client, sid: SessionId)
    requires sid in t.pending ==> PendingInv(t, t.pending[sid])
    requires sid !in t.sessions && sid != ""
    requires ViewOf(u, sid) == OfferView(t, c.nodeId, ViewOf(t, sid).pending, ClientHalf(c))
    ensures AbsentAsTold(t, Resumes(c, sid), u, sid)
  {
  }

  lemma ElsewhereAt(t: Table, e: Event, u: Table, sid: SessionId)
    requires sid !in t.sessions && !OffersHalf(t, e, sid) && !(Admits(t, e) && e.sid == sid)
    requires sid !in u.sessions
    requires if StillWaits(t, e, sid) then sid in u.pending && u.pending[sid] == t.pending[sid] else sid !in u.pending
    ensures AbsentAsTold(t, e, u, sid)
  {
  }

  lemma ResumesAbsent(t: Table, u: Table, c: Client, x: SessionId, sid: SessionId)
    requires Inv(t) && u == ClientResume(t, c, x) && sid !in t.sessions
    ensures AbsentAsTold(t, Resumes(c, x), u, sid)
  {
    hide Inv;
    hide AbsentAsTold;
    if sid in t.pending {
      PendingHolds(t, sid);
    }
    if x == sid && sid != "" {
      ClientResumeAt(t, u, c, sid);
      hide OfferView;
      OfferedAbsent(t, u, c, sid);
    } else {
      if x !in t.sessions && x != "" {
        OfferResumeElsewhere(t, u, x, c.nodeId, ClientHalf(c), sid);
      }
      hide OfferResume;
      ElsewhereAt(t, Resumes(c, x), u, sid);
    }
  }

  lemma ClaimedAbsent(t: Table, u: Table, ns: NodeSocket, sids: seq<SessionId>, sid: SessionId)
    requires sid in t.pending ==> PendingInv(t, t.pending[sid])
    requires sid !in t.sessions && sid in sids
    requires ViewOf(u, sid) == OfferView(t, ns.nodeId, ViewOf(t, sid).pending, NodeHalf(ns))
    ensures AbsentAsTold(t, Announces(ns, sids), u, sid)
  {
  }

  lemma AnnouncesAbsent(t: Table, u: Table, ns: NodeSocket, sids: seq<SessionId>, sid: SessionId)
    requires Inv(t) && u == Announce(t, ns, sids) && sid !in t.sessions
    ensures AbsentAsTold(t, Announces(ns, sids), u, sid)
  {
    hide Inv;
    hide AbsentAsTold;
    hide Announce;
    hide OfferView;
    AnnounceAt(t, u, ns, sids, sid);
    if sid in t.pending {
      PendingHolds(t, sid);
    }
    if sid in sids {
      ClaimedAbsent(t, u, ns, sids, sid);
    } else {
      ElsewhereAt(t, Announces(ns, sids), u, sid);
    }
  }

  lemma LeavesAbsent(t: Table, e: Event, u: Table, gone: set<Client>, sid: SessionId)
    requires Inv(t) && u == ClientsLeave(t, gone) && sid !in t.sessions
    requires e.Leaves? || (e.Requests? && !e.allowed) || e.UserRevoked?
    requires forall c :: c in t.clients ==> (c in gone <==> PutsOut(e, c))
    ensures AbsentAsTold(t, e, u, sid)
  {
    if sid in t.pending {
      PendingHolds(t, sid);
    }
    LeaveAt(t, u, gone, sid);
    LeaveEnvironment(t, u, gone);
    hide Inv;
    hide ClientsLeave;
    hide AbsentAsTold;
    ElsewhereAt(t, e, u, sid);
  }

  lemma UserRevokedAbsent(t: Table, u: Table, nodeId: NodeId, userId: UserId, sid: SessionId)
    requires Inv(t) && u == RevokeUser(t, nodeId, userId) && sid !in t.sessions
    ensures AbsentAsTold(t, UserRevoked(nodeId, userId), u, sid)
  {
    if sid in t.pending {
      PendingHolds(t, sid);
    }
    var closed, gone := Apply(t, CloseRule(AccessRevoked, true), UserSessions(t, nodeId, userId)),
      UserClients(t, nodeId, userId);
    ApplyAt(t, closed, CloseRule(AccessRevoked, true), UserSessions(t, nodeId, userId), sid);
    LeaveAt(closed, u, gone, sid);
    LeaveEnvironment(closed, u, gone);
    hide Inv;
    hide ClientsLeave;
    hide AbsentAsTold;
    assert closed.pending == t.pending;
    hide Apply;
    ElsewhereAt(t, UserRevoked(nodeId, userId), u, sid);
  }

  lemma NodeLeavesAbsent(t: Table, u: Table, ns: NodeSocket, sid: SessionId)
    requires Inv(t) && u == NodeLeave(t, ns) && sid !in t.sessions
    ensures AbsentAsTold(t, NodeLeaves(ns), u, sid)
  {
    if sid in t.pending {
      PendingHolds(t, sid);
    }
    hide Inv;
    hide AbsentAsTold;
    ElsewhereAt(t, NodeLeaves(ns), u, sid);
  }

  lemma AdmittedAbsent(t: Table, e: Event, u: Table)
    requires e.Requests? && Admits(t, e) && Enabled(t, e) && u == Step(t, e)
    ensures AbsentAsTold(t, e, u, e.sid)
  {
  }

  lemma RequestsAbsent(t: Table, e: Event, u: Table, sid: SessionId)
    requires Inv(t) && e.Requests? && Enabled(t, e) && u == Step(t, e) && sid !in t.sessions
    ensures AbsentAsTold(t, e, u, sid)
  {
    hide Inv;
    hide AbsentAsTold;
    hide ClientsLeave;
    if !e.allowed && e.c in t.clients {
      LeavesAbsent(t, e, u, {e.c}, sid);
    } else if Admits(t, e) && e.sid == sid {
      AdmittedAbsent(t, e, u);
    } else {
      if sid in t.pending {
        PendingHolds(t, sid);
      }
      ElsewhereAt(t, e, u, sid);
    }
  }

  /** Events that touch no pending resume and begin no session. */
  lemma OtherAbsent(t: Table, e: Event, u: Table, sid: SessionId)
    requires sid !in t.sessions && sid !in u.sessions && u.pending == t.pending
    requires EndsOne(e) || e.Offers? || e.Answers? || e.Connects? || e.LoginsRevoked?
             || e.Joins? || e.NodeJoins? || e.Registers? || e.Time?
    ensures AbsentAsTold(t, e, u, sid)
  {
  }

  lemma EndingBeginsNone(t: Table, e: Event, u: Table)
    requires u == Step(t, e) && EndsOne(e)
    ensures u.sessions.Keys <= t.sessions.Keys && u.pending == t.pending
  {
    hide CloseEntries;
  }

  lemma HandshakeBeginsNone(t: Table, e: Event, u: Table)
    requires u == Step(t, e) && (e.Offers? || e.Answers? || e.Connects? || e.LoginsRevoked?)
    ensures u.sessions.Keys <= t.sessions.Keys && u.pending == t.pending
  {
    hide CloseEntries;
    hide Transition;
  }

  lemma ComingBeginsNone(t: Table, e: Event, u: Table)
    requires u == Step(t, e) && (e.Joins? || e.NodeJoins? || e.Registers? || e.Time?)
    ensures u.sessions == t.sessions && u.pending == t.pending
  {
  }

  lemma ResumeFiresAbsent(t: Table, u: Table, x: SessionId, sid: SessionId)
    requires u == FireResume(t, x) && sid !in t.sessions
    ensures AbsentAsTold(t, ResumeFires(x), u, sid)
  {
  }

  lemma MovingAbsent(t: Table, e: Event, u: Table, sid: SessionId)
    requires Inv(t) && Enabled(t, e) && u == Step(t, e) && sid !in t.sessions
    requires e.Leaves? || e.NodeLeaves? || e.UserRevoked? || e.Resumes? || e.Announces? || e.ResumeFires?
    ensures AbsentAsTold(t, e, u, sid)
  {
    hide Inv;
    hide AbsentAsTold;
    hide NodeLeave;
    hide ClientsLeave;
    hide Announce;
    hide RevokeUser;
    hide ClientResume;
    hide FireResume;
    match e
    case Leaves(c) => LeavesAbsent(t, e, u, {c}, sid);
    case NodeLeaves(ns) => NodeLeavesAbsent(t, u, ns, sid);
    case UserRevoked(n, user) => UserRevokedAbsent(t, u, n, user, sid);
    case Resumes(c, x) => ResumesAbsent(t, u, c, x, sid);
    case Announces(ns, sids) => AnnouncesAbsent(t, u, ns, sids, sid);
    case ResumeFires(x) => ResumeFiresAbsent(t, u, x, sid);
  }

  /**
   Every event and every id without a session: a session begins exactly when a request for it is admitted or its two
   halves meet, and a half waits exactly from its offer until it meets the other, its socket goes or its time is up.
   */
  lemma AbsentIdsExactly(t: Table, e: Event, u: Table, sid: SessionId)
    requires Inv(t) && Enabled(t, e) && u == Step(t, e) && sid !in t.sessions
    ensures AbsentAsTold(t, e, u, sid)
  {
    hide Step;
    hide Enabled;
    hide Inv;
    hide AbsentAsTold;
    if e.Requests? {
      RequestsAbsent(t, e, u, sid);
    } else if EndsOne(e) {
      EndingBeginsNone(t, e, u);
      OtherAbsent(t, e, u, sid);
    } else if e.Offers? || e.Answers? || e.Connects? || e.LoginsRevoked? {
      HandshakeBeginsNone(t, e, u);
      OtherAbsent(t, e, u, sid);
    } else if e.Joins? || e.NodeJoins? || e.Registers? || e.Time? {
      ComingBeginsNone(t, e, u);
      OtherAbsent(t, e, u, sid);
    } else {
      MovingAbsent(t, e, u, sid);
    }
  }

  /**
   A request opens a session exactly when access is granted, the node has a token, the browser is still connected and
   holds fewer than four sessions, and the node is online; one without access is disconnected, and any other refusal
   changes nothing.
   */
  lemma RequestDecides(t: Table, e: Event, u: Table)
    requires Inv(t) && e.Requests? && Enabled(t, e) && u == Step(t, e)
    ensures e.sid in u.sessions <==>
              && e.allowed && e.hasToken && e.c in t.clients
              && |t.Held(e.c)| < MAX_SESSIONS_PER_SOCKET && t.Registered(e.c.nodeId).Some?
    ensures !e.allowed ==> e.c !in u.clients
    ensures e.allowed && e.sid !in u.sessions ==> u == t
    ensures e.sid in u.sessions ==>
              var s := u.sessions[e.sid];
              && s.client == e.c && s.phase == OpenSent && Some(s.node) == t.Registered(e.c.nodeId)
              && s.negotiation == Some(t.now + NEGOTIATION_TIMEOUT_MS)
              && u.Log(e.sid) == [ToNode(s.node, Open)]
  {
    AbsentIdsExactly(t, e, u, e.sid);
    hide Inv;
    hide ClientsLeave;
    if !e.allowed && e.c in t.clients {
      LeftSockets(t, u, {e.c});
    }
  }

  // ---------- resumes and adoptions ----------

  /** How many of these ids, each once, are adopted onto this browser when the node announces them. */
  function AdoptedOnto(t: Table, ns: NodeSocket, sids: seq<SessionId>, c: Client): nat {
    if sids == [] then 0
    else
      var sid := sids[|sids| - 1];
      AdoptedOnto(t, ns, sids[..|sids| - 1], c)
      + if sid !in t.sessions && sid in t.pending && t.pending[sid].nodeId == ns.nodeId
           && t.pending[sid].client == Some(c) then 1 else 0
  }

  lemma OfferGrants(t: Table, sid: SessionId, nodeId: NodeId, half: Half, c: Client)
    ensures OfferResume(t, sid, nodeId, half).Grants(c) == t.Grants(c) +
              if sid in t.pending && t.pending[sid].nodeId == nodeId
                 && (if half.NodeHalf? then t.pending[sid].client == Some(c)
                     else t.pending[sid].node.Some? && half.client == c)
              then 1 else 0
  {
    hide Adopted;
  }

  lemma AnnounceOneGrants(t: Table, ns: NodeSocket, sid: SessionId, c: Client)
    ensures AnnounceOne(t, ns, sid).Grants(c) == t.Grants(c) + AdoptedOnto(t, ns, [sid], c)
  {
    hide RefreshOrphan;
    hide OfferResume;
    assert [sid][..0] == [];
    OfferGrants(t, sid, ns.nodeId, NodeHalf(ns), c);
  }

  lemma {:induction false} AnnounceEachGrants(t: Table, ns: NodeSocket, sids: seq<SessionId>, c: Client)
    requires NoRepeats(sids)
    ensures AnnounceEach(t, ns, sids).Grants(c) == t.Grants(c) + AdoptedOnto(t, ns, sids, c)
  {
    hide AnnounceOne;
    if sids != [] {
      var front, last := sids[..|sids| - 1], sids[|sids| - 1];
      AnnounceEachGrants(t, ns, front, c);
      AnnounceOneGrants(AnnounceEach(t, ns, front), ns, last, c);
      AnnounceEachAt(t, ns, front, last);
      assert last !in front;
      assert [last][..0] == [];
    }
  }

  /** The sessions that come to a browser past the limit of four: one for each resume onto it and each adoption. */
  function Extra(t: Table, e: Event, c: Client): nat {
    match e
    case Resumes(x, sid) =>
      if x == c && (Meets(t, e, sid) || (sid in t.sessions && Takes(e, sid, t.sessions[sid]))) then 1 else 0
    case Announces(ns, sids) => AdoptedOnto(t, ns, Distinct(sids), c)
    case _ => 0
  }

  lemma ResumeGrants(t: Table, u: Table, x: Client, sid: SessionId, c: Client)
    requires u == ClientResume(t, x, sid)
    ensures u.Grants(c) == t.Grants(c) + Extra(t, Resumes(x, sid), c)
  {
    hide RefreshOrphan;
    hide OfferResume;
    OfferGrants(t, sid, x.nodeId, ClientHalf(x), c);
  }

  lemma RequestGrants(t: Table, u: Table, e: Event)
    requires e.Requests? && u == Step(t, e)
    ensures u.grants == t.grants
  {
    hide ClientsLeave;
    if !e.allowed && e.c in t.clients {
      LeaveEnvironment(t, u, {e.c});
    }
  }

  lemma AnnounceGrants(t: Table, u: Table, ns: NodeSocket, sids: seq<SessionId>, c: Client)
    requires u == Announce(t, ns, sids)
    ensures u.Grants(c) == t.Grants(c) + AdoptedOnto(t, ns, Distinct(sids), c)
  {
    DistinctHasNoRepeats(sids);
    AnnounceEachGrants(t, ns, Distinct(sids), c);
    hide AnnounceEach;
  }

  /** What counts against a browser's budget is exactly its resumes and adoptions. */
  lemma GrantsExactly(t: Table, e: Event, u: Table, c: Client)
    requires u == Step(t, e)
    ensures u.Grants(c) == t.Grants(c) + Extra(t, e, c)
  {
    if e.Resumes? {
      hide ClientResume;
      ResumeGrants(t, u, e.c, e.sid, c);
    } else if e.Announces? {
      hide Announce;
      AnnounceGrants(t, u, e.ns, e.sids, c);
    } else {
      hide Step;
      if e.Requests? {
        RequestGrants(t, u, e);
      } else {
        StepFollows(t, e, u);
      }
    }
  }

  /** The reply names a reason that holds. */
  predicate TrueOf(r: Reply, t: Table, c: Client, allowed: bool, hasToken: bool, webrtcCapable: bool) {
    match r
    case Denied => !allowed
    case NotRegistered => !hasToken
    case Gone => c !in t.clients
    case TooMany => |t.Held(c)| >= MAX_SESSIONS_PER_SOCKET
    case Offline => t.Registered(c.nodeId).None?
    case Unsupported => !webrtcCapable
    case Granted(_) => true
  }

  /**
   A refusal names a reason that holds, before the access check as after it; and what is not refused at the door is
   granted after the access check, unless access or the token is missing or the table changed meanwhile.
   */
  lemma RefusalsAreTrue(t: Table, c: Client, sid: SessionId, allowed: bool, hasToken: bool, webrtcCapable: bool)
    ensures TrueOf(FinishReply(t, c, sid, allowed, hasToken), t, c, allowed, hasToken, webrtcCapable)
    ensures var r := BeginReply(t, c, webrtcCapable);
            r.Some? ==> !r.value.Granted? && TrueOf(r.value, t, c, true, true, webrtcCapable)
    ensures BeginReply(t, c, webrtcCapable) == None && c in t.clients && allowed && hasToken ==>
              FinishReply(t, c, sid, allowed, hasToken) == Granted(sid)
    ensures BeginReply(t, c, true).Some? && c in t.clients ==>
              FinishReply(t, c, sid, true, true) == BeginReply(t, c, true).value
    ensures BeginReply(t, c, false) != None
  {
  }
}
