/** Every message the coordinator sends about a session, event by event. */
module SignalMessages {
  import opened InsertionOrder
  import opened Options
  import opened Signal
  import opened SignalById
  import opened SignalInvariant
  import opened SignalRuns
  import opened SignalResume
  import opened SignalEffects
  import opened SignalBeginnings

  /** What is sent as a session ends: to the ends that did not end it themselves, with the reason for the browser. */
  function Farewell(t: Table, e: Event, s: Session): seq<Entry> {
    match e
    case NodeLeaves(_) => [ToClient(s.client, Close(NodeOffline))]
    case Announces(_, _) => [ToClient(s.client, Close(NodeOffline))]
    case NodeHangsUp(_, _, reason) => [ToClient(s.client, Close(reason))]
    case Rechecks(_, _) => t.TellNode(s, Close(Unstated)) + [ToClient(s.client, Close(AccessRevoked))]
    case UserRevoked(_, _) => t.TellNode(s, Close(Unstated)) + [ToClient(s.client, Close(AccessRevoked))]
    case LoginsRevoked(_) => t.TellNode(s, Close(Unstated)) + [ToClient(s.client, Close(SessionRevoked))]
    case NegotiationFires(_) => t.TellNode(s, Close(Unstated)) + [ToClient(s.client, Close(NegotiationTimeout))]
    case OrphanFires(_) => t.TellNode(s, Close(Unstated)) + [ToClient(s.client, Close(NodeOffline))]
    case _ => t.TellNode(s, Close(Unstated))
  }

  /**
   What is passed on about a session that goes on: its own offer and answer, and a refusal to a node that is not its.
   */
  function Relayed(t: Table, e: Event, sid: SessionId, s: Session): seq<Entry> {
    if PhaseAfter(e, sid, s) == OfferReceived && s.phase == OpenSent then t.TellNode(s, Offer)
    else if PhaseAfter(e, sid, s) == Answered && s.phase == OfferReceived then [ToClient(s.client, Answer)]
    else if e.Connects? && e.sid == sid && e.ns.nodeId == s.nodeId then [BecameConnected]
    else if e.Announces? && sid in e.sids && s.nodeId != e.ns.nodeId then [ToNode(e.ns, Close(Unstated))]
    else []
  }

  /** The half that waited is told: a node if it is still connected, a browser with the reason. */
  function InVain(t: Table, p: Pending): seq<Entry> {
    match p.client
    case Some(c) => [ToClient(c, Close(NodeOffline))]
    case None => if p.node.Some? && p.node.value in t.nodes then [ToNode(p.node.value, Close(Unstated))] else []
  }

  /** What is sent about an id without a session: the opening, that two halves met, or that a half waited in vain. */
  function Opening(t: Table, e: Event, sid: SessionId): seq<Entry> {
    if Admits(t, e) && e.sid == sid then [ToNode(t.Registered(e.c.nodeId).value, Open)]
    else if Meets(t, e, sid) then [BecameConnected]
    else if e == ResumeFires(sid) && sid in t.pending then InVain(t, t.pending[sid])
    else []
  }

  function Sent(t: Table, e: Event, sid: SessionId): seq<Entry> {
    if sid !in t.sessions then Opening(t, e, sid)
    else if Ends(t, e, sid) then Farewell(t, e, t.sessions[sid])
    else Relayed(t, e, sid, t.sessions[sid])
  }

  predicate SaysAsTold(t: Table, e: Event, u: Table, sid: SessionId) {
    u.Log(sid) == t.Log(sid) + Sent(t, e, sid)
  }

  lemma Silence(t: Table, sid: SessionId)
    ensures t.Log(sid) == t.Log(sid) + []
  {
  }

  // ---------- announcements ----------

  /** What an announcement says about one announced id. */
  function AnnounceSays(ns: NodeSocket, v: View): seq<Entry> {
    match v.session
    case Some(s) => if s.nodeId != ns.nodeId then [ToNode(ns, Close(Unstated))] else []
    case None =>
      if v.pending.Some? && v.pending.value.nodeId == ns.nodeId && v.pending.value.client.Some? then [BecameConnected]
      else []
  }

  /** Offering a half says something only when it meets the other. */
  lemma OfferSays(t: Table, u: Table, sid: SessionId, nodeId: NodeId, half: Half, x: SessionId)
    requires u == OfferResume(t, sid, nodeId, half)
    ensures var p := ViewOf(t, sid).pending;
            u.Log(x) == t.Log(x) +
              if x == sid && p.Some? && p.value.nodeId == nodeId
                 && (if half.NodeHalf? then p.value.client.Some? else p.value.node.Some?)
              then [BecameConnected] else []
  {
    hide Adopted;
    Silence(t, x);
  }

  lemma AnnounceOneSays(t: Table, u: Table, ns: NodeSocket, sid: SessionId, x: SessionId)
    requires u == AnnounceOne(t, ns, sid)
    ensures u.Log(x) == t.Log(x) + if x == sid then AnnounceSays(ns, ViewOf(t, x)) else []
  {
    hide RefreshOrphan;
    hide OfferResume;
    Silence(t, x);
    if sid !in t.sessions {
      OfferSays(t, u, sid, ns.nodeId, NodeHalf(ns), x);
    }
  }

  lemma {:induction false} AnnounceEachSays(t: Table, ns: NodeSocket, sids: seq<SessionId>, x: SessionId)
    requires NoRepeats(sids)
    ensures AnnounceEach(t, ns, sids).Log(x) ==
              t.Log(x) + if x in sids then AnnounceSays(ns, ViewOf(t, x)) else []
  {
    hide AnnounceOne;
    hide AnnounceSays;
    hide AnnounceView;
    if sids == [] {
      Silence(t, x);
    } else {
      var front, last := sids[..|sids| - 1], sids[|sids| - 1];
      AnnounceEachSays(t, ns, front, x);
      AnnounceEachAt(t, ns, front, x);
      AnnounceOneSays(AnnounceEach(t, ns, front), AnnounceEach(t, ns, sids), ns, last, x);
      assert last !in front;
      assert x in sids <==> x in front || x == last;
      Silence(AnnounceEach(t, ns, front), x);
    }
  }

  /** An announcement id by id: what it says about an announced id, and the end of one it leaves out. */
  lemma AnnounceSaysAt(t: Table, u: Table, ns: NodeSocket, sids: seq<SessionId>, x: SessionId)
    requires u == Announce(t, ns, sids)
    ensures u.Log(x) == t.Log(x) +
              if x in sids then AnnounceSays(ns, ViewOf(t, x))
              else if LeftOut(ViewOf(t, x), ns.nodeId) then [ToClient(t.sessions[x].client, Close(NodeOffline))]
              else []
  {
    hide AnnounceSays;
    DistinctHasNoRepeats(sids);
    AnnounceEachSays(t, ns, Distinct(sids), x);
    AnnounceEachAt(t, ns, Distinct(sids), x);
    var met := AnnounceEach(t, ns, Distinct(sids));
    var gone := Unannounced(met, ns.nodeId, sids);
    ApplyAt(met, u, CloseRule(NodeOffline, false), gone, x);
    hide Apply;
    hide AnnounceEach;
    hide AnnounceView;
  }

  lemma AnnouncesSay(t: Table, u: Table, ns: NodeSocket, sids: seq<SessionId>, sid: SessionId)
    requires u == Announce(t, ns, sids)
    ensures SaysAsTold(t, Announces(ns, sids), u, sid)
  {
    hide Announce;
    AnnounceSaysAt(t, u, ns, sids, sid);
  }

  // ---------- the other events ----------

  lemma LeavingSays(t: Table, e: Event, u: Table, gone: set<Client>, sid: SessionId)
    requires u == ClientsLeave(t, gone) && (e.Leaves? || (e.Requests? && !e.allowed && e.sid !in t.sessions))
    requires gone == {e.c}
    ensures SaysAsTold(t, e, u, sid)
  {
    hide ClientsLeave;
    LeaveAt(t, u, gone, sid);
  }

  /** Ended by a rule, or not. */
  lemma RuleSays(t: Table, u: Table, rule: Rule, sids: set<SessionId>, sid: SessionId)
    requires u == Apply(t, rule, sids)
    ensures u.Log(sid) ==
              t.Log(sid) + if DroppedAt(t, rule, sids, sid) then Decide(t, rule, t.sessions[sid]).sent else []
    ensures SameSockets(t, u) && (sid in u.sessions <==> sid in t.sessions && !DroppedAt(t, rule, sids, sid))
    ensures rule.CloseRule? && sid in u.sessions ==> u.sessions[sid] == t.sessions[sid]
  {
    ApplyAt(t, u, rule, sids, sid);
    ApplyKeepsSockets(t, rule, sids);
    hide Apply;
  }

  lemma NodeLeavingSays(t: Table, u: Table, ns: NodeSocket, sid: SessionId)
    requires Inv(t) && u == NodeLeave(t, ns)
    ensures SaysAsTold(t, NodeLeaves(ns), u, sid)
  {
    hide Inv;
    hide Apply;
    hide SessionInv;
    var left, bound := NodeDeparted(t, ns), BoundTo(t, ns);
    RuleSays(left, Apply(left, NodeGone, bound), NodeGone, bound, sid);
    assert u.Log(sid) == Apply(left, NodeGone, bound).Log(sid);
    if sid in t.sessions {
      SessionOfNode(t, sid);
    }
  }

  lemma SessionOfNode(t: Table, sid: SessionId)
    requires Inv(t) && sid in t.sessions
    ensures var s := t.sessions[sid];
            s.node.nodeId == s.nodeId == s.client.nodeId && s.userId == s.client.userId
  {
    SessionHolds(t, sid);
  }

  lemma UserRevokedSays(t: Table, u: Table, nodeId: NodeId, userId: UserId, sid: SessionId)
    requires Inv(t) && u == RevokeUser(t, nodeId, userId)
    ensures SaysAsTold(t, UserRevoked(nodeId, userId), u, sid)
  {
    hide Inv;
    hide Apply;
    hide ClientsLeave;
    var rule, sids := CloseRule(AccessRevoked, true), UserSessions(t, nodeId, userId);
    var closed, gone := Apply(t, rule, sids), UserClients(t, nodeId, userId);
    RuleSays(t, closed, rule, sids, sid);
    LeaveAt(closed, u, gone, sid);
    if sid in t.sessions {
      SessionOfNode(t, sid);
    }
    assert !EndsWith(closed, gone, sid);
    Silence(closed, sid);
  }

  lemma LoginsRevokedSay(t: Table, u: Table, logins: set<int>, sid: SessionId)
    requires u == RevokeLogins(t, logins)
    ensures SaysAsTold(t, LoginsRevoked(logins), u, sid)
  {
    hide Apply;
    ApplyAt(t, u, CloseRule(SessionRevoked, true), LoginSessions(t, logins), sid);
  }

  lemma ResumesSay(t: Table, u: Table, c: Client, x: SessionId, sid: SessionId)
    requires u == ClientResume(t, c, x)
    ensures SaysAsTold(t, Resumes(c, x), u, sid)
  {
    hide RefreshOrphan;
    hide OfferResume;
    Silence(t, sid);
    if x !in t.sessions && x != "" {
      OfferSays(t, u, x, c.nodeId, ClientHalf(c), sid);
    }
  }

  lemma DeniedSays(t: Table, e: Event, u: Table, sid: SessionId)
    requires Inv(t) && e.Requests? && !e.allowed && Enabled(t, e) && u == Step(t, e)
    ensures SaysAsTold(t, e, u, sid)
  {
    hide ClientsLeave;
    hide Anchored;
    if e.c in t.clients {
      hide Inv;
      LeavingSays(t, e, u, {e.c}, sid);
    } else {
      Silence(t, sid);
      if sid in t.sessions && t.sessions[sid].phase != Connected {
        NegotiatingIsThere(t, sid);
      }
    }
  }

  lemma NegotiatingIsThere(t: Table, sid: SessionId)
    requires Inv(t) && sid in t.sessions && t.sessions[sid].phase != Connected
    ensures t.sessions[sid].client in t.clients
  {
    SessionHolds(t, sid);
  }

  lemma RefusedSays(t: Table, e: Event, sid: SessionId)
    requires e.Requests? && e.allowed && !Admits(t, e)
    ensures SaysAsTold(t, e, t, sid)
  {
    Silence(t, sid);
  }

  lemma GrantedSays(t: Table, e: Event, u: Table, ns: NodeSocket, sid: SessionId)
    requires e.Requests? && e.allowed && Admits(t, e) && e.sid !in t.sessions && t.Registered(e.c.nodeId) == Some(ns)
    requires u.log == t.log[e.sid := t.Log(e.sid) + [ToNode(ns, Open)]]
    ensures SaysAsTold(t, e, u, sid)
  {
    Silence(t, sid);
  }

  lemma AllowedSays(t: Table, e: Event, u: Table, sid: SessionId)
    requires e.Requests? && e.allowed && Enabled(t, e) && u == Step(t, e)
    ensures SaysAsTold(t, e, u, sid)
  {
    hide SaysAsTold;
    if Admits(t, e) {
      GrantedSays(t, e, u, t.Registered(e.c.nodeId).value, sid);
    } else {
      RefusedSays(t, e, sid);
    }
  }

  /** Something was recorded about one id, or nothing at all. */
  lemma Recorded(t: Table, u: Table, x: SessionId, es: seq<Entry>, sid: SessionId)
    requires u.log == t.log[x := t.Log(x) + es] || (u.log == t.log && es == [])
    ensures u.Log(sid) == t.Log(sid) + if sid == x then es else []
  {
    Silence(t, sid);
  }

  lemma OfferSaysAt(t: Table, u: Table, c: Client, x: SessionId, sid: SessionId)
    requires u == ClientOffer(t, c, x)
    ensures SaysAsTold(t, Offers(c, x), u, sid)
  {
    var passed := x in t.sessions && t.sessions[x].client == c && t.sessions[x].phase == OpenSent;
    var es := if passed then t.TellNode(t.sessions[x], Offer) else [];
    Recorded(t, u, x, es, sid);
    hide ClientOffer;
  }

  lemma AnswerSaysAt(t: Table, u: Table, ns: NodeSocket, x: SessionId, sid: SessionId)
    requires u == NodeAnswer(t, ns, x)
    ensures SaysAsTold(t, Answers(ns, x), u, sid)
  {
    var passed := x in t.sessions && t.sessions[x].nodeId == ns.nodeId && t.sessions[x].phase == OfferReceived;
    var es := if passed then [ToClient(t.sessions[x].client, Answer)] else [];
    Recorded(t, u, x, es, sid);
    hide NodeAnswer;
  }

  lemma ConnectSaysAt(t: Table, u: Table, ns: NodeSocket, x: SessionId, sid: SessionId)
    requires u == NodeConnected(t, ns, x)
    ensures SaysAsTold(t, Connects(ns, x), u, sid)
  {
    var es := if x in t.sessions && t.sessions[x].nodeId == ns.nodeId then [BecameConnected] else [];
    Recorded(t, u, x, es, sid);
    hide NodeConnected;
  }

  lemma HandshakeSays(t: Table, e: Event, u: Table, sid: SessionId)
    requires u == Step(t, e) && (e.Offers? || e.Answers? || e.Connects?)
    ensures SaysAsTold(t, e, u, sid)
  {
    hide SaysAsTold;
    hide ClientOffer;
    hide NodeAnswer;
    hide NodeConnected;
    match e
    case Offers(c, x) => OfferSaysAt(t, u, c, x, sid);
    case Answers(ns, x) => AnswerSaysAt(t, u, ns, x, sid);
    case Connects(ns, x) => ConnectSaysAt(t, u, ns, x, sid);
  }

  lemma NodeHangupSaysAt(t: Table, u: Table, ns: NodeSocket, x: SessionId, reason: Reason, sid: SessionId)
    requires u == NodeHangup(t, ns, x, reason)
    ensures SaysAsTold(t, NodeHangsUp(ns, x, reason), u, sid)
  {
    var es := if x in t.sessions && t.sessions[x].nodeId == ns.nodeId
              then [ToClient(t.sessions[x].client, Close(reason))] else [];
    Recorded(t, u, x, es, sid);
    hide NodeHangup;
  }

  lemma ClientHangupSaysAt(t: Table, u: Table, c: Client, x: SessionId, sid: SessionId)
    requires u == ClientHangup(t, c, x)
    ensures SaysAsTold(t, HangsUp(c, x), u, sid)
  {
    var es := if x in t.sessions && t.sessions[x].client == c then t.TellNode(t.sessions[x], Close(Unstated)) else [];
    Recorded(t, u, x, es, sid);
    hide ClientHangup;
  }

  lemma CloseSays(t: Table, x: SessionId, reason: Reason, sid: SessionId)
    ensures CloseSession(t, x, reason, true).Log(sid) == t.Log(sid) +
              if sid == x && x in t.sessions then
                t.TellNode(t.sessions[x], Close(Unstated)) + [ToClient(t.sessions[x].client, Close(reason))]
              else []
  {
    Silence(t, sid);
  }

  lemma ClosedSaysAt(t: Table, e: Event, u: Table, x: SessionId, reason: Reason, sid: SessionId)
    requires u == CloseSession(t, x, reason, true)
    requires || (e == Rechecks(x, false) && reason == AccessRevoked)
             || (e == NegotiationFires(x) && reason == NegotiationTimeout)
             || (e == OrphanFires(x) && reason == NodeOffline)
    ensures SaysAsTold(t, e, u, sid)
  {
    hide CloseSession;
    CloseSays(t, x, reason, sid);
  }

  lemma EndingSays(t: Table, e: Event, u: Table, sid: SessionId)
    requires Inv(t) && Enabled(t, e) && u == Step(t, e) && EndsOne(e)
    ensures SaysAsTold(t, e, u, sid)
  {
    hide SaysAsTold;
    hide CloseSession;
    hide NodeHangup;
    hide ClientHangup;
    match e
    case NodeHangsUp(ns, x, reason) => NodeHangupSaysAt(t, u, ns, x, reason, sid);
    case HangsUp(c, x) => ClientHangupSaysAt(t, u, c, x, sid);
    case Rechecks(x, allowed) =>
      if allowed {
        RecheckPassed(t, x, sid);
      } else {
        ClosedSaysAt(t, e, u, x, AccessRevoked, sid);
      }
    case NegotiationFires(x) =>
      SessionHolds(t, x);
      ClosedSaysAt(t, e, u, x, NegotiationTimeout, sid);
    case OrphanFires(x) => ClosedSaysAt(t, e, u, x, NodeOffline, sid);
  }

  lemma RecheckPassed(t: Table, x: SessionId, sid: SessionId)
    ensures SaysAsTold(t, Rechecks(x, true), t, sid)
  {
    Silence(t, sid);
  }

  lemma QuietSays(t: Table, e: Event, u: Table, sid: SessionId)
    requires u == Step(t, e) && (e.Joins? || e.NodeJoins? || e.Registers? || e.Time?)
    ensures SaysAsTold(t, e, u, sid)
  {
    Silence(t, sid);
  }

  lemma InVainSays(t: Table, x: SessionId, sid: SessionId)
    requires x in t.pending && PendingInv(t, t.pending[x])
    ensures FireResume(t, x).Log(sid) == t.Log(sid) + if sid == x then InVain(t, t.pending[x]) else []
  {
    Silence(t, sid);
  }

  lemma ResumeFiresSays(t: Table, u: Table, x: SessionId, sid: SessionId)
    requires Inv(t) && Enabled(t, ResumeFires(x)) && u == FireResume(t, x)
    ensures SaysAsTold(t, ResumeFires(x), u, sid)
  {
    hide Inv;
    hide FireResume;
    hide PendingInv;
    hide InVain;
    PendingHolds(t, x);
    InVainSays(t, x, sid);
  }

  lemma MovingSays(t: Table, e: Event, u: Table, sid: SessionId)
    requires Inv(t) && Enabled(t, e) && u == Step(t, e)
    requires e.Leaves? || e.NodeLeaves? || e.UserRevoked? || e.LoginsRevoked? || e.Resumes? || e.Announces?
             || e.ResumeFires?
    ensures SaysAsTold(t, e, u, sid)
  {
    hide Inv;
    hide SaysAsTold;
    hide NodeLeave;
    hide ClientsLeave;
    hide Announce;
    hide RevokeUser;
    hide RevokeLogins;
    hide ClientResume;
    hide FireResume;
    match e
    case Leaves(c) => LeavingSays(t, e, u, {c}, sid);
    case NodeLeaves(ns) => NodeLeavingSays(t, u, ns, sid);
    case UserRevoked(n, user) => UserRevokedSays(t, u, n, user, sid);
    case LoginsRevoked(logins) => LoginsRevokedSay(t, u, logins, sid);
    case Resumes(c, x) => ResumesSay(t, u, c, x, sid);
    case Announces(ns, sids) => AnnouncesSay(t, u, ns, sids, sid);
    case ResumeFires(x) => ResumeFiresSays(t, u, x, sid);
  }

  /** What every event sends about every id, to whom and in which order; anything else is silence. */
  lemma MessagesExactly(t: Table, e: Event, u: Table, sid: SessionId)
    requires Inv(t) && Enabled(t, e) && u == Step(t, e)
    ensures SaysAsTold(t, e, u, sid)
  {
    hide Step;
    hide Enabled;
    hide Inv;
    hide SaysAsTold;
    if e.Requests? {
      if e.allowed {
        AllowedSays(t, e, u, sid);
      } else {
        DeniedSays(t, e, u, sid);
      }
    } else if EndsOne(e) {
      EndingSays(t, e, u, sid);
    } else if e.Offers? || e.Answers? || e.Connects? {
      HandshakeSays(t, e, u, sid);
    } else if e.Joins? || e.NodeJoins? || e.Registers? || e.Time? {
      QuietSays(t, e, u, sid);
    } else {
      MovingSays(t, e, u, sid);
    }
  }
}
