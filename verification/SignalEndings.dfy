/**
 No session ends in silence: whatever ends it, each end that is still there and did not end it itself is told.
 */
module SignalEndings {
  import opened InsertionOrder
  import opened Signal
  import opened SignalInvariant
  import opened SignalRuns
  import opened SignalResume

  /** The node ended the session itself, lost its socket, or announced that it no longer holds it. */
  predicate NodeKnows(e: Event) {
    e.NodeHangsUp? || e.NodeLeaves? || e.Announces?
  }

  predicate BrowserKnows(e: Event) {
    e.HangsUp?
  }

  predicate ToldBrowser(es: seq<Entry>, c: Client) {
    exists m :: m in es && m.ToClient? && m.client == c && m.sent.Close?
  }

  predicate ToldNode(es: seq<Entry>, n: NodeSocket) {
    exists m :: m in es && m.ToNode? && m.node == n && m.sent.Close?
  }

  /** What was sent about a session between two tables. */
  function Said(t: Table, u: Table, sid: SessionId): seq<Entry> {
    if |t.Log(sid)| <= |u.Log(sid)| then u.Log(sid)[|t.Log(sid)|..] else []
  }

  predicate Told(t: Table, u: Table, s: Session, es: seq<Entry>, browserKnows: bool, nodeKnows: bool) {
    && (browserKnows || s.client !in u.clients || ToldBrowser(es, s.client))
    && (nodeKnows || t.NodeTarget(s).None? || ToldNode(es, t.NodeTarget(s).value))
  }

  lemma CloseEntriesTell(t: Table, s: Session, reason: Reason, tellNode: bool)
    ensures ToldBrowser(CloseEntries(t, s, reason, tellNode), s.client)
    ensures tellNode && t.NodeTarget(s).Some? ==> ToldNode(CloseEntries(t, s, reason, tellNode), t.NodeTarget(s).value)
  {
    var es := CloseEntries(t, s, reason, tellNode);
    assert es[|es| - 1] == ToClient(s.client, Close(reason));
    if tellNode && t.NodeTarget(s).Some? {
      assert es[0] == ToNode(t.NodeTarget(s).value, Close(Unstated));
    }
  }

  lemma NodeToldAlone(t: Table, s: Session)
    requires t.NodeTarget(s).Some?
    ensures ToldNode(t.TellNode(s, Close(Unstated)), t.NodeTarget(s).value)
  {
    assert t.TellNode(s, Close(Unstated))[0] == ToNode(t.NodeTarget(s).value, Close(Unstated));
  }

  lemma RecordSays(t: Table, sid: SessionId, es: seq<Entry>)
    ensures t.Log(sid) + es == t.Log(sid) + es && (t.Log(sid) + es)[|t.Log(sid)|..] == es
  {
  }

  lemma CloseTold(t: Table, u: Table, sid: SessionId, reason: Reason)
    requires sid in t.sessions && u == CloseSession(t, sid, reason, true)
    ensures Told(t, u, t.sessions[sid], Said(t, u, sid), false, false)
  {
    var es := CloseEntries(t, t.sessions[sid], reason, true);
    RecordSays(t, sid, es);
    assert Said(t, u, sid) == es;
    CloseEntriesTell(t, t.sessions[sid], reason, true);
  }

  lemma HangupTold(t: Table, e: Event, u: Table, sid: SessionId)
    requires (e.HangsUp? || e.NodeHangsUp?) && u == Step(t, e) && sid in t.sessions && sid !in u.sessions
    ensures Told(t, u, t.sessions[sid], Said(t, u, sid), e.HangsUp?, e.NodeHangsUp?)
  {
    var s := t.sessions[sid];
    if e.HangsUp? {
      RecordSays(t, sid, t.TellNode(s, Close(Unstated)));
      if t.NodeTarget(s).Some? {
        NodeToldAlone(t, s);
      }
    } else {
      var es := [ToClient(s.client, Close(e.reason))];
      RecordSays(t, sid, es);
      assert es[0] == ToClient(s.client, Close(e.reason));
    }
  }

  lemma ApplySays(t: Table, rule: Rule, sids: set<SessionId>, sid: SessionId)
    requires sid in t.sessions && sid !in Apply(t, rule, sids).sessions
    ensures Decide(t, rule, t.sessions[sid]).Drop?
    ensures Said(t, Apply(t, rule, sids), sid) == Decide(t, rule, t.sessions[sid]).sent
    ensures sid in sids
  {
    RecordSays(t, sid, Decide(t, rule, t.sessions[sid]).sent);
  }

  lemma ClosedByRuleTold(t: Table, u: Table, reason: Reason, sids: set<SessionId>, sid: SessionId)
    requires sid in t.sessions && u == Apply(t, CloseRule(reason, true), sids) && sid !in u.sessions
    ensures Told(t, u, t.sessions[sid], Said(t, u, sid), false, false)
  {
    ApplySays(t, CloseRule(reason, true), sids, sid);
    CloseEntriesTell(t, t.sessions[sid], reason, true);
  }

  /** A browser that leaves takes its negotiating sessions along, and their nodes are told. */
  lemma LeavingTold(t: Table, u: Table, gone: set<Client>, sid: SessionId)
    requires sid in t.sessions && u == ClientsLeave(t, gone) && sid !in u.sessions
    ensures t.sessions[sid].client in gone && Told(t, u, t.sessions[sid], Said(t, u, sid), false, false)
  {
    var d := Departed(t, gone);
    var s := t.sessions[sid];
    ApplySays(d, ClientGone, HeldByAny(t, gone), sid);
    assert Said(t, u, sid) == Said(d, Apply(d, ClientGone, HeldByAny(t, gone)), sid);
    assert d.NodeTarget(s) == t.NodeTarget(s);
    if t.NodeTarget(s).Some? {
      NodeToldAlone(d, s);
    }
  }

  lemma NodeLossTold(t: Table, u: Table, ns: NodeSocket, sid: SessionId)
    requires sid in t.sessions && u == NodeLeave(t, ns) && sid !in u.sessions
    ensures Told(t, u, t.sessions[sid], Said(t, u, sid), false, true)
  {
    var d := NodeDeparted(t, ns);
    var v := Apply(d, NodeGone, BoundTo(t, ns));
    assert sid in d.sessions && sid !in v.sessions && u.Log(sid) == v.Log(sid);
    ApplySays(d, NodeGone, BoundTo(t, ns), sid);
    hide Apply;
    assert Said(t, u, sid) == Said(d, v, sid);
    CloseEntriesTell(d, t.sessions[sid], NodeOffline, false);
  }

  lemma AnnounceOneSilent(t: Table, u: Table, ns: NodeSocket, sid: SessionId, x: SessionId)
    requires u == AnnounceOne(t, ns, sid) && x != sid
    ensures u.Log(x) == t.Log(x)
  {
    hide RefreshOrphan;
    hide Adopted;
    hide NewPending;
    hide WithHalf;
  }

  lemma {:induction false} AnnounceEachSilent(t: Table, ns: NodeSocket, sids: seq<SessionId>, x: SessionId)
    requires x !in sids
    ensures AnnounceEach(t, ns, sids).Log(x) == t.Log(x)
  {
    if sids != [] {
      hide AnnounceOne;
      var front := sids[..|sids| - 1];
      AnnounceEachSilent(t, ns, front, x);
      AnnounceOneSilent(AnnounceEach(t, ns, front), AnnounceEach(t, ns, sids), ns, sids[|sids| - 1], x);
    }
  }

  lemma AnnouncementTold(t: Table, u: Table, ns: NodeSocket, sids: seq<SessionId>, sid: SessionId)
    requires sid in t.sessions && u == Announce(t, ns, sids) && sid !in u.sessions
    ensures Told(t, u, t.sessions[sid], Said(t, u, sid), false, true)
  {
    var met := AnnounceEach(t, ns, Distinct(sids));
    DistinctHasNoRepeats(sids);
    AnnounceEachAt(t, ns, Distinct(sids), sid);
    assert ViewOf(met, sid).session.Some?;
    ApplySays(met, CloseRule(NodeOffline, false), Unannounced(met, ns.nodeId, sids), sid);
    assert sid !in sids;
    AnnounceEachSilent(t, ns, Distinct(sids), sid);
    assert ViewOf(met, sid) == ViewOf(t, sid);
    assert Said(t, u, sid) == Said(met, u, sid);
    CloseEntriesTell(met, t.sessions[sid], NodeOffline, false);
  }

  lemma RevokedUserTold(t: Table, u: Table, nodeId: NodeId, userId: UserId, sid: SessionId)
    requires sid in t.sessions && u == RevokeUser(t, nodeId, userId) && sid !in u.sessions
    ensures Told(t, u, t.sessions[sid], Said(t, u, sid), false, false)
  {
    var closed := Apply(t, CloseRule(AccessRevoked, true), UserSessions(t, nodeId, userId));
    var gone := UserClients(t, nodeId, userId);
    hide Told;
    if sid in closed.sessions {
      KeptSilent(t, closed, AccessRevoked, UserSessions(t, nodeId, userId), sid);
      hide Apply;
      LeavingTold(closed, u, gone, sid);
      hide ClientsLeave;
      ToldFromBefore(t, closed, u, t.sessions[sid], sid);
    } else {
      ClosedByRuleTold(t, closed, AccessRevoked, UserSessions(t, nodeId, userId), sid);
      hide Apply;
      LeavingSilent(closed, gone, sid);
      hide ClientsLeave;
      ToldToTheEnd(t, closed, u, t.sessions[sid], sid);
    }
  }

  lemma ToldFromBefore(t: Table, mid: Table, u: Table, s: Session, sid: SessionId)
    requires SameSockets(t, mid) && mid.Log(sid) == t.Log(sid) && Told(mid, u, s, Said(mid, u, sid), false, false)
    ensures Told(t, u, s, Said(t, u, sid), false, false)
  {
  }

  lemma ToldToTheEnd(t: Table, mid: Table, u: Table, s: Session, sid: SessionId)
    requires u.Log(sid) == mid.Log(sid) && u.clients <= mid.clients && Told(t, mid, s, Said(t, mid, sid), false, false)
    ensures Told(t, u, s, Said(t, u, sid), false, false)
  {
  }

  lemma KeptSilent(t: Table, u: Table, reason: Reason, sids: set<SessionId>, sid: SessionId)
    requires u == Apply(t, CloseRule(reason, true), sids) && sid in u.sessions
    ensures sid in t.sessions && u.sessions[sid] == t.sessions[sid] && u.Log(sid) == t.Log(sid) && SameSockets(t, u)
  {
  }

  lemma LeavingSilent(t: Table, gone: set<Client>, sid: SessionId)
    requires sid !in t.sessions
    ensures ClientsLeave(t, gone).Log(sid) == t.Log(sid) && ClientsLeave(t, gone).clients <= t.clients
  {
  }

  /** The events that end no session. */
  predicate EndsNothing(e: Event) {
    e.Joins? || e.NodeJoins? || e.Registers? || e.Offers? || e.Answers? || e.Connects? || e.Resumes? || e.ResumeFires?
      || e.Time?
  }

  lemma StaysAlive(t: Table, e: Event, u: Table, sid: SessionId)
    requires EndsNothing(e) && u == Step(t, e) && sid in t.sessions
    ensures sid in u.sessions
  {
    if e.Resumes? {
      ResumeEndsNothing(t, e.c, e.sid, sid);
      hide ClientResume;
    }
  }

  lemma ResumeEndsNothing(t: Table, c: Client, x: SessionId, sid: SessionId)
    requires sid in t.sessions
    ensures sid in ClientResume(t, c, x).sessions
  {
    hide RefreshOrphan;
    hide Adopted;
    hide NewPending;
    hide WithHalf;
  }

  /** A request ends a session only by disconnecting a browser that may not open it. */
  lemma RequestEndTold(t: Table, u: Table, e: Event, sid: SessionId)
    requires e.Requests? && Enabled(t, e) && u == Step(t, e) && sid in t.sessions && sid !in u.sessions
    ensures Told(t, u, t.sessions[sid], Said(t, u, sid), false, false)
  {
    hide Told;
    hide Said;
    hide ClientsLeave;
    LeavingTold(t, u, {e.c}, sid);
  }

  lemma SingleEndTold(t: Table, e: Event, u: Table, sid: SessionId)
    requires Enabled(t, e) && u == Step(t, e) && sid in t.sessions && sid !in u.sessions
    requires e.Rechecks? || e.NegotiationFires? || e.OrphanFires? || e.Requests?
    ensures Told(t, u, t.sessions[sid], Said(t, u, sid), false, false)
  {
    hide Told;
    hide Said;
    hide ClientsLeave;
    if e.Requests? {
      RequestEndTold(t, u, e, sid);
      return;
    }
    match e
    case Rechecks(_, _) => CloseTold(t, u, sid, AccessRevoked);
    case NegotiationFires(_) => CloseTold(t, u, sid, NegotiationTimeout);
    case _ => CloseTold(t, u, sid, NodeOffline);
  }

  /**
   Whichever event ends a session: its browser is told, unless it hung up or its socket is gone, and its node is told,
   unless the node ended it, lost it or has no socket to tell.
   */
  lemma EndingIsTold(t: Table, e: Event, u: Table, sid: SessionId)
    requires Enabled(t, e) && u == Step(t, e) && sid in t.sessions && sid !in u.sessions
    ensures Told(t, u, t.sessions[sid], Said(t, u, sid), BrowserKnows(e), NodeKnows(e))
  {
    if EndsNothing(e) {
      StaysAlive(t, e, u, sid);
    }
    hide Told;
    hide Said;
    hide ClientsLeave;
    hide NodeLeave;
    hide Announce;
    hide RevokeUser;
    hide Apply;
    match e
    case Leaves(c) => LeavingTold(t, u, {c}, sid);
    case NodeLeaves(ns) => NodeLossTold(t, u, ns, sid);
    case NodeHangsUp(_, _, _) => HangupTold(t, e, u, sid);
    case HangsUp(_, _) => HangupTold(t, e, u, sid);
    case Announces(ns, sids) => AnnouncementTold(t, u, ns, sids, sid);
    case UserRevoked(n, user) => RevokedUserTold(t, u, n, user, sid);
    case LoginsRevoked(logins) => ClosedByRuleTold(t, u, SessionRevoked, LoginSessions(t, logins), sid);
    case _ => if !EndsNothing(e) { SingleEndTold(t, e, u, sid); }
  }
}
