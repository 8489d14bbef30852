/**
 The node's side of the grace period: when sessions whose node cannot be reached have an armed timer.
 */
module SignalGrace {
  import opened Options
  import opened Signal
  import opened SignalInvariant
  import opened SignalRuns
  import opened SignalResume

  /** A CONNECTED session whose node cannot be reached has an armed grace timer. */
  predicate GuardedSession(t: Table, s: Session) {
    s.phase == Connected && t.NodeTarget(s).None? ==> s.orphan.Some?
  }

  ghost predicate Guarded(t: Table) {
    forall sid :: sid in t.sessions ==> GuardedSession(t, t.sessions[sid])
  }

  /**
   The event takes away the live registered socket of a node, by its leaving or by a socket already gone registering
   late, while a CONNECTED session of the node is bound to another socket that is gone, and has no timer.
   */
  predicate Abandons(t: Table, e: Event) {
    exists sid :: sid in t.sessions && AbandonedBy(t, t.sessions[sid], e)
  }

  predicate AbandonedBy(t: Table, s: Session, e: Event) {
    && s.phase == Connected && s.orphan.None? && s.node !in t.nodes
    && (|| (e.NodeLeaves? && t.Registered(s.nodeId) == Some(e.ns))
        || (e.Registers? && e.ns !in t.nodes && e.ns.nodeId == s.nodeId))
  }

  // ---------- which events keep the timers armed ----------

  lemma NodeLeaveGuards(t: Table, u: Table, ns: NodeSocket)
    requires Inv(t) && Guarded(t) && u == NodeLeave(t, ns) && !Abandons(t, NodeLeaves(ns))
    ensures Guarded(u)
  {
    var d := NodeDeparted(t, ns);
    forall sid | sid in u.sessions ensures GuardedSession(u, u.sessions[sid]) {
      var s := t.sessions[sid];
      assert SessionInv(t, s) && GuardedSession(t, s) && !AbandonedBy(t, s, NodeLeaves(ns));
      assert d.NodeTarget(s) == u.NodeTarget(s);
      hide Inv;
      hide Guarded;
      hide Abandons;
    }
  }

  lemma NodeJoinGuards(t: Table, u: Table, ns: NodeSocket, transient: bool)
    requires Guarded(t) && u == NodeJoin(t, ns, transient)
    ensures Guarded(u)
  {
    forall sid | sid in u.sessions ensures GuardedSession(u, u.sessions[sid]) {
      assert GuardedSession(t, t.sessions[sid]);
    }
  }

  lemma RegisterGuards(t: Table, u: Table, ns: NodeSocket)
    requires Guarded(t) && u == NodeRegister(t, ns) && !Abandons(t, Registers(ns))
    ensures Guarded(u)
  {
    forall sid | sid in u.sessions ensures GuardedSession(u, u.sessions[sid]) {
      assert GuardedSession(t, t.sessions[sid]) && !AbandonedBy(t, t.sessions[sid], Registers(ns));
    }
  }

  /** A session that is looked at again has a timer unless both its ends are there. */
  lemma RefreshGuards(t: Table, s: Session)
    ensures t.NodeTarget(RefreshOrphan(t, s)) == t.NodeTarget(s)
    ensures t.NodeTarget(s).None? ==> RefreshOrphan(t, s).orphan.Some?
    ensures t.NodeTarget(s).None? && s.orphan.Some? ==> RefreshOrphan(t, s) == s
  {
  }

  /** Sessions of `u` are sessions of `t`, unchanged or looked at again. */
  lemma ApplyGuards(t: Table, u: Table, rule: Rule, sids: set<SessionId>)
    requires Guarded(t) && u == Apply(t, rule, sids)
    ensures Guarded(u)
  {
    forall sid | sid in u.sessions ensures GuardedSession(u, u.sessions[sid]) {
      assert GuardedSession(t, t.sessions[sid]);
      RefreshGuards(t, t.sessions[sid]);
      hide Guarded;
      hide RefreshOrphan;
    }
  }

  /** Nothing but browsers, pending resumes and the clock differ. */
  lemma SameNodesGuard(t: Table, u: Table)
    requires Guarded(t) && u.sessions == t.sessions && u.nodes == t.nodes && u.registry == t.registry
    ensures Guarded(u)
  {
    forall sid | sid in u.sessions ensures GuardedSession(u, u.sessions[sid]) {
      assert GuardedSession(t, t.sessions[sid]);
    }
  }

  lemma ClientsLeaveGuards(t: Table, u: Table, gone: set<Client>)
    requires Guarded(t) && u == ClientsLeave(t, gone)
    ensures Guarded(u)
  {
    hide Guarded;
    var d := Departed(t, gone);
    SameNodesGuard(t, d);
    var v := Apply(d, ClientGone, HeldByAny(t, gone));
    ApplyGuards(d, v, ClientGone, HeldByAny(t, gone));
    hide Apply;
    SameNodesGuard(v, u);
  }

  /** All sessions but one are unchanged or gone, and that one is guarded. */
  lemma OneSessionGuards(t: Table, u: Table, sid: SessionId)
    requires Guarded(t) && u.nodes == t.nodes && u.registry == t.registry
    requires forall x :: x in u.sessions && x != sid ==> x in t.sessions && u.sessions[x] == t.sessions[x]
    requires sid in u.sessions ==> GuardedSession(u, u.sessions[sid])
    ensures Guarded(u)
  {
    forall x | x in u.sessions && x != sid ensures GuardedSession(u, u.sessions[x]) {
      assert GuardedSession(t, t.sessions[x]);
    }
  }

  lemma OfferGuards(t: Table, u: Table, sid: SessionId, nodeId: NodeId, half: Half)
    requires Inv(t) && Guarded(t) && sid !in t.sessions && u == OfferResume(t, sid, nodeId, half)
    requires half.NodeHalf? ==> half.node in t.nodes
    ensures Guarded(u)
  {
    hide Guarded;
    MeetingGuards(t, u, sid, nodeId, half);
    hide Inv;
    hide WithHalf;
    hide NewPending;
    hide Adopted;
    OneSessionGuards(t, u, sid);
  }

  /** Two halves that meet are bound to a connected node socket. */
  lemma MeetingGuards(t: Table, u: Table, sid: SessionId, nodeId: NodeId, half: Half)
    requires Inv(t) && sid !in t.sessions && u == OfferResume(t, sid, nodeId, half)
    requires half.NodeHalf? ==> half.node in t.nodes
    ensures sid in u.sessions ==> u.sessions[sid].node in u.nodes
  {
    assert sid in t.pending ==> PendingInv(t, t.pending[sid]);
    hide Inv;
  }

  lemma ResumeGuards(t: Table, u: Table, c: Client, sid: SessionId)
    requires Inv(t) && Guarded(t) && u == ClientResume(t, c, sid)
    ensures Guarded(u)
  {
    if !ResumeRefused(t, c, sid) {
      if sid in t.sessions {
        assert GuardedSession(t, t.sessions[sid]);
        RefreshGuards(t, t.sessions[sid].(client := c));
        hide RefreshOrphan;
        OneSessionGuards(t, u, sid);
      } else {
        OfferGuards(t, u, sid, c.nodeId, ClientHalf(c));
      }
    }
  }

  lemma AnnounceGuards(t: Table, u: Table, ns: NodeSocket, sids: seq<SessionId>)
    requires Inv(t) && Guarded(t) && ns in t.nodes && u == Announce(t, ns, sids)
    ensures Guarded(u)
  {
    hide Announce;
    forall sid | sid in u.sessions ensures GuardedSession(u, u.sessions[sid]) {
      AnnounceAt(t, u, ns, sids, sid);
      assert sid in t.sessions ==> GuardedSession(t, t.sessions[sid]);
      AnnouncedGuarded(t, ns, ViewOf(t, sid));
      hide Guarded;
      hide Inv;
    }
  }

  /** A session that an announcement binds or joins is bound to the socket that announces. */
  lemma AnnouncedGuarded(t: Table, ns: NodeSocket, v: View)
    requires ns in t.nodes && (v.session.Some? ==> GuardedSession(t, v.session.value))
    ensures var w := AnnounceView(t, ns, v); w.session.Some? ==> GuardedSession(t, w.session.value)
  {
    if v.session.Some? {
      RefreshGuards(t, v.session.value.(node := ns));
    }
  }

  lemma RevokeGuards(t: Table, u: Table, nodeId: NodeId, userId: UserId)
    requires Guarded(t) && u == RevokeUser(t, nodeId, userId)
    ensures Guarded(u)
  {
    hide Guarded;
    var closed := Apply(t, CloseRule(AccessRevoked, true), UserSessions(t, nodeId, userId));
    ApplyGuards(t, closed, CloseRule(AccessRevoked, true), UserSessions(t, nodeId, userId));
    hide Apply;
    ClientsLeaveGuards(closed, u, UserClients(t, nodeId, userId));
  }

  lemma OfferedGuards(t: Table, u: Table, c: Client, sid: SessionId)
    requires Guarded(t) && u == ClientOffer(t, c, sid)
    ensures Guarded(u)
  {
    OneSessionGuards(t, u, sid);
    hide Guarded;
  }

  lemma AnsweredGuards(t: Table, u: Table, ns: NodeSocket, sid: SessionId)
    requires Guarded(t) && u == NodeAnswer(t, ns, sid)
    ensures Guarded(u)
  {
    OneSessionGuards(t, u, sid);
    hide Guarded;
  }

  lemma ConnectedGuards(t: Table, u: Table, ns: NodeSocket, sid: SessionId)
    requires Inv(t) && Guarded(t) && u == NodeConnected(t, ns, sid)
    ensures Guarded(u)
  {
    if sid in t.sessions {
      assert SessionInv(t, t.sessions[sid]) && GuardedSession(t, t.sessions[sid]);
    }
    hide Inv;
    OneSessionGuards(t, u, sid);
    hide Guarded;
  }

  lemma EndedGuards(t: Table, u: Table, sid: SessionId)
    requires Guarded(t) && u.nodes == t.nodes && u.registry == t.registry
    requires u.sessions == t.sessions || u.sessions == t.sessions - {sid}
    ensures Guarded(u)
  {
    forall x | x in u.sessions ensures GuardedSession(u, u.sessions[x]) {
      assert GuardedSession(t, t.sessions[x]);
    }
  }

  lemma RequestGuards(t: Table, u: Table, c: Client, sid: SessionId, allowed: bool, hasToken: bool)
    requires Guarded(t) && sid !in t.sessions && u == FinishRequest(t, c, sid, allowed, hasToken)
    ensures Guarded(u)
  {
    var reply := FinishReply(t, c, sid, allowed, hasToken);
    if reply.Granted? {
      OneSessionGuards(t, u, sid);
    } else if reply.Denied? && c in t.clients {
      ClientsLeaveGuards(t, u, {c});
    }
  }

  /** The events about one session by its id. */
  predicate IsSingle(e: Event) {
    e.Offers? || e.Answers? || e.Connects? || e.NodeHangsUp? || e.HangsUp? || e.Rechecks? || e.NegotiationFires?
    || e.OrphanFires?
  }

  lemma SingleGuards(t: Table, e: Event, u: Table)
    requires Inv(t) && Guarded(t) && u == Step(t, e) && IsSingle(e)
    ensures Guarded(u)
  {
    hide Inv;
    hide Guarded;
    if EndsOne(e) {
      EndingGuards(t, e, u);
      return;
    }
    match e
    case Offers(c, sid) => OfferedGuards(t, u, c, sid);
    case Answers(ns, sid) => AnsweredGuards(t, u, ns, sid);
    case Connects(ns, sid) => ConnectedGuards(t, u, ns, sid);
  }

  lemma EndingGuards(t: Table, e: Event, u: Table)
    requires Guarded(t) && u == Step(t, e) && EndsOne(e)
    ensures Guarded(u)
  {
    hide Step;
    hide Guarded;
    EndsAtMostOne(t, e, u);
    EndedGuards(t, u, e.sid);
  }

  lemma StepGuards(t: Table, e: Event, u: Table)
    requires Inv(t) && Guarded(t) && Enabled(t, e) && u == Step(t, e) && !Abandons(t, e)
    ensures Guarded(u)
  {
    if IsSingle(e) {
      SingleGuards(t, e, u);
      return;
    }
    hide Inv;
    hide Guarded;
    hide Abandons;
    hide NodeLeave;
    hide ClientsLeave;
    hide Announce;
    hide RevokeUser;
    hide ClientResume;
    hide FinishRequest;
    match e
    case Leaves(c) => ClientsLeaveGuards(t, u, {c});
    case NodeJoins(ns, transient) => NodeJoinGuards(t, u, ns, transient);
    case Registers(ns) => RegisterGuards(t, u, ns);
    case NodeLeaves(ns) => NodeLeaveGuards(t, u, ns);
    case Requests(c, sid, allowed, hasToken) => RequestGuards(t, u, c, sid, allowed, hasToken);
    case Resumes(c, sid) => ResumeGuards(t, u, c, sid);
    case Announces(ns, sids) => AnnounceGuards(t, u, ns, sids);
    case UserRevoked(n, user) => RevokeGuards(t, u, n, user);
    case LoginsRevoked(logins) => ApplyGuards(t, u, CloseRule(SessionRevoked, true), LoginSessions(t, logins));
    case Joins(_) => SameNodesGuard(t, u);
    case ResumeFires(_) => SameNodesGuard(t, u);
    case Time(_) => SameNodesGuard(t, u);
  }

  /** An event of the other kind leaves such a session behind. */
  lemma AbandoningBreaks(t: Table, e: Event, u: Table)
    requires Inv(t) && Enabled(t, e) && u == Step(t, e) && Abandons(t, e)
    ensures !Guarded(u)
  {
    var sid :| sid in t.sessions && AbandonedBy(t, t.sessions[sid], e);
    if e.NodeLeaves? {
      AbandonedStays(t, u, e.ns, sid);
    }
    hide NodeLeave;
    hide Inv;
    assert u.sessions[sid] == t.sessions[sid] && !GuardedSession(u, t.sessions[sid]);
  }

  lemma AbandonedStays(t: Table, u: Table, ns: NodeSocket, sid: SessionId)
    requires u == NodeLeave(t, ns) && ns in t.nodes && sid in t.sessions
             && AbandonedBy(t, t.sessions[sid], NodeLeaves(ns))
    ensures sid in u.sessions && u.sessions[sid] == t.sessions[sid] && !GuardedSession(u, t.sessions[sid])
  {
    assert t.sessions[sid].node != ns;
  }

  /** In such a table an event keeps every session guarded exactly when it abandons none. */
  lemma GuardedExactly(t: Table, e: Event, u: Table)
    requires Inv(t) && Guarded(t) && Enabled(t, e) && u == Step(t, e)
    ensures Guarded(u) <==> !Abandons(t, e)
  {
    if Abandons(t, e) {
      AbandoningBreaks(t, e, u);
    } else {
      StepGuards(t, e, u);
    }
  }

  // ---------- whole runs ----------

  ghost predicate NeverAbandons(es: seq<Event>) {
    es != [] ==> NeverAbandons(es[..|es| - 1]) && !Abandons(After(EMPTY, es[..|es| - 1]), es[|es| - 1])
  }

  ghost predicate AlwaysGuarded(es: seq<Event>) {
    Guarded(After(EMPTY, es)) && (es != [] ==> AlwaysGuarded(es[..|es| - 1]))
  }

  /**
   Throughout a run every CONNECTED session whose node cannot be reached has an armed grace timer exactly when no event
   of the run takes a node's live registered socket away from a timerless session bound to another socket that is gone.
   */
  lemma {:induction false} RunGuardedExactly(es: seq<Event>)
    requires IsRun(EMPTY, es)
    ensures AlwaysGuarded(es) <==> NeverAbandons(es)
  {
    if es != [] {
      var front, e := es[..|es| - 1], es[|es| - 1];
      RunGuardedExactly(front);
      RunIsSafe(front);
      hide Step;
      hide Inv;
      if AlwaysGuarded(front) {
        GuardedExactly(After(EMPTY, front), e, After(EMPTY, es));
      }
    }
  }

  // ---------- how long a session can be without its node ----------

  /** The session lives, and its node cannot be reached. */
  predicate Nodeless(t: Table, sid: SessionId) {
    sid in t.sessions && t.NodeTarget(t.sessions[sid]).None?
  }

  /** An armed timer of a session without its node is neither moved nor cleared while that lasts. */
  lemma StepKeepsTimer(t: Table, e: Event, u: Table, sid: SessionId)
    requires Enabled(t, e) && u == Step(t, e) && Nodeless(t, sid) && Nodeless(u, sid)
    requires t.sessions[sid].orphan.Some?
    ensures u.sessions[sid].orphan == t.sessions[sid].orphan
  {
    hide NodeLeave;
    hide ClientsLeave;
    hide Announce;
    hide RevokeUser;
    hide ClientResume;
    hide FinishRequest;
    assert sid in t.sessions && sid in u.sessions;
    hide Nodeless;
    match e
    case Leaves(c) => LeavingKeepsTimer(t, u, {c}, sid);
    case NodeLeaves(ns) => NodeLeaveKeepsTimer(t, u, ns, sid);
    case Requests(c, x, allowed, hasToken) => RequestKeepsTimer(t, u, c, x, allowed, hasToken, sid);
    case Resumes(c, x) => ResumeKeepsTimer(t, u, c, x, sid);
    case Announces(ns, sids) => AnnounceKeepsTimer(t, u, ns, sids, sid);
    case UserRevoked(n, user) => RevokeKeepsTimer(t, u, n, user, sid);
    case LoginsRevoked(logins) => LoginsKeepTimer(t, u, logins, sid);
    case _ => OthersKeepTimer(t, e, u, sid);
  }

  lemma OthersKeepTimer(t: Table, e: Event, u: Table, sid: SessionId)
    requires !e.Leaves? && !e.NodeLeaves? && !e.Requests? && !e.Resumes? && !e.Announces? && !e.UserRevoked?
             && !e.LoginsRevoked?
    requires u == Step(t, e) && sid in t.sessions && sid in u.sessions
    ensures u.sessions[sid].orphan == t.sessions[sid].orphan
  {
  }

  lemma LoginsKeepTimer(t: Table, u: Table, logins: set<int>, sid: SessionId)
    requires u == RevokeLogins(t, logins) && sid in t.sessions && sid in u.sessions
    ensures u.sessions[sid] == t.sessions[sid]
  {
  }

  lemma LeavingKeepsTimer(t: Table, u: Table, gone: set<Client>, sid: SessionId)
    requires u == ClientsLeave(t, gone) && Nodeless(t, sid) && sid in u.sessions && t.sessions[sid].orphan.Some?
    ensures u.sessions[sid].orphan == t.sessions[sid].orphan
  {
    RefreshGuards(Departed(t, gone), t.sessions[sid]);
    hide RefreshOrphan;
  }

  lemma NodeLeaveKeepsTimer(t: Table, u: Table, ns: NodeSocket, sid: SessionId)
    requires u == NodeLeave(t, ns) && Nodeless(t, sid) && sid in u.sessions && t.sessions[sid].orphan.Some?
    ensures u.sessions[sid].orphan == t.sessions[sid].orphan
  {
    RefreshGuards(NodeDeparted(t, ns), t.sessions[sid]);
    hide RefreshOrphan;
  }

  lemma RequestKeepsTimer(
      t: Table, u: Table, c: Client, x: SessionId, allowed: bool, hasToken: bool, sid: SessionId)
    requires u == FinishRequest(t, c, x, allowed, hasToken) && x !in t.sessions
    requires Nodeless(t, sid) && sid in u.sessions && t.sessions[sid].orphan.Some?
    ensures u.sessions[sid].orphan == t.sessions[sid].orphan
  {
    hide ClientsLeave;
    if FinishReply(t, c, x, allowed, hasToken).Denied? && c in t.clients {
      LeavingKeepsTimer(t, u, {c}, sid);
    }
  }

  lemma ResumeKeepsTimer(t: Table, u: Table, c: Client, x: SessionId, sid: SessionId)
    requires u == ClientResume(t, c, x) && Nodeless(t, sid) && sid in u.sessions && t.sessions[sid].orphan.Some?
    ensures u.sessions[sid].orphan == t.sessions[sid].orphan
  {
    if x in t.sessions {
      RefreshGuards(t, t.sessions[sid].(client := c));
    } else {
      OfferKeepsOthers(t, x, c.nodeId, ClientHalf(c), sid);
    }
    hide RefreshOrphan;
    hide OfferResume;
  }

  lemma AnnounceKeepsTimer(t: Table, u: Table, ns: NodeSocket, sids: seq<SessionId>, sid: SessionId)
    requires u == Announce(t, ns, sids) && ns in t.nodes && Nodeless(t, sid) && Nodeless(u, sid)
    ensures u.sessions[sid].orphan == t.sessions[sid].orphan
  {
    hide Announce;
    AnnounceAt(t, u, ns, sids, sid);
    RefreshGuards(t, t.sessions[sid].(node := ns));
  }

  lemma RevokeKeepsTimer(t: Table, u: Table, nodeId: NodeId, userId: UserId, sid: SessionId)
    requires u == RevokeUser(t, nodeId, userId) && Nodeless(t, sid) && sid in u.sessions && t.sessions[sid].orphan.Some?
    ensures u.sessions[sid].orphan == t.sessions[sid].orphan
  {
    var closed := Apply(t, CloseRule(AccessRevoked, true), UserSessions(t, nodeId, userId));
    LeavingEndsNoMore(closed, UserClients(t, nodeId, userId));
    assert closed.sessions[sid] == t.sessions[sid] && closed.NodeTarget(t.sessions[sid]).None?;
    hide Apply;
    LeavingKeepsTimer(closed, u, UserClients(t, nodeId, userId), sid);
  }

  lemma LeavingEndsNoMore(t: Table, gone: set<Client>)
    ensures ClientsLeave(t, gone).sessions.Keys <= t.sessions.Keys
  {
  }

  /** From `t` on, at every moment of the run, the session lives and its node cannot be reached. */
  ghost predicate AllNodeless(t: Table, es: seq<Event>, sid: SessionId) {
    Nodeless(After(t, es), sid) && (es != [] ==> AllNodeless(t, es[..|es| - 1], sid))
  }

  lemma {:induction false} TimerStays(t: Table, es: seq<Event>, sid: SessionId)
    requires Inv(t) && IsRun(t, es) && AllNodeless(t, es, sid) && Nodeless(t, sid) && t.sessions[sid].orphan.Some?
    ensures Inv(After(t, es)) && sid in After(t, es).sessions
    ensures After(t, es).sessions[sid].orphan == t.sessions[sid].orphan
  {
    if es != [] {
      var front, e := es[..|es| - 1], es[|es| - 1];
      TimerStays(t, front, sid);
      assert Nodeless(After(t, front), sid);
      hide Inv;
      hide Step;
      StepKeepsInv(After(t, front), e, After(t, es));
      StepKeepsTimer(After(t, front), e, After(t, es), sid);
    }
  }

  /**
   In such a run no CONNECTED session lives without its node for more than sixty seconds, from whichever moment on.
   */
  lemma NodelessEndsInTime(before: seq<Event>, t: Table, es: seq<Event>, sid: SessionId)
    requires IsRun(EMPTY, before) && NeverAbandons(before) && t == After(EMPTY, before)
    requires IsRun(t, es) && Nodeless(t, sid) && AllNodeless(t, es, sid)
    ensures After(t, es).now <= t.now + NODE_OFFLINE_GRACE_MS
  {
    RunIsSafe(before);
    RunGuardedExactly(before);
    assert SessionInv(t, t.sessions[sid]) && GuardedSession(t, t.sessions[sid]);
    TimerStays(t, es, sid);
    assert SessionInv(After(t, es), After(t, es).sessions[sid]);
    hide IsRun;
    hide After;
  }
}
