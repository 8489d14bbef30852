/**
 Runs of the signalling table: any sequence of browser events, node events, disconnects, continuations after an access
 check, withdrawals of access, timers and passing time, in any order.
 */
module SignalRuns {
  import opened InsertionOrder
  import opened Signal
  import opened SignalInvariant
  import opened SignalLog
  import opened SignalBudget

  datatype Event =
    | Joins(c: Client)
    | Leaves(c: Client)
    | NodeJoins(ns: NodeSocket, transient: bool)
    | Registers(ns: NodeSocket)
    | NodeLeaves(ns: NodeSocket)
    | Requests(c: Client, sid: SessionId, allowed: bool, hasToken: bool)
    | Offers(c: Client, sid: SessionId)
    | Answers(ns: NodeSocket, sid: SessionId)
    | Connects(ns: NodeSocket, sid: SessionId)
    | NodeHangsUp(ns: NodeSocket, sid: SessionId, reason: Reason)
    | HangsUp(c: Client, sid: SessionId)
    | Resumes(c: Client, sid: SessionId)
    | Announces(ns: NodeSocket, sids: seq<SessionId>)
    | Rechecks(sid: SessionId, allowed: bool)
    | NegotiationFires(sid: SessionId)
    | OrphanFires(sid: SessionId)
    | ResumeFires(sid: SessionId)
    | UserRevoked(nodeId: NodeId, userId: UserId)
    | LoginsRevoked(logins: set<int>)
    | Time(now: int)

  /** No armed timer is overdue at `now`: the clock lets due timers fire before it moves past them. */
  predicate TimersKept(t: Table, now: int) {
    && (forall sid | sid in t.sessions ::
          && (t.sessions[sid].negotiation.Some? ==> now <= t.sessions[sid].negotiation.value)
          && (t.sessions[sid].orphan.Some? ==> now <= t.sessions[sid].orphan.value))
    && (forall sid | sid in t.pending :: t.pending[sid].timer.Some? ==> now <= t.pending[sid].timer.value)
  }

  /** When an event can happen: sockets send while connected, ids of new sessions are fresh, timers fire when due. */
  predicate Enabled(t: Table, e: Event) {
    match e
    case Joins(c) => c !in t.clients && c !in t.leftAt
    case Leaves(c) => c in t.clients
    case NodeJoins(ns, _) => ns !in t.nodes
    case Registers(_) => true
    case NodeLeaves(ns) => ns in t.nodes
    case Requests(_, sid, _, _) => sid !in t.sessions && sid !in t.pending && sid !in t.log
    case Offers(c, _) => c in t.clients
    case Answers(ns, _) => ns in t.nodes
    case Connects(ns, _) => ns in t.nodes
    case NodeHangsUp(ns, _, _) => ns in t.nodes
    case HangsUp(c, _) => c in t.clients
    case Resumes(c, _) => c in t.clients
    case Announces(ns, _) => ns in t.nodes
    case Rechecks(_, _) => true
    case NegotiationFires(sid) => sid in t.sessions && Due(t.sessions[sid].negotiation, t.now)
    case OrphanFires(sid) => sid in t.sessions && Due(t.sessions[sid].orphan, t.now)
    case ResumeFires(sid) => sid in t.pending && Due(t.pending[sid].timer, t.now)
    case UserRevoked(_, _) => true
    case LoginsRevoked(_) => true
    case Time(now) => t.now <= now && TimersKept(t, now)
  }

  function Step(t: Table, e: Event): Table {
    match e
    case Joins(c) => ClientJoin(t, c)
    case Leaves(c) => ClientsLeave(t, {c})
    case NodeJoins(ns, transient) => NodeJoin(t, ns, transient)
    case Registers(ns) => NodeRegister(t, ns)
    case NodeLeaves(ns) => NodeLeave(t, ns)
    case Requests(c, sid, allowed, hasToken) => FinishRequest(t, c, sid, allowed, hasToken)
    case Offers(c, sid) => ClientOffer(t, c, sid)
    case Answers(ns, sid) => NodeAnswer(t, ns, sid)
    case Connects(ns, sid) => NodeConnected(t, ns, sid)
    case NodeHangsUp(ns, sid, reason) => NodeHangup(t, ns, sid, reason)
    case HangsUp(c, sid) => ClientHangup(t, c, sid)
    case Resumes(c, sid) => ClientResume(t, c, sid)
    case Announces(ns, sids) => Announce(t, ns, sids)
    case Rechecks(sid, allowed) => Recheck(t, sid, allowed)
    case NegotiationFires(sid) => FireNegotiation(t, sid)
    case OrphanFires(sid) => FireOrphan(t, sid)
    case ResumeFires(sid) => FireResume(t, sid)
    case UserRevoked(n, u) => RevokeUser(t, n, u)
    case LoginsRevoked(logins) => RevokeLogins(t, logins)
    case Time(now) => t.(now := now)
  }

  predicate IsRun(t: Table, es: seq<Event>) {
    es == [] || (IsRun(t, es[..|es| - 1]) && Enabled(After(t, es[..|es| - 1]), es[|es| - 1]))
  }

  function After(t: Table, es: seq<Event>): Table {
    if es == [] then t else Step(After(t, es[..|es| - 1]), es[|es| - 1])
  }

  // ---------- one step ----------

  lemma TimeKeeps(t: Table, u: Table, now: int)
    requires Inv(t) && t.now <= now && TimersKept(t, now) && u == t.(now := now)
    ensures Inv(u)
  {
    forall sid | sid in u.sessions ensures SessionInv(u, u.sessions[sid]) {
      assert SessionInv(t, t.sessions[sid]);
    }
    forall sid | sid in u.pending ensures sid !in u.sessions && PendingInv(u, u.pending[sid]) {
      assert PendingInv(t, t.pending[sid]);
    }
  }

  /** The events that can do nothing but end one session. */
  predicate EndsOne(e: Event) {
    e.NodeHangsUp? || e.HangsUp? || e.Rechecks? || e.NegotiationFires? || e.OrphanFires?
  }

  lemma EndingKeepsInv(t: Table, e: Event, u: Table)
    requires Inv(t) && u == Step(t, e) && EndsOne(e)
    ensures Inv(u)
  {
    hide Inv;
    match e
    case NodeHangsUp(ns, sid, reason) => NodeHangupKeeps(t, u, ns, sid, reason);
    case HangsUp(c, sid) => ClientHangupKeeps(t, u, c, sid);
    case Rechecks(sid, allowed) => if !allowed { CloseKeeps(t, u, sid, AccessRevoked, true); }
    case NegotiationFires(sid) => if u != t { CloseKeeps(t, u, sid, NegotiationTimeout, true); }
    case OrphanFires(sid) => CloseKeeps(t, u, sid, NodeOffline, true);
  }

  lemma StepKeepsInv(t: Table, e: Event, u: Table)
    requires Inv(t) && Enabled(t, e) && u == Step(t, e)
    ensures Inv(u)
  {
    if EndsOne(e) {
      EndingKeepsInv(t, e, u);
      return;
    }
    match e
    case Joins(c) => ClientJoinKeeps(t, u, c);
    case Leaves(c) => ClientsLeaveKeeps(t, u, {c});
    case NodeJoins(ns, transient) => NodeJoinKeeps(t, u, ns, transient);
    case Registers(ns) => NodeRegisterKeeps(t, u, ns);
    case NodeLeaves(ns) => NodeLeaveKeeps(t, u, ns);
    case Requests(c, sid, allowed, hasToken) => FinishRequestKeeps(t, u, c, sid, allowed, hasToken);
    case Offers(c, sid) => ClientOfferKeeps(t, u, c, sid);
    case Answers(ns, sid) => NodeAnswerKeeps(t, u, ns, sid);
    case Connects(ns, sid) => NodeConnectedKeeps(t, u, ns, sid);
    case Resumes(c, sid) => ClientResumeKeeps(t, u, c, sid);
    case Announces(ns, sids) => AnnounceKeeps(t, ns, sids);
    case ResumeFires(sid) => FireResumeKeeps(t, u, sid);
    case UserRevoked(n, user) => RevokeUserKeeps(t, n, user);
    case LoginsRevoked(logins) =>
      CloseManyKeeps(t, u, SessionRevoked, true, LoginSessions(t, logins));
    case Time(now) => TimeKeeps(t, u, now);
  }

  lemma EndingKeepsLogs(t: Table, e: Event, u: Table)
    requires Inv(t) && Logs(t) && u == Step(t, e) && EndsOne(e)
    ensures Logs(u)
  {
    hide Logs;
    match e
    case NodeHangsUp(ns, sid, reason) => NodeHangupLog(t, u, ns, sid, reason);
    case HangsUp(c, sid) => ClientHangupLog(t, u, c, sid);
    case Rechecks(sid, allowed) => if !allowed { CloseLog(t, u, sid, AccessRevoked, true); }
    case NegotiationFires(sid) => if u != t { CloseLog(t, u, sid, NegotiationTimeout, true); }
    case OrphanFires(sid) => CloseLog(t, u, sid, NodeOffline, true);
  }

  /** The events of a browser or a node about one session they open or hold. */
  predicate Negotiates(e: Event) {
    e.Requests? || e.Offers? || e.Answers? || e.Connects? || e.Resumes?
  }

  lemma NegotiationKeepsLogs(t: Table, e: Event, u: Table)
    requires Inv(t) && Logs(t) && Enabled(t, e) && u == Step(t, e) && Negotiates(e)
    ensures Logs(u)
  {
    hide Logs;
    hide ClientResume;
    hide FinishRequest;
    match e
    case Requests(c, sid, allowed, hasToken) => FinishRequestLog(t, u, c, sid, allowed, hasToken);
    case Offers(c, sid) => ClientOfferLog(t, u, c, sid);
    case Answers(ns, sid) => NodeAnswerLog(t, u, ns, sid);
    case Connects(ns, sid) => NodeConnectedLog(t, u, ns, sid);
    case Resumes(c, sid) => ClientResumeLog(t, u, c, sid);
  }

  lemma StepKeepsLogs(t: Table, e: Event, u: Table)
    requires Inv(t) && Logs(t) && Enabled(t, e) && u == Step(t, e)
    ensures Logs(u)
  {
    hide Logs;
    if EndsOne(e) {
      EndingKeepsLogs(t, e, u);
      return;
    }
    if Negotiates(e) {
      NegotiationKeepsLogs(t, e, u);
      return;
    }
    hide NodeLeave;
    hide ClientsLeave;
    hide Announce;
    hide RevokeUser;
    match e
    case Joins(c) => LogSame(t, u);
    case Leaves(c) => ClientsLeaveLog(t, u, {c});
    case NodeJoins(ns, transient) => LogSame(t, u);
    case Registers(ns) => LogSame(t, u);
    case NodeLeaves(ns) => NodeLeaveLog(t, u, ns);
    case Announces(ns, sids) => AnnounceLog(t, ns, sids);
    case ResumeFires(sid) => FireResumeLog(t, u, sid);
    case UserRevoked(n, user) => RevokeUserLog(t, n, user);
    case LoginsRevoked(logins) =>
      LogApply(t, u, CloseRule(SessionRevoked, true), LoginSessions(t, logins));
    case Time(now) => LogSame(t, u);
  }

  predicate Continues(s: Session, s': Session) {
    s'.client == s.client && Rank(s.phase) <= Rank(s'.phase)
  }

  /** Every session of `u` is a session of `t`, for the same browser and no earlier in its life; nothing was granted. */
  ghost predicate Follows(t: Table, u: Table) {
    && u.grants == t.grants
    && (forall sid :: sid in u.sessions ==> sid in t.sessions && Continues(t.sessions[sid], u.sessions[sid]))
  }

  lemma LeavingFollows(t: Table, e: Event, u: Table)
    requires e.Leaves? || e.NodeLeaves? || e.UserRevoked? || e.LoginsRevoked?
    requires u == Step(t, e)
    ensures Follows(t, u)
  {
  }

  lemma EndedFollows(t: Table, u: Table, sid: SessionId)
    requires u.grants == t.grants && (u.sessions == t.sessions || u.sessions == t.sessions - {sid})
    ensures Follows(t, u)
  {
  }

  /** At most the session with this id ended, and nothing else happened to sessions and sockets. */
  ghost predicate OneEnded(t: Table, u: Table, sid: SessionId) {
    && SameSockets(t, u) && u.grants == t.grants
    && (u.sessions == t.sessions || u.sessions == t.sessions - {sid})
  }

  lemma CloseEndsOne(t: Table, sid: SessionId, reason: Reason)
    ensures OneEnded(t, CloseSession(t, sid, reason, true), sid)
  {
  }

  lemma NodeHangupEndsOne(t: Table, ns: NodeSocket, sid: SessionId, reason: Reason)
    ensures OneEnded(t, NodeHangup(t, ns, sid, reason), sid)
  {
  }

  lemma ClientHangupEndsOne(t: Table, c: Client, sid: SessionId)
    ensures OneEnded(t, ClientHangup(t, c, sid), sid)
  {
  }

  lemma EndsAtMostOne(t: Table, e: Event, u: Table)
    requires EndsOne(e) && u == Step(t, e)
    ensures OneEnded(t, u, e.sid)
  {
    hide NodeHangup;
    hide ClientHangup;
    hide CloseSession;
    match e
    case NodeHangsUp(ns, sid, reason) => NodeHangupEndsOne(t, ns, sid, reason);
    case HangsUp(c, sid) => ClientHangupEndsOne(t, c, sid);
    case Rechecks(sid, _) => CloseEndsOne(t, sid, AccessRevoked);
    case NegotiationFires(sid) => CloseEndsOne(t, sid, NegotiationTimeout);
    case OrphanFires(sid) => CloseEndsOne(t, sid, NodeOffline);
  }

  lemma EndingFollows(t: Table, e: Event, u: Table)
    requires EndsOne(e) && u == Step(t, e)
    ensures Follows(t, u)
  {
    hide Step;
    hide Follows;
    EndsAtMostOne(t, e, u);
    EndedFollows(t, u, e.sid);
  }

  lemma HandshakeFollows(t: Table, e: Event, u: Table)
    requires e.Offers? || e.Answers? || e.Connects?
    requires u == Step(t, e)
    ensures Follows(t, u)
  {
  }

  lemma QuietFollows(t: Table, e: Event, u: Table)
    requires e.Joins? || e.NodeJoins? || e.Registers? || e.ResumeFires? || e.Time?
    requires u == Step(t, e)
    ensures u.sessions == t.sessions && Follows(t, u)
  {
  }

  lemma StepFollows(t: Table, e: Event, u: Table)
    requires !e.Requests? && !e.Resumes? && !e.Announces?
    requires u == Step(t, e)
    ensures Follows(t, u)
  {
    hide Step;
    hide Follows;
    if e.Leaves? || e.NodeLeaves? || e.UserRevoked? || e.LoginsRevoked? {
      LeavingFollows(t, e, u);
    } else if EndsOne(e) {
      EndingFollows(t, e, u);
    } else if e.Offers? || e.Answers? || e.Connects? {
      HandshakeFollows(t, e, u);
    } else {
      QuietFollows(t, e, u);
    }
  }

  lemma StepKeepsBudget(t: Table, e: Event, u: Table)
    requires Budget(t) && Enabled(t, e) && u == Step(t, e)
    ensures Budget(u)
  {
    if e.Requests? {
      FinishRequestBudget(t, u, e.c, e.sid, e.allowed, e.hasToken);
    } else if e.Resumes? {
      ClientResumeBudget(t, u, e.c, e.sid);
    } else if e.Announces? {
      AnnounceBudget(t, e.ns, e.sids);
    } else {
      StepFollows(t, e, u);
      BudgetShrinks(t, u);
    }
  }

  // ---------- every run ----------

  ghost predicate Safe(t: Table) {
    Inv(t) && Logs(t) && Budget(t)
  }

  lemma {:induction false} RunIsSafe(es: seq<Event>)
    requires IsRun(EMPTY, es)
    ensures Safe(After(EMPTY, es))
  {
    if es != [] {
      var front, e := es[..|es| - 1], es[|es| - 1];
      RunIsSafe(front);
      var t, u := After(EMPTY, front), After(EMPTY, es);
      StepKeepsInv(t, e, u);
      StepKeepsLogs(t, e, u);
      StepKeepsBudget(t, e, u);
    }
  }

  /** In every run, every session belongs to the node and the user of its sockets. */
  lemma RunKeepsOwnership(es: seq<Event>, sid: SessionId)
    requires IsRun(EMPTY, es) && sid in After(EMPTY, es).sessions
    ensures var s := After(EMPTY, es).sessions[sid];
            s.client.nodeId == s.nodeId == s.node.nodeId && s.client.userId == s.userId
    ensures sid !in After(EMPTY, es).pending
  {
    RunIsSafe(es);
    assert SessionInv(After(EMPTY, es), After(EMPTY, es).sessions[sid]);
  }

  /**
   In every run a pending resume holds exactly one half, a connected socket of its node, for one grace period at most.
   */
  lemma RunKeepsHalves(es: seq<Event>, sid: SessionId)
    requires IsRun(EMPTY, es) && sid in After(EMPTY, es).pending
    ensures var t := After(EMPTY, es); var p := t.pending[sid];
            && sid !in t.sessions
            && (p.node.Some? <==> p.client.None?)
            && (p.node.Some? ==> p.node.value in t.nodes && p.node.value.nodeId == p.nodeId)
            && (p.client.Some? ==> p.client.value in t.clients && p.client.value.nodeId == p.nodeId)
            && p.timer.Some? && t.now <= p.createdAt + NODE_OFFLINE_GRACE_MS
  {
    RunIsSafe(es);
    assert PendingInv(After(EMPTY, es), After(EMPTY, es).pending[sid]);
  }

  /**
   Timer discipline.  A session has an armed negotiation timer exactly when it is not CONNECTED, and none negotiates
   past thirty seconds; one whose browser is away is CONNECTED with an armed grace timer, and the browser has been away
   for at most sixty seconds.
   */
  lemma RunKeepsTimers(es: seq<Event>, sid: SessionId)
    requires IsRun(EMPTY, es) && sid in After(EMPTY, es).sessions
    ensures var t := After(EMPTY, es); var s := t.sessions[sid];
            && (s.negotiation.Some? <==> s.phase != Connected)
            && (s.phase != Connected ==>
                  s.client in t.clients && s.node in t.nodes && t.now <= s.createdAt + NEGOTIATION_TIMEOUT_MS)
            && (s.client !in t.clients ==> s.phase == Connected && s.orphan.Some? && s.client in t.leftAt
                                           && t.now <= t.leftAt[s.client] + NODE_OFFLINE_GRACE_MS)
  {
    RunIsSafe(es);
    assert SessionInv(After(EMPTY, es), After(EMPTY, es).sessions[sid]);
  }

  /** Per session id, over the whole run: one offer at most, one answer at most, in order, none after CONNECTED. */
  lemma RunKeepsOrder(es: seq<Event>, sid: SessionId)
    requires IsRun(EMPTY, es)
    ensures Disciplined(After(EMPTY, es).Log(sid))
  {
    RunIsSafe(es);
    ProgressMeans(After(EMPTY, es).Log(sid));
  }

  /** A browser socket never holds more than four sessions plus one for each resume or adoption onto it. */
  lemma RunKeepsBudget(es: seq<Event>, c: Client)
    requires IsRun(EMPTY, es)
    ensures |After(EMPTY, es).Held(c)| <= MAX_SESSIONS_PER_SOCKET + After(EMPTY, es).Grants(c)
  {
    RunIsSafe(es);
  }

  // ---------- the rank of a session's state ----------

  lemma AnnounceOneKeepsPhase(t: Table, u: Table, ns: NodeSocket, sid: SessionId, x: SessionId)
    requires x in t.sessions && u == AnnounceOne(t, ns, sid)
    ensures x in u.sessions && u.sessions[x].phase == t.sessions[x].phase
  {
    hide RefreshOrphan;
    hide Adopted;
    hide NewPending;
    hide WithHalf;
    RefreshKeepsPhase();
    if sid !in t.sessions {
      OfferKeepsOthers(t, sid, ns.nodeId, NodeHalf(ns), x);
      hide OfferResume;
    }
  }

  lemma OfferKeepsOthers(t: Table, sid: SessionId, nodeId: NodeId, half: Half, x: SessionId)
    requires x in t.sessions && x != sid
    ensures x in OfferResume(t, sid, nodeId, half).sessions
            && OfferResume(t, sid, nodeId, half).sessions[x] == t.sessions[x]
  {
    hide Adopted;
  }

  lemma {:induction false} AnnounceEachKeepsPhase(t: Table, ns: NodeSocket, sids: seq<SessionId>, x: SessionId)
    requires x in t.sessions
    ensures x in AnnounceEach(t, ns, sids).sessions
            && AnnounceEach(t, ns, sids).sessions[x].phase == t.sessions[x].phase
  {
    if sids != [] {
      var front := sids[..|sids| - 1];
      AnnounceEachKeepsPhase(t, ns, front, x);
      AnnounceOneKeepsPhase(AnnounceEach(t, ns, front), AnnounceEach(t, ns, sids), ns, sids[|sids| - 1], x);
    }
  }

  lemma RequestKeepsRank(t: Table, e: Event, u: Table, sid: SessionId)
    requires e.Requests? && Enabled(t, e) && u == Step(t, e)
    requires sid in t.sessions && sid in u.sessions
    ensures Rank(t.sessions[sid].phase) <= Rank(u.sessions[sid].phase)
  {
    hide ClientsLeave;
    if FinishReply(t, e.c, e.sid, e.allowed, e.hasToken).Denied? && e.c in t.clients {
      LeavingFollows(t, Leaves(e.c), u);
    }
  }

  lemma ReturnKeepsRank(t: Table, e: Event, u: Table, sid: SessionId)
    requires (e.Resumes? || e.Announces?) && u == Step(t, e)
    requires sid in t.sessions && sid in u.sessions
    ensures Rank(t.sessions[sid].phase) <= Rank(u.sessions[sid].phase)
  {
    if e.Announces? {
      AnnounceEachKeepsPhase(t, e.ns, Distinct(e.sids), sid);
    }
  }

  /** While a session lives its state rank never decreases. */
  lemma StepKeepsRank(t: Table, e: Event, u: Table, sid: SessionId)
    requires Enabled(t, e) && u == Step(t, e)
    requires sid in t.sessions && sid in u.sessions
    ensures Rank(t.sessions[sid].phase) <= Rank(u.sessions[sid].phase)
  {
    hide Step;
    hide Enabled;
    if e.Requests? {
      RequestKeepsRank(t, e, u, sid);
    } else if e.Resumes? || e.Announces? {
      ReturnKeepsRank(t, e, u, sid);
    } else {
      StepFollows(t, e, u);
    }
  }

  lemma {:induction false} RankNeverDecreases(before: seq<Event>, es: seq<Event>, sid: SessionId)
    requires IsRun(EMPTY, before + es)
    requires forall k :: |before| <= k <= |before| + |es| ==> sid in After(EMPTY, (before + es)[..k]).sessions
    ensures (before + es)[..|before|] == before && (before + es)[..|before| + |es|] == before + es
    ensures Rank(After(EMPTY, before).sessions[sid].phase) <= Rank(After(EMPTY, before + es).sessions[sid].phase)
  {
    var all := before + es;
    assert all[..|before|] == before && all[..|all|] == all;
    if es != [] {
      var front := es[..|es| - 1];
      assert all[..|all| - 1] == before + front;
      forall k | |before| <= k <= |before| + |front| ensures sid in After(EMPTY, (before + front)[..k]).sessions {
        assert (before + front)[..k] == all[..k];
      }
      RankNeverDecreases(before, front, sid);
      StepKeepsRank(After(EMPTY, before + front), all[|all| - 1], After(EMPTY, all), sid);
    }
  }
}
