/**
 What announcements, resumes and withdrawals of access achieve: a node's announcement reconciles the table with the
 node, the two halves of a session may arrive in either order, and a revoked user keeps nothing on the node.
 */
module SignalResume {
  import opened InsertionOrder
  import opened Options
  import opened Signal
  import opened SignalInvariant
  import opened SignalRuns

  /** All the table knows about one id. */
  datatype View = View(session: Option<Session>, pending: Option<Pending>)

  function ViewOf(t: Table, sid: SessionId): View {
    View(if sid in t.sessions then Some(t.sessions[sid]) else None,
         if sid in t.pending then Some(t.pending[sid]) else None)
  }

  function OfferView(t: Table, nodeId: NodeId, waiting: Option<Pending>, half: Half): View {
    var base := if waiting.Some? && waiting.value.nodeId == nodeId then waiting.value else NewPending(t, nodeId);
    var p := WithHalf(base, half);
    if p.node.Some? && p.client.Some? then View(Some(Adopted(t, nodeId, p.node.value, p.client.value)), None)
    else View(None, Some(p))
  }

  function AnnounceView(t: Table, ns: NodeSocket, v: View): View {
    if v.session.None? then OfferView(t, ns.nodeId, v.pending, NodeHalf(ns))
    else if v.session.value.nodeId != ns.nodeId then v
    else v.(session := Some(RefreshOrphan(t, v.session.value.(node := ns))))
  }

  lemma OfferResumeHere(t: Table, u: Table, sid: SessionId, nodeId: NodeId, half: Half)
    requires sid !in t.sessions && u == OfferResume(t, sid, nodeId, half)
    ensures ViewOf(u, sid) == OfferView(t, nodeId, ViewOf(t, sid).pending, half)
  {
    var v := OfferView(t, nodeId, ViewOf(t, sid).pending, half);
    if v.session.Some? {
      assert sid in u.sessions && sid !in u.pending;
    } else {
      assert u == t.(pending := t.pending[sid := v.pending.value]);
    }
  }

  lemma OfferResumeElsewhere(t: Table, u: Table, sid: SessionId, nodeId: NodeId, half: Half, x: SessionId)
    requires u == OfferResume(t, sid, nodeId, half)
    ensures SameSockets(t, u)
    ensures x != sid ==> ViewOf(u, x) == ViewOf(t, x)
  {
    hide Adopted;
    hide WithHalf;
    hide NewPending;
  }

  /** Announcing one id touches that id only, and looks only at it and at the sockets. */
  lemma AnnounceOneAt(t: Table, u: Table, ns: NodeSocket, sid: SessionId, x: SessionId)
    requires u == AnnounceOne(t, ns, sid)
    ensures SameSockets(t, u)
    ensures ViewOf(u, x) == if x == sid then AnnounceView(t, ns, ViewOf(t, x)) else ViewOf(t, x)
  {
    hide OfferResume;
    hide OfferView;
    hide RefreshOrphan;
    if sid !in t.sessions {
      OfferResumeHere(t, u, sid, ns.nodeId, NodeHalf(ns));
      OfferResumeElsewhere(t, u, sid, ns.nodeId, NodeHalf(ns), x);
    }
  }

  lemma AnnounceViewSees(t: Table, u: Table, ns: NodeSocket, v: View)
    requires SameSockets(t, u)
    ensures AnnounceView(t, ns, v) == AnnounceView(u, ns, v)
  {
  }

  lemma {:induction false} AnnounceEachAt(t: Table, ns: NodeSocket, sids: seq<SessionId>, x: SessionId)
    requires NoRepeats(sids)
    ensures SameSockets(t, AnnounceEach(t, ns, sids))
    ensures ViewOf(AnnounceEach(t, ns, sids), x) ==
              if x in sids then AnnounceView(t, ns, ViewOf(t, x)) else ViewOf(t, x)
  {
    if sids != [] {
      var front, last := sids[..|sids| - 1], sids[|sids| - 1];
      AnnounceEachAt(t, ns, front, x);
      AnnounceOneAt(AnnounceEach(t, ns, front), AnnounceEach(t, ns, sids), ns, last, x);
      AnnounceViewSees(t, AnnounceEach(t, ns, front), ns, ViewOf(t, x));
      assert last !in front;
      assert x in sids <==> x in front || x == last;
    }
  }

  predicate LeftOut(v: View, nodeId: NodeId) {
    v.session.Some? && v.session.value.nodeId == nodeId && v.session.value.phase == Connected
  }

  /** An announcement, id by id. */
  lemma AnnounceAt(t: Table, u: Table, ns: NodeSocket, sids: seq<SessionId>, x: SessionId)
    requires u == Announce(t, ns, sids)
    ensures SameSockets(t, u)
    ensures x in sids ==> ViewOf(u, x) == AnnounceView(t, ns, ViewOf(t, x))
    ensures x !in sids ==>
              ViewOf(u, x) == if LeftOut(ViewOf(t, x), ns.nodeId) then ViewOf(t, x).(session := None) else ViewOf(t, x)
  {
    DistinctHasNoRepeats(sids);
    AnnounceEachAt(t, ns, Distinct(sids), x);
    var met := AnnounceEach(t, ns, Distinct(sids));
    var gone := Unannounced(met, ns.nodeId, sids);
    ClosedAt(met, u, NodeOffline, false, gone, x);
  }

  lemma ClosedAt(t: Table, u: Table, reason: Reason, tellNode: bool, gone: set<SessionId>, x: SessionId)
    requires u == Apply(t, CloseRule(reason, tellNode), gone)
    ensures SameSockets(t, u)
    ensures ViewOf(u, x) == if x in gone then ViewOf(t, x).(session := None) else ViewOf(t, x)
  {
  }

  /** What an announcement makes of one id. */
  predicate Agrees(v: View, v': View, ns: NodeSocket, announced: bool) {
    && (v'.session.Some? && v'.session.value.nodeId == ns.nodeId && v'.session.value.phase == Connected ==> announced)
    && (v'.session.Some? && v'.session.value.nodeId == ns.nodeId && announced ==> v'.session.value.node == ns)
    && (announced ==> v'.session.Some? || (v'.pending.Some? && v'.pending.value.node == Some(ns)))
    && (v.session.Some? && v.session.value.nodeId != ns.nodeId ==> v' == v)
    && (v.session.Some? && v.session.value.phase != Connected && !announced ==> v' == v)
    && (v'.session.Some? && v'.session.value.nodeId != ns.nodeId ==> v' == v)
  }

  lemma ReconcileAt(t: Table, u: Table, ns: NodeSocket, sids: seq<SessionId>, x: SessionId)
    requires u == Announce(t, ns, sids)
    ensures Agrees(ViewOf(t, x), ViewOf(u, x), ns, x in sids)
  {
    hide Announce;
    hide ViewOf;
    AnnounceAt(t, u, ns, sids, x);
  }

  /**
   Once node socket `ns` has announced the ids `sids`, the table agrees with the node: every CONNECTED session of the
   node was announced, every announced session of the node is bound to `ns`, every announced id is a live session or
   waits held by `ns`, and sessions of other nodes and unannounced negotiations are untouched.
   */
  lemma Reconciled(t: Table, u: Table, ns: NodeSocket, sids: seq<SessionId>)
    requires u == Announce(t, ns, sids)
    ensures forall x | x in u.sessions && u.sessions[x].nodeId == ns.nodeId ::
              (u.sessions[x].phase == Connected ==> x in sids) && (x in sids ==> u.sessions[x].node == ns)
    ensures forall x | x in sids :: x in u.sessions || (x in u.pending && u.pending[x].node == Some(ns))
    ensures forall x | x in t.sessions && t.sessions[x].nodeId != ns.nodeId ::
              x in u.sessions && u.sessions[x] == t.sessions[x]
    ensures forall x | x in u.sessions && u.sessions[x].nodeId != ns.nodeId ::
              x in t.sessions && u.sessions[x] == t.sessions[x]
    ensures forall x | x in t.sessions && t.sessions[x].phase != Connected && x !in sids ::
              x in u.sessions && u.sessions[x] == t.sessions[x]
  {
    forall x | x in u.sessions
      ensures Agrees(ViewOf(t, x), View(Some(u.sessions[x]), ViewOf(u, x).pending), ns, x in sids)
    {
      ReconcileAt(t, u, ns, sids, x);
    }
    forall x | x in t.sessions
               && (t.sessions[x].nodeId != ns.nodeId || (t.sessions[x].phase != Connected && x !in sids))
      ensures x in u.sessions && u.sessions[x] == t.sessions[x]
    {
      ReconcileAt(t, u, ns, sids, x);
    }
    forall x | x in u.sessions && u.sessions[x].nodeId != ns.nodeId
      ensures x in t.sessions && u.sessions[x] == t.sessions[x]
    {
      ReconcileAt(t, u, ns, sids, x);
    }
    forall x | x in sids ensures x in u.sessions || (x in u.pending && u.pending[x].node == Some(ns)) {
      ReconcileAt(t, u, ns, sids, x);
    }
  }

  /** No browser of another user already waits for this id on this node. */
  predicate NoStranger(waiting: Option<Pending>, c: Client) {
    waiting.Some? && waiting.value.nodeId == c.nodeId && waiting.value.client.Some? ==>
      waiting.value.client.value.userId == c.userId
  }

  function ResumeView(t: Table, c: Client, v: View): View {
    match v.session
    case None => OfferView(t, c.nodeId, v.pending, ClientHalf(c))
    case Some(s) =>
      if s.nodeId != c.nodeId || s.userId != c.userId || s.phase != Connected then v
      else v.(session := Some(RefreshOrphan(t, s.(client := c))))
  }

  lemma ClientResumeAt(t: Table, u: Table, c: Client, sid: SessionId)
    requires sid != "" && u == ClientResume(t, c, sid)
    ensures SameSockets(t, u) && ViewOf(u, sid) == ResumeView(t, c, ViewOf(t, sid))
  {
    hide OfferResume;
    hide OfferView;
    hide RefreshOrphan;
    if sid !in t.sessions {
      OfferResumeHere(t, u, sid, c.nodeId, ClientHalf(c));
      OfferResumeElsewhere(t, u, sid, c.nodeId, ClientHalf(c), sid);
    }
  }

  lemma ResumeViewSees(t: Table, u: Table, c: Client, v: View)
    requires SameSockets(t, u)
    ensures ResumeView(t, c, v) == ResumeView(u, c, v)
  {
  }

  lemma ViewsMeet(t: Table, waiting: Option<Pending>, c: Client, ns: NodeSocket)
    requires c in t.clients && ns in t.nodes && c.nodeId == ns.nodeId
    requires waiting.Some? ==> PendingInv(t, waiting.value)
    ensures AnnounceView(t, ns, ResumeView(t, c, View(None, waiting))) == View(Some(Adopted(t, ns.nodeId, ns, c)), None)
    ensures ResumeView(t, c, AnnounceView(t, ns, View(None, waiting))) == View(Some(Adopted(t, ns.nodeId, ns, c)), None)
            <==> NoStranger(waiting, c)
  {
  }

  /**
   The browser's half and the node's half yield the same CONNECTED session in either order of arrival, exactly when no
   browser of another user already waits for the id: such a browser would get the session if the node came first.
   */
  lemma HalvesMeetInEitherOrder(
      t: Table, r: Table, ra: Table, a: Table, ar: Table,
      c: Client, ns: NodeSocket, sid: SessionId, sids: seq<SessionId>)
    requires Pendings(t) && c in t.clients && ns in t.nodes && c.nodeId == ns.nodeId
    requires sid != "" && sid !in t.sessions && sid in sids
    requires r == ClientResume(t, c, sid) && ra == Announce(r, ns, sids)
    requires a == Announce(t, ns, sids) && ar == ClientResume(a, c, sid)
    ensures ViewOf(ra, sid) == View(Some(Adopted(t, ns.nodeId, ns, c)), None)
    ensures ViewOf(ar, sid) == ViewOf(ra, sid) <==> NoStranger(ViewOf(t, sid).pending, c)
  {
    ViewsMeet(t, ViewOf(t, sid).pending, c, ns);
    ClientResumeAt(t, r, c, sid);
    AnnounceAt(r, ra, ns, sids, sid);
    AnnounceViewSees(t, r, ns, ViewOf(r, sid));
    AnnounceAt(t, a, ns, sids, sid);
    ClientResumeAt(a, ar, c, sid);
    ResumeViewSees(t, a, c, ViewOf(a, sid));
  }

  /**
   A run that reaches a table where the order matters: a browser of one user waits for the id when the node's socket and
   a browser of another user come; whoever the node meets first gets the session.
   */
  lemma StrangerWaits() returns (es: seq<Event>, c: Client, ns: NodeSocket)
    ensures IsRun(EMPTY, es)
    ensures var t := After(EMPTY, es);
            && c in t.clients && ns in t.nodes && c.nodeId == ns.nodeId && "s" !in t.sessions
            && !NoStranger(ViewOf(t, "s").pending, c)
            && ViewOf(ClientResume(Announce(t, ns, ["s"]), c, "s"), "s")
               != ViewOf(Announce(ClientResume(t, c, "s"), ns, ["s"]), "s")
  {
    c, ns := Client(2, "n", 8, 2), NodeSocket(1, "n");
    var stranger := Client(1, "n", 7, 1);
    es := BrowserWaits(stranger, "s");
    es := EndsCome(es, c, ns);
    var t := After(EMPTY, es);
    RunIsSafe(es);
    hide IsRun;
    hide After;
    hide Inv;
    var r, a := ClientResume(t, c, "s"), Announce(t, ns, ["s"]);
    assert Pendings(t) by {
      assert Inv(t);
    }
    HalvesMeetInEitherOrder(t, r, Announce(r, ns, ["s"]), a, ClientResume(a, c, "s"), c, ns, "s", ["s"]);
  }

  lemma BrowserWaits(c: Client, sid: SessionId) returns (es: seq<Event>)
    requires sid != ""
    ensures IsRun(EMPTY, es)
    ensures After(EMPTY, es) ==
              EMPTY.(clients := {c}, pending := map[sid := NewPending(EMPTY, c.nodeId).(client := Some(c))])
  {
    es := Extend([], Joins(c));
    es := Extend(es, Resumes(c, sid));
    hide IsRun;
  }

  lemma EndsCome(before: seq<Event>, c: Client, ns: NodeSocket) returns (es: seq<Event>)
    requires IsRun(EMPTY, before)
    requires c !in After(EMPTY, before).clients && After(EMPTY, before).leftAt == map[]
             && ns !in After(EMPTY, before).nodes
    ensures IsRun(EMPTY, es)
    ensures var t, u := After(EMPTY, before), After(EMPTY, es);
            c in u.clients && ns in u.nodes && u.sessions == t.sessions && u.pending == t.pending
  {
    es := Extend(before, NodeJoins(ns, false));
    es := Extend(es, Joins(c));
    hide IsRun;
  }

  /** The sessions that withdrawing a user's access to a node leaves. */
  function OthersSessions(t: Table, nodeId: NodeId, userId: UserId): map<SessionId, Session> {
    map sid | sid in t.sessions && !(t.sessions[sid].nodeId == nodeId && t.sessions[sid].userId == userId) ::
      t.sessions[sid]
  }

  /** After a user's access to a node is withdrawn nothing of the user is left there, and nothing else is touched. */
  lemma RevokedUserKeepsNothing(t: Table, u: Table, nodeId: NodeId, userId: UserId)
    requires Inv(t) && u == RevokeUser(t, nodeId, userId)
    ensures forall sid :: sid in u.sessions ==> !(u.sessions[sid].nodeId == nodeId && u.sessions[sid].userId == userId)
    ensures forall sid :: sid in u.pending && u.pending[sid].client.Some? ==>
              !(u.pending[sid].nodeId == nodeId && u.pending[sid].client.value.userId == userId)
    ensures forall c :: c in u.clients <==> c in t.clients && !(c.nodeId == nodeId && c.userId == userId)
    ensures u.sessions == OthersSessions(t, nodeId, userId)
  {
    RevokedSessions(t, u, nodeId, userId);
    forall sid | sid in u.pending && u.pending[sid].client.Some?
      ensures !(u.pending[sid].nodeId == nodeId && u.pending[sid].client.value.userId == userId)
    {
      assert PendingInv(t, t.pending[sid]);
    }
  }

  lemma ClosedForUser(t: Table, u: Table, nodeId: NodeId, userId: UserId)
    requires u == Apply(t, CloseRule(AccessRevoked, true), UserSessions(t, nodeId, userId))
    ensures u.sessions == OthersSessions(t, nodeId, userId) && u.clients == t.clients
  {
  }

  lemma NoneToLeave(t: Table, u: Table, gone: set<Client>)
    requires u == ClientsLeave(t, gone) && forall sid :: sid in t.sessions ==> t.sessions[sid].client !in gone
    ensures u.sessions == t.sessions
  {
    assert HeldByAny(t, gone) == {};
  }

  lemma RevokedSessions(t: Table, u: Table, nodeId: NodeId, userId: UserId)
    requires Sessions(t) && u == RevokeUser(t, nodeId, userId)
    ensures u.sessions == OthersSessions(t, nodeId, userId)
  {
    hide ClientsLeave;
    hide Apply;
    var closed := Apply(t, CloseRule(AccessRevoked, true), UserSessions(t, nodeId, userId));
    ClosedForUser(t, closed, nodeId, userId);
    forall sid | sid in closed.sessions ensures closed.sessions[sid].client !in UserClients(t, nodeId, userId) {
      assert SessionInv(t, t.sessions[sid]);
    }
    NoneToLeave(closed, u, UserClients(t, nodeId, userId));
  }

  /** A browser login that is revoked keeps no session. */
  lemma RevokedLoginKeepsNothing(t: Table, u: Table, logins: set<int>)
    requires u == RevokeLogins(t, logins)
    ensures u.sessions == map sid | sid in t.sessions && t.sessions[sid].client.login !in logins :: t.sessions[sid]
  {
  }

  /**
   The node's side has no such guarantee as the browser's.  When the node's last socket drops, a CONNECTED session whose
   browser is online gets a grace timer exactly when it was still bound to that socket.
   */
  lemma NodeSideGraceExactly(t: Table, u: Table, ns: NodeSocket, sid: SessionId)
    requires Inv(t) && ns in t.nodes && u == NodeLeave(t, ns)
    requires ns.nodeId in t.registry && t.registry[ns.nodeId] == ns
    requires sid in t.sessions && t.sessions[sid].nodeId == ns.nodeId && t.sessions[sid].phase == Connected
    requires t.sessions[sid].client in t.clients && t.sessions[sid].orphan.None? && t.sessions[sid].node !in u.nodes
    ensures sid in u.sessions && u.NodeTarget(u.sessions[sid]).None?
    ensures u.sessions[sid].orphan.Some? <==> t.sessions[sid].node == ns
  {
    var left := NodeDeparted(t, ns);
    assert left.NodeTarget(t.sessions[sid]).None?;
  }

  /** Such a session is reachable: a replacement control socket drops before it announces anything. */
  lemma NodeSideGraceGap() returns (es: seq<Event>, sid: SessionId)
    ensures IsRun(EMPTY, es) && sid in After(EMPTY, es).sessions
    ensures var t := After(EMPTY, es); var s := t.sessions[sid];
            t.NodeTarget(s).None? && s.orphan.None? && s.negotiation.None?
  {
    var first, second, c := NodeSocket(1, "n"), NodeSocket(2, "n"), Client(1, "n", 7, 1);
    sid := "s";
    es := SessionOpens(first, c, sid);
    var t := After(EMPTY, es);
    var u := SocketReplaced(t, first, second, c, sid);
    es := Extend(es, NodeJoins(second, false));
    es := Extend(es, NodeLeaves(first));
    es := Extend(es, NodeLeaves(second));
  }

  lemma SocketReplaced(t: Table, first: NodeSocket, second: NodeSocket, c: Client, sid: SessionId) returns (u: Table)
    requires first != second && first.nodeId == second.nodeId == c.nodeId
    requires t.sessions == map[sid := Session(c, first, first.nodeId, c.userId, Connected, None, None, 0)]
    requires t.pending == map[]
    requires t.nodes == {first} && t.clients == {c} && t.registry == map[first.nodeId := first]
    ensures u == NodeLeave(NodeJoin(t, second, false), first) && second in u.nodes
    ensures sid in NodeLeave(u, second).sessions && NodeLeave(u, second).nodes == {}
    ensures NodeLeave(u, second).sessions[sid] == t.sessions[sid]
  {
    var s := t.sessions[sid];
    u := NodeLeave(NodeJoin(t, second, false), first);
    var left := NodeJoin(t, second, false).(nodes := {second});
    assert NodeJoin(t, second, false).nodes - {first} == {second};
    assert RefreshOrphan(left, s) == s;
    assert u.sessions[sid] == s;
    assert BoundTo(u, second) == {};
  }

  lemma SessionOpens(ns: NodeSocket, c: Client, sid: SessionId) returns (es: seq<Event>)
    requires ns.nodeId == c.nodeId
    ensures IsRun(EMPTY, es)
    ensures var t := After(EMPTY, es);
            && t.sessions == map[sid := Session(c, ns, ns.nodeId, c.userId, Connected, None, None, 0)]
            && t.pending == map[]
            && t.nodes == {ns} && t.clients == {c} && t.registry == map[ns.nodeId := ns] && t.now == 0
  {
    es := BothConnected(ns, c);
    var t := After(EMPTY, es);
    assert t.Held(c) == {} && t.Registered(ns.nodeId) == Some(ns);
    es := Extend(es, Requests(c, sid, true, true));
    es := Extend(es, Connects(ns, sid));
  }

  lemma BothConnected(ns: NodeSocket, c: Client) returns (es: seq<Event>)
    requires ns.nodeId == c.nodeId
    ensures IsRun(EMPTY, es)
    ensures After(EMPTY, es) == EMPTY.(nodes := {ns}, clients := {c}, registry := map[ns.nodeId := ns])
  {
    es := Extend([], NodeJoins(ns, false));
    es := Extend(es, Joins(c));
    hide IsRun;
  }

  lemma Extend(es: seq<Event>, e: Event) returns (longer: seq<Event>)
    requires IsRun(EMPTY, es) && Enabled(After(EMPTY, es), e)
    ensures longer == es + [e] && IsRun(EMPTY, longer) && After(EMPTY, longer) == Step(After(EMPTY, es), e)
  {
    longer := es + [e];
    assert longer[..|es|] == es;
  }
}
