/**
 The imperative signalling table: the session map, its reverse indexes, the pending resumes, and the handlers that
 update them step by step.  Every handler computes the turn of the same name in `Signal`, and keeps every index the
 exact inverse of what it indexes.
 */
module SignalTable {
  import opened InsertionOrder
  import opened Options
  import opened Index
  import opened Signal
  import opened SignalById

  function NodeOf(sessions: map<SessionId, Session>): map<SessionId, NodeId> {
    map sid | sid in sessions :: sessions[sid].nodeId
  }

  function UserOf(sessions: map<SessionId, Session>): map<SessionId, UserId> {
    map sid | sid in sessions :: sessions[sid].userId
  }

  function ClientOf(sessions: map<SessionId, Session>): map<SessionId, Client> {
    map sid | sid in sessions :: sessions[sid].client
  }

  function NodeOfClient(clients: set<Client>): map<Client, NodeId> {
    map c | c in clients :: c.nodeId
  }

  /** The three indexes of the session map. */
  datatype Indexes = Indexes(
    byNode: map<NodeId, set<SessionId>>, byUser: map<UserId, set<SessionId>>, byClient: map<Client, set<SessionId>>)

  function IndexesOf(sessions: map<SessionId, Session>): Indexes {
    Indexes(Invert(NodeOf(sessions)), Invert(UserOf(sessions)), Invert(ClientOf(sessions)))
  }

  lemma AddKeepsIndexes(sessions: map<SessionId, Session>, i: Indexes, sid: SessionId, s: Session)
    requires i == IndexesOf(sessions) && sid !in sessions
    ensures Indexes(IndexAdd(i.byNode, s.nodeId, sid), IndexAdd(i.byUser, s.userId, sid),
              IndexAdd(i.byClient, s.client, sid))
         == IndexesOf(sessions[sid := s])
  {
    hide Invert;
    hide IndexAdd;
    AddInverts(NodeOf(sessions), sid, s.nodeId);
    AddInverts(UserOf(sessions), sid, s.userId);
    AddInverts(ClientOf(sessions), sid, s.client);
    assert NodeOf(sessions[sid := s]) == NodeOf(sessions)[sid := s.nodeId];
    assert UserOf(sessions[sid := s]) == UserOf(sessions)[sid := s.userId];
    assert ClientOf(sessions[sid := s]) == ClientOf(sessions)[sid := s.client];
  }

  lemma RemoveKeepsIndexes(sessions: map<SessionId, Session>, i: Indexes, sid: SessionId, s: Session)
    requires i == IndexesOf(sessions) && sid in sessions && s == sessions[sid]
    ensures Indexes(IndexRemove(i.byNode, s.nodeId, sid), IndexRemove(i.byUser, s.userId, sid),
              IndexRemove(i.byClient, s.client, sid))
         == IndexesOf(sessions - {sid})
  {
    RemoveInverts(NodeOf(sessions), sid);
    RemoveInverts(UserOf(sessions), sid);
    RemoveInverts(ClientOf(sessions), sid);
    assert NodeOf(sessions - {sid}) == NodeOf(sessions) - {sid};
    assert UserOf(sessions - {sid}) == UserOf(sessions) - {sid};
    assert ClientOf(sessions - {sid}) == ClientOf(sessions) - {sid};
  }

  lemma ReassignKeepsIndexes(sessions: map<SessionId, Session>, i: Indexes, sid: SessionId, c: Client)
    requires i == IndexesOf(sessions) && sid in sessions
    ensures Indexes(i.byNode, i.byUser, IndexAdd(IndexRemove(i.byClient, sessions[sid].client, sid), c, sid))
         == IndexesOf(sessions[sid := sessions[sid].(client := c)])
  {
    RemoveInverts(ClientOf(sessions), sid);
    AddInverts(ClientOf(sessions) - {sid}, sid, c);
    var after := sessions[sid := sessions[sid].(client := c)];
    assert NodeOf(after) == NodeOf(sessions);
    assert UserOf(after) == UserOf(sessions);
    assert ClientOf(after) == (ClientOf(sessions) - {sid})[sid := c];
  }

  lemma UpdateKeepsIndexes(sessions: map<SessionId, Session>, sid: SessionId, s: Session)
    requires sid in sessions
    requires s.nodeId == sessions[sid].nodeId && s.userId == sessions[sid].userId && s.client == sessions[sid].client
    ensures IndexesOf(sessions[sid := s]) == IndexesOf(sessions)
  {
    assert NodeOf(sessions[sid := s]) == NodeOf(sessions);
    assert UserOf(sessions[sid := s]) == UserOf(sessions);
    assert ClientOf(sessions[sid := s]) == ClientOf(sessions);
  }

  /** What the handlers read in the indexes. */
  lemma LookupSessions(sessions: map<SessionId, Session>, i: Indexes)
    requires i == IndexesOf(sessions)
    ensures forall n :: Lookup(i.byNode, n) == set sid | sid in sessions && sessions[sid].nodeId == n
    ensures forall u :: Lookup(i.byUser, u) == set sid | sid in sessions && sessions[sid].userId == u
    ensures forall c :: Lookup(i.byClient, c) == set sid | sid in sessions && sessions[sid].client == c
  {
    forall n ensures Lookup(i.byNode, n) == set sid | sid in sessions && sessions[sid].nodeId == n {
      LookupInverts(NodeOf(sessions), n);
    }
    forall u ensures Lookup(i.byUser, u) == set sid | sid in sessions && sessions[sid].userId == u {
      LookupInverts(UserOf(sessions), u);
    }
    forall c ensures Lookup(i.byClient, c) == set sid | sid in sessions && sessions[sid].client == c {
      LookupInverts(ClientOf(sessions), c);
    }
  }

  // ---------- one id at a time is the same as the whole set ----------

  lemma ApplyNothing(t: Table, rule: Rule)
    ensures Apply(t, rule, {}) == t
  {
    assert Apply(t, rule, {}).sessions == t.sessions;
    assert Apply(t, rule, {}).log == t.log;
  }

  lemma ApplyOne(t: Table, u: Table, rule: Rule, sid: SessionId)
    requires sid in t.sessions
    requires u == match Decide(t, rule, t.sessions[sid])
                  case Keep(s) => t.(sessions := t.sessions[sid := s])
                  case Drop(sent) => t.(sessions := t.sessions - {sid}).Record(sid, sent)
    ensures Apply(t, rule, {sid}) == u
  {
    hide Decide;
    assert Apply(t, rule, {sid}).sessions == u.sessions;
    assert Apply(t, rule, {sid}).log == u.log;
  }

  lemma CloseIsApply(t: Table, u: Table, reason: Reason, tellNode: bool, sid: SessionId)
    requires sid in t.sessions && u == CloseSession(t, sid, reason, tellNode)
    ensures Apply(t, CloseRule(reason, tellNode), {sid}) == u
  {
    ApplyOne(t, u, CloseRule(reason, tellNode), sid);
  }

  lemma DecideSees(t: Table, u: Table, rule: Rule, s: Session)
    requires u.nodes == t.nodes && u.clients == t.clients && u.registry == t.registry && u.now == t.now
    ensures Decide(u, rule, s) == Decide(t, rule, s)
  {
  }

  lemma ApplyOneMoreAt(t: Table, u: Table, v: Table, w: Table,
                       rule: Rule, done: set<SessionId>, sid: SessionId, x: SessionId)
    requires sid in t.sessions && sid !in done
    requires u == Apply(t, rule, done) && v == Apply(t, rule, done + {sid}) && w == Apply(u, rule, {sid})
    ensures x in v.sessions <==> x in w.sessions
    ensures x in v.sessions ==> v.sessions[x] == w.sessions[x]
    ensures x in v.log <==> x in w.log
    ensures v.Log(x) == w.Log(x)
  {
    hide Apply;
    hide Decide;
    ApplyAt(t, u, rule, done, x);
    ApplyAt(t, v, rule, done + {sid}, x);
    ApplyAt(u, w, rule, {sid}, x);
    ApplyFrame(t, u, rule, done);
    DecideSees(t, u, rule, t.sessions[sid]);
    if x == sid {
      assert u.sessions[sid] == t.sessions[sid];
    }
  }

  lemma ApplyOneMore(t: Table, u: Table, v: Table, w: Table, rule: Rule, done: set<SessionId>, sid: SessionId)
    requires sid in t.sessions && sid !in done
    requires u == Apply(t, rule, done) && v == Apply(t, rule, done + {sid}) && w == Apply(u, rule, {sid})
    ensures w == v
  {
    hide Apply;
    ApplyFrame(t, u, rule, done);
    ApplyFrame(t, v, rule, done + {sid});
    ApplyFrame(u, w, rule, {sid});
    forall x ensures (x in v.sessions <==> x in w.sessions) && (x in v.sessions ==> v.sessions[x] == w.sessions[x]) {
      ApplyOneMoreAt(t, u, v, w, rule, done, sid, x);
    }
    forall x ensures (x in v.log <==> x in w.log) && (x in v.log ==> v.log[x] == w.log[x]) {
      ApplyOneMoreAt(t, u, v, w, rule, done, sid, x);
      assert x in v.log ==> v.Log(x) == v.log[x] && w.Log(x) == w.log[x];
    }
    assert v.sessions == w.sessions;
    assert v.log == w.log;
  }

  lemma CloseOneMore(t: Table, u: Table, w: Table, reason: Reason, tellNode: bool, done: set<SessionId>, sid: SessionId)
    requires sid in t.sessions && sid !in done && u == Apply(t, CloseRule(reason, tellNode), done)
    requires w == CloseSession(u, sid, reason, tellNode)
    ensures w == Apply(t, CloseRule(reason, tellNode), done + {sid})
  {
    var rule := CloseRule(reason, tellNode);
    ApplyAt(t, u, rule, done, sid);
    CloseIsApply(u, w, reason, tellNode, sid);
    ApplyOneMore(t, u, Apply(t, rule, done + {sid}), w, rule, done, sid);
  }

  lemma ClientGoneOneMore(t: Table, u: Table, w: Table, done: set<SessionId>, sid: SessionId)
    requires sid in t.sessions && sid !in done && u == Apply(t, ClientGone, done)
    requires sid in u.sessions
    requires w == if u.sessions[sid].phase != Connected
                  then u.(sessions := u.sessions - {sid}).Record(sid, u.TellNode(u.sessions[sid], Close(Unstated)))
                  else u.(sessions := u.sessions[sid := RefreshOrphan(u, u.sessions[sid])])
    ensures w == Apply(t, ClientGone, done + {sid})
  {
    assert Apply(u, ClientGone, {sid}) == w by {
      ApplyOne(u, w, ClientGone, sid);
    }
    ApplyOneMore(t, u, Apply(t, ClientGone, done + {sid}), w, ClientGone, done, sid);
  }

  lemma NodeGoneOneMore(t: Table, u: Table, w: Table, done: set<SessionId>, sid: SessionId)
    requires sid in t.sessions && sid !in done && u == Apply(t, NodeGone, done)
    requires sid in u.sessions
    requires w == if u.sessions[sid].phase != Connected then CloseSession(u, sid, NodeOffline, false)
                  else u.(sessions := u.sessions[sid := RefreshOrphan(u, u.sessions[sid])])
    ensures w == Apply(t, NodeGone, done + {sid})
  {
    assert Apply(u, NodeGone, {sid}) == w by {
      ApplyOne(u, w, NodeGone, sid);
    }
    ApplyOneMore(t, u, Apply(t, NodeGone, done + {sid}), w, NodeGone, done, sid);
  }

  lemma RefreshAgrees(t: Table, u: Table, s: Session)
    requires u.nodes == t.nodes && u.registry == t.registry && u.now == t.now
    requires s.client !in t.clients && s.client !in u.clients
    ensures RefreshOrphan(t, s) == RefreshOrphan(u, s)
    ensures RefreshOrphan(t, s).client == s.client && RefreshOrphan(t, s).phase == s.phase
  {
  }

  /** Clients that leave one after the other leave the same table behind as all at once. */
  lemma LeaveOneMoreSession(t: Table, u: Table, v: Table, w: Table, gone: set<Client>, c: Client, x: SessionId)
    requires c !in gone && u == ClientsLeave(t, gone) && v == ClientsLeave(t, gone + {c}) && w == ClientsLeave(u, {c})
    ensures x in v.sessions <==> x in w.sessions
    ensures x in v.sessions ==> v.sessions[x] == w.sessions[x]
    ensures x in u.sessions && t.sessions[x].client == c ==> u.sessions[x] == t.sessions[x]
    ensures u.nodes == t.nodes && u.registry == t.registry
  {
    hide ClientsLeave;
    hide RefreshOrphan;
    LeaveEnvironment(t, u, gone);
    LeaveAt(t, u, gone, x);
    LeaveAt(t, v, gone + {c}, x);
    LeaveAt(u, w, {c}, x);
    if x in t.sessions {
      var s := t.sessions[x];
      if s.client in gone {
        RefreshAgrees(Departed(t, gone), Departed(t, gone + {c}), s);
      } else if s.client == c {
        RefreshAgrees(Departed(u, {c}), Departed(t, gone + {c}), s);
      }
    }
  }

  lemma LeaveOneMoreAt(t: Table, u: Table, v: Table, w: Table, gone: set<Client>, c: Client, x: SessionId)
    requires c !in gone && u == ClientsLeave(t, gone) && v == ClientsLeave(t, gone + {c}) && w == ClientsLeave(u, {c})
    ensures x in v.sessions <==> x in w.sessions
    ensures x in v.sessions ==> v.sessions[x] == w.sessions[x]
    ensures x in v.log <==> x in w.log
    ensures v.Log(x) == w.Log(x)
  {
    hide ClientsLeave;
    hide RefreshOrphan;
    hide Departed;
    LeaveOneMoreSession(t, u, v, w, gone, c, x);
    LeaveAt(t, u, gone, x);
    LeaveAt(t, v, gone + {c}, x);
    LeaveAt(u, w, {c}, x);
  }

  lemma LeaveOneMoreSessions(t: Table, u: Table, v: Table, w: Table, gone: set<Client>, c: Client)
    requires c !in gone && u == ClientsLeave(t, gone) && v == ClientsLeave(t, gone + {c}) && w == ClientsLeave(u, {c})
    ensures w.sessions == v.sessions && w.log == v.log
  {
    hide ClientsLeave;
    forall x ensures (x in v.sessions <==> x in w.sessions) && (x in v.sessions ==> v.sessions[x] == w.sessions[x]) {
      LeaveOneMoreAt(t, u, v, w, gone, c, x);
    }
    forall x ensures (x in v.log <==> x in w.log) && (x in v.log ==> v.log[x] == w.log[x]) {
      LeaveOneMoreAt(t, u, v, w, gone, c, x);
      assert x in v.log ==> v.Log(x) == v.log[x] && w.Log(x) == w.log[x];
    }
  }

  lemma DropOneMore(pending: map<SessionId, Pending>, gone: set<Client>, c: Client)
    requires c !in gone
    ensures DropClientHalves(DropClientHalves(pending, gone), {c}) == DropClientHalves(pending, gone + {c})
  {
  }

  lemma LeaveOneMore(t: Table, u: Table, v: Table, w: Table, gone: set<Client>, c: Client)
    requires c !in gone && u == ClientsLeave(t, gone) && v == ClientsLeave(t, gone + {c}) && w == ClientsLeave(u, {c})
    ensures w == v
  {
    hide ClientsLeave;
    hide DropClientHalves;
    LeaveOneMoreSessions(t, u, v, w, gone, c);
    LeaveEnvironment(t, u, gone);
    LeaveEnvironment(t, v, gone + {c});
    LeaveEnvironment(u, w, {c});
    DropOneMore(t.pending, gone, c);
    assert v.clients == w.clients;
    assert v.leftAt == w.leftAt;
  }

  /** Applying a rule changes nothing but sessions and their logs. */
  lemma ApplyFrame(t: Table, u: Table, rule: Rule, sids: set<SessionId>)
    requires u == Apply(t, rule, sids)
    ensures u == t.(sessions := u.sessions, log := u.log) && u.sessions.Keys <= t.sessions.Keys
  {
  }

  lemma LeaveNobody(t: Table)
    ensures ClientsLeave(t, {}) == t
  {
    assert Departed(t, {}).leftAt == t.leftAt;
    assert Departed(t, {}) == t;
    assert HeldByAny(t, {}) == {};
    ApplyNothing(t, ClientGone);
    assert DropClientHalves(t.pending, {}) == t.pending;
  }

  lemma LeaveKeepsOthers(t: Table, u: Table, gone: set<Client>, c: Client)
    requires u == ClientsLeave(t, gone) && c in t.clients && c !in gone
    ensures c in u.clients
  {
  }

  /** The disconnect handler up to its loops. */
  function LeftTable(t: Table, c: Client): Table {
    t.(clients := t.clients - {c}, leftAt := t.leftAt[c := t.now])
  }

  lemma LeaveIsApply(t: Table, c: Client)
    ensures Departed(t, {c}) == LeftTable(t, c) && HeldByAny(t, {c}) == t.Held(c)
  {
    assert Departed(t, {c}).leftAt == LeftTable(t, c).leftAt;
  }

  lemma RecordTwice(t: Table, sid: SessionId, a: seq<Entry>, b: seq<Entry>)
    ensures t.Record(sid, a).Record(sid, b) == t.Record(sid, a + b)
  {
    assert (t.Log(sid) + a) + b == t.Log(sid) + (a + b);
    assert t.Record(sid, a).Record(sid, b).log == t.Record(sid, a + b).log;
  }

  class Signalling {
    var sessions: map<SessionId, Session>
    var sessionsByNodeId: map<NodeId, set<SessionId>>
    var sessionsByUserId: map<UserId, set<SessionId>>
    var sessionsByClient: map<Client, set<SessionId>>
    var signalSocketsByNodeId: map<NodeId, set<Client>>
    var pendingResumes: map<SessionId, Pending>

    // the sockets connected now, the registry of node sockets and the clock
    var clients: set<Client>
    var nodes: set<NodeSocket>
    var registry: map<NodeId, NodeSocket>
    var now: int

    // history
    ghost var log: map<SessionId, seq<Entry>>
    ghost var leftAt: map<Client, int>
    ghost var grants: map<Client, nat>

    ghost function Abs(): Table
      reads this
    {
      Table(sessions, pendingResumes, clients, nodes, registry, now, log, leftAt, grants)
    }

    /** Every index is exactly the inverse image of what it indexes. */
    ghost predicate Valid()
      reads this
    {
      && Indexes(sessionsByNodeId, sessionsByUserId, sessionsByClient) == IndexesOf(sessions)
      && signalSocketsByNodeId == Invert(NodeOfClient(clients))
    }

    constructor ()
      ensures Valid() && Abs() == EMPTY
    {
      sessions, sessionsByNodeId, sessionsByUserId, sessionsByClient := map[], map[], map[], map[];
      signalSocketsByNodeId, pendingResumes := map[], map[];
      clients, nodes, registry, now := {}, {}, map[], 0;
      log, leftAt, grants := map[], map[], map[];
    }

    // ---------- bookkeeping ----------

    ghost method Record(sid: SessionId, entries: seq<Entry>)
      modifies `log
      ensures Abs() == old(Abs()).Record(sid, entries)
    {
      log := Abs().Record(sid, entries).log;
    }

    method AddSession(sid: SessionId, s: Session)
      requires Valid() && sid !in sessions
      modifies `sessions, `sessionsByNodeId, `sessionsByUserId, `sessionsByClient
      ensures Valid() && sessions == old(sessions)[sid := s]
    {
      AddKeepsIndexes(sessions, Indexes(sessionsByNodeId, sessionsByUserId, sessionsByClient), sid, s);
      sessions := sessions[sid := s];
      sessionsByNodeId := IndexAdd(sessionsByNodeId, s.nodeId, sid);
      sessionsByUserId := IndexAdd(sessionsByUserId, s.userId, sid);
      sessionsByClient := IndexAdd(sessionsByClient, s.client, sid);
    }

    method ForgetSession(sid: SessionId)
      requires Valid()
      modifies `sessions, `sessionsByNodeId, `sessionsByUserId, `sessionsByClient
      ensures Valid() && sessions == old(sessions) - {sid}
    {
      if sid in sessions {
        var s := sessions[sid];
        RemoveKeepsIndexes(sessions, Indexes(sessionsByNodeId, sessionsByUserId, sessionsByClient), sid, s);
        sessions := sessions - {sid};
        sessionsByNodeId := IndexRemove(sessionsByNodeId, s.nodeId, sid);
        sessionsByUserId := IndexRemove(sessionsByUserId, s.userId, sid);
        sessionsByClient := IndexRemove(sessionsByClient, s.client, sid);
      }
    }

    /** Updates fields of a session that no index reads. */
    method UpdateSession(sid: SessionId, s: Session)
      requires Valid() && sid in sessions
      requires s.nodeId == sessions[sid].nodeId && s.userId == sessions[sid].userId && s.client == sessions[sid].client
      modifies `sessions
      ensures Valid() && sessions == old(sessions)[sid := s]
    {
      UpdateKeepsIndexes(sessions, sid, s);
      sessions := sessions[sid := s];
    }

    method ReassignSessionClient(sid: SessionId, c: Client)
      requires Valid() && sid in sessions
      modifies `sessions, `sessionsByClient
      ensures Valid() && sessions == old(sessions)[sid := old(sessions)[sid].(client := c)]
    {
      ReassignKeepsIndexes(sessions, Indexes(sessionsByNodeId, sessionsByUserId, sessionsByClient), sid, c);
      sessionsByClient := IndexRemove(sessionsByClient, sessions[sid].client, sid);
      sessions := sessions[sid := sessions[sid].(client := c)];
      sessionsByClient := IndexAdd(sessionsByClient, c, sid);
    }

    /** The indexed count is the brute-force count. */
    method CountSessionsForClient(c: Client) returns (n: nat)
      requires Valid()
      ensures n == |Abs().Held(c)|
    {
      LookupSessions(sessions, Indexes(sessionsByNodeId, sessionsByUserId, sessionsByClient));
      assert Lookup(sessionsByClient, c) == Abs().Held(c);
      n := |Lookup(sessionsByClient, c)|;
    }

    /** Emits to the session's node socket, or to the node's registered one when that socket is gone. */
    method TellSessionNode(sid: SessionId, s: Session, m: Message)
      modifies `log
      ensures Abs() == old(Abs()).Record(sid, old(Abs()).TellNode(s, m))
    {
      if s.node in nodes {
        Record(sid, [ToNode(s.node, m)]);
      } else if s.nodeId in registry && registry[s.nodeId] in nodes {
        Record(sid, [ToNode(registry[s.nodeId], m)]);
      } else {
        Record(sid, []);
      }
    }

    method CloseSession(sid: SessionId, reason: Reason, tellNode: bool)
      requires Valid()
      modifies this
      ensures Valid() && Abs() == Signal.CloseSession(old(Abs()), sid, reason, tellNode)
    {
      hide IndexesOf;
      if sid !in sessions {
        return;
      }
      var s := sessions[sid];
      ghost var t, told := Abs(), if tellNode then Abs().TellNode(s, Close(Unstated)) else [];
      if tellNode {
        TellSessionNode(sid, s, Close(Unstated));
      }
      Record(sid, [ToClient(s.client, Close(reason))]);
      RecordTwice(t, sid, told, [ToClient(s.client, Close(reason))]);
      assert told == [] ==> told + [ToClient(s.client, Close(reason))] == [ToClient(s.client, Close(reason))];
      ForgetSession(sid);
    }

    method RefreshOrphanState(sid: SessionId)
      requires Valid() && sid in sessions
      modifies `sessions
      ensures Valid()
      ensures Abs() == old(Abs()).(sessions := old(sessions)[sid := RefreshOrphan(old(Abs()), old(sessions)[sid])])
    {
      var s := sessions[sid];
      var nodeOnline := s.node in nodes || (s.nodeId in registry && registry[s.nodeId] in nodes);
      var clientOnline := s.client in clients;
      if nodeOnline && clientOnline {
        UpdateSession(sid, s.(orphan := None));
      } else if s.orphan.None? {
        UpdateSession(sid, s.(orphan := Some(now + NODE_OFFLINE_GRACE_MS)));
      }
    }

    method CloseNext(ghost t: Table, ghost done: set<SessionId>, sid: SessionId, reason: Reason, tellNode: bool)
      requires Valid() && Abs() == Apply(t, CloseRule(reason, tellNode), done) && sid in t.sessions && sid !in done
      modifies this
      ensures Valid() && Abs() == Apply(t, CloseRule(reason, tellNode), done + {sid})
    {
      hide IndexesOf;
      ghost var u := Abs();
      CloseSession(sid, reason, tellNode);
      CloseOneMore(t, u, Abs(), reason, tellNode, done, sid);
    }

    /** Closes sessions one by one over a snapshot. */
    method CloseAll(victims: set<SessionId>, reason: Reason, tellNode: bool)
      requires Valid() && victims <= sessions.Keys
      modifies this
      ensures Valid() && Abs() == Apply(old(Abs()), CloseRule(reason, tellNode), victims)
    {
      hide IndexesOf;
      hide Apply;
      ghost var t := Abs();
      ApplyNothing(t, CloseRule(reason, tellNode));
      var remaining := victims;
      ghost var done: set<SessionId> := {};
      while remaining != {}
        invariant Valid() && Abs() == Apply(t, CloseRule(reason, tellNode), done)
        invariant remaining + done == victims && remaining !! done
      {
        var sid :| sid in remaining;
        CloseNext(t, done, sid, reason, tellNode);
        remaining, done := remaining - {sid}, done + {sid};
      }
      assert done == victims;
    }

    // ---------- sockets coming and going ----------

    method ClientConnect(c: Client)
      requires Valid() && c !in clients
      modifies this
      ensures Valid() && Abs() == ClientJoin(old(Abs()), c)
    {
      AddInverts(NodeOfClient(clients), c, c.nodeId);
      assert NodeOfClient(clients + {c}) == NodeOfClient(clients)[c := c.nodeId];
      signalSocketsByNodeId := IndexAdd(signalSocketsByNodeId, c.nodeId, c);
      clients := clients + {c};
    }

    method UnlistClient(c: Client)
      requires Valid() && c in clients
      modifies this
      ensures Valid() && Abs() == LeftTable(old(Abs()), c)
    {
      RemoveInverts(NodeOfClient(clients), c);
      assert NodeOfClient(clients - {c}) == NodeOfClient(clients) - {c};
      signalSocketsByNodeId := IndexRemove(signalSocketsByNodeId, c.nodeId, c);
      clients := clients - {c};
      leftAt := leftAt[c := now];
    }

    /** One session of a browser that left: a negotiation ends, a CONNECTED one waits out the grace period. */
    method ClientGoneFrom(ghost t: Table, ghost done: set<SessionId>, sid: SessionId)
      requires Valid() && Abs() == Apply(t, ClientGone, done) && sid in t.sessions && sid !in done
      modifies this
      ensures Valid() && Abs() == Apply(t, ClientGone, done + {sid})
    {
      hide IndexesOf;
      ghost var u := Abs();
      ApplyAt(t, u, ClientGone, done, sid);
      var s := sessions[sid];
      if s.phase != Connected {
        TellSessionNode(sid, s, Close(Unstated));
        ForgetSession(sid);
      } else {
        RefreshOrphanState(sid);
      }
      ClientGoneOneMore(t, u, Abs(), done, sid);
    }

    method DropClientHalf(c: Client)
      requires Valid()
      modifies `pendingResumes
      ensures Valid() && pendingResumes == DropClientHalves(old(pendingResumes), {c})
    {
      ghost var target := DropClientHalves(pendingResumes, {c});
      var before := pendingResumes;
      var remaining := before.Keys;
      while remaining != {}
        invariant remaining <= before.Keys && pendingResumes.Keys <= before.Keys
        invariant forall sid | sid in remaining :: sid in pendingResumes && pendingResumes[sid] == before[sid]
        invariant forall sid | sid in before && sid !in remaining ::
                    (sid in pendingResumes <==> sid in target) && (sid in target ==> pendingResumes[sid] == target[sid])
      {
        var sid :| sid in remaining;
        var p := before[sid];
        if p.client == Some(c) {
          if p.node.None? {
            pendingResumes := pendingResumes - {sid};
          } else {
            pendingResumes := pendingResumes[sid := p.(client := None)];
          }
        }
        remaining := remaining - {sid};
      }
    }

    method ClientDisconnect(c: Client)
      requires Valid() && c in clients
      modifies this
      ensures Valid() && Abs() == ClientsLeave(old(Abs()), {c})
    {
      hide IndexesOf;
      hide Apply;
      ghost var t := Abs();
      LeaveIsApply(t, c);
      UnlistClient(c);
      LookupSessions(sessions, Indexes(sessionsByNodeId, sessionsByUserId, sessionsByClient));
      var remaining := Lookup(sessionsByClient, c);
      assert remaining == t.Held(c);
      ghost var left, done := Abs(), {};
      ApplyNothing(left, ClientGone);
      while remaining != {}
        invariant Valid() && Abs() == Apply(left, ClientGone, done)
        invariant remaining + done == t.Held(c) && remaining !! done
      {
        var sid :| sid in remaining;
        ClientGoneFrom(left, done, sid);
        remaining, done := remaining - {sid}, done + {sid};
      }
      assert done == t.Held(c);
      ApplyFrame(left, Abs(), ClientGone, done);
      DropClientHalf(c);
    }

    method NodeConnect(ns: NodeSocket, transient: bool)
      requires Valid()
      modifies this
      ensures Valid() && Abs() == NodeJoin(old(Abs()), ns, transient)
    {
      nodes := nodes + {ns};
      if !transient {
        registry := registry[ns.nodeId := ns];
      }
    }

    /** A socket that is already attached, or even gone by now, becomes its node's registered one. */
    method OnRegister(ns: NodeSocket)
      requires Valid()
      modifies this
      ensures Valid() && Abs() == NodeRegister(old(Abs()), ns)
    {
      registry := registry[ns.nodeId := ns];
    }

    /** One session of a node socket that dropped. */
    method NodeGoneFrom(ghost t: Table, ghost done: set<SessionId>, sid: SessionId)
      requires Valid() && Abs() == Apply(t, NodeGone, done) && sid in t.sessions && sid !in done
      modifies this
      ensures Valid() && Abs() == Apply(t, NodeGone, done + {sid})
    {
      hide IndexesOf;
      ghost var u := Abs();
      ApplyAt(t, u, NodeGone, done, sid);
      if sessions[sid].phase != Connected {
        CloseSession(sid, NodeOffline, false);
      } else {
        RefreshOrphanState(sid);
      }
      NodeGoneOneMore(t, u, Abs(), done, sid);
    }

    method DropNodeHalf(ns: NodeSocket)
      requires Valid()
      modifies `pendingResumes
      ensures Valid() && pendingResumes == DropNodeHalves(old(pendingResumes), ns)
    {
      ghost var target := DropNodeHalves(pendingResumes, ns);
      var before := pendingResumes;
      var remaining := before.Keys;
      while remaining != {}
        invariant remaining <= before.Keys && pendingResumes.Keys <= before.Keys
        invariant forall sid | sid in remaining :: sid in pendingResumes && pendingResumes[sid] == before[sid]
        invariant forall sid | sid in before && sid !in remaining ::
                    (sid in pendingResumes <==> sid in target) && (sid in target ==> pendingResumes[sid] == target[sid])
      {
        var sid :| sid in remaining;
        var p := before[sid];
        if p.node == Some(ns) {
          if p.client.None? {
            pendingResumes := pendingResumes - {sid};
          } else {
            pendingResumes := pendingResumes[sid := p.(node := None)];
          }
        }
        remaining := remaining - {sid};
      }
    }

    /** The sessions of the node that are bound to the socket that dropped. */
    method SweepNodeSocket(ns: NodeSocket)
      requires Valid()
      modifies this
      ensures Valid() && Abs() == Apply(old(Abs()), NodeGone, BoundTo(old(Abs()), ns))
    {
      hide IndexesOf;
      hide Apply;
      ghost var t := Abs();
      LookupSessions(sessions, Indexes(sessionsByNodeId, sessionsByUserId, sessionsByClient));
      var remaining := set sid | sid in Lookup(sessionsByNodeId, ns.nodeId) && sessions[sid].node == ns;
      ghost var bound, done := BoundTo(t, ns), {};
      assert remaining == bound;
      ApplyNothing(t, NodeGone);
      while remaining != {}
        invariant Valid() && Abs() == Apply(t, NodeGone, done)
        invariant remaining + done == bound && remaining !! done
      {
        var sid :| sid in remaining;
        NodeGoneFrom(t, done, sid);
        remaining, done := remaining - {sid}, done + {sid};
      }
      assert done == bound;
    }

    method NodeDisconnect(ns: NodeSocket)
      requires Valid()
      modifies this
      ensures Valid() && Abs() == NodeLeave(old(Abs()), ns)
    {
      hide IndexesOf;
      hide Apply;
      hide DropNodeHalves;
      ghost var t := Abs();
      nodes := nodes - {ns};
      ghost var left := Abs();
      assert BoundTo(left, ns) == BoundTo(t, ns);
      SweepNodeSocket(ns);
      ApplyFrame(left, Abs(), NodeGone, BoundTo(t, ns));
      DropNodeHalf(ns);
      if ns.nodeId in registry && registry[ns.nodeId] == ns {
        registry := registry - {ns.nodeId};
      }
    }

    // ---------- a browser asks for a session ----------

    method BeginRequest(c: Client, webrtcCapable: bool) returns (reply: Option<Reply>)
      requires Valid()
      ensures reply == BeginReply(Abs(), c, webrtcCapable)
    {
      var count := CountSessionsForClient(c);
      if count >= MAX_SESSIONS_PER_SOCKET {
        return Some(TooMany);
      }
      if !(c.nodeId in registry && registry[c.nodeId] in nodes) {
        return Some(Offline);
      }
      return if webrtcCapable then None else Some(Unsupported);
    }

    /** The handler resumes after the access check; everything it checked before may have changed. */
    method FinishRequest(c: Client, sid: SessionId, allowed: bool, hasToken: bool) returns (reply: Reply)
      requires Valid() && sid !in sessions
      modifies this
      ensures Valid() && Abs() == Signal.FinishRequest(old(Abs()), c, sid, allowed, hasToken)
      ensures reply == FinishReply(old(Abs()), c, sid, allowed, hasToken)
    {
      if !allowed {
        if c in clients {
          ClientDisconnect(c);
        }
        return Denied;
      }
      if !hasToken {
        return NotRegistered;
      }
      if c !in clients {
        return Gone;
      }
      var count := CountSessionsForClient(c);
      if count >= MAX_SESSIONS_PER_SOCKET {
        return TooMany;
      }
      if !(c.nodeId in registry && registry[c.nodeId] in nodes) {
        return Offline;
      }
      StartSession(c, registry[c.nodeId], sid);
      return Granted(sid);
    }

    method StartSession(c: Client, ns: NodeSocket, sid: SessionId)
      requires Valid() && sid !in sessions
      modifies this
      ensures Valid()
      ensures Abs() == old(Abs()).(sessions := old(sessions)[sid :=
                Session(c, ns, c.nodeId, c.userId, OpenSent, Some(now + NEGOTIATION_TIMEOUT_MS), None, now)])
              .Record(sid, [ToNode(ns, Open)])
    {
      hide IndexesOf;
      AddSession(sid, Session(c, ns, c.nodeId, c.userId, Requested, None, None, now));
      Record(sid, [ToNode(ns, Open)]);
      UpdateSession(sid, Transition(sessions[sid], OpenSent));
      UpdateSession(sid, sessions[sid].(negotiation := Some(now + NEGOTIATION_TIMEOUT_MS)));
    }

    // ---------- negotiation ----------

    method OnOffer(c: Client, sid: SessionId)
      requires Valid()
      modifies this
      ensures Valid() && Abs() == ClientOffer(old(Abs()), c, sid)
    {
      if sid in sessions && sessions[sid].client == c && sessions[sid].phase == OpenSent {
        UpdateSession(sid, Transition(sessions[sid], OfferReceived));
        TellSessionNode(sid, sessions[sid], Offer);
      }
    }

    method OnAnswer(ns: NodeSocket, sid: SessionId)
      requires Valid()
      modifies this
      ensures Valid() && Abs() == NodeAnswer(old(Abs()), ns, sid)
    {
      if sid in sessions && sessions[sid].nodeId == ns.nodeId && sessions[sid].phase == OfferReceived {
        UpdateSession(sid, Transition(sessions[sid], Answered));
        Record(sid, [ToClient(sessions[sid].client, Answer)]);
      }
    }

    method OnConnected(ns: NodeSocket, sid: SessionId)
      requires Valid()
      modifies this
      ensures Valid() && Abs() == NodeConnected(old(Abs()), ns, sid)
    {
      if sid in sessions && sessions[sid].nodeId == ns.nodeId {
        UpdateSession(sid, Transition(sessions[sid], Connected));
        UpdateSession(sid, sessions[sid].(negotiation := None));
        Record(sid, [BecameConnected]);
      }
    }

    method OnNodeHangup(ns: NodeSocket, sid: SessionId, reason: Reason)
      requires Valid()
      modifies this
      ensures Valid() && Abs() == NodeHangup(old(Abs()), ns, sid, reason)
    {
      if sid in sessions && sessions[sid].nodeId == ns.nodeId {
        Record(sid, [ToClient(sessions[sid].client, Close(reason))]);
        ForgetSession(sid);
      }
    }

    method OnClientHangup(c: Client, sid: SessionId)
      requires Valid()
      modifies this
      ensures Valid() && Abs() == ClientHangup(old(Abs()), c, sid)
    {
      if sid in sessions && sessions[sid].client == c {
        TellSessionNode(sid, sessions[sid], Close(Unstated));
        ForgetSession(sid);
      }
    }

    // ---------- resumption ----------

    method AdoptSession(sid: SessionId, nodeId: NodeId, n: NodeSocket, c: Client)
      requires Valid() && sid !in sessions
      modifies this
      ensures Valid()
      ensures Abs() == old(Abs()).(sessions := old(sessions)[sid := Adopted(old(Abs()), nodeId, n, c)],
                                   grants := old(grants)[c := old(Abs()).Grants(c) + 1]).Record(sid, [BecameConnected])
    {
      hide IndexesOf;
      grants := grants[c := Abs().Grants(c) + 1];
      AddSession(sid, Session(c, n, nodeId, c.userId, Connected, None, None, now));
      Record(sid, [BecameConnected]);
    }

    /** The entry an arriving half joins: the waiting one of the same node, or a new one. */
    method WaitFor(sid: SessionId, nodeId: NodeId) returns (p: Pending)
      requires Valid()
      modifies `pendingResumes
      ensures Valid() && pendingResumes == old(pendingResumes)[sid := p]
      ensures p == if sid in old(pendingResumes) && old(pendingResumes)[sid].nodeId == nodeId
                   then old(pendingResumes)[sid]
                   else NewPending(old(Abs()), nodeId)
    {
      hide IndexesOf;
      if sid in pendingResumes && pendingResumes[sid].nodeId != nodeId {
        pendingResumes := pendingResumes - {sid};
      }
      if sid !in pendingResumes {
        pendingResumes := pendingResumes[sid := Pending(nodeId, None, None, Some(now + NODE_OFFLINE_GRACE_MS), now)];
      }
      p := pendingResumes[sid];
    }

    method OfferResume(sid: SessionId, nodeId: NodeId, half: Half) returns (met: bool)
      requires Valid() && sid !in sessions
      modifies this
      ensures Valid() && Abs() == Signal.OfferResume(old(Abs()), sid, nodeId, half)
      ensures met <==> sid in sessions
    {
      hide IndexesOf;
      ghost var before := pendingResumes;
      var base := WaitFor(sid, nodeId);
      var p := WithHalf(base, half);
      if p.node.None? || p.client.None? {
        pendingResumes := pendingResumes[sid := p];
        assert pendingResumes == before[sid := p];
        return false;
      }
      pendingResumes := pendingResumes - {sid};
      assert pendingResumes == before - {sid};
      AdoptSession(sid, nodeId, p.node.value, p.client.value);
      return true;
    }

    method ResumeLive(c: Client, sid: SessionId)
      requires Valid() && sid in sessions
      modifies this
      ensures Valid()
      ensures Abs() == old(Abs()).(
                sessions := old(sessions)[sid := RefreshOrphan(old(Abs()), old(sessions)[sid].(client := c))],
                grants := old(grants)[c := old(Abs()).Grants(c) + 1])
    {
      hide IndexesOf;
      grants := grants[c := Abs().Grants(c) + 1];
      ReassignSessionClient(sid, c);
      RefreshOrphanState(sid);
    }

    method OnResume(c: Client, sid: SessionId) returns (accepted: bool)
      requires Valid()
      modifies this
      ensures Valid() && Abs() == ClientResume(old(Abs()), c, sid)
      ensures accepted <==> !ResumeRefused(old(Abs()), c, sid)
    {
      hide IndexesOf;
      hide RefreshOrphan;
      hide Signal.OfferResume;
      if sid == "" {
        return false;
      }
      if sid in sessions {
        var s := sessions[sid];
        if s.nodeId != c.nodeId || s.userId != c.userId || s.phase != Connected {
          return false;
        }
        ResumeLive(c, sid);
        return true;
      }
      var _ := OfferResume(sid, c.nodeId, ClientHalf(c));
      return true;
    }

    method OnAnnounceOne(ns: NodeSocket, sid: SessionId)
      requires Valid()
      modifies this
      ensures Valid() && Abs() == AnnounceOne(old(Abs()), ns, sid)
    {
      hide IndexesOf;
      if sid !in sessions {
        var _ := OfferResume(sid, ns.nodeId, NodeHalf(ns));
      } else if sessions[sid].nodeId != ns.nodeId {
        Record(sid, [ToNode(ns, Close(Unstated))]);
      } else {
        UpdateSession(sid, sessions[sid].(node := ns));
        RefreshOrphanState(sid);
      }
    }

    method OnAnnounce(ns: NodeSocket, sids: seq<SessionId>)
      requires Valid()
      modifies this
      ensures Valid() && Abs() == Announce(old(Abs()), ns, sids)
    {
      hide Apply;
      hide AnnounceOne;
      ghost var t := Abs();
      var announced := Distinct(sids);
      for i := 0 to |announced|
        invariant Valid() && Abs() == AnnounceEach(t, ns, announced[..i])
      {
        OnAnnounceOne(ns, announced[i]);
        assert announced[..i + 1][..i] == announced[..i];
      }
      assert announced[..|announced|] == announced;
      LookupSessions(sessions, Indexes(sessionsByNodeId, sessionsByUserId, sessionsByClient));
      var missing := set sid | sid in Lookup(sessionsByNodeId, ns.nodeId) && sessions[sid].phase == Connected
        && sid !in sids;
      assert missing == Unannounced(Abs(), ns.nodeId, sids);
      CloseAll(missing, NodeOffline, false);
    }

    method OnRecheck(sid: SessionId, allowed: bool)
      requires Valid()
      modifies this
      ensures Valid() && Abs() == Recheck(old(Abs()), sid, allowed)
    {
      if !allowed && sid in sessions {
        CloseSession(sid, AccessRevoked, true);
      }
    }

    // ---------- timers ----------

    method OnNegotiationTimer(sid: SessionId)
      requires Valid()
      modifies this
      ensures Valid() && Abs() == FireNegotiation(old(Abs()), sid)
    {
      if sid !in sessions || sessions[sid].phase == Connected {
        return;
      }
      CloseSession(sid, NegotiationTimeout, true);
    }

    method OnOrphanTimer(sid: SessionId)
      requires Valid() && sid in sessions
      modifies this
      ensures Valid() && Abs() == FireOrphan(old(Abs()), sid)
    {
      CloseSession(sid, NodeOffline, true);
    }

    method OnResumeTimer(sid: SessionId)
      requires Valid() && sid in pendingResumes
      modifies this
      ensures Valid() && Abs() == FireResume(old(Abs()), sid)
    {
      hide IndexesOf;
      var p := pendingResumes[sid];
      pendingResumes := pendingResumes - {sid};
      ghost var told, closed := [], [];
      if p.node.Some? && p.node.value in nodes {
        told := [ToNode(p.node.value, Close(Unstated))];
      }
      if p.client.Some? {
        closed := [ToClient(p.client.value, Close(NodeOffline))];
      }
      Record(sid, told + closed);
    }

    // ---------- access is withdrawn ----------

    method DisconnectAll(users: set<Client>)
      requires Valid() && users <= clients
      modifies this
      ensures Valid() && Abs() == ClientsLeave(old(Abs()), users)
    {
      hide IndexesOf;
      hide ClientsLeave;
      ghost var t := Abs();
      var remaining := users;
      ghost var gone := {};
      LeaveNobody(t);
      while remaining != {}
        invariant Valid() && Abs() == ClientsLeave(t, gone)
        invariant remaining + gone == users && remaining !! gone
      {
        var c :| c in remaining;
        ghost var u := Abs();
        LeaveKeepsOthers(t, u, gone, c);
        ClientDisconnect(c);
        LeaveOneMore(t, u, ClientsLeave(t, gone + {c}), Abs(), gone, c);
        remaining, gone := remaining - {c}, gone + {c};
      }
      assert gone == users;
    }

    method SocketsOfUser(nodeId: NodeId, userId: UserId) returns (users: set<Client>)
      requires Valid()
      ensures users == UserClients(Abs(), nodeId, userId)
    {
      LookupInverts(NodeOfClient(clients), nodeId);
      users := set c | c in Lookup(signalSocketsByNodeId, nodeId) && c.userId == userId;
    }

    method CloseSessionsOfUser(nodeId: NodeId, userId: UserId)
      requires Valid()
      modifies this
      ensures Valid()
      ensures Abs() == Apply(old(Abs()), CloseRule(AccessRevoked, true), UserSessions(old(Abs()), nodeId, userId))
    {
      hide IndexesOf;
      hide Apply;
      LookupSessions(sessions, Indexes(sessionsByNodeId, sessionsByUserId, sessionsByClient));
      var victims := set sid | sid in Lookup(sessionsByUserId, userId) && sessions[sid].nodeId == nodeId;
      assert victims == UserSessions(Abs(), nodeId, userId);
      CloseAll(victims, AccessRevoked, true);
    }

    method CloseForUser(nodeId: NodeId, userId: UserId)
      requires Valid()
      modifies this
      ensures Valid() && Abs() == RevokeUser(old(Abs()), nodeId, userId)
    {
      hide IndexesOf;
      hide Apply;
      hide ClientsLeave;
      hide UserSessions;
      ghost var t := Abs();
      CloseSessionsOfUser(nodeId, userId);
      ApplyFrame(t, Abs(), CloseRule(AccessRevoked, true), UserSessions(t, nodeId, userId));
      var users := SocketsOfUser(nodeId, userId);
      DisconnectAll(users);
    }

    method CloseForLogins(logins: set<int>)
      requires Valid()
      modifies this
      ensures Valid() && Abs() == RevokeLogins(old(Abs()), logins)
    {
      var victims := set sid | sid in sessions && sessions[sid].client.login in logins;
      assert victims == LoginSessions(Abs(), logins);
      CloseAll(victims, SessionRevoked, true);
    }

    /** Time passes. */
    method Advance(to: int)
      requires Valid()
      modifies `now
      ensures Valid() && Abs() == old(Abs()).(now := to)
    {
      now := to;
    }
  }
}
