/**
 The WebRTC signalling session table as a transition system.

 One value of `Table` is the state between two turns of the event loop; one function below is the code that runs in
 one turn (everything between two awaits).  `SignalTable.dfy` proves that the imperative handlers compute these
 functions; `SignalInvariant.dfy` and `SignalRuns.dfy` prove what every run of them keeps.
 */
module Signal {
  import opened InsertionOrder
  import opened Options

  type NodeId = string
  type UserId = int
  type SessionId = string

  const MAX_SESSIONS_PER_SOCKET := 4
  const NEGOTIATION_TIMEOUT_MS := 30 * 1000
  const NODE_OFFLINE_GRACE_MS := 60 * 1000

  /** A browser's signalling socket.  Its node, user and fleet login are fixed when it connects. */
  datatype Client = Client(id: nat, nodeId: NodeId, userId: UserId, login: int)

  /** A node's control socket. */
  datatype NodeSocket = NodeSocket(id: nat, nodeId: NodeId)

  datatype Phase = Requested | OpenSent | OfferReceived | Answered | Connected | Closing | Closed

  function Rank(p: Phase): nat {
    match p
    case Requested => 0
    case OpenSent => 1
    case OfferReceived => 2
    case Answered => 3
    case Connected => 4
    case Closing => 5
    case Closed => 6
  }

  /**
   A timer is the instant at which it fires, or None when it is not armed.  `createdAt` is bookkeeping of the model.
   */
  datatype Session = Session(
    client: Client, node: NodeSocket, nodeId: NodeId, userId: UserId,
    phase: Phase, negotiation: Option<int>, orphan: Option<int>, createdAt: int)

  /** One half of a session waiting for the other half. */
  datatype Pending = Pending(
    nodeId: NodeId, node: Option<NodeSocket>, client: Option<Client>, timer: Option<int>, createdAt: int)

  datatype Half = NodeHalf(node: NodeSocket) | ClientHalf(client: Client)

  datatype Reason = Unstated | NodeOffline | NegotiationTimeout | AccessRevoked | SessionRevoked | NodeFailed

  datatype Message = Open | Offer | Answer | Close(reason: Reason)

  /** What the coordinator did for one session id: a message it emitted, or the session becoming CONNECTED. */
  datatype Entry = ToNode(node: NodeSocket, sent: Message) | ToClient(client: Client, sent: Message) | BecameConnected

  /**
   The sockets connected at the moment (`clients`, `nodes`), each node's registered control socket and the clock are
   the environment.  `log`, `leftAt` and `grants` are history the code does not keep: what was done per session id, when
   a client disconnected, and how many sessions were resumed or adopted onto a client.
   */
  datatype Table = Table(
    sessions: map<SessionId, Session>,
    pending: map<SessionId, Pending>,
    clients: set<Client>,
    nodes: set<NodeSocket>,
    registry: map<NodeId, NodeSocket>,
    now: int,
    log: map<SessionId, seq<Entry>>,
    leftAt: map<Client, int>,
    grants: map<Client, nat>)
  {
    function Log(sid: SessionId): seq<Entry> {
      if sid in log then log[sid] else []
    }

    function Grants(c: Client): nat {
      if c in grants then grants[c] else 0
    }

    function Record(sid: SessionId, entries: seq<Entry>): Table {
      this.(log := log[sid := Log(sid) + entries])
    }

    /** The sessions held by a client, counted by brute force. */
    function Held(c: Client): set<SessionId> {
      set sid | sid in sessions && sessions[sid].client == c
    }

    function Registered(n: NodeId): Option<NodeSocket> {
      if n in registry && registry[n] in nodes then Some(registry[n]) else None
    }

    /** The socket a message for the session's node goes to. */
    function NodeTarget(s: Session): Option<NodeSocket> {
      if s.node in nodes then Some(s.node) else Registered(s.nodeId)
    }

    function TellNode(s: Session, m: Message): seq<Entry> {
      match NodeTarget(s)
      case Some(n) => [ToNode(n, m)]
      case None => []
    }
  }

  const EMPTY := Table(map[], map[], {}, {}, map[], 0, map[], map[], map[])

  function Transition(s: Session, next: Phase): Session {
    if Rank(next) < Rank(s.phase) then s else s.(phase := next)
  }

  function CloseEntries(t: Table, s: Session, reason: Reason, tellNode: bool): seq<Entry> {
    (if tellNode then t.TellNode(s, Close(Unstated)) else []) + [ToClient(s.client, Close(reason))]
  }

  /** Both ends online clears the grace timer; otherwise it is armed unless it already runs. */
  function RefreshOrphan(t: Table, s: Session): Session {
    if t.NodeTarget(s).Some? && s.client in t.clients then s.(orphan := None)
    else if s.orphan.Some? then s
    else s.(orphan := Some(t.now + NODE_OFFLINE_GRACE_MS))
  }

  // ---------- one rule applied to a set of sessions ----------

  /** What a loop over sessions does to each of them. */
  datatype Rule = CloseRule(reason: Reason, tellNode: bool) | ClientGone | NodeGone

  datatype Change = Keep(session: Session) | Drop(sent: seq<Entry>)

  function Decide(t: Table, rule: Rule, s: Session): Change {
    match rule
    case CloseRule(reason, tellNode) => Drop(CloseEntries(t, s, reason, tellNode))
    case ClientGone =>
      if s.phase != Connected then Drop(t.TellNode(s, Close(Unstated))) else Keep(RefreshOrphan(t, s))
    case NodeGone =>
      if s.phase != Connected then Drop(CloseEntries(t, s, NodeOffline, false)) else Keep(RefreshOrphan(t, s))
  }

  function Ended(t: Table, rule: Rule, sids: set<SessionId>): set<SessionId> {
    set sid | sid in t.sessions && sid in sids && Decide(t, rule, t.sessions[sid]).Drop?
  }

  function Apply(t: Table, rule: Rule, sids: set<SessionId>): Table {
    var ended := Ended(t, rule, sids);
    t.(sessions := map sid | sid in t.sessions && sid !in ended ::
         if sid in sids then Decide(t, rule, t.sessions[sid]).session else t.sessions[sid],
       log := map sid | sid in t.log.Keys + ended ::
         if sid in ended then t.Log(sid) + Decide(t, rule, t.sessions[sid]).sent else t.log[sid])
  }

  function CloseSession(t: Table, sid: SessionId, reason: Reason, tellNode: bool): Table {
    if sid !in t.sessions then t
    else t.(sessions := t.sessions - {sid}).Record(sid, CloseEntries(t, t.sessions[sid], reason, tellNode))
  }

  // ---------- sockets coming and going ----------

  function ClientJoin(t: Table, c: Client): Table {
    t.(clients := t.clients + {c})
  }

  function DropClientHalves(pending: map<SessionId, Pending>, gone: set<Client>): map<SessionId, Pending> {
    map sid | sid in pending && !(HasClientIn(pending[sid], gone) && pending[sid].node.None?) ::
      if HasClientIn(pending[sid], gone) then pending[sid].(client := None) else pending[sid]
  }

  predicate HasClientIn(p: Pending, cs: set<Client>) {
    p.client.Some? && p.client.value in cs
  }

  function Departed(t: Table, gone: set<Client>): Table {
    t.(clients := t.clients - gone,
       leftAt := map c | c in t.leftAt.Keys + gone :: if c in gone then t.now else t.leftAt[c])
  }

  function HeldByAny(t: Table, cs: set<Client>): set<SessionId> {
    set sid | sid in t.sessions && t.sessions[sid].client in cs
  }

  /** The disconnect handler, run for each client of `gone`. */
  function ClientsLeave(t: Table, gone: set<Client>): Table {
    Apply(Departed(t, gone), ClientGone, HeldByAny(t, gone)).(pending := DropClientHalves(t.pending, gone))
  }

  function NodeJoin(t: Table, ns: NodeSocket, transient: bool): Table {
    t.(nodes := t.nodes + {ns}, registry := if transient then t.registry else t.registry[ns.nodeId := ns])
  }

  /** A node socket registers, again or for the first time; its answer may come after the socket is gone. */
  function NodeRegister(t: Table, ns: NodeSocket): Table {
    t.(registry := t.registry[ns.nodeId := ns])
  }

  function DropNodeHalves(pending: map<SessionId, Pending>, gone: NodeSocket): map<SessionId, Pending> {
    map sid | sid in pending && !(pending[sid].node == Some(gone) && pending[sid].client.None?) ::
      if pending[sid].node == Some(gone) then pending[sid].(node := None) else pending[sid]
  }

  function BoundTo(t: Table, ns: NodeSocket): set<SessionId> {
    set sid | sid in t.sessions && t.sessions[sid].nodeId == ns.nodeId && t.sessions[sid].node == ns
  }

  function NodeDeparted(t: Table, ns: NodeSocket): Table {
    t.(nodes := t.nodes - {ns})
  }

  function NodeLeave(t: Table, ns: NodeSocket): Table {
    Apply(NodeDeparted(t, ns), NodeGone, BoundTo(t, ns))
    .(pending := DropNodeHalves(t.pending, ns),
      registry := if ns.nodeId in t.registry && t.registry[ns.nodeId] == ns then t.registry - {ns.nodeId}
        else t.registry)
  }

  // ---------- a browser asks for a session ----------

  datatype Reply = Gone | Denied | NotRegistered | TooMany | Offline | Unsupported | Granted(sid: SessionId)

  /** The checks before the handler suspends; None when it goes on to the access check. */
  function BeginReply(t: Table, c: Client, webrtcCapable: bool): Option<Reply> {
    if |t.Held(c)| >= MAX_SESSIONS_PER_SOCKET then Some(TooMany)
    else if t.Registered(c.nodeId).None? then Some(Offline)
    else if !webrtcCapable then Some(Unsupported)
    else None
  }

  /** The checks after it resumes; `Gone` stands for returning without an acknowledgement. */
  function FinishReply(t: Table, c: Client, sid: SessionId, allowed: bool, hasToken: bool): Reply {
    if !allowed then Denied
    else if !hasToken then NotRegistered
    else if c !in t.clients then Gone
    else if |t.Held(c)| >= MAX_SESSIONS_PER_SOCKET then TooMany
    else if t.Registered(c.nodeId).None? then Offline
    else Granted(sid)
  }

  function FinishRequest(t: Table, c: Client, sid: SessionId, allowed: bool, hasToken: bool): Table {
    match FinishReply(t, c, sid, allowed, hasToken)
    case Denied => if c in t.clients then ClientsLeave(t, {c}) else t
    case Granted(_) =>
      var ns := t.Registered(c.nodeId).value;
      var s := Session(c, ns, c.nodeId, c.userId, Requested, Some(t.now + NEGOTIATION_TIMEOUT_MS), None, t.now);
      t.(sessions := t.sessions[sid := Transition(s, OpenSent)]).Record(sid, [ToNode(ns, Open)])
    case _ => t
  }

  // ---------- negotiation ----------

  function ClientOffer(t: Table, c: Client, sid: SessionId): Table {
    if sid in t.sessions && t.sessions[sid].client == c && t.sessions[sid].phase == OpenSent then
      var s := t.sessions[sid];
      t.(sessions := t.sessions[sid := Transition(s, OfferReceived)]).Record(sid, t.TellNode(s, Offer))
    else t
  }

  function NodeAnswer(t: Table, ns: NodeSocket, sid: SessionId): Table {
    if sid in t.sessions && t.sessions[sid].nodeId == ns.nodeId && t.sessions[sid].phase == OfferReceived then
      var s := t.sessions[sid];
      t.(sessions := t.sessions[sid := Transition(s, Answered)]).Record(sid, [ToClient(s.client, Answer)])
    else t
  }

  function NodeConnected(t: Table, ns: NodeSocket, sid: SessionId): Table {
    if sid in t.sessions && t.sessions[sid].nodeId == ns.nodeId then
      t.(sessions := t.sessions[sid := Transition(t.sessions[sid], Connected).(negotiation := None)])
      .Record(sid, [BecameConnected])
    else t
  }

  /** The node reports a close, or an error, for one of its sessions. */
  function NodeHangup(t: Table, ns: NodeSocket, sid: SessionId, reason: Reason): Table {
    if sid in t.sessions && t.sessions[sid].nodeId == ns.nodeId then
      t.(sessions := t.sessions - {sid}).Record(sid, [ToClient(t.sessions[sid].client, Close(reason))])
    else t
  }

  function ClientHangup(t: Table, c: Client, sid: SessionId): Table {
    if sid in t.sessions && t.sessions[sid].client == c then
      t.(sessions := t.sessions - {sid}).Record(sid, t.TellNode(t.sessions[sid], Close(Unstated)))
    else t
  }

  // ---------- resumption ----------

  function NewPending(t: Table, nodeId: NodeId): Pending {
    Pending(nodeId, None, None, Some(t.now + NODE_OFFLINE_GRACE_MS), t.now)
  }

  function WithHalf(p: Pending, half: Half): Pending {
    match half
    case NodeHalf(n) => p.(node := Some(n))
    case ClientHalf(c) => p.(client := Some(c))
  }

  function Adopted(t: Table, nodeId: NodeId, n: NodeSocket, c: Client): Session {
    Session(c, n, nodeId, c.userId, Connected, None, None, t.now)
  }

  /** Two halves of one id that meet become a CONNECTED session; a lone half waits. */
  function OfferResume(t: Table, sid: SessionId, nodeId: NodeId, half: Half): Table {
    var base := if sid in t.pending && t.pending[sid].nodeId == nodeId then t.pending[sid] else NewPending(t, nodeId);
    var p := WithHalf(base, half);
    if p.node.Some? && p.client.Some? then
      t.(pending := t.pending - {sid},
         sessions := t.sessions[sid := Adopted(t, nodeId, p.node.value, p.client.value)],
         grants := t.grants[p.client.value := t.Grants(p.client.value) + 1])
      .Record(sid, [BecameConnected])
    else
      t.(pending := t.pending[sid := p])
  }

  /** A browser that came back, possibly on a new socket, asks for its session. */
  function ResumeRefused(t: Table, c: Client, sid: SessionId): bool {
    sid == "" ||
    (sid in t.sessions &&
     (t.sessions[sid].nodeId != c.nodeId || t.sessions[sid].userId != c.userId || t.sessions[sid].phase != Connected))
  }

  function ClientResume(t: Table, c: Client, sid: SessionId): Table {
    if ResumeRefused(t, c, sid) then t
    else if sid in t.sessions then
      t.(sessions := t.sessions[sid := RefreshOrphan(t, t.sessions[sid].(client := c))],
         grants := t.grants[c := t.Grants(c) + 1])
    else OfferResume(t, sid, c.nodeId, ClientHalf(c))
  }

  /** The first loop of an announcement, for one announced id. */
  function AnnounceOne(t: Table, ns: NodeSocket, sid: SessionId): Table {
    if sid !in t.sessions then OfferResume(t, sid, ns.nodeId, NodeHalf(ns))
    else if t.sessions[sid].nodeId != ns.nodeId then t.Record(sid, [ToNode(ns, Close(Unstated))])
    else t.(sessions := t.sessions[sid := RefreshOrphan(t, t.sessions[sid].(node := ns))])
  }

  function AnnounceEach(t: Table, ns: NodeSocket, sids: seq<SessionId>): Table {
    if sids == [] then t
    else AnnounceOne(AnnounceEach(t, ns, sids[..|sids| - 1]), ns, sids[|sids| - 1])
  }

  /** The sessions an announcement leaves out although the node should hold them. */
  function Unannounced(t: Table, nodeId: NodeId, announced: seq<SessionId>): set<SessionId> {
    set sid | sid in t.sessions && t.sessions[sid].nodeId == nodeId && t.sessions[sid].phase == Connected
      && sid !in announced
  }

  function Announce(t: Table, ns: NodeSocket, sids: seq<SessionId>): Table {
    var met := AnnounceEach(t, ns, Distinct(sids));
    Apply(met, CloseRule(NodeOffline, false), Unannounced(met, ns.nodeId, sids))
  }

  /** A re-check of access that was started when the session was adopted or re-announced comes back. */
  function Recheck(t: Table, sid: SessionId, allowed: bool): Table {
    if allowed then t else CloseSession(t, sid, AccessRevoked, true)
  }

  // ---------- timers ----------

  predicate Due(timer: Option<int>, now: int) {
    timer.Some? && timer.value <= now
  }

  function FireNegotiation(t: Table, sid: SessionId): Table {
    if sid !in t.sessions || t.sessions[sid].phase == Connected then t
    else CloseSession(t, sid, NegotiationTimeout, true)
  }

  function FireOrphan(t: Table, sid: SessionId): Table {
    CloseSession(t, sid, NodeOffline, true)
  }

  function ExpiryEntries(t: Table, p: Pending): seq<Entry> {
    (if p.node.Some? && p.node.value in t.nodes then [ToNode(p.node.value, Close(Unstated))] else [])
    + (if p.client.Some? then [ToClient(p.client.value, Close(NodeOffline))] else [])
  }

  function FireResume(t: Table, sid: SessionId): Table {
    if sid !in t.pending then t
    else t.(pending := t.pending - {sid}).Record(sid, ExpiryEntries(t, t.pending[sid]))
  }

  // ---------- access is withdrawn ----------

  function UserSessions(t: Table, nodeId: NodeId, userId: UserId): set<SessionId> {
    set sid | sid in t.sessions && t.sessions[sid].userId == userId && t.sessions[sid].nodeId == nodeId
  }

  function UserClients(t: Table, nodeId: NodeId, userId: UserId): set<Client> {
    set c | c in t.clients && c.nodeId == nodeId && c.userId == userId
  }

  function RevokeUser(t: Table, nodeId: NodeId, userId: UserId): Table {
    var closed := Apply(t, CloseRule(AccessRevoked, true), UserSessions(t, nodeId, userId));
    ClientsLeave(closed, UserClients(t, nodeId, userId))
  }

  function LoginSessions(t: Table, logins: set<int>): set<SessionId> {
    set sid | sid in t.sessions && t.sessions[sid].client.login in logins
  }

  function RevokeLogins(t: Table, logins: set<int>): Table {
    Apply(t, CloseRule(SessionRevoked, true), LoginSessions(t, logins))
  }
}
