/**
 The negotiation messages of one session id, over its whole history and across resumed incarnations: at most one offer
 goes to the node and at most one answer to the browser, the answer after the offer, and neither after CONNECTED.
 */
module SignalLog {
  import opened InsertionOrder
  import opened Signal
  import opened SignalInvariant

  predicate IsOffer(e: Entry) { e.ToNode? && e.sent.Offer? }
  predicate IsAnswer(e: Entry) { e.ToClient? && e.sent.Answer? }

  predicate Neutral(e: Entry) {
    !IsOffer(e) && !IsAnswer(e) && !e.BecameConnected?
  }

  /** At most one offer and one answer, the answer after the offer, and neither once CONNECTED was reached. */
  ghost predicate Disciplined(h: seq<Entry>) {
    && (forall i, j :: 0 <= i < j < |h| && IsOffer(h[j]) ==> Neutral(h[i]))
    && (forall i, j :: 0 <= i < j < |h| && IsAnswer(h[j]) ==> !IsAnswer(h[i]) && !h[i].BecameConnected?)
    && (forall j :: 0 <= j < |h| && IsAnswer(h[j]) ==> exists i :: 0 <= i < j && IsOffer(h[i]))
  }

  datatype Progress = Progress(offered: bool, answered: bool, connected: bool, ordered: bool)

  function Next(p: Progress, e: Entry): Progress {
    if IsOffer(e) then Progress(true, p.answered, p.connected, p.ordered && !p.offered && !p.answered && !p.connected)
    else if IsAnswer(e) then
      Progress(p.offered, true, p.connected, p.ordered && p.offered && !p.answered && !p.connected)
    else if e.BecameConnected? then p.(connected := true)
    else p
  }

  function ProgressOf(h: seq<Entry>): Progress {
    if h == [] then Progress(false, false, false, true)
    else Next(ProgressOf(h[..|h| - 1]), h[|h| - 1])
  }

  lemma ProgressSnoc(h: seq<Entry>, e: Entry)
    ensures ProgressOf(h + [e]) == Next(ProgressOf(h), e)
  {
    assert (h + [e])[..|h|] == h;
  }

  lemma {:induction false} ProgressNeutral(h: seq<Entry>, es: seq<Entry>)
    requires forall e :: e in es ==> Neutral(e)
    ensures ProgressOf(h + es) == ProgressOf(h)
  {
    if es == [] {
      assert h + es == h;
    } else {
      var front, e := es[..|es| - 1], es[|es| - 1];
      assert forall x :: x in front ==> x in es;
      ProgressNeutral(h, front);
      ProgressSnoc(h + front, e);
      assert h + es == h + front + [e];
      assert Neutral(e);
    }
  }

  lemma DisciplinedSnoc(h: seq<Entry>, e: Entry)
    ensures Disciplined(h + [e]) <==>
            && Disciplined(h)
            && (IsOffer(e) ==> forall i :: 0 <= i < |h| ==> Neutral(h[i]))
            && (IsAnswer(e) ==> (forall i :: 0 <= i < |h| ==> !IsAnswer(h[i]) && !h[i].BecameConnected?)
                                && exists i :: 0 <= i < |h| && IsOffer(h[i]))
  {
    var g := h + [e];
    assert g[|h|] == e;
    assert forall i :: 0 <= i < |h| ==> g[i] == h[i];
    if Disciplined(g) {
      forall j | 0 <= j < |h| && IsAnswer(h[j]) ensures exists i :: 0 <= i < j && IsOffer(h[i]) {
        assert IsAnswer(g[j]);
        var i :| 0 <= i < j && IsOffer(g[i]);
        assert IsOffer(h[i]);
      }
      if IsAnswer(e) {
        var i :| 0 <= i < |h| && IsOffer(g[i]);
        assert IsOffer(h[i]);
      }
    }
  }

  /** The automaton's flags mean what they say. */
  lemma {:induction false} FlagsMean(h: seq<Entry>)
    ensures ProgressOf(h).offered <==> exists i :: 0 <= i < |h| && IsOffer(h[i])
    ensures ProgressOf(h).answered <==> exists i :: 0 <= i < |h| && IsAnswer(h[i])
    ensures ProgressOf(h).connected <==> exists i :: 0 <= i < |h| && h[i].BecameConnected?
  {
    if h != [] {
      var front, e := h[..|h| - 1], h[|h| - 1];
      FlagsMean(front);
      assert h == front + [e];
      assert forall i :: 0 <= i < |front| ==> h[i] == front[i];
      assert h[|front|] == e;
    }
  }

  lemma {:induction false} ProgressMeans(h: seq<Entry>)
    ensures ProgressOf(h).ordered <==> Disciplined(h)
  {
    if h != [] {
      var front, e := h[..|h| - 1], h[|h| - 1];
      ProgressMeans(front);
      FlagsMean(front);
      DisciplinedSnoc(front, e);
      assert h == front + [e];
      hide Disciplined;
    }
  }

  /** How far negotiation got in the log is what the phase says. */
  predicate LogFits(phase: Phase, p: Progress) {
    match phase
    case OpenSent => !p.offered && !p.answered && !p.connected
    case OfferReceived => p.offered && !p.answered && !p.connected
    case Answered => p.offered && p.answered && !p.connected
    case Connected => p.connected
    case _ => false
  }

  ghost predicate Logs(t: Table) {
    && (forall sid :: sid in t.log ==> ProgressOf(t.log[sid]).ordered)
    && (forall sid :: sid in t.sessions ==> LogFits(t.sessions[sid].phase, ProgressOf(t.Log(sid))))
  }

  /** Sessions of `u` other than `sid` are sessions of `t` in the same phase. */
  predicate PhasesKept(t: Table, u: Table, sid: SessionId) {
    forall x | x in u.sessions && x != sid :: x in t.sessions && u.sessions[x].phase == t.sessions[x].phase
  }

  lemma LogSame(t: Table, u: Table)
    requires Logs(t) && u.log == t.log
    requires forall x | x in u.sessions :: x in t.sessions && u.sessions[x].phase == t.sessions[x].phase
    ensures Logs(u)
  {
    forall x | x in u.sessions ensures LogFits(u.sessions[x].phase, ProgressOf(u.Log(x))) {
      assert u.Log(x) == t.Log(x);
    }
  }

  lemma LogNeutral(t: Table, u: Table, sid: SessionId, es: seq<Entry>)
    requires Logs(t) && u.log == t.log[sid := t.Log(sid) + es]
    requires forall e :: e in es ==> Neutral(e)
    requires forall x | x in u.sessions :: x in t.sessions && u.sessions[x].phase == t.sessions[x].phase
    ensures Logs(u)
  {
    ProgressNeutral(t.Log(sid), es);
    forall x | x in u.sessions ensures LogFits(u.sessions[x].phase, ProgressOf(u.Log(x))) {
      assert x != sid ==> u.Log(x) == t.Log(x);
    }
  }

  lemma LogMark(t: Table, u: Table, sid: SessionId, e: Entry)
    requires Logs(t) && u.log == t.log[sid := t.Log(sid) + [e]] && PhasesKept(t, u, sid)
    requires sid in u.sessions && LogFits(u.sessions[sid].phase, Next(ProgressOf(t.Log(sid)), e))
    requires ProgressOf(t.Log(sid)).ordered ==> Next(ProgressOf(t.Log(sid)), e).ordered
    ensures Logs(u)
  {
    ProgressSnoc(t.Log(sid), e);
    forall x | x in u.log ensures ProgressOf(u.log[x]).ordered {
    }
    forall x | x in u.sessions ensures LogFits(u.sessions[x].phase, ProgressOf(u.Log(x))) {
      assert x != sid ==> u.Log(x) == t.Log(x);
    }
  }

  lemma ApplyLogAt(t: Table, rule: Rule, sids: set<SessionId>, sid: SessionId)
    requires sid in Apply(t, rule, sids).log
    ensures ProgressOf(Apply(t, rule, sids).log[sid]) == ProgressOf(t.Log(sid))
  {
    if sid in Ended(t, rule, sids) {
      ProgressNeutral(t.Log(sid), Decide(t, rule, t.sessions[sid]).sent);
    }
  }

  lemma LogApply(t: Table, u: Table, rule: Rule, sids: set<SessionId>)
    requires Logs(t) && u == Apply(t, rule, sids)
    ensures Logs(u)
  {
    forall sid | sid in u.log ensures ProgressOf(u.log[sid]).ordered {
      ApplyLogAt(t, rule, sids, sid);
    }
    forall sid | sid in u.sessions ensures LogFits(u.sessions[sid].phase, ProgressOf(u.Log(sid))) {
      assert u.Log(sid) == t.Log(sid);
    }
  }

  lemma ClientsLeaveLog(t: Table, u: Table, gone: set<Client>)
    requires Logs(t) && u == ClientsLeave(t, gone)
    ensures Logs(u)
  {
    var left := Departed(t, gone);
    var sids := HeldByAny(t, gone);
    LogSame(t, left);
    LogApply(left, Apply(left, ClientGone, sids), ClientGone, sids);
    LogSame(Apply(left, ClientGone, sids), u);
  }

  lemma NodeLeaveLog(t: Table, u: Table, ns: NodeSocket)
    requires Logs(t) && u == NodeLeave(t, ns)
    ensures Logs(u)
  {
    var left := NodeDeparted(t, ns);
    LogSame(t, left);
    LogApply(left, Apply(left, NodeGone, BoundTo(t, ns)), NodeGone, BoundTo(t, ns));
    LogSame(Apply(left, NodeGone, BoundTo(t, ns)), u);
  }

  lemma FinishRequestLog(t: Table, u: Table, c: Client, sid: SessionId, allowed: bool, hasToken: bool)
    requires Logs(t) && sid !in t.sessions && sid !in t.log && u == FinishRequest(t, c, sid, allowed, hasToken)
    ensures Logs(u)
  {
    match FinishReply(t, c, sid, allowed, hasToken)
    case Denied =>
      if c in t.clients {
        ClientsLeaveLog(t, u, {c});
      }
    case Granted(_) => LogMark(t, u, sid, ToNode(t.Registered(c.nodeId).value, Open));
    case _ =>
  }

  /** The offer does reach the node: a negotiating session's node socket is connected. */
  lemma ClientOfferLog(t: Table, u: Table, c: Client, sid: SessionId)
    requires Logs(t) && Sessions(t) && u == ClientOffer(t, c, sid)
    ensures Logs(u)
    ensures u != t ==> u.Log(sid) == t.Log(sid) + [ToNode(t.sessions[sid].node, Offer)]
  {
    if u != t {
      assert SessionInv(t, t.sessions[sid]);
      LogMark(t, u, sid, ToNode(t.sessions[sid].node, Offer));
    }
  }

  lemma NodeAnswerLog(t: Table, u: Table, ns: NodeSocket, sid: SessionId)
    requires Logs(t) && u == NodeAnswer(t, ns, sid)
    ensures Logs(u)
  {
    if u != t {
      LogMark(t, u, sid, ToClient(t.sessions[sid].client, Answer));
    }
  }

  lemma NodeConnectedLog(t: Table, u: Table, ns: NodeSocket, sid: SessionId)
    requires Logs(t) && Sessions(t) && u == NodeConnected(t, ns, sid)
    ensures Logs(u)
  {
    if u != t {
      assert SessionInv(t, t.sessions[sid]);
      LogMark(t, u, sid, BecameConnected);
    }
  }

  lemma NodeHangupLog(t: Table, u: Table, ns: NodeSocket, sid: SessionId, reason: Reason)
    requires Logs(t) && u == NodeHangup(t, ns, sid, reason)
    ensures Logs(u)
  {
    hide Logs;
    hide ProgressOf;
    if u != t {
      LogNeutral(t, u, sid, [ToClient(t.sessions[sid].client, Close(reason))]);
    }
  }

  lemma ClientHangupLog(t: Table, u: Table, c: Client, sid: SessionId)
    requires Logs(t) && u == ClientHangup(t, c, sid)
    ensures Logs(u)
  {
    hide Logs;
    hide ProgressOf;
    if u != t {
      LogNeutral(t, u, sid, t.TellNode(t.sessions[sid], Close(Unstated)));
    }
  }

  lemma CloseLog(t: Table, u: Table, sid: SessionId, reason: Reason, tellNode: bool)
    requires Logs(t) && u == CloseSession(t, sid, reason, tellNode)
    ensures Logs(u)
  {
    hide Logs;
    hide ProgressOf;
    if sid in t.sessions {
      LogNeutral(t, u, sid, CloseEntries(t, t.sessions[sid], reason, tellNode));
    }
  }

  lemma OfferResumeLog(t: Table, u: Table, sid: SessionId, nodeId: NodeId, half: Half)
    requires Logs(t) && sid !in t.sessions && u == OfferResume(t, sid, nodeId, half)
    ensures Logs(u)
  {
    if sid in u.sessions {
      LogMark(t, u, sid, BecameConnected);
    } else {
      LogSame(t, u);
    }
  }

  lemma ClientResumeLog(t: Table, u: Table, c: Client, sid: SessionId)
    requires Logs(t) && u == ClientResume(t, c, sid)
    ensures Logs(u)
  {
    if !ResumeRefused(t, c, sid) {
      if sid in t.sessions {
        LogSame(t, u);
      } else {
        OfferResumeLog(t, u, sid, c.nodeId, ClientHalf(c));
      }
    }
  }

  lemma RefreshKeepsPhase()
    ensures forall t, s :: RefreshOrphan(t, s).phase == s.phase
  {
  }

  lemma AnnounceOneLog(t: Table, u: Table, ns: NodeSocket, sid: SessionId)
    requires Logs(t) && u == AnnounceOne(t, ns, sid)
    ensures Logs(u)
  {
    hide Logs;
    hide OfferResume;
    hide RefreshOrphan;
    RefreshKeepsPhase();
    if sid !in t.sessions {
      OfferResumeLog(t, u, sid, ns.nodeId, NodeHalf(ns));
    } else if t.sessions[sid].nodeId != ns.nodeId {
      LogNeutral(t, u, sid, [ToNode(ns, Close(Unstated))]);
    } else {
      LogSame(t, u);
    }
  }

  lemma {:induction false} AnnounceEachLog(t: Table, ns: NodeSocket, sids: seq<SessionId>)
    requires Logs(t)
    ensures Logs(AnnounceEach(t, ns, sids))
  {
    if sids != [] {
      AnnounceEachLog(t, ns, sids[..|sids| - 1]);
      AnnounceOneLog(AnnounceEach(t, ns, sids[..|sids| - 1]), AnnounceEach(t, ns, sids), ns, sids[|sids| - 1]);
    }
  }

  lemma AnnounceLog(t: Table, ns: NodeSocket, sids: seq<SessionId>)
    requires Logs(t)
    ensures Logs(Announce(t, ns, sids))
  {
    var met := AnnounceEach(t, ns, Distinct(sids));
    AnnounceEachLog(t, ns, Distinct(sids));
    LogApply(met, Announce(t, ns, sids), CloseRule(NodeOffline, false), Unannounced(met, ns.nodeId, sids));
  }

  lemma FireResumeLog(t: Table, u: Table, sid: SessionId)
    requires Logs(t) && u == FireResume(t, sid)
    ensures Logs(u)
  {
    if sid in t.pending {
      LogNeutral(t, u, sid, ExpiryEntries(t, t.pending[sid]));
    }
  }

  lemma RevokeUserLog(t: Table, nodeId: NodeId, userId: UserId)
    requires Logs(t)
    ensures Logs(RevokeUser(t, nodeId, userId))
  {
    var closed := Apply(t, CloseRule(AccessRevoked, true), UserSessions(t, nodeId, userId));
    LogApply(t, closed, CloseRule(AccessRevoked, true), UserSessions(t, nodeId, userId));
    ClientsLeaveLog(closed, RevokeUser(t, nodeId, userId), UserClients(t, nodeId, userId));
  }
}
