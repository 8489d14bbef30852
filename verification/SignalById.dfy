/** What a rule applied to many sessions, or browsers leaving, make of a single id. */
module SignalById {
  import opened Signal

  predicate DroppedAt(t: Table, rule: Rule, sids: set<SessionId>, x: SessionId) {
    x in t.sessions && x in sids && Decide(t, rule, t.sessions[x]).Drop?
  }

  lemma ApplyAt(t: Table, u: Table, rule: Rule, sids: set<SessionId>, x: SessionId)
    requires u == Apply(t, rule, sids)
    ensures x in u.sessions <==> x in t.sessions && !DroppedAt(t, rule, sids, x)
    ensures x in u.sessions ==>
              u.sessions[x] == if x in sids then Decide(t, rule, t.sessions[x]).session else t.sessions[x]
    ensures x in u.log <==> x in t.log || DroppedAt(t, rule, sids, x)
    ensures u.Log(x) == t.Log(x) + if DroppedAt(t, rule, sids, x) then Decide(t, rule, t.sessions[x]).sent else []
  {
  }

  predicate EndsWith(t: Table, gone: set<Client>, x: SessionId) {
    x in t.sessions && t.sessions[x].client in gone && t.sessions[x].phase != Connected
  }

  lemma LeaveAt(t: Table, u: Table, gone: set<Client>, x: SessionId)
    requires u == ClientsLeave(t, gone)
    ensures x in u.sessions <==> x in t.sessions && !EndsWith(t, gone, x)
    ensures x in u.sessions ==>
              u.sessions[x] ==
                if t.sessions[x].client in gone then RefreshOrphan(Departed(t, gone), t.sessions[x])
                else t.sessions[x]
    ensures x in u.log <==> x in t.log || EndsWith(t, gone, x)
    ensures u.Log(x) == t.Log(x) + if EndsWith(t, gone, x) then t.TellNode(t.sessions[x], Close(Unstated)) else []
  {
    var left := Departed(t, gone);
    ApplyAt(left, Apply(left, ClientGone, HeldByAny(t, gone)), ClientGone, HeldByAny(t, gone), x);
  }

  lemma LeaveEnvironment(t: Table, u: Table, gone: set<Client>)
    requires u == ClientsLeave(t, gone)
    ensures u == t.(sessions := u.sessions, log := u.log, clients := t.clients - gone,
                    leftAt := Departed(t, gone).leftAt, pending := DropClientHalves(t.pending, gone))
  {
  }
}
