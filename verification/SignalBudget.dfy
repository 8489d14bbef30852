/**
 How many sessions one browser socket can hold: a request never leaves it with more than four, and over a run it holds
 at most four plus one for every resume or adoption onto it.
 */
module SignalBudget {
  import opened InsertionOrder
  import opened Signal

  ghost predicate Budget(t: Table) {
    forall c :: |t.Held(c)| <= MAX_SESSIONS_PER_SOCKET + t.Grants(c)
  }

  lemma SubsetSize<T>(a: set<T>, b: set<T>)
    requires a <= b
    ensures |a| <= |b|
  {
    assert b == a + (b - a);
  }

  lemma BudgetShrinks(t: Table, u: Table)
    requires Budget(t) && u.grants == t.grants
    requires forall sid :: sid in u.sessions ==> sid in t.sessions && u.sessions[sid].client == t.sessions[sid].client
    ensures Budget(u)
  {
    forall c ensures |u.Held(c)| <= MAX_SESSIONS_PER_SOCKET + u.Grants(c) {
      SubsetSize(u.Held(c), t.Held(c));
    }
  }

  lemma BudgetGranted(t: Table, u: Table, c: Client, sid: SessionId)
    requires Budget(t) && u.grants == t.grants[c := t.Grants(c) + 1]
    requires sid in u.sessions && u.sessions[sid].client == c
    requires forall x :: x in u.sessions && x != sid ==> x in t.sessions && u.sessions[x].client == t.sessions[x].client
    ensures Budget(u)
  {
    forall d ensures |u.Held(d)| <= MAX_SESSIONS_PER_SOCKET + u.Grants(d) {
      if d == c {
        SubsetSize(u.Held(d), t.Held(d) + {sid});
        SubsetSize({sid} + t.Held(d) - {sid}, t.Held(d) + {sid});
      } else {
        SubsetSize(u.Held(d), t.Held(d));
      }
    }
  }

  /** Whatever happened while a request was suspended, granting it leaves its client with at most four sessions. */
  lemma RequestWithinFour(t: Table, u: Table, c: Client, sid: SessionId, allowed: bool, hasToken: bool)
    requires sid !in t.sessions && u == FinishRequest(t, c, sid, allowed, hasToken)
    requires FinishReply(t, c, sid, allowed, hasToken).Granted?
    ensures u.Held(c) == t.Held(c) + {sid} && |u.Held(c)| <= MAX_SESSIONS_PER_SOCKET
    ensures forall d :: d != c ==> u.Held(d) == t.Held(d)
  {
    assert u.Held(c) == t.Held(c) + {sid};
  }

  lemma FinishRequestBudget(t: Table, u: Table, c: Client, sid: SessionId, allowed: bool, hasToken: bool)
    requires Budget(t) && sid !in t.sessions && u == FinishRequest(t, c, sid, allowed, hasToken)
    ensures Budget(u)
  {
    if FinishReply(t, c, sid, allowed, hasToken).Granted? {
      RequestWithinFour(t, u, c, sid, allowed, hasToken);
      forall d ensures |u.Held(d)| <= MAX_SESSIONS_PER_SOCKET + u.Grants(d) {
        assert d != c ==> u.Held(d) == t.Held(d);
      }
    } else {
      BudgetShrinks(t, u);
    }
  }

  lemma OfferResumeBudget(t: Table, u: Table, sid: SessionId, nodeId: NodeId, half: Half)
    requires Budget(t) && sid !in t.sessions && u == OfferResume(t, sid, nodeId, half)
    ensures Budget(u)
  {
    if sid in u.sessions {
      BudgetGranted(t, u, u.sessions[sid].client, sid);
    } else {
      BudgetShrinks(t, u);
    }
  }

  lemma ClientResumeBudget(t: Table, u: Table, c: Client, sid: SessionId)
    requires Budget(t) && u == ClientResume(t, c, sid)
    ensures Budget(u)
  {
    if !ResumeRefused(t, c, sid) {
      if sid in t.sessions {
        BudgetGranted(t, u, c, sid);
      } else {
        OfferResumeBudget(t, u, sid, c.nodeId, ClientHalf(c));
      }
    }
  }

  lemma AnnounceOneBudget(t: Table, u: Table, ns: NodeSocket, sid: SessionId)
    requires Budget(t) && u == AnnounceOne(t, ns, sid)
    ensures Budget(u)
  {
    if sid in t.sessions {
      BudgetShrinks(t, u);
    } else {
      OfferResumeBudget(t, u, sid, ns.nodeId, NodeHalf(ns));
    }
  }

  lemma {:induction false} AnnounceEachBudget(t: Table, ns: NodeSocket, sids: seq<SessionId>)
    requires Budget(t)
    ensures Budget(AnnounceEach(t, ns, sids))
  {
    if sids != [] {
      var front := sids[..|sids| - 1];
      AnnounceEachBudget(t, ns, front);
      AnnounceOneBudget(AnnounceEach(t, ns, front), AnnounceEach(t, ns, sids), ns, sids[|sids| - 1]);
    }
  }

  lemma AnnounceBudget(t: Table, ns: NodeSocket, sids: seq<SessionId>)
    requires Budget(t)
    ensures Budget(Announce(t, ns, sids))
  {
    AnnounceEachBudget(t, ns, Distinct(sids));
    BudgetShrinks(AnnounceEach(t, ns, Distinct(sids)), Announce(t, ns, sids));
  }
}
