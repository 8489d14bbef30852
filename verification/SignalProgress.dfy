/** Nothing blocks the clock: letting timers fire as they fall due, any later time is reached. */
module SignalProgress {
  import opened Options
  import opened Signal
  import opened SignalInvariant
  import opened SignalRuns
  import opened SignalEffects
  import opened SignalBeginnings

  /** A message for a session's node goes to the socket it is bound to if that is connected, else to the node's own. */
  lemma TargetMeans(t: Table, s: Session)
    ensures s.node in t.nodes ==> t.NodeTarget(s) == Some(s.node)
    ensures s.node !in t.nodes && RegisteredAs(t, s.nodeId).Some? && RegisteredAs(t, s.nodeId).value in t.nodes ==>
              t.NodeTarget(s) == RegisteredAs(t, s.nodeId)
    ensures t.NodeTarget(s).Some? ==> t.NodeTarget(s).value in t.nodes
  {
  }

  // ---------- runs ----------

  lemma {:induction false} RunJoin(t: Table, a: seq<Event>, b: seq<Event>)
    requires IsRun(t, a) && IsRun(After(t, a), b)
    ensures IsRun(t, a + b) && After(t, a + b) == After(After(t, a), b)
    decreases |b|
  {
    hide Step;
    hide Enabled;
    if b == [] {
      assert a + b == a;
    } else {
      var front := b[..|b| - 1];
      RunJoin(t, a, front);
      assert (a + b)[..|a + b| - 1] == a + front;
    }
  }

  lemma OneStep(t: Table, e: Event)
    requires Enabled(t, e)
    ensures IsRun(t, [e]) && After(t, [e]) == Step(t, e)
  {
    assert [e][..0] == [];
  }

  // ---------- the next timer ----------

  function Deadlines(t: Table): set<int> {
    (set sid | sid in t.sessions && t.sessions[sid].negotiation.Some? :: t.sessions[sid].negotiation.value)
    + (set sid | sid in t.sessions && t.sessions[sid].orphan.Some? :: t.sessions[sid].orphan.value)
    + (set sid | sid in t.pending && t.pending[sid].timer.Some? :: t.pending[sid].timer.value)
  }

  lemma {:induction false} Least(s: set<int>) returns (m: int)
    requires exists x :: x in s
    ensures m in s && forall x :: x in s ==> m <= x
    decreases |s|
  {
    var x :| x in s;
    var rest := s - {x};
    if y :| y in rest {
      var n := Least(rest);
      m := if n < x then n else x;
      assert forall z :: z in s ==> z == x || z in rest;
    } else {
      m := x;
      assert forall z :: z in s ==> z == x || z in rest;
    }
  }

  lemma KeptBefore(t: Table, until: int)
    requires forall d :: d in Deadlines(t) ==> until <= d
    ensures TimersKept(t, until)
  {
    forall sid | sid in t.sessions
      ensures t.sessions[sid].negotiation.Some? ==> until <= t.sessions[sid].negotiation.value
      ensures t.sessions[sid].orphan.Some? ==> until <= t.sessions[sid].orphan.value
    {
      assert t.sessions[sid].negotiation.Some? ==> t.sessions[sid].negotiation.value in Deadlines(t);
      assert t.sessions[sid].orphan.Some? ==> t.sessions[sid].orphan.value in Deadlines(t);
    }
    forall sid | sid in t.pending ensures t.pending[sid].timer.Some? ==> until <= t.pending[sid].timer.value {
      assert t.pending[sid].timer.Some? ==> t.pending[sid].timer.value in Deadlines(t);
    }
  }

  lemma NotPast(t: Table, d: int)
    requires Inv(t) && d in Deadlines(t)
    ensures t.now <= d
  {
    if sid :| sid in t.sessions && (t.sessions[sid].negotiation == Some(d) || t.sessions[sid].orphan == Some(d)) {
      SessionHolds(t, sid);
    } else {
      var sid :| sid in t.pending && t.pending[sid].timer == Some(d);
      PendingHolds(t, sid);
    }
  }

  predicate IsTimer(e: Event) {
    e.NegotiationFires? || e.OrphanFires? || e.ResumeFires?
  }

  /** The event of a timer that is due. */
  lemma FiresAt(t: Table, d: int) returns (e: Event)
    requires d in Deadlines(t) && t.now == d
    ensures Enabled(t, e) && IsTimer(e)
  {
    if sid :| sid in t.sessions && t.sessions[sid].negotiation == Some(d) {
      e := NegotiationFires(sid);
    } else if sid :| sid in t.sessions && t.sessions[sid].orphan == Some(d) {
      e := OrphanFires(sid);
    } else {
      var sid :| sid in t.pending && t.pending[sid].timer == Some(d);
      e := ResumeFires(sid);
    }
  }

  lemma ResumeFired(t: Table, e: Event, u: Table)
    requires Enabled(t, e) && u == Step(t, e) && e.ResumeFires?
    ensures u.pending == t.pending - {e.sid} && e.sid in t.pending
  {
    hide ExpiryEntries;
  }

  lemma SessionFired(t: Table, e: Event, u: Table)
    requires Inv(t) && Enabled(t, e) && u == Step(t, e) && (e.NegotiationFires? || e.OrphanFires?)
    ensures e.sid in t.sessions && u.sessions == t.sessions - {e.sid} && u.pending == t.pending
  {
    assert e.sid in t.sessions;
    hide Step;
    hide Enabled;
    hide Inv;
    LiveSessionsExactly(t, e, u, e.sid);
    EndsAtMostOne(t, e, u);
    EndingBeginsNone(t, e, u);
  }

  /** Firing a timer leaves one session, or one pending resume, fewer, and takes no time. */
  lemma FiringLeavesFewer(t: Table, e: Event, u: Table)
    requires Inv(t) && Enabled(t, e) && u == Step(t, e) && IsTimer(e)
    ensures |u.sessions.Keys| + |u.pending.Keys| < |t.sessions.Keys| + |t.pending.Keys| && u.now == t.now
  {
    hide Step;
    hide Enabled;
    hide Inv;
    SocketsExactly(t, e, u);
    if e.ResumeFires? {
      QuietFollows(t, e, u);
      ResumeFired(t, e, u);
      assert u.pending.Keys == t.pending.Keys - {e.sid};
    } else {
      SessionFired(t, e, u);
      assert u.sessions.Keys == t.sessions.Keys - {e.sid};
    }
  }

  /**
   From any table that keeps the invariant there is a continuation to any later time, in which nothing happens but
   timers that fire and time that passes.
   */
  lemma ClockCanMove(t: Table, until: int) returns (es: seq<Event>)
    requires Inv(t) && t.now <= until
    ensures IsRun(t, es) && After(t, es).now == until && forall e :: e in es ==> e.Time? || IsTimer(e)
    decreases |t.sessions.Keys| + |t.pending.Keys|
  {
    hide Inv;
    hide Step;
    hide Enabled;
    if forall d :: d in Deadlines(t) ==> until <= d {
      KeptBefore(t, until);
      es := TimeRun(t, until);
    } else {
      var d := Least(Deadlines(t));
      KeptBefore(t, d);
      NotPast(t, d);
      var first := TimeRun(t, d);
      var t1 := After(t, first);
      var e := FiresAt(t1, d);
      var t2 := Step(t1, e);
      FiringLeavesFewer(t1, e, t2);
      StepKeepsInv(t1, e, t2);
      OneStep(t1, e);
      var rest := ClockCanMove(t2, until);
      RunJoin(t, first, [e]);
      RunJoin(t, first + [e], rest);
      es := first + [e] + rest;
    }
  }

  lemma TimeRun(t: Table, until: int) returns (es: seq<Event>)
    requires Inv(t) && t.now <= until && TimersKept(t, until)
    ensures IsRun(t, es) && After(t, es) == t.(now := until) && Inv(After(t, es))
    ensures Deadlines(After(t, es)) == Deadlines(t) && forall e :: e in es ==> e.Time?
  {
    es := [Time(until)];
    OneStep(t, Time(until));
    TimeKeeps(t, t.(now := until), until);
  }
}
