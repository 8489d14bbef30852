/**
 What becomes of a socket: which events close it, and that a session's sockets end with its row's expiry at the next
 sweep.
 */
module SessionFates {
  import opened Options
  import opened SessionSockets
  import opened SessionRuns

  /** The sessions whose sockets the event takes down. */
  predicate TakesDown(w: World, e: Event, s: SessionId) {
    || (e.Revoked? && s in e.ids)
    || (e.Swept? && s in w.used && w.used[s] <= w.now)
  }

  /**
   What closes a live socket: its end, a tombstone it finds when it comes to be tracked, or the end of its session.
   */
  predicate Closes(w: World, e: Event, k: SocketId)
    requires k in w.reg.socks
  {
    || e == Drop(k)
    || (e == Tracked(k) && k in w.lookups && w.lookups[k].session in w.reg.revoked)
    || (w.reg.socks[k].session.Some? && TakesDown(w, e, w.reg.socks[k].session.value))
  }

  /** A socket after an event: whose it is, and whether it lives. */
  predicate SocketAsTold(w: World, e: Event, v: World, k: SocketId)
    requires k in w.reg.socks
  {
    && k in v.reg.socks
    && v.reg.socks[k].session ==
         (if e == Tracked(k) && k in w.lookups then Some(w.lookups[k].session) else w.reg.socks[k].session)
    && (Live(v.reg.socks[k]) <==> Live(w.reg.socks[k]) && !Closes(w, e, k))
  }

  lemma SweptSocket(w: World, k: SocketId)
    requires WorldInv(w) && k in w.reg.socks
    ensures SocketAsTold(w, Swept, Step(w, Swept), k)
  {
    hide Tombstones;
    hide Lookups;
    hide Rows;
    var sock := w.reg.socks[k];
    if sock.session.Some? {
      SweepSocket(w.reg, w.now, k, sock.session.value);
      if Live(sock) {
        assert k in SocketsOf(w.reg, sock.session.value);
      }
    } else {
      UntrackedKept(w, k);
    }
    hide Inv;
    hide Sweep;
  }

  lemma UntrackedKept(w: World, k: SocketId)
    requires Inv(w.reg) && k in w.reg.socks && w.reg.socks[k].session.None?
    ensures k in Sweep(w.reg, w.now).socks && Sweep(w.reg, w.now).socks[k] == w.reg.socks[k]
  {
    forall s | s in w.reg.tracked ensures k !in w.reg.tracked[s] {
      assert HeldBy(w.reg.socks, w.reg.tracked[s], s);
    }
  }

  lemma RevokedSocket(w: World, ids: set<SessionId>, k: SocketId)
    requires WorldInv(w) && Enabled(w, Revoked(ids)) && k in w.reg.socks
    ensures SocketAsTold(w, Revoked(ids), Step(w, Revoked(ids)), k)
  {
    hide Tombstones;
    hide Lookups;
    hide Rows;
    hide Entries;
    if k in TrackedBy(w.reg, ids) {
      var s :| s in ids && s in w.reg.tracked && k in w.reg.tracked[s];
      assert HeldBy(w.reg.socks, w.reg.tracked[s], s);
    } else if w.reg.socks[k].session.Some? && Live(w.reg.socks[k]) {
      assert k in SocketsOf(w.reg, w.reg.socks[k].session.value);
    }
  }

  lemma TrackedSocket(w: World, x: SocketId, k: SocketId)
    requires WorldInv(w) && x in w.lookups && k in w.reg.socks
    ensures SocketAsTold(w, Tracked(x), Step(w, Tracked(x)), k)
  {
    var l := w.lookups[x];
    assert LookupInv(w, x);
    CloseOnly(w.reg.(socks := w.reg.socks[x := w.reg.socks[x].(session := Some(l.session))]), x);
    hide Close;
    hide WorldInv;
  }

  lemma DroppedSocket(w: World, x: SocketId, k: SocketId)
    requires k in w.reg.socks
    ensures SocketAsTold(w, Drop(x), Step(w, Drop(x)), k)
  {
    CloseOnly(w.reg, x);
    hide Close;
  }

  /**
   Every event and every socket: it closes for the listed causes only and for each of them it does, and it belongs to
   the session it was authenticated from.
   */
  lemma SocketsExactly(w: World, e: Event, k: SocketId)
    requires WorldInv(w) && Enabled(w, e) && k in w.reg.socks
    ensures SocketAsTold(w, e, Step(w, e), k)
  {
    if e.Swept? {
      SweptSocket(w, k);
    } else if e.Revoked? {
      RevokedSocket(w, e.ids, k);
    } else if e.Tracked? {
      TrackedSocket(w, e.k, k);
    } else if e.Drop? {
      DroppedSocket(w, e.k, k);
    } else {
      hide WorldInv;
    }
  }

  /** Tracking a socket of a session without a tombstone records it, and the session's expiry as its row said. */
  lemma TrackRecords(w: World, k: SocketId)
    requires WorldInv(w) && k in w.lookups && w.lookups[k].session !in w.reg.revoked
    ensures var l, v := w.lookups[k], Step(w, Tracked(k));
            && SocketsOf(v.reg, l.session) == SocketsOf(w.reg, l.session) + {k}
            && l.session in v.reg.expires && v.reg.expires[l.session] == l.expires == w.used[l.session]
            && forall s :: s != l.session ==> SocketsOf(v.reg, s) == SocketsOf(w.reg, s)
  {
    assert LookupInv(w, k);
  }

  /** In every run, exactly the tracked sessions have an expiry entry, and it is when their row expires. */
  lemma RunKeepsExpiry(start: int, es: seq<Event>, s: SessionId)
    requires IsRun(Start(start), es)
    ensures var w := After(Start(start), es);
            && (s in w.reg.tracked <==> s in w.reg.expires)
            && (s in w.reg.expires ==> s in w.used && w.reg.expires[s] == w.used[s])
  {
    StartKeeps(start);
    RunKeeps(Start(start), es);
  }

  /**
   In every run: after a sweep no socket of a session that has expired lives or is tracked, and every live socket of any
   other session lives on, tracked.
   */
  lemma ExpiredSocketsEnd(start: int, es: seq<Event>, k: SocketId, s: SessionId)
    requires IsRun(Start(start), es)
    requires var w := After(Start(start), es); k in w.reg.socks && w.reg.socks[k].session == Some(s)
    ensures var w := After(Start(start), es);
            var v := Step(w, Swept);
            && (Live(w.reg.socks[k]) ==> s in w.used) && k in v.reg.socks
            && (Live(v.reg.socks[k]) <==> Live(w.reg.socks[k]) && w.now < w.used[s])
            && (k in SocketsOf(v.reg, s) <==> Live(w.reg.socks[k]) && w.now < w.used[s])
  {
    StartKeeps(start);
    RunKeeps(Start(start), es);
    SweepOutcome(After(Start(start), es), k, s);
  }

  lemma SweepOutcome(w: World, k: SocketId, s: SessionId)
    requires WorldInv(w) && k in w.reg.socks && w.reg.socks[k].session == Some(s)
    ensures var v := Step(w, Swept);
            && (Live(w.reg.socks[k]) ==> s in w.used) && k in v.reg.socks
            && (Live(v.reg.socks[k]) <==> Live(w.reg.socks[k]) && w.now < w.used[s])
            && (k in SocketsOf(v.reg, s) <==> Live(w.reg.socks[k]) && w.now < w.used[s])
  {
    SweepSocket(w.reg, w.now, k, s);
    SweepTracked(w.reg, w.now, k, s);
    if Live(w.reg.socks[k]) {
      LiveHasEntry(w, k, s);
    }
    hide Sweep;
    hide WorldInv;
  }

  lemma LiveHasEntry(w: World, k: SocketId, s: SessionId)
    requires WorldInv(w) && k in w.reg.socks && w.reg.socks[k].session == Some(s) && Live(w.reg.socks[k])
    ensures s in w.used && s in w.reg.expires && w.reg.expires[s] == w.used[s]
  {
    assert k in SocketsOf(w.reg, s);
  }
}
