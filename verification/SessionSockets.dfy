/**
 Live sockets by the session that authenticated them, with a tombstone for every session revoked lately: a socket whose
 session row was read before the revocation is closed when it comes to be tracked after it.
 */
module SessionSockets {
  import opened Options

  const RETENTION: int := 5 * 60 * 1000

  type SessionId = nat
  type SocketId = nat

  /** `session` is set once the socket was handed to `track`. */
  datatype Sock = Sock(session: Option<SessionId>, connected: bool, open: bool)

  datatype Registry = Registry(
    socks: map<SocketId, Sock>,
    tracked: map<SessionId, set<SocketId>>,
    expires: map<SessionId, int>,
    revoked: map<SessionId, int>)

  // ---------- the operations ----------

  function Forget(r: Registry, s: SessionId): Registry {
    r.(tracked := r.tracked - {s}, expires := r.expires - {s})
  }

  function Untrack(r: Registry, k: SocketId): Registry {
    if k !in r.socks || r.socks[k].session.None? || r.socks[k].session.value !in r.tracked then r
    else
      var s := r.socks[k].session.value;
      var rest := r.tracked[s] - {k};
      if rest == {} then Forget(r, s) else r.(tracked := r.tracked[s := rest])
  }

  function Closed(sock: Sock): Sock {
    sock.(connected := false, open := false)
  }

  /** Closing a connected socket runs its disconnect handler. */
  function Close(r: Registry, k: SocketId): Registry {
    if k !in r.socks then r
    else
      var q := r.(socks := r.socks[k := Closed(r.socks[k])]);
      if r.socks[k].connected then Untrack(q, k) else q
  }

  function SocketsOf(r: Registry, s: SessionId): set<SocketId> {
    if s in r.tracked then r.tracked[s] else {}
  }

  function Track(r: Registry, k: SocketId, s: SessionId, expires: Option<int>): Registry {
    if k !in r.socks then r
    else
      var q := r.(socks := r.socks[k := r.socks[k].(session := Some(s))]);
      if s in r.revoked then Close(q, k)
      else q.(tracked := r.tracked[s := SocketsOf(r, s) + {k}],
              expires := if expires.Some? then r.expires[s := expires.value] else r.expires)
  }

  function CloseAll(socks: map<SocketId, Sock>, ks: set<SocketId>): map<SocketId, Sock> {
    map k | k in socks :: if k in ks then Closed(socks[k]) else socks[k]
  }

  function TrackedBy(r: Registry, ids: set<SessionId>): set<SocketId> {
    set s, k | s in ids && s in r.tracked && k in r.tracked[s] :: k
  }

  function Stamped(revoked: map<SessionId, int>, ids: set<SessionId>, now: int): map<SessionId, int> {
    map s | s in revoked.Keys + ids :: if s in ids then now else revoked[s]
  }

  /** Revoking leaves a tombstone for each session, forgets it, and closes its sockets. */
  function Revoke(r: Registry, ids: set<SessionId>, now: int): Registry {
    Registry(CloseAll(r.socks, TrackedBy(r, ids)), r.tracked - ids, r.expires - ids, Stamped(r.revoked, ids, now))
  }

  predicate Lapsed(revokedAt: int, now: int) {
    now - revokedAt > RETENTION
  }

  function Lasting(revoked: map<SessionId, int>, now: int): map<SessionId, int> {
    map s | s in revoked && !Lapsed(revoked[s], now) :: revoked[s]
  }

  predicate Live(sock: Sock) {
    sock.connected || sock.open
  }

  function Dead(socks: map<SocketId, Sock>): set<SocketId> {
    set k | k in socks && !Live(socks[k])
  }

  function Without(tracked: map<SessionId, set<SocketId>>, gone: set<SocketId>): map<SessionId, set<SocketId>> {
    map s | s in tracked && tracked[s] - gone != {} :: tracked[s] - gone
  }

  function Only(expires: map<SessionId, int>, keys: set<SessionId>): map<SessionId, int> {
    map s | s in expires && s in keys :: expires[s]
  }

  function DropGone(r: Registry, gone: set<SocketId>): Registry {
    var tracked := Without(r.tracked, gone);
    r.(tracked := tracked, expires := Only(r.expires, tracked.Keys))
  }

  function Expired(expires: map<SessionId, int>, now: int): set<SessionId> {
    set s | s in expires && expires[s] <= now
  }

  /** Old tombstones go, dead sockets are untracked, and expired sessions are revoked. */
  function Sweep(r: Registry, now: int): Registry {
    var q := DropGone(r.(revoked := Lasting(r.revoked, now)), Dead(r.socks));
    Revoke(q, Expired(q.expires, now), now)
  }

  // ---------- what every operation keeps ----------

  ghost predicate Owned(r: Registry) {
    forall s :: s in r.tracked ==> HeldBy(r.socks, r.tracked[s], s)
  }

  /** A tracked set is not empty, and its sockets belong to the session. */
  ghost predicate HeldBy(socks: map<SocketId, Sock>, ks: set<SocketId>, s: SessionId) {
    ks != {} && forall k :: k in ks ==> k in socks && socks[k].session == Some(s)
  }

  /** A socket that was handed to `track` and is still live is tracked. */
  ghost predicate LiveTracked(r: Registry) {
    forall k :: k in r.socks && r.socks[k].session.Some? && Live(r.socks[k]) ==>
      k in SocketsOf(r, r.socks[k].session.value)
  }

  /** No session is both tombstoned and tracked, and expiry entries exist only for tracked sessions. */
  ghost predicate Inv(r: Registry) {
    Owned(r) && LiveTracked(r) && r.revoked.Keys !! r.tracked.Keys && r.expires.Keys <= r.tracked.Keys
  }

  lemma UntrackKeeps(r: Registry, k: SocketId)
    requires Inv(r) && (k in r.socks ==> !Live(r.socks[k]))
    ensures Inv(Untrack(r, k))
    ensures Untrack(r, k).socks == r.socks && forall s :: k !in SocketsOf(Untrack(r, k), s)
  {
  }

  lemma CloseKeeps(r: Registry, k: SocketId)
    requires Inv(r)
    ensures Inv(Close(r, k))
  {
    if k in r.socks {
      var q := r.(socks := r.socks[k := Closed(r.socks[k])]);
      assert Inv(q);
      UntrackKeeps(q, k);
    }
  }

  lemma TrackKeeps(r: Registry, k: SocketId, s: SessionId, expires: Option<int>)
    requires Inv(r) && (k in r.socks ==> r.socks[k].session == None)
    ensures Inv(Track(r, k, s, expires))
  {
    if k in r.socks {
      var q := r.(socks := r.socks[k := r.socks[k].(session := Some(s))]);
      if s in r.revoked {
        var c := q.(socks := q.socks[k := Closed(q.socks[k])]);
        assert Inv(c);
        UntrackKeeps(c, k);
      }
    }
  }

  lemma RevokeKeeps(r: Registry, ids: set<SessionId>, now: int)
    requires Inv(r)
    ensures Inv(Revoke(r, ids, now))
  {
  }

  lemma DropGoneKeeps(r: Registry, gone: set<SocketId>)
    requires Inv(r) && forall k :: k in gone && k in r.socks ==> !Live(r.socks[k])
    ensures Inv(DropGone(r, gone))
  {
  }

  lemma SweepKeeps(r: Registry, now: int)
    requires Inv(r)
    ensures Inv(Sweep(r, now))
  {
    var p := r.(revoked := Lasting(r.revoked, now));
    assert Inv(p);
    DropGoneKeeps(p, Dead(r.socks));
    RevokeKeeps(DropGone(p, Dead(r.socks)), Expired(DropGone(p, Dead(r.socks)).expires, now), now);
  }

  predicate HasExpired(r: Registry, s: SessionId, now: int) {
    s in r.expires && r.expires[s] <= now
  }

  lemma SweepTombstones(r: Registry, now: int, s: SessionId)
    requires Inv(r)
    ensures s in Sweep(r, now).revoked <==>
              (s in r.revoked && now - r.revoked[s] <= RETENTION)
              || (HasExpired(r, s, now) && SocketsOf(r, s) - Dead(r.socks) != {})
  {
  }

  /** What a sweep does to one socket of a session. */
  lemma SweepSocket(r: Registry, now: int, k: SocketId, s: SessionId)
    requires Inv(r) && k in r.socks && r.socks[k].session == Some(s)
    ensures k in Sweep(r, now).socks
            && (Live(Sweep(r, now).socks[k]) <==> Live(r.socks[k]) && !HasExpired(r, s, now))
  {
    var q := DropGone(r.(revoked := Lasting(r.revoked, now)), Dead(r.socks));
    forall x | x in r.tracked ensures HeldBy(r.socks, r.tracked[x], x) {
    }
    if Live(r.socks[k]) && HasExpired(r, s, now) {
      assert k in r.tracked[s] - Dead(r.socks);
      assert s in Expired(q.expires, now) && s in q.tracked && k in q.tracked[s];
    }
    if k in TrackedBy(q, Expired(q.expires, now)) {
      var x :| x in Expired(q.expires, now) && x in q.tracked && k in q.tracked[x];
      assert k in r.tracked[x] && x == s;
    }
  }

  /**
   A sweep closes exactly the live sockets of expired sessions; what stays tracked are the live sockets of the others,
   and a tombstone is left exactly for each session revoked within the retention or expired with a live socket.
   */
  lemma SweepExactly(r: Registry, now: int, k: SocketId, s: SessionId)
    requires Inv(r)
    ensures k in r.socks && r.socks[k].session == Some(s) ==>
              k in Sweep(r, now).socks
              && (Live(Sweep(r, now).socks[k]) <==> Live(r.socks[k]) && !HasExpired(r, s, now))
    ensures k in SocketsOf(Sweep(r, now), s) <==>
              k in r.socks && r.socks[k].session == Some(s) && Live(r.socks[k]) && !HasExpired(r, s, now)
    ensures s in Sweep(r, now).revoked <==>
              (s in r.revoked && now - r.revoked[s] <= RETENTION)
              || (HasExpired(r, s, now) && SocketsOf(r, s) - Dead(r.socks) != {})
  {
    if k in r.socks && r.socks[k].session == Some(s) {
      SweepSocket(r, now, k, s);
    }
    SweepTombstones(r, now, s);
    SweepTracked(r, now, k, s);
    hide Sweep;
  }

  lemma SweepTracked(r: Registry, now: int, k: SocketId, s: SessionId)
    requires Inv(r)
    ensures k in SocketsOf(Sweep(r, now), s) <==>
              k in r.socks && r.socks[k].session == Some(s) && Live(r.socks[k]) && !HasExpired(r, s, now)
  {
    assert s in r.tracked ==> HeldBy(r.socks, r.tracked[s], s);
  }
}
