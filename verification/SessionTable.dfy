/**
 The three session maps as the coordinator updates them in place, against the operations on registries.
 */
module SessionTable {
  import opened Options
  import opened SessionSockets

  class SessionMaps {
    var socks: map<SocketId, Sock>
    var tracked: map<SessionId, set<SocketId>>
    var expires: map<SessionId, int>
    var revoked: map<SessionId, int>

    function Abs(): Registry
      reads this
    {
      Registry(socks, tracked, expires, revoked)
    }

    constructor ()
      ensures Abs() == Registry(map[], map[], map[], map[])
    {
      socks, tracked, expires, revoked := map[], map[], map[], map[];
    }

    method Forget(s: SessionId)
      modifies this`tracked, this`expires
      ensures Abs() == SessionSockets.Forget(old(Abs()), s)
    {
      tracked := tracked - {s};
      expires := expires - {s};
    }

    method Untrack(k: SocketId)
      modifies this`tracked, this`expires
      ensures Abs() == SessionSockets.Untrack(old(Abs()), k)
    {
      if k !in socks || socks[k].session.None? || socks[k].session.value !in tracked {
        return;
      }
      var s := socks[k].session.value;
      tracked := tracked[s := tracked[s] - {k}];
      if tracked[s] == {} {
        assert tracked - {s} == old(tracked) - {s};
        Forget(s);
      }
    }

    method Close(k: SocketId)
      modifies this`socks, this`tracked, this`expires
      ensures Abs() == SessionSockets.Close(old(Abs()), k)
    {
      if k !in socks {
        return;
      }
      var wasConnected := socks[k].connected;
      socks := socks[k := Closed(socks[k])];
      if wasConnected {
        Untrack(k);
      }
    }

    method Track(k: SocketId, s: SessionId, expiresAt: Option<int>)
      modifies this
      ensures Abs() == SessionSockets.Track(old(Abs()), k, s, expiresAt)
    {
      if k !in socks {
        return;
      }
      socks := socks[k := socks[k].(session := Some(s))];
      if s in revoked {
        Close(k);
        return;
      }
      tracked := tracked[s := (if s in tracked then tracked[s] else {}) + {k}];
      if expiresAt.Some? {
        expires := expires[s := expiresAt.value];
      }
    }

    /** Closes the sockets of a session that was already forgotten, so that no disconnect handler finds it. */
    method CloseSockets(ks: set<SocketId>, ghost s: SessionId)
      requires s !in tracked && forall k :: k in ks ==> k in socks && socks[k].session == Some(s)
      modifies this`socks, this`tracked, this`expires
      ensures socks == CloseAll(old(socks), ks) && tracked == old(tracked) && expires == old(expires)
    {
      var left := ks;
      while left != {}
        invariant left <= ks && tracked == old(tracked) && expires == old(expires)
        invariant socks == CloseAll(old(socks), ks - left)
      {
        var k :| k in left;
        left := left - {k};
        Close(k);
        assert socks == CloseAll(old(socks), ks - left);
      }
    }

    /** The tombstone comes first, then the maps forget the session, and then its sockets close one by one. */
    method RevokeOne(s: SessionId, now: int)
      requires Inv(Abs())
      modifies this
      ensures Inv(Abs()) && Abs() == Revoke(old(Abs()), {s}, now)
    {
      revoked := revoked[s := now];
      var sockets := if s in tracked then tracked[s] else {};
      assert forall k :: k in sockets ==> k in socks && socks[k].session == Some(s) by {
        assert s in tracked ==> HeldBy(socks, tracked[s], s);
      }
      Forget(s);
      CloseSockets(sockets, s);
      RevokeOneIs(old(Abs()), s, now);
      hide Inv;
      hide Revoke;
      RevokeKeeps(old(Abs()), {s}, now);
    }

    method DisconnectSessions(ids: seq<SessionId>, now: int)
      requires Inv(Abs())
      modifies this
      ensures Inv(Abs()) && Abs() == Revoke(old(Abs()), Elements(ids), now)
    {
      RevokeNone(Abs(), now);
      for i := 0 to |ids|
        invariant Inv(Abs()) && Abs() == Revoke(old(Abs()), Elements(ids[..i]), now)
      {
        RevokeMore(old(Abs()), Elements(ids[..i]), ids[i], now);
        assert Elements(ids[..i + 1]) == Elements(ids[..i]) + {ids[i]};
        RevokeOne(ids[i], now);
        hide Inv;
        hide Revoke;
      }
      assert ids[..|ids|] == ids;
    }

    method UntrackDead()
      requires Inv(Abs())
      modifies this`tracked, this`expires
      ensures Inv(Abs()) && Abs() == DropGone(old(Abs()), Dead(socks))
    {
      var left := set s, k | s in tracked && k in tracked[s] :: k;
      ghost var gone: set<SocketId> := {};
      ghost var before := Abs();
      DropNone(before);
      while left != {}
        invariant gone <= Dead(socks) && Inv(Abs()) && Abs() == DropGone(before, gone)
        invariant forall s, k :: s in before.tracked && k in before.tracked[s] && k in Dead(socks) ==>
                    k in left || k in gone
      {
        var k :| k in left;
        left := left - {k};
        if k in socks && !Live(socks[k]) {
          DropOneMore(before, gone, k);
          UntrackKeeps(Abs(), k);
          Untrack(k);
          gone := gone + {k};
        }
      }
      SameDrop(before, gone, Dead(socks));
    }

    method Sweep(now: int)
      requires Inv(Abs())
      modifies this
      ensures Inv(Abs()) && Abs() == SessionSockets.Sweep(old(Abs()), now)
    {
      var unseen := revoked.Keys;
      ghost var r := revoked;
      while unseen != {}
        invariant unseen <= revoked.Keys <= r.Keys
        invariant forall s :: s in r ==> (s in revoked <==> s in unseen || !Lapsed(r[s], now))
        invariant forall s :: s in revoked ==> revoked[s] == r[s]
        invariant Abs() == old(Abs()).(revoked := revoked)
      {
        var s :| s in unseen;
        unseen := unseen - {s};
        if now - revoked[s] > RETENTION {
          revoked := revoked - {s};
        }
      }
      assert revoked == Lasting(r, now);
      UntrackDead();
      var expired := [];
      var left := expires.Keys;
      while left != {}
        invariant left <= expires.Keys
        invariant forall s :: s in expired <==> s in expires && s !in left && expires[s] <= now
        invariant Abs() == DropGone(old(Abs()).(revoked := Lasting(r, now)), Dead(old(socks))) && Inv(Abs())
      {
        var s :| s in left;
        left := left - {s};
        if expires[s] <= now {
          expired := expired + [s];
        }
      }
      assert Elements(expired) == Expired(expires, now);
      DisconnectSessions(expired, now);
    }
  }

  function Elements(ids: seq<SessionId>): set<SessionId> {
    set s | s in ids
  }

  lemma RevokeNone(r: Registry, now: int)
    ensures Revoke(r, {}, now) == r
  {
    assert CloseAll(r.socks, {}) == r.socks && TrackedBy(r, {}) == {};
    assert Stamped(r.revoked, {}, now) == r.revoked;
  }

  lemma TrackedByOne(r: Registry, s: SessionId)
    ensures TrackedBy(r, {s}) == SocketsOf(r, s)
  {
    forall k ensures k in TrackedBy(r, {s}) <==> k in SocketsOf(r, s) {
      if k in SocketsOf(r, s) {
        assert s in {s} && k in r.tracked[s];
      }
    }
  }

  lemma RevokeOneIs(r: Registry, s: SessionId, now: int)
    ensures Revoke(r, {s}, now)
            == Registry(CloseAll(r.socks, SocketsOf(r, s)), r.tracked - {s}, r.expires - {s}, r.revoked[s := now])
  {
    TrackedByOne(r, s);
    assert Stamped(r.revoked, {s}, now) == r.revoked[s := now];
  }

  lemma TrackedByMore(r: Registry, ids: set<SessionId>, s: SessionId)
    ensures TrackedBy(r, ids + {s}) == TrackedBy(r, ids) + SocketsOf(r, s)
  {
    forall k ensures k in TrackedBy(r, ids + {s}) <==> k in TrackedBy(r, ids) + SocketsOf(r, s) {
      if k in SocketsOf(r, s) {
        assert s in ids + {s} && k in r.tracked[s];
      } else if k in TrackedBy(r, ids) {
        var x :| x in ids && x in r.tracked && k in r.tracked[x];
        assert x in ids + {s};
      }
    }
  }

  /** Revoking one more session afterwards is revoking it with the others. */
  lemma RevokeMore(r: Registry, ids: set<SessionId>, s: SessionId, now: int)
    ensures Revoke(Revoke(r, ids, now), {s}, now) == Revoke(r, ids + {s}, now)
  {
    var q := Revoke(r, ids, now);
    TrackedByOne(q, s);
    TrackedByMore(r, ids, s);
    if s in ids {
      assert ids + {s} == ids;
    }
    hide TrackedBy;
    assert q.tracked - {s} == r.tracked - (ids + {s}) && q.expires - {s} == r.expires - (ids + {s});
    assert CloseAll(q.socks, SocketsOf(q, s)) == CloseAll(r.socks, TrackedBy(r, ids + {s}));
    assert Stamped(q.revoked, {s}, now) == Stamped(r.revoked, ids + {s}, now);
  }

  lemma DropNone(r: Registry)
    requires Inv(r)
    ensures DropGone(r, {}) == r
  {
    assert forall s :: s in r.tracked ==> HeldBy(r.socks, r.tracked[s], s) && r.tracked[s] - {} == r.tracked[s];
    assert Without(r.tracked, {}) == r.tracked;
    assert Only(r.expires, r.tracked.Keys) == r.expires;
  }

  lemma WithoutStranger(t: map<SessionId, set<SocketId>>, gone: set<SocketId>, k: SocketId)
    requires forall x :: x in t ==> k !in t[x]
    ensures Without(t, gone + {k}) == Without(t, gone)
  {
    forall x | x in t ensures t[x] - (gone + {k}) == t[x] - gone {
    }
  }

  lemma WithoutOneMore(t: map<SessionId, set<SocketId>>, gone: set<SocketId>, k: SocketId, s: SessionId)
    requires forall x :: x in t && x != s ==> k !in t[x]
    ensures var w := Without(t, gone);
            Without(t, gone + {k}) ==
              if s !in w then w else if w[s] - {k} == {} then w - {s} else w[s := w[s] - {k}]
  {
    forall x | x in t ensures t[x] - (gone + {k}) == if x == s then t[x] - gone - {k} else t[x] - gone {
    }
    var w, v := Without(t, gone), Without(t, gone + {k});
    assert forall x :: x in w && x != s ==> x in v && v[x] == w[x];
    assert forall x :: x in v && x != s ==> x in w;
  }

  lemma WithoutKnown(r: Registry, gone: set<SocketId>, k: SocketId)
    requires Inv(r) && k in r.socks
    ensures var w, s := Without(r.tracked, gone), r.socks[k].session;
            Without(r.tracked, gone + {k}) ==
              if s.None? || s.value !in w then w
              else if w[s.value] - {k} == {} then w - {s.value}
              else w[s.value := w[s.value] - {k}]
  {
    hide Without;
    forall x | x in r.tracked && k in r.tracked[x] ensures r.socks[k].session == Some(x) {
      assert HeldBy(r.socks, r.tracked[x], x);
    }
    if r.socks[k].session.Some? {
      WithoutOneMore(r.tracked, gone, k, r.socks[k].session.value);
    } else {
      WithoutStranger(r.tracked, gone, k);
    }
  }

  lemma DropOneMore(r: Registry, gone: set<SocketId>, k: SocketId)
    requires Inv(r) && k in r.socks
    ensures SessionSockets.Untrack(DropGone(r, gone), k) == DropGone(r, gone + {k})
  {
    hide Without;
    WithoutKnown(r, gone, k);
    var t := Without(r.tracked, gone);
    var t' := Without(r.tracked, gone + {k});
    hide Inv;
    assert t'.Keys <= t.Keys;
    assert Only(Only(r.expires, t.Keys), t'.Keys) == Only(r.expires, t'.Keys);
    OnlyMinus(r.expires, t.Keys, r.socks[k].session);
  }

  lemma OnlyMinus(e: map<SessionId, int>, keys: set<SessionId>, s: Option<SessionId>)
    ensures s.Some? ==> Only(e, keys) - {s.value} == Only(e, keys - {s.value})
  {
  }

  lemma SameDrop(r: Registry, gone: set<SocketId>, dead: set<SocketId>)
    requires gone <= dead && forall s, k :: s in r.tracked && k in r.tracked[s] && k in dead ==> k in gone
    ensures DropGone(r, gone) == DropGone(r, dead)
  {
    forall s | s in r.tracked ensures r.tracked[s] - gone == r.tracked[s] - dead {
    }
    assert Without(r.tracked, gone) == Without(r.tracked, dead);
  }
}
