/**
 The race between looking a session row up and tracking the socket, against deleting the row and revoking the session:
 every interleaving, with the clock.
 */
module SessionRuns {
  import opened Options
  import opened SessionSockets

  /** A socket between reading the session row and being tracked. */
  datatype Lookup = Lookup(session: SessionId, expires: int, at: int)

  /**
   `rows` are the session rows, by when they expire. `used` (when each row ever created expires), `lastRevoke` and
   `lastSweep` only record what happened.
   */
  datatype World = World(
    now: int, rows: map<SessionId, int>, used: map<SessionId, int>, lookups: map<SocketId, Lookup>, reg: Registry,
    lastRevoke: map<SessionId, int>, lastSweep: Option<int>)

  datatype Event =
    | Create(s: SessionId, expires: int)
    | Open(k: SocketId)
    | Read(k: SocketId, s: SessionId)
    | Tracked(k: SocketId)
    | Connect(k: SocketId)
    | Drop(k: SocketId)
    | Delete(s: SessionId)
    | Revoked(ids: set<SessionId>)
    | Swept
    | Tick(until: int)

  function Start(now: int): World {
    World(now, map[], map[], map[], Registry(map[], map[], map[], map[]), map[], None)
  }

  predicate Enabled(w: World, e: Event) {
    match e
    case Create(s, _) => s !in w.used
    case Open(k) => k !in w.reg.socks
    case Read(k, s) => k in w.reg.socks && w.reg.socks[k].session.None? && k !in w.lookups && s in w.rows
      && w.now < w.rows[s]
    case Tracked(k) => k in w.lookups
    case Connect(k) => k in w.reg.socks && w.reg.socks[k].open
    case Revoked(ids) => ids <= w.used.Keys && ids !! w.rows.Keys
    case Tick(until) => w.now <= until
    case _ => true
  }

  function SweptIds(w: World): set<SessionId> {
    Expired(DropGone(w.reg.(revoked := Lasting(w.reg.revoked, w.now)), Dead(w.reg.socks)).expires, w.now)
  }

  function Step(w: World, e: Event): World
    requires Enabled(w, e)
  {
    match e
    case Create(s, expires) => w.(rows := w.rows[s := expires], used := w.used[s := expires])
    case Open(k) => w.(reg := w.reg.(socks := w.reg.socks[k := Sock(None, false, true)]))
    case Read(k, s) => w.(lookups := w.lookups[k := Lookup(s, w.rows[s], w.now)])
    case Tracked(k) =>
      w.(lookups := w.lookups - {k}, reg := Track(w.reg, k, w.lookups[k].session, Some(w.lookups[k].expires)))
    case Connect(k) => w.(reg := w.reg.(socks := w.reg.socks[k := w.reg.socks[k].(connected := true)]))
    case Drop(k) => w.(reg := Close(w.reg, k))
    case Delete(s) => w.(rows := w.rows - {s})
    case Revoked(ids) => w.(reg := Revoke(w.reg, ids, w.now), lastRevoke := Stamped(w.lastRevoke, ids, w.now))
    case Swept =>
      w.(reg := Sweep(w.reg, w.now), lastRevoke := Stamped(w.lastRevoke, SweptIds(w), w.now), lastSweep := Some(w.now))
    case Tick(until) => w.(now := until)
  }

  predicate IsRun(w: World, es: seq<Event>)
    decreases es
  {
    es == [] || (Enabled(w, es[0]) && IsRun(Step(w, es[0]), es[1..]))
  }

  function After(w: World, es: seq<Event>): World
    requires IsRun(w, es)
    decreases es
  {
    if es == [] then w else After(Step(w, es[0]), es[1..])
  }

  // ---------- the invariant ----------

  /** The tombstone of the session's last revocation was swept away. */
  predicate TombstoneGone(w: World, s: SessionId)
    requires s in w.lastRevoke
  {
    w.lastSweep.Some? && Lapsed(w.lastRevoke[s], w.lastSweep.value)
  }

  ghost predicate Tombstones(w: World) {
    && (w.lastSweep.Some? ==> w.lastSweep.value <= w.now)
    && w.reg.revoked.Keys <= w.lastRevoke.Keys <= w.used.Keys
    && (forall s :: s in w.lastRevoke ==>
          w.lastRevoke[s] <= w.now && (s in w.reg.revoked <==> !TombstoneGone(w, s)))
    && (forall s :: s in w.reg.revoked ==> w.reg.revoked[s] == w.lastRevoke[s])
  }

  predicate LookupInv(w: World, k: SocketId)
    requires k in w.lookups
  {
    var l := w.lookups[k];
    && k in w.reg.socks && w.reg.socks[k].session.None? && l.at <= w.now && l.session in w.used
    && (l.session in w.lastRevoke ==> l.at <= w.lastRevoke[l.session])
    && w.used[l.session] == l.expires
  }

  ghost predicate Lookups(w: World) {
    forall k :: k in w.lookups ==> LookupInv(w, k)
  }

  ghost predicate Rows(w: World) {
    && w.rows.Keys <= w.used.Keys && w.reg.tracked.Keys <= w.used.Keys
    && (forall s :: s in w.rows ==> w.rows[s] == w.used[s])
    && (forall s :: s in w.rows && s in w.lastRevoke ==> w.rows[s] <= w.now)
  }

  /** Every tracked session has its expiry entry: what its row said when it was read. */
  ghost predicate Entries(w: World) {
    forall s :: s in w.reg.tracked ==> s in w.reg.expires && s in w.used && w.reg.expires[s] == w.used[s]
  }

  ghost predicate WorldInv(w: World) {
    Inv(w.reg) && Tombstones(w) && Lookups(w) && Rows(w) && Entries(w)
  }

  lemma RegStep(w: World, e: Event)
    requires Inv(w.reg) && Lookups(w) && Enabled(w, e)
    ensures Inv(Step(w, e).reg)
  {
    match e
    case Tracked(k) => assert LookupInv(w, k); TrackKeeps(w.reg, k, w.lookups[k].session, Some(w.lookups[k].expires));
    case Drop(k) => CloseKeeps(w.reg, k);
    case Revoked(ids) => RevokeKeeps(w.reg, ids, w.now);
    case Swept => SweepKeeps(w.reg, w.now);
    case _ =>
  }

  lemma UntrackOnly(r: Registry, k: SocketId)
    ensures Untrack(r, k).revoked == r.revoked && Untrack(r, k).socks == r.socks
    ensures Untrack(r, k).tracked.Keys <= r.tracked.Keys
    ensures Untrack(r, k).expires.Keys <= r.expires.Keys
    ensures forall s :: s in Untrack(r, k).expires ==> Untrack(r, k).expires[s] == r.expires[s]
  {
  }

  lemma CloseOnly(r: Registry, k: SocketId)
    ensures Close(r, k).revoked == r.revoked
    ensures Close(r, k).socks == if k in r.socks then r.socks[k := Closed(r.socks[k])] else r.socks
    ensures Close(r, k).tracked.Keys <= r.tracked.Keys
    ensures Close(r, k).expires.Keys <= r.expires.Keys
    ensures forall s :: s in Close(r, k).expires ==> Close(r, k).expires[s] == r.expires[s]
  {
    if k in r.socks {
      UntrackOnly(r.(socks := r.socks[k := Closed(r.socks[k])]), k);
    }
  }

  lemma TrackOnly(r: Registry, k: SocketId, s: SessionId, expires: int)
    requires k in r.socks
    ensures var q := Track(r, k, s, Some(expires));
            && q.revoked == r.revoked
            && q.socks.Keys == r.socks.Keys && (forall x :: x in r.socks && x != k ==> q.socks[x] == r.socks[x])
            && q.tracked.Keys <= r.tracked.Keys + {s}
            && (forall x :: x in q.expires ==>
                  (x == s && q.expires[x] == expires) || (x in r.expires && q.expires[x] == r.expires[x]))
  {
    CloseOnly(r.(socks := r.socks[k := r.socks[k].(session := Some(s))]), k);
  }

  lemma TombstonesStep(w: World, e: Event)
    requires WorldInv(w) && Enabled(w, e) && !e.Swept?
    ensures Tombstones(Step(w, e))
  {
    match e
    case Tracked(k) => assert LookupInv(w, k); TrackOnly(w.reg, k, w.lookups[k].session, w.lookups[k].expires);
    case Drop(k) => CloseOnly(w.reg, k);
    case _ =>
  }

  lemma TombstonesSwept(w: World)
    requires WorldInv(w)
    ensures Tombstones(Step(w, Swept))
  {
  }

  lemma RowsStep(w: World, e: Event)
    requires WorldInv(w) && Enabled(w, e)
    ensures Rows(Step(w, e))
  {
    match e
    case Tracked(k) => assert LookupInv(w, k); TrackOnly(w.reg, k, w.lookups[k].session, w.lookups[k].expires);
    case Drop(k) => CloseOnly(w.reg, k);
    case _ =>
  }

  lemma UntrackEntries(r: Registry, k: SocketId)
    ensures forall s :: s in Untrack(r, k).tracked ==> s in r.tracked && (s in r.expires ==> s in Untrack(r, k).expires)
  {
  }

  lemma TrackedEntries(w: World, k: SocketId)
    requires WorldInv(w) && k in w.lookups
    ensures Entries(Step(w, Tracked(k)))
  {
    var l := w.lookups[k];
    assert LookupInv(w, k);
    TrackOnly(w.reg, k, l.session, l.expires);
    if l.session in w.reg.revoked {
      var q := w.reg.(socks := w.reg.socks[k := Closed(w.reg.socks[k].(session := Some(l.session)))]);
      UntrackEntries(q, k);
      UntrackOnly(q, k);
    }
    hide Tombstones;
    hide Lookups;
    hide Rows;
    hide Inv;
  }

  lemma DroppedEntries(w: World, k: SocketId)
    requires Entries(w)
    ensures Entries(Step(w, Drop(k)))
  {
    if k in w.reg.socks {
      var q := w.reg.(socks := w.reg.socks[k := Closed(w.reg.socks[k])]);
      UntrackEntries(q, k);
      UntrackOnly(q, k);
    }
  }

  lemma SweptEntries(w: World)
    requires Entries(w)
    ensures Entries(Step(w, Swept))
  {
  }

  lemma EntriesStep(w: World, e: Event)
    requires WorldInv(w) && Enabled(w, e)
    ensures Entries(Step(w, e))
  {
    if e.Tracked? {
      TrackedEntries(w, e.k);
    } else if e.Drop? {
      DroppedEntries(w, e.k);
    } else if e.Swept? {
      SweptEntries(w);
    } else {
      hide Tombstones;
      hide Lookups;
      hide Inv;
    }
  }

  lemma LookupsStep(w: World, e: Event)
    requires WorldInv(w) && Enabled(w, e)
    ensures Lookups(Step(w, e))
  {
    var v := Step(w, e);
    forall k | k in v.lookups ensures LookupInv(v, k) {
      assert k in w.lookups ==> LookupInv(w, k);
      match e
      case Tracked(x) => TrackOnly(w.reg, x, w.lookups[x].session, w.lookups[x].expires);
      case Drop(x) => CloseOnly(w.reg, x);
      case _ =>
    }
  }

  lemma StepKeeps(w: World, e: Event)
    requires WorldInv(w) && Enabled(w, e)
    ensures WorldInv(Step(w, e))
  {
    hide Inv;
    hide Tombstones;
    hide Lookups;
    hide Rows;
    hide Entries;
    hide Step;
    RegStep(w, e);
    if e.Swept? {
      TombstonesSwept(w);
    } else {
      TombstonesStep(w, e);
    }
    RowsStep(w, e);
    EntriesStep(w, e);
    LookupsStep(w, e);
  }

  lemma StartKeeps(now: int)
    ensures WorldInv(Start(now))
  {
  }

  // ---------- revoked sessions lose their sockets ----------

  /** Reading the row and tracking the socket lie no further apart than a tombstone lasts. */
  predicate Prompt(w: World, e: Event) {
    e.Tracked? && e.k in w.lookups ==> w.now - w.lookups[e.k].at <= RETENTION
  }

  predicate IsPrompt(w: World, es: seq<Event>)
    requires IsRun(w, es)
    decreases es
  {
    es == [] || (Prompt(w, es[0]) && IsPrompt(Step(w, es[0]), es[1..]))
  }

  /** Every socket authenticated from the session is closed and untracked. */
  ghost predicate Shut(w: World, s: SessionId) {
    && s !in w.reg.tracked
    && forall k :: k in w.reg.socks && w.reg.socks[k].session == Some(s) ==> !Live(w.reg.socks[k])
  }

  ghost predicate RevokedShut(w: World) {
    forall s :: s in w.lastRevoke ==> Shut(w, s)
  }

  lemma UntrackedShut(w: World, s: SessionId)
    requires Inv(w.reg) && s !in w.reg.tracked
    ensures Shut(w, s)
  {
    forall k | k in w.reg.socks && w.reg.socks[k].session == Some(s) ensures !Live(w.reg.socks[k]) {
      assert k !in SocketsOf(w.reg, s);
    }
  }

  /**
   Tracking a socket whose session was revoked after the row was read: it ends closed and untracked exactly when the
   tombstone was not swept away, and otherwise it stays open and tracked.
   */
  lemma TrackAfterRevoke(w: World, k: SocketId)
    requires WorldInv(w) && k in w.lookups && w.lookups[k].session in w.lastRevoke
    ensures var s := w.lookups[k].session;
            var v := Step(w, Tracked(k));
            && (!TombstoneGone(w, s) ==> !Live(v.reg.socks[k]) && k !in SocketsOf(v.reg, s))
            && (TombstoneGone(w, s) ==>
                  v.reg.socks[k] == w.reg.socks[k].(session := Some(s)) && k in SocketsOf(v.reg, s))
    ensures Prompt(w, Tracked(k)) ==> !TombstoneGone(w, w.lookups[k].session)
  {
    assert LookupInv(w, k);
    var s := w.lookups[k].session;
    if s in w.reg.revoked {
      var q := w.reg.(socks := w.reg.socks[k := w.reg.socks[k].(session := Some(s))]);
      CloseOnly(q, k);
    }
  }

  lemma PromptStep(w: World, e: Event, s: SessionId)
    requires WorldInv(w) && Enabled(w, e) && Prompt(w, e) && RevokedShut(w) && s in Step(w, e).lastRevoke
    ensures s !in Step(w, e).reg.tracked
  {
    match e
    case Tracked(k) =>
      assert LookupInv(w, k) && Shut(w, s);
      TrackOnly(w.reg, k, w.lookups[k].session, w.lookups[k].expires);
      if s == w.lookups[k].session {
        TrackAfterRevoke(w, k);
        CloseOnly(w.reg.(socks := w.reg.socks[k := w.reg.socks[k].(session := Some(s))]), k);
      }
    case Drop(k) => assert Shut(w, s); CloseOnly(w.reg, k);
    case Revoked(ids) => assert s !in ids ==> Shut(w, s);
    case Swept => assert s !in SweptIds(w) ==> Shut(w, s);
    case _ => assert Shut(w, s);
  }

  lemma {:induction false} RunShuts(w: World, es: seq<Event>)
    requires WorldInv(w) && RevokedShut(w) && IsRun(w, es) && IsPrompt(w, es)
    ensures WorldInv(After(w, es)) && RevokedShut(After(w, es))
    decreases es
  {
    if es != [] {
      var v := Step(w, es[0]);
      StepKeeps(w, es[0]);
      forall s | s in v.lastRevoke ensures Shut(v, s) {
        PromptStep(w, es[0], s);
        UntrackedShut(v, s);
      }
      RunShuts(v, es[1..]);
    }
  }

  lemma {:induction false} RunKeeps(w: World, es: seq<Event>)
    requires WorldInv(w) && IsRun(w, es)
    ensures WorldInv(After(w, es))
    decreases es
  {
    if es != [] {
      StepKeeps(w, es[0]);
      RunKeeps(Step(w, es[0]), es[1..]);
    }
  }

  /**
   Whatever the interleaving of row reads, deletions, revocations, sweeps and tracking: once a session's revocation was
   handled, every socket authenticated from it is closed and untracked, or closes as it comes to be tracked, provided
   each read-to-track gap stays within the retention.
   */
  lemma RevokedSocketsEndClosed(start: int, es: seq<Event>, s: SessionId, k: SocketId)
    requires IsRun(Start(start), es) && IsPrompt(Start(start), es)
    requires var w := After(Start(start), es);
             s in w.lastRevoke && k in w.reg.socks && w.reg.socks[k].session == Some(s)
    ensures var w := After(Start(start), es);
            !w.reg.socks[k].connected && !w.reg.socks[k].open && forall x :: k !in SocketsOf(w.reg, x)
  {
    var w := After(Start(start), es);
    StartKeeps(start);
    RunShuts(Start(start), es);
    assert Shut(w, s);
    assert forall x :: x in w.reg.tracked ==> HeldBy(w.reg.socks, w.reg.tracked[x], x);
  }

  /** In every run the tables stay disjoint and tracked sets non-empty, however late sockets are tracked. */
  lemma RunKeepsTables(start: int, es: seq<Event>)
    requires IsRun(Start(start), es)
    ensures var r := After(Start(start), es).reg;
            && r.revoked.Keys !! r.tracked.Keys && r.expires.Keys <= r.tracked.Keys
            && (forall s :: s in r.tracked ==> r.tracked[s] != {})
            && (forall k :: k in r.socks && r.socks[k].session.Some? && Live(r.socks[k]) ==>
                  k in SocketsOf(r, r.socks[k].session.value))
  {
    StartKeeps(start);
    RunKeeps(Start(start), es);
    var r := After(Start(start), es).reg;
    assert forall s :: s in r.tracked ==> HeldBy(r.socks, r.tracked[s], s);
  }

  lemma RunCons(w: World, e: Event, v: World, es: seq<Event>)
    requires Enabled(w, e) && v == Step(w, e)
    ensures IsRun(w, [e] + es) <==> IsRun(v, es)
    ensures IsRun(w, [e] + es) ==> After(w, [e] + es) == After(v, es)
  {
    assert ([e] + es)[1..] == es;
  }

  const LONG_EXPIRY: int := 10 * RETENTION

  /** A session row is read, deleted and revoked at once, and its socket is tracked only after a late sweep. */
  function LateTrack(late: int): seq<Event> {
    [Create(1, LONG_EXPIRY)] + ([Open(7)] + ([Read(7, 1)] + ([Delete(1)] + ([Revoked({1})] + LateEnd(late)))))
  }

  function LateEnd(late: int): seq<Event> {
    [Tick(late)] + ([Swept] + ([Tracked(7)] + []))
  }

  function LateWorld(now: int, revoked: map<SessionId, int>, lastSweep: Option<int>): World {
    World(now, map[], map[1 := LONG_EXPIRY], map[7 := Lookup(1, LONG_EXPIRY, 0)],
          Registry(map[7 := Sock(None, false, true)], map[], map[], revoked), map[1 := 0], lastSweep)
  }

  lemma LateBeginning(es: seq<Event>)
    requires IsRun(LateWorld(0, map[1 := 0], None), es)
    ensures var all := [Create(1, LONG_EXPIRY)] + ([Open(7)] + ([Read(7, 1)] + ([Delete(1)] + ([Revoked({1})] + es))));
            IsRun(Start(0), all) && After(Start(0), all) == After(LateWorld(0, map[1 := 0], None), es)
  {
    var r := Registry(map[7 := Sock(None, false, true)], map[], map[], map[]);
    var l := map[7 := Lookup(1, LONG_EXPIRY, 0)];
    var none := Registry(map[], map[], map[], map[]);
    var w1 := World(0, map[1 := LONG_EXPIRY], map[1 := LONG_EXPIRY], map[], none, map[], None);
    var w2 := World(0, map[1 := LONG_EXPIRY], map[1 := LONG_EXPIRY], map[], r, map[], None);
    var w3 := World(0, map[1 := LONG_EXPIRY], map[1 := LONG_EXPIRY], l, r, map[], None);
    var w4 := World(0, map[], map[1 := LONG_EXPIRY], l, r, map[], None);
    assert Step(w4, Revoked({1})) == LateWorld(0, map[1 := 0], None) by {
      assert TrackedBy(r, {1}) == {} && CloseAll(r.socks, {}) == r.socks;
      assert Stamped(map[], {1}, 0) == map[1 := 0];
    }
    assert Step(w3, Delete(1)) == w4;
    hide TrackedBy;
    hide Revoke;
    RunCons(w4, Revoked({1}), LateWorld(0, map[1 := 0], None), es);
    RunCons(w3, Delete(1), w4, [Revoked({1})] + es);
    RunCons(w2, Read(7, 1), w3, [Delete(1)] + ([Revoked({1})] + es));
    RunCons(w1, Open(7), w2, [Read(7, 1)] + ([Delete(1)] + ([Revoked({1})] + es)));
    RunCons(Start(0), Create(1, LONG_EXPIRY), w1, [Open(7)] + ([Read(7, 1)] + ([Delete(1)] + ([Revoked({1})] + es))));
  }

  lemma LateEnding(late: int)
    requires RETENTION < late < LONG_EXPIRY
    ensures var w := LateWorld(0, map[1 := 0], None);
            && IsRun(w, LateEnd(late)) && 7 in After(w, LateEnd(late)).reg.socks
            && After(w, LateEnd(late)).reg.socks[7].open
            && SocketsOf(After(w, LateEnd(late)).reg, 1) == {7}
            && 1 !in After(w, LateEnd(late)).rows && 1 in After(w, LateEnd(late)).lastRevoke
  {
    var w6, w7 := LateWorld(late, map[1 := 0], None), LateWorld(late, map[], Some(late));
    LateSweep(w6, late);
    assert Stamped(w6.lastRevoke, {}, late) == w6.lastRevoke;
    assert Step(w6, Swept) == w7;
    var w8 := Step(w7, Tracked(7));
    hide Sweep;
    hide SweptIds;
    RunCons(w7, Tracked(7), w8, []);
    RunCons(w6, Swept, w7, [Tracked(7)] + []);
    RunCons(LateWorld(0, map[1 := 0], None), Tick(late), w6, [Swept] + ([Tracked(7)] + []));
  }

  /** A socket tracked after its tombstone was swept away outlives its deleted, revoked session. */
  lemma LateSocketSurvives(late: int)
    requires RETENTION < late < LONG_EXPIRY
    ensures IsRun(Start(0), LateTrack(late))
    ensures var w := After(Start(0), LateTrack(late));
            1 !in w.rows && 1 in w.lastRevoke && 7 in w.reg.socks && w.reg.socks[7].open && SocketsOf(w.reg, 1) == {7}
  {
    LateEnding(late);
    LateBeginning(LateEnd(late));
  }

  lemma LateSweep(w: World, late: int)
    requires w.reg == Registry(map[7 := Sock(None, false, true)], map[], map[], map[1 := 0])
             && w.now == late > RETENTION
    ensures Sweep(w.reg, late) == Registry(map[7 := Sock(None, false, true)], map[], map[], map[]) && SweptIds(w) == {}
  {
    var r := w.reg.(revoked := Lasting(w.reg.revoked, late));
    assert r.revoked == map[];
    assert Dead(w.reg.socks) == {};
    assert DropGone(r, {}) == r;
    assert Expired(r.expires, late) == {} && TrackedBy(r, {}) == {};
    assert CloseAll(r.socks, {}) == r.socks;
    assert Stamped(r.revoked, {}, late) == r.revoked;
  }
}
