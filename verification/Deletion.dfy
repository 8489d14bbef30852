/**
 Deleting a user: what the database cascade takes with it, and who must be told, computed beforehand.
 */
module Deletion {
  import opened Options

  type UserId = int
  type NodeId = string
  type GroupId = int

  datatype Role = Owner | Admin

  datatype Database = Database(
    users: set<UserId>,
    nodes: map<NodeId, Option<UserId>>,
    access: map<(UserId, NodeId), Role>,
    groups: map<GroupId, Option<UserId>>,
    members: set<(UserId, GroupId)>,
    shares: set<(GroupId, NodeId)>)

  /** Every reference points at a row that exists. */
  predicate Intact(db: Database) {
    && (forall n | n in db.nodes :: db.nodes[n].Some? ==> db.nodes[n].value in db.users)
    && (forall g | g in db.groups :: db.groups[g].Some? ==> db.groups[g].value in db.users)
    && (forall a | a in db.access :: a.0 in db.users && a.1 in db.nodes)
    && (forall m | m in db.members :: m.0 in db.users && m.1 in db.groups)
    && (forall s | s in db.shares :: s.0 in db.groups && s.1 in db.nodes)
  }

  predicate Owns(db: Database, u: UserId, n: NodeId) {
    n in db.nodes && db.nodes[n] == Some(u)
  }

  predicate Created(db: Database, u: UserId, g: GroupId) {
    g in db.groups && db.groups[g] == Some(u)
  }

  // ---------- the cascade ----------

  /** The user goes, with the nodes they own, the groups they created, and every row that refers to any of those. */
  function Cascade(db: Database, u: UserId): Database {
    Database(
      db.users - {u},
      map n | n in db.nodes && !Owns(db, u, n) :: db.nodes[n],
      map a | a in db.access && a.0 != u && !Owns(db, u, a.1) :: db.access[a],
      map g | g in db.groups && !Created(db, u, g) :: db.groups[g],
      set m | m in db.members && m.0 != u && !Created(db, u, m.1),
      set s | s in db.shares && !Created(db, u, s.0) && !Owns(db, u, s.1))
  }

  lemma CascadeIntact(db: Database, u: UserId)
    requires Intact(db)
    ensures Intact(Cascade(db, u))
    ensures forall n :: n in db.nodes ==> (n !in Cascade(db, u).nodes <==> Owns(db, u, n))
  {
    var after := Cascade(db, u);
    forall n | n in after.nodes && after.nodes[n].Some? ensures after.nodes[n].value in after.users {
      assert n in db.nodes;
    }
    forall g | g in after.groups && after.groups[g].Some? ensures after.groups[g].value in after.users {
      assert g in db.groups;
    }
    forall a | a in after.access ensures a.0 in after.users && a.1 in after.nodes {
      assert a in db.access;
    }
    forall m | m in after.members ensures m.0 in after.users && m.1 in after.groups {
      assert m in db.members;
    }
    forall s | s in after.shares ensures s.0 in after.groups && s.1 in after.nodes {
      assert s in db.shares;
    }
  }

  /**
   Of all users only `u` goes, and any other row goes exactly when a row it refers to goes: a node with its owner, a
   group with its creator, and an access, a membership or a share with either of its ends.  Rows that stay are as they
   were.
   */
  lemma CascadeExactly(db: Database, u: UserId)
    requires Intact(db)
    ensures var after := Cascade(db, u);
            && after.users == db.users - {u}
            && (forall n :: n in db.nodes ==>
                  (n !in after.nodes <==> db.nodes[n].Some? && db.nodes[n].value in db.users - after.users))
            && (forall g :: g in db.groups ==>
                  (g !in after.groups <==> db.groups[g].Some? && db.groups[g].value in db.users - after.users))
            && (forall a :: a in db.access ==> (a !in after.access <==> a.0 !in after.users || a.1 !in after.nodes))
            && (forall m :: m in db.members ==> (m !in after.members <==> m.0 !in after.users || m.1 !in after.groups))
            && (forall s :: s in db.shares ==> (s !in after.shares <==> s.0 !in after.groups || s.1 !in after.nodes))
    ensures var after := Cascade(db, u);
            && (forall n :: n in after.nodes ==> n in db.nodes && after.nodes[n] == db.nodes[n])
            && (forall g :: g in after.groups ==> g in db.groups && after.groups[g] == db.groups[g])
            && (forall a :: a in after.access ==> a in db.access && after.access[a] == db.access[a])
            && after.members <= db.members && after.shares <= db.shares
  {
    assert u !in db.users ==> forall n :: n in db.nodes ==> !Owns(db, u, n);
    assert u !in db.users ==> forall g :: g in db.groups ==> !Created(db, u, g);
  }

  // ---------- what a user's inventory shows ----------

  datatype Label = Direct | Shared

  predicate Direct(db: Database, v: UserId, n: NodeId) {
    v in db.users && n in db.nodes && (v, n) in db.access
  }

  predicate Via(db: Database, v: UserId, g: GroupId, n: NodeId) {
    v in db.users && n in db.nodes && g in db.groups && (v, g) in db.members && (g, n) in db.shares
  }

  predicate Shared(db: Database, v: UserId, n: NodeId) {
    exists g :: g in db.groups && Via(db, v, g, n)
  }

  /** The nodes a user can reach, and whether directly or only through a group. */
  function Inventory(db: Database, v: UserId): map<NodeId, Label> {
    map n | n in db.nodes && (Direct(db, v, n) || Shared(db, v, n)) ::
      if Direct(db, v, n) then Label.Direct else Label.Shared
  }

  /** In terms of the rows: an access row reaches a node directly, a membership and a share of one group through it. */
  lemma InventoryMeans(db: Database, v: UserId, n: NodeId)
    requires Intact(db)
    ensures n in Inventory(db, v) <==>
              (exists a :: a in db.access && a.0 == v && a.1 == n)
              || (exists m, s :: m in db.members && s in db.shares && m.0 == v && m.1 == s.0 && s.1 == n)
    ensures n in Inventory(db, v) ==>
              (Inventory(db, v)[n] == Label.Direct <==> exists a :: a in db.access && a.0 == v && a.1 == n)
  {
    if a :| a in db.access && a.0 == v && a.1 == n {
      assert a == (v, n);
    }
    if m, s :| m in db.members && s in db.shares && m.0 == v && m.1 == s.0 && s.1 == n {
      assert m == (v, m.1) && s == (m.1, n) && Via(db, v, m.1, n);
    }
    if Shared(db, v, n) {
      var g :| g in db.groups && Via(db, v, g, n);
      assert (v, g).0 == v && (v, g).1 == g && (g, n).0 == g && (g, n).1 == n;
    }
    if Direct(db, v, n) {
      assert (v, n).0 == v && (v, n).1 == n;
    }
  }

  /** The directly invited users an owner sees on a node. */
  function Admins(db: Database, n: NodeId): set<UserId> {
    set a | a in db.access && a.1 == n && db.access[a] != Owner :: a.0
  }

  /** The groups an owner sees a node shared with. */
  function GroupsOf(db: Database, n: NodeId): set<GroupId> {
    set s | s in db.shares && s.1 == n :: s.0
  }

  /** In terms of the rows: an admin is invited without owning, a group is one the node is shared with. */
  lemma OwnerListsMean(db: Database, n: NodeId, v: UserId, g: GroupId)
    ensures v in Admins(db, n) <==> (v, n) in db.access && db.access[(v, n)] == Admin
    ensures g in GroupsOf(db, n) <==> (g, n) in db.shares
  {
    assert (v, n).0 == v && (v, n).1 == n && (g, n).0 == g && (g, n).1 == n;
    if v in Admins(db, n) {
      var a :| a in db.access && a.1 == n && db.access[a] != Owner && a.0 == v;
      assert a == (v, n);
    }
    if g in GroupsOf(db, n) {
      var s :| s in db.shares && s.1 == n && s.0 == g;
      assert s == (g, n);
    }
  }

  predicate AdminsChange(db: Database, u: UserId, v: UserId) {
    exists n :: n in db.nodes && Owns(db, v, n) && Admins(Cascade(db, u), n) != Admins(db, n)
  }

  // ---------- who is affected ----------

  predicate SeesOwned(db: Database, u: UserId, v: UserId, n: NodeId) {
    Owns(db, u, n) && (v == u || Direct(db, v, n) || Shared(db, v, n))
  }

  predicate SharesCreated(db: Database, u: UserId, v: UserId, g: GroupId) {
    Created(db, u, g) && (v, g) in db.members
  }

  predicate HasInvited(db: Database, u: UserId, v: UserId, n: NodeId) {
    Direct(db, u, n) && Owns(db, v, n)
  }

  predicate InvitedBy(db: Database, u: UserId, v: UserId) {
    exists n :: n in db.nodes && HasInvited(db, u, v, n)
  }

  predicate IsAffected(db: Database, u: UserId, v: UserId) {
    v != u && (
      || (exists n :: n in db.nodes && SeesOwned(db, u, v, n))
      || (exists g :: g in db.groups && SharesCreated(db, u, v, g))
      || InvitedBy(db, u, v))
  }

  function Affected(db: Database, u: UserId): set<UserId> {
    set v | v in db.users && IsAffected(db, u, v)
  }

  /** What a surviving user can reach changes only for users in the set. */
  lemma InventoryCovered(db: Database, u: UserId, v: UserId)
    requires Intact(db) && v in db.users && v !in Affected(db, u) && v != u
    ensures Inventory(Cascade(db, u), v) == Inventory(db, v)
  {
    var after := Cascade(db, u);
    forall n | n in db.nodes
      ensures Direct(after, v, n) == Direct(db, v, n) && Shared(after, v, n) == Shared(db, v, n)
      ensures n !in after.nodes ==> !Direct(db, v, n) && !Shared(db, v, n)
    {
      assert Owns(db, u, n) ==> !SeesOwned(db, u, v, n);
      if Shared(db, v, n) {
        var g :| g in db.groups && Via(db, v, g, n);
        assert !SharesCreated(db, u, v, g);
        assert Via(after, v, g, n);
      }
      if Shared(after, v, n) {
        var g :| g in after.groups && Via(after, v, g, n);
        assert Via(db, v, g, n);
      }
    }
    assert after.nodes.Keys <= db.nodes.Keys;
  }

  /** Losing an invited admin changes only lists of owners in the set. */
  lemma AdminsCovered(db: Database, u: UserId, v: UserId)
    requires Intact(db) && v in db.users && v !in Affected(db, u) && v != u
    ensures !AdminsChange(db, u, v)
  {
    var after := Cascade(db, u);
    forall n | n in db.nodes && Owns(db, v, n) ensures Admins(after, n) == Admins(db, n) {
      assert !HasInvited(db, u, v, n);
      forall a | a in db.access && a.1 == n && db.access[a] != Owner
        ensures a in after.access && after.access[a] == db.access[a]
      {
        assert a == (a.0, n);
      }
    }
  }

  /**
   Every other user whose reachable nodes change, or who owns a node whose list of admins changes, when `u` is deleted
   is in the set computed beforehand, and `u` is not.
   */
  lemma DeletionReachesEveryone(db: Database, u: UserId)
    requires Intact(db)
    ensures u !in Affected(db, u)
    ensures forall v :: v in db.users && v != u
                        && (Inventory(Cascade(db, u), v) != Inventory(db, v) || AdminsChange(db, u, v)) ==>
              v in Affected(db, u)
  {
    forall v | v in db.users && v != u && v !in Affected(db, u)
      ensures Inventory(Cascade(db, u), v) == Inventory(db, v) && !AdminsChange(db, u, v)
    {
      InventoryCovered(db, u, v);
      AdminsCovered(db, u, v);
    }
  }

  // ---------- the list of groups is not covered ----------

  /**
   Whoever shares a node they own with a group that `u` created is `u`, or is in a group that `u` created, or reaches a
   node that `u` owns directly or through a group, or has invited `u` to one of their nodes.
   */
  predicate SharersReached(db: Database, u: UserId) {
    forall s | s in db.shares && s.1 in db.nodes && db.nodes[s.1].Some? && Created(db, u, s.0) ::
      Reached(db, u, db.nodes[s.1].value)
  }

  predicate Reached(db: Database, u: UserId, v: UserId) {
    || v == u
    || (exists m :: m in db.members && m.0 == v && Created(db, u, m.1))
    || (exists a :: a in db.access && a.0 == v && Owns(db, u, a.1))
    || (exists m, s :: m in db.members && s in db.shares && m.0 == v && m.1 == s.0 && Owns(db, u, s.1))
    || (exists a :: a in db.access && a.0 == u && Owns(db, v, a.1))
  }

  /** In terms of the rows: who is in the set. */
  lemma ReachedIsAffected(db: Database, u: UserId, v: UserId)
    requires Intact(db) && v in db.users
    ensures Reached(db, u, v) <==> v == u || IsAffected(db, u, v)
  {
    if v != u && Reached(db, u, v) {
      if m :| m in db.members && m.0 == v && Created(db, u, m.1) {
        assert m == (v, m.1) && SharesCreated(db, u, v, m.1);
      } else if a :| a in db.access && a.0 == v && Owns(db, u, a.1) {
        assert a == (v, a.1) && SeesOwned(db, u, v, a.1);
      } else if m, s :| m in db.members && s in db.shares && m.0 == v && m.1 == s.0 && Owns(db, u, s.1) {
        assert m == (v, s.0) && s == (s.0, s.1) && Via(db, v, s.0, s.1);
        assert SeesOwned(db, u, v, s.1);
      } else {
        var a :| a in db.access && a.0 == u && Owns(db, v, a.1);
        assert a == (u, a.1) && HasInvited(db, u, v, a.1);
      }
    }
    if IsAffected(db, u, v) {
      AffectedIsReached(db, u, v);
    }
  }

  lemma AffectedIsReached(db: Database, u: UserId, v: UserId)
    requires IsAffected(db, u, v)
    ensures Reached(db, u, v)
  {
    if n :| n in db.nodes && SeesOwned(db, u, v, n) {
      if Direct(db, v, n) {
        assert (v, n).0 == v && (v, n).1 == n;
      } else {
        var g :| g in db.groups && Via(db, v, g, n);
        assert (v, g).0 == v && (v, g).1 == g && (g, n).0 == g && (g, n).1 == n;
      }
    } else if g :| g in db.groups && SharesCreated(db, u, v, g) {
      assert (v, g).0 == v && (v, g).1 == g;
    } else {
      var n :| n in db.nodes && HasInvited(db, u, v, n);
      assert (u, n).0 == u && (u, n).1 == n;
    }
  }

  predicate GroupsChange(db: Database, u: UserId, v: UserId) {
    exists n :: n in db.nodes && Owns(db, v, n) && GroupsOf(Cascade(db, u), n) != GroupsOf(db, n)
  }

  /** The lists of groups that owners see are covered exactly when every owner who shares with a deleted group is. */
  lemma GroupListsCoveredExactly(db: Database, u: UserId)
    requires Intact(db)
    ensures (forall v :: v in db.users && v != u && GroupsChange(db, u, v) ==> v in Affected(db, u))
            <==> SharersReached(db, u)
  {
    forall v | v in db.users && v != u
      ensures GroupsChange(db, u, v) <==> exists s :: s in db.shares && Owns(db, v, s.1) && Created(db, u, s.0)
    {
      GroupsChangeExactly(db, u, v);
    }
    forall v | v in db.users ensures Reached(db, u, v) <==> v == u || IsAffected(db, u, v) {
      ReachedIsAffected(db, u, v);
    }
    hide Reached;
    hide IsAffected;
    hide GroupsChange;
    if SharersReached(db, u) {
      forall v | v in db.users && v != u && GroupsChange(db, u, v) ensures v in Affected(db, u) {
        var s :| s in db.shares && Owns(db, v, s.1) && Created(db, u, s.0);
        assert db.nodes[s.1].value == v;
      }
    } else {
      var s :| s in db.shares && s.1 in db.nodes && db.nodes[s.1].Some? && Created(db, u, s.0)
               && !Reached(db, u, db.nodes[s.1].value);
      var v := db.nodes[s.1].value;
      assert v in db.users && Owns(db, v, s.1);
      assert GroupsChange(db, u, v) && v !in Affected(db, u);
    }
  }

  lemma GroupsChangeExactly(db: Database, u: UserId, v: UserId)
    requires Intact(db) && v != u
    ensures GroupsChange(db, u, v) <==> exists s :: s in db.shares && Owns(db, v, s.1) && Created(db, u, s.0)
  {
    var after := Cascade(db, u);
    forall n | n in db.nodes && Owns(db, v, n)
      ensures GroupsOf(after, n) == GroupsOf(db, n) <==> forall s :: s in db.shares && s.1 == n ==> !Created(db, u, s.0)
    {
      GroupsOfAfter(db, u, n);
    }
  }

  lemma GroupsOfAfter(db: Database, u: UserId, n: NodeId)
    requires n in db.nodes && !Owns(db, u, n)
    ensures GroupsOf(Cascade(db, u), n) == GroupsOf(db, n) <==>
              forall s :: s in db.shares && s.1 == n ==> !Created(db, u, s.0)
  {
    var after := Cascade(db, u);
    forall s | s in db.shares && s.1 == n
      ensures s.0 in GroupsOf(db, n) && (s.0 in GroupsOf(after, n) <==> !Created(db, u, s.0))
    {
      assert s in after.shares <==> !Created(db, u, s.0);
      assert s == (s.0, n);
    }
  }

  /** An owner who shared a node with another user's group, without being in it, is not told when the group goes. */
  function SharedAway(): Database {
    Database({1, 2}, map["n" := Some(2)], map[(2, "n") := Owner], map[5 := Some(1)], {(1, 5)}, {(5, "n")})
  }

  lemma OwnerNotTold()
    ensures Intact(SharedAway())
    ensures 2 !in Affected(SharedAway(), 1)
    ensures GroupsOf(SharedAway(), "n") == {5} && GroupsOf(Cascade(SharedAway(), 1), "n") == {}
  {
    var db := SharedAway();
    assert (5, "n") in db.shares;
    assert 5 in GroupsOf(db, "n");
    assert Created(db, 1, 5);
    assert forall n :: n in db.nodes ==> n == "n";
    assert !SeesOwned(db, 1, 2, "n") && !SharesCreated(db, 1, 2, 5) && !HasInvited(db, 1, 2, "n");
  }

  // ---------- the lists as they are built ----------

  function DirectUsers(db: Database, n: NodeId): set<UserId> {
    set a | a in db.access && a.1 == n :: a.0
  }

  function GroupUsers(db: Database, g: GroupId): set<UserId> {
    set m | m in db.members && m.1 == g :: m.0
  }

  lemma SomeGroup(gs: set<GroupId>)
    ensures gs == {} <==> forall g :: g !in gs
  {
    if forall g :: g !in gs {
      assert gs == {};
    }
  }

  /** Everyone who sees one owned node: its owner, its direct users, and the members of the groups it is shared with. */
  method AddViewers(db: Database, n: NodeId, before: set<UserId>) returns (affected: set<UserId>)
    requires Intact(db) && n in db.nodes
    ensures forall v :: v in affected <==> v in before || Owns(db, v, n) || Direct(db, v, n) || Shared(db, v, n)
  {
    affected := before;
    if db.nodes[n].Some? {
      affected := affected + {db.nodes[n].value};
    }
    affected := affected + DirectUsers(db, n);
    var left: set<GroupId> := GroupsOf(db, n);
    forall v ensures v in DirectUsers(db, n) <==> Direct(db, v, n) {
      assert (v, n) in db.access ==> (v, n).0 in DirectUsers(db, n);
    }
    ghost var start := affected;
    while left != {}
      invariant left <= GroupsOf(db, n)
      invariant forall v :: v in affected <==>
                  v in start || exists g :: g in GroupsOf(db, n) && g !in left && (v, g) in db.members
    {
      SomeGroup(left);
      var g: GroupId :| g in left;
      left := left - {g};
      affected := affected + GroupUsers(db, g);
      forall v ensures v in GroupUsers(db, g) <==> (v, g) in db.members {
        assert (v, g) in db.members ==> (v, g).0 in GroupUsers(db, g);
      }
    }
    forall v ensures Shared(db, v, n) <==> exists g :: g in GroupsOf(db, n) && (v, g) in db.members {
      SharedMeans(db, v, n);
    }
  }

  lemma SharedMeans(db: Database, v: UserId, n: NodeId)
    requires Intact(db) && n in db.nodes
    ensures Shared(db, v, n) <==> exists g :: g in GroupsOf(db, n) && (v, g) in db.members
  {
    if Shared(db, v, n) {
      var g :| g in db.groups && Via(db, v, g, n);
      assert (g, n).0 in GroupsOf(db, n);
    }
    if g :| g in GroupsOf(db, n) && (v, g) in db.members {
      assert (g, n) in db.shares;
      assert Via(db, v, g, n);
    }
  }

  method ListNodeOwnersForMember(db: Database, u: UserId) returns (owners: set<UserId>)
    requires Intact(db) && u in db.users
    ensures forall v :: v in owners <==> v != u && InvitedBy(db, u, v)
  {
    owners := {};
    var left := set n | n in db.nodes && (u, n) in db.access;
    ghost var mine := left;
    while left != {}
      invariant left <= mine
      invariant forall v :: v in owners <==>
                  v != u && exists n :: n in db.nodes && n in mine && n !in left && Owns(db, v, n)
    {
      var n :| n in left;
      left := left - {n};
      ghost var before := owners;
      if db.nodes[n].Some? && db.nodes[n].value != u {
        owners := owners + {db.nodes[n].value};
      }
      forall v ensures v in owners <==> v in before || (v != u && Owns(db, v, n)) {
      }
    }
    forall v ensures InvitedBy(db, u, v) <==> exists n :: n in db.nodes && n in mine && Owns(db, v, n) {
      assert forall n :: n in db.nodes ==> (HasInvited(db, u, v, n) <==> n in mine && Owns(db, v, n));
    }
  }

  method ListUsersAffectedByUserDeletion(db: Database, u: UserId) returns (affected: set<UserId>)
    requires Intact(db) && u in db.users
    ensures affected == Affected(db, u)
  {
    affected := {};
    var owned := set n | n in db.nodes && Owns(db, u, n);
    var left := owned;
    while left != {}
      invariant left <= owned
      invariant forall v :: v in affected <==>
                  exists n :: n in db.nodes && n in owned && n !in left && SeesOwned(db, u, v, n)
    {
      var n :| n in left;
      left := left - {n};
      ghost var before := affected;
      affected := AddViewers(db, n, affected);
      forall v ensures v in affected <==> v in before || SeesOwned(db, u, v, n) {
      }
    }
    ghost var viewers := affected;
    affected := AddCreatedGroups(db, u, affected);
    var owners := ListNodeOwnersForMember(db, u);
    affected := affected + owners - {u};
    forall v ensures v in affected <==> IsAffected(db, u, v) {
    }
    assert forall v :: v in affected ==> v in db.users;
  }

  method AddCreatedGroups(db: Database, u: UserId, before: set<UserId>) returns (affected: set<UserId>)
    requires Intact(db)
    ensures forall v :: v in affected <==> v in before || exists g :: g in db.groups && SharesCreated(db, u, v, g)
  {
    affected := before;
    var created := set g | g in db.groups && Created(db, u, g);
    var left := created;
    while left != {}
      invariant left <= created
      invariant forall v :: v in affected <==>
                  v in before || exists g :: g in db.groups && g in created && g !in left && SharesCreated(db, u, v, g)
    {
      SomeGroup(left);
      var g: GroupId :| g in left;
      left := left - {g};
      ghost var start := affected;
      affected := affected + GroupUsers(db, g);
      forall v ensures v in affected <==> v in start || SharesCreated(db, u, v, g) {
        assert (v, g) in db.members ==> (v, g).0 in GroupUsers(db, g);
      }
    }
  }

  datatype Entry = Entry(node: NodeId, how: Label)

  /** Each node once, with the right label, and the direct ones first. */
  predicate Lists(entries: seq<Entry>, nodes: map<NodeId, Label>) {
    && (forall e | e in entries :: e.node in nodes && nodes[e.node] == e.how)
    && (forall n | n in nodes :: Entry(n, nodes[n]) in entries)
    && (forall i, j | 0 <= i < j < |entries| :: entries[i].node != entries[j].node)
    && (forall i, j | 0 <= i < j < |entries| && entries[j].how.Direct? :: entries[i].how.Direct?)
  }

  lemma ListsMore(entries: seq<Entry>, nodes: map<NodeId, Label>, n: NodeId, how: Label)
    requires Lists(entries, nodes) && n !in nodes
    requires how.Direct? ==> forall x :: x in nodes ==> nodes[x].Direct?
    ensures Lists(entries + [Entry(n, how)], nodes[n := how])
  {
    forall i | 0 <= i < |entries| ensures entries[i].node != n && (how.Direct? ==> entries[i].how.Direct?) {
      assert entries[i] in entries;
    }
  }

  function Labelled(ns: set<NodeId>, how: Label): map<NodeId, Label> {
    map n | n in ns :: how
  }

  lemma LabelledMore(nodes: map<NodeId, Label>, ns: set<NodeId>, n: NodeId, how: Label)
    ensures (nodes + Labelled(ns, how))[n := how] == nodes + Labelled(ns + {n}, how)
    ensures nodes + Labelled({}, how) == nodes
  {
  }

  /** Appends nodes that are not listed yet, in any order. */
  method ListNew(entries: seq<Entry>, ghost nodes: map<NodeId, Label>, ns: set<NodeId>, how: Label)
    returns (more: seq<Entry>)
    requires Lists(entries, nodes) && ns !! nodes.Keys
    requires how.Direct? ==> forall x :: x in nodes ==> nodes[x].Direct?
    ensures Lists(more, nodes + Labelled(ns, how))
  {
    hide Lists;
    more := entries;
    var left := ns;
    LabelledMore(nodes, {}, "", how);
    assert ns - left == {};
    while left != {}
      invariant left <= ns && Lists(more, nodes + Labelled(ns - left, how))
    {
      var n :| n in left;
      ghost var done := ns - left;
      ListsMore(more, nodes + Labelled(done, how), n, how);
      LabelledMore(nodes, done, n, how);
      left := left - {n};
      more := more + [Entry(n, how)];
      assert ns - left == done + {n};
    }
    assert ns - left == ns;
  }

  function DirectNodes(db: Database, v: UserId): set<NodeId> {
    set n | n in db.nodes && (v, n) in db.access
  }

  /** The nodes shared with the groups of `gs` that are not direct. */
  ghost function SharedNodes(db: Database, v: UserId, gs: set<GroupId>): set<NodeId> {
    set n | n in db.nodes && n !in DirectNodes(db, v) && (exists g :: g in gs && Via(db, v, g, n))
  }

  /** The direct nodes and those of some groups, labelled. */
  ghost function NodesOf(db: Database, v: UserId, gs: set<GroupId>): map<NodeId, Label> {
    Labelled(DirectNodes(db, v), Label.Direct) + Labelled(SharedNodes(db, v, gs), Label.Shared)
  }

  /** Direct nodes first, then those reached through groups; a node reached in several ways is listed once. */
  method ListAccessibleNodes(db: Database, v: UserId) returns (entries: seq<Entry>)
    requires Intact(db)
    ensures Lists(entries, Inventory(db, v))
  {
    if v !in db.users {
      assert Inventory(db, v) == map[];
      return [];
    }
    entries := ListNew([], map[], DirectNodes(db, v), Label.Direct);
    hide Lists;
    var mine: set<GroupId> := set m | m in db.members && m.0 == v :: m.1;
    var left := mine;
    var listed := DirectNodes(db, v);
    NoGroups(db, v);
    assert mine - left == {};
    while left != {}
      invariant left <= mine && listed == NodesOf(db, v, mine - left).Keys
      invariant Lists(entries, NodesOf(db, v, mine - left))
    {
      SomeGroup(left);
      var g: GroupId :| g in left;
      ghost var seen := mine - left;
      left := left - {g};
      assert (v, g) in db.members && mine - left == seen + {g};
      hide NodesOf;
      entries, listed := ListGroup(db, v, seen, g, entries, listed);
    }
    assert mine - left == mine;
    AllGroups(db, v, mine);
  }

  lemma NoGroups(db: Database, v: UserId)
    ensures NodesOf(db, v, {}) == map[] + Labelled(DirectNodes(db, v), Label.Direct)
    ensures NodesOf(db, v, {}).Keys == DirectNodes(db, v)
  {
    assert SharedNodes(db, v, {}) == {};
  }

  /** One group's nodes, without those already listed. */
  method ListGroup(db: Database, v: UserId, ghost seen: set<GroupId>, g: GroupId,
                   before: seq<Entry>, known: set<NodeId>)
    returns (entries: seq<Entry>, listed: set<NodeId>)
    requires Intact(db) && (v, g) in db.members && known == NodesOf(db, v, seen).Keys
    requires Lists(before, NodesOf(db, v, seen))
    ensures listed == NodesOf(db, v, seen + {g}).Keys && Lists(entries, NodesOf(db, v, seen + {g}))
  {
    var added := GroupNodes(db, g) - known;
    OneGroupListed(db, v, seen, g, added);
    hide NodesOf;
    hide Lists;
    entries := ListNew(before, NodesOf(db, v, seen), added, Label.Shared);
    listed := known + added;
  }

  function GroupNodes(db: Database, g: GroupId): set<NodeId> {
    set n | n in db.nodes && (g, n) in db.shares
  }

  lemma OneGroupListed(db: Database, v: UserId, seen: set<GroupId>, g: GroupId, added: set<NodeId>)
    requires Intact(db) && (v, g) in db.members && added == GroupNodes(db, g) - NodesOf(db, v, seen).Keys
    ensures NodesOf(db, v, seen) + Labelled(added, Label.Shared) == NodesOf(db, v, seen + {g})
    ensures NodesOf(db, v, seen + {g}).Keys == NodesOf(db, v, seen).Keys + added
  {
    hide SharedNodes;
    hide DirectNodes;
    hide GroupNodes;
    LabelledKeys(DirectNodes(db, v), SharedNodes(db, v, seen), added);
    OneGroupMore(db, v, seen, g, added);
    LabelledKeys(DirectNodes(db, v), SharedNodes(db, v, seen + {g}), {});
    hide Labelled;
  }

  lemma LabelledKeys(direct: set<NodeId>, shared: set<NodeId>, added: set<NodeId>)
    ensures (Labelled(direct, Label.Direct) + Labelled(shared, Label.Shared)).Keys == direct + shared
    ensures Labelled(direct, Label.Direct) + Labelled(shared, Label.Shared) + Labelled(added, Label.Shared)
            == Labelled(direct, Label.Direct) + Labelled(shared + added, Label.Shared)
  {
  }

  lemma OneGroupMore(db: Database, v: UserId, seen: set<GroupId>, g: GroupId, added: set<NodeId>)
    requires Intact(db) && (v, g) in db.members
    requires added == GroupNodes(db, g) - (DirectNodes(db, v) + SharedNodes(db, v, seen))
    ensures SharedNodes(db, v, seen + {g}) == SharedNodes(db, v, seen) + added
  {
    forall n ensures n in SharedNodes(db, v, seen + {g}) <==> n in SharedNodes(db, v, seen) + added {
      assert n in added ==> g in seen + {g} && Via(db, v, g, n);
      if x :| x in seen && Via(db, v, x, n) {
        assert x in seen + {g};
      }
    }
  }

  lemma AllGroups(db: Database, v: UserId, mine: set<GroupId>)
    requires Intact(db) && v in db.users && mine == set m | m in db.members && m.0 == v :: m.1
    ensures NodesOf(db, v, mine) == Inventory(db, v)
  {
    forall n, g | Via(db, v, g, n) ensures g in mine {
      assert (v, g).1 in mine;
    }
    forall n | n in db.nodes ensures n in SharedNodes(db, v, mine) <==> n !in DirectNodes(db, v) && Shared(db, v, n) {
    }
  }
}
