/**
 The peering maps and rows as they are updated in place.
 */
module PeeringTable {
  import opened Options
  import opened Peering

  lemma {:induction false} WithoutAbsent(peers: seq<MachineId>, m: MachineId)
    ensures m !in peers ==> Without(peers, m) == peers
  {
    if peers != [] {
      WithoutAbsent(peers[1..], m);
    }
  }

  class NodePeering {
    var machineOf: map<NodeId, MachineId>
    var nodeOf: map<MachineId, NodeId>
    var peersOf: map<NodeId, seq<MachineId>>
    var rows: Rows

    function Mem(): Memory
      reads this
    {
      Memory(machineOf, nodeOf, peersOf)
    }

    function Abs(): State
      reads this
    {
      State(Mem(), rows)
    }

    constructor (stored: Rows)
      ensures Abs() == State(Memory(map[], map[], map[]), stored)
    {
      machineOf, nodeOf, peersOf, rows := map[], map[], map[], stored;
    }

    /** A node's report updates the maps first and then the rows. */
    method OnPeers(n: NodeId, self: string, peers: seq<MachineId>)
      modifies this
      ensures Abs() == Step(old(Abs()), Peers(n, self, peers))
    {
      if self != "" {
        if n in machineOf && machineOf[n] != self {
          nodeOf := nodeOf - {machineOf[n]};
        }
        if self in nodeOf && nodeOf[self] != n {
          machineOf := machineOf - {nodeOf[self]};
        }
        machineOf := machineOf[n := self];
        nodeOf := nodeOf[self := n];
      }
      peersOf := peersOf[n := peers];
      SetNodePeering(n, self, peers);
    }

    method SetNodePeering(n: NodeId, self: string, peers: seq<MachineId>)
      modifies this`rows
      ensures rows == Persist(old(rows), n, self, peers)
    {
      var id := Text.Trim(n);
      if id == "" {
        return;
      }
      var machine := Text.Trim(self);
      if machine != "" {
        rows := map x | x in rows ::
          if rows[x].machine == Some(machine) && x != id then rows[x].(machine := None) else rows[x];
      }
      if id in rows {
        rows := rows[id := Row(if machine != "" then Some(machine) else rows[id].machine, peers)];
      }
      hide Text.Trim;
      assert rows == Persist(old(rows), n, self, peers);
    }

    /** The node's row is deleted before; then every peer list loses its machine. */
    method Forget(n: NodeId)
      modifies this
      ensures Abs() == Step(old(Abs()), Op.Remove(n))
    {
      rows := rows - {n};
      var machine := ForgetMaps(n);
      if machine.None? {
        return;
      }
      RemoveNodePeer(machine.value);
    }

    /** The three maps forget the node, and the peer lists its machine. */
    method ForgetMaps(n: NodeId) returns (machine: Option<MachineId>)
      modifies this`machineOf, this`nodeOf, this`peersOf
      ensures machine == Get(old(machineOf), n) && Mem() == ForgetMemory(old(Mem()), n)
    {
      machine := if n in machineOf then Some(machineOf[n]) else None;
      if machine.Some? && machine.value in nodeOf && nodeOf[machine.value] == n {
        nodeOf := nodeOf - {machine.value};
      }
      machineOf := machineOf - {n};
      peersOf := peersOf - {n};
      if machine.None? {
        return;
      }
      DropPeer(machine.value);
    }

    method DropPeer(machine: MachineId)
      modifies this`peersOf
      ensures peersOf == map x | x in old(peersOf) :: Without(old(peersOf)[x], machine)
    {
      ghost var before := peersOf;
      var left := peersOf.Keys;
      while left != {}
        invariant left <= peersOf.Keys == before.Keys
        invariant forall x :: x in before ==> peersOf[x] == if x in left then before[x] else Without(before[x], machine)
      {
        var x :| x in left;
        left := left - {x};
        WithoutAbsent(peersOf[x], machine);
        if machine in peersOf[x] {
          peersOf := peersOf[x := Without(peersOf[x], machine)];
        }
      }
    }

    method RemoveNodePeer(machine: string)
      modifies this`rows
      ensures rows == RemovePeer(old(rows), machine)
    {
      var id := Text.Trim(machine);
      if id == "" {
        return;
      }
      ghost var before := rows;
      var left := rows.Keys;
      while left != {}
        invariant left <= rows.Keys == before.Keys
        invariant forall x :: x in before ==>
                    rows[x] == if x in left then before[x] else before[x].(peers := Without(before[x].peers, id))
      {
        var x :| x in left;
        left := left - {x};
        WithoutAbsent(rows[x].peers, id);
        if id in rows[x].peers {
          rows := rows[x := rows[x].(peers := Without(rows[x].peers, id))];
        }
      }
      hide Text.Trim;
      assert rows == RemovePeer(before, machine);
    }

    /** A restart reads every row once, in any order. */
    method Initialize()
      requires Stored(rows) && Mem() == Memory(map[], map[], map[])
      modifies this`machineOf, this`nodeOf, this`peersOf
      ensures Mem() == Reload(rows)
    {
      var left := rows.Keys;
      assert Rest(rows, left) == map[];
      while left != {}
        invariant left <= rows.Keys && Unique(Rest(rows, left)) && Mem() == Reload(Rest(rows, left))
      {
        var x :| x in left;
        ghost var done := Rest(rows, left);
        left := left - {x};
        assert Rest(rows, left) == done[x := rows[x]];
        ReloadOne(done, x, rows[x]);
        if rows[x].machine.Some? {
          machineOf := machineOf[x := rows[x].machine.value];
          nodeOf := nodeOf[rows[x].machine.value := x];
        }
        if rows[x].peers != [] {
          peersOf := peersOf[x := rows[x].peers];
        }
        hide Reload;
      }
      assert Rest(rows, left) == rows;
    }
  }

  function Rest(rows: Rows, left: set<NodeId>): Rows {
    map x | x in rows && x !in left :: rows[x]
  }

  lemma UniqueBefore(rows: Rows, n: NodeId, row: Row)
    requires Unique(rows[n := row]) && n !in rows
    ensures Unique(rows)
  {
    var all := rows[n := row];
    forall x, y | x in rows && y in rows && rows[x].machine.Some? && rows[x].machine == rows[y].machine ensures x == y {
      assert all[x] == rows[x] && all[y] == rows[y];
    }
  }

  lemma IdsWith(rows: Rows, n: NodeId, row: Row)
    requires n !in rows
    ensures MachineIds(rows[n := row]) == MachineIds(rows) + if row.machine.Some? then {row.machine.value} else {}
  {
    var all := rows[n := row];
    assert all[n] == row;
    forall x | x in rows && rows[x].machine.Some? ensures rows[x].machine.value in MachineIds(all) {
      assert x in all && all[x] == rows[x];
    }
    forall x | x in all && all[x].machine.Some? && x != n ensures all[x].machine.value in MachineIds(rows) {
      assert x in rows && rows[x] == all[x];
    }
  }

  lemma NodeWithOne(rows: Rows, n: NodeId, row: Row, id: MachineId)
    requires Unique(rows[n := row]) && n !in rows && Unique(rows) && id in MachineIds(rows[n := row])
    ensures row.machine != Some(id) ==> id in MachineIds(rows)
    ensures NodeWith(rows[n := row], id) == if row.machine == Some(id) then n else NodeWith(rows, id)
  {
    IdsWith(rows, n, row);
    var all := rows[n := row];
    var y := if row.machine == Some(id) then n else NodeWith(rows, id);
    assert all[y].machine == Some(id) == all[NodeWith(all, id)].machine;
  }

  lemma MachinesWith(rows: Rows, n: NodeId, row: Row)
    requires n !in rows
    ensures MachinesOf(rows[n := row]) == if row.machine.Some? then MachinesOf(rows)[n := row.machine.value]
            else MachinesOf(rows)
  {
  }

  lemma PeerListsWith(rows: Rows, n: NodeId, row: Row)
    requires n !in rows
    ensures PeerListsOf(rows[n := row]) == if row.peers != [] then PeerListsOf(rows)[n := row.peers]
            else PeerListsOf(rows)
  {
  }

  lemma NodesWith(rows: Rows, n: NodeId, row: Row)
    requires Unique(rows[n := row]) && n !in rows && Unique(rows)
    ensures NodesOf(rows[n := row]) == if row.machine.Some? then NodesOf(rows)[row.machine.value := n]
            else NodesOf(rows)
  {
    IdsWith(rows, n, row);
    var a, b := NodesOf(rows), NodesOf(rows[n := row]);
    forall id | id in b ensures b[id] == if row.machine == Some(id) then n else NodeWith(rows, id) {
      NodeWithOne(rows, n, row, id);
    }
    hide MachineIds;
    hide NodeWith;
    hide Unique;
  }

  /** One more row read. */
  lemma ReloadOne(rows: Rows, n: NodeId, row: Row)
    requires Unique(rows[n := row]) && n !in rows
    ensures Unique(rows)
    ensures var r, s := Reload(rows), Reload(rows[n := row]);
            && s.machineOf == (if row.machine.Some? then r.machineOf[n := row.machine.value] else r.machineOf)
            && s.nodeOf == (if row.machine.Some? then r.nodeOf[row.machine.value := n] else r.nodeOf)
            && s.peersOf == (if row.peers != [] then r.peersOf[n := row.peers] else r.peersOf)
  {
    UniqueBefore(rows, n, row);
    hide Unique;
    hide MachinesOf;
    hide PeerListsOf;
    hide NodesOf;
    MachinesWith(rows, n, row);
    PeerListsWith(rows, n, row);
    NodesWith(rows, n, row);
  }
}
