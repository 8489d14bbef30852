/**
 Which machine a node runs on and which machines it peers with: the in-memory maps, their persisted copy, and a restart.
 */
module Peering {
  import opened Options
  import Text

  type NodeId = string
  type MachineId = string

  datatype Row = Row(machine: Option<MachineId>, peers: seq<MachineId>)

  type Rows = map<NodeId, Row>

  datatype Memory = Memory(
    machineOf: map<NodeId, MachineId>,
    nodeOf: map<MachineId, NodeId>,
    peersOf: map<NodeId, seq<MachineId>>)

  function Get<K, V>(m: map<K, V>, k: K): Option<V> {
    if k in m then Some(m[k]) else None
  }

  function PeersAt(m: Memory, n: NodeId): seq<MachineId> {
    if n in m.peersOf then m.peersOf[n] else []
  }

  function Without(peers: seq<MachineId>, m: MachineId): seq<MachineId> {
    if peers == [] then []
    else (if peers[0] == m then [] else [peers[0]]) + Without(peers[1..], m)
  }

  // ---------- the operations ----------

  /** A node reports its own machine, unless that is missing, and its peers. */
  function Report(mem: Memory, n: NodeId, self: string, peers: seq<MachineId>): Memory {
    if self == "" then mem.(peersOf := mem.peersOf[n := peers])
    else
      var nodes := if n in mem.machineOf && mem.machineOf[n] != self then mem.nodeOf - {mem.machineOf[n]}
        else mem.nodeOf;
      var machines := if self in nodes && nodes[self] != n then mem.machineOf - {nodes[self]} else mem.machineOf;
      Memory(machines[n := self], nodes[self := n], mem.peersOf[n := peers])
  }

  function Persist(rows: Rows, n: NodeId, self: string, peers: seq<MachineId>): Rows {
    var id, machine := Text.Trim(n), Text.Trim(self);
    if id == "" then rows
    else
      map x | x in rows ::
        if x == id then Row(if machine == "" then rows[x].machine else Some(machine), peers)
        else if machine != "" && rows[x].machine == Some(machine) then rows[x].(machine := None)
        else rows[x]
  }

  function ForgetMemory(mem: Memory, n: NodeId): Memory {
    var machine := Get(mem.machineOf, n);
    var nodes := if machine.Some? && Get(mem.nodeOf, machine.value) == Some(n) then mem.nodeOf - {machine.value}
      else mem.nodeOf;
    var peersOf := mem.peersOf - {n};
    Memory(mem.machineOf - {n}, nodes,
           if machine.None? then peersOf else map x | x in peersOf :: Without(peersOf[x], machine.value))
  }

  function RemovePeer(rows: Rows, machine: string): Rows {
    var id := Text.Trim(machine);
    if id == "" then rows else map x | x in rows :: rows[x].(peers := Without(rows[x].peers, id))
  }

  /** The node's row goes first, then the memory and the peer lists forget it. */
  function ForgetRows(rows: Rows, mem: Memory, n: NodeId): Rows {
    if n in mem.machineOf then RemovePeer(rows - {n}, mem.machineOf[n]) else rows - {n}
  }

  predicate Unique(rows: Rows) {
    forall x, y | x in rows && y in rows && rows[x].machine.Some? && rows[x].machine == rows[y].machine :: x == y
  }

  function MachineIds(rows: Rows): set<MachineId> {
    set x | x in rows && rows[x].machine.Some? :: rows[x].machine.value
  }

  function NodeWith(rows: Rows, id: MachineId): (n: NodeId)
    requires Unique(rows) && id in MachineIds(rows)
    ensures n in rows && rows[n].machine == Some(id)
  {
    var n :| n in rows && rows[n].machine == Some(id);
    n
  }

  function MachinesOf(rows: Rows): map<NodeId, MachineId> {
    map x | x in rows && rows[x].machine.Some? :: rows[x].machine.value
  }

  function NodesOf(rows: Rows): map<MachineId, NodeId>
    requires Unique(rows)
  {
    map id | id in MachineIds(rows) :: NodeWith(rows, id)
  }

  function PeerListsOf(rows: Rows): map<NodeId, seq<MachineId>> {
    map x | x in rows && rows[x].peers != [] :: rows[x].peers
  }

  /** What a restart rebuilds from the rows. */
  function Reload(rows: Rows): Memory
    requires Unique(rows)
  {
    Memory(MachinesOf(rows), NodesOf(rows), PeerListsOf(rows))
  }

  // ---------- the invariants ----------

  /** The two maps are inverse to each other, and no machine id is empty. */
  ghost predicate Inverse(m: Memory) {
    && (forall n :: n in m.machineOf ==> m.machineOf[n] != "" && Get(m.nodeOf, m.machineOf[n]) == Some(n))
    && (forall id :: id in m.nodeOf ==> Get(m.machineOf, m.nodeOf[id]) == Some(id))
  }

  /** Every machine id stored is trimmed and not empty, and no two rows share one. */
  ghost predicate Stored(rows: Rows) {
    Unique(rows) && forall n :: n in rows && rows[n].machine.Some? ==> Clean(rows[n].machine.value)
  }

  predicate Clean(id: string) {
    id != "" && Text.Trimmed(id)
  }

  /** The memory says about every node what its row says, and nothing about nodes without one. */
  ghost predicate Agree(m: Memory, rows: Rows) {
    forall n :: Get(m.machineOf, n) == MachineIn(rows, n) && PeersAt(m, n) == PeersIn(rows, n)
  }

  function MachineIn(rows: Rows, n: NodeId): Option<MachineId> {
    if n in rows then rows[n].machine else None
  }

  function PeersIn(rows: Rows, n: NodeId): seq<MachineId> {
    if n in rows then rows[n].peers else []
  }

  /** The node without its machine. */
  function Unlinked(m: Memory, n: NodeId): Memory {
    if n in m.machineOf then m.(machineOf := m.machineOf - {n}, nodeOf := m.nodeOf - {m.machineOf[n]}) else m
  }

  /** The machine without its node. */
  function Released(m: Memory, id: MachineId): Memory {
    if id in m.nodeOf then m.(machineOf := m.machineOf - {m.nodeOf[id]}, nodeOf := m.nodeOf - {id}) else m
  }

  lemma UnlinkInverse(m: Memory, n: NodeId)
    requires Inverse(m)
    ensures Inverse(Unlinked(m, n)) && n !in Unlinked(m, n).machineOf
  {
  }

  lemma ReleaseInverse(m: Memory, id: MachineId)
    requires Inverse(m)
    ensures Inverse(Released(m, id)) && id !in Released(m, id).nodeOf
  {
  }

  lemma LinkInverse(m: Memory, n: NodeId, self: MachineId)
    requires Inverse(m) && n !in m.machineOf && self !in m.nodeOf && self != ""
    ensures Inverse(m.(machineOf := m.machineOf[n := self], nodeOf := m.nodeOf[self := n]))
  {
  }

  /** Reporting a new machine unlinks the node's former machine and the machine's former node, and links the two. */
  lemma ReportLinks(m: Memory, n: NodeId, self: string, peers: seq<MachineId>)
    requires self != "" && (n in m.machineOf ==> m.machineOf[n] != self) && (self in m.nodeOf ==> m.nodeOf[self] != n)
    ensures var b, r := Released(Unlinked(m, n), self), Report(m, n, self, peers);
            r.machineOf == b.machineOf[n := self] && r.nodeOf == b.nodeOf[self := n]
  {
  }

  lemma ReportInverse(m: Memory, n: NodeId, self: string, peers: seq<MachineId>)
    requires Inverse(m)
    ensures Inverse(Report(m, n, self, peers))
  {
    var r := Report(m, n, self, peers);
    assert n in m.machineOf ==> Get(m.nodeOf, m.machineOf[n]) == Some(n);
    assert self in m.nodeOf ==> Get(m.machineOf, m.nodeOf[self]) == Some(self);
    if self == "" || (n in m.machineOf && m.machineOf[n] == self) {
      hide Inverse;
      assert r.machineOf == m.machineOf && r.nodeOf == m.nodeOf;
      InverseOfMaps(m, r);
    } else {
      var b := Released(Unlinked(m, n), self);
      hide Inverse;
      UnlinkInverse(m, n);
      ReleaseInverse(Unlinked(m, n), self);
      assert n !in b.machineOf;
      LinkInverse(b, n, self);
      ReportLinks(m, n, self, peers);
      hide Report;
      InverseOfMaps(b.(machineOf := b.machineOf[n := self], nodeOf := b.nodeOf[self := n]), r);
    }
  }

  lemma InverseOfMaps(a: Memory, b: Memory)
    requires Inverse(a) && a.machineOf == b.machineOf && a.nodeOf == b.nodeOf
    ensures Inverse(b)
  {
  }

  lemma ForgetInverse(m: Memory, n: NodeId)
    requires Inverse(m)
    ensures Inverse(ForgetMemory(m, n))
  {
  }

  lemma PersistStored(rows: Rows, n: NodeId, self: string, peers: seq<MachineId>)
    requires Stored(rows)
    ensures Stored(Persist(rows, n, self, peers))
  {
    Text.TrimTwice(self);
  }

  lemma ForgetStored(rows: Rows, m: Memory, n: NodeId)
    requires Stored(rows)
    ensures Stored(ForgetRows(rows, m, n))
  {
    assert Stored(rows - {n});
  }

  lemma ReloadAgrees(rows: Rows)
    requires Stored(rows)
    ensures Inverse(Reload(rows)) && Agree(Reload(rows), rows)
  {
  }

  lemma SameMaps<K, V>(a: map<K, V>, b: map<K, V>)
    requires forall k :: Get(a, k) == Get(b, k)
    ensures a == b
  {
    forall k ensures k in a <==> k in b {
      assert Get(a, k) == Get(b, k);
    }
    forall k | k in a ensures a[k] == b[k] {
      assert Get(a, k) == Get(b, k);
    }
  }

  /** Memories that agree with the same rows answer every lookup alike. */
  lemma SameAnswers(a: Memory, b: Memory, rows: Rows)
    requires Inverse(a) && Inverse(b) && Agree(a, rows) && Agree(b, rows)
    ensures a.machineOf == b.machineOf && a.nodeOf == b.nodeOf
    ensures forall n :: PeersAt(a, n) == PeersAt(b, n)
  {
    forall n ensures Get(a.machineOf, n) == Get(b.machineOf, n) && PeersAt(a, n) == PeersAt(b, n) {
      assert Get(a.machineOf, n) == MachineIn(rows, n) && Get(b.machineOf, n) == MachineIn(rows, n);
    }
    SameMaps(a.machineOf, b.machineOf);
    forall id ensures Get(a.nodeOf, id) == Get(b.nodeOf, id) {
      if id in a.nodeOf {
        assert Get(a.machineOf, a.nodeOf[id]) == Some(id);
        assert Get(b.nodeOf, id) == Some(a.nodeOf[id]);
      } else if id in b.nodeOf {
        assert Get(b.machineOf, b.nodeOf[id]) == Some(id);
      }
    }
    SameMaps(a.nodeOf, b.nodeOf);
  }

  // ---------- reports and rows ----------

  /**
   Persisting what a node with a row reported keeps memory and rows in agreement exactly when the machine id it
   reported, if any, is already trimmed.
   */
  lemma ReportAgreesExactly(m: Memory, rows: Rows, n: NodeId, self: string, peers: seq<MachineId>)
    requires Inverse(m) && Stored(rows) && Agree(m, rows) && n in rows && Clean(n)
    ensures Agree(Report(m, n, self, peers), Persist(rows, n, self, peers)) <==> Text.Trimmed(self)
  {
    var r, s := Report(m, n, self, peers), Persist(rows, n, self, peers);
    if Text.Trimmed(self) {
      forall x ensures Get(r.machineOf, x) == MachineIn(s, x) && PeersAt(r, x) == PeersIn(s, x) {
        ReportAgreesAt(m, rows, n, self, peers, x);
      }
    } else {
      assert Get(m.machineOf, n) == MachineIn(rows, n);
      assert Text.Trim("") == "";
      Text.TrimTwice(self);
      assert Get(r.machineOf, n) == Some(self) != MachineIn(s, n);
    }
  }

  /** A node's machine after another, or the same, reported one. */
  function MachineAfter(before: Option<MachineId>, same: bool, self: string): Option<MachineId> {
    if self == "" then before
    else if same then Some(self)
    else if before == Some(self) then None
    else before
  }

  lemma ReportedMachine(m: Memory, n: NodeId, self: string, peers: seq<MachineId>, x: NodeId)
    requires Inverse(m)
    ensures Get(Report(m, n, self, peers).machineOf, x) == MachineAfter(Get(m.machineOf, x), x == n, self)
  {
    assert x in m.machineOf ==> Get(m.nodeOf, m.machineOf[x]) == Some(x);
    assert n in m.machineOf ==> Get(m.nodeOf, m.machineOf[n]) == Some(n);
    assert self in m.nodeOf ==> Get(m.machineOf, m.nodeOf[self]) == Some(self);
    hide Inverse;
  }

  lemma StoredMachine(rows: Rows, n: NodeId, self: string, peers: seq<MachineId>, x: NodeId)
    requires n in rows && Clean(n) && Text.Trimmed(self)
    ensures MachineIn(Persist(rows, n, self, peers), x) == MachineAfter(MachineIn(rows, x), x == n, self)
  {
    hide Text.Trim;
  }

  lemma ReportAgreesAt(m: Memory, rows: Rows, n: NodeId, self: string, peers: seq<MachineId>, x: NodeId)
    requires Inverse(m) && Agree(m, rows) && n in rows && Clean(n) && Text.Trimmed(self)
    ensures var r, s := Report(m, n, self, peers), Persist(rows, n, self, peers);
            Get(r.machineOf, x) == MachineIn(s, x) && PeersAt(r, x) == PeersIn(s, x)
  {
    assert Get(m.machineOf, x) == MachineIn(rows, x) && PeersAt(m, x) == PeersIn(rows, x);
    hide Agree;
    hide Text.Trim;
    ReportedMachine(m, n, self, peers, x);
    StoredMachine(rows, n, self, peers, x);
    hide Inverse;
  }

  /** A node with a row reports its machine with a blank before it: a restart no longer knows the machine by that id. */
  lemma BlankReport()
    ensures var rows := map["n" := Row(None, [])];
            Stored(rows) && Agree(Reload(rows), rows) && Clean("n") && !Text.Trimmed(" m")
    ensures var rows := map["n" := Row(None, [])];
            var mem, stored := Report(Reload(rows), "n", " m", []), Persist(rows, "n", " m", []);
            && !Agree(mem, stored) && Stored(stored)
            && Get(mem.nodeOf, " m") == Some("n") && Get(Reload(stored).nodeOf, " m") == None
  {
    var rows := map["n" := Row(None, [])];
    assert Text.Trim(" m") == Text.Trim(" m"[1..]) && " m"[1..] == "m" && Text.Trim("m") == "m"
      && Text.Trim("n") == "n";
    ReloadAgrees(rows);
    ReportAgreesExactly(Reload(rows), rows, "n", " m", []);
    PersistStored(rows, "n", " m", []);
    var stored := Persist(rows, "n", " m", []);
    assert stored == map["n" := Row(Some("m"), [])];
    hide Text.Trim;
    assert " m" !in MachineIds(stored);
  }

  lemma ForgetAgrees(m: Memory, rows: Rows, n: NodeId)
    requires Inverse(m) && Stored(rows) && Agree(m, rows)
    ensures Agree(ForgetMemory(m, n), ForgetRows(rows, m, n))
  {
    var r, s := ForgetMemory(m, n), ForgetRows(rows, m, n);
    assert Get(m.machineOf, n) == MachineIn(rows, n);
    forall x ensures Get(r.machineOf, x) == MachineIn(s, x) && PeersAt(r, x) == PeersIn(s, x) {
      assert Get(m.machineOf, x) == MachineIn(rows, x) && PeersAt(m, x) == PeersIn(rows, x);
      assert Without([], "") == [];
    }
  }

  // ---------- runs ----------

  datatype Op = Add(n: NodeId) | Peers(n: NodeId, self: string, peers: seq<MachineId>) | Remove(n: NodeId)

  datatype State = State(mem: Memory, rows: Rows)

  /** Node ids are trimmed and only nodes with a row report, under trimmed machine ids. */
  predicate Ordinary(s: State, op: Op) {
    match op
    case Add(n) => n !in s.rows
    case Peers(n, self, _) => n in s.rows && Clean(n) && Text.Trimmed(self)
    case Remove(_) => true
  }

  function Step(s: State, op: Op): State {
    match op
    case Add(n) => s.(rows := s.rows[n := Row(None, [])])
    case Peers(n, self, peers) => State(Report(s.mem, n, self, peers), Persist(s.rows, n, self, peers))
    case Remove(n) => State(ForgetMemory(s.mem, n), ForgetRows(s.rows, s.mem, n))
  }

  function After(s: State, ops: seq<Op>): State
    decreases ops
  {
    if ops == [] then s else After(Step(s, ops[0]), ops[1..])
  }

  predicate AllOrdinary(s: State, ops: seq<Op>)
    decreases ops
  {
    ops == [] || (Ordinary(s, ops[0]) && AllOrdinary(Step(s, ops[0]), ops[1..]))
  }

  lemma StepKeepsInverse(s: State, op: Op)
    requires Inverse(s.mem) && Stored(s.rows) && (op.Add? ==> op.n !in s.rows)
    ensures Inverse(Step(s, op).mem) && Stored(Step(s, op).rows)
  {
    match op
    case Add(n) =>
    case Peers(n, self, peers) => ReportInverse(s.mem, n, self, peers); PersistStored(s.rows, n, self, peers);
    case Remove(n) => ForgetInverse(s.mem, n); ForgetStored(s.rows, s.mem, n);
  }

  predicate Fresh(s: State, ops: seq<Op>)
    decreases ops
  {
    ops == [] || ((ops[0].Add? ==> ops[0].n !in s.rows) && Fresh(Step(s, ops[0]), ops[1..]))
  }

  /** Whatever nodes report: the maps stay mutually inverse, and machine ids unique in the rows. */
  lemma {:induction false} RunKeepsInverse(s: State, ops: seq<Op>)
    requires Stored(s.rows) && Inverse(s.mem) && Fresh(s, ops)
    ensures Inverse(After(s, ops).mem) && Unique(After(s, ops).rows) && Stored(After(s, ops).rows)
    decreases ops
  {
    if ops != [] {
      StepKeepsInverse(s, ops[0]);
      RunKeepsInverse(Step(s, ops[0]), ops[1..]);
    }
  }

  lemma StepAgrees(s: State, op: Op)
    requires Inverse(s.mem) && Stored(s.rows) && Agree(s.mem, s.rows) && Ordinary(s, op)
    ensures Agree(Step(s, op).mem, Step(s, op).rows)
  {
    match op
    case Add(n) =>
      var rows := Step(s, op).rows;
      forall x ensures Get(s.mem.machineOf, x) == MachineIn(rows, x) && PeersAt(s.mem, x) == PeersIn(rows, x) {
        assert Get(s.mem.machineOf, x) == MachineIn(s.rows, x) && PeersAt(s.mem, x) == PeersIn(s.rows, x);
      }
    case Peers(n, self, peers) => ReportAgreesExactly(s.mem, s.rows, n, self, peers);
    case Remove(n) => ForgetAgrees(s.mem, s.rows, n);
  }

  lemma {:induction false} RunAgrees(s: State, ops: seq<Op>)
    requires Inverse(s.mem) && Stored(s.rows) && Agree(s.mem, s.rows) && AllOrdinary(s, ops)
    ensures var u := After(s, ops); Inverse(u.mem) && Stored(u.rows) && Agree(u.mem, u.rows)
    decreases ops
  {
    if ops != [] {
      StepKeepsInverse(s, ops[0]);
      StepAgrees(s, ops[0]);
      hide Inverse;
      hide Stored;
      hide Agree;
      RunAgrees(Step(s, ops[0]), ops[1..]);
    }
  }

  /**
   After any run of additions, ordinary reports and removals since a start from the rows, starting again from the rows
   as they are now gives the same answer to every machine and peer lookup.
   */
  lemma RestartChangesNothing(rows: Rows, ops: seq<Op>)
    requires Stored(rows) && AllOrdinary(State(Reload(rows), rows), ops)
    ensures var u := After(State(Reload(rows), rows), ops);
            && Unique(u.rows)
            && u.mem.machineOf == Reload(u.rows).machineOf && u.mem.nodeOf == Reload(u.rows).nodeOf
            && forall n :: PeersAt(u.mem, n) == PeersAt(Reload(u.rows), n)
  {
    var s := State(Reload(rows), rows);
    ReloadAgrees(rows);
    RunAgrees(s, ops);
    var u := After(s, ops);
    ReloadAgrees(u.rows);
    SameAnswers(u.mem, Reload(u.rows), u.rows);
  }
}
