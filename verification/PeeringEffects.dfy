/** What a report and a removal bring about: which node a machine is known as, and whose peer lists name it. */
module PeeringEffects {
  import opened Options
  import opened Peering

  // ---------- leaving a machine out of a peer list ----------

  lemma WithoutJoins(a: seq<MachineId>, b: seq<MachineId>, m: MachineId)
    ensures Without(a + b, m) == Without(a, m) + Without(b, m)
  {
    if a == [] {
      assert a + b == b;
    } else {
      WithoutJoins(a[1..], b, m);
      assert (a + b)[1..] == a[1..] + b;
    }
  }

  /** The machine is gone, however often it was listed, and every other one stays as often as it was. */
  ghost predicate LeavesOut(peers: seq<MachineId>, rest: seq<MachineId>, m: MachineId) {
    && m !in rest && (m !in peers ==> rest == peers)
    && forall x :: x != m ==> multiset(rest)[x] == multiset(peers)[x]
  }

  lemma {:induction false} WithoutMeans(peers: seq<MachineId>, m: MachineId)
    ensures LeavesOut(peers, Without(peers, m), m)
  {
    if peers != [] {
      WithoutMeans(peers[1..], m);
      assert peers == [peers[0]] + peers[1..];
      assert forall x :: x in peers[1..] ==> x in peers;
    }
  }

  // ---------- one operation ----------

  /**
   The node a machine is known as after an operation: the last to report it, until it reports another or is removed.
   */
  function HolderAfter(before: Option<NodeId>, op: Op, id: MachineId): Option<NodeId> {
    match op
    case Add(_) => before
    case Peers(n, self, _) =>
      if self == id && id != "" then Some(n) else if self != "" && before == Some(n) then None else before
    case Remove(n) => if before == Some(n) then None else before
  }

  lemma ReportHolder(m: Memory, n: NodeId, self: string, peers: seq<MachineId>, id: MachineId)
    requires Inverse(m)
    ensures Get(Report(m, n, self, peers).nodeOf, id) == HolderAfter(Get(m.nodeOf, id), Peers(n, self, peers), id)
  {
    assert id in m.nodeOf ==> Get(m.machineOf, m.nodeOf[id]) == Some(id);
    assert n in m.machineOf ==> Get(m.nodeOf, m.machineOf[n]) == Some(n);
    hide Inverse;
  }

  lemma HolderExactly(s: State, op: Op, id: MachineId)
    requires Inverse(s.mem)
    ensures Get(Step(s, op).mem.nodeOf, id) == HolderAfter(Get(s.mem.nodeOf, id), op, id)
  {
    match op
    case Add(_) =>
    case Peers(n, self, peers) => ReportHolder(s.mem, n, self, peers, id);
    case Remove(n) =>
      assert id in s.mem.nodeOf ==> Get(s.mem.machineOf, s.mem.nodeOf[id]) == Some(id);
      assert n in s.mem.machineOf ==> Get(s.mem.nodeOf, s.mem.machineOf[n]) == Some(n);
  }

  /** The peers a node is known to have: what it last reported, without the machines of nodes removed since. */
  ghost predicate PeersAsTold(s: State, op: Op, u: State, x: NodeId) {
    match op
    case Add(_) => PeersAt(u.mem, x) == PeersAt(s.mem, x)
    case Peers(n, _, peers) => PeersAt(u.mem, x) == if x == n then peers else PeersAt(s.mem, x)
    case Remove(n) =>
      if x == n then PeersAt(u.mem, x) == []
      else
        match Get(s.mem.machineOf, n)
        case None => PeersAt(u.mem, x) == PeersAt(s.mem, x)
        case Some(id) => LeavesOut(PeersAt(s.mem, x), PeersAt(u.mem, x), id)
  }

  lemma PeersExactly(s: State, op: Op, x: NodeId)
    ensures PeersAsTold(s, op, Step(s, op), x)
  {
    if op.Remove? && op.n in s.mem.machineOf {
      WithoutMeans(PeersAt(s.mem, x), s.mem.machineOf[op.n]);
      assert Without([], s.mem.machineOf[op.n]) == [];
    }
  }

  /**
   The rows: a report fills its own and takes the machine from any other; a removal deletes one and erases its machine.
   */
  ghost predicate RowAsTold(s: State, op: Op, u: State, x: NodeId) {
    match op
    case Add(n) => Get(u.rows, x) == if x == n then Some(Row(None, [])) else Get(s.rows, x)
    case Peers(n, self, peers) =>
      && (x in u.rows <==> x in s.rows)
      && (x in u.rows ==>
            if x == n then u.rows[x] == Row(if self == "" then s.rows[x].machine else Some(self), peers)
            else u.rows[x].peers == s.rows[x].peers
                 && u.rows[x].machine ==
                      if self != "" && s.rows[x].machine == Some(self) then None else s.rows[x].machine)
    case Remove(n) =>
      && (x in u.rows <==> x in s.rows && x != n)
      && (x in u.rows ==>
            && u.rows[x].machine == s.rows[x].machine
            && match Get(s.mem.machineOf, n)
               case None => u.rows[x].peers == s.rows[x].peers
               case Some(id) => LeavesOut(s.rows[x].peers, u.rows[x].peers, id))
  }

  lemma RowsExactly(s: State, op: Op, x: NodeId)
    requires Stored(s.rows) && Inverse(s.mem) && Agree(s.mem, s.rows) && Ordinary(s, op)
    ensures RowAsTold(s, op, Step(s, op), x)
  {
    if op.Remove? && op.n in s.mem.machineOf {
      var id := s.mem.machineOf[op.n];
      assert Get(s.mem.machineOf, op.n) == MachineIn(s.rows, op.n);
      assert Clean(id);
      if x in s.rows {
        WithoutMeans(s.rows[x].peers, id);
      }
    }
    hide Stored;
    hide Inverse;
    hide Agree;
  }

  // ---------- whole runs ----------

  function HolderOver(before: Option<NodeId>, ops: seq<Op>, id: MachineId): Option<NodeId>
    decreases ops
  {
    if ops == [] then before else HolderOver(HolderAfter(before, ops[0], id), ops[1..], id)
  }

  /**
   In every run a machine is known as the node that reported it last, unless that node reported another or is gone.
   */
  lemma {:induction false} LookupIsLastReport(s: State, ops: seq<Op>, id: MachineId)
    requires Stored(s.rows) && Inverse(s.mem) && Fresh(s, ops)
    ensures Get(After(s, ops).mem.nodeOf, id) == HolderOver(Get(s.mem.nodeOf, id), ops, id)
    decreases ops
  {
    if ops != [] {
      StepKeepsInverse(s, ops[0]);
      HolderExactly(s, ops[0], id);
      hide Stored;
      hide Inverse;
      hide Step;
      LookupIsLastReport(Step(s, ops[0]), ops[1..], id);
    }
  }
}
