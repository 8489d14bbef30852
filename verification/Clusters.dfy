/**
 Grouping the accessible nodes into clusters: union-find with path halving over the reported peer links, then one
 identifier per connected component of two or more nodes.
 */
module Clusters {
  import opened Options
  import opened InsertionOrder
  import opened NodeNames

  type Link = (NodeId, NodeId)

  // ---------- connected components ----------

  predicate Linked(links: set<Link>, a: NodeId, b: NodeId) {
    (a, b) in links || (b, a) in links
  }

  /** A chain of reports, each in either direction. */
  ghost predicate IsChain(links: set<Link>, chain: seq<NodeId>) {
    |chain| > 0 && forall i :: 0 <= i < |chain| - 1 ==> Linked(links, chain[i], chain[i + 1])
  }

  ghost predicate ChainJoins(links: set<Link>, chain: seq<NodeId>, a: NodeId, b: NodeId) {
    IsChain(links, chain) && chain[0] == a && chain[|chain| - 1] == b
  }

  ghost predicate Connected(links: set<Link>, a: NodeId, b: NodeId) {
    exists chain :: ChainJoins(links, chain, a, b)
  }

  lemma ConnectedReflexive(links: set<Link>, a: NodeId)
    ensures Connected(links, a, a)
  {
    assert ChainJoins(links, [a], a, a);
  }

  lemma ConnectedByLink(links: set<Link>, a: NodeId, b: NodeId)
    requires Linked(links, a, b)
    ensures Connected(links, a, b)
  {
    assert ChainJoins(links, [a, b], a, b);
  }

  lemma ConnectedSymmetric(links: set<Link>, a: NodeId, b: NodeId)
    requires Connected(links, a, b)
    ensures Connected(links, b, a)
  {
    var chain :| ChainJoins(links, chain, a, b);
    var back := seq(|chain|, i requires 0 <= i < |chain| => chain[|chain| - 1 - i]);
    forall i | 0 <= i < |back| - 1 ensures Linked(links, back[i], back[i + 1]) {
      assert Linked(links, chain[|chain| - 2 - i], chain[|chain| - 1 - i]);
    }
    assert ChainJoins(links, back, b, a);
  }

  lemma ConnectedTransitive(links: set<Link>, a: NodeId, b: NodeId, c: NodeId)
    requires Connected(links, a, b) && Connected(links, b, c)
    ensures Connected(links, a, c)
  {
    var first :| ChainJoins(links, first, a, b);
    var second :| ChainJoins(links, second, b, c);
    var chain := first + second[1..];
    forall i | 0 <= i < |chain| - 1 ensures Linked(links, chain[i], chain[i + 1]) {
      if i >= |first| - 1 {
        assert chain[i] == second[i - (|first| - 1)] && chain[i + 1] == second[i + 1 - (|first| - 1)];
      }
    }
    assert ChainJoins(links, chain, a, c);
  }

  lemma ConnectedMonotone(links: set<Link>, more: set<Link>, a: NodeId, b: NodeId)
    requires links <= more && Connected(links, a, b)
    ensures Connected(more, a, b)
  {
    var chain :| ChainJoins(links, chain, a, b);
    assert ChainJoins(more, chain, a, b);
  }

  /** Everything that agrees along every link agrees along a chain. */
  lemma {:induction false} ConstantOnChain(links: set<Link>, rep: map<NodeId, NodeId>, chain: seq<NodeId>)
    requires IsChain(links, chain) && chain[0] in rep
    requires forall l :: l in links ==> l.0 in rep && l.1 in rep && rep[l.0] == rep[l.1]
    ensures chain[|chain| - 1] in rep && rep[chain[0]] == rep[chain[|chain| - 1]]
  {
    if |chain| > 1 {
      assert Linked(links, chain[0], chain[1]);
      assert IsChain(links, chain[1..]) by {
        forall i | 0 <= i < |chain[1..]| - 1 ensures Linked(links, chain[1..][i], chain[1..][i + 1]) {
          assert Linked(links, chain[i + 1], chain[i + 2]);
        }
      }
      ConstantOnChain(links, rep, chain[1..]);
    }
  }

  // ---------- the parent forest ----------

  type Parents = map<NodeId, NodeId>

  /** Every parent chain climbs, by a falling measure, to the representative of its component. */
  ghost predicate IsForest(parent: Parents, rep: Parents, height: map<NodeId, nat>) {
    && rep.Keys == parent.Keys && height.Keys == parent.Keys
    && forall x {:trigger ClimbsTo(parent, rep, height, x)} :: x in parent ==> ClimbsTo(parent, rep, height, x)
  }

  ghost predicate ClimbsTo(parent: Parents, rep: Parents, height: map<NodeId, nat>, x: NodeId)
    requires x in parent && rep.Keys == parent.Keys && height.Keys == parent.Keys
  {
    && parent[x] in parent && rep[parent[x]] == rep[x]
    && rep[x] in parent && parent[rep[x]] == rep[x]
    && (parent[x] == x ==> rep[x] == x)
    && (parent[x] != x ==> height[parent[x]] < height[x])
  }

  /** Hanging a node from its grandparent changes no representative. */
  lemma HalvingKeeps(parent: Parents, rep: Parents, height: map<NodeId, nat>, x: NodeId)
    requires IsForest(parent, rep, height) && x in parent && parent[x] != x
    ensures parent[x] in parent && parent[parent[x]] in parent && height[parent[parent[x]]] < height[x]
    ensures rep[parent[parent[x]]] == rep[x]
    ensures IsForest(parent[x := parent[parent[x]]], rep, height)
  {
    assert ClimbsTo(parent, rep, height, x) && ClimbsTo(parent, rep, height, parent[x]);
    var parent' := parent[x := parent[parent[x]]];
    forall y | y in parent' ensures ClimbsTo(parent', rep, height, y) {
      assert ClimbsTo(parent, rep, height, y);
    }
  }

  function Rejoined(rep: Parents, a: NodeId, b: NodeId): Parents {
    map x | x in rep :: if rep[x] == a then b else rep[x]
  }

  function Raised(rep: Parents, height: map<NodeId, nat>, a: NodeId, b: NodeId): map<NodeId, nat>
    requires height.Keys == rep.Keys && b in height
  {
    map x | x in rep :: if rep[x] == a then height[x] + height[b] + 1 else height[x]
  }

  lemma JoiningKeeps(parent: Parents, rep: Parents, height: map<NodeId, nat>, a: NodeId, b: NodeId)
    requires IsForest(parent, rep, height) && a in parent && b in parent && rep[a] == a && rep[b] == b && a != b
    ensures IsForest(parent[a := b], Rejoined(rep, a, b), Raised(rep, height, a, b))
  {
    hide ClimbsTo;
    forall x | x in parent ensures ClimbsTo(parent[a := b], Rejoined(rep, a, b), Raised(rep, height, a, b), x) {
      JoiningClimbs(parent, rep, height, a, b, x);
    }
  }

  lemma JoiningClimbs(parent: Parents, rep: Parents, height: map<NodeId, nat>, a: NodeId, b: NodeId, x: NodeId)
    requires IsForest(parent, rep, height) && a in parent && b in parent && rep[a] == a && rep[b] == b && a != b
             && x in parent
    ensures ClimbsTo(parent[a := b], Rejoined(rep, a, b), Raised(rep, height, a, b), x)
  {
    assert ClimbsTo(parent, rep, height, a) && ClimbsTo(parent, rep, height, b) && ClimbsTo(parent, rep, height, x);
    hide IsForest;
  }

  /** The classes of the forest are the connected components of the links. */
  ghost predicate Spans(rep: Parents, links: set<Link>) {
    && (forall l :: l in links ==> l.0 in rep && l.1 in rep && rep[l.0] == rep[l.1])
    && (forall x :: x in rep ==> Connected(links, x, rep[x]))
  }

  lemma SameClass(rep: Parents, links: set<Link>, x: NodeId, y: NodeId)
    requires Spans(rep, links) && x in rep && y in rep
    ensures rep[x] == rep[y] <==> Connected(links, x, y)
  {
    if rep[x] == rep[y] {
      ConnectedSymmetric(links, y, rep[y]);
      ConnectedTransitive(links, x, rep[x], y);
    }
    if Connected(links, x, y) {
      var chain :| ChainJoins(links, chain, x, y);
      ConstantOnChain(links, rep, chain);
    }
  }

  lemma LinkJoinsClasses(rep: Parents, links: set<Link>, a: NodeId, b: NodeId)
    requires Spans(rep, links) && a in rep && b in rep
    ensures Spans(Rejoined(rep, rep[a], rep[b]), links + {(a, b)})
  {
    var more := links + {(a, b)};
    forall x | x in rep ensures Connected(more, x, if rep[x] == rep[a] then rep[b] else rep[x]) {
      ConnectedMonotone(links, more, x, rep[x]);
      if rep[x] == rep[a] {
        SameClass(rep, links, x, a);
        ConnectedMonotone(links, more, x, a);
        ConnectedByLink(more, a, b);
        ConnectedMonotone(links, more, b, rep[b]);
        ConnectedTransitive(more, x, a, b);
        ConnectedTransitive(more, x, b, rep[b]);
      }
    }
  }

  class Forest {
    var parent: Parents

    // the representative of each node, and a measure that falls along every parent link
    ghost var rep: Parents
    ghost var height: map<NodeId, nat>

    ghost predicate Valid()
      reads this
    {
      IsForest(parent, rep, height)
    }

    constructor (ids: seq<NodeId>)
      ensures Valid() && parent == (map x | x in ids :: x) && rep == parent
    {
      parent := map x | x in ids :: x;
      rep := map x | x in ids :: x;
      height := map x | x in ids :: 0;
    }

    /** Path halving: every other node on the way up is hung from its grandparent.  No representative changes. */
    method Find(start: NodeId) returns (root: NodeId)
      requires Valid() && start in parent
      modifies `parent
      ensures Valid() && root == rep[start] && parent.Keys == old(parent.Keys)
    {
      var id := start;
      while parent[id] != id
        invariant Valid() && id in parent && rep[id] == rep[start] && parent.Keys == old(parent.Keys)
        decreases height[id]
      {
        HalvingKeeps(parent, rep, height, id);
        parent := parent[id := parent[parent[id]]];
        id := parent[id];
      }
      assert ClimbsTo(parent, rep, height, id);
      return id;
    }

    /** Joins the components of two nodes and leaves every other component alone. */
    method Union(a: NodeId, b: NodeId)
      requires Valid() && a in parent && b in parent
      modifies this
      ensures Valid() && parent.Keys == old(parent.Keys)
      ensures rep == Rejoined(old(rep), old(rep)[a], old(rep)[b])
    {
      var rootA := Find(a);
      var rootB := Find(b);
      assert ClimbsTo(parent, rep, height, a) && ClimbsTo(parent, rep, height, b);
      if rootA != rootB {
        assert ClimbsTo(parent, rep, height, rootA) && ClimbsTo(parent, rep, height, rootB);
        JoiningKeeps(parent, rep, height, rootA, rootB);
        parent := parent[rootA := rootB];
        height := Raised(rep, height, rootA, rootB);
        rep := Rejoined(rep, rootA, rootB);
      }
    }
  }

  // ---------- what the nodes report ----------

  /** Each node's reported peers, as machine ids, and the node each machine id belongs to. */
  datatype Reports = Reports(peers: map<NodeId, seq<string>>, nodeOfMachine: map<string, NodeId>)
  {
    function PeersOf(id: NodeId): seq<string> {
      if id in peers then peers[id] else []
    }

    /** The accessible node a machine id stands for; an unknown machine and an empty id count for nothing. */
    function Peer(ids: set<NodeId>, machine: string): Option<NodeId> {
      if machine in nodeOfMachine && nodeOfMachine[machine] != "" && nodeOfMachine[machine] in ids
      then Some(nodeOfMachine[machine]) else None
    }
  }

  function LinksOf(r: Reports, ids: set<NodeId>): set<Link> {
    set a, m | a in ids && m in r.PeersOf(a) && r.Peer(ids, m).Some? :: (a, r.Peer(ids, m).value)
  }

  /** The nodes connected to `id` by a chain of reports among the accessible nodes. */
  ghost function Component(r: Reports, ids: set<NodeId>, id: NodeId): set<NodeId> {
    set x | x in ids && Connected(LinksOf(r, ids), id, x)
  }

  // ---------- building the clusters ----------

  /** The nodes of `order` whose representative is `root`. */
  function MembersOf(rep: Parents, order: seq<NodeId>, root: NodeId): seq<NodeId> {
    if order == [] then []
    else
      var front := MembersOf(rep, order[..|order| - 1], root);
      var x := order[|order| - 1];
      if x in rep && rep[x] == root then front + [x] else front
  }

  lemma {:induction false} MembersAre(rep: Parents, order: seq<NodeId>, root: NodeId)
    requires NoRepeats(order)
    ensures forall x :: x in MembersOf(rep, order, root) <==> x in order && x in rep && rep[x] == root
    ensures NoRepeats(MembersOf(rep, order, root))
  {
    if order != [] {
      var front := order[..|order| - 1];
      MembersAre(rep, front, root);
      assert order == front + [order[|order| - 1]];
    }
  }

  /** The name of a component: its ids in ascending order, joined. */
  ghost predicate Names(name: string, members: set<NodeId>) {
    exists s :: Ascending(s) && (forall x :: x in s <==> x in members) && name == Join(s)
  }

  /** Exactly the nodes of components with two nodes or more have a cluster id, and it names their component. */
  ghost predicate AreClusters(result: map<NodeId, string>, r: Reports, ids: set<NodeId>) {
    && (forall x :: x in result <==> x in ids && |Component(r, ids, x)| >= 2)
    && (forall x :: x in result ==> Names(result[x], Component(r, ids, x)))
  }

  function SetOf(s: seq<NodeId>): set<NodeId> {
    set x | x in s
  }

  lemma {:induction false} SizeOfSet(s: seq<NodeId>)
    requires NoRepeats(s)
    ensures |SetOf(s)| == |s|
  {
    if s != [] {
      var front, x := s[..|s| - 1], s[|s| - 1];
      SizeOfSet(front);
      assert SetOf(s) == SetOf(front) + {x};
    }
  }

  /** A class of the forest is a component. */
  lemma ClassIsComponent(rep: Parents, r: Reports, order: seq<NodeId>, x: NodeId)
    requires NoRepeats(order) && rep.Keys == SetOf(order) && x in order && Spans(rep, LinksOf(r, SetOf(order)))
    ensures Component(r, SetOf(order), x) == SetOf(MembersOf(rep, order, rep[x]))
    ensures |Component(r, SetOf(order), x)| == |MembersOf(rep, order, rep[x])|
    ensures NoRepeats(MembersOf(rep, order, rep[x])) && x in MembersOf(rep, order, rep[x])
  {
    var members := MembersOf(rep, order, rep[x]);
    MembersAre(rep, order, rep[x]);
    SizeOfSet(members);
    forall y ensures y in Component(r, SetOf(order), x) <==> y in members {
      if y in order {
        SameClass(rep, LinksOf(r, SetOf(order)), x, y);
      }
    }
  }

  /** Merges every reported link. */
  method MergeReports(r: Reports, order: seq<NodeId>, forest: Forest)
    requires forest.Valid() && forest.rep == map x | x in order :: x
    modifies forest
    ensures forest.Valid() && forest.rep.Keys == SetOf(order) && Spans(forest.rep, LinksOf(r, SetOf(order)))
  {
    var ids := SetOf(order);
    ghost var links: set<Link> := {};
    forall x ensures Connected(links, x, x) {
      ConnectedReflexive(links, x);
    }
    for i := 0 to |order|
      invariant forest.Valid() && forest.rep.Keys == ids
      invariant links <= LinksOf(r, ids) && Spans(forest.rep, links)
      invariant forall k :: 0 <= k < i ==> ReportsIn(r, ids, order[k], r.PeersOf(order[k]), links)
    {
      ghost var before := links;
      links := MergeNode(r, ids, order[i], forest, links);
      forall k | 0 <= k < i ensures ReportsIn(r, ids, order[k], r.PeersOf(order[k]), links) {
        assert ReportsIn(r, ids, order[k], r.PeersOf(order[k]), before);
      }
    }
    forall l | l in LinksOf(r, ids) ensures l in links {
      var m :| m in r.PeersOf(l.0) && r.Peer(ids, m) == Some(l.1);
      var k :| 0 <= k < |order| && order[k] == l.0;
      assert ReportsIn(r, ids, order[k], r.PeersOf(order[k]), links);
    }
    assert links == LinksOf(r, ids);
  }

  ghost predicate ReportsIn(r: Reports, ids: set<NodeId>, a: NodeId, machines: seq<string>, links: set<Link>) {
    forall m :: m in machines && r.Peer(ids, m).Some? ==> (a, r.Peer(ids, m).value) in links
  }

  /** Merges the links one node reports. */
  method MergeNode(r: Reports, ids: set<NodeId>, a: NodeId, forest: Forest, ghost before: set<Link>)
    returns (ghost links: set<Link>)
    requires forest.Valid() && forest.rep.Keys == ids && a in ids
    requires before <= LinksOf(r, ids) && Spans(forest.rep, before)
    modifies forest
    ensures forest.Valid() && forest.rep.Keys == ids
    ensures before <= links <= LinksOf(r, ids) && Spans(forest.rep, links)
    ensures ReportsIn(r, ids, a, r.PeersOf(a), links)
  {
    links := before;
    var machines := r.PeersOf(a);
    for j := 0 to |machines|
      invariant forest.Valid() && forest.rep.Keys == ids
      invariant before <= links <= LinksOf(r, ids) && Spans(forest.rep, links)
      invariant ReportsIn(r, ids, a, machines[..j], links)
    {
      ghost var known := links;
      links := MergeLink(r, ids, a, machines[j], forest, links);
      assert machines[..j + 1] == machines[..j] + [machines[j]];
      ReportsSnoc(r, ids, a, machines[..j], machines[j], known, links);
      hide Spans;
      hide LinksOf;
      hide ReportsIn;
    }
    assert machines[..|machines|] == machines;
  }

  lemma ReportsSnoc(r: Reports, ids: set<NodeId>, a: NodeId, machines: seq<string>, m: string,
                    before: set<Link>, links: set<Link>)
    requires ReportsIn(r, ids, a, machines, before) && before <= links && ReportsIn(r, ids, a, [m], links)
    ensures ReportsIn(r, ids, a, machines + [m], links)
  {
    assert m in [m];
  }

  /** Merges one reported link, if the machine stands for an accessible node. */
  method MergeLink(r: Reports, ids: set<NodeId>, a: NodeId, machine: string, forest: Forest, ghost before: set<Link>)
    returns (ghost links: set<Link>)
    requires forest.Valid() && forest.rep.Keys == ids && a in ids && machine in r.PeersOf(a)
    requires before <= LinksOf(r, ids) && Spans(forest.rep, before)
    modifies forest
    ensures forest.Valid() && forest.rep.Keys == ids
    ensures before <= links <= LinksOf(r, ids) && Spans(forest.rep, links)
    ensures ReportsIn(r, ids, a, [machine], links)
  {
    links := before;
    var peer := r.Peer(ids, machine);
    if peer.Some? {
      LinkJoinsClasses(forest.rep, links, a, peer.value);
      forest.Union(a, peer.value);
      links := links + {(a, peer.value)};
      hide Spans;
      hide IsForest;
    }
  }

  /** Groups the nodes by the root the forest finds for them. */
  method GroupByRoot(order: seq<NodeId>, forest: Forest) returns (members: map<NodeId, seq<NodeId>>)
    requires forest.Valid() && forest.rep.Keys == SetOf(order)
    modifies forest`parent
    ensures forest.Valid() && forest.rep.Keys == SetOf(order)
    ensures forall root :: root in members <==> MembersOf(forest.rep, order, root) != []
    ensures forall root :: root in members ==> members[root] == MembersOf(forest.rep, order, root)
  {
    members := map[];
    for k := 0 to |order|
      invariant forest.Valid() && forest.rep.Keys == SetOf(order)
      invariant forall root :: root in members <==> MembersOf(forest.rep, order[..k], root) != []
      invariant forall root :: root in members ==> members[root] == MembersOf(forest.rep, order[..k], root)
    {
      var id := order[k];
      var root := forest.Find(id);
      assert order[..k + 1][..k] == order[..k];
      members := members[root := (if root in members then members[root] else []) + [id]];
    }
    assert order[..|order|] == order;
  }

  /** Names every group of two or more. */
  method NameGroups(ghost rep: Parents, order: seq<NodeId>, members: map<NodeId, seq<NodeId>>)
    returns (result: map<NodeId, string>)
    requires NoRepeats(order) && rep.Keys == SetOf(order)
    requires forall root :: root in members <==> MembersOf(rep, order, root) != []
    requires forall root :: root in members ==> members[root] == MembersOf(rep, order, root)
    ensures forall x :: x in result <==> x in order && |MembersOf(rep, order, rep[x])| >= 2
    ensures forall x :: x in result ==>
              NoRepeats(MembersOf(rep, order, rep[x])) && result[x] == Join(Sort(MembersOf(rep, order, rep[x])))
  {
    hide Join;
    hide Sort;
    hide Ascending;
    hide MembersOf;
    result := map[];
    var remaining := members.Keys;
    while remaining != {}
      invariant remaining <= members.Keys
      invariant forall x :: x in result <==>
                  x in order && rep[x] in members && rep[x] !in remaining && |members[rep[x]]| >= 2
      invariant forall x :: x in result ==> NoRepeats(members[rep[x]]) && result[x] == Join(Sort(members[rep[x]]))
    {
      var root :| root in remaining;
      var group := members[root];
      MembersAre(rep, order, root);
      if |group| >= 2 {
        var clusterId := Join(Sort(group));
        result := result + map id | id in group :: clusterId;
      }
      remaining := remaining - {root};
    }
    forall x | x in order ensures rep[x] in members {
      MembersAre(rep, order, rep[x]);
    }
  }

  /**
   Two accessible nodes are clustered together exactly when a chain of peer reports connects them; `AreClusters` says
   the rest of what this computes, and `ClustersIgnoreOrder` that it determines the result.
   */
  method BuildClusters(nodes: seq<NodeId>, r: Reports) returns (result: map<NodeId, string>)
    ensures AreClusters(result, r, SetOf(nodes))
  {
    DistinctHasNoRepeats(nodes);
    var order := Distinct(nodes);
    assert SetOf(order) == SetOf(nodes);
    var forest := new Forest(order);
    MergeReports(r, order, forest);
    ghost var rep := forest.rep;
    var members := GroupByRoot(order, forest);
    result := NameGroups(rep, order, members);
    forall x | x in order
      ensures |Component(r, SetOf(order), x)| == |MembersOf(rep, order, rep[x])|
      ensures x in result ==> Names(result[x], Component(r, SetOf(order), x))
    {
      ClassIsComponent(rep, r, order, x);
    }
  }

  // ---------- what the result means ----------

  lemma NamesUnique(name: string, other: string, members: set<NodeId>)
    requires Names(name, members) && Names(other, members)
    ensures name == other
  {
    var s :| Ascending(s) && (forall x :: x in s <==> x in members) && name == Join(s);
    var t :| Ascending(t) && (forall x :: x in t <==> x in members) && other == Join(t);
    AscendingUnique(s, t);
  }

  lemma NamesInjective(name: string, members: set<NodeId>, others: set<NodeId>)
    requires Names(name, members) && Names(name, others) && members != {} && others != {}
    requires forall x :: x in members || x in others ==> Plain(x)
    ensures members == others
  {
    var s :| Ascending(s) && (forall x :: x in s <==> x in members) && name == Join(s);
    var t :| Ascending(t) && (forall x :: x in t <==> x in others) && name == Join(t);
    assert s != [] && t != [] by {
      var x, y :| x in members && y in others;
      assert x in s && y in t;
    }
    JoinInjective(s, t);
  }

  lemma ComponentOf(r: Reports, ids: set<NodeId>, x: NodeId, y: NodeId)
    requires x in ids && y in ids
    ensures x in Component(r, ids, x)
    ensures Component(r, ids, x) == Component(r, ids, y) <==> Connected(LinksOf(r, ids), x, y)
  {
    var links := LinksOf(r, ids);
    ConnectedReflexive(links, x);
    ConnectedReflexive(links, y);
    if Connected(links, x, y) {
      ConnectedSymmetric(links, x, y);
      forall z | z in ids ensures Connected(links, x, z) <==> Connected(links, y, z) {
        if Connected(links, x, z) { ConnectedTransitive(links, y, x, z); }
        if Connected(links, y, z) { ConnectedTransitive(links, x, y, z); }
      }
    } else {
      assert y !in Component(r, ids, x) && y in Component(r, ids, y);
    }
  }

  /** A node has no cluster id exactly when no other accessible node is connected to it. */
  lemma SingletonsUnnamed(result: map<NodeId, string>, r: Reports, ids: set<NodeId>, x: NodeId)
    requires AreClusters(result, r, ids) && x in ids
    ensures x in result <==> exists y :: y in ids && y != x && Connected(LinksOf(r, ids), x, y)
  {
    var c := Component(r, ids, x);
    ComponentOf(r, ids, x, x);
    assert |c - {x}| == |c| - 1;
    if |c| >= 2 {
      var y :| y in c - {x};
      assert y in ids && y != x && Connected(LinksOf(r, ids), x, y);
    } else {
      assert c - {x} == {};
      forall y | y in ids && y != x ensures !Connected(LinksOf(r, ids), x, y) {
        assert y !in c;
      }
    }
  }

  /** Connected nodes share their cluster id; nodes whose ids contain no ':' share it only when connected. */
  lemma SameClusterExactly(result: map<NodeId, string>, r: Reports, ids: set<NodeId>, x: NodeId, y: NodeId)
    requires AreClusters(result, r, ids) && x in result && y in result
    ensures Connected(LinksOf(r, ids), x, y) ==> result[x] == result[y]
    ensures (forall z :: z in ids ==> Plain(z)) && result[x] == result[y] ==> Connected(LinksOf(r, ids), x, y)
  {
    ComponentOf(r, ids, x, y);
    ComponentOf(r, ids, y, x);
    if Component(r, ids, x) == Component(r, ids, y) {
      NamesUnique(result[x], result[y], Component(r, ids, x));
    } else if (forall z :: z in ids ==> Plain(z)) && result[x] == result[y] {
      NamesInjective(result[x], Component(r, ids, x), Component(r, ids, y));
    }
  }

  /** The result depends on which links are reported, not on the order of nodes or peers. */
  lemma ClustersIgnoreOrder(result: map<NodeId, string>, other: map<NodeId, string>,
                           r: Reports, q: Reports, ids: set<NodeId>)
    requires AreClusters(result, r, ids) && AreClusters(other, q, ids) && LinksOf(r, ids) == LinksOf(q, ids)
    ensures result == other
  {
    forall x | x in ids ensures Component(r, ids, x) == Component(q, ids, x) {
    }
    forall x | x in result ensures result[x] == other[x] {
      NamesUnique(result[x], other[x], Component(r, ids, x));
    }
  }

  /** Two separate links make two components. */
  lemma TwoPairs(r: Reports, ids: set<NodeId>, a: NodeId, b: NodeId, c: NodeId, d: NodeId)
    requires LinksOf(r, ids) == {(a, b), (c, d)} && ids == {a, b, c, d}
    requires a != b && a != c && a != d && b != c && b != d && c != d
    ensures Component(r, ids, a) == {a, b} && Component(r, ids, c) == {c, d}
  {
    var links := LinksOf(r, ids);
    var rep := map[a := a, b := a, c := c, d := c];
    ConnectedReflexive(links, a);
    ConnectedReflexive(links, c);
    ConnectedByLink(links, b, a);
    ConnectedByLink(links, d, c);
    forall v, w | v in ids && w in ids ensures rep[v] == rep[w] <==> Connected(links, v, w) {
      SameClass(rep, links, v, w);
    }
  }

  /** With ':' in node ids two different clusters can get the same id. */
  lemma ColonsCollide() returns (r: Reports, ids: set<NodeId>, x: NodeId, y: NodeId)
    ensures x in ids && y in ids && !Connected(LinksOf(r, ids), x, y)
    ensures forall result :: AreClusters(result, r, ids) ==> x in result && y in result && result[x] == result[y]
  {
    ids := {"a", "b:c", "a:b", "c"};
    x, y := "a", "a:b";
    r := Reports(map["a" := ["1"], "a:b" := ["2"]], map["1" := "b:c", "2" := "c"]);
    CollisionLinks(r, ids);
    TwoPairs(r, ids, "a", "b:c", "a:b", "c");
    hide LinksOf;
    assert y !in Component(r, ids, x);
    hide Component;
    hide Names;
    PairName("a", "b:c");
    PairName("a:b", "c");
    assert "a" + ":" + "b:c" == "a:b" + ":" + "c";
    forall result | AreClusters(result, r, ids) ensures x in result && y in result && result[x] == result[y] {
      PairNamed(result, r, ids, x, "b:c", "a" + ":" + "b:c");
      PairNamed(result, r, ids, y, "c", "a:b" + ":" + "c");
      hide AreClusters;
    }
  }

  lemma PairNamed(result: map<NodeId, string>, r: Reports, ids: set<NodeId>, x: NodeId, other: NodeId, name: string)
    requires AreClusters(result, r, ids) && x in ids && x != other && Component(r, ids, x) == {x, other}
    requires Names(name, {x, other})
    ensures x in result && result[x] == name
  {
    assert |Component(r, ids, x)| == 2;
    NamesUnique(result[x], name, {x, other});
  }

  lemma CollisionLinks(r: Reports, ids: set<NodeId>)
    requires ids == {"a", "b:c", "a:b", "c"}
    requires r == Reports(map["a" := ["1"], "a:b" := ["2"]], map["1" := "b:c", "2" := "c"])
    ensures LinksOf(r, ids) == {("a", "b:c"), ("a:b", "c")}
  {
    assert r.Peer(ids, "1") == Some("b:c") && r.Peer(ids, "2") == Some("c");
    assert "1" in r.PeersOf("a") && "2" in r.PeersOf("a:b");
  }

  lemma PairName(x: NodeId, y: NodeId)
    requires x != y && Leq(x, y)
    ensures Names(x + ":" + y, {x, y})
  {
    assert Ascending([x, y]) && Join([x, y]) == x + ":" + y;
  }

  // ---------- which ids can collide ----------

  /** Two disjoint groups of ids, each of two or more, whose sorted ids join to one name. */
  ghost predicate Collide(ids: set<NodeId>, s: seq<NodeId>, t: seq<NodeId>) {
    && Ascending(s) && Ascending(t) && |s| >= 2 && |t| >= 2
    && (forall x :: x in s ==> x in ids && x !in t) && (forall x :: x in t ==> x in ids)
    && Join(s) == Join(t)
  }

  /** Two nodes that no chain of reports connects are in clusters of one name. */
  ghost predicate Clash(r: Reports, ids: set<NodeId>, x: NodeId, y: NodeId, name: string) {
    && x in ids && y in ids && !Connected(LinksOf(r, ids), x, y)
    && |Component(r, ids, x)| >= 2 && |Component(r, ids, y)| >= 2
    && Names(name, Component(r, ids, x)) && Names(name, Component(r, ids, y))
  }

  /** Clusters of one name are groups that collide. */
  lemma ClashCollides(r: Reports, ids: set<NodeId>, x: NodeId, y: NodeId, name: string)
    returns (s: seq<NodeId>, t: seq<NodeId>)
    requires Clash(r, ids, x, y, name)
    ensures Collide(ids, s, t)
  {
    var a, b := Component(r, ids, x), Component(r, ids, y);
    s :| Ascending(s) && (forall z :: z in s <==> z in a) && name == Join(s);
    t :| Ascending(t) && (forall z :: z in t <==> z in b) && name == Join(t);
    AscendingSize(s, a);
    AscendingSize(t, b);
    forall z | z in s ensures z !in t {
      if z in t {
        ConnectedSymmetric(LinksOf(r, ids), y, z);
        ConnectedTransitive(LinksOf(r, ids), x, z, y);
      }
    }
  }

  lemma AscendingSize(s: seq<NodeId>, members: set<NodeId>)
    requires Ascending(s) && forall x :: x in s <==> x in members
    ensures |s| == |members|
  {
    SizeOfSet(s);
    assert SetOf(s) == members;
  }

  /** Reports in which the first node of each group names the others of its group, each node its own machine. */
  function StarReports(ids: set<NodeId>, s: seq<NodeId>, t: seq<NodeId>): Reports
    requires s != [] && t != []
  {
    Reports(map[s[0] := s[1..], t[0] := t[1..]], map x | x in ids :: x)
  }

  function StarRep(ids: set<NodeId>, s: seq<NodeId>, t: seq<NodeId>): Parents
    requires s != [] && t != []
  {
    map x | x in ids :: if x in s then s[0] else if x in t then t[0] else x
  }

  lemma StarLinks(ids: set<NodeId>, s: seq<NodeId>, t: seq<NodeId>, a: NodeId, b: NodeId)
    requires Collide(ids, s, t)
    ensures (a, b) in LinksOf(StarReports(ids, s, t), ids) <==>
            (a == s[0] && b in s[1..]) || (a == t[0] && b in t[1..])
  {
    var r := StarReports(ids, s, t);
    assert s[0] in s && t[0] in t;
    forall i | 0 < i < |s| ensures s[i] != "" && s[i] in ids {
      NotLeast(s, i);
    }
    forall i | 0 < i < |t| ensures t[i] != "" && t[i] in ids {
      NotLeast(t, i);
    }
    forall m | m in r.PeersOf(a) ensures r.Peer(ids, m) == Some(m) {
    }
    if b in r.PeersOf(a) && a in ids {
      assert (a, r.Peer(ids, b).value) in LinksOf(r, ids);
    }
  }

  /** Only the first of ascending ids can be empty. */
  lemma NotLeast(s: seq<NodeId>, i: nat)
    requires Ascending(s) && 0 < i < |s|
    ensures s[i] != "" && s[i] in s
  {
    assert Leq(s[0], s[i]);
  }

  lemma StarSpans(ids: set<NodeId>, s: seq<NodeId>, t: seq<NodeId>)
    requires Collide(ids, s, t)
    ensures Spans(StarRep(ids, s, t), LinksOf(StarReports(ids, s, t), ids))
  {
    var links, rep := LinksOf(StarReports(ids, s, t), ids), StarRep(ids, s, t);
    hide LinksOf;
    hide Collide;
    hide StarRep;
    forall l | l in links ensures l.0 in rep && l.1 in rep && rep[l.0] == rep[l.1] {
      assert l == (l.0, l.1);
      StarLinkAgrees(ids, s, t, l.0, l.1);
    }
    forall x | x in rep ensures Connected(links, x, rep[x]) {
      StarReaches(ids, s, t, x);
    }
  }

  lemma StarLinkAgrees(ids: set<NodeId>, s: seq<NodeId>, t: seq<NodeId>, a: NodeId, b: NodeId)
    requires Collide(ids, s, t) && (a, b) in LinksOf(StarReports(ids, s, t), ids)
    ensures var rep := StarRep(ids, s, t); a in rep && b in rep && rep[a] == rep[b]
  {
    StarLinks(ids, s, t, a, b);
    hide LinksOf;
    assert s[0] in s && t[0] in t;
    assert s == [s[0]] + s[1..] && t == [t[0]] + t[1..];
  }

  lemma StarReaches(ids: set<NodeId>, s: seq<NodeId>, t: seq<NodeId>, x: NodeId)
    requires Collide(ids, s, t) && x in StarRep(ids, s, t)
    ensures Connected(LinksOf(StarReports(ids, s, t), ids), x, StarRep(ids, s, t)[x])
  {
    var links, root := LinksOf(StarReports(ids, s, t), ids), StarRep(ids, s, t)[x];
    if root == x {
      ConnectedReflexive(links, x);
    } else {
      StarLinks(ids, s, t, root, x);
      RestOf(s, x);
      RestOf(t, x);
      hide LinksOf;
      hide Collide;
      hide StarReports;
      ConnectedByLink(links, x, root);
    }
  }

  lemma RestOf(s: seq<NodeId>, x: NodeId)
    ensures x in s && x != s[0] ==> x in s[1..]
  {
    if x in s && x != s[0] {
      var i :| 0 <= i < |s| && s[i] == x;
      assert s[1..][i - 1] == x;
    }
  }

  /** Groups that collide are the clusters of some reports. */
  lemma CollisionClashes(ids: set<NodeId>, s: seq<NodeId>, t: seq<NodeId>)
    requires Collide(ids, s, t)
    ensures Clash(StarReports(ids, s, t), ids, s[0], t[0], Join(s))
  {
    var r, rep := StarReports(ids, s, t), StarRep(ids, s, t);
    assert s[0] in s && t[0] in t;
    StarSpans(ids, s, t);
    forall x | x in ids
      ensures Connected(LinksOf(r, ids), s[0], x) <==> x in s
      ensures Connected(LinksOf(r, ids), t[0], x) <==> x in t
    {
      SameClass(rep, LinksOf(r, ids), s[0], x);
      SameClass(rep, LinksOf(r, ids), t[0], x);
    }
    hide LinksOf;
    AscendingSize(s, Component(r, ids, s[0]));
    AscendingSize(t, Component(r, ids, t[0]));
  }

  /**
   Whatever the nodes report, different clusters have different ids, exactly when no two disjoint groups of two or more
   of the node ids join to one name.
   */
  lemma NamesDifferExactly(ids: set<NodeId>)
    ensures (forall r, x, y, name :: !Clash(r, ids, x, y, name)) <==> (forall s, t :: !Collide(ids, s, t))
  {
    if r, x, y, name :| Clash(r, ids, x, y, name) {
      var s, t := ClashCollides(r, ids, x, y, name);
      assert Collide(ids, s, t);
    }
    if s, t :| Collide(ids, s, t) {
      CollisionClashes(ids, s, t);
    }
  }

  /** Ids without ':' never collide. */
  lemma PlainNeverCollide(ids: set<NodeId>, s: seq<NodeId>, t: seq<NodeId>)
    requires forall x :: x in ids ==> Plain(x)
    ensures !Collide(ids, s, t)
  {
    if Collide(ids, s, t) {
      assert s[0] in s && s[0] !in t;
      JoinInjective(s, t);
    }
  }

  /** So for such ids two named nodes have the same cluster id exactly when a chain of reports connects them. */
  lemma SameClusterWithoutCollision(result: map<NodeId, string>, r: Reports, ids: set<NodeId>, x: NodeId, y: NodeId)
    requires forall s, t :: !Collide(ids, s, t)
    requires AreClusters(result, r, ids) && x in result && y in result
    ensures result[x] == result[y] <==> Connected(LinksOf(r, ids), x, y)
  {
    SameClusterExactly(result, r, ids, x, y);
    NamesDifferExactly(ids);
    assert !Clash(r, ids, x, y, result[x]);
  }
}
