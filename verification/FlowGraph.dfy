/** The stored Flow document, its local shape check, and what a path, a cycle and a
    topological order of it are. */
module FlowGraph {
  import opened Text

  datatype PortDirection = InputPort | OutputPort

  datatype Port = Port(id: string, direction: PortDirection, required: bool)

  datatype NodeKind = Connector | Generic | Terminal | UnknownKind

  datatype BehaviorRef = BehaviorRef(key: string, version: string)

  /** `behavior` and `generic` are the optional connector and generic configurations. */
  datatype Node = Node(
    id: Id, kind: NodeKind, inputs: seq<Port>, outputs: seq<Port>,
    behavior: Option<BehaviorRef>, generic: Option<string>)

  datatype Edge = Edge(id: string, from: Id, fromPort: string, to: Id, toPort: string)

  datatype Graph = Graph(nodes: seq<Node>, edges: seq<Edge>)

  function NodeIds(g: Graph): set<Id> {
    set node | node in g.nodes :: node.id
  }

  // ---------- Local shape ----------

  predicate KindConfigured(node: Node) {
    match node.kind
    case Connector =>
      node.behavior.Some? && !IsBlank(node.behavior.value.key) && !IsBlank(node.behavior.value.version)
    case Generic => node.generic.Some? && !IsBlank(node.generic.value)
    case Terminal => true
    case UnknownKind => false
  }

  predicate PortsValid(ports: seq<Port>) {
    && (forall p | p in ports :: !IsBlank(p.id))
    && (forall i, j | 0 <= i < j < |ports| :: ports[i].id != ports[j].id)
  }

  predicate UniqueNodeIds(g: Graph) {
    forall i, j | 0 <= i < j < |g.nodes| :: g.nodes[i].id != g.nodes[j].id
  }

  predicate NodeValid(node: Node) {
    node.id != "" && KindConfigured(node) && PortsValid(node.inputs + node.outputs)
  }

  predicate EdgeValid(e: Edge, ids: set<Id>) {
    !IsBlank(e.id) && e.from in ids && e.to in ids && e.from != e.to
  }

  predicate NodesShape(nodes: seq<Node>) {
    && (forall k | 0 <= k < |nodes| :: NodeValid(nodes[k]))
    && (forall j, k | 0 <= j < k < |nodes| :: nodes[j].id != nodes[k].id)
  }

  predicate EdgesShape(edges: seq<Edge>, ids: set<Id>) {
    && (forall k | 0 <= k < |edges| :: EdgeValid(edges[k], ids))
    && (forall j, k | 0 <= j < k < |edges| :: edges[j].id != edges[k].id)
  }

  predicate ShapeValid(g: Graph) {
    NodesShape(g.nodes) && EdgesShape(g.edges, NodeIds(g))
  }

  method PortsDistinct(ports: seq<Port>) returns (valid: bool)
    ensures valid <==> PortsValid(ports)
  {
    var seen: set<string> := {};
    for p := 0 to |ports|
      invariant seen == set k | 0 <= k < p :: ports[k].id
      invariant forall k | 0 <= k < p :: !IsBlank(ports[k].id)
      invariant forall j, k | 0 <= j < k < p :: ports[j].id != ports[k].id
    {
      if IsBlank(ports[p].id) || ports[p].id in seen {
        assert ports[p] in ports;
        return false;
      }
      seen := seen + {ports[p].id};
    }
    return true;
  }

  method ScanNodes(nodes: seq<Node>) returns (valid: bool, seen: set<Id>)
    ensures valid <==> NodesShape(nodes)
    ensures valid ==> seen == set k | 0 <= k < |nodes| :: nodes[k].id
  {
    seen := {};
    for i := 0 to |nodes|
      invariant seen == set k | 0 <= k < i :: nodes[k].id
      invariant NodesShape(nodes[..i])
    {
      var node := nodes[i];
      var portsValid := PortsDistinct(node.inputs + node.outputs);
      if node.id == "" || node.id in seen || !KindConfigured(node) || !portsValid {
        return false, seen;
      }
      seen := seen + {node.id};
      assert nodes[..i + 1] == nodes[..i] + [node];
    }
    assert nodes[..|nodes|] == nodes;
    valid := true;
  }

  method ScanEdges(edges: seq<Edge>, ids: set<Id>) returns (valid: bool)
    ensures valid <==> EdgesShape(edges, ids)
  {
    var seen: set<string> := {};
    for i := 0 to |edges|
      invariant seen == set k | 0 <= k < i :: edges[k].id
      invariant EdgesShape(edges[..i], ids)
    {
      var e := edges[i];
      if IsBlank(e.id) || e.id in seen || e.from !in ids || e.to !in ids || e.from == e.to {
        return false;
      }
      seen := seen + {e.id};
      assert edges[..i + 1] == edges[..i] + [e];
    }
    assert edges[..|edges|] == edges;
    return true;
  }

  /** The scan that rejects a document at its first defect. */
  method ValidateShape(g: Graph) returns (valid: bool)
    ensures valid <==> ShapeValid(g)
  {
    var nodesValid, seenNodes := ScanNodes(g.nodes);
    if !nodesValid {
      return false;
    }
    assert seenNodes == NodeIds(g);
    valid := ScanEdges(g.edges, seenNodes);
  }

  // ---------- Paths, cycles, topological orders ----------

  /** Every edge joins two nodes of the document. */
  predicate EdgesClosed(g: Graph) {
    forall e | e in g.edges :: e.from in NodeIds(g) && e.to in NodeIds(g)
  }

  predicate Linked(g: Graph, u: Id, v: Id) {
    exists e | e in g.edges :: e.from == u && e.to == v
  }

  ghost predicate IsPath(g: Graph, p: seq<Id>) {
    p != [] && forall i | 0 <= i < |p| - 1 :: Linked(g, p[i], p[i + 1])
  }

  ghost predicate PathFromTo(g: Graph, p: seq<Id>, u: Id, v: Id) {
    IsPath(g, p) && p[0] == u && p[|p| - 1] == v
  }

  /** v is u, or can be reached from u along edges. */
  ghost predicate Reaches(g: Graph, u: Id, v: Id) {
    exists p :: PathFromTo(g, p, u, v)
  }

  ghost predicate HasDirectedCycle(g: Graph) {
    exists p, u :: PathFromTo(g, p, u, u) && |p| >= 2
  }

  predicate Distinct(order: seq<Id>) {
    forall i, j | 0 <= i < j < |order| :: order[i] != order[j]
  }

  function Elements(order: seq<Id>): set<Id> {
    set v | v in order
  }

  /** An enumeration of all the nodes in which every edge goes forward. */
  ghost predicate TopologicalOrder(g: Graph, order: seq<Id>) {
    && Distinct(order)
    && Elements(order) == NodeIds(g)
    && (forall e, i, j | e in g.edges && 0 <= i < |order| && 0 <= j < |order|
          && order[i] == e.from && order[j] == e.to :: i < j)
  }

  lemma ReachesSelf(g: Graph, u: Id)
    ensures Reaches(g, u, u)
  {
    assert PathFromTo(g, [u], u, u);
  }

  lemma PathConcat(g: Graph, p: seq<Id>, q: seq<Id>)
    requires IsPath(g, p) && IsPath(g, q) && p[|p| - 1] == q[0]
    ensures IsPath(g, p + q[1..])
    ensures (p + q[1..])[0] == p[0] && (p + q[1..])[|p + q[1..]| - 1] == q[|q| - 1]
  {
    var r := p + q[1..];
    forall i | 0 <= i < |r| - 1
      ensures Linked(g, r[i], r[i + 1])
    {
      if i < |p| - 1 {
        assert r[i] == p[i] && r[i + 1] == p[i + 1];
      } else {
        assert r[i] == q[i - |p| + 1] && r[i + 1] == q[i - |p| + 2];
      }
    }
  }

  lemma ReachesTransitive(g: Graph, u: Id, v: Id, w: Id)
    requires Reaches(g, u, v) && Reaches(g, v, w)
    ensures Reaches(g, u, w)
  {
    var p :| PathFromTo(g, p, u, v);
    var q :| PathFromTo(g, q, v, w);
    PathConcat(g, p, q);
    assert PathFromTo(g, p + q[1..], u, w);
  }

  lemma LinkedReaches(g: Graph, u: Id, v: Id)
    requires Linked(g, u, v)
    ensures Reaches(g, u, v)
  {
    assert PathFromTo(g, [u, v], u, v);
  }

  lemma LastEdge(g: Graph, p: seq<Id>) returns (e: Edge)
    requires IsPath(g, p) && |p| > 1
    ensures e in g.edges && e.from == p[|p| - 2] && e.to == p[|p| - 1]
    ensures IsPath(g, p[..|p| - 1])
  {
    var i := |p| - 2;
    assert Linked(g, p[i], p[i + 1]);
    e :| e in g.edges && e.from == p[i] && e.to == p[i + 1];
  }

  /** What lies on a path out of a set that no edge leaves is in that set. */
  lemma {:induction false} ClosedUnderEdges(g: Graph, s: set<Id>, p: seq<Id>)
    requires IsPath(g, p) && p[0] in s
    requires forall e | e in g.edges && e.from in s :: e.to in s
    ensures p[|p| - 1] in s
  {
    if |p| > 1 {
      var e := LastEdge(g, p);
      ClosedUnderEdges(g, s, p[..|p| - 1]);
    }
  }

  /** Along a path whose nodes are all listed, positions increase. */
  lemma {:induction false} PathClimbs(g: Graph, order: seq<Id>, p: seq<Id>, i: nat, j: nat)
    requires TopologicalOrder(g, order) && EdgesClosed(g)
    requires IsPath(g, p)
    requires i < |order| && order[i] == p[0] && j < |order| && order[j] == p[|p| - 1]
    ensures i <= j && (|p| >= 2 ==> i < j)
  {
    if |p| > 1 {
      var e := LastEdge(g, p);
      assert e.from in Elements(order);
      var k :| 0 <= k < |order| && order[k] == e.from;
      PathClimbs(g, order, p[..|p| - 1], i, k);
    }
  }

  lemma TopologicalOrderAcyclic(g: Graph, order: seq<Id>)
    requires TopologicalOrder(g, order) && EdgesClosed(g)
    ensures !HasDirectedCycle(g)
  {
    if HasDirectedCycle(g) {
      var p, u :| PathFromTo(g, p, u, u) && |p| >= 2;
      assert Linked(g, p[0], p[1]);
      assert u in Elements(order);
      var i :| 0 <= i < |order| && order[i] == u;
      PathClimbs(g, order, p, i, i);
    }
  }

  // ---------- A set in which every node has a predecessor holds a cycle ----------

  ghost predicate HasPredecessorIn(g: Graph, s: set<Id>, v: Id) {
    exists u | u in s :: Linked(g, u, v)
  }

  ghost predicate BackwardClosed(g: Graph, s: set<Id>) {
    forall v | v in s :: HasPredecessorIn(g, s, v)
  }

  lemma PrependPath(g: Graph, u: Id, q: seq<Id>)
    requires IsPath(g, q) && Linked(g, u, q[0])
    ensures IsPath(g, [u] + q)
  {
    var p := [u] + q;
    forall i | 0 <= i < |p| - 1
      ensures Linked(g, p[i], p[i + 1])
    {
      if i > 0 {
        assert p[i] == q[i - 1] && p[i + 1] == q[i];
      }
    }
  }

  lemma {:induction false} BackwardWalk(g: Graph, s: set<Id>, v: Id, n: nat) returns (p: seq<Id>)
    requires BackwardClosed(g, s) && v in s
    ensures IsPath(g, p) && |p| == n + 1 && forall x | x in p :: x in s
  {
    if n == 0 {
      p := [v];
    } else {
      var q := BackwardWalk(g, s, v, n - 1);
      assert q[0] in s && HasPredecessorIn(g, s, q[0]);
      var u :| u in s && Linked(g, u, q[0]);
      PrependPath(g, u, q);
      p := [u] + q;
    }
  }

  lemma {:induction false} DistinctFits(p: seq<Id>, s: set<Id>)
    requires Distinct(p) && forall x | x in p :: x in s
    ensures |p| <= |s|
  {
    if p != [] {
      var last := p[|p| - 1];
      var front := p[..|p| - 1];
      assert forall x | x in front :: x in s - {last};
      DistinctFits(front, s - {last});
    }
  }

  lemma SubPath(g: Graph, p: seq<Id>, i: nat, j: nat)
    requires IsPath(g, p) && i < j <= |p|
    ensures IsPath(g, p[i..j])
  {
    var q := p[i..j];
    forall k | 0 <= k < |q| - 1
      ensures Linked(g, q[k], q[k + 1])
    {
      assert q[k] == p[i + k] && q[k + 1] == p[i + k + 1];
    }
  }

  lemma RepeatedNodeCycle(g: Graph, p: seq<Id>, i: nat, j: nat)
    requires IsPath(g, p) && i < j < |p| && p[i] == p[j]
    ensures HasDirectedCycle(g)
  {
    SubPath(g, p, i, j + 1);
    assert PathFromTo(g, p[i..j + 1], p[i], p[i]);
  }

  lemma LongPathRepeats(g: Graph, p: seq<Id>, s: set<Id>)
    requires IsPath(g, p) && |p| > |s| && forall x | x in p :: x in s
    ensures HasDirectedCycle(g)
  {
    if Distinct(p) {
      DistinctFits(p, s);
    } else {
      var i, j :| 0 <= i < j < |p| && p[i] == p[j];
      RepeatedNodeCycle(g, p, i, j);
    }
  }

  lemma {:induction false} BackwardClosedHasCycle(g: Graph, s: set<Id>)
    requires BackwardClosed(g, s) && s != {}
    ensures HasDirectedCycle(g)
  {
    var v :| v in s;
    var p := BackwardWalk(g, s, v, |s|);
    LongPathRepeats(g, p, s);
  }
}
