/** What makes a Flow publishable, and the validator that decides it. Field-level rules (bindings, models,
    no-code parameters, port models) are left to two uninterpreted checks. */
module Validation {
  import opened Text
  import opened FlowGraph
  import opened TopologicalSort
  import opened CycleSearch

  const PARSE_NORMALIZE := "parse-normalize"
  const MAPPING_TEMPLATE := "mapping-template"
  const CONDITION_FILTER := "condition-filter"

  datatype Direction = Input | Output | OtherDirection

  datatype Behavior = Behavior(direction: Direction, published: bool, adapterAllowed: bool)

  type Catalog = map<BehaviorRef, Behavior>

  datatype FieldChecks = FieldChecks(node: Node -> bool, edge: Edge -> bool)

  predicate HasDirection(c: Catalog, node: Node, direction: Direction) {
    && node.kind == Connector && node.behavior.Some?
    && node.behavior.value in c && c[node.behavior.value].direction == direction
  }

  predicate IsInput(c: Catalog, node: Node) { HasDirection(c, node, Input) }

  predicate IsOutput(c: Catalog, node: Node) { HasDirection(c, node, Output) }

  // ---------- Reachability from the input connectors ----------

  ghost predicate ReachableFrom(g: Graph, c: Catalog, v: Id) {
    exists s | s in g.nodes :: IsInput(c, s) && Reaches(g, s.id, v)
  }

  lemma ReachableExtends(g: Graph, c: Catalog, u: Id, v: Id)
    requires ReachableFrom(g, c, u) && Linked(g, u, v)
    ensures ReachableFrom(g, c, v)
  {
    var s :| s in g.nodes && IsInput(c, s) && Reaches(g, s.id, u);
    LinkedReaches(g, u, v);
    ReachesTransitive(g, s.id, u, v);
  }

  ghost predicate Explored(g: Graph, c: Catalog, seen: set<Id>, frontier: seq<Id>) {
    && seen <= NodeIds(g)
    && (forall v | v in seen :: ReachableFrom(g, c, v))
    && (forall v | v in frontier :: v in NodeIds(g) && ReachableFrom(g, c, v))
    && (forall e | e in g.edges && e.from in seen :: e.to in seen || e.to in frontier)
    && (forall s | s in g.nodes && IsInput(c, s) :: s.id in seen || s.id in frontier)
  }

  lemma ExploreNode(g: Graph, c: Catalog, seen: set<Id>, frontier: seq<Id>)
    requires EdgesClosed(g) && frontier != [] && Explored(g, c, seen, frontier)
    ensures Explored(g, c, seen + {frontier[0]}, frontier[1..] + Targets(g.edges, frontier[0]))
  {
    var id := frontier[0];
    var next := frontier[1..] + Targets(g.edges, id);
    forall v | v in next
      ensures v in NodeIds(g) && ReachableFrom(g, c, v)
    {
      TargetsAreLinked(g, g.edges, id, v);
      if v in Targets(g.edges, id) {
        ReachableExtends(g, c, id, v);
      }
    }
    forall e | e in g.edges && e.from in seen + {id}
      ensures e.to in seen + {id} || e.to in next
    {
      TargetsAreLinked(g, g.edges, id, e.to);
      assert e.to in frontier ==> e.to == id || e.to in frontier[1..];
    }
  }

  lemma ExploredAll(g: Graph, c: Catalog, seen: set<Id>)
    requires Explored(g, c, seen, [])
    ensures forall v :: v in seen <==> ReachableFrom(g, c, v)
  {
    forall v | ReachableFrom(g, c, v)
      ensures v in seen
    {
      var s :| s in g.nodes && IsInput(c, s) && Reaches(g, s.id, v);
      var p :| PathFromTo(g, p, s.id, v);
      ClosedUnderEdges(g, seen, p);
    }
  }

  method InputQueue(g: Graph, c: Catalog) returns (queue: seq<Id>)
    ensures Explored(g, c, {}, queue)
  {
    queue := [];
    for k := 0 to |g.nodes|
      invariant forall i | 0 <= i < k && IsInput(c, g.nodes[i]) :: g.nodes[i].id in queue
      invariant forall v | v in queue :: v in NodeIds(g) && ReachableFrom(g, c, v)
    {
      if IsInput(c, g.nodes[k]) {
        ReachesSelf(g, g.nodes[k].id);
        queue := queue + [g.nodes[k].id];
      }
    }
  }

  method PushTargets(g: Graph, queue0: seq<Id>, id: Id) returns (queue: seq<Id>)
    requires EdgesClosed(g)
    ensures queue == queue0 + Targets(g.edges, id)
  {
    queue := queue0;
    for k := 0 to |g.edges|
      invariant queue == queue0 + Targets(g.edges[..k], id)
    {
      assert g.edges[..k + 1][..k] == g.edges[..k];
      if g.edges[k].from == id && g.edges[k].to in NodeIds(g) {
        AppendAfter(queue0, Targets(g.edges[..k], id), g.edges[k].to);
        queue := queue + [g.edges[k].to];
      }
    }
    assert g.edges[..|g.edges|] == g.edges;
  }

  lemma SkipSeen(g: Graph, c: Catalog, seen: set<Id>, frontier: seq<Id>)
    requires frontier != [] && frontier[0] in seen && Explored(g, c, seen, frontier)
    ensures Explored(g, c, seen, frontier[1..])
  {
    assert forall v | v in frontier :: v == frontier[0] || v in frontier[1..];
  }

  /** reachableFromInput. */
  method ReachableFromInput(g: Graph, c: Catalog) returns (seen: set<Id>)
    requires EdgesClosed(g)
    ensures forall v :: v in seen <==> ReachableFrom(g, c, v)
  {
    var queue := InputQueue(g, c);
    seen := {};
    while queue != []
      invariant Explored(g, c, seen, queue)
      decreases NodeIds(g) - seen, |queue|
    {
      var id := queue[0];
      if id in seen {
        SkipSeen(g, c, seen, queue);
        queue := queue[1..];
      } else {
        ExploreNode(g, c, seen, queue);
        assert id in queue;
        seen := seen + {id};
        queue := PushTargets(g, queue[1..], id);
      }
    }
    ExploredAll(g, c, seen);
  }

  // ---------- Publishability ----------

  predicate SupportedGeneric(kind: string) {
    kind == PARSE_NORMALIZE || kind == MAPPING_TEMPLATE || kind == CONDITION_FILTER
  }

  predicate NodePublishable(c: Catalog, checks: FieldChecks, node: Node) {
    && checks.node(node)
    && (node.kind == Connector ==>
          && node.behavior.Some? && node.behavior.value in c
          && var behavior := c[node.behavior.value];
             behavior.published && behavior.adapterAllowed && behavior.direction != OtherDirection)
    && (node.kind == Generic ==> node.generic.Some? && SupportedGeneric(node.generic.value))
  }

  /** findPort, as a yes or no. */
  predicate HasPort(g: Graph, id: Id, port: string, direction: PortDirection) {
    exists node | node in g.nodes :: node.id == id && PortOn(node, port, direction)
  }

  predicate PortOn(node: Node, port: string, direction: PortDirection) {
    exists p | p in (if direction == OutputPort then node.outputs else node.inputs) ::
      p.id == port && p.direction == direction
  }

  predicate EdgePublishable(g: Graph, checks: FieldChecks, e: Edge) {
    && HasPort(g, e.from, e.fromPort, OutputPort)
    && HasPort(g, e.to, e.toPort, InputPort)
    && checks.edge(e)
  }

  predicate PortFed(g: Graph, id: Id, port: string) {
    exists e | e in g.edges :: e.to == id && e.toPort == port
  }

  predicate InputsConnected(g: Graph, node: Node) {
    node.kind == Generic ==> forall p | p in node.inputs && p.required :: PortFed(g, node.id, p.id)
  }

  /** hasOutgoing. */
  predicate HasOutgoing(g: Graph, id: Id) {
    exists e | e in g.edges :: e.from == id
  }

  /** A node where an executable path may end. */
  predicate MayEnd(g: Graph, c: Catalog, node: Node) {
    HasOutgoing(g, node.id) || node.kind == Terminal || IsOutput(c, node)
  }

  function InputCount(c: Catalog, nodes: seq<Node>): nat {
    if nodes == [] then 0
    else InputCount(c, nodes[..|nodes| - 1]) + if IsInput(c, nodes[|nodes| - 1]) then 1 else 0
  }

  ghost predicate ValidFlow(g: Graph, c: Catalog, checks: FieldChecks, publish: bool) {
    && ShapeValid(g)
    && (forall node | node in g.nodes :: NodePublishable(c, checks, node))
    && InputCount(c, g.nodes) == 1
    && !HasDirectedCycle(g)
    && (forall e | e in g.edges :: EdgePublishable(g, checks, e))
    && (forall node | node in g.nodes :: InputsConnected(g, node))
    && (publish ==> forall node | node in g.nodes && ReachableFrom(g, c, node.id) :: MayEnd(g, c, node))
  }

  /** A validated Flow has one input connector. */
  lemma {:induction false} SoleInput(c: Catalog, nodes: seq<Node>, a: Node, b: Node)
    requires InputCount(c, nodes) <= 1 && a in nodes && b in nodes && IsInput(c, a) && IsInput(c, b)
    ensures a == b
  {
    var front, last := nodes[..|nodes| - 1], nodes[|nodes| - 1];
    assert nodes == front + [last];
    if a in front && b in front {
      SoleInput(c, front, a, b);
    } else if a in front {
      CountedInput(c, front, a);
    } else if b in front {
      CountedInput(c, front, b);
    }
  }

  lemma {:induction false} CountedInput(c: Catalog, nodes: seq<Node>, a: Node)
    requires a in nodes && IsInput(c, a)
    ensures InputCount(c, nodes) >= 1
  {
    var front, last := nodes[..|nodes| - 1], nodes[|nodes| - 1];
    assert nodes == front + [last];
    if a in front {
      CountedInput(c, front, a);
    }
  }

  /** Catalog.Validate, reporting only whether there is any diagnostic. */
  method Validate(g: Graph, c: Catalog, checks: FieldChecks, publish: bool) returns (valid: bool)
    ensures valid <==> ValidFlow(g, c, checks, publish)
  {
    var shape := ValidateShape(g);
    if !shape {
      return false;
    }
    assert EdgesClosed(g);
    valid := true;
    var inputCount := 0;
    for k := 0 to |g.nodes|
      invariant valid <==> forall i | 0 <= i < k :: NodePublishable(c, checks, g.nodes[i])
      invariant valid ==> inputCount == InputCount(c, g.nodes[..k])
    {
      TakeOneMore(g.nodes, k);
      if !NodePublishable(c, checks, g.nodes[k]) {
        valid := false;
      } else if IsInput(c, g.nodes[k]) {
        inputCount := inputCount + 1;
      }
    }
    assert g.nodes[..|g.nodes|] == g.nodes;
    assert valid <==> forall node | node in g.nodes :: NodePublishable(c, checks, node);
    if inputCount != 1 {
      valid := false;
    }
    var cyclic := HasCycle(g);
    if cyclic {
      valid := false;
    }
    var edges := ScanEdgePorts(g, checks);
    var inputs := ScanRequiredInputs(g);
    valid := valid && edges && inputs;
    if publish {
      var ends := ScanPathEnds(g, c);
      valid := valid && ends;
    }
  }

  method ScanEdgePorts(g: Graph, checks: FieldChecks) returns (valid: bool)
    ensures valid <==> forall e | e in g.edges :: EdgePublishable(g, checks, e)
  {
    valid := true;
    for k := 0 to |g.edges|
      invariant valid <==> forall i | 0 <= i < k :: EdgePublishable(g, checks, g.edges[i])
    {
      valid := valid && EdgePublishable(g, checks, g.edges[k]);
    }
  }

  method ScanRequiredInputs(g: Graph) returns (valid: bool)
    ensures valid <==> forall node | node in g.nodes :: InputsConnected(g, node)
  {
    valid := true;
    for k := 0 to |g.nodes|
      invariant valid <==> forall i | 0 <= i < k :: InputsConnected(g, g.nodes[i])
    {
      valid := valid && InputsConnected(g, g.nodes[k]);
    }
  }

  method ScanPathEnds(g: Graph, c: Catalog) returns (valid: bool)
    requires EdgesClosed(g)
    ensures valid <==> forall node | node in g.nodes && ReachableFrom(g, c, node.id) :: MayEnd(g, c, node)
  {
    var reachable := ReachableFromInput(g, c);
    valid := true;
    for k := 0 to |g.nodes|
      invariant valid <==> forall i | 0 <= i < k && g.nodes[i].id in reachable :: MayEnd(g, c, g.nodes[i])
    {
      if g.nodes[k].id in reachable && !MayEnd(g, c, g.nodes[k]) {
        valid := false;
      }
    }
  }
}
