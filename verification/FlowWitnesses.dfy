/** Publishable Flows on which two properties fail, so that their conditions are not idle. The names in them
    are arbitrary. */
module FlowWitnesses {
  import opened Text
  import opened FlowGraph
  import opened TopologicalSort
  import opened Validation
  import opened Interpreter
  import opened Confluence
  import opened Execution
  import opened OutputReached
  import opened LiveOrder
  import opened LiveOrderDecision

  /** Node names (which also name the edges), the two port names, and the two connector behaviours. */
  datatype Names = Names(h: Id, a: Id, b: Id, i: Id, x: string, y: string, hook: BehaviorRef, issue: BehaviorRef)

  predicate Written(ref: BehaviorRef) {
    !IsBlank(ref.key) && !IsBlank(ref.version)
  }

  predicate Usable(n: Names) {
    && !IsBlank(n.h) && !IsBlank(n.a) && !IsBlank(n.b) && !IsBlank(n.i) && !IsBlank(n.x) && !IsBlank(n.y)
    && n.h != n.a && n.h != n.b && n.h != n.i && n.a != n.b && n.a != n.i && n.b != n.i && n.x != n.y
    && Written(n.hook) && Written(n.issue) && n.hook != n.issue
  }

  function Behaviors(n: Names): Catalog {
    map[n.hook := Behavior(Input, true, true), n.issue := Behavior(Output, true, true)]
  }

  function NoFieldRules(): FieldChecks {
    FieldChecks((node: Node) => true, (e: Edge) => true)
  }

  function HookNode(n: Names, id: Id): Node {
    Node(id, Connector, [], [Port(n.y, OutputPort, false)], Some(n.hook), None)
  }

  function IssueNode(n: Names, id: Id): Node {
    Node(id, Connector, [Port(n.x, InputPort, true)], [], Some(n.issue), None)
  }

  function MappingNode(n: Names, id: Id): Node {
    Node(id, Generic, [Port(n.x, InputPort, true)], [Port(n.y, OutputPort, false)], None, Some(MAPPING_TEMPLATE))
  }

  function Wire(n: Names, id: string, from: Id, to: Id): Edge {
    Edge(id, from, n.y, to, n.x)
  }

  lemma NodesUsable(n: Names, id: Id)
    requires Usable(n) && id != ""
    ensures NodeValid(HookNode(n, id)) && NodeValid(IssueNode(n, id)) && NodeValid(MappingNode(n, id))
  {
    ConnectorPorts(Port(n.x, InputPort, true), Port(n.y, OutputPort, false));
    MappingNamed();
  }

  lemma ConnectorPorts(x: Port, y: Port)
    requires !IsBlank(x.id) && !IsBlank(y.id) && x.id != y.id
    ensures PortsValid([] + [y]) && PortsValid([x] + []) && PortsValid([x] + [y])
  {
    assert [] + [y] == [y] && [x] + [] == [x] && [x] + [y] == [x, y];
  }

  lemma MappingNamed()
    ensures !IsBlank(MAPPING_TEMPLATE)
  {
    assert !IsSpace(MAPPING_TEMPLATE[0]);
  }

  lemma NodesPublishable(n: Names, id: Id)
    requires Usable(n)
    ensures NodePublishable(Behaviors(n), NoFieldRules(), HookNode(n, id))
    ensures NodePublishable(Behaviors(n), NoFieldRules(), IssueNode(n, id))
    ensures NodePublishable(Behaviors(n), NoFieldRules(), MappingNode(n, id))
    ensures IsInput(Behaviors(n), HookNode(n, id)) && IsOutput(Behaviors(n), IssueNode(n, id))
    ensures !IsInput(Behaviors(n), IssueNode(n, id)) && !IsInput(Behaviors(n), MappingNode(n, id))
  {
  }

  lemma NodePorts(n: Names, id: Id)
    ensures PortOn(HookNode(n, id), n.y, OutputPort) && PortOn(MappingNode(n, id), n.y, OutputPort)
    ensures PortOn(IssueNode(n, id), n.x, InputPort) && PortOn(MappingNode(n, id), n.x, InputPort)
  {
    assert Port(n.y, OutputPort, false) in [Port(n.y, OutputPort, false)];
    assert Port(n.x, InputPort, true) in [Port(n.x, InputPort, true)];
  }

  lemma WirePublishable(g: Graph, checks: FieldChecks, e: Edge, source: Node, target: Node)
    requires source in g.nodes && target in g.nodes && source.id == e.from && target.id == e.to
    requires PortOn(source, e.fromPort, OutputPort) && PortOn(target, e.toPort, InputPort) && checks.edge(e)
    ensures EdgePublishable(g, checks, e)
  {
  }

  lemma OneMoreNode(nodes: seq<Node>, node: Node)
    requires NodesShape(nodes) && NodeValid(node) && forall k | 0 <= k < |nodes| :: nodes[k].id != node.id
    ensures NodesShape(nodes + [node])
  {
  }

  lemma OneMoreEdge(edges: seq<Edge>, ids: set<Id>, e: Edge)
    requires EdgesShape(edges, ids) && EdgeValid(e, ids) && forall k | 0 <= k < |edges| :: edges[k].id != e.id
    ensures EdgesShape(edges + [e], ids)
  {
  }

  lemma InputCountAppend(c: Catalog, nodes: seq<Node>, last: Node)
    ensures InputCount(c, nodes + [last]) == InputCount(c, nodes) + if IsInput(c, last) then 1 else 0
  {
    assert (nodes + [last])[..|nodes|] == nodes;
  }

  lemma MayEndIfNode(g: Graph, c: Catalog, e: Edge, node: Node)
    requires (e in g.edges && e.from == node.id) || IsOutput(c, node)
    ensures MayEnd(g, c, node)
  {
  }

  lemma FedIfEdge(g: Graph, e: Edge, node: Node)
    requires node.kind == Generic ==> e in g.edges && e.to == node.id && forall p | p in node.inputs :: p.id == e.toPort
    ensures InputsConnected(g, node)
  {
  }

  lemma Assemble(g: Graph, c: Catalog, checks: FieldChecks, order: seq<Id>)
    requires ShapeValid(g) && EdgesClosed(g) && TopologicalOrder(g, order)
    requires forall node | node in g.nodes :: NodePublishable(c, checks, node)
    requires InputCount(c, g.nodes) == 1
    requires forall e | e in g.edges :: EdgePublishable(g, checks, e)
    requires forall node | node in g.nodes :: InputsConnected(g, node)
    requires forall node | node in g.nodes :: MayEnd(g, c, node)
    ensures ValidFlow(g, c, checks, true)
  {
    TopologicalOrderAcyclic(g, order);
  }

  // ---------- Two branches that meet in one port ----------

  /** From h to a and b, and from both to the same port of i. */
  function Diamond(n: Names): Graph {
    Graph([HookNode(n, n.h), MappingNode(n, n.a), MappingNode(n, n.b), IssueNode(n, n.i)],
          [Wire(n, n.h, n.h, n.a), Wire(n, n.a, n.h, n.b), Wire(n, n.b, n.a, n.i), Wire(n, n.i, n.b, n.i)])
  }

  lemma DiamondMembers(n: Names)
    ensures forall node :: node in Diamond(n).nodes <==>
      node == HookNode(n, n.h) || node == MappingNode(n, n.a) || node == MappingNode(n, n.b)
        || node == IssueNode(n, n.i)
    ensures forall e :: e in Diamond(n).edges <==>
      e == Wire(n, n.h, n.h, n.a) || e == Wire(n, n.a, n.h, n.b) || e == Wire(n, n.b, n.a, n.i)
        || e == Wire(n, n.i, n.b, n.i)
  {
  }

  lemma DiamondIds(n: Names)
    ensures NodeIds(Diamond(n)) == {n.h, n.a, n.b, n.i} && EdgesClosed(Diamond(n))
  {
    DiamondMembers(n);
  }

  lemma DiamondNodesShape(n: Names)
    requires Usable(n)
    ensures NodesShape(Diamond(n).nodes)
  {
    NodesUsable(n, n.h);
    NodesUsable(n, n.a);
    NodesUsable(n, n.b);
    NodesUsable(n, n.i);
    OneMoreNode([], HookNode(n, n.h));
    OneMoreNode([HookNode(n, n.h)], MappingNode(n, n.a));
    OneMoreNode([HookNode(n, n.h), MappingNode(n, n.a)], MappingNode(n, n.b));
    OneMoreNode([HookNode(n, n.h), MappingNode(n, n.a), MappingNode(n, n.b)], IssueNode(n, n.i));
    DiamondNodes(n);
  }

  lemma DiamondNodes(n: Names)
    ensures [] + [HookNode(n, n.h)] == [HookNode(n, n.h)]
    ensures [HookNode(n, n.h)] + [MappingNode(n, n.a)] == [HookNode(n, n.h), MappingNode(n, n.a)]
    ensures [HookNode(n, n.h), MappingNode(n, n.a)] + [MappingNode(n, n.b)]
         == [HookNode(n, n.h), MappingNode(n, n.a), MappingNode(n, n.b)]
    ensures [HookNode(n, n.h), MappingNode(n, n.a), MappingNode(n, n.b)] + [IssueNode(n, n.i)] == Diamond(n).nodes
  {
  }

  lemma FourAppended<T>(e0: T, e1: T, e2: T, e3: T)
    ensures [] + [e0] == [e0] && [e0] + [e1] == [e0, e1] && [e0, e1] + [e2] == [e0, e1, e2]
    ensures [e0, e1, e2] + [e3] == [e0, e1, e2, e3]
  {
  }

  lemma FourEdges(e0: Edge, e1: Edge, e2: Edge, e3: Edge, ids: set<Id>)
    requires EdgeValid(e0, ids) && EdgeValid(e1, ids) && EdgeValid(e2, ids) && EdgeValid(e3, ids)
    requires e0.id !in {e1.id, e2.id, e3.id} && e1.id !in {e2.id, e3.id} && e2.id != e3.id
    ensures EdgesShape([e0, e1, e2, e3], ids)
  {
    FourAppended(e0, e1, e2, e3);
    OneMoreEdge([], ids, e0);
    OneMoreEdge([e0], ids, e1);
    OneMoreEdge([e0, e1], ids, e2);
    OneMoreEdge([e0, e1, e2], ids, e3);
  }

  lemma DiamondEdgesShape(n: Names)
    requires Usable(n)
    ensures EdgesShape(Diamond(n).edges, NodeIds(Diamond(n)))
  {
    DiamondIds(n);
    FourEdges(Wire(n, n.h, n.h, n.a), Wire(n, n.a, n.h, n.b), Wire(n, n.b, n.a, n.i), Wire(n, n.i, n.b, n.i),
              NodeIds(Diamond(n)));
  }

  lemma DiamondNodesPublishable(n: Names)
    requires Usable(n)
    ensures forall node | node in Diamond(n).nodes :: NodePublishable(Behaviors(n), NoFieldRules(), node)
    ensures InputCount(Behaviors(n), Diamond(n).nodes) == 1
  {
    NodesPublishable(n, n.h);
    NodesPublishable(n, n.a);
    NodesPublishable(n, n.b);
    NodesPublishable(n, n.i);
    DiamondMembers(n);
    DiamondNodes(n);
    InputCountAppend(Behaviors(n), [], HookNode(n, n.h));
    InputCountAppend(Behaviors(n), [HookNode(n, n.h)], MappingNode(n, n.a));
    InputCountAppend(Behaviors(n), [HookNode(n, n.h), MappingNode(n, n.a)], MappingNode(n, n.b));
    InputCountAppend(Behaviors(n), [HookNode(n, n.h), MappingNode(n, n.a), MappingNode(n, n.b)], IssueNode(n, n.i));
  }

  lemma DiamondWiresPublishable(n: Names)
    ensures var g, checks := Diamond(n), NoFieldRules();
      && EdgePublishable(g, checks, Wire(n, n.h, n.h, n.a)) && EdgePublishable(g, checks, Wire(n, n.a, n.h, n.b))
      && EdgePublishable(g, checks, Wire(n, n.b, n.a, n.i)) && EdgePublishable(g, checks, Wire(n, n.i, n.b, n.i))
  {
    DiamondMembers(n);
    NodePorts(n, n.h);
    NodePorts(n, n.a);
    NodePorts(n, n.b);
    NodePorts(n, n.i);
    var g, checks := Diamond(n), NoFieldRules();
    WirePublishable(g, checks, Wire(n, n.h, n.h, n.a), HookNode(n, n.h), MappingNode(n, n.a));
    WirePublishable(g, checks, Wire(n, n.a, n.h, n.b), HookNode(n, n.h), MappingNode(n, n.b));
    WirePublishable(g, checks, Wire(n, n.b, n.a, n.i), MappingNode(n, n.a), IssueNode(n, n.i));
    WirePublishable(g, checks, Wire(n, n.i, n.b, n.i), MappingNode(n, n.b), IssueNode(n, n.i));
  }

  lemma DiamondEdgesPublishable(n: Names)
    ensures forall e | e in Diamond(n).edges :: EdgePublishable(Diamond(n), NoFieldRules(), e)
  {
    DiamondWiresPublishable(n);
    DiamondMembers(n);
  }

  lemma DiamondConnected(n: Names)
    requires Usable(n)
    ensures forall node | node in Diamond(n).nodes :: InputsConnected(Diamond(n), node)
    ensures forall node | node in Diamond(n).nodes :: MayEnd(Diamond(n), Behaviors(n), node)
  {
    var g := Diamond(n);
    DiamondMembers(n);
    NodesPublishable(n, n.i);
    var e0, e1, e2 := Wire(n, n.h, n.h, n.a), Wire(n, n.a, n.h, n.b), Wire(n, n.b, n.a, n.i);
    FedIfEdge(g, e0, HookNode(n, n.h));
    FedIfEdge(g, e0, MappingNode(n, n.a));
    FedIfEdge(g, e1, MappingNode(n, n.b));
    FedIfEdge(g, e2, IssueNode(n, n.i));
    MayEndIfNode(g, Behaviors(n), e0, HookNode(n, n.h));
    MayEndIfNode(g, Behaviors(n), e2, MappingNode(n, n.a));
    MayEndIfNode(g, Behaviors(n), Wire(n, n.i, n.b, n.i), MappingNode(n, n.b));
    MayEndIfNode(g, Behaviors(n), e0, IssueNode(n, n.i));
  }

  /** h, then a and b in either order, then i. */
  lemma DiamondOrder(n: Names, u: Id, v: Id)
    requires Usable(n) && ((u == n.a && v == n.b) || (u == n.b && v == n.a))
    ensures TopologicalOrder(Diamond(n), [n.h, u, v, n.i])
  {
    hide IsBlank, Diamond;
    var order := [n.h, u, v, n.i];
    DiamondMembers(n);
    DiamondIds(n);
    assert order[0] in order && order[1] in order && order[2] in order && order[3] in order;
    assert Elements(order) == {n.h, u, v, n.i};
    FourInOrder(order);
    forall e, i, j | e in Diamond(n).edges && 0 <= i < |order| && 0 <= j < |order|
        && order[i] == e.from && order[j] == e.to
      ensures i < j
    {
      assert e.from == n.h || e.to == n.i;
    }
  }

  lemma FourInOrder(order: seq<Id>)
    requires |order| == 4 && order[0] !in order[1..] && order[1] != order[2] && order[3] !in order[..3]
    ensures Distinct(order)
  {
  }

  lemma DiamondValid(n: Names)
    requires Usable(n)
    ensures ValidFlow(Diamond(n), Behaviors(n), NoFieldRules(), true)
  {
    DiamondIds(n);
    DiamondOrder(n, n.a, n.b);
    DiamondNodesShape(n);
    DiamondEdgesShape(n);
    DiamondNodesPublishable(n);
    DiamondEdgesPublishable(n);
    DiamondConnected(n);
    Assemble(Diamond(n), Behaviors(n), NoFieldRules(), [n.h, n.a, n.b, n.i]);
  }

  lemma DiamondRunnable(n: Names)
    requires Usable(n)
    ensures Runnable(Diamond(n), Behaviors(n), NoFieldRules(), HookNode(n, n.h))
  {
    DiamondValid(n);
    DiamondMembers(n);
    NodesPublishable(n, n.h);
    ValidFlowRunnable(Diamond(n), Behaviors(n), NoFieldRules(), true, HookNode(n, n.h));
  }

  lemma DiamondFeeds(n: Names, p: string)
    requires Usable(n)
    ensures forall e :: FeedsFrom(Diamond(n), ReachableSet(Diamond(n), n.h), e, n.i, p) <==>
      p == n.x && (e == Wire(n, n.b, n.a, n.i) || e == Wire(n, n.i, n.b, n.i))
  {
    var g := Diamond(n);
    DiamondMembers(n);
    assert Wire(n, n.h, n.h, n.a) in g.edges && Wire(n, n.a, n.h, n.b) in g.edges;
    LinkedReaches(g, n.h, n.a);
    LinkedReaches(g, n.h, n.b);
  }

  lemma DiamondReads(n: Names)
    requires Usable(n)
    ensures Reads(Diamond(n), n.h, IssueNode(n, n.i), n.x)
  {
    DiamondFeeds(n, n.x);
    DiamondFeeds(n, "event");
    assert FeedsFrom(Diamond(n), ReachableSet(Diamond(n), n.h), Wire(n, n.b, n.a, n.i), n.i, n.x);
  }

  lemma DiamondReached(n: Names)
    requires Usable(n)
    ensures Reaches(Diamond(n), n.h, n.i)
  {
    DiamondMembers(n);
    assert Wire(n, n.h, n.h, n.a) in Diamond(n).edges && Wire(n, n.b, n.a, n.i) in Diamond(n).edges;
    LinkedReaches(Diamond(n), n.h, n.a);
    LinkedReaches(Diamond(n), n.a, n.i);
    ReachesTransitive(Diamond(n), n.h, n.a, n.i);
  }

  lemma SecondBranchLast(n: Names, u: Id, v: Id, e: Edge)
    requires Usable(n) && ((u == n.a && v == n.b) || (u == n.b && v == n.a)) && (e.from == u || e.from == v)
    requires NotAfter([n.h, u, v, n.i], v, e.from)
    ensures e.from == v
  {
  }

  /** The output connector is given the value of the branch that ran last. */
  lemma DiamondLast(n: Names, pick: Fields -> Fields, u: Id, v: Id)
    requires Usable(n) && ((u == n.a && v == n.b) || (u == n.b && v == n.a))
    ensures TopologicalOrder(Diamond(n), [n.h, u, v, n.i])
    ensures var s := FullRun(Diamond(n), LabellingRun(Behaviors(n), pick), [n.h, u, v, n.i], n.h, Object(Label(n.h)));
      && Clean(s) && n.i in s.inputs
      && FirstNodeInput(IssueNode(n, n.i), s.inputs[n.i], pick) == Received(IssueNode(n, n.i), n.x, Object(Label(v)))
  {
    hide Runnable, ValidFlow, Structural, Settled, Reads, TopologicalOrder, NotAfter, Diamond;
    var g, c, order := Diamond(n), Behaviors(n), [n.h, u, v, n.i];
    DiamondOrder(n, u, v);
    DiamondRunnable(n);
    DiamondIds(n);
    DiamondReached(n);
    DiamondReads(n);
    DiamondFeeds(n, n.x);
    LabelledRun(g, c, NoFieldRules(), pick, HookNode(n, n.h), order);
    var s := FullRun(g, LabellingRun(c, pick), order, n.h, Object(Label(n.h)));
    SourcesReachable(g, n.h, n.i, s);
    var cfg, event := LabellingRun(c, pick), Object(Label(n.h));
    var e := LiveRead(g, cfg, order, order, HookNode(n, n.h), event, s, IssueNode(n, n.i), n.x);
    assert FeedsFrom(g, ReachableSet(g, n.h), e, n.i, n.x);
    var fromV := if v == n.a then Wire(n, n.b, n.a, n.i) else Wire(n, n.i, n.b, n.i);
    assert FeedsFrom(g, ReachableSet(g, n.h), fromV, n.i, n.x);
    SecondBranchLast(n, u, v, e);
    DiamondLabelled(n, s, v);
  }

  lemma DiamondLabelled(n: Names, s: Pass, v: Id)
    requires Labelled(Diamond(n), s) && v in s.values && (v == n.a || v == n.b)
    ensures s.values[v] == Object(Label(v))
  {
    DiamondMembers(n);
    assert MappingNode(n, v) in Diamond(n).nodes;
  }

  /** The validator accepts two edges into one port, and then the result depends on the order: two error-free live
      runs on the same event, with the same evaluation of nodes, give the output connector different inputs. */
  lemma PublishableYetOrderDependent(n: Names, pick: Fields -> Fields)
    requires Usable(n)
    ensures ValidFlow(Diamond(n), Behaviors(n), NoFieldRules(), true)
    ensures TopologicalOrder(Diamond(n), [n.h, n.a, n.b, n.i]) && TopologicalOrder(Diamond(n), [n.h, n.b, n.a, n.i])
    ensures var g, cfg, event := Diamond(n), Live(Behaviors(n), Labelling(), map[], pick), Object(Label(n.h));
      var s, t := FullRun(g, cfg, [n.h, n.a, n.b, n.i], n.h, event), FullRun(g, cfg, [n.h, n.b, n.a, n.i], n.h, event);
      && Clean(s) && Clean(t) && n.i in s.inputs && n.i in t.inputs
      && FirstNodeInput(IssueNode(n, n.i), s.inputs[n.i], pick)
           != FirstNodeInput(IssueNode(n, n.i), t.inputs[n.i], pick)
  {
    DiamondValid(n);
    DiamondLast(n, pick, n.a, n.b);
    DiamondLast(n, pick, n.b, n.a);
    LabelReads(n.a);
    LabelReads(n.b);
    if Received(IssueNode(n, n.i), n.x, Object(Label(n.a))) == Received(IssueNode(n, n.i), n.x, Object(Label(n.b))) {
      ReceivedOnce(IssueNode(n, n.i), n.x, Object(Label(n.a)), Object(Label(n.b)));
    }
  }

  // ---------- A checkpoint whose value retention has purged ----------

  function Straight(n: Names): Graph {
    Graph([HookNode(n, n.h), IssueNode(n, n.i)], [Wire(n, n.h, n.h, n.i)])
  }

  lemma StraightMembers(n: Names)
    ensures forall node :: node in Straight(n).nodes <==> node == HookNode(n, n.h) || node == IssueNode(n, n.i)
    ensures forall e :: e in Straight(n).edges <==> e == Wire(n, n.h, n.h, n.i)
    ensures NodeIds(Straight(n)) == {n.h, n.i} && EdgesClosed(Straight(n))
  {
    assert HookNode(n, n.h) in Straight(n).nodes && IssueNode(n, n.i) in Straight(n).nodes;
  }

  lemma StraightShape(n: Names)
    requires Usable(n)
    ensures ShapeValid(Straight(n))
    ensures TopologicalOrder(Straight(n), [n.h, n.i])
  {
    StraightMembers(n);
    NodesUsable(n, n.h);
    NodesUsable(n, n.i);
  }

  lemma StraightValid(n: Names)
    requires Usable(n)
    ensures ValidFlow(Straight(n), Behaviors(n), NoFieldRules(), true)
  {
    hide ShapeValid, TopologicalOrder, NodePublishable, PortOn, IsBlank, Reaches;
    var g, c, e := Straight(n), Behaviors(n), Wire(n, n.h, n.h, n.i);
    StraightMembers(n);
    StraightShape(n);
    NodesPublishable(n, n.h);
    NodesPublishable(n, n.i);
    NodePorts(n, n.h);
    NodePorts(n, n.i);
    InputCountAppend(c, [], HookNode(n, n.h));
    InputCountAppend(c, [HookNode(n, n.h)], IssueNode(n, n.i));
    assert [] + [HookNode(n, n.h)] == [HookNode(n, n.h)];
    assert [HookNode(n, n.h)] + [IssueNode(n, n.i)] == g.nodes;
    WirePublishable(g, NoFieldRules(), e, HookNode(n, n.h), IssueNode(n, n.i));
    FedIfEdge(g, e, HookNode(n, n.h));
    FedIfEdge(g, e, IssueNode(n, n.i));
    MayEndIfNode(g, c, e, HookNode(n, n.h));
    MayEndIfNode(g, c, e, IssueNode(n, n.i));
    Assemble(g, c, NoFieldRules(), [n.h, n.i]);
  }

  lemma StraightPurgedRun(n: Names, cfg: Config, event: Value)
    requires n.h != n.i && NodeIds(Straight(n)) == {n.h, n.i}
    requires forall input :: cfg.eval(HookNode(n, n.h), input) == Bypassed
    ensures var s := Run(Straight(n), cfg, [n.h, n.i], Start(n.h, event));
      !s.halted && |s.trace| == 1 && s.trace[0].id == n.h && s.trace[0].outcome == Bypassed
  {
    var g, s0 := Straight(n), Start(n.h, event);
    assert [n.h, n.i][..1] == [n.h] && [n.h][..0] == [];
    assert g.nodes[..1] == [HookNode(n, n.h)];
    assert NodeOf(g.nodes, n.h) == HookNode(n, n.h);
    var s1 := Step(g, cfg, s0, n.h);
    assert Run(g, cfg, [n.h], s0) == s1;
    assert Run(g, cfg, [n.h, n.i], s0) == Step(g, cfg, s1, n.i);
  }

  /** Retrying an execution after retention has purged the input connector's snapshot completes, counting
      that checkpoint as output, without reaching the output connector. */
  lemma PurgedRetryCompletesWithoutOutput(n: Names, ev: Evaluator, pick: Fields -> Fields, event: Value)
    requires Usable(n)
    ensures ValidFlow(Straight(n), Behaviors(n), NoFieldRules(), true)
    ensures TopologicalOrder(Straight(n), [n.h, n.i])
    ensures var latest := map[n.h := Success(None)];
      var s := FullRun(Straight(n), Live(Behaviors(n), ev, latest, pick), [n.h, n.i], n.h, event);
      && !s.halted
      && s.trace != [] && CountsAsOutput(Behaviors(n), latest, HookNode(n, n.h), s.trace[0].outcome)
      && !OutputPassed(Straight(n), Behaviors(n), latest, s)
  {
    StraightValid(n);
    StraightShape(n);
    StraightMembers(n);
    StraightPurgedRun(n, Live(Behaviors(n), ev, map[n.h := Success(None)], pick), event);
  }
}
