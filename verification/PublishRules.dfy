/** The rules that the validator enforces, written out over the document itself. */
module PublishRules {
  import opened Text
  import opened FlowGraph
  import opened Validation

  predicate Directed(c: Catalog, node: Node, direction: Direction) {
    match node.behavior
    case Some(ref) => node.kind == Connector && ref in c && c[ref].direction == direction
    case None => false
  }

  predicate NamedPorts(node: Node) {
    && (forall p | p in node.inputs :: !IsBlank(p.id))
    && (forall p | p in node.outputs :: !IsBlank(p.id))
    && (forall i, j | 0 <= i < j < |node.inputs| :: node.inputs[i].id != node.inputs[j].id)
    && (forall i, j | 0 <= i < j < |node.outputs| :: node.outputs[i].id != node.outputs[j].id)
    && (forall p, q | p in node.inputs && q in node.outputs :: p.id != q.id)
  }

  /** A node by itself: named, of a known kind, configured for it. */
  predicate NodeRules(c: Catalog, checks: FieldChecks, node: Node) {
    && node.id != "" && NamedPorts(node) && checks.node(node)
    && match node.kind
       case Connector =>
         && node.behavior.Some? && node.behavior.value in c
         && !IsBlank(node.behavior.value.key) && !IsBlank(node.behavior.value.version)
         && c[node.behavior.value].published && c[node.behavior.value].adapterAllowed
         && (Directed(c, node, Input) || Directed(c, node, Output))
       case Generic =>
         node.generic in {Some("parse-normalize"), Some("mapping-template"), Some("condition-filter")}
       case Terminal => true
       case UnknownKind => false
  }

  /** An edge joins an output port of one node to an input port of another. */
  ghost predicate EdgeRules(g: Graph, checks: FieldChecks, e: Edge) {
    && !IsBlank(e.id) && e.from != e.to && checks.edge(e)
    && SomePort(g, e.from, e.fromPort, OutputPort) && SomePort(g, e.to, e.toPort, InputPort)
  }

  ghost predicate EdgeInto(g: Graph, id: Id, port: string) {
    exists e :: e in g.edges && e.to == id && e.toPort == port
  }

  /** Some input connector leads to the node. */
  ghost predicate Executable(g: Graph, c: Catalog, id: Id) {
    exists source :: source in g.nodes && Directed(c, source, Input) && Reaches(g, source.id, id)
  }

  ghost predicate OneInput(g: Graph, c: Catalog) {
    exists k :: 0 <= k < |g.nodes| && Directed(c, g.nodes[k], Input)
      && forall j | 0 <= j < |g.nodes| && j != k :: !Directed(c, g.nodes[j], Input)
  }

  ghost predicate Rules(g: Graph, c: Catalog, checks: FieldChecks, publish: bool) {
    && (forall node | node in g.nodes :: NodeRules(c, checks, node))
    && (forall i, j | 0 <= i < j < |g.nodes| :: g.nodes[i].id != g.nodes[j].id)
    && (forall e | e in g.edges :: EdgeRules(g, checks, e))
    && (forall i, j | 0 <= i < j < |g.edges| :: g.edges[i].id != g.edges[j].id)
    && OneInput(g, c) && !HasDirectedCycle(g)
    && (forall node, p | node in g.nodes && node.kind == Generic && p in node.inputs && p.required ::
          EdgeInto(g, node.id, p.id))
    && (publish ==> forall node | node in g.nodes && Executable(g, c, node.id) ::
          (exists e :: e in g.edges && e.from == node.id) || node.kind == Terminal || Directed(c, node, Output))
  }

  lemma NamedTogether(inputs: seq<Port>, outputs: seq<Port>, i: nat, j: nat)
    requires forall i, j | 0 <= i < j < |inputs| :: inputs[i].id != inputs[j].id
    requires forall i, j | 0 <= i < j < |outputs| :: outputs[i].id != outputs[j].id
    requires forall p, q | p in inputs && q in outputs :: p.id != q.id
    requires i < j < |inputs + outputs|
    ensures (inputs + outputs)[i].id != (inputs + outputs)[j].id
  {
    var n := |inputs|;
    if i < n <= j {
      assert inputs[i] in inputs && outputs[j - n] in outputs;
    }
  }

  lemma NamedApart(inputs: seq<Port>, outputs: seq<Port>)
    requires PortsValid(inputs + outputs)
    ensures forall p | p in inputs || p in outputs :: !IsBlank(p.id)
    ensures forall i, j | 0 <= i < j < |inputs| :: inputs[i].id != inputs[j].id
    ensures forall i, j | 0 <= i < j < |outputs| :: outputs[i].id != outputs[j].id
    ensures forall p, q | p in inputs && q in outputs :: p.id != q.id
  {
    hide IsBlank;
    var all, n := inputs + outputs, |inputs|;
    forall p | p in inputs || p in outputs
      ensures !IsBlank(p.id)
    {
      assert p in all;
    }
    forall i, j | 0 <= i < j < |inputs|
      ensures inputs[i].id != inputs[j].id
    {
      assert all[i].id != all[j].id;
    }
    forall i, j | 0 <= i < j < |outputs|
      ensures outputs[i].id != outputs[j].id
    {
      assert all[n + i].id != all[n + j].id;
    }
    forall p, q | p in inputs && q in outputs
      ensures p.id != q.id
    {
      var i :| 0 <= i < n && inputs[i] == p;
      var j :| 0 <= j < |outputs| && outputs[j] == q;
      assert all[i].id != all[n + j].id;
    }
  }

  lemma PortsByMember(node: Node)
    ensures PortsValid(node.inputs + node.outputs) <==> NamedPorts(node)
  {
    hide IsBlank;
    if PortsValid(node.inputs + node.outputs) {
      NamedApart(node.inputs, node.outputs);
    }
    if NamedPorts(node) {
      forall i, j | 0 <= i < j < |node.inputs + node.outputs|
        ensures (node.inputs + node.outputs)[i].id != (node.inputs + node.outputs)[j].id
      {
        NamedTogether(node.inputs, node.outputs, i, j);
      }
    }
  }

  lemma NodeByRules(c: Catalog, checks: FieldChecks, node: Node)
    ensures NodeValid(node) && NodePublishable(c, checks, node) <==> NodeRules(c, checks, node)
  {
    hide PortsValid, NamedPorts;
    PortsByMember(node);
    KindsNamed();
  }

  lemma KindsNamed()
    ensures !IsBlank("parse-normalize") && !IsBlank("mapping-template") && !IsBlank("condition-filter")
  {
    assert !IsSpace("parse-normalize"[0]) && !IsSpace("mapping-template"[0]) && !IsSpace("condition-filter"[0]);
  }

  lemma EdgeByRules(g: Graph, checks: FieldChecks, e: Edge)
    ensures EdgeValid(e, NodeIds(g)) && EdgePublishable(g, checks, e) <==> EdgeRules(g, checks, e)
  {
    PortByMember(g, e.from, e.fromPort, OutputPort);
    PortByMember(g, e.to, e.toPort, InputPort);
  }

  ghost predicate SomePort(g: Graph, id: Id, port: string, direction: PortDirection) {
    exists node, p ::
      node in g.nodes && node.id == id && OnSide(node, p, direction) && p.id == port && p.direction == direction
  }

  predicate OnSide(node: Node, p: Port, direction: PortDirection) {
    if direction == OutputPort then p in node.outputs else p in node.inputs
  }

  lemma PortByMember(g: Graph, id: Id, port: string, direction: PortDirection)
    ensures HasPort(g, id, port, direction) <==> SomePort(g, id, port, direction)
    ensures HasPort(g, id, port, direction) ==> id in NodeIds(g)
  {
    if HasPort(g, id, port, direction) {
      var node :| node in g.nodes && node.id == id && PortOn(node, port, direction);
      var p :| p in (if direction == OutputPort then node.outputs else node.inputs)
        && p.id == port && p.direction == direction;
      assert OnSide(node, p, direction);
    }
  }

  lemma InputByRules(c: Catalog, node: Node)
    ensures IsInput(c, node) <==> Directed(c, node, Input)
    ensures IsOutput(c, node) <==> Directed(c, node, Output)
  {
  }

  lemma {:induction false} CountZero(c: Catalog, nodes: seq<Node>)
    ensures InputCount(c, nodes) == 0 <==> forall j | 0 <= j < |nodes| :: !IsInput(c, nodes[j])
  {
    if nodes != [] {
      CountZero(c, nodes[..|nodes| - 1]);
    }
  }

  predicate SoleAt(c: Catalog, nodes: seq<Node>, k: nat) {
    k < |nodes| && IsInput(c, nodes[k]) && forall j | 0 <= j < |nodes| && j != k :: !IsInput(c, nodes[j])
  }

  lemma {:induction false} CountOne(c: Catalog, nodes: seq<Node>)
    ensures InputCount(c, nodes) == 1 <==> exists k: nat :: SoleAt(c, nodes, k)
  {
    if nodes != [] {
      var front := nodes[..|nodes| - 1];
      CountOne(c, front);
      CountZero(c, front);
      if k: nat :| SoleAt(c, nodes, k) {
        if k < |front| {
          assert SoleAt(c, front, k);
        }
      }
      if InputCount(c, nodes) == 1 {
        if IsInput(c, nodes[|nodes| - 1]) {
          assert SoleAt(c, nodes, |nodes| - 1);
        } else {
          var k: nat :| SoleAt(c, front, k);
          assert SoleAt(c, nodes, k);
        }
      }
    }
  }

  lemma OneInputCounted(g: Graph, c: Catalog)
    ensures InputCount(c, g.nodes) == 1 <==> OneInput(g, c)
  {
    CountOne(c, g.nodes);
    forall node
      ensures IsInput(c, node) <==> Directed(c, node, Input)
    {
      InputByRules(c, node);
    }
    if k: nat :| SoleAt(c, g.nodes, k) {
      assert OneInput(g, c);
    }
    if OneInput(g, c) {
      var k :| 0 <= k < |g.nodes| && Directed(c, g.nodes[k], Input)
        && forall j | 0 <= j < |g.nodes| && j != k :: !Directed(c, g.nodes[j], Input);
      assert SoleAt(c, g.nodes, k);
    }
  }

  lemma ShapeByMember(g: Graph)
    ensures ShapeValid(g) <==>
      && (forall node | node in g.nodes :: NodeValid(node))
      && (forall i, j | 0 <= i < j < |g.nodes| :: g.nodes[i].id != g.nodes[j].id)
      && (forall e | e in g.edges :: EdgeValid(e, NodeIds(g)))
      && (forall i, j | 0 <= i < j < |g.edges| :: g.edges[i].id != g.edges[j].id)
  {
    hide NodeValid, EdgeValid;
    assert forall k | 0 <= k < |g.nodes| :: g.nodes[k] in g.nodes;
    assert forall k | 0 <= k < |g.edges| :: g.edges[k] in g.edges;
  }

  lemma EndsByRules(g: Graph, c: Catalog, node: Node)
    ensures MayEnd(g, c, node) <==>
      (exists e :: e in g.edges && e.from == node.id) || node.kind == Terminal || Directed(c, node, Output)
    ensures ReachableFrom(g, c, node.id) <==> Executable(g, c, node.id)
  {
    InputByRules(c, node);
    hide Reaches;
    if ReachableFrom(g, c, node.id) {
      var s :| s in g.nodes && IsInput(c, s) && Reaches(g, s.id, node.id);
      InputByRules(c, s);
    }
    if Executable(g, c, node.id) {
      var s :| s in g.nodes && Directed(c, s, Input) && Reaches(g, s.id, node.id);
      InputByRules(c, s);
    }
  }

  lemma RequiredByRules(g: Graph, node: Node)
    ensures InputsConnected(g, node) <==>
      forall p | node.kind == Generic && p in node.inputs && p.required :: EdgeInto(g, node.id, p.id)
  {
    forall p
      ensures PortFed(g, node.id, p) <==> EdgeInto(g, node.id, p)
    {
    }
  }

  /** The validator accepts a document, with or without the rules for publication, exactly if it keeps the rules. */
  lemma ValidFlowByRules(g: Graph, c: Catalog, checks: FieldChecks, publish: bool)
    ensures ValidFlow(g, c, checks, publish) <==> Rules(g, c, checks, publish)
  {
    hide ShapeValid, NodeValid, NodePublishable, NodeRules, EdgeValid, EdgePublishable, EdgeRules, InputsConnected,
      EdgeInto, MayEnd, ReachableFrom, Executable, HasDirectedCycle, InputCount, OneInput, Directed;
    ShapeByMember(g);
    OneInputCounted(g, c);
    forall node
      ensures NodeValid(node) && NodePublishable(c, checks, node) <==> NodeRules(c, checks, node)
      ensures InputsConnected(g, node) <==>
        forall p | node.kind == Generic && p in node.inputs && p.required :: EdgeInto(g, node.id, p.id)
      ensures ReachableFrom(g, c, node.id) <==> Executable(g, c, node.id)
      ensures MayEnd(g, c, node) <==>
        (exists e :: e in g.edges && e.from == node.id) || node.kind == Terminal || Directed(c, node, Output)
    {
      NodeByRules(c, checks, node);
      RequiredByRules(g, node);
      EndsByRules(g, c, node);
    }
    forall e
      ensures EdgeValid(e, NodeIds(g)) && EdgePublishable(g, checks, e) <==> EdgeRules(g, checks, e)
    {
      EdgeByRules(g, checks, e);
    }
  }
}
