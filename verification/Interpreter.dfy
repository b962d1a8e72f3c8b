/** The single left-to-right pass that pushes values along edges, as the executor and the simulator run it,
    over an uninterpreted evaluation of the individual nodes. */
module Interpreter {
  import opened Text
  import opened FlowGraph
  import opened TopologicalSort
  import opened Validation

  datatype Value = Null | Atom(code: int) | Object(fields: Fields)

  type Fields = map<string, Value>

  /** Bypassed: a checkpointed connector with no value left to pass on. */
  datatype Outcome = Succeeded(value: Value) | Skipped | Failed | Bypassed

  datatype Entry = Entry(id: Id, input: Fields, outcome: Outcome)

  /** `pick` stands for the map-iteration fallback of the input lookup, which may return any object held. */
  datatype Config = Config(eval: (Node, Fields) -> Outcome, pick: Fields -> Fields, haltOnSkip: bool)

  /** `inputs` holds the active nodes with the values delivered to their ports; `values` what each produced. */
  datatype Pass = Pass(inputs: map<Id, Fields>, values: map<Id, Value>, trace: seq<Entry>, halted: bool)

  // ---------- Looking up a node's input ----------

  function AsObject(v: Value): Fields {
    if v.Object? then v.fields else map["value" := v]
  }

  function FromPorts(ports: seq<Port>, inputs: Fields, pick: Fields -> Fields): Fields {
    if ports != [] then
      if ports[0].id in inputs then AsObject(inputs[ports[0].id]) else FromPorts(ports[1..], inputs, pick)
    else if exists p | p in inputs :: inputs[p].Object? then pick(inputs)
    else inputs
  }

  /** firstNodeInput and simulationNodeInput. */
  function FirstNodeInput(node: Node, inputs: Fields, pick: Fields -> Fields): Fields {
    if node.kind == Connector && "event" in inputs && inputs["event"].Object? then map["event" := inputs["event"]]
    else FromPorts(node.inputs, inputs, pick)
  }

  /** The k-th listed port is the first one to hold something. */
  predicate FirstHeld(ports: seq<Port>, inputs: Fields, k: nat) {
    k < |ports| && ports[k].id in inputs && forall i | 0 <= i < k :: ports[i].id !in inputs
  }

  lemma {:induction false} FirstPort(ports: seq<Port>, inputs: Fields, pick: Fields -> Fields, k: nat)
    requires FirstHeld(ports, inputs, k)
    ensures FromPorts(ports, inputs, pick) == AsObject(inputs[ports[k].id])
  {
    if k > 0 {
      assert ports[0].id !in inputs;
      FirstPort(ports[1..], inputs, pick, k - 1);
    }
  }

  lemma {:induction false} NoPort(ports: seq<Port>, inputs: Fields, pick: Fields -> Fields)
    requires forall i | 0 <= i < |ports| :: ports[i].id !in inputs
    ensures FromPorts(ports, inputs, pick) == FromPorts([], inputs, pick)
  {
    if ports != [] {
      NoPort(ports[1..], inputs, pick);
    }
  }

  /** What a node works on: a connector its event, any other node what its first filled port holds, be it an object
      or some other value wrapped as one. Only values at undeclared ports are picked from, and only if one of them
      is an object. */
  lemma NodeInputIs(node: Node, inputs: Fields, pick: Fields -> Fields, k: nat)
    ensures var input := FirstNodeInput(node, inputs, pick);
      if node.kind == Connector && "event" in inputs && inputs["event"].Object?
      then input.Keys == {"event"} && input["event"] == inputs["event"]
      else
        && (FirstHeld(node.inputs, inputs, k) ==>
              if inputs[node.inputs[k].id].Object? then Object(input) == inputs[node.inputs[k].id]
              else input.Keys == {"value"} && input["value"] == inputs[node.inputs[k].id])
        && ((forall i | 0 <= i < |node.inputs| :: node.inputs[i].id !in inputs) ==>
              input == if exists p | p in inputs :: inputs[p].Object? then pick(inputs) else inputs)
  {
    if FirstHeld(node.inputs, inputs, k) {
      FirstPort(node.inputs, inputs, pick, k);
    } else if forall i | 0 <= i < |node.inputs| :: node.inputs[i].id !in inputs {
      NoPort(node.inputs, inputs, pick);
    }
  }

  // ---------- Delivering a value ----------

  function Slots(inputs: map<Id, Fields>, id: Id): Fields {
    if id in inputs then inputs[id] else map[]
  }

  /** propagate. */
  function Deliver(edges: seq<Edge>, id: Id, value: Value, inputs: map<Id, Fields>): map<Id, Fields> {
    if edges == [] then inputs
    else
      var last := edges[|edges| - 1];
      var before := Deliver(edges[..|edges| - 1], id, value, inputs);
      if last.from == id then before[last.to := Slots(before, last.to)[last.toPort := value]] else before
  }

  predicate Leads(edges: seq<Edge>, id: Id, to: Id) {
    exists e | e in edges :: e.from == id && e.to == to
  }

  predicate LeadsTo(edges: seq<Edge>, id: Id, to: Id, port: string) {
    exists e | e in edges :: e.from == id && e.to == to && e.toPort == port
  }

  /** The nodes activated and the slots written are exactly those an edge from `id` names. */
  lemma {:induction false} DeliverAt(edges: seq<Edge>, id: Id, value: Value, inputs: map<Id, Fields>, n: Id, p: string)
    ensures var after := Deliver(edges, id, value, inputs);
      && (n in after <==> n in inputs || Leads(edges, id, n))
      && (p in Slots(after, n) <==> p in Slots(inputs, n) || LeadsTo(edges, id, n, p))
      && (p in Slots(after, n) ==>
            Slots(after, n)[p] == if LeadsTo(edges, id, n, p) then value else Slots(inputs, n)[p])
  {
    if edges != [] {
      var front, last := edges[..|edges| - 1], edges[|edges| - 1];
      DeliverAt(front, id, value, inputs, n, p);
      LeadsLast(front, last, id, n, p);
      assert edges == front + [last];
    }
  }

  lemma LeadsLast(front: seq<Edge>, last: Edge, id: Id, n: Id, p: string)
    ensures Leads(front + [last], id, n) <==> Leads(front, id, n) || (last.from == id && last.to == n)
    ensures LeadsTo(front + [last], id, n, p) <==>
              LeadsTo(front, id, n, p) || (last.from == id && last.to == n && last.toPort == p)
  {
    var edges := front + [last];
    assert forall e :: e in edges <==> e in front || e == last;
  }

  lemma LeadsToLeads(edges: seq<Edge>, id: Id, n: Id, p: string)
    requires LeadsTo(edges, id, n, p)
    ensures Leads(edges, id, n)
  {
  }

  /** The node map built from the document: the last node with an identifier wins. */
  function NodeOf(nodes: seq<Node>, id: Id): (node: Node)
    requires exists n | n in nodes :: n.id == id
    ensures node in nodes && node.id == id
  {
    var last := nodes[|nodes| - 1];
    if last.id == id then last
    else
      assert nodes == nodes[..|nodes| - 1] + [last];
      NodeOf(nodes[..|nodes| - 1], id)
  }

  // ---------- The pass ----------

  function Start(input: Id, event: Value): Pass {
    Pass(map[input := map["event" := event]], map[], [], false)
  }

  function Arrive(g: Graph, cfg: Config, s: Pass, id: Id): Entry
    requires id in s.inputs && id in NodeIds(g)
  {
    var node := NodeOf(g.nodes, id);
    var input := FirstNodeInput(node, s.inputs[id], cfg.pick);
    Entry(id, input, cfg.eval(node, input))
  }

  /** The state after the node has had its outcome. */
  function After(g: Graph, s: Pass, id: Id, entry: Entry, haltOnSkip: bool): Pass {
    var traced := s.(trace := s.trace + [entry]);
    match entry.outcome
    case Succeeded(value) =>
      traced.(inputs := Deliver(g.edges, id, value, s.inputs), values := s.values[id := value])
    case Skipped => traced.(halted := haltOnSkip)
    case Failed => traced.(halted := true)
    case Bypassed => traced
  }

  function Step(g: Graph, cfg: Config, s: Pass, id: Id): Pass
    requires id in NodeIds(g)
  {
    if s.halted || id !in s.inputs then s else After(g, s, id, Arrive(g, cfg, s, id), cfg.haltOnSkip)
  }

  function Run(g: Graph, cfg: Config, order: seq<Id>, s: Pass): Pass
    requires forall id | id in order :: id in NodeIds(g)
  {
    if order == [] then s
    else Step(g, cfg, Run(g, cfg, order[..|order| - 1], s), order[|order| - 1])
  }

  /** Every node that was reached produced a value. */
  ghost predicate Clean(s: Pass) {
    !s.halted && forall entry | entry in s.trace :: entry.outcome.Succeeded?
  }

  // ---------- What every run keeps, clean or not ----------

  ghost predicate Structural(g: Graph, input: Id, event: Value, s: Pass) {
    && input in s.inputs && s.inputs[input] == map["event" := event]
    && (forall n | n in s.inputs :: ActiveNode(g, input, s.inputs, n))
    && s.values.Keys <= s.inputs.Keys
  }

  /** An active node is reachable; unless it is the input node it holds something, and only at ports that
      edges feed. */
  ghost predicate ActiveNode(g: Graph, input: Id, inputs: map<Id, Fields>, n: Id)
    requires n in inputs
  {
    && n in NodeIds(g) && Reaches(g, input, n)
    && (n != input ==> inputs[n] != map[] && forall p | p in inputs[n] :: PortFed(g, n, p))
  }

  lemma NoEdgeBack(g: Graph, input: Id, id: Id)
    requires !HasDirectedCycle(g) && Reaches(g, input, id)
    ensures !Leads(g.edges, id, input)
  {
    if Leads(g.edges, id, input) {
      var p :| PathFromTo(g, p, input, id);
      assert Linked(g, id, input);
      PathConcat(g, p, [id, input]);
      assert PathFromTo(g, p + [id, input][1..], input, input);
    }
  }

  lemma DeliverStructural(g: Graph, input: Id, event: Value, s: Pass, id: Id, value: Value, n: Id)
    requires EdgesClosed(g) && !HasDirectedCycle(g)
    requires Structural(g, input, event, s) && id in s.inputs
    requires n in Deliver(g.edges, id, value, s.inputs) && n != input
    ensures ActiveNode(g, input, Deliver(g.edges, id, value, s.inputs), n)
  {
    var after := Deliver(g.edges, id, value, s.inputs);
    forall p
      ensures (p in after[n] <==> p in Slots(s.inputs, n) || LeadsTo(g.edges, id, n, p))
    {
      DeliverAt(g.edges, id, value, s.inputs, n, p);
    }
    DeliverAt(g.edges, id, value, s.inputs, n, "");
    if n in s.inputs {
      var p :| p in s.inputs[n];
      assert p in after[n];
    } else {
      var e :| e in g.edges && e.from == id && e.to == n;
      assert LeadsTo(g.edges, id, n, e.toPort);
      assert e.toPort in after[n];
      LinkedReaches(g, id, n);
      ReachesTransitive(g, input, id, n);
    }
    forall p | p in after[n]
      ensures PortFed(g, n, p)
    {
    }
  }

  lemma DeliverKeepsInput(g: Graph, input: Id, event: Value, s: Pass, id: Id, value: Value)
    requires !HasDirectedCycle(g) && Structural(g, input, event, s) && id in s.inputs
    ensures var after := Deliver(g.edges, id, value, s.inputs);
      input in after && after[input] == s.inputs[input]
  {
    var after := Deliver(g.edges, id, value, s.inputs);
    NoEdgeBack(g, input, id);
    forall p
      ensures input in after
      ensures p in after[input] <==> p in s.inputs[input]
      ensures p in after[input] ==> after[input][p] == s.inputs[input][p]
    {
      DeliverAt(g.edges, id, value, s.inputs, input, p);
      if LeadsTo(g.edges, id, input, p) {
        LeadsToLeads(g.edges, id, input, p);
      }
    }
  }

  lemma SucceedStructural(g: Graph, input: Id, event: Value, s: Pass, id: Id, value: Value, next: Pass)
    requires EdgesClosed(g) && !HasDirectedCycle(g)
    requires Structural(g, input, event, s) && id in s.inputs
    requires next.inputs == Deliver(g.edges, id, value, s.inputs) && next.values.Keys == s.values.Keys + {id}
    ensures Structural(g, input, event, next)
  {
    DeliverKeepsInput(g, input, event, s, id, value);
    forall n | n in next.inputs
      ensures ActiveNode(g, input, next.inputs, n)
    {
      if n == input {
        ReachesSelf(g, input);
      } else {
        DeliverStructural(g, input, event, s, id, value, n);
      }
    }
    forall n | n in s.inputs
      ensures n in next.inputs
    {
      DeliverAt(g.edges, id, value, s.inputs, n, "");
    }
  }

  lemma AfterStructural(g: Graph, input: Id, event: Value, s: Pass, id: Id, entry: Entry, haltOnSkip: bool)
    requires EdgesClosed(g) && !HasDirectedCycle(g)
    requires Structural(g, input, event, s) && id in s.inputs
    ensures Structural(g, input, event, After(g, s, id, entry, haltOnSkip))
  {
    match entry.outcome
    case Succeeded(value) => SucceedStructural(g, input, event, s, id, value, After(g, s, id, entry, haltOnSkip));
    case _ => SameStructural(g, input, event, s, After(g, s, id, entry, haltOnSkip));
  }

  lemma SameStructural(g: Graph, input: Id, event: Value, s: Pass, next: Pass)
    requires Structural(g, input, event, s) && next.inputs == s.inputs && next.values == s.values
    ensures Structural(g, input, event, next)
  {
  }

  lemma StepStructural(g: Graph, cfg: Config, input: Id, event: Value, s: Pass, id: Id)
    requires EdgesClosed(g) && !HasDirectedCycle(g) && id in NodeIds(g)
    requires Structural(g, input, event, s)
    ensures Structural(g, input, event, Step(g, cfg, s, id))
  {
    if !s.halted && id in s.inputs {
      AfterStructural(g, input, event, s, id, Arrive(g, cfg, s, id), cfg.haltOnSkip);
    }
  }

  lemma {:induction false} RunStructural(g: Graph, cfg: Config, order: seq<Id>, input: Id, event: Value)
    requires EdgesClosed(g) && !HasDirectedCycle(g) && input in NodeIds(g)
    requires forall id | id in order :: id in NodeIds(g)
    ensures Structural(g, input, event, Run(g, cfg, order, Start(input, event)))
  {
    if order == [] {
      ReachesSelf(g, input);
    } else {
      RunStructural(g, cfg, order[..|order| - 1], input, event);
      StepStructural(g, cfg, input, event, Run(g, cfg, order[..|order| - 1], Start(input, event)), order[|order| - 1]);
    }
  }

  // ---------- The fallback of the input lookup is never taken ----------

  predicate Declared(node: Node, inputs: Fields) {
    exists p | p in node.inputs :: p.id in inputs
  }

  lemma {:induction false} DeclaredIgnoresPick(ports: seq<Port>, inputs: Fields, pick: Fields -> Fields,
      other: Fields -> Fields)
    requires exists p | p in ports :: p.id in inputs
    ensures FromPorts(ports, inputs, pick) == FromPorts(ports, inputs, other)
  {
    if ports[0].id !in inputs {
      var p :| p in ports && p.id in inputs;
      assert p in ports[1..];
      DeclaredIgnoresPick(ports[1..], inputs, pick, other);
    }
  }

  /** What the interpreters need of a validated graph: each edge ends at a declared input port. */
  ghost predicate WellWired(g: Graph) {
    && UniqueNodeIds(g) && EdgesClosed(g) && !HasDirectedCycle(g)
    && forall e | e in g.edges :: HasPort(g, e.to, e.toPort, InputPort)
  }

  lemma ValidFlowWellWired(g: Graph, c: Catalog, checks: FieldChecks, publish: bool)
    requires ValidFlow(g, c, checks, publish)
    ensures WellWired(g)
  {
    assert forall e | e in g.edges :: EdgePublishable(g, checks, e);
  }

  /** On a validated graph every active node but the input connector holds a value at a declared input port. */
  lemma ActiveInputsDeclared(g: Graph, input: Id, event: Value, s: Pass, id: Id)
    requires WellWired(g) && Structural(g, input, event, s)
    requires id in s.inputs && id != input
    ensures Declared(NodeOf(g.nodes, id), s.inputs[id])
  {
    assert ActiveNode(g, input, s.inputs, id);
    var port :| port in s.inputs[id];
    FedPortDeclared(g, id, port);
  }

  lemma FedPortDeclared(g: Graph, id: Id, port: string)
    requires WellWired(g) && PortFed(g, id, port) && id in NodeIds(g)
    ensures exists p | p in NodeOf(g.nodes, id).inputs :: p.id == port
  {
    var e :| e in g.edges && e.to == id && e.toPort == port;
    assert HasPort(g, e.to, e.toPort, InputPort);
    var node :| node in g.nodes && node.id == id && PortOn(node, port, InputPort);
    SameIdSameNode(g, node, NodeOf(g.nodes, id));
  }

  lemma SameIdSameNode(g: Graph, a: Node, b: Node)
    requires UniqueNodeIds(g) && a in g.nodes && b in g.nodes && a.id == b.id
    ensures a == b
  {
    var i :| 0 <= i < |g.nodes| && g.nodes[i] == a;
    var j :| 0 <= j < |g.nodes| && g.nodes[j] == b;
  }

  lemma ArriveIgnoresPick(g: Graph, cfg: Config, other: Fields -> Fields, input: Id, event: Value, s: Pass, id: Id)
    requires WellWired(g) && Structural(g, input, event, s) && id in s.inputs && id in NodeIds(g)
    requires input in NodeIds(g) && NodeOf(g.nodes, input).kind == Connector && event.Object?
    ensures Arrive(g, cfg, s, id) == Arrive(g, cfg.(pick := other), s, id)
  {
    if id != input {
      ActiveInputsDeclared(g, input, event, s, id);
      DeclaredIgnoresPick(NodeOf(g.nodes, id).inputs, s.inputs[id], cfg.pick, other);
    }
  }

  /** Determinism: on a validated graph the whole run, clean or not, does not depend on the map-iteration
      fallback of the input lookup. */
  lemma {:induction false} RunIgnoresPick(
    g: Graph, cfg: Config, other: Fields -> Fields, order: seq<Id>, input: Id, event: Value)
    requires WellWired(g)
    requires forall id | id in order :: id in NodeIds(g)
    requires input in NodeIds(g) && NodeOf(g.nodes, input).kind == Connector && event.Object?
    ensures Run(g, cfg, order, Start(input, event)) == Run(g, cfg.(pick := other), order, Start(input, event))
  {
    if order != [] {
      var front, id := order[..|order| - 1], order[|order| - 1];
      RunIgnoresPick(g, cfg, other, front, input, event);
      var s := Run(g, cfg, front, Start(input, event));
      RunStructural(g, cfg, front, input, event);
      if id in s.inputs {
        ArriveIgnoresPick(g, cfg, other, input, event, s, id);
      }
    }
  }
}
