/** Confluence of live runs. Filters hand their input on unchanged, so what a port receives depends on where the
    values of its sources originate: if that is one node at every port that is read, the clean live runs of a
    validated Flow give every node the same input and value along all topological orders. */
module LiveOrder {
  import opened Text
  import opened FlowGraph
  import opened TopologicalSort
  import opened Validation
  import opened Interpreter
  import opened Confluence
  import opened Execution

  // ---------- Which values a node may receive ----------

  predicate IsFilter(node: Node) {
    node.kind == Generic && node.generic == Some(CONDITION_FILTER)
  }

  /** Some node that the input reaches feeds the port. */
  ghost predicate LiveFed(g: Graph, input: Id, n: Id, p: string) {
    exists e: Edge :: FeedsFrom(g, ReachableSet(g, input), e, n, p)
  }

  ghost predicate FirstFed(g: Graph, input: Id, n: Id, ports: seq<Port>, p: string) {
    ports != [] && if LiveFed(g, input, n, ports[0].id) then p == ports[0].id else FirstFed(g, input, n, ports[1..], p)
  }

  /** The one port whose value the node is given. */
  ghost predicate Reads(g: Graph, input: Id, node: Node, p: string) {
    if node.kind == Connector && LiveFed(g, input, node.id, "event") then p == "event"
    else FirstFed(g, input, node.id, node.inputs, p)
  }

  /** A source of the port that leads to no other one: some topological order has it write last. */
  ghost predicate MayBeLast(g: Graph, input: Id, e: Edge, n: Id, p: string) {
    && FeedsFrom(g, ReachableSet(g, input), e, n, p)
    && forall f | FeedsFrom(g, ReachableSet(g, input), f, n, p) && Reaches(g, e.from, f.from) :: f.from == e.from
  }

  /** Traced back through filters, the sources that may write last to the port a node reads come from one node. */
  ghost predicate OneOrigin(g: Graph, input: Id, origin: Id -> Id, node: Node) {
    forall p, e, f
      | Reads(g, input, node, p) && MayBeLast(g, input, e, node.id, p) && MayBeLast(g, input, f, node.id, p) ::
      origin(e.from) == origin(f.from)
  }

  /** A filter has the origin of what it hands on; every other node is its own. */
  ghost predicate HasOrigin(g: Graph, input: Id, origin: Id -> Id, node: Node) {
    if IsFilter(node) then
      forall p, e | Reads(g, input, node, p) && MayBeLast(g, input, e, node.id, p) :: origin(node.id) == origin(e.from)
    else origin(node.id) == node.id
  }

  ghost predicate Traced(g: Graph, input: Id, origin: Id -> Id) {
    forall node | node in g.nodes && Reaches(g, input, node.id) ::
      HasOrigin(g, input, origin, node) && (node.id != input ==> OneOrigin(g, input, origin, node))
  }

  ghost predicate Traceable(g: Graph, input: Id) {
    exists origin: Id -> Id :: Traced(g, input, origin)
  }

  /** Every execution of the Flow ends as skipped at the latest at this terminal. */
  ghost predicate TerminalReached(g: Graph, input: Id) {
    exists node | node in g.nodes :: node.kind == Terminal && Reaches(g, input, node.id)
  }

  // ---------- Agreement of live runs ----------

  /** The same nodes with the same inputs and values. */
  ghost predicate SameSeen(g: Graph, pick: Fields -> Fields, s: Pass, t: Pass) {
    && s.values == t.values && s.inputs.Keys == t.inputs.Keys
    && forall node | node in g.nodes && node.id in s.inputs && node.id in t.inputs ::
         FirstNodeInput(node, s.inputs[node.id], pick) == FirstNodeInput(node, t.inputs[node.id], pick)
  }

  ghost predicate LiveRunsAgree(g: Graph, cfg: Config, o1: seq<Id>, o2: seq<Id>, input: Id, event: Value)
    requires TopologicalOrder(g, o1) && TopologicalOrder(g, o2)
  {
    Clean(FullRun(g, cfg, o1, input, event)) ==>
      && Clean(FullRun(g, cfg, o2, input, event))
      && SameSeen(g, cfg.pick, FullRun(g, cfg, o1, input, event), FullRun(g, cfg, o2, input, event))
  }

  /** Connectors record objects. */
  predicate ObjectsStored(latest: map<Id, Checkpoint>) {
    forall id | id in latest && latest[id].Success? && latest[id].value.Some? :: latest[id].value.value.Object?
  }

  /** No two clean live executions of one event, fresh or resumed, differ because of the order. */
  ghost predicate LiveOrderIndependent(g: Graph, c: Catalog, input: Id) {
    forall ev, latest, pick, o1, o2, event: Value
      | TopologicalOrder(g, o1) && TopologicalOrder(g, o2) && ObjectsStored(latest) && event.Object? ::
      LiveRunsAgree(g, Live(c, ev, latest, pick), o1, o2, input, event)
  }

  /** A validated Flow, its input connector, an event and the checkpoints of earlier attempts. */
  ghost predicate Setting(g: Graph, c: Catalog, latest: map<Id, Checkpoint>, source: Node, event: Value) {
    && WellWired(g) && source in g.nodes && IsInput(c, source)
    && (forall node | node in g.nodes && IsInput(c, node) :: node == source)
    && ObjectsStored(latest) && event.Object?
  }

  // ---------- What a node of a clean live run receives ----------

  function Received(node: Node, p: string, v: Value): Fields {
    if node.kind == Connector && p == "event" then map["event" := v] else AsObject(v)
  }

  lemma {:induction false} FirstFedRead(
    g: Graph, input: Id, n: Id, ports: seq<Port>, slots: Fields, pick: Fields -> Fields, p: string)
    requires forall q :: q in slots <==> LiveFed(g, input, n, q)
    requires FirstFed(g, input, n, ports, p)
    ensures p in slots && FromPorts(ports, slots, pick) == AsObject(slots[p])
  {
    if !LiveFed(g, input, n, ports[0].id) {
      FirstFedRead(g, input, n, ports[1..], slots, pick, p);
    }
  }

  lemma InputRead(g: Graph, input: Id, node: Node, slots: Fields, pick: Fields -> Fields, p: string)
    requires forall q :: q in slots <==> LiveFed(g, input, node.id, q)
    requires forall q | q in slots :: slots[q].Object?
    requires Reads(g, input, node, p)
    ensures p in slots && FirstNodeInput(node, slots, pick) == Received(node, p, slots[p])
  {
    if !(node.kind == Connector && LiveFed(g, input, node.id, "event")) {
      FirstFedRead(g, input, node.id, node.inputs, slots, pick, p);
    }
  }

  lemma {:induction false} FirstFedExists(g: Graph, input: Id, n: Id, ports: seq<Port>, k: nat) returns (p: string)
    requires k < |ports| && LiveFed(g, input, n, ports[k].id)
    ensures FirstFed(g, input, n, ports, p)
  {
    if LiveFed(g, input, n, ports[0].id) {
      p := ports[0].id;
    } else {
      p := FirstFedExists(g, input, n, ports[1..], k - 1);
    }
  }

  /** On a validated graph every reachable node but the input connector reads some port. */
  lemma PortRead(g: Graph, input: Id, node: Node) returns (p: string)
    requires WellWired(g) && node in g.nodes && node.id != input && Reaches(g, input, node.id)
    ensures Reads(g, input, node, p)
  {
    if node.kind == Connector && LiveFed(g, input, node.id, "event") {
      p := "event";
    } else {
      var e := EdgeInto(g, input, node.id);
      assert PortFed(g, node.id, e.toPort);
      FedPortDeclared(g, node.id, e.toPort);
      SameIdSameNode(g, node, NodeOf(g.nodes, node.id));
      var port :| port in node.inputs && port.id == e.toPort;
      var k :| 0 <= k < |node.inputs| && node.inputs[k] == port;
      assert FeedsFrom(g, ReachableSet(g, input), e, node.id, e.toPort);
      p := FirstFedExists(g, input, node.id, node.inputs, k);
    }
  }

  /** A reachable node other than the input has an edge from a reachable one. */
  lemma EdgeInto(g: Graph, input: Id, n: Id) returns (e: Edge)
    requires Reaches(g, input, n) && n != input
    ensures e in g.edges && e.to == n && Reaches(g, input, e.from)
  {
    var path :| PathFromTo(g, path, input, n);
    e := LastEdge(g, path);
    assert PathFromTo(g, path[..|path| - 1], input, e.from);
  }

  /** Exactly those sources of the node have values that the input reaches. */
  ghost predicate SourcesRun(g: Graph, input: Id, n: Id, s: Pass) {
    forall f | f in g.edges && f.to == n :: f.from in s.values <==> Reaches(g, input, f.from)
  }

  /** In a state in which the sources of a node have run, the node receives the value of its last source. */
  lemma LastRead(g: Graph, order: seq<Id>, s: Pass, input: Id, pick: Fields -> Fields, node: Node, p: string)
    returns (e: Edge)
    requires TopologicalOrder(g, order) && EdgesClosed(g) && node.id in s.inputs
    requires forall q :: SlotSettled(g, order, s, node.id, q)
    requires SourcesRun(g, input, node.id, s)
    requires forall n | n in s.values :: s.values[n].Object?
    requires Reads(g, input, node, p)
    ensures MayBeLast(g, input, e, node.id, p) && e.from in s.values
    ensures forall f | FeedsFrom(g, ReachableSet(g, input), f, node.id, p) :: NotAfter(order, f.from, e.from)
    ensures FirstNodeInput(node, s.inputs[node.id], pick) == Received(node, p, s.values[e.from])
  {
    SlotsLiveFed(g, order, s, input, node.id);
    InputRead(g, input, node, s.inputs[node.id], pick, p);
    assert SlotSettled(g, order, s, node.id, p);
    e :| FeedsLast(g, order, s.values.Keys, e, node.id, p) && Slots(s.inputs, node.id)[p] == s.values[e.from];
    LastMayBeLast(g, order, s, input, e, node.id, p);
  }

  lemma SlotsLiveFed(g: Graph, order: seq<Id>, s: Pass, input: Id, n: Id)
    requires n in s.inputs && forall q :: SlotSettled(g, order, s, n, q)
    requires SourcesRun(g, input, n, s)
    requires forall m | m in s.values :: s.values[m].Object?
    ensures forall q :: q in s.inputs[n] <==> LiveFed(g, input, n, q)
    ensures forall q | q in s.inputs[n] :: s.inputs[n][q].Object?
  {
    forall q
      ensures q in s.inputs[n] <==> LiveFed(g, input, n, q)
      ensures q in s.inputs[n] ==> s.inputs[n][q].Object?
    {
      assert SlotSettled(g, order, s, n, q);
      assert forall f :: Feeds(g, s.values.Keys, f, n, q) <==> FeedsFrom(g, ReachableSet(g, input), f, n, q);
    }
  }

  lemma LastMayBeLast(g: Graph, order: seq<Id>, s: Pass, input: Id, e: Edge, n: Id, p: string)
    requires TopologicalOrder(g, order) && EdgesClosed(g) && FeedsLast(g, order, s.values.Keys, e, n, p)
    requires SourcesRun(g, input, n, s)
    ensures MayBeLast(g, input, e, n, p)
    ensures forall f | FeedsFrom(g, ReachableSet(g, input), f, n, p) :: NotAfter(order, f.from, e.from)
  {
    forall f | FeedsFrom(g, ReachableSet(g, input), f, n, p)
      ensures NotAfter(order, f.from, e.from)
      ensures Reaches(g, e.from, f.from) ==> f.from == e.from
    {
      assert Feeds(g, s.values.Keys, f, n, p);
      if Reaches(g, e.from, f.from) {
        ReachesNotAfter(g, order, e.from, f.from);
        NotAfterBoth(order, e.from, f.from);
      }
    }
  }

  // ---------- A clean live run ----------

  /** The local equations of a clean live run, with the values that are objects. */
  ghost predicate LiveState(g: Graph, cfg: Config, order: seq<Id>, done: seq<Id>, source: Node, event: Value, s: Pass) {
    && Settled(g, cfg, order, done, source.id, s) && Structural(g, source.id, event, s)
    && forall n | n in s.values :: s.values[n].Object?
  }

  lemma OutcomeIsObject(c: Catalog, ev: Evaluator, latest: map<Id, Checkpoint>, node: Node, input: Fields, value: Value)
    requires ObjectsStored(latest) && ResumeNode(c, ev, latest, node, input) == Succeeded(value)
    requires IsInput(c, node) ==> FieldOf(input, "event").Object?
    ensures value.Object?
  {
  }

  ghost predicate ReachableValued(g: Graph, input: Id, s: Pass) {
    forall n :: n in s.values <==> Reaches(g, input, n)
  }

  lemma ValueIsObject(
    g: Graph, c: Catalog, ev: Evaluator, latest: map<Id, Checkpoint>, pick: Fields -> Fields, source: Node,
    event: Value, s: Pass, n: Id)
    requires Setting(g, c, latest, source, event) && Structural(g, source.id, event, s)
    requires n in s.values && Evaluated(g, Live(c, ev, latest, pick), s, n)
    ensures s.values[n].Object?
  {
    var node := NodeOf(g.nodes, n);
    var input := FirstNodeInput(node, s.inputs[n], pick);
    if IsInput(c, node) {
      assert node == source;
      assert input == map["event" := event];
    }
    OutcomeIsObject(c, ev, latest, node, input, s.values[n]);
  }

  lemma LiveStateReached(
    g: Graph, c: Catalog, ev: Evaluator, latest: map<Id, Checkpoint>, pick: Fields -> Fields, source: Node,
    event: Value, order: seq<Id>, k: nat)
    requires Setting(g, c, latest, source, event) && TopologicalOrder(g, order) && k <= |order|
    requires forall id | id in order :: id in NodeIds(g)
    requires Clean(Run(g, Live(c, ev, latest, pick), order[..k], Start(source.id, event)))
    ensures LiveState(g, Live(c, ev, latest, pick), order, order[..k], source, event,
                      Run(g, Live(c, ev, latest, pick), order[..k], Start(source.id, event)))
  {
    var cfg := Live(c, ev, latest, pick);
    var s := Run(g, cfg, order[..k], Start(source.id, event));
    RunSettled(g, cfg, order, k, source.id, event);
    RunStructural(g, cfg, order[..k], source.id, event);
    forall n | n in s.values
      ensures s.values[n].Object?
    {
      ValueIsObject(g, c, ev, latest, pick, source, event, s, n);
    }
  }

  /** A whole clean live run: besides the local equations, exactly the reachable nodes have values. */
  lemma LiveRunReached(
    g: Graph, c: Catalog, ev: Evaluator, latest: map<Id, Checkpoint>, pick: Fields -> Fields, source: Node,
    event: Value, order: seq<Id>)
    requires Setting(g, c, latest, source, event) && TopologicalOrder(g, order)
    requires Clean(FullRun(g, Live(c, ev, latest, pick), order, source.id, event))
    ensures var s := FullRun(g, Live(c, ev, latest, pick), order, source.id, event);
      && LiveState(g, Live(c, ev, latest, pick), order, order, source, event, s)
      && ReachableValued(g, source.id, s) && s.values.Keys == s.inputs.Keys
  {
    var cfg := Live(c, ev, latest, pick);
    OrderInNodes(g, order);
    LiveStateReached(g, c, ev, latest, pick, source, event, order, |order|);
    FullRunSettled(g, cfg, order, source.id, event);
    ActivatesReachable(g, cfg, order, source.id, event);
  }

  /** The node receives, at the port it reads, the value of e's source. */
  ghost predicate ReceivesFrom(g: Graph, input: Id, pick: Fields -> Fields, s: Pass, node: Node, p: string, e: Edge) {
    && MayBeLast(g, input, e, node.id, p) && e.from in s.values && node.id in s.inputs
    && FirstNodeInput(node, s.inputs[node.id], pick) == Received(node, p, s.values[e.from])
  }

  lemma LiveRead(
    g: Graph, cfg: Config, order: seq<Id>, done: seq<Id>, source: Node, event: Value, s: Pass, node: Node, p: string)
    returns (e: Edge)
    requires TopologicalOrder(g, order) && EdgesClosed(g) && LiveState(g, cfg, order, done, source, event, s)
    requires node.id in s.inputs && node.id != source.id
    requires SourcesRun(g, source.id, node.id, s)
    requires Reads(g, source.id, node, p)
    ensures ReceivesFrom(g, source.id, cfg.pick, s, node, p, e)
    ensures forall f | FeedsFrom(g, ReachableSet(g, source.id), f, node.id, p) :: NotAfter(order, f.from, e.from)
  {
    assert forall q :: SlotSettled(g, order, s, node.id, q);
    e := LastRead(g, order, s, source.id, cfg.pick, node, p);
  }

  // ---------- Sufficiency: traceable Flows ----------

  /** Every value is that of its origin. */
  ghost predicate FromOrigins(origin: Id -> Id, done: seq<Id>, s: Pass) {
    forall i | 0 <= i < |done| && done[i] in s.values :: FromOrigin(origin, s, done[i])
  }

  ghost predicate FromOrigin(origin: Id -> Id, s: Pass, n: Id)
    requires n in s.values
  {
    origin(n) in s.values && s.values[n] == s.values[origin(n)]
  }

  lemma OwnOrigin(
    g: Graph, c: Catalog, ev: Evaluator, latest: map<Id, Checkpoint>, pick: Fields -> Fields, origin: Id -> Id, s: Pass,
    node: Node, p: string, e: Edge, input: Id)
    requires node.id in s.values && IsFilter(node) && HasOrigin(g, input, origin, node)
    requires ReceivesFrom(g, input, pick, s, node, p, e) && Reads(g, input, node, p) && s.values[e.from].Object?
    requires Live(c, ev, latest, pick).eval(node, FirstNodeInput(node, s.inputs[node.id], pick))
      == Succeeded(s.values[node.id])
    requires FromOrigin(origin, s, e.from)
    ensures FromOrigin(origin, s, node.id)
  {
  }

  lemma FilterFromOrigin(
    g: Graph, c: Catalog, ev: Evaluator, latest: map<Id, Checkpoint>, pick: Fields -> Fields, source: Node,
    event: Value, order: seq<Id>, origin: Id -> Id, done: seq<Id>, s: Pass, node: Node)
    requires WellWired(g) && TopologicalOrder(g, order)
    requires LiveState(g, Live(c, ev, latest, pick), order, order, source, event, s)
    requires node in g.nodes && node.id in s.values && node.id in s.inputs && node.id != source.id && IsFilter(node)
    requires Reaches(g, source.id, node.id) && HasOrigin(g, source.id, origin, node)
    requires Live(c, ev, latest, pick).eval(node, FirstNodeInput(node, s.inputs[node.id], pick))
      == Succeeded(s.values[node.id])
    requires SourcesRun(g, source.id, node.id, s)
    requires forall f | f in g.edges && f.to == node.id :: f.from in done
    requires FromOrigins(origin, done, s)
    ensures FromOrigin(origin, s, node.id)
  {
    var p := PortRead(g, source.id, node);
    var e := LiveRead(g, Live(c, ev, latest, pick), order, order, source, event, s, node, p);
    OwnOrigin(g, c, ev, latest, pick, origin, s, node, p, e, source.id);
  }

  lemma ValueFromOrigin(
    g: Graph, c: Catalog, ev: Evaluator, latest: map<Id, Checkpoint>, pick: Fields -> Fields, source: Node,
    event: Value, order: seq<Id>, origin: Id -> Id, k: nat, s: Pass)
    requires Setting(g, c, latest, source, event) && TopologicalOrder(g, order) && Traced(g, source.id, origin)
    requires LiveState(g, Live(c, ev, latest, pick), order, order, source, event, s)
    requires ReachableValued(g, source.id, s)
    requires k < |order| && FromOrigins(origin, order[..k], s)
    ensures FromOrigins(origin, order[..k + 1], s)
  {
    var n := order[k];
    TakeOneMore(order, k);
    if n in s.values {
      assert Evaluated(g, Live(c, ev, latest, pick), s, n);
      var node := NodeOf(g.nodes, n);
      if IsFilter(node) {
        assert n != source.id by { SameIdSameNode(g, source, NodeOf(g.nodes, source.id)); }
        PredecessorsDone(g, order, k, n);
        FilterFromOrigin(g, c, ev, latest, pick, source, event, order, origin, order[..k], s, node);
      }
    }
    OneMoreOrigin(origin, order[..k], n, s);
  }

  lemma OneMoreOrigin(origin: Id -> Id, done: seq<Id>, n: Id, s: Pass)
    requires FromOrigins(origin, done, s) && (n in s.values ==> FromOrigin(origin, s, n))
    ensures FromOrigins(origin, done + [n], s)
  {
  }

  lemma {:induction false} AllFromOrigins(
    g: Graph, c: Catalog, ev: Evaluator, latest: map<Id, Checkpoint>, pick: Fields -> Fields, source: Node,
    event: Value, order: seq<Id>, origin: Id -> Id, k: nat, s: Pass)
    requires Setting(g, c, latest, source, event) && TopologicalOrder(g, order) && Traced(g, source.id, origin)
    requires LiveState(g, Live(c, ev, latest, pick), order, order, source, event, s)
    requires ReachableValued(g, source.id, s)
    requires k <= |order|
    ensures FromOrigins(origin, order[..k], s)
  {
    hide Setting, Traced, LiveState, ReachableValued;
    if k > 0 {
      AllFromOrigins(g, c, ev, latest, pick, source, event, order, origin, k - 1, s);
      ValueFromOrigin(g, c, ev, latest, pick, source, event, order, origin, k - 1, s);
    }
  }

  /** The second state agrees with the first on the values it has. */
  ghost predicate Within(s1: Pass, s2: Pass) {
    forall n | n in s2.values :: n in s1.values && s2.values[n] == s1.values[n]
  }

  lemma SameReceived(
    g: Graph, input: Id, pick: Fields -> Fields, origin: Id -> Id, s1: Pass, s2: Pass, node: Node, p: string,
    e1: Edge, e2: Edge)
    requires ReceivesFrom(g, input, pick, s1, node, p, e1) && ReceivesFrom(g, input, pick, s2, node, p, e2)
    requires OneOrigin(g, input, origin, node) && Reads(g, input, node, p) && Within(s1, s2)
    requires FromOrigin(origin, s1, e1.from) && e2.from in s1.values && FromOrigin(origin, s1, e2.from)
    ensures FirstNodeInput(node, s1.inputs[node.id], pick) == FirstNodeInput(node, s2.inputs[node.id], pick)
  {
  }

  /** A node other than the input connector gets the same input in both. */
  lemma SameNodeInput(
    g: Graph, cfg: Config, source: Node, event: Value, origin: Id -> Id, o1: seq<Id>, o2: seq<Id>, done: seq<Id>,
    s1: Pass, s2: Pass, node: Node)
    requires WellWired(g) && TopologicalOrder(g, o1) && TopologicalOrder(g, o2) && node in g.nodes
      && node.id != source.id
    requires LiveState(g, cfg, o1, o1, source, event, s1) && LiveState(g, cfg, o2, done, source, event, s2)
    requires OneOrigin(g, source.id, origin, node) && Within(s1, s2) && FromOrigins(origin, o1, s1)
      && s1.values.Keys <= Elements(o1)
    requires Reaches(g, source.id, node.id) && node.id in s1.inputs && node.id in s2.inputs
    requires SourcesRun(g, source.id, node.id, s1)
    requires SourcesRun(g, source.id, node.id, s2)
    ensures FirstNodeInput(node, s1.inputs[node.id], cfg.pick) == FirstNodeInput(node, s2.inputs[node.id], cfg.pick)
  {
    var p := PortRead(g, source.id, node);
    var e1 := LiveRead(g, cfg, o1, o1, source, event, s1, node, p);
    var e2 := LiveRead(g, cfg, o2, done, source, event, s2, node, p);
    OriginListed(origin, o1, s1, e1.from);
    OriginListed(origin, o1, s1, e2.from);
    SameReceived(g, source.id, cfg.pick, origin, s1, s2, node, p, e1, e2);
  }

  lemma OriginListed(origin: Id -> Id, done: seq<Id>, s: Pass, n: Id)
    requires FromOrigins(origin, done, s) && s.values.Keys <= Elements(done) && n in s.values
    ensures FromOrigin(origin, s, n)
  {
    assert n in Elements(done);
    var i :| 0 <= i < |done| && done[i] == n;
  }

  /** A complete clean live run along an order, all of whose values have been traced. */
  ghost predicate TracedRun(
    g: Graph, cfg: Config, source: Node, event: Value, origin: Id -> Id, order: seq<Id>, s: Pass)
  {
    && TopologicalOrder(g, order) && LiveState(g, cfg, order, order, source, event, s)
    && ReachableValued(g, source.id, s) && s.values.Keys == s.inputs.Keys && s.values.Keys <= Elements(order)
    && FromOrigins(origin, order, s)
  }

  lemma SourcesReachable(g: Graph, input: Id, n: Id, s: Pass)
    requires ReachableValued(g, input, s)
    ensures SourcesRun(g, input, n, s)
  {
  }

  lemma TracedNode(g: Graph, input: Id, origin: Id -> Id, node: Node)
    requires Traced(g, input, origin) && node in g.nodes && Reaches(g, input, node.id) && node.id != input
    ensures OneOrigin(g, input, origin, node)
  {
  }

  lemma SameInput(
    g: Graph, cfg: Config, source: Node, event: Value, origin: Id -> Id, o1: seq<Id>, o2: seq<Id>, done: seq<Id>,
    s1: Pass, s2: Pass, node: Node)
    requires WellWired(g) && Traced(g, source.id, origin) && TracedRun(g, cfg, source, event, origin, o1, s1)
    requires TopologicalOrder(g, o2) && LiveState(g, cfg, o2, done, source, event, s2) && Within(s1, s2)
    requires node in g.nodes && Reaches(g, source.id, node.id) && node.id in s1.inputs && node.id in s2.inputs
    requires SourcesRun(g, source.id, node.id, s1) && SourcesRun(g, source.id, node.id, s2)
    ensures FirstNodeInput(node, s1.inputs[node.id], cfg.pick) == FirstNodeInput(node, s2.inputs[node.id], cfg.pick)
  {
    hide WellWired, Traced, Settled, Reaches, SourcesRun, FromOrigins;
    if node.id == source.id {
      assert s1.inputs[source.id] == s2.inputs[source.id];
    } else {
      TracedNode(g, source.id, origin, node);
      SameNodeInput(g, cfg, source, event, origin, o1, o2, done, s1, s2, node);
    }
  }

  lemma SameOutcome(g: Graph, cfg: Config, s1: Pass, s2: Pass, id: Id)
    requires id in NodeIds(g) && id in s1.values && Evaluated(g, cfg, s1, id) && id in s2.inputs
    requires FirstNodeInput(NodeOf(g.nodes, id), s1.inputs[id], cfg.pick)
      == FirstNodeInput(NodeOf(g.nodes, id), s2.inputs[id], cfg.pick)
    ensures Arrive(g, cfg, s2, id).outcome == Succeeded(s1.values[id])
  {
  }

  lemma SourcesAgree(g: Graph, input: Id, n: Id, done: seq<Id>, s1: Pass, s2: Pass)
    requires ReachableValued(g, input, s1) && ValuesAgree(done, s1, s2)
    requires forall f | f in g.edges && f.to == n :: f.from in done
    ensures SourcesRun(g, input, n, s1) && SourcesRun(g, input, n, s2) && Within(s1, s2)
    ensures Activated(g, s1.values.Keys, n) <==> Activated(g, s2.values.Keys, n)
  {
    hide Reaches;
  }

  /** What the second run has done so far, its next node sees as in the first run. */
  lemma NextNode(
    g: Graph, cfg: Config, source: Node, event: Value, origin: Id -> Id, o1: seq<Id>, o2: seq<Id>, k: nat,
    s1: Pass, s2: Pass)
    requires EdgesClosed(g) && TracedRun(g, cfg, source, event, origin, o1, s1)
    requires TopologicalOrder(g, o2) && k < |o2|
    requires LiveState(g, cfg, o2, o2[..k], source, event, s2) && ValuesAgree(o2[..k], s1, s2)
    ensures o2[k] in s1.values <==> o2[k] in s1.inputs
    ensures o2[k] in s1.inputs <==> o2[k] in s2.inputs
    ensures SourcesRun(g, source.id, o2[k], s1) && SourcesRun(g, source.id, o2[k], s2) && Within(s1, s2)
    ensures o2[k] in s1.values ==> Reaches(g, source.id, o2[k]) && Evaluated(g, cfg, s1, o2[k])
  {
    hide FromOrigins, Reaches, Structural, SlotSettled;
    TakeOneMore(o2, k);
    PredecessorsDone(g, o2, k, o2[k]);
    SourcesAgree(g, source.id, o2[k], o2[..k], s1, s2);
  }

  /** The next node of the second run is active exactly if it was in the first, and does the same. */
  lemma SameArrival(
    g: Graph, cfg: Config, source: Node, event: Value, origin: Id -> Id, o1: seq<Id>, o2: seq<Id>, k: nat,
    s1: Pass, s2: Pass)
    requires WellWired(g) && Traced(g, source.id, origin) && TracedRun(g, cfg, source, event, origin, o1, s1)
    requires TopologicalOrder(g, o2) && k < |o2| && o2[k] in NodeIds(g)
    requires LiveState(g, cfg, o2, o2[..k], source, event, s2) && ValuesAgree(o2[..k], s1, s2)
    ensures o2[k] in s1.values <==> o2[k] in s2.inputs
    ensures o2[k] in s2.inputs ==> Arrive(g, cfg, s2, o2[k]).outcome == Succeeded(s1.values[o2[k]])
  {
    hide Traced, TracedRun, LiveState, TopologicalOrder, Reaches, SourcesRun;
    NextNode(g, cfg, source, event, origin, o1, o2, k, s1, s2);
    if o2[k] in s1.inputs {
      SameInput(g, cfg, source, event, origin, o1, o2, o2[..k], s1, s2, NodeOf(g.nodes, o2[k]));
      SameOutcome(g, cfg, s1, s2, o2[k]);
    }
  }

  lemma LiveFollowsOneMore(
    g: Graph, c: Catalog, ev: Evaluator, latest: map<Id, Checkpoint>, pick: Fields -> Fields, source: Node,
    event: Value, origin: Id -> Id, o1: seq<Id>, o2: seq<Id>, k: nat, s1: Pass, s2: Pass)
    requires Setting(g, c, latest, source, event) && TopologicalOrder(g, o2) && Traced(g, source.id, origin)
    requires TracedRun(g, Live(c, ev, latest, pick), source, event, origin, o1, s1)
    requires forall id | id in o2 :: id in NodeIds(g)
    requires k < |o2| && s2 == Run(g, Live(c, ev, latest, pick), o2[..k], Start(source.id, event))
    requires Follows(g, s1, o2[..k], s2)
    ensures o2[k] in NodeIds(g) && Follows(g, s1, o2[..k + 1], Step(g, Live(c, ev, latest, pick), s2, o2[k]))
  {
    hide Traced, TracedRun, WellWired, Reaches, Structural, SlotSettled, Evaluated;
    var cfg, id := Live(c, ev, latest, pick), o2[k];
    LiveStateReached(g, c, ev, latest, pick, source, event, o2, k);
    SameArrival(g, cfg, source, event, origin, o1, o2, k, s1, s2);
    StepClean(g, cfg, s2, id);
    assert id !in o2[..k];
    ExtendValuesAgree(g, cfg, o2[..k], id, s1, s2);
    TakeOneMore(o2, k);
  }

  lemma {:induction false} LiveFollows(
    g: Graph, c: Catalog, ev: Evaluator, latest: map<Id, Checkpoint>, pick: Fields -> Fields, source: Node,
    event: Value, origin: Id -> Id, o1: seq<Id>, o2: seq<Id>, k: nat, s1: Pass) returns (s2: Pass)
    requires Setting(g, c, latest, source, event) && TopologicalOrder(g, o2) && Traced(g, source.id, origin)
    requires TracedRun(g, Live(c, ev, latest, pick), source, event, origin, o1, s1)
    requires forall id | id in o2 :: id in NodeIds(g)
    requires k <= |o2|
    ensures s2 == Run(g, Live(c, ev, latest, pick), o2[..k], Start(source.id, event))
    ensures Follows(g, s1, o2[..k], s2)
  {
    hide Setting, Traced, TracedRun;
    if k == 0 {
      s2 := Start(source.id, event);
    } else {
      var before := LiveFollows(g, c, ev, latest, pick, source, event, origin, o1, o2, k - 1, s1);
      LiveFollowsOneMore(g, c, ev, latest, pick, source, event, origin, o1, o2, k - 1, s1, before);
      RunStep(g, Live(c, ev, latest, pick), o2, k - 1, Start(source.id, event));
      s2 := Step(g, Live(c, ev, latest, pick), before, o2[k - 1]);
    }
  }

  /** Two complete runs with the same values have seen the same inputs. */
  lemma SameInputsSeen(
    g: Graph, cfg: Config, source: Node, event: Value, origin: Id -> Id, o1: seq<Id>, o2: seq<Id>, s1: Pass, s2: Pass)
    requires WellWired(g) && Traced(g, source.id, origin) && TracedRun(g, cfg, source, event, origin, o1, s1)
    requires TopologicalOrder(g, o2) && LiveState(g, cfg, o2, o2, source, event, s2)
    requires s1.values == s2.values && s2.values.Keys == s2.inputs.Keys
    ensures SameSeen(g, cfg.pick, s1, s2)
  {
    hide WellWired, Traced, Settled, Reaches;
    forall node | node in g.nodes && node.id in s1.inputs && node.id in s2.inputs
      ensures FirstNodeInput(node, s1.inputs[node.id], cfg.pick) == FirstNodeInput(node, s2.inputs[node.id], cfg.pick)
    {
      SourcesReachable(g, source.id, node.id, s1);
      SourcesReachable(g, source.id, node.id, s2);
      SameInput(g, cfg, source, event, origin, o1, o2, o2, s1, s2, node);
    }
  }

  lemma ValuesListed(g: Graph, order: seq<Id>, source: Node, event: Value, s: Pass)
    requires TopologicalOrder(g, order) && Structural(g, source.id, event, s)
    ensures s.values.Keys <= Elements(order)
  {
    forall n | n in s.values
      ensures n in Elements(order)
    {
      assert ActiveNode(g, source.id, s.inputs, n);
    }
  }

  lemma FirstRunTraced(
    g: Graph, c: Catalog, ev: Evaluator, latest: map<Id, Checkpoint>, pick: Fields -> Fields, source: Node,
    event: Value, origin: Id -> Id, order: seq<Id>)
    requires Setting(g, c, latest, source, event) && TopologicalOrder(g, order) && Traced(g, source.id, origin)
    requires Clean(FullRun(g, Live(c, ev, latest, pick), order, source.id, event))
    ensures TracedRun(g, Live(c, ev, latest, pick), source, event, origin, order,
                      FullRun(g, Live(c, ev, latest, pick), order, source.id, event))
  {
    var s := FullRun(g, Live(c, ev, latest, pick), order, source.id, event);
    OrderInNodes(g, order);
    LiveRunReached(g, c, ev, latest, pick, source, event, order);
    AllFromOrigins(g, c, ev, latest, pick, source, event, order, origin, |order|, s);
    ValuesListed(g, order, source, event, s);
  }

  lemma SameReachableValues(g: Graph, input: Id, s1: Pass, s2: Pass)
    requires ReachableValued(g, input, s1) && ReachableValued(g, input, s2) && Within(s1, s2)
    ensures s1.values == s2.values
  {
    hide Reaches;
  }

  lemma SecondRunSame(
    g: Graph, c: Catalog, ev: Evaluator, latest: map<Id, Checkpoint>, pick: Fields -> Fields, source: Node,
    event: Value, origin: Id -> Id, o1: seq<Id>, o2: seq<Id>, s1: Pass)
    requires Setting(g, c, latest, source, event) && TopologicalOrder(g, o2) && Traced(g, source.id, origin)
    requires TracedRun(g, Live(c, ev, latest, pick), source, event, origin, o1, s1)
    ensures Clean(FullRun(g, Live(c, ev, latest, pick), o2, source.id, event))
    ensures FullRun(g, Live(c, ev, latest, pick), o2, source.id, event).values == s1.values
  {
    hide Setting, Traced, LiveState, FromOrigins, Reaches;
    OrderInNodes(g, o2);
    var s2 := LiveFollows(g, c, ev, latest, pick, source, event, origin, o1, o2, |o2|, s1);
    LiveRunReached(g, c, ev, latest, pick, source, event, o2);
    SameReachableValues(g, source.id, s1, s2);
  }

  /** Confluence of live runs: if values can be traced to one origin at every port that is read, a clean execution
      along one topological order is clean along every other, and every node gets and makes the same. */
  lemma TraceableRunsAgree(
    g: Graph, c: Catalog, ev: Evaluator, latest: map<Id, Checkpoint>, pick: Fields -> Fields, source: Node,
    event: Value, o1: seq<Id>, o2: seq<Id>)
    requires Setting(g, c, latest, source, event) && TopologicalOrder(g, o1) && TopologicalOrder(g, o2)
    requires Traceable(g, source.id)
    ensures LiveRunsAgree(g, Live(c, ev, latest, pick), o1, o2, source.id, event)
  {
    var cfg := Live(c, ev, latest, pick);
    if Clean(FullRun(g, cfg, o1, source.id, event)) {
      var origin: Id -> Id :| Traced(g, source.id, origin);
      var s1 := FullRun(g, cfg, o1, source.id, event);
      FirstRunTraced(g, c, ev, latest, pick, source, event, origin, o1);
      SecondRunSame(g, c, ev, latest, pick, source, event, origin, o1, o2, s1);
      LiveRunReached(g, c, ev, latest, pick, source, event, o2);
      SameInputsSeen(g, cfg, source, event, origin, o1, o2, s1, FullRun(g, cfg, o2, source.id, event));
    }
  }
}
