/** The other half of the confluence of live runs, and with it the decision: a run in which every value carries the
    name of the node it originates from shows what the order can change. */
module LiveOrderDecision {
  import opened Text
  import opened FlowGraph
  import opened TopologicalSort
  import opened Validation
  import opened Interpreter
  import opened Confluence
  import opened OrderDependence
  import opened Execution
  import opened LiveOrder

  // ---------- A run in which every value says where it originates ----------

  function Label(id: Id): Fields { map[id := Null] }

  /** Parse and mapping nodes and output connectors produce their own name; filters match. */
  function Labelling(): Evaluator {
    var name := (node: Node, input: Fields) => Some(Label(node.id));
    Evaluator(name, name, (node: Node, input: Fields) => true, (node: Node, input: Fields) => Some(true),
              (node: Node) => false, (v: Value) => false, (input: Fields) => Null, name)
  }

  function LabellingRun(c: Catalog, pick: Fields -> Fields): Config {
    Live(c, Labelling(), map[], pick)
  }

  lemma LabellingSucceeds(c: Catalog, checks: FieldChecks, node: Node, input: Fields)
    requires NodePublishable(c, checks, node) && node.kind != Terminal && node.kind != UnknownKind
    ensures ExecuteNode(c, Labelling(), node, input).Succeeded?
  {
  }

  lemma LabelledOutcome(c: Catalog, node: Node, input: Fields, value: Value)
    requires ExecuteNode(c, Labelling(), node, input) == Succeeded(value) && !IsFilter(node)
    ensures value == if IsInput(c, node) then FieldOf(input, "event") else Object(Label(node.id))
  {
  }

  /** A validated Flow that ends in no terminal. */
  ghost predicate Runnable(g: Graph, c: Catalog, checks: FieldChecks, source: Node) {
    && Setting(g, c, map[], source, Object(Label(source.id))) && !TerminalReached(g, source.id)
    && forall node | node in g.nodes :: NodePublishable(c, checks, node) && node.kind != UnknownKind
  }

  lemma {:induction false} LabelledClean(
    g: Graph, c: Catalog, checks: FieldChecks, pick: Fields -> Fields, source: Node, order: seq<Id>)
    requires Runnable(g, c, checks, source) && forall id | id in order :: id in NodeIds(g)
    ensures Clean(Run(g, LabellingRun(c, pick), order, Start(source.id, Object(Label(source.id)))))
  {
    if order != [] {
      var cfg, event := LabellingRun(c, pick), Object(Label(source.id));
      var front, id := order[..|order| - 1], order[|order| - 1];
      LabelledClean(g, c, checks, pick, source, front);
      RunStructural(g, cfg, front, source.id, event);
      var s := Run(g, cfg, front, Start(source.id, event));
      StepClean(g, cfg, s, id);
      if id in s.inputs {
        assert ActiveNode(g, source.id, s.inputs, id);
        LabellingSucceeds(c, checks, NodeOf(g.nodes, id), Arrive(g, cfg, s, id).input);
      }
    }
  }

  ghost predicate Labelled(g: Graph, s: Pass) {
    forall node | node in g.nodes && node.id in s.values && !IsFilter(node) ::
      s.values[node.id] == Object(Label(node.id))
  }

  lemma LabelledRun(
    g: Graph, c: Catalog, checks: FieldChecks, pick: Fields -> Fields, source: Node, order: seq<Id>)
    requires Runnable(g, c, checks, source) && TopologicalOrder(g, order)
    ensures var event := Object(Label(source.id));
      var s := FullRun(g, LabellingRun(c, pick), order, source.id, event);
      && Clean(s) && LiveState(g, LabellingRun(c, pick), order, order, source, event, s)
      && ReachableValued(g, source.id, s) && s.values.Keys == s.inputs.Keys && Labelled(g, s)
  {
    var cfg, event := LabellingRun(c, pick), Object(Label(source.id));
    OrderInNodes(g, order);
    LabelledClean(g, c, checks, pick, source, order);
    LiveRunReached(g, c, Labelling(), map[], pick, source, event, order);
    var s := FullRun(g, cfg, order, source.id, event);
    forall node | node in g.nodes && node.id in s.values && !IsFilter(node)
      ensures s.values[node.id] == Object(Label(node.id))
    {
      LabelledValue(g, c, checks, pick, source, s, node);
    }
  }

  lemma LabelledValue(
    g: Graph, c: Catalog, checks: FieldChecks, pick: Fields -> Fields, source: Node, s: Pass, node: Node)
    requires Runnable(g, c, checks, source) && Structural(g, source.id, Object(Label(source.id)), s)
    requires node in g.nodes && node.id in s.values && !IsFilter(node)
    requires Evaluated(g, LabellingRun(c, pick), s, node.id)
    ensures s.values[node.id] == Object(Label(node.id))
  {
    hide Reaches, ExecuteNode;
    SameIdSameNode(g, node, NodeOf(g.nodes, node.id));
    LabelledOutcome(c, node, FirstNodeInput(node, s.inputs[node.id], pick), s.values[node.id]);
  }

  ghost function Leading(g: Graph, v: Id): set<Id> {
    set u | u in NodeIds(g) && !Reaches(g, v, u)
  }

  lemma LeadingEntered(g: Graph, v: Id)
    requires EdgesClosed(g)
    ensures forall e | e in g.edges && e.to in Leading(g, v) :: e.from in Leading(g, v)
  {
    forall e | e in g.edges && e.to in Leading(g, v)
      ensures e.from in Leading(g, v)
    {
      LinkedReaches(g, e.from, e.to);
      if Reaches(g, v, e.from) {
        ReachesTransitive(g, v, e.from, e.to);
      }
    }
  }

  lemma LeadingFirst(g: Graph, order: seq<Id>, u: Id, v: Id)
    requires TopologicalOrder(g, order) && u in NodeIds(g) && v in NodeIds(g) && (u == v || !Reaches(g, v, u))
    ensures NotAfter(ToFront(g, order, Leading(g, v)), u, v)
  {
    var first, second := Keep(order, Leading(g, v)), Keep(order, Others(g, Leading(g, v)));
    ReachesSelf(g, v);
    KeepElements(order, Leading(g, v));
    KeepElements(order, Others(g, Leading(g, v)));
    assert u in Elements(order) && v in Elements(order);
    var j :| 0 <= j < |second| && second[j] == v;
    assert (first + second)[|first| + j] == v;
    if u != v {
      var i :| 0 <= i < |first| && first[i] == u;
      assert (first + second)[i] == u;
    }
  }

  /** A source that leads to no other is last along some topological order. */
  lemma LastAlong(g: Graph, order: seq<Id>, input: Id, e: Edge, n: Id, p: string) returns (moved: seq<Id>)
    requires TopologicalOrder(g, order) && EdgesClosed(g) && MayBeLast(g, input, e, n, p)
    ensures TopologicalOrder(g, moved)
    ensures forall f | FeedsFrom(g, ReachableSet(g, input), f, n, p) :: NotAfter(moved, f.from, e.from)
  {
    LeadingEntered(g, e.from);
    moved := ToFront(g, order, Leading(g, e.from));
    ToFrontTopological(g, order, Leading(g, e.from));
    forall f | FeedsFrom(g, ReachableSet(g, input), f, n, p)
      ensures NotAfter(moved, f.from, e.from)
    {
      LeadingFirst(g, order, f.from, e.from);
    }
  }

  /** If the order does not matter, a node has received the value of every source that may be last. */
  lemma ReceivesAny(
    g: Graph, c: Catalog, checks: FieldChecks, pick: Fields -> Fields, source: Node, order: seq<Id>, node: Node,
    p: string, e: Edge)
    requires Runnable(g, c, checks, source) && TopologicalOrder(g, order) && LiveOrderIndependent(g, c, source.id)
    requires node in g.nodes && node.id != source.id && Reaches(g, source.id, node.id)
    requires Reads(g, source.id, node, p) && MayBeLast(g, source.id, e, node.id, p)
    ensures ReceivesFrom(g, source.id, pick,
                         FullRun(g, LabellingRun(c, pick), order, source.id, Object(Label(source.id))), node, p, e)
  {
    var cfg, event := LabellingRun(c, pick), Object(Label(source.id));
    var moved := LastAlong(g, order, source.id, e, node.id, p);
    var s1, s2 := FullRun(g, cfg, order, source.id, event), FullRun(g, cfg, moved, source.id, event);
    LabelledRun(g, c, checks, pick, source, order);
    LabelledRun(g, c, checks, pick, source, moved);
    assert LiveRunsAgree(g, Live(c, Labelling(), map[], pick), order, moved, source.id, event);
    SourcesReachable(g, source.id, node.id, s2);
    var last := LiveRead(g, cfg, moved, moved, source, event, s2, node, p);
    NotAfterBoth(moved, e.from, last.from);
    SeenReceived(g, source.id, pick, s1, s2, node, p, last, e);
  }

  lemma SeenReceived(
    g: Graph, input: Id, pick: Fields -> Fields, s1: Pass, s2: Pass, node: Node, p: string, last: Edge, e: Edge)
    requires SameSeen(g, pick, s1, s2) && node in g.nodes && ReceivesFrom(g, input, pick, s2, node, p, last)
    requires last.from == e.from && MayBeLast(g, input, e, node.id, p)
    ensures ReceivesFrom(g, input, pick, s1, node, p, e)
  {
    hide MayBeLast;
  }

  // ---------- The labels are the origins ----------

  ghost function LabelIn(v: Value): Id {
    if exists id :: v == Object(Label(id)) then var id :| v == Object(Label(id)); id else ""
  }

  lemma LabelReads(id: Id)
    ensures LabelIn(Object(Label(id))) == id
  {
    assert forall other | Label(other) == Label(id) :: other in Label(id);
  }

  ghost function LabelOrigin(s: Pass): Id -> Id {
    (v: Id) => if v in s.values then LabelIn(s.values[v]) else v
  }

  /** The node has received the value of every source that may be last. */
  ghost predicate AnyReceived(g: Graph, input: Id, pick: Fields -> Fields, s: Pass, node: Node) {
    forall p, e | Reads(g, input, node, p) && MayBeLast(g, input, e, node.id, p) ::
      ReceivesFrom(g, input, pick, s, node, p, e)
  }

  lemma ReceivedOnce(node: Node, p: string, v: Value, w: Value)
    requires v.Object? && w.Object? && Received(node, p, v) == Received(node, p, w)
    ensures v == w
  {
    assert Received(node, p, v) == map["event" := v] ==> Received(node, p, v)["event"] == v;
  }

  /** So all those sources have one value, and with it one label. */
  lemma ReceivedOneOrigin(g: Graph, input: Id, pick: Fields -> Fields, s: Pass, node: Node)
    requires AnyReceived(g, input, pick, s, node) && forall n | n in s.values :: s.values[n].Object?
    ensures OneOrigin(g, input, LabelOrigin(s), node)
  {
    hide Reads, MayBeLast, LabelIn, Received;
    forall p, e, f
      | Reads(g, input, node, p) && MayBeLast(g, input, e, node.id, p) && MayBeLast(g, input, f, node.id, p)
      ensures LabelOrigin(s)(e.from) == LabelOrigin(s)(f.from)
    {
      ReceivedOnce(node, p, s.values[e.from], s.values[f.from]);
    }
  }

  lemma FilterHandsOn(g: Graph, cfg: Config, c: Catalog, ev: Evaluator, s: Pass, node: Node)
    requires cfg == Live(c, ev, map[], cfg.pick) && IsFilter(node) && node.id in s.values
      && Evaluated(g, cfg, s, node.id)
    requires NodeOf(g.nodes, node.id) == node
    ensures s.values[node.id] == Object(FirstNodeInput(node, s.inputs[node.id], cfg.pick))
  {
  }

  lemma ReceivedHasOrigin(g: Graph, input: Id, pick: Fields -> Fields, s: Pass, node: Node)
    requires AnyReceived(g, input, pick, s, node) && forall n | n in s.values :: s.values[n].Object?
    requires IsFilter(node) && node.id in s.values && node.id in s.inputs
    requires s.values[node.id] == Object(FirstNodeInput(node, s.inputs[node.id], pick))
    ensures HasOrigin(g, input, LabelOrigin(s), node)
  {
    hide Reads, MayBeLast, LabelIn;
  }

  lemma LabelledHasOrigin(g: Graph, input: Id, s: Pass, node: Node)
    requires Labelled(g, s) && node in g.nodes && node.id in s.values && !IsFilter(node)
    ensures HasOrigin(g, input, LabelOrigin(s), node)
  {
    LabelReads(node.id);
  }

  lemma LabelsTrace(
    g: Graph, c: Catalog, checks: FieldChecks, pick: Fields -> Fields, source: Node, order: seq<Id>, node: Node)
    requires Runnable(g, c, checks, source) && TopologicalOrder(g, order) && LiveOrderIndependent(g, c, source.id)
    requires node in g.nodes && Reaches(g, source.id, node.id)
    ensures var s := FullRun(g, LabellingRun(c, pick), order, source.id, Object(Label(source.id)));
      && HasOrigin(g, source.id, LabelOrigin(s), node)
      && (node.id != source.id ==> OneOrigin(g, source.id, LabelOrigin(s), node))
  {
    hide HasOrigin, OneOrigin, LabelOrigin, SlotSettled;
    var s := FullRun(g, LabellingRun(c, pick), order, source.id, Object(Label(source.id)));
    LabelledRun(g, c, checks, pick, source, order);
    if node.id == source.id {
      SameIdSameNode(g, node, source);
      LabelledHasOrigin(g, source.id, s, node);
    } else {
      forall p, e | Reads(g, source.id, node, p) && MayBeLast(g, source.id, e, node.id, p)
        ensures ReceivesFrom(g, source.id, pick, s, node, p, e)
      {
        ReceivesAny(g, c, checks, pick, source, order, node, p, e);
      }
      ReceivedOneOrigin(g, source.id, pick, s, node);
      if IsFilter(node) {
        SameIdSameNode(g, node, NodeOf(g.nodes, node.id));
        FilterHandsOn(g, LabellingRun(c, pick), c, Labelling(), s, node);
        ReceivedHasOrigin(g, source.id, pick, s, node);
      } else {
        LabelledHasOrigin(g, source.id, s, node);
      }
    }
  }

  // ---------- The decision ----------

  lemma IndependentTraceable(g: Graph, c: Catalog, checks: FieldChecks, source: Node, order: seq<Id>)
    requires Runnable(g, c, checks, source) && TopologicalOrder(g, order) && LiveOrderIndependent(g, c, source.id)
    ensures Traceable(g, source.id)
  {
    hide Runnable, LiveOrderIndependent, HasOrigin, OneOrigin;
    var pick := (f: Fields) => f;
    var s := FullRun(g, LabellingRun(c, pick), order, source.id, Object(Label(source.id)));
    forall node | node in g.nodes && Reaches(g, source.id, node.id)
      ensures HasOrigin(g, source.id, LabelOrigin(s), node)
      ensures node.id != source.id ==> OneOrigin(g, source.id, LabelOrigin(s), node)
    {
      LabelsTrace(g, c, checks, pick, source, order, node);
    }
    assert Traced(g, source.id, LabelOrigin(s));
  }

  /** No run that reaches a terminal is clean. */
  lemma TerminalNeverClean(
    g: Graph, c: Catalog, ev: Evaluator, latest: map<Id, Checkpoint>, pick: Fields -> Fields, source: Node,
    event: Value, order: seq<Id>)
    requires WellWired(g) && source in g.nodes && TopologicalOrder(g, order) && TerminalReached(g, source.id)
    ensures !Clean(FullRun(g, Live(c, ev, latest, pick), order, source.id, event))
  {
    hide Reaches, SlotSettled, Structural, ResumeNode, Run;
    var cfg := Live(c, ev, latest, pick);
    var s := FullRun(g, cfg, order, source.id, event);
    if Clean(s) {
      var node :| node in g.nodes && node.kind == Terminal && Reaches(g, source.id, node.id);
      FullRunSettled(g, cfg, order, source.id, event);
      ActivatesReachable(g, cfg, order, source.id, event);
      assert Evaluated(g, cfg, s, node.id);
      SameIdSameNode(g, node, NodeOf(g.nodes, node.id));
      TerminalSkips(c, ev, latest, node, FirstNodeInput(node, s.inputs[node.id], pick));
    }
  }

  lemma ValidFlowSetting(
    g: Graph, c: Catalog, checks: FieldChecks, publish: bool, latest: map<Id, Checkpoint>, source: Node, event: Value)
    requires ValidFlow(g, c, checks, publish) && source in g.nodes && IsInput(c, source)
    requires ObjectsStored(latest) && event.Object?
    ensures Setting(g, c, latest, source, event)
  {
    ValidFlowWellWired(g, c, checks, publish);
    forall node | node in g.nodes && IsInput(c, node)
      ensures node == source
    {
      SoleInput(c, g.nodes, node, source);
    }
  }

  lemma ValidFlowRunnable(g: Graph, c: Catalog, checks: FieldChecks, publish: bool, source: Node)
    requires ValidFlow(g, c, checks, publish) && source in g.nodes && IsInput(c, source)
      && !TerminalReached(g, source.id)
    ensures Runnable(g, c, checks, source)
  {
    ValidFlowSetting(g, c, checks, publish, map[], source, Object(Label(source.id)));
    forall node | node in g.nodes
      ensures node.kind != UnknownKind
    {
      assert NodeValid(node);
    }
  }

  /** Order independence of live runs, decided: on a validated Flow the clean live executions of one event, fresh or
      resumed, agree along all topological orders if and only if there are none, because a terminal is reached, or
      at every port that is read the values can be traced back through filters to one origin. */
  lemma LiveOrderDecided(g: Graph, c: Catalog, checks: FieldChecks, publish: bool, source: Node, order: seq<Id>)
    requires ValidFlow(g, c, checks, publish) && source in g.nodes && IsInput(c, source) && TopologicalOrder(g, order)
    ensures LiveOrderIndependent(g, c, source.id) <==> TerminalReached(g, source.id) || Traceable(g, source.id)
  {
    hide ValidFlow, Setting, Runnable, Traceable, TerminalReached, Clean, SameSeen;
    if TerminalReached(g, source.id) || Traceable(g, source.id) {
      ValidFlowWellWired(g, c, checks, publish);
      forall ev, latest, pick, o1, o2, event: Value
        | TopologicalOrder(g, o1) && TopologicalOrder(g, o2) && ObjectsStored(latest) && event.Object?
        ensures LiveRunsAgree(g, Live(c, ev, latest, pick), o1, o2, source.id, event)
      {
        if TerminalReached(g, source.id) {
          TerminalNeverClean(g, c, ev, latest, pick, source, event, o1);
        } else {
          ValidFlowSetting(g, c, checks, publish, latest, source, event);
          TraceableRunsAgree(g, c, ev, latest, pick, source, event, o1, o2);
        }
      }
    } else if LiveOrderIndependent(g, c, source.id) {
      ValidFlowRunnable(g, c, checks, publish, source);
      IndependentTraceable(g, c, checks, source, order);
    }
  }
}
