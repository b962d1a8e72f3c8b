/** What the entries of a trace say, from the kinds of the nodes and their field-level work alone: where a live run
    stops, and what a simulation does instead. */
module Outcomes {
  import opened Text
  import opened FlowGraph
  import opened TopologicalSort
  import opened Validation
  import opened Interpreter
  import opened Confluence
  import opened Execution

  // ---------- Traces ----------

  /** Every entry is what its node makes of the recorded input, and only the last one can have halted the run. */
  ghost predicate Traced(g: Graph, cfg: Config, s: Pass) {
    && (forall k | 0 <= k < |s.trace| ::
          && s.trace[k].id in NodeIds(g)
          && s.trace[k].outcome == cfg.eval(NodeOf(g.nodes, s.trace[k].id), s.trace[k].input))
    && (forall k | 0 <= k < |s.trace| - 1 :: !Halts(cfg, s.trace[k].outcome))
    && (s.halted <==> s.trace != [] && Halts(cfg, s.trace[|s.trace| - 1].outcome))
  }

  predicate Halts(cfg: Config, outcome: Outcome) {
    outcome.Failed? || (cfg.haltOnSkip && outcome.Skipped?)
  }

  lemma StepTraced(g: Graph, cfg: Config, s: Pass, id: Id)
    requires id in NodeIds(g) && Traced(g, cfg, s)
    ensures Traced(g, cfg, Step(g, cfg, s, id))
  {
    if !s.halted && id in s.inputs {
      var entry := Arrive(g, cfg, s, id);
      assert Step(g, cfg, s, id).trace == s.trace + [entry];
    }
  }

  lemma {:induction false} RunTraced(g: Graph, cfg: Config, order: seq<Id>, input: Id, event: Value)
    requires forall id | id in order :: id in NodeIds(g)
    ensures Traced(g, cfg, Run(g, cfg, order, Start(input, event)))
  {
    if order != [] {
      RunTraced(g, cfg, order[..|order| - 1], input, event);
      StepTraced(g, cfg, Run(g, cfg, order[..|order| - 1], Start(input, event)), order[|order| - 1]);
    }
  }

  // ---------- Where a live run stops ----------

  /** The node at which an entry was made. */
  function At(g: Graph, entry: Entry): Node
    requires entry.id in NodeIds(g)
  {
    NodeOf(g.nodes, entry.id)
  }

  predicate GenericOf(node: Node, kind: string) {
    node.kind == Generic && node.generic == Some(kind)
  }

  /** A condition filter that the input does not match. */
  predicate Unmatched(ev: Evaluator, node: Node, input: Fields) {
    GenericOf(node, CONDITION_FILTER) && ev.matches(node, input) == Some(false)
  }

  predicate SkipsAt(ev: Evaluator, node: Node, input: Fields) {
    Unmatched(ev, node, input) || node.kind == Terminal
  }

  /** What the mapping of a live run ends up with: the mapped fields, but for a blank description of an issue. */
  ghost predicate Filled(ev: Evaluator, node: Node, input: Fields, mapped: Fields, output: Fields) {
    if ev.fillsDescription(node) && ev.blank(FieldOf(mapped, "description"))
    then
      && "description" in output && output["description"] == ev.describe(input)
      && (forall f | f != "description" :: f in mapped <==> f in output)
      && (forall f | f != "description" && f in mapped :: output[f] == mapped[f])
    else output == mapped
  }

  /** A filter hands its input on if it matches; its own failure is one of evaluation. */
  predicate FilterEntry(ev: Evaluator, node: Node, entry: Entry) {
    match ev.matches(node, entry.input)
    case Some(true) => entry.outcome == Succeeded(Object(entry.input))
    case Some(false) => entry.outcome == Skipped
    case None => entry.outcome == Failed
  }

  predicate ParseEntry(ev: Evaluator, node: Node, entry: Entry) {
    match ev.parse(node, entry.input)
    case Some(output) => entry.outcome == Succeeded(Object(output))
    case None => entry.outcome == Failed
  }

  /** `filled` relates what was mapped to what the model then has to accept. */
  ghost predicate MappingEntry(ev: Evaluator, node: Node, entry: Entry, filled: (Fields, Fields) -> bool) {
    match ev.mapping(node, entry.input)
    case None => entry.outcome == Failed
    case Some(mapped) =>
      exists output :: filled(mapped, output)
        && entry.outcome == if ev.accepts(node, output) then Succeeded(Object(output)) else Failed
  }

  ghost predicate GenericEntry(ev: Evaluator, node: Node, entry: Entry, filled: (Fields, Fields) -> bool) {
    && (GenericOf(node, CONDITION_FILTER) ==> FilterEntry(ev, node, entry))
    && (GenericOf(node, PARSE_NORMALIZE) ==> ParseEntry(ev, node, entry))
    && (GenericOf(node, MAPPING_TEMPLATE) ==> MappingEntry(ev, node, entry, filled))
  }

  /** A registered connector of the catalog, other than an input. */
  predicate CallsOut(c: Catalog, node: Node) {
    node.kind == Connector && node.behavior.Some? && node.behavior.value in c
    && c[node.behavior.value].direction != Direction.Input
  }

  predicate TakesEvent(c: Catalog, node: Node) {
    node.kind == Connector && node.behavior.Some? && node.behavior.value in c
    && c[node.behavior.value].direction == Direction.Input
  }

  /** Nothing can be executed: an unconfigured or unknown node. */
  predicate Unsupported(c: Catalog, node: Node) {
    || node.kind == UnknownKind
    || (node.kind == Connector && (node.behavior.None? || node.behavior.value !in c))
    || (node.kind == Generic && node.generic !in
          {Some("parse-normalize"), Some("mapping-template"), Some("condition-filter")})
  }

  /** A connector with a record from an earlier run. */
  predicate Recorded(latest: map<Id, Checkpoint>, node: Node) {
    node.kind == Connector && node.behavior.Some? && node.id in latest
  }

  /** A connector without a record passes the event on or calls its provider. */
  predicate ConnectorEntry(c: Catalog, ev: Evaluator, node: Node, entry: Entry) {
    && (TakesEvent(c, node) ==> entry.outcome == Succeeded(FieldOf(entry.input, "event")))
    && (CallsOut(c, node) ==>
          entry.outcome ==
            (match ev.provider(node, entry.input) case Some(r) => Succeeded(Object(r)) case None => Failed))
  }

  /** What an entry of a live trace says. */
  ghost predicate LiveEntry(c: Catalog, ev: Evaluator, latest: map<Id, Checkpoint>, node: Node, entry: Entry) {
    && (entry.outcome == Skipped <==> SkipsAt(ev, node, entry.input))
    && (Recorded(latest, node) ==>
          entry.outcome == (match latest[node.id] case Success(Some(value)) => Succeeded(value) case _ => Bypassed))
    && (!Recorded(latest, node) ==> (Unsupported(c, node) ==> entry.outcome == Failed))
    && (!Recorded(latest, node) ==> ConnectorEntry(c, ev, node, entry))
    && GenericEntry(ev, node, entry, (mapped, output) => Filled(ev, node, entry.input, mapped, output))
  }

  lemma LiveMappingEntry(ev: Evaluator, node: Node, entry: Entry)
    requires entry.outcome == LiveMapping(ev, node, entry.input)
    ensures MappingEntry(ev, node, entry, (mapped, output) => Filled(ev, node, entry.input, mapped, output))
  {
    if ev.mapping(node, entry.input).Some? {
      var mapped := ev.mapping(node, entry.input).value;
      var output := if ev.fillsDescription(node) && ev.blank(FieldOf(mapped, "description"))
                    then mapped["description" := ev.describe(entry.input)] else mapped;
      assert Filled(ev, node, entry.input, mapped, output);
    }
  }

  lemma LiveOutcome(c: Catalog, ev: Evaluator, latest: map<Id, Checkpoint>, node: Node, entry: Entry)
    requires entry.outcome == ResumeNode(c, ev, latest, node, entry.input)
    ensures LiveEntry(c, ev, latest, node, entry)
  {
    if GenericOf(node, MAPPING_TEMPLATE) {
      LiveMappingEntry(ev, node, entry);
    }
  }

  /** Every entry of a live run, fresh or resumed, is as its node's kind, configuration and record say. It ends as
      skipped if and only if its last entry is a filter that did not match or a terminal; and nothing comes after
      such an entry. */
  lemma LiveTrace(
    g: Graph, c: Catalog, ev: Evaluator, latest: map<Id, Checkpoint>, pick: Fields -> Fields, order: seq<Id>, input: Id,
    event: Value)
    requires forall id | id in order :: id in NodeIds(g)
    ensures var s := Run(g, Live(c, ev, latest, pick), order, Start(input, event));
      && (forall k | 0 <= k < |s.trace| ::
            && s.trace[k].id in NodeIds(g) && LiveEntry(c, ev, latest, At(g, s.trace[k]), s.trace[k])
            && (SkipsAt(ev, At(g, s.trace[k]), s.trace[k].input) || s.trace[k].outcome == Failed ==>
                  k == |s.trace| - 1))
      && (s.halted <==> s.trace != [] && (Last(s).outcome == Skipped || Last(s).outcome == Failed))
      && (s.halted && Last(s).outcome == Skipped <==> s.trace != [] && SkipsAt(ev, At(g, Last(s)), Last(s).input))
  {
    var s := Run(g, Live(c, ev, latest, pick), order, Start(input, event));
    RunTraced(g, Live(c, ev, latest, pick), order, input, event);
    forall k | 0 <= k < |s.trace|
      ensures LiveEntry(c, ev, latest, At(g, s.trace[k]), s.trace[k])
    {
      LiveOutcome(c, ev, latest, At(g, s.trace[k]), s.trace[k]);
    }
  }

  function Last(s: Pass): Entry
    requires s.trace != []
  {
    s.trace[|s.trace| - 1]
  }

  /** The entry is a success of an output connector, of this run or of an earlier one. */
  predicate Outputs(c: Catalog, latest: map<Id, Checkpoint>, node: Node, outcome: Outcome) {
    if Recorded(latest, node) then latest[node.id] != Skip
    else
      && outcome != Skipped && outcome != Failed && outcome != Bypassed && node.kind == Connector
      && node.behavior.Some? && node.behavior.value in c && c[node.behavior.value].direction == Direction.Output
  }

  /** A run that nothing stopped completes if and only if one of its entries is such a success. */
  lemma NoOutputSays(g: Graph, c: Catalog, latest: map<Id, Checkpoint>, s: Pass)
    requires forall k | 0 <= k < |s.trace| :: s.trace[k].id in NodeIds(g)
    ensures NoneCounts(g, c, latest, s.trace)
      <==> forall k | 0 <= k < |s.trace| :: !Outputs(c, latest, At(g, s.trace[k]), s.trace[k].outcome)
  {
    forall k | 0 <= k < |s.trace|
      ensures CountsAsOutput(c, latest, At(g, s.trace[k]), s.trace[k].outcome)
        <==> Outputs(c, latest, At(g, s.trace[k]), s.trace[k].outcome)
    {
    }
    assert forall k | 0 <= k < |s.trace| :: s.trace[k] in s.trace;
  }

  // ---------- What a simulation does ----------

  /** What an entry of a simulated trace says: no provider is asked and no description filled in, outputs and
      terminals hand their input on. */
  ghost predicate SimulatedEntry(c: Catalog, ev: Evaluator, node: Node, entry: Entry) {
    && (entry.outcome == Skipped <==> Unmatched(ev, node, entry.input))
    && (Unsupported(c, node) ==> entry.outcome == Failed)
    && (node.kind == Terminal ==> entry.outcome == Succeeded(Object(entry.input)))
    && (TakesEvent(c, node) ==> entry.outcome == Succeeded(FieldOf(entry.input, "event")))
    && (CallsOut(c, node) ==> entry.outcome == Succeeded(Object(entry.input)))
    && GenericEntry(ev, node, entry, (mapped, output) => output == mapped)
  }

  lemma SimulatedOutcome(c: Catalog, ev: Evaluator, node: Node, entry: Entry)
    requires entry.outcome == SimulateNode(c, ev, node, entry.input)
    ensures SimulatedEntry(c, ev, node, entry)
  {
    if GenericOf(node, MAPPING_TEMPLATE) && ev.mapping(node, entry.input).Some? {
      var mapped := ev.mapping(node, entry.input).value;
      assert ((mapped, output) => output == mapped)(mapped, mapped);
    }
  }

  /** A node is active because it is the input, or because a node that leads to it succeeded. */
  ghost predicate Caused(g: Graph, input: Id, s: Pass, n: Id) {
    n == input || exists entry | entry in s.trace :: entry.outcome.Succeeded? && Leads(g.edges, entry.id, n)
  }

  ghost predicate AllCaused(g: Graph, input: Id, s: Pass) {
    forall n | n in s.inputs :: Caused(g, input, s, n)
  }

  lemma StepCaused(g: Graph, cfg: Config, input: Id, s: Pass, id: Id)
    requires id in NodeIds(g) && AllCaused(g, input, s)
    ensures AllCaused(g, input, Step(g, cfg, s, id))
  {
    var next := Step(g, cfg, s, id);
    if !s.halted && id in s.inputs {
      var entry := Arrive(g, cfg, s, id);
      assert next.trace == s.trace + [entry];
      forall n | n in next.inputs
        ensures Caused(g, input, next, n)
      {
        if entry.outcome.Succeeded? {
          DeliverAt(g.edges, id, entry.outcome.value, s.inputs, n, "");
        }
        assert entry in next.trace;
        if n in s.inputs && n != input {
          var found :| found in s.trace && found.outcome.Succeeded? && Leads(g.edges, found.id, n);
          assert found in next.trace;
        }
      }
    }
  }

  lemma {:induction false} RunCaused(g: Graph, cfg: Config, order: seq<Id>, input: Id, event: Value)
    requires forall id | id in order :: id in NodeIds(g)
    ensures AllCaused(g, input, Run(g, cfg, order, Start(input, event)))
  {
    if order != [] {
      RunCaused(g, cfg, order[..|order| - 1], input, event);
      StepCaused(g, cfg, input, Run(g, cfg, order[..|order| - 1], Start(input, event)), order[|order| - 1]);
    }
  }

  /** The trace has the nodes met so far, each once; and unless the run has halted, all that are active. */
  ghost predicate Visited(done: seq<Id>, s: Pass) {
    && (forall k | 0 <= k < |s.trace| :: s.trace[k].id in done)
    && (forall i, k | 0 <= i < k < |s.trace| :: s.trace[i].id != s.trace[k].id)
    && (!s.halted ==> forall n | n in done && n in s.inputs :: InTrace(s, n))
  }

  ghost predicate InTrace(s: Pass, n: Id) {
    exists k :: 0 <= k < |s.trace| && s.trace[k].id == n
  }

  lemma StepVisited(g: Graph, cfg: Config, order: seq<Id>, k: nat, s: Pass)
    requires TopologicalOrder(g, order) && k < |order| && order[k] in NodeIds(g) && Visited(order[..k], s)
    ensures Visited(order[..k + 1], Step(g, cfg, s, order[k]))
  {
    var id, next := order[k], Step(g, cfg, s, order[k]);
    TakeOneMore(order, k);
    assert id !in order[..k];
    if !s.halted && id in s.inputs {
      var entry := Arrive(g, cfg, s, id);
      assert next.trace == s.trace + [entry];
      assert next.trace[|s.trace|].id == id;
      forall n | n in order[..k + 1] && n in next.inputs
        ensures InTrace(next, n)
      {
        if n != id {
          if entry.outcome.Succeeded? {
            DoneNodesKeep(g, order, k, s.inputs, entry.outcome.value, n);
          }
          if InTrace(s, n) {
            var i :| 0 <= i < |s.trace| && s.trace[i].id == n;
            assert next.trace[i].id == n;
          }
        }
      }
    }
  }

  lemma {:induction false} RunVisited(g: Graph, cfg: Config, order: seq<Id>, k: nat, input: Id, event: Value)
    requires TopologicalOrder(g, order) && k <= |order| && forall id | id in order :: id in NodeIds(g)
    ensures Visited(order[..k], Run(g, cfg, order[..k], Start(input, event)))
  {
    if k > 0 {
      RunStep(g, cfg, order, k - 1, Start(input, event));
      RunVisited(g, cfg, order, k - 1, input, event);
      StepVisited(g, cfg, order, k - 1, Run(g, cfg, order[..k - 1], Start(input, event)));
    }
  }

  /** Every entry of a simulation is as its node's kind and configuration say, and only a failure ends it. A filter
      that does not match is a skip after which the run goes on: all that are active are visited, each once, and a
      node is active only because a node that succeeded leads to it. */
  lemma SimulatedTrace(
    g: Graph, c: Catalog, ev: Evaluator, pick: Fields -> Fields, order: seq<Id>, input: Id, event: Value)
    requires TopologicalOrder(g, order)
    ensures var s := FullRun(g, Simulated(c, ev, pick), order, input, event);
      && (forall k | 0 <= k < |s.trace| ::
            && s.trace[k].id in NodeIds(g) && SimulatedEntry(c, ev, At(g, s.trace[k]), s.trace[k])
            && (s.trace[k].outcome == Failed ==> k == |s.trace| - 1))
      && (s.halted <==> s.trace != [] && Last(s).outcome == Failed)
      && Visited(order, s) && AllCaused(g, input, s)
  {
    var s := FullRun(g, Simulated(c, ev, pick), order, input, event);
    OrderInNodes(g, order);
    RunTraced(g, Simulated(c, ev, pick), order, input, event);
    RunVisited(g, Simulated(c, ev, pick), order, |order|, input, event);
    RunCaused(g, Simulated(c, ev, pick), order, input, event);
    forall k | 0 <= k < |s.trace|
      ensures SimulatedEntry(c, ev, At(g, s.trace[k]), s.trace[k])
    {
      SimulatedOutcome(c, ev, At(g, s.trace[k]), s.trace[k]);
    }
  }
}
