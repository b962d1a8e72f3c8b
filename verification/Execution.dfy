/** The two interpreters: a live execution, which calls providers and resumes from checkpoints, and a
    simulation, which stops short of the providers. */
module Execution {
  import opened Text
  import opened FlowGraph
  import opened TopologicalSort
  import opened Validation
  import opened Interpreter
  import opened Confluence

  /** The field-level work of a node. None is an error. `fillsDescription` says that the node maps to the
      create-issue model; `describe` builds the description that such a node falls back to. */
  datatype Evaluator = Evaluator(
    parse: (Node, Fields) -> Option<Fields>,
    mapping: (Node, Fields) -> Option<Fields>,
    accepts: (Node, Fields) -> bool,
    matches: (Node, Fields) -> Option<bool>,
    fillsDescription: Node -> bool,
    blank: Value -> bool,
    describe: Fields -> Value,
    provider: (Node, Fields) -> Option<Fields>)

  /** A connector's latest record, when that record is a success or a skip. The value of a success is gone
      once retention has purged the snapshot. */
  datatype Checkpoint = Success(value: Option<Value>) | Skip

  function FieldOf(fields: Fields, name: string): Value {
    if name in fields then fields[name] else Null
  }

  // ---------- Evaluating one node ----------

  function LiveMapping(ev: Evaluator, node: Node, input: Fields): Outcome {
    match ev.mapping(node, input)
    case None => Failed
    case Some(output) =>
      var filled := if ev.fillsDescription(node) && ev.blank(FieldOf(output, "description"))
                    then output["description" := ev.describe(input)] else output;
      if ev.accepts(node, filled) then Succeeded(Object(filled)) else Failed
  }

  function SimulatedMapping(ev: Evaluator, node: Node, input: Fields): Outcome {
    match ev.mapping(node, input)
    case None => Failed
    case Some(output) => if ev.accepts(node, output) then Succeeded(Object(output)) else Failed
  }

  function Parsing(ev: Evaluator, node: Node, input: Fields): Outcome {
    match ev.parse(node, input)
    case None => Failed
    case Some(output) => Succeeded(Object(output))
  }

  function Filtering(ev: Evaluator, node: Node, input: Fields): Outcome {
    match ev.matches(node, input)
    case None => Failed
    case Some(matched) => if matched then Succeeded(Object(input)) else Skipped
  }

  /** executeNode. A terminal node is a skip, and a skip ends a live execution. */
  function ExecuteNode(c: Catalog, ev: Evaluator, node: Node, input: Fields): Outcome {
    match node.kind
    case Connector =>
      if node.behavior.None? || node.behavior.value !in c then Failed
      else if IsInput(c, node) then Succeeded(FieldOf(input, "event"))
      else (match ev.provider(node, input) case None => Failed case Some(result) => Succeeded(Object(result)))
    case Generic =>
      if node.generic.None? then Failed
      else if node.generic.value == PARSE_NORMALIZE then Parsing(ev, node, input)
      else if node.generic.value == MAPPING_TEMPLATE then LiveMapping(ev, node, input)
      else if node.generic.value == CONDITION_FILTER then Filtering(ev, node, input)
      else Failed
    case Terminal => Skipped
    case UnknownKind => Failed
  }

  /** simulateNode. Output connectors hand their input on; no provider is called. */
  function SimulateNode(c: Catalog, ev: Evaluator, node: Node, input: Fields): Outcome {
    match node.kind
    case Connector =>
      if node.behavior.None? || node.behavior.value !in c then Failed
      else if IsInput(c, node) then Succeeded(FieldOf(input, "event"))
      else Succeeded(Object(input))
    case Generic =>
      if node.generic.None? then Failed
      else if node.generic.value == PARSE_NORMALIZE then Parsing(ev, node, input)
      else if node.generic.value == MAPPING_TEMPLATE then SimulatedMapping(ev, node, input)
      else if node.generic.value == CONDITION_FILTER then Filtering(ev, node, input)
      else Failed
    case Terminal => Succeeded(Object(input))
    case UnknownKind => Failed
  }

  predicate Resumes(latest: map<Id, Checkpoint>, node: Node) {
    node.id in latest && node.kind == Connector && node.behavior.Some?
  }

  /** A checkpointed connector is not executed again: its recorded value is passed on, if it is still there. */
  function ResumeNode(c: Catalog, ev: Evaluator, latest: map<Id, Checkpoint>, node: Node, input: Fields): Outcome {
    if Resumes(latest, node) then
      match latest[node.id]
      case Success(Some(value)) => Succeeded(value)
      case Success(None) => Bypassed
      case Skip => Bypassed
    else ExecuteNode(c, ev, node, input)
  }

  lemma TerminalSkips(c: Catalog, ev: Evaluator, latest: map<Id, Checkpoint>, node: Node, input: Fields)
    requires node.kind == Terminal
    ensures ResumeNode(c, ev, latest, node, input) == Skipped
  {
  }

  function Live(c: Catalog, ev: Evaluator, latest: map<Id, Checkpoint>, pick: Fields -> Fields): Config {
    Config((node: Node, input: Fields) => ResumeNode(c, ev, latest, node, input), pick, true)
  }

  function Simulated(c: Catalog, ev: Evaluator, pick: Fields -> Fields): Config {
    Config((node: Node, input: Fields) => SimulateNode(c, ev, node, input), pick, false)
  }

  // ---------- The two loops ----------

  datatype Result = Completed | SkippedRun | FailedRun | NoOutput

  /** Whether the loop counts a processed node as output: a resumed success, or an executed output connector. */
  predicate CountsAsOutput(c: Catalog, latest: map<Id, Checkpoint>, node: Node, outcome: Outcome) {
    if Resumes(latest, node) then latest[node.id].Success? else outcome.Succeeded? && IsOutput(c, node)
  }

  predicate NoneCounts(g: Graph, c: Catalog, latest: map<Id, Checkpoint>, trace: seq<Entry>) {
    forall entry | entry in trace && entry.id in NodeIds(g) ::
      !CountsAsOutput(c, latest, NodeOf(g.nodes, entry.id), entry.outcome)
  }

  lemma OneMoreCounts(g: Graph, c: Catalog, latest: map<Id, Checkpoint>, trace: seq<Entry>, entry: Entry)
    requires entry.id in NodeIds(g)
    ensures NoneCounts(g, c, latest, trace + [entry]) <==>
      NoneCounts(g, c, latest, trace) && !CountsAsOutput(c, latest, NodeOf(g.nodes, entry.id), entry.outcome)
  {
    assert forall x :: x in trace + [entry] <==> x in trace || x == entry;
  }

  method Propagate(g: Graph, id: Id, value: Value, inputs0: map<Id, Fields>, active0: set<Id>)
    returns (inputs: map<Id, Fields>, active: set<Id>)
    requires active0 == inputs0.Keys
    ensures inputs == Deliver(g.edges, id, value, inputs0)
    ensures active == inputs.Keys
  {
    inputs, active := inputs0, active0;
    for k := 0 to |g.edges|
      invariant inputs == Deliver(g.edges[..k], id, value, inputs0)
      invariant active == inputs.Keys
    {
      var e := g.edges[k];
      assert g.edges[..k + 1][..k] == g.edges[..k];
      if e.from == id {
        inputs := inputs[e.to := Slots(inputs, e.to)[e.toPort := value]];
        active := active + {e.to};
      }
    }
    assert g.edges[..|g.edges|] == g.edges;
  }

  /** What the loop does with one active node. */
  method ProcessNode(g: Graph, c: Catalog, ev: Evaluator, latest: map<Id, Checkpoint>, pick: Fields -> Fields, id: Id,
                     inputs: map<Id, Fields>, active: set<Id>, trace: seq<Entry>, ghost values: map<Id, Value>)
    returns (inputs': map<Id, Fields>, active': set<Id>, trace': seq<Entry>, outcome: Outcome, counts: bool,
             ghost values': map<Id, Value>)
    requires id in NodeIds(g) && id in inputs && active == inputs.Keys
    ensures Pass(inputs', values', trace', outcome.Skipped? || outcome.Failed?)
         == Step(g, Live(c, ev, latest, pick), Pass(inputs, values, trace, false), id)
    ensures active' == inputs'.Keys
    ensures trace' == trace + [Arrive(g, Live(c, ev, latest, pick), Pass(inputs, values, trace, false), id)]
    ensures trace'[|trace|].outcome == outcome
    ensures counts <==> CountsAsOutput(c, latest, NodeOf(g.nodes, id), outcome)
  {
    var node := NodeOf(g.nodes, id);
    var nodeInput := FirstNodeInput(node, inputs[id], pick);
    outcome := ResumeNode(c, ev, latest, node, nodeInput);
    inputs', active', values' := inputs, active, values;
    trace' := trace + [Entry(id, nodeInput, outcome)];
    counts := CountsAsOutput(c, latest, node, outcome);
    if outcome.Succeeded? {
      inputs', active' := Propagate(g, id, outcome.value, inputs, active);
      values' := values[id := outcome.value];
    }
  }

  /** The loop of ExecuteInWorkspace: which nodes it processes, with what input and outcome, and how it ends. */
  method ExecutePass(g: Graph, c: Catalog, ev: Evaluator, latest: map<Id, Checkpoint>, pick: Fields -> Fields,
                     order: seq<Id>, input: Id, event: Value)
    returns (result: Result, trace: seq<Entry>)
    requires forall id | id in order :: id in NodeIds(g)
    ensures var s := Run(g, Live(c, ev, latest, pick), order, Start(input, event));
      && trace == s.trace
      && (result.Completed? || result.NoOutput? <==> !s.halted)
      && (result.SkippedRun? <==> s.halted && s.trace != [] && s.trace[|s.trace| - 1].outcome.Skipped?)
      && (result.NoOutput? <==> !s.halted && NoneCounts(g, c, latest, s.trace))
  {
    var cfg := Live(c, ev, latest, pick);
    var inputs := map[input := map["event" := event]];
    var active := {input};
    var outputCount := 0;
    trace := [];
    ghost var values: map<Id, Value> := map[];
    for k := 0 to |order|
      invariant Run(g, cfg, order[..k], Start(input, event)) == Pass(inputs, values, trace, false)
      invariant active == inputs.Keys
      invariant outputCount == 0 <==> NoneCounts(g, c, latest, trace)
    {
      var id := order[k];
      RunStep(g, cfg, order, k, Start(input, event));
      if id !in active {
        continue;
      }
      OneMoreCounts(g, c, latest, trace, Arrive(g, cfg, Pass(inputs, values, trace, false), id));
      var outcome, counts;
      inputs, active, trace, outcome, counts, values :=
        ProcessNode(g, c, ev, latest, pick, id, inputs, active, trace, values);
      if counts {
        outputCount := outputCount + 1;
      }
      if outcome.Skipped? || outcome.Failed? {
        HaltedRun(g, cfg, order, k + 1, Start(input, event));
        return if outcome.Skipped? then SkippedRun else FailedRun, trace;
      }
    }
    assert order[..|order|] == order;
    result := if outputCount == 0 then NoOutput else Completed;
  }

  lemma {:induction false} HaltedRun(g: Graph, cfg: Config, order: seq<Id>, k: nat, s: Pass)
    requires forall id | id in order :: id in NodeIds(g)
    requires k <= |order| && Run(g, cfg, order[..k], s).halted
    ensures Run(g, cfg, order, s) == Run(g, cfg, order[..k], s)
  {
    if k < |order| {
      assert order[..|order| - 1][..k] == order[..k];
      HaltedRun(g, cfg, order[..|order| - 1], k, s);
    } else {
      assert order[..k] == order;
    }
  }

  /** The loop of Simulate. */
  method SimulatePass(g: Graph, c: Catalog, ev: Evaluator, pick: Fields -> Fields, order: seq<Id>, input: Id,
      event: Value)
    returns (valid: bool, trace: seq<Entry>)
    requires forall id | id in order :: id in NodeIds(g)
    ensures var s := Run(g, Simulated(c, ev, pick), order, Start(input, event));
      trace == s.trace && valid == !s.halted
  {
    var cfg := Simulated(c, ev, pick);
    var inputs := map[input := map["event" := event]];
    var active := {input};
    trace := [];
    ghost var values: map<Id, Value> := map[];
    for k := 0 to |order|
      invariant Run(g, cfg, order[..k], Start(input, event)) == Pass(inputs, values, trace, false)
      invariant active == inputs.Keys
    {
      var id := order[k];
      RunStep(g, cfg, order, k, Start(input, event));
      if id !in active {
        continue;
      }
      var node := NodeOf(g.nodes, id);
      var nodeInput := FirstNodeInput(node, inputs[id], pick);
      var outcome := SimulateNode(c, ev, node, nodeInput);
      trace := trace + [Entry(id, nodeInput, outcome)];
      if outcome.Failed? {
        HaltedRun(g, cfg, order, k + 1, Start(input, event));
        return false, trace;
      }
      if outcome.Succeeded? {
        inputs, active := Propagate(g, id, outcome.value, inputs, active);
        values := values[id := outcome.value];
      }
    }
    assert order[..|order|] == order;
    valid := true;
  }
}
