/** What holds of whole executions: a simulation foretells them, and a resumed one repeats what the interrupted one
    did. */
module ExecutionProperties {
  import opened Text
  import opened FlowGraph
  import opened TopologicalSort
  import opened Validation
  import opened Interpreter
  import opened Confluence
  import opened Execution

  // ---------- A simulation foretells the live run ----------

  /** Same nodes with the same inputs, as far as the first trace goes. */
  ghost predicate TracePrefix(live: seq<Entry>, simulated: seq<Entry>) {
    && |live| <= |simulated|
    && forall i | 0 <= i < |live| :: live[i].id == simulated[i].id && live[i].input == simulated[i].input
  }

  ghost predicate OutputsAreLeaves(g: Graph, c: Catalog) {
    forall node | node in g.nodes && node.kind == Connector && !IsInput(c, node) :: !HasOutgoing(g, node.id)
  }

  ghost predicate DescriptionsMapped(ev: Evaluator) {
    forall node, input | ev.fillsDescription(node) && ev.mapping(node, input).Some? ::
      !ev.blank(FieldOf(ev.mapping(node, input).value, "description"))
  }

  /** Until the live run halts both runs are in step; after that the simulation only appends. */
  ghost predicate InStep(live: Pass, simulated: Pass) {
    && TracePrefix(live.trace, simulated.trace)
    && (!live.halted ==> !simulated.halted && live.inputs == simulated.inputs && |live.trace| == |simulated.trace|)
  }

  lemma {:induction false} NoDelivery(edges: seq<Edge>, id: Id, value: Value, inputs: map<Id, Fields>)
    requires forall e | e in edges :: e.from != id
    ensures Deliver(edges, id, value, inputs) == inputs
  {
    if edges != [] {
      NoDelivery(edges[..|edges| - 1], id, value, inputs);
    }
  }

  lemma SameOutcomes(c: Catalog, ev: Evaluator, node: Node, input: Fields)
    requires DescriptionsMapped(ev)
    requires node.kind != Terminal && (node.kind == Connector ==> IsInput(c, node))
    ensures ExecuteNode(c, ev, node, input) == SimulateNode(c, ev, node, input)
  {
  }

  lemma AfterInStep(g: Graph, live: Pass, simulated: Pass, id: Id, liveEntry: Entry, simEntry: Entry)
    requires InStep(live, simulated) && !live.halted
    requires liveEntry.id == simEntry.id && liveEntry.input == simEntry.input
    requires !liveEntry.outcome.Bypassed? && !simEntry.outcome.Bypassed?
    requires liveEntry.outcome.Succeeded? ==> simEntry.outcome.Succeeded?
    requires liveEntry.outcome.Succeeded? ==>
      Deliver(g.edges, id, liveEntry.outcome.value, live.inputs)
        == Deliver(g.edges, id, simEntry.outcome.value, simulated.inputs)
    ensures InStep(After(g, live, id, liveEntry, true), After(g, simulated, id, simEntry, false))
  {
    assert forall i | 0 <= i < |live.trace| :: (live.trace + [liveEntry])[i] == live.trace[i];
    assert forall i | 0 <= i < |simulated.trace| :: (simulated.trace + [simEntry])[i] == simulated.trace[i];
  }

  lemma OutcomesInStep(g: Graph, c: Catalog, ev: Evaluator, node: Node, input: Fields, inputs: map<Id, Fields>)
    requires OutputsAreLeaves(g, c) && DescriptionsMapped(ev) && node in g.nodes
    ensures var live, simulated := ExecuteNode(c, ev, node, input), SimulateNode(c, ev, node, input);
      && !live.Bypassed? && !simulated.Bypassed?
      && (live.Succeeded? ==> simulated.Succeeded?)
      && (live.Succeeded? ==>
            Deliver(g.edges, node.id, live.value, inputs) == Deliver(g.edges, node.id, simulated.value, inputs))
  {
    var live, simulated := ExecuteNode(c, ev, node, input), SimulateNode(c, ev, node, input);
    if node.kind == Connector && !IsInput(c, node) {
      if live.Succeeded? && simulated.Succeeded? {
        NoDelivery(g.edges, node.id, live.value, inputs);
        NoDelivery(g.edges, node.id, simulated.value, inputs);
      }
    } else if node.kind != Terminal {
      SameOutcomes(c, ev, node, input);
    }
  }

  lemma StepInStep(g: Graph, c: Catalog, ev: Evaluator, pick: Fields -> Fields, live: Pass, simulated: Pass, id: Id)
    requires OutputsAreLeaves(g, c) && DescriptionsMapped(ev) && id in NodeIds(g)
    requires InStep(live, simulated)
    ensures InStep(Step(g, Live(c, ev, map[], pick), live, id), Step(g, Simulated(c, ev, pick), simulated, id))
  {
    if live.halted {
      SimulatedAppends(g, Simulated(c, ev, pick), live, simulated, id);
    } else if id in live.inputs {
      var liveEntry := Arrive(g, Live(c, ev, map[], pick), live, id);
      var simEntry := Arrive(g, Simulated(c, ev, pick), simulated, id);
      OutcomesInStep(g, c, ev, NodeOf(g.nodes, id), liveEntry.input, live.inputs);
      AfterInStep(g, live, simulated, id, liveEntry, simEntry);
    }
  }

  lemma SimulatedAppends(g: Graph, cfg: Config, live: Pass, simulated: Pass, id: Id)
    requires id in NodeIds(g) && InStep(live, simulated) && live.halted
    ensures InStep(live, Step(g, cfg, simulated, id))
  {
  }

  /** Two interpreters agree: on a Flow whose output connectors are leaves and whose mapped descriptions are
      not blank, the nodes of a fresh live run are a prefix of the simulated ones, with equal inputs. */
  lemma {:induction false} SimulationForetells(
    g: Graph, c: Catalog, ev: Evaluator, pick: Fields -> Fields, order: seq<Id>, input: Id, event: Value)
    requires OutputsAreLeaves(g, c) && DescriptionsMapped(ev)
    requires forall id | id in order :: id in NodeIds(g)
    ensures InStep(Run(g, Live(c, ev, map[], pick), order, Start(input, event)),
                   Run(g, Simulated(c, ev, pick), order, Start(input, event)))
  {
    if order != [] {
      var front := order[..|order| - 1];
      SimulationForetells(g, c, ev, pick, front, input, event);
      StepInStep(g, c, ev, pick, Run(g, Live(c, ev, map[], pick), front, Start(input, event)),
                 Run(g, Simulated(c, ev, pick), front, Start(input, event)), order[|order| - 1]);
    }
  }

  // ---------- A resumed run repeats the interrupted one ----------

  /** The checkpoints hold the value of every connector that succeeded in the trace. */
  ghost predicate Recorded(g: Graph, latest: map<Id, Checkpoint>, trace: seq<Entry>) {
    forall entry | entry in trace && entry.id in NodeIds(g) && entry.outcome.Succeeded?
        && NodeOf(g.nodes, entry.id).kind == Connector ::
      entry.id in latest && latest[entry.id] == Success(Some(entry.outcome.value))
  }

  /** The two evaluators differ at most in what providers answer. */
  ghost predicate SameButProviders(ev: Evaluator, other: Evaluator) {
    other == ev.(provider := other.provider)
  }

  /** Whatever the providers would answer now, a run resumed from the checkpoints of an earlier one is in the
      same state after every prefix that the earlier one got through without failing or skipping. */
  lemma {:induction false} ResumeRepeats(
    g: Graph, c: Catalog, ev: Evaluator, other: Evaluator, latest: map<Id, Checkpoint>, pick: Fields -> Fields,
    order: seq<Id>, input: Id, event: Value)
    requires SameButProviders(ev, other)
    requires forall id | id in order :: id in NodeIds(g)
    requires Clean(Run(g, Live(c, ev, map[], pick), order, Start(input, event)))
    requires Recorded(g, latest, Run(g, Live(c, ev, map[], pick), order, Start(input, event)).trace)
    ensures Run(g, Live(c, other, latest, pick), order, Start(input, event))
         == Run(g, Live(c, ev, map[], pick), order, Start(input, event))
  {
    if order != [] {
      var front, id := order[..|order| - 1], order[|order| - 1];
      var s := Run(g, Live(c, ev, map[], pick), front, Start(input, event));
      StepClean(g, Live(c, ev, map[], pick), s, id);
      EarlierRecorded(g, Live(c, ev, map[], pick), latest, s, id);
      ResumeRepeats(g, c, ev, other, latest, pick, front, input, event);
      ResumeStep(g, c, ev, other, latest, pick, s, id);
    }
  }

  lemma EarlierRecorded(g: Graph, cfg: Config, latest: map<Id, Checkpoint>, s: Pass, id: Id)
    requires id in NodeIds(g) && Recorded(g, latest, Step(g, cfg, s, id).trace)
    ensures Recorded(g, latest, s.trace)
  {
    if !s.halted && id in s.inputs {
      var entry := Arrive(g, cfg, s, id);
      assert forall x | x in s.trace :: x in s.trace + [entry];
    }
  }

  /** One step of the resumed run does what the recorded one did. */
  lemma ResumeStep(
    g: Graph, c: Catalog, ev: Evaluator, other: Evaluator, latest: map<Id, Checkpoint>, pick: Fields -> Fields,
    s: Pass, id: Id)
    requires SameButProviders(ev, other) && id in NodeIds(g)
    requires Clean(Step(g, Live(c, ev, map[], pick), s, id))
    requires Recorded(g, latest, Step(g, Live(c, ev, map[], pick), s, id).trace)
    ensures Step(g, Live(c, other, latest, pick), s, id) == Step(g, Live(c, ev, map[], pick), s, id)
  {
    if !s.halted && id in s.inputs {
      var entry := Arrive(g, Live(c, ev, map[], pick), s, id);
      assert entry in s.trace + [entry];
      assert Step(g, Live(c, ev, map[], pick), s, id).trace == s.trace + [entry];
    }
  }
}
