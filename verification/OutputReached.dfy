/** Which nodes a live run that does not halt processes, fresh or resumed, and exactly when it has passed an output
    connector. */
module OutputReached {
  import opened Text
  import opened FlowGraph
  import opened TopologicalSort
  import opened Validation
  import opened Interpreter
  import opened Confluence
  import opened Execution

  // ---------- Where a run ends ----------

  function LastEntry(s: Pass): Entry
    requires s.trace != []
  {
    s.trace[|s.trace| - 1]
  }

  ghost predicate StoppedAt(g: Graph, cfg: Config, order: seq<Id>, k: nat, l: nat, s: Pass) {
    && s.trace != [] && l < k <= |order| && order[l] == LastEntry(s).id && order[l] in NodeIds(g)
    && LastEntry(s).outcome == cfg.eval(NodeOf(g.nodes, order[l]), LastEntry(s).input)
    && (forall m | l < m < k :: order[m] !in s.inputs)
    && (LastEntry(s).outcome.Succeeded? ==> forall n | Leads(g.edges, order[l], n) :: n in s.inputs)
    && (cfg.haltOnSkip ==> !LastEntry(s).outcome.Skipped?)
    && !LastEntry(s).outcome.Failed?
  }

  lemma StepStoppedAt(g: Graph, cfg: Config, order: seq<Id>, k: nat, l: nat, s: Pass) returns (l': nat)
    requires k < |order| && order[k] in NodeIds(g) && !s.halted
    requires order[k] !in s.inputs ==> StoppedAt(g, cfg, order, k, l, s)
    requires !Step(g, cfg, s, order[k]).halted
    ensures StoppedAt(g, cfg, order, k + 1, l', Step(g, cfg, s, order[k]))
  {
    var id := order[k];
    if id !in s.inputs {
      l' := l;
    } else {
      l' := k;
      var entry := Arrive(g, cfg, s, id);
      if entry.outcome.Succeeded? {
        forall n | Leads(g.edges, id, n)
          ensures n in Deliver(g.edges, id, entry.outcome.value, s.inputs)
        {
          DeliverAt(g.edges, id, entry.outcome.value, s.inputs, n, "");
        }
      }
    }
  }

  lemma {:induction false} RunStoppedAt(g: Graph, cfg: Config, order: seq<Id>, k: nat, s0: Pass, i: nat)
    returns (l: nat)
    requires forall id | id in order :: id in NodeIds(g)
    requires i < k <= |order| && order[i] in s0.inputs
    requires forall m | 0 <= m < i :: order[m] !in s0.inputs
    requires !Run(g, cfg, order[..k], s0).halted
    ensures StoppedAt(g, cfg, order, k, l, Run(g, cfg, order[..k], s0))
  {
    RunStep(g, cfg, order, k - 1, s0);
    var s := Run(g, cfg, order[..k - 1], s0);
    if k - 1 == i {
      UntouchedRun(g, cfg, order[..i], s0);
      l := StepStoppedAt(g, cfg, order, k - 1, 0, s);
    } else {
      l := RunStoppedAt(g, cfg, order, k - 1, s0, i);
      l := StepStoppedAt(g, cfg, order, k - 1, l, s);
    }
  }

  lemma {:induction false} UntouchedRun(g: Graph, cfg: Config, order: seq<Id>, s0: Pass)
    requires forall id | id in order :: id in NodeIds(g)
    requires forall id | id in order :: id !in s0.inputs
    ensures Run(g, cfg, order, s0) == s0
  {
    if order != [] {
      UntouchedRun(g, cfg, order[..|order| - 1], s0);
    }
  }

  /** A run that does not halt ends at a node without outgoing edges, or at a bypassed one. */
  lemma RunEnds(g: Graph, cfg: Config, order: seq<Id>, input: Id, event: Value)
    requires TopologicalOrder(g, order) && EdgesClosed(g) && input in NodeIds(g)
    requires !FullRun(g, cfg, order, input, event).halted
    ensures var s := FullRun(g, cfg, order, input, event);
      && s.trace != [] && LastEntry(s).id in NodeIds(g)
      && LastEntry(s).outcome == cfg.eval(NodeOf(g.nodes, LastEntry(s).id), LastEntry(s).input)
      && (LastEntry(s).outcome.Succeeded? ==> !HasOutgoing(g, LastEntry(s).id))
      && (cfg.haltOnSkip ==> !LastEntry(s).outcome.Skipped?) && !LastEntry(s).outcome.Failed?
  {
    OrderInNodes(g, order);
    assert input in Elements(order);
    var i :| 0 <= i < |order| && order[i] == input;
    var l := RunStoppedAt(g, cfg, order, |order|, Start(input, event), i);
    var s := FullRun(g, cfg, order, input, event);
    if LastEntry(s).outcome.Succeeded? && HasOutgoing(g, order[l]) {
      var e :| e in g.edges && e.from == order[l];
      assert Leads(g.edges, order[l], e.to);
    }
  }

  lemma {:induction false} ActiveReachable(g: Graph, c: Catalog, cfg: Config, order: seq<Id>, source: Node,
      event: Value)
    requires forall id | id in order :: id in NodeIds(g)
    requires EdgesClosed(g) && !HasDirectedCycle(g) && source in g.nodes && IsInput(c, source)
    ensures forall entry | entry in Run(g, cfg, order, Start(source.id, event)).trace :: ReachableFrom(g, c, entry.id)
  {
    if order != [] {
      var front := order[..|order| - 1];
      ActiveReachable(g, c, cfg, front, source, event);
      RunStructural(g, cfg, front, source.id, event);
      StepReachable(g, c, cfg, Run(g, cfg, front, Start(source.id, event)), source, event, order[|order| - 1]);
    }
  }

  lemma StepReachable(g: Graph, c: Catalog, cfg: Config, s: Pass, source: Node, event: Value, id: Id)
    requires id in NodeIds(g) && source in g.nodes && IsInput(c, source) && Structural(g, source.id, event, s)
    requires forall entry | entry in s.trace :: ReachableFrom(g, c, entry.id)
    ensures forall entry | entry in Step(g, cfg, s, id).trace :: ReachableFrom(g, c, entry.id)
  {
    if id in s.inputs {
      assert ActiveNode(g, source.id, s.inputs, id);
      TraceGrows(g, cfg, s, id);
    }
  }

  lemma TraceGrows(g: Graph, cfg: Config, s: Pass, id: Id)
    requires id in NodeIds(g) && id in s.inputs
    ensures forall entry | entry in Step(g, cfg, s, id).trace :: entry in s.trace || entry.id == id
  {
    var entry := Arrive(g, cfg, s, id);
    assert forall x | x in s.trace + [entry] :: x in s.trace || x == entry;
  }

  // ---------- The nodes processed ----------

  /** A checkpoint with nothing to pass on. */
  predicate Withheld(latest: map<Id, Checkpoint>, node: Node) {
    Resumes(latest, node) && (latest[node.id].Skip? || latest[node.id].value.None?)
  }

  /** A path whose nodes, but for the last, pass a value on. */
  ghost predicate OpenPath(g: Graph, latest: map<Id, Checkpoint>, path: seq<Id>) {
    && IsPath(g, path)
    && (forall i | 0 <= i < |path| :: path[i] in NodeIds(g)
          && (i < |path| - 1 ==> !Withheld(latest, NodeOf(g.nodes, path[i]))))
  }

  ghost predicate Open(g: Graph, latest: map<Id, Checkpoint>, input: Id, n: Id) {
    exists path :: OpenPath(g, latest, path) && path[0] == input && path[|path| - 1] == n
  }

  lemma OpenSelf(g: Graph, latest: map<Id, Checkpoint>, input: Id)
    requires input in NodeIds(g)
    ensures Open(g, latest, input, input)
  {
    assert OpenPath(g, latest, [input]);
  }

  lemma OpenExtends(g: Graph, latest: map<Id, Checkpoint>, input: Id, e: Edge)
    requires EdgesClosed(g) && e in g.edges && Open(g, latest, input, e.from)
    requires !Withheld(latest, NodeOf(g.nodes, e.from))
    ensures Open(g, latest, input, e.to)
  {
    var path :| OpenPath(g, latest, path) && path[0] == input && path[|path| - 1] == e.from;
    assert Linked(g, e.from, e.to);
    PathConcat(g, path, [e.from, e.to]);
    var longer := path + [e.from, e.to][1..];
    assert longer == path + [e.to];
    assert OpenPath(g, latest, longer);
  }

  /** Every node processed so far has its entry: bypassed where nothing is passed on, and otherwise successful. */
  ghost predicate Entered(g: Graph, latest: map<Id, Checkpoint>, s: Pass, n: Id)
    requires n in NodeIds(g)
  {
    exists entry | entry in s.trace ::
      && entry.id == n
      && if Withheld(latest, NodeOf(g.nodes, n)) then entry.outcome.Bypassed? else entry.outcome.Succeeded?
  }

  ghost predicate Progress(g: Graph, latest: map<Id, Checkpoint>, input: Id, done: seq<Id>, s: Pass) {
    && (forall n | n in s.inputs :: n in NodeIds(g) && Open(g, latest, input, n))
    && (forall n | n in done && n in s.inputs :: Entered(g, latest, s, n) && Forwarded(g, latest, s, n))
    && (forall entry | entry in s.trace :: entry.id in s.inputs)
  }

  ghost predicate Forwarded(g: Graph, latest: map<Id, Checkpoint>, s: Pass, n: Id)
    requires n in NodeIds(g)
  {
    !Withheld(latest, NodeOf(g.nodes, n)) ==> forall e | e in g.edges && e.from == n :: e.to in s.inputs
  }

  lemma LiveOutcome(c: Catalog, ev: Evaluator, latest: map<Id, Checkpoint>, node: Node, input: Fields)
    ensures ResumeNode(c, ev, latest, node, input).Bypassed? <==> Withheld(latest, node)
  {
  }

  lemma OutcomeEntered(g: Graph, latest: map<Id, Checkpoint>, s: Pass, entry: Entry)
    requires entry in s.trace && entry.id in NodeIds(g) && (entry.outcome.Bypassed? || entry.outcome.Succeeded?)
    requires entry.outcome.Bypassed? <==> Withheld(latest, NodeOf(g.nodes, entry.id))
    ensures Entered(g, latest, s, entry.id)
  {
  }

  lemma TraceKeepsEntered(g: Graph, latest: map<Id, Checkpoint>, s: Pass, next: Pass, entry: Entry, n: Id)
    requires n in NodeIds(g) && Entered(g, latest, s, n) && next.trace == s.trace + [entry]
    ensures Entered(g, latest, next, n)
  {
    var found :| found in s.trace && found.id == n
      && if Withheld(latest, NodeOf(g.nodes, n)) then found.outcome.Bypassed? else found.outcome.Succeeded?;
    assert found in next.trace;
  }

  lemma DeliverOpens(g: Graph, latest: map<Id, Checkpoint>, input: Id, inputs: map<Id, Fields>, id: Id, value: Value,
      n: Id)
    requires EdgesClosed(g) && id in inputs && id in NodeIds(g) && !Withheld(latest, NodeOf(g.nodes, id))
    requires forall m | m in inputs :: m in NodeIds(g) && Open(g, latest, input, m)
    ensures n in Deliver(g.edges, id, value, inputs) <==> n in inputs || Leads(g.edges, id, n)
    ensures n in Deliver(g.edges, id, value, inputs) ==> n in NodeIds(g) && Open(g, latest, input, n)
  {
    DeliverAt(g.edges, id, value, inputs, n, "");
    if Leads(g.edges, id, n) {
      var e :| e in g.edges && e.from == id && e.to == n;
      OpenExtends(g, latest, input, e);
    }
  }

  /** A successful node: its targets become active, earlier nodes stay as they were. */
  lemma SuccessProgress(
    g: Graph, latest: map<Id, Checkpoint>, order: seq<Id>, k: nat, input: Id, s: Pass, next: Pass, entry: Entry)
    requires TopologicalOrder(g, order) && EdgesClosed(g) && k < |order| && Progress(g, latest, input, order[..k], s)
    requires order[k] in s.inputs && entry.id == order[k] && entry.outcome.Succeeded?
    requires order[k] in NodeIds(g) && !Withheld(latest, NodeOf(g.nodes, order[k]))
    requires next.trace == s.trace + [entry] && next.inputs == Deliver(g.edges, order[k], entry.outcome.value, s.inputs)
    ensures Progress(g, latest, input, order[..k + 1], next)
  {
    hide Open, Withheld, TopologicalOrder;
    var id := order[k];
    TakeOneMore(order, k);
    forall n
      ensures n in next.inputs <==> n in s.inputs || Leads(g.edges, id, n)
      ensures n in next.inputs ==> n in NodeIds(g) && Open(g, latest, input, n)
    {
      DeliverOpens(g, latest, input, s.inputs, id, entry.outcome.value, n);
    }
    assert entry in next.trace;
    OutcomeEntered(g, latest, next, entry);
    assert forall e | e in g.edges && e.from == id :: Leads(g.edges, id, e.to);
    forall n | n in order[..k + 1] && n in next.inputs
      ensures Entered(g, latest, next, n) && Forwarded(g, latest, next, n)
    {
      if n != id {
        DoneNodesKeep(g, order, k, s.inputs, entry.outcome.value, n);
        TraceKeepsEntered(g, latest, s, next, entry, n);
      }
    }
    forall x | x in next.trace
      ensures x.id in next.inputs
    {
      assert x in s.trace || x == entry;
    }
  }

  lemma BypassProgress(
    g: Graph, latest: map<Id, Checkpoint>, input: Id, done: seq<Id>, s: Pass, next: Pass, entry: Entry)
    requires Progress(g, latest, input, done, s) && entry.id in s.inputs && entry.outcome.Bypassed?
    requires entry.id in NodeIds(g) && Withheld(latest, NodeOf(g.nodes, entry.id))
    requires next.trace == s.trace + [entry] && next.inputs == s.inputs
    ensures Progress(g, latest, input, done + [entry.id], next)
  {
    hide Open, Withheld;
    assert entry in next.trace;
    OutcomeEntered(g, latest, next, entry);
    forall n | n in done && n in next.inputs
      ensures Entered(g, latest, next, n) && Forwarded(g, latest, next, n)
    {
      TraceKeepsEntered(g, latest, s, next, entry, n);
    }
    forall x | x in next.trace
      ensures x.id in next.inputs
    {
      assert x in s.trace || x == entry;
    }
  }

  lemma StepProgress(
    g: Graph, c: Catalog, ev: Evaluator, latest: map<Id, Checkpoint>, pick: Fields -> Fields, order: seq<Id>, k: nat,
    input: Id, s: Pass)
    requires TopologicalOrder(g, order) && EdgesClosed(g) && k < |order| && order[k] in NodeIds(g)
    requires Progress(g, latest, input, order[..k], s) && !s.halted
    requires !Step(g, Live(c, ev, latest, pick), s, order[k]).halted
    ensures Progress(g, latest, input, order[..k + 1], Step(g, Live(c, ev, latest, pick), s, order[k]))
  {
    hide Open, Withheld, TopologicalOrder, Entered, Forwarded, ResumeNode;
    var cfg, id := Live(c, ev, latest, pick), order[k];
    TakeOneMore(order, k);
    if id in s.inputs {
      var entry := Arrive(g, cfg, s, id);
      LiveOutcome(c, ev, latest, NodeOf(g.nodes, id), entry.input);
      if entry.outcome.Bypassed? {
        BypassProgress(g, latest, input, order[..k], s, Step(g, cfg, s, id), entry);
      } else {
        SuccessProgress(g, latest, order, k, input, s, Step(g, cfg, s, id), entry);
      }
    }
  }

  lemma {:induction false} RunProgress(
    g: Graph, c: Catalog, ev: Evaluator, latest: map<Id, Checkpoint>, pick: Fields -> Fields, order: seq<Id>, k: nat,
    input: Id, event: Value)
    requires TopologicalOrder(g, order) && EdgesClosed(g) && input in NodeIds(g)
    requires forall id | id in order :: id in NodeIds(g)
    requires k <= |order| && !Run(g, Live(c, ev, latest, pick), order[..k], Start(input, event)).halted
    ensures Progress(g, latest, input, order[..k], Run(g, Live(c, ev, latest, pick), order[..k], Start(input, event)))
  {
    hide TopologicalOrder;
    var cfg, s0 := Live(c, ev, latest, pick), Start(input, event);
    if k == 0 {
      OpenSelf(g, latest, input);
    } else {
      RunStep(g, cfg, order, k - 1, s0);
      RunProgress(g, c, ev, latest, pick, order, k - 1, input, event);
      StepProgress(g, c, ev, latest, pick, order, k - 1, input, Run(g, cfg, order[..k - 1], s0));
    }
  }

  lemma {:induction false} OpenActive(g: Graph, latest: map<Id, Checkpoint>, s: Pass, path: seq<Id>)
    requires OpenPath(g, latest, path) && path[0] in s.inputs
    requires forall n | n in s.inputs :: n in NodeIds(g) && Forwarded(g, latest, s, n)
    ensures path[|path| - 1] in s.inputs
  {
    if |path| > 1 {
      var front := path[..|path| - 1];
      var e := LastEdge(g, path);
      assert OpenPath(g, latest, front);
      OpenActive(g, latest, s, front);
      assert !Withheld(latest, NodeOf(g.nodes, path[|path| - 2]));
    }
  }

  /** A live run that does not halt, fresh or resumed, processes exactly the nodes that an open path leads to, and
      bypasses exactly the checkpoints with nothing to pass on. */
  lemma ProcessesOpenNodes(
    g: Graph, c: Catalog, ev: Evaluator, latest: map<Id, Checkpoint>, pick: Fields -> Fields, order: seq<Id>, input: Id,
    event: Value)
    requires TopologicalOrder(g, order) && EdgesClosed(g) && input in NodeIds(g)
    requires !FullRun(g, Live(c, ev, latest, pick), order, input, event).halted
    ensures var s := FullRun(g, Live(c, ev, latest, pick), order, input, event);
      && (forall n :: n in s.inputs <==> Open(g, latest, input, n))
      && (forall n | n in s.inputs :: n in NodeIds(g) && Entered(g, latest, s, n))
      && (forall entry | entry in s.trace :: entry.id in s.inputs)
  {
    hide Entered, Withheld;
    var cfg := Live(c, ev, latest, pick);
    var s := FullRun(g, cfg, order, input, event);
    OrderInNodes(g, order);
    RunProgress(g, c, ev, latest, pick, order, |order|, input, event);
    assert forall n | n in s.inputs :: n in Elements(order);
    TopologicalOrderAcyclic(g, order);
    RunStructural(g, cfg, order, input, event);
    forall n | Open(g, latest, input, n)
      ensures n in s.inputs
    {
      var path :| OpenPath(g, latest, path) && path[0] == input && path[|path| - 1] == n;
      OpenActive(g, latest, s, path);
    }
  }

  // ---------- The output reached ----------

  /** The run has executed an output connector successfully, or found that an earlier attempt had. */
  ghost predicate OutputPassed(g: Graph, c: Catalog, latest: map<Id, Checkpoint>, s: Pass) {
    exists entry | entry in s.trace :: entry.id in NodeIds(g) && IsOutput(c, NodeOf(g.nodes, entry.id))
      && CountsAsOutput(c, latest, NodeOf(g.nodes, entry.id), entry.outcome)
  }

  /** The condition on the Flow and the checkpoints, before the run. */
  ghost predicate OutputOpen(g: Graph, c: Catalog, latest: map<Id, Checkpoint>, input: Id) {
    exists n | n in NodeIds(g) ::
      Open(g, latest, input, n) && IsOutput(c, NodeOf(g.nodes, n)) && (n in latest ==> latest[n].Success?)
  }

  lemma EntryPasses(g: Graph, c: Catalog, ev: Evaluator, latest: map<Id, Checkpoint>, s: Pass, n: Id)
    requires n in NodeIds(g) && Entered(g, latest, s, n) && IsOutput(c, NodeOf(g.nodes, n))
    requires n in latest ==> latest[n].Success?
    ensures OutputPassed(g, c, latest, s)
  {
  }

  /** For every Flow and all checkpoints: a live run that does not halt passes an output connector exactly if an open
      path leads to one that is not recorded as skipped. */
  lemma OutputPassedDecided(
    g: Graph, c: Catalog, ev: Evaluator, latest: map<Id, Checkpoint>, pick: Fields -> Fields, order: seq<Id>, input: Id,
    event: Value)
    requires TopologicalOrder(g, order) && EdgesClosed(g) && input in NodeIds(g)
    requires !FullRun(g, Live(c, ev, latest, pick), order, input, event).halted
    ensures OutputPassed(g, c, latest, FullRun(g, Live(c, ev, latest, pick), order, input, event))
      <==> OutputOpen(g, c, latest, input)
  {
    hide Open, Entered;
    var s := FullRun(g, Live(c, ev, latest, pick), order, input, event);
    ProcessesOpenNodes(g, c, ev, latest, pick, order, input, event);
    if OutputOpen(g, c, latest, input) {
      var n :| n in NodeIds(g) && Open(g, latest, input, n) && IsOutput(c, NodeOf(g.nodes, n))
        && (n in latest ==> latest[n].Success?);
      EntryPasses(g, c, ev, latest, s, n);
    }
    if OutputPassed(g, c, latest, s) {
      var entry :| entry in s.trace && entry.id in NodeIds(g) && IsOutput(c, NodeOf(g.nodes, entry.id))
        && CountsAsOutput(c, latest, NodeOf(g.nodes, entry.id), entry.outcome);
      assert Open(g, latest, input, entry.id);
    }
  }

  /** Connectors are never recorded as skipped: only filters and terminals skip. */
  predicate NoSkips(latest: map<Id, Checkpoint>) {
    forall id | id in latest :: latest[id].Success?
  }

  lemma ConnectorsNeverSkip(c: Catalog, ev: Evaluator, latest: map<Id, Checkpoint>, node: Node, input: Fields)
    requires node.kind == Connector
    ensures !ResumeNode(c, ev, latest, node, input).Skipped?
  {
  }

  /** Retention has cleared the snapshot of the input connector. */
  predicate Purged(latest: map<Id, Checkpoint>, source: Node) {
    source.id in latest && latest[source.id] == Success(None)
  }

  /** The last node of the run is an output connector, unless it is the input connector itself. */
  lemma LastIsOutput(g: Graph, c: Catalog, checks: FieldChecks, latest: map<Id, Checkpoint>, source: Node, node: Node,
      outcome: Outcome)
    requires ValidFlow(g, c, checks, true) && source in g.nodes && IsInput(c, source) && !Purged(latest, source)
    requires NoSkips(latest) && node in g.nodes && ReachableFrom(g, c, node.id)
    requires outcome.Succeeded? || outcome.Bypassed?
    requires outcome.Bypassed? <==> Withheld(latest, node)
    requires outcome.Succeeded? ==> !HasOutgoing(g, node.id) && node.kind != Terminal
    ensures IsOutput(c, node) && CountsAsOutput(c, latest, node, outcome)
  {
    if outcome.Succeeded? {
      assert MayEnd(g, c, node);
    } else {
      assert NodePublishable(c, checks, node);
      if IsInput(c, node) {
        SoleInput(c, g.nodes, node, source);
      }
    }
  }

  lemma NotPurgedPasses(
    g: Graph, c: Catalog, checks: FieldChecks, ev: Evaluator, latest: map<Id, Checkpoint>, pick: Fields -> Fields,
    order: seq<Id>, source: Node, event: Value)
    requires ValidFlow(g, c, checks, true) && source in g.nodes && IsInput(c, source) && EdgesClosed(g)
    requires TopologicalOrder(g, order) && NoSkips(latest) && !Purged(latest, source)
    requires !FullRun(g, Live(c, ev, latest, pick), order, source.id, event).halted
    ensures OutputPassed(g, c, latest, FullRun(g, Live(c, ev, latest, pick), order, source.id, event))
  {
    hide ValidFlow, ResumeNode, IsOutput, IsInput, Withheld, HasOutgoing;
    var cfg := Live(c, ev, latest, pick);
    var s := FullRun(g, cfg, order, source.id, event);
    OrderInNodes(g, order);
    TopologicalOrderAcyclic(g, order);
    RunEnds(g, cfg, order, source.id, event);
    ActiveReachable(g, c, cfg, order, source, event);
    var last := NodeOf(g.nodes, LastEntry(s).id);
    assert LastEntry(s) in s.trace;
    LiveOutcome(c, ev, latest, last, LastEntry(s).input);
    if last.kind == Terminal {
      TerminalSkips(c, ev, latest, last, LastEntry(s).input);
    }
    LastIsOutput(g, c, checks, latest, source, last, LastEntry(s).outcome);
  }

  lemma PurgedOpensNothing(g: Graph, c: Catalog, latest: map<Id, Checkpoint>, source: Node)
    requires UniqueNodeIds(g) && source in g.nodes && IsInput(c, source) && Purged(latest, source)
    ensures !OutputOpen(g, c, latest, source.id)
  {
    SameIdSameNode(g, source, NodeOf(g.nodes, source.id));
    forall n | Open(g, latest, source.id, n)
      ensures n == source.id
    {
      var path :| OpenPath(g, latest, path) && path[0] == source.id && path[|path| - 1] == n;
    }
  }

  /** On a publishable Flow a live run that neither fails nor skips has passed an output connector, unless, and only
      unless, retention has cleared the input connector's snapshot. */
  lemma CompletedReachedOutput(
    g: Graph, c: Catalog, checks: FieldChecks, ev: Evaluator, latest: map<Id, Checkpoint>, pick: Fields -> Fields,
    order: seq<Id>, source: Node, event: Value)
    requires ValidFlow(g, c, checks, true) && source in g.nodes && IsInput(c, source)
    requires TopologicalOrder(g, order) && NoSkips(latest)
    requires !FullRun(g, Live(c, ev, latest, pick), order, source.id, event).halted
    ensures OutputPassed(g, c, latest, FullRun(g, Live(c, ev, latest, pick), order, source.id, event))
      <==> !Purged(latest, source)
  {
    hide OutputPassed, OutputOpen, Purged;
    ValidFlowWellWired(g, c, checks, true);
    if Purged(latest, source) {
      OutputPassedDecided(g, c, ev, latest, pick, order, source.id, event);
      PurgedOpensNothing(g, c, latest, source);
    } else {
      NotPurgedPasses(g, c, checks, ev, latest, pick, order, source, event);
    }
  }

  /** The branch for a Flow that reached no output is dead: something always counts, if only the cleared checkpoint. */
  lemma NoOutputIsDead(
    g: Graph, c: Catalog, checks: FieldChecks, ev: Evaluator, latest: map<Id, Checkpoint>, pick: Fields -> Fields,
    order: seq<Id>, source: Node, event: Value)
    requires ValidFlow(g, c, checks, true) && source in g.nodes && IsInput(c, source)
    requires TopologicalOrder(g, order) && NoSkips(latest)
    requires !FullRun(g, Live(c, ev, latest, pick), order, source.id, event).halted
    ensures !NoneCounts(g, c, latest, FullRun(g, Live(c, ev, latest, pick), order, source.id, event).trace)
  {
    hide ValidFlow, Open;
    var s := FullRun(g, Live(c, ev, latest, pick), order, source.id, event);
    CompletedReachedOutput(g, c, checks, ev, latest, pick, order, source, event);
    if Purged(latest, source) {
      ValidFlowWellWired(g, c, checks, true);
      ProcessesOpenNodes(g, c, ev, latest, pick, order, source.id, event);
      OpenSelf(g, latest, source.id);
      SameIdSameNode(g, source, NodeOf(g.nodes, source.id));
      assert Entered(g, latest, s, source.id);
    }
  }
}
