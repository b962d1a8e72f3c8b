/** What the single pass computes when nothing fails or is skipped, and exactly when that does not depend on
    which topological order it follows. */
module Confluence {
  import opened Text
  import opened FlowGraph
  import opened TopologicalSort
  import opened Validation
  import opened Interpreter

  // ---------- The state a clean pass reaches ----------

  /** u stands at or before v. */
  ghost predicate NotAfter(order: seq<Id>, u: Id, v: Id) {
    exists i, j :: 0 <= i <= j < |order| && order[i] == u && order[j] == v
  }

  /** e feeds port p of n from one of `sources`. */
  predicate Feeds(g: Graph, sources: set<Id>, e: Edge, n: Id, p: string) {
    e in g.edges && e.to == n && e.toPort == p && e.from in sources
  }

  predicate Fed(g: Graph, sources: set<Id>, n: Id, p: string) {
    exists e | e in g.edges :: Feeds(g, sources, e, n, p)
  }

  ghost predicate FeedsLast(g: Graph, order: seq<Id>, sources: set<Id>, e: Edge, n: Id, p: string) {
    Feeds(g, sources, e, n, p) && forall f | Feeds(g, sources, f, n, p) :: NotAfter(order, f.from, e.from)
  }

  predicate Activated(g: Graph, sources: set<Id>, n: Id) {
    exists e | e in g.edges :: e.to == n && e.from in sources
  }

  /** A slot holds the value of its last source. */
  ghost predicate SlotSettled(g: Graph, order: seq<Id>, s: Pass, n: Id, p: string) {
    && (p in Slots(s.inputs, n) <==> Fed(g, s.values.Keys, n, p))
    && (p in Slots(s.inputs, n) ==>
          exists e :: FeedsLast(g, order, s.values.Keys, e, n, p) && Slots(s.inputs, n)[p] == s.values[e.from])
  }

  ghost predicate Evaluated(g: Graph, cfg: Config, s: Pass, n: Id)
    requires n in s.values
  {
    && n in NodeIds(g) && n in s.inputs
    && cfg.eval(NodeOf(g.nodes, n), FirstNodeInput(NodeOf(g.nodes, n), s.inputs[n], cfg.pick)) == Succeeded(s.values[n])
  }

  /** The local equations that a clean run satisfies once it has processed `done`. */
  ghost predicate Settled(g: Graph, cfg: Config, order: seq<Id>, done: seq<Id>, input: Id, s: Pass) {
    && (forall n :: n in s.inputs <==> n == input || Activated(g, s.values.Keys, n))
    && (forall n :: n in s.values <==> n in done && n in s.inputs)
    && (forall n | n in s.values :: Evaluated(g, cfg, s, n))
    && (forall n, p | n != input :: SlotSettled(g, order, s, n, p))
  }

  lemma NoEdgeToEarlier(g: Graph, order: seq<Id>, k: nat, n: Id)
    requires TopologicalOrder(g, order) && k < |order| && n in order[..k + 1]
    ensures !Leads(g.edges, order[k], n)
  {
    var j :| 0 <= j < k + 1 && order[..k + 1][j] == n;
    assert order[j] == n;
  }

  lemma SlotWritten(g: Graph, order: seq<Id>, s: Pass, next: Pass, id: Id, value: Value, n: Id, p: string)
    requires forall m | m in s.values :: NotAfter(order, m, id)
    requires NotAfter(order, id, id) && LeadsTo(g.edges, id, n, p)
    requires next.inputs == Deliver(g.edges, id, value, s.inputs) && next.values == s.values[id := value]
    ensures SlotSettled(g, order, next, n, p)
  {
    DeliverAt(g.edges, id, value, s.inputs, n, p);
    var e :| e in g.edges && e.from == id && e.to == n && e.toPort == p;
    assert Feeds(g, next.values.Keys, e, n, p);
    assert FeedsLast(g, order, next.values.Keys, e, n, p);
    assert next.values[e.from] == value;
  }

  lemma SlotKept(g: Graph, order: seq<Id>, s: Pass, next: Pass, id: Id, value: Value, n: Id, p: string)
    requires id !in s.values && !LeadsTo(g.edges, id, n, p)
    requires next.inputs == Deliver(g.edges, id, value, s.inputs) && next.values == s.values[id := value]
    requires SlotSettled(g, order, s, n, p)
    ensures SlotSettled(g, order, next, n, p)
  {
    DeliverAt(g.edges, id, value, s.inputs, n, p);
    assert forall f :: Feeds(g, next.values.Keys, f, n, p) <==> Feeds(g, s.values.Keys, f, n, p);
    assert Fed(g, next.values.Keys, n, p) <==> Fed(g, s.values.Keys, n, p);
    if p in Slots(s.inputs, n) {
      var e :| FeedsLast(g, order, s.values.Keys, e, n, p) && Slots(s.inputs, n)[p] == s.values[e.from];
      assert FeedsLast(g, order, next.values.Keys, e, n, p);
      assert next.values[e.from] == s.values[e.from];
    }
  }

  lemma ListedNotAfter(order: seq<Id>, k: nat, m: Id)
    requires k < |order| && m in order[..k + 1]
    ensures NotAfter(order, m, order[k])
  {
    var i :| 0 <= i < k + 1 && order[..k + 1][i] == m;
    assert order[i] == m;
  }

  lemma DeliverLeavesNode(edges: seq<Edge>, id: Id, value: Value, inputs: map<Id, Fields>, n: Id)
    requires n in inputs && !Leads(edges, id, n)
    ensures n in Deliver(edges, id, value, inputs) && Deliver(edges, id, value, inputs)[n] == inputs[n]
  {
    var after := Deliver(edges, id, value, inputs);
    forall p
      ensures n in after
      ensures p in after[n] <==> p in inputs[n]
      ensures p in after[n] ==> after[n][p] == inputs[n][p]
    {
      DeliverAt(edges, id, value, inputs, n, p);
      if LeadsTo(edges, id, n, p) {
        LeadsToLeads(edges, id, n, p);
      }
    }
  }

  lemma StepActive(g: Graph, input: Id, s: Pass, next: Pass, id: Id, value: Value, n: Id)
    requires n in s.inputs <==> n == input || Activated(g, s.values.Keys, n)
    requires next.inputs == Deliver(g.edges, id, value, s.inputs) && next.values == s.values[id := value]
    ensures n in next.inputs <==> n == input || Activated(g, next.values.Keys, n)
  {
    DeliverAt(g.edges, id, value, s.inputs, n, "");
    if Activated(g, next.values.Keys, n) {
      var e :| e in g.edges && e.to == n && e.from in next.values.Keys;
      assert e.from == id ==> Leads(g.edges, id, n);
      assert e.from != id ==> Activated(g, s.values.Keys, n);
    }
    if Leads(g.edges, id, n) {
      var e :| e in g.edges && e.from == id && e.to == n;
      assert Activated(g, next.values.Keys, n);
    }
    if Activated(g, s.values.Keys, n) {
      var e :| e in g.edges && e.to == n && e.from in s.values.Keys;
      assert e.from in next.values.Keys;
    }
  }

  /** Nodes processed already, the present one included, keep their inputs and gain no activation. */
  lemma DoneNodesKeep(g: Graph, order: seq<Id>, k: nat, inputs: map<Id, Fields>, value: Value, n: Id)
    requires TopologicalOrder(g, order) && k < |order| && n in order[..k + 1]
    ensures var after := Deliver(g.edges, order[k], value, inputs);
      (n in after <==> n in inputs) && (n in inputs ==> after[n] == inputs[n])
  {
    NoEdgeToEarlier(g, order, k, n);
    DeliverAt(g.edges, order[k], value, inputs, n, "");
    if n in inputs {
      DeliverLeavesNode(g.edges, order[k], value, inputs, n);
    }
  }

  lemma StepValues(g: Graph, cfg: Config, order: seq<Id>, k: nat, input: Id, s: Pass, next: Pass, value: Value)
    requires TopologicalOrder(g, order) && k < |order| && order[k] in NodeIds(g) && order[k] in s.inputs
    requires Settled(g, cfg, order, order[..k], input, s)
    requires Arrive(g, cfg, s, order[k]).outcome == Succeeded(value)
    requires next.inputs == Deliver(g.edges, order[k], value, s.inputs) && next.values == s.values[order[k] := value]
    ensures forall n :: n in next.values <==> n in order[..k + 1] && n in next.inputs
    ensures forall n | n in next.values :: Evaluated(g, cfg, next, n)
  {
    TakeOneMore(order, k);
    forall n | n in order[..k + 1]
      ensures (n in next.inputs <==> n in s.inputs) && (n in s.inputs ==> next.inputs[n] == s.inputs[n])
    {
      DoneNodesKeep(g, order, k, s.inputs, value, n);
    }
    forall n | n in next.values
      ensures Evaluated(g, cfg, next, n)
    {
      assert n != order[k] ==> Evaluated(g, cfg, s, n);
    }
  }

  lemma StepSlots(g: Graph, order: seq<Id>, k: nat, s: Pass, next: Pass, value: Value, n: Id, p: string)
    requires k < |order| && order[k] !in s.values && forall m | m in s.values :: m in order[..k + 1]
    requires next.inputs == Deliver(g.edges, order[k], value, s.inputs) && next.values == s.values[order[k] := value]
    requires SlotSettled(g, order, s, n, p)
    ensures SlotSettled(g, order, next, n, p)
  {
    if LeadsTo(g.edges, order[k], n, p) {
      forall m | m in s.values || m == order[k]
        ensures NotAfter(order, m, order[k])
      {
        TakeOneMore(order, k);
        ListedNotAfter(order, k, m);
      }
      SlotWritten(g, order, s, next, order[k], value, n, p);
    } else {
      SlotKept(g, order, s, next, order[k], value, n, p);
    }
  }

  lemma StepSettled(g: Graph, cfg: Config, order: seq<Id>, k: nat, input: Id, s: Pass)
    requires TopologicalOrder(g, order) && k < |order| && order[k] in NodeIds(g)
    requires Settled(g, cfg, order, order[..k], input, s) && !s.halted
    requires order[k] in s.inputs ==> Arrive(g, cfg, s, order[k]).outcome.Succeeded?
    ensures Settled(g, cfg, order, order[..k + 1], input, Step(g, cfg, s, order[k]))
  {
    var id := order[k];
    var next := Step(g, cfg, s, id);
    TakeOneMore(order, k);
    if id in s.inputs {
      var value := Arrive(g, cfg, s, id).outcome.value;
      forall n
        ensures n in next.inputs <==> n == input || Activated(g, next.values.Keys, n)
      {
        StepActive(g, input, s, next, id, value, n);
      }
      StepValues(g, cfg, order, k, input, s, next, value);
      assert id !in order[..k];
      forall n, p | n != input
        ensures SlotSettled(g, order, next, n, p)
      {
        StepSlots(g, order, k, s, next, value, n, p);
      }
    }
  }

  // ---------- Whole runs ----------

  lemma RunStep(g: Graph, cfg: Config, order: seq<Id>, k: nat, s: Pass)
    requires k < |order| && forall id | id in order :: id in NodeIds(g)
    ensures order[k] in NodeIds(g)
    ensures Run(g, cfg, order[..k + 1], s) == Step(g, cfg, Run(g, cfg, order[..k], s), order[k])
  {
    assert order[..k + 1][..k] == order[..k];
  }

  lemma StepClean(g: Graph, cfg: Config, s: Pass, id: Id)
    requires id in NodeIds(g)
    ensures Clean(Step(g, cfg, s, id)) <==> Clean(s) && (id in s.inputs ==> Arrive(g, cfg, s, id).outcome.Succeeded?)
  {
    if !s.halted && id in s.inputs {
      var entry := Arrive(g, cfg, s, id);
      assert Step(g, cfg, s, id).trace == s.trace + [entry];
      assert entry in Step(g, cfg, s, id).trace;
      assert forall x :: x in s.trace + [entry] <==> x in s.trace || x == entry;
    }
  }

  lemma {:induction false} RunSettled(g: Graph, cfg: Config, order: seq<Id>, k: nat, input: Id, event: Value)
    requires TopologicalOrder(g, order) && k <= |order|
    requires forall id | id in order :: id in NodeIds(g)
    requires Clean(Run(g, cfg, order[..k], Start(input, event)))
    ensures Settled(g, cfg, order, order[..k], input, Run(g, cfg, order[..k], Start(input, event)))
  {
    if k > 0 {
      RunStep(g, cfg, order, k - 1, Start(input, event));
      StepClean(g, cfg, Run(g, cfg, order[..k - 1], Start(input, event)), order[k - 1]);
      RunSettled(g, cfg, order, k - 1, input, event);
      StepSettled(g, cfg, order, k - 1, input, Run(g, cfg, order[..k - 1], Start(input, event)));
    }
  }

  lemma OrderInNodes(g: Graph, order: seq<Id>)
    requires TopologicalOrder(g, order)
    ensures forall id | id in order :: id in NodeIds(g)
    ensures order[..|order|] == order
  {
    assert forall id | id in order :: id in Elements(order);
  }

  ghost function FullRun(g: Graph, cfg: Config, order: seq<Id>, input: Id, event: Value): Pass
    requires TopologicalOrder(g, order)
  {
    OrderInNodes(g, order);
    Run(g, cfg, order, Start(input, event))
  }

  lemma FullRunSettled(g: Graph, cfg: Config, order: seq<Id>, input: Id, event: Value)
    requires TopologicalOrder(g, order) && EdgesClosed(g) && input in NodeIds(g)
    requires Clean(FullRun(g, cfg, order, input, event))
    ensures Settled(g, cfg, order, order, input, FullRun(g, cfg, order, input, event))
    ensures Structural(g, input, event, FullRun(g, cfg, order, input, event))
    ensures FullRun(g, cfg, order, input, event).values.Keys == FullRun(g, cfg, order, input, event).inputs.Keys
  {
    OrderInNodes(g, order);
    TopologicalOrderAcyclic(g, order);
    RunSettled(g, cfg, order, |order|, input, event);
    RunStructural(g, cfg, order, input, event);
    var s := FullRun(g, cfg, order, input, event);
    forall n | n in s.inputs
      ensures n in order
    {
      assert ActiveNode(g, input, s.inputs, n);
      assert n in Elements(order);
    }
  }

  /** The pass activates exactly the nodes that can be reached from the input node. */
  lemma ActivatesReachable(g: Graph, cfg: Config, order: seq<Id>, input: Id, event: Value)
    requires TopologicalOrder(g, order) && EdgesClosed(g) && input in NodeIds(g)
    requires Clean(FullRun(g, cfg, order, input, event))
    ensures forall n :: n in FullRun(g, cfg, order, input, event).values <==> Reaches(g, input, n)
  {
    FullRunSettled(g, cfg, order, input, event);
    var s := FullRun(g, cfg, order, input, event);
    forall n | Reaches(g, input, n)
      ensures n in s.values
    {
      var p :| PathFromTo(g, p, input, n);
      forall e | e in g.edges && e.from in s.values.Keys
        ensures e.to in s.values.Keys
      {
        assert Activated(g, s.values.Keys, e.to);
      }
      ClosedUnderEdges(g, s.values.Keys, p);
    }
    forall n | n in s.values
      ensures Reaches(g, input, n)
    {
      assert ActiveNode(g, input, s.inputs, n);
    }
  }

  // ---------- One result for every order ----------

  /** Every port that a reachable node feeds has a last source: one that all its other sources lead to. */
  ghost predicate HasLastSource(g: Graph, sources: iset<Id>, n: Id, p: string) {
    exists z: Edge :: IsLastSource(g, sources, z, n, p)
  }

  ghost predicate IsLastSource(g: Graph, sources: iset<Id>, z: Edge, n: Id, p: string) {
    FeedsFrom(g, sources, z, n, p) && forall f: Edge | FeedsFrom(g, sources, f, n, p) :: Reaches(g, f.from, z.from)
  }

  ghost predicate FeedsFrom(g: Graph, sources: iset<Id>, e: Edge, n: Id, p: string) {
    e in g.edges && e.to == n && e.toPort == p && e.from in sources
  }

  ghost function ReachableSet(g: Graph, input: Id): iset<Id> {
    iset n | Reaches(g, input, n)
  }

  ghost predicate LastSources(g: Graph, input: Id) {
    forall n, p, e | n != input && FeedsFrom(g, ReachableSet(g, input), e, n, p) ::
      HasLastSource(g, ReachableSet(g, input), n, p)
  }

  /** Two runs reach the same nodes with the same inputs and values. */
  ghost predicate SameResult(s: Pass, t: Pass) {
    s.inputs == t.inputs && s.values == t.values
  }

  ghost predicate RunsAgree(g: Graph, cfg: Config, o1: seq<Id>, o2: seq<Id>, input: Id, event: Value)
    requires TopologicalOrder(g, o1) && TopologicalOrder(g, o2)
  {
    Clean(FullRun(g, cfg, o1, input, event)) ==>
      && Clean(FullRun(g, cfg, o2, input, event))
      && SameResult(FullRun(g, cfg, o1, input, event), FullRun(g, cfg, o2, input, event))
  }

  /** No evaluator, event or topological order can tell two error-free runs apart. */
  ghost predicate OrderIndependent(g: Graph, input: Id) {
    forall cfg, o1, o2, event | TopologicalOrder(g, o1) && TopologicalOrder(g, o2) ::
      RunsAgree(g, cfg, o1, o2, input, event)
  }

  lemma NotAfterBoth(order: seq<Id>, u: Id, v: Id)
    requires Distinct(order) && NotAfter(order, u, v) && NotAfter(order, v, u)
    ensures u == v
  {
  }

  lemma ReachesNotAfter(g: Graph, order: seq<Id>, u: Id, v: Id)
    requires TopologicalOrder(g, order) && EdgesClosed(g) && Reaches(g, u, v) && u in NodeIds(g) && v in NodeIds(g)
    ensures NotAfter(order, u, v)
  {
    var p :| PathFromTo(g, p, u, v);
    assert u in Elements(order) && v in Elements(order);
    var i :| 0 <= i < |order| && order[i] == u;
    var j :| 0 <= j < |order| && order[j] == v;
    PathClimbs(g, order, p, i, j);
  }

  /** The last source in any order is the one all the others lead to. */
  lemma LastFeedIsLastSource(g: Graph, order: seq<Id>, sources: set<Id>, reachable: iset<Id>, e: Edge, z: Edge, n: Id,
      p: string)
    requires TopologicalOrder(g, order) && EdgesClosed(g)
    requires FeedsLast(g, order, sources, e, n, p)
    requires forall f | f in g.edges && f.to == n :: f.from in sources <==> f.from in reachable
    requires IsLastSource(g, reachable, z, n, p)
    ensures e.from == z.from
  {
    assert FeedsFrom(g, reachable, e, n, p) && Feeds(g, sources, z, n, p);
    ReachesNotAfter(g, order, e.from, z.from);
    NotAfterBoth(order, e.from, z.from);
  }

  /** A slot holds the value of its last source. */
  ghost predicate SlotCanonical(g: Graph, reachable: iset<Id>, s: Pass, n: Id, p: string) {
    && (p in Slots(s.inputs, n) <==> Fed(g, s.values.Keys, n, p))
    && forall z | p in Slots(s.inputs, n) && IsLastSource(g, reachable, z, n, p) ::
         z.from in s.values && Slots(s.inputs, n)[p] == s.values[z.from]
  }

  lemma SettledCanonical(g: Graph, order: seq<Id>, reachable: iset<Id>, s: Pass, n: Id, p: string)
    requires SlotSettled(g, order, s, n, p)
    requires forall e, z | FeedsLast(g, order, s.values.Keys, e, n, p) && IsLastSource(g, reachable, z, n, p) ::
      e.from == z.from
    ensures SlotCanonical(g, reachable, s, n, p)
  {
  }

  lemma SlotsMatch(g: Graph, input: Id, s1: Pass, s2: Pass, n: Id, p: string)
    requires LastSources(g, input) && n != input
    requires forall m | m in s1.values :: Reaches(g, input, m)
    requires forall f | f in g.edges && f.to == n :: f.from in s1.values <==> f.from in s2.values
    requires forall m | m in s2.values :: m in s1.values && s1.values[m] == s2.values[m]
    requires SlotCanonical(g, ReachableSet(g, input), s1, n, p) && SlotCanonical(g, ReachableSet(g, input), s2, n, p)
    ensures p in Slots(s1.inputs, n) <==> p in Slots(s2.inputs, n)
    ensures p in Slots(s1.inputs, n) ==> Slots(s1.inputs, n)[p] == Slots(s2.inputs, n)[p]
  {
    assert forall f :: Feeds(g, s1.values.Keys, f, n, p) <==> Feeds(g, s2.values.Keys, f, n, p);
    assert Fed(g, s1.values.Keys, n, p) <==> Fed(g, s2.values.Keys, n, p);
    if p in Slots(s1.inputs, n) {
      var e :| e in g.edges && Feeds(g, s1.values.Keys, e, n, p);
      assert FeedsFrom(g, ReachableSet(g, input), e, n, p);
      assert HasLastSource(g, ReachableSet(g, input), n, p);
      var z :| IsLastSource(g, ReachableSet(g, input), z, n, p);
    }
  }

  /** After its first nodes, the second run has done what the first run did at those nodes. */
  ghost predicate ValuesAgree(done: seq<Id>, s1: Pass, s2: Pass) {
    && (forall n | n in done :: n in s1.values <==> n in s2.values)
    && (forall n | n in s2.values :: n in s1.values && s1.values[n] == s2.values[n])
  }

  lemma PredecessorsDone(g: Graph, order: seq<Id>, k: nat, n: Id)
    requires TopologicalOrder(g, order) && EdgesClosed(g) && k < |order|
    requires n in order[..k + 1]
    ensures forall e | e in g.edges && e.to == n :: e.from in order[..k]
  {
    var j :| 0 <= j < k + 1 && order[..k + 1][j] == n;
    assert order[j] == n;
    forall e | e in g.edges && e.to == n
      ensures e.from in order[..k]
    {
      assert e.from in Elements(order);
      var i :| 0 <= i < |order| && order[i] == e.from;
      assert i < j;
      assert order[..k][i] == e.from;
    }
  }

  lemma NodeMatches(g: Graph, input: Id, s1: Pass, s2: Pass, n: Id)
    requires LastSources(g, input)
    requires input in s1.inputs && input in s2.inputs && s1.inputs[input] == s2.inputs[input]
    requires forall m | m in s1.values :: Reaches(g, input, m)
    requires forall f | f in g.edges && f.to == n :: f.from in s1.values <==> f.from in s2.values
    requires forall m | m in s2.values :: m in s1.values && s1.values[m] == s2.values[m]
    requires n in s1.inputs <==> n == input || Activated(g, s1.values.Keys, n)
    requires n in s2.inputs <==> n == input || Activated(g, s2.values.Keys, n)
    requires n != input ==> forall p :: SlotCanonical(g, ReachableSet(g, input), s1, n, p)
    requires n != input ==> forall p :: SlotCanonical(g, ReachableSet(g, input), s2, n, p)
    ensures n in s1.inputs <==> n in s2.inputs
    ensures n in s1.inputs ==> s1.inputs[n] == s2.inputs[n]
  {
    assert Activated(g, s1.values.Keys, n) <==> Activated(g, s2.values.Keys, n);
    if n != input && n in s1.inputs {
      forall p
        ensures p in s1.inputs[n] <==> p in s2.inputs[n]
        ensures p in s1.inputs[n] ==> s1.inputs[n][p] == s2.inputs[n][p]
      {
        SlotsMatch(g, input, s1, s2, n, p);
      }
    }
  }

  lemma AllCanonical(g: Graph, cfg: Config, order: seq<Id>, done: seq<Id>, input: Id, s: Pass, n: Id)
    requires TopologicalOrder(g, order) && EdgesClosed(g) && n != input
    requires Settled(g, cfg, order, done, input, s)
    requires forall f | f in g.edges && f.to == n :: f.from in s.values <==> Reaches(g, input, f.from)
    ensures forall p :: SlotCanonical(g, ReachableSet(g, input), s, n, p)
  {
    forall p
      ensures SlotCanonical(g, ReachableSet(g, input), s, n, p)
    {
      assert SlotSettled(g, order, s, n, p);
      forall e, z | FeedsLast(g, order, s.values.Keys, e, n, p) && IsLastSource(g, ReachableSet(g, input), z, n, p)
        ensures e.from == z.from
      {
        LastFeedIsLastSource(g, order, s.values.Keys, ReachableSet(g, input), e, z, n, p);
      }
      SettledCanonical(g, order, ReachableSet(g, input), s, n, p);
    }
  }

  lemma OutcomeMatches(g: Graph, cfg: Config, input: Id, s1: Pass, s2: Pass, id: Id)
    requires LastSources(g, input) && id in NodeIds(g)
    requires input in s1.inputs && input in s2.inputs && s1.inputs[input] == s2.inputs[input]
    requires forall m :: m in s1.values <==> Reaches(g, input, m)
    requires forall f | f in g.edges && f.to == id :: f.from in s1.values <==> f.from in s2.values
    requires forall m | m in s2.values :: m in s1.values && s1.values[m] == s2.values[m]
    requires id in s1.values <==> id in s1.inputs
    requires id in s1.values ==> Evaluated(g, cfg, s1, id)
    requires id in s1.inputs <==> id == input || Activated(g, s1.values.Keys, id)
    requires id in s2.inputs <==> id == input || Activated(g, s2.values.Keys, id)
    requires id != input ==> forall p :: SlotCanonical(g, ReachableSet(g, input), s1, id, p)
    requires id != input ==> forall p :: SlotCanonical(g, ReachableSet(g, input), s2, id, p)
    ensures id in s1.values <==> id in s2.inputs
    ensures id in s2.inputs ==> Arrive(g, cfg, s2, id).outcome == Succeeded(s1.values[id])
  {
    NodeMatches(g, input, s1, s2, id);
  }

  lemma NextNodeMatches(g: Graph, cfg: Config, o1: seq<Id>, o2: seq<Id>, k: nat, input: Id, s1: Pass, s2: Pass)
    requires TopologicalOrder(g, o1) && TopologicalOrder(g, o2) && EdgesClosed(g) && LastSources(g, input)
    requires k < |o2| && o2[k] in NodeIds(g)
    requires forall m :: m in s1.values <==> Reaches(g, input, m)
    requires input in s1.inputs && input in s2.inputs && s1.inputs[input] == s2.inputs[input]
    requires Settled(g, cfg, o1, o1, input, s1) && s1.values.Keys == s1.inputs.Keys
    requires Settled(g, cfg, o2, o2[..k], input, s2) && ValuesAgree(o2[..k], s1, s2)
    ensures o2[k] in s1.values <==> o2[k] in s2.inputs
    ensures o2[k] in s2.inputs ==> Arrive(g, cfg, s2, o2[k]).outcome == Succeeded(s1.values[o2[k]])
  {
    var id := o2[k];
    TakeOneMore(o2, k);
    PredecessorsDone(g, o2, k, id);
    if id != input {
      AllCanonical(g, cfg, o1, o1, input, s1, id);
      AllCanonical(g, cfg, o2, o2[..k], input, s2, id);
    }
    OutcomeMatches(g, cfg, input, s1, s2, id);
  }

  ghost predicate Follows(g: Graph, s1: Pass, done: seq<Id>, s2: Pass) {
    Clean(s2) && ValuesAgree(done, s1, s2)
  }

  lemma FollowsOneMore(g: Graph, cfg: Config, o1: seq<Id>, o2: seq<Id>, k: nat, input: Id, event: Value)
    requires TopologicalOrder(g, o1) && TopologicalOrder(g, o2) && EdgesClosed(g) && input in NodeIds(g)
    requires forall id | id in o2 :: id in NodeIds(g)
    requires LastSources(g, input) && k < |o2|
    requires Clean(FullRun(g, cfg, o1, input, event))
    requires Follows(g, FullRun(g, cfg, o1, input, event), o2[..k], Run(g, cfg, o2[..k], Start(input, event)))
    ensures o2[k] in NodeIds(g)
    ensures Follows(g, FullRun(g, cfg, o1, input, event), o2[..k] + [o2[k]],
                    Step(g, cfg, Run(g, cfg, o2[..k], Start(input, event)), o2[k]))
  {
    var s1, s2 := FullRun(g, cfg, o1, input, event), Run(g, cfg, o2[..k], Start(input, event));
    var id := o2[k];
    FullRunSettled(g, cfg, o1, input, event);
    ActivatesReachable(g, cfg, o1, input, event);
    TopologicalOrderAcyclic(g, o2);
    RunSettled(g, cfg, o2, k, input, event);
    RunStructural(g, cfg, o2[..k], input, event);
    NextNodeMatches(g, cfg, o1, o2, k, input, s1, s2);
    StepClean(g, cfg, s2, id);
    assert id !in o2[..k];
    ExtendValuesAgree(g, cfg, o2[..k], id, s1, s2);
  }

  lemma {:induction false} SecondRunFollows(g: Graph, cfg: Config, o1: seq<Id>, o2: seq<Id>, k: nat, input: Id,
      event: Value)
    requires TopologicalOrder(g, o1) && TopologicalOrder(g, o2) && EdgesClosed(g) && input in NodeIds(g)
    requires forall id | id in o2 :: id in NodeIds(g)
    requires LastSources(g, input) && k <= |o2|
    requires Clean(FullRun(g, cfg, o1, input, event))
    ensures Follows(g, FullRun(g, cfg, o1, input, event), o2[..k], Run(g, cfg, o2[..k], Start(input, event)))
  {
    if k > 0 {
      SecondRunFollows(g, cfg, o1, o2, k - 1, input, event);
      FollowsOneMore(g, cfg, o1, o2, k - 1, input, event);
      TakeOneMore(o2, k - 1);
      RunStep(g, cfg, o2, k - 1, Start(input, event));
    }
  }

  lemma ExtendValuesAgree(g: Graph, cfg: Config, done: seq<Id>, id: Id, s1: Pass, s2: Pass)
    requires id in NodeIds(g) && !s2.halted && ValuesAgree(done, s1, s2)
    requires id !in s2.values
    requires id in s1.values <==> id in s2.inputs
    requires id in s2.inputs ==> Arrive(g, cfg, s2, id).outcome == Succeeded(s1.values[id])
    ensures ValuesAgree(done + [id], s1, Step(g, cfg, s2, id))
  {
  }

  lemma InputsFollowValues(g: Graph, cfg: Config, o1: seq<Id>, o2: seq<Id>, input: Id, s1: Pass, s2: Pass)
    requires TopologicalOrder(g, o1) && TopologicalOrder(g, o2) && EdgesClosed(g) && LastSources(g, input)
    requires forall m :: m in s1.values <==> Reaches(g, input, m)
    requires input in s1.inputs && input in s2.inputs && s1.inputs[input] == s2.inputs[input]
    requires Settled(g, cfg, o1, o1, input, s1) && Settled(g, cfg, o2, o2, input, s2)
    requires s1.values == s2.values
    ensures s1.inputs == s2.inputs
  {
    forall n
      ensures n in s1.inputs <==> n in s2.inputs
      ensures n in s1.inputs ==> s1.inputs[n] == s2.inputs[n]
    {
      if n != input {
        AllCanonical(g, cfg, o1, o1, input, s1, n);
        AllCanonical(g, cfg, o2, o2, input, s2, n);
      }
      NodeMatches(g, input, s1, s2, n);
    }
  }

  /** Confluence: with last sources, an error-free run along one topological order is error-free along every
      other, and both give every node the same input and value. */
  lemma SameAlongEveryOrder(g: Graph, cfg: Config, o1: seq<Id>, o2: seq<Id>, input: Id, event: Value)
    requires TopologicalOrder(g, o1) && TopologicalOrder(g, o2) && EdgesClosed(g) && input in NodeIds(g)
    requires LastSources(g, input)
    ensures RunsAgree(g, cfg, o1, o2, input, event)
  {
    hide Reaches, SlotSettled, Evaluated, Structural;
    if Clean(FullRun(g, cfg, o1, input, event)) {
      var s1, s2 := FullRun(g, cfg, o1, input, event), FullRun(g, cfg, o2, input, event);
      OrderInNodes(g, o2);
      SecondRunFollows(g, cfg, o1, o2, |o2|, input, event);
      FullRunSettled(g, cfg, o1, input, event);
      FullRunSettled(g, cfg, o2, input, event);
      ActivatesReachable(g, cfg, o1, input, event);
      ActivatesReachable(g, cfg, o2, input, event);
      assert s1.values == s2.values;
      InputsFollowValues(g, cfg, o1, o2, input, s1, s2);
    }
  }

  /** In particular when no port is fed by two edges. */
  lemma SingleFeedsHaveLastSource(g: Graph, input: Id)
    requires forall e, f | e in g.edges && f in g.edges && e.to == f.to && e.toPort == f.toPort :: e == f
    ensures LastSources(g, input)
  {
    forall n, p, e | n != input && FeedsFrom(g, ReachableSet(g, input), e, n, p)
      ensures HasLastSource(g, ReachableSet(g, input), n, p)
    {
      ReachesSelf(g, e.from);
      assert IsLastSource(g, ReachableSet(g, input), e, n, p);
    }
  }
}
