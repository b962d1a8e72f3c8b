/** Kahn's algorithm as the executor, the simulator and the compiler run it. The executor's and the
    simulator's copies are the same text; the compiler seeds its queue in map-iteration order. */
module TopologicalSort {
  import opened Text
  import opened FlowGraph

  datatype OrderResult = Ordered(order: seq<Id>) | SourceMissing | TargetMissing | CycleFound

  // ---------- What the two maps hold ----------

  /** Heads of the edges that leave u, in document order. */
  function Targets(edges: seq<Edge>, u: Id): seq<Id> {
    if edges == [] then []
    else
      var last := edges[|edges| - 1];
      Targets(edges[..|edges| - 1], u) + if last.from == u then [last.to] else []
  }

  /** Number of edges into v whose tail has not been processed. */
  function Pending(edges: seq<Edge>, v: Id, done: set<Id>): nat {
    if edges == [] then 0
    else
      var last := edges[|edges| - 1];
      Pending(edges[..|edges| - 1], v, done) + if last.to == v && last.from !in done then 1 else 0
  }

  lemma {:induction false} PendingZero(edges: seq<Edge>, v: Id, done: set<Id>)
    ensures Pending(edges, v, done) == 0 <==> forall e | e in edges && e.to == v :: e.from in done
  {
    if edges != [] {
      var front, last := edges[..|edges| - 1], edges[|edges| - 1];
      PendingZero(front, v, done);
      assert edges == front + [last];
    }
  }

  /** Processing u lowers each count by the number of edges from u. */
  lemma {:induction false} PendingStep(edges: seq<Edge>, v: Id, done: set<Id>, u: Id)
    requires u !in done
    ensures Pending(edges, v, done) == Pending(edges, v, done + {u}) + multiset(Targets(edges, u))[v]
  {
    if edges != [] {
      PendingStep(edges[..|edges| - 1], v, done, u);
    }
  }

  lemma {:induction false} TargetsAreLinked(g: Graph, edges: seq<Edge>, u: Id, v: Id)
    requires forall e | e in edges :: e in g.edges
    ensures v in Targets(edges, u) <==> exists e | e in edges :: e.from == u && e.to == v
  {
    if edges != [] {
      var front, last := edges[..|edges| - 1], edges[|edges| - 1];
      TargetsAreLinked(g, front, u, v);
      assert edges == front + [last];
    }
  }

  function Lookup(adjacency: map<Id, seq<Id>>, u: Id): seq<Id> {
    if u in adjacency then adjacency[u] else []
  }

  ghost predicate CountsOf(ids: set<Id>, edges: seq<Edge>, indegree: map<Id, int>, done: set<Id>) {
    indegree.Keys == ids && forall v | v in ids :: indegree[v] == Pending(edges, v, done)
  }

  ghost predicate AdjacentOf(ids: set<Id>, edges: seq<Edge>, adjacency: map<Id, seq<Id>>) {
    forall u | u in ids :: Lookup(adjacency, u) == Targets(edges, u)
  }

  ghost predicate Counts(g: Graph, indegree: map<Id, int>, done: set<Id>) {
    CountsOf(NodeIds(g), g.edges, indegree, done)
  }

  ghost predicate Adjacent(g: Graph, adjacency: map<Id, seq<Id>>) {
    AdjacentOf(NodeIds(g), g.edges, adjacency)
  }

  // ---------- Draining the queue ----------

  /** Every listed node comes after all the nodes with an edge into it. */
  ghost predicate ForwardClosed(g: Graph, order: seq<Id>) {
    && Distinct(order)
    && Elements(order) <= NodeIds(g)
    && forall e, j | e in g.edges && 0 <= j < |order| && order[j] == e.to :: e.from in order[..j]
  }

  /** `listed`, the output so far and then the queue, holds exactly the nodes whose count is zero. */
  ghost predicate ReadyListed(g: Graph, indegree: map<Id, int>, listed: seq<Id>) {
    && indegree.Keys == NodeIds(g)
    && Distinct(listed)
    && Elements(listed) <= NodeIds(g)
    && forall v | v in NodeIds(g) :: v in listed <==> indegree[v] == 0
  }

  ghost predicate PartlyLowered(g: Graph, indegree: map<Id, int>, done: set<Id>, lowered: seq<Id>) {
    && indegree.Keys == NodeIds(g)
    && forall v | v in NodeIds(g) :: indegree[v] == Pending(g.edges, v, done) - multiset(lowered)[v]
  }

  lemma AppendKeepsForward(g: Graph, order: seq<Id>, id: Id)
    requires ForwardClosed(g, order) && id in NodeIds(g) && id !in order
    requires Pending(g.edges, id, Elements(order)) == 0
    ensures ForwardClosed(g, order + [id])
  {
    PendingZero(g.edges, id, Elements(order));
    var next := order + [id];
    forall e, j | e in g.edges && 0 <= j < |next| && next[j] == e.to
      ensures e.from in next[..j]
    {
      if j < |order| {
        assert order[j] == e.to && next[..j] == order[..j];
      } else {
        assert next[..j] == order;
      }
    }
  }

  function Lowered(indegree: map<Id, int>, v: Id): map<Id, int>
    requires v in indegree
  {
    indegree[v := indegree[v] - 1]
  }

  lemma LowerOne(g: Graph, indegree: map<Id, int>, done: set<Id>, lowered: seq<Id>, listed: seq<Id>, next: Id)
    requires PartlyLowered(g, indegree, done, lowered) && ReadyListed(g, indegree, listed)
    requires next in NodeIds(g) && indegree[next] >= 1
    ensures PartlyLowered(g, Lowered(indegree, next), done, lowered + [next])
    ensures ReadyListed(g, Lowered(indegree, next), if indegree[next] == 1 then listed + [next] else listed)
  {
  }

  lemma TargetStillPending(g: Graph, indegree: map<Id, int>, done: set<Id>, targets: seq<Id>, k: nat, id: Id)
    requires EdgesClosed(g) && id !in done && targets == Targets(g.edges, id)
    requires k < |targets| && PartlyLowered(g, indegree, done, targets[..k])
    ensures targets[k] in NodeIds(g) && indegree[targets[k]] >= 1
  {
    var next := targets[k];
    TargetsAreLinked(g, g.edges, id, next);
    PendingStep(g.edges, next, done, id);
    assert targets == targets[..k] + ([next] + targets[k + 1..]);
  }

  lemma LowerTarget(g: Graph, indegree: map<Id, int>, done: set<Id>, targets: seq<Id>, k: nat, id: Id,
                    order: seq<Id>, queue: seq<Id>)
    requires EdgesClosed(g) && id !in done && targets == Targets(g.edges, id)
    requires k < |targets| && PartlyLowered(g, indegree, done, targets[..k])
    requires ReadyListed(g, indegree, order + queue)
    ensures targets[k] in indegree
    ensures PartlyLowered(g, Lowered(indegree, targets[k]), done, targets[..k + 1])
    ensures ReadyListed(g, Lowered(indegree, targets[k]),
                        order + if indegree[targets[k]] == 1 then queue + [targets[k]] else queue)
  {
    TargetStillPending(g, indegree, done, targets, k, id);
    LowerOne(g, indegree, done, targets[..k], order + queue, targets[k]);
    TakeOneMore(targets, k);
    AppendAfter(order, queue, targets[k]);
  }

  lemma AllLowered(g: Graph, indegree: map<Id, int>, done: set<Id>, id: Id)
    requires id !in done && PartlyLowered(g, indegree, done, Targets(g.edges, id))
    ensures Counts(g, indegree, done + {id})
  {
    forall v | v in NodeIds(g)
      ensures indegree[v] == Pending(g.edges, v, done + {id})
    {
      PendingStep(g.edges, v, done, id);
    }
  }

  /** Lower the counts of the heads of id's edges and queue those that reach zero. */
  method LowerTargets(g: Graph, indegree: map<Id, int>, targets: seq<Id>, ghost order: seq<Id>, queue: seq<Id>,
                      ghost before: set<Id>, ghost id: Id)
    returns (indegree': map<Id, int>, queue': seq<Id>)
    requires EdgesClosed(g) && id !in before
    requires targets == Targets(g.edges, id)
    requires Counts(g, indegree, before)
    requires ReadyListed(g, indegree, order + queue)
    ensures Counts(g, indegree', before + {id})
    ensures ReadyListed(g, indegree', order + queue')
  {
    indegree', queue' := indegree, queue;
    for k := 0 to |targets|
      invariant PartlyLowered(g, indegree', before, targets[..k])
      invariant ReadyListed(g, indegree', order + queue')
    {
      var next := targets[k];
      LowerTarget(g, indegree', before, targets, k, id, order, queue');
      indegree' := Lowered(indegree', next);
      if indegree'[next] == 0 {
        queue' := queue' + [next];
      }
    }
    assert targets[..|targets|] == targets;
    AllLowered(g, indegree', before, id);
  }

  lemma QueueHeadIsNew(order: seq<Id>, queue: seq<Id>)
    requires queue != [] && Distinct(order + queue)
    ensures queue[0] in order + queue && queue[0] !in order
  {
    assert (order + queue)[|order|] == queue[0];
    assert forall i | 0 <= i < |order| :: (order + queue)[i] == order[i];
  }

  method DrainQueue(g: Graph, indegree0: map<Id, int>, adjacency: map<Id, seq<Id>>, seed: seq<Id>)
    returns (order: seq<Id>)
    requires EdgesClosed(g)
    requires Counts(g, indegree0, {}) && Adjacent(g, adjacency)
    requires ReadyListed(g, indegree0, seed)
    ensures ForwardClosed(g, order)
    ensures forall v | v in NodeIds(g) && v !in order :: Pending(g.edges, v, Elements(order)) > 0
  {
    var indegree, queue := indegree0, seed;
    order := [];
    assert Elements(order) == {} && order + queue == seed;
    while queue != []
      invariant Counts(g, indegree, Elements(order))
      invariant ReadyListed(g, indegree, order + queue)
      invariant ForwardClosed(g, order)
      decreases NodeIds(g) - Elements(order)
    {
      var id := queue[0];
      assert order + queue == order + [id] + queue[1..];
      QueueHeadIsNew(order, queue);
      AppendKeepsForward(g, order, id);
      ghost var done := Elements(order);
      queue := queue[1..];
      order := order + [id];
      assert Elements(order) == done + {id};
      indegree, queue := LowerTargets(g, indegree, Lookup(adjacency, id), order, queue, done, id);
    }
    assert order + queue == order;
  }

  // ---------- The outcome of a drained queue ----------

  lemma {:induction false} DistinctSize(order: seq<Id>)
    requires Distinct(order)
    ensures |Elements(order)| == |order|
  {
    if order != [] {
      var front, last := order[..|order| - 1], order[|order| - 1];
      DistinctSize(front);
      assert Elements(order) == Elements(front) + {last};
    }
  }

  lemma SameSizeSubset(s: set<Id>, t: set<Id>)
    requires s <= t && |s| == |t|
    ensures s == t
  {
    assert |t - s| == 0;
  }

  lemma CompleteIsTopological(g: Graph, order: seq<Id>)
    requires ForwardClosed(g, order) && Elements(order) == NodeIds(g)
    ensures TopologicalOrder(g, order)
  {
    forall e, i, j | e in g.edges && 0 <= i < |order| && 0 <= j < |order|
        && order[i] == e.from && order[j] == e.to
      ensures i < j
    {
      assert e.from in order[..j];
    }
  }

  lemma StuckHasCycle(g: Graph, done: set<Id>)
    requires EdgesClosed(g) && done <= NodeIds(g) && done != NodeIds(g)
    requires forall v | v in NodeIds(g) && v !in done :: Pending(g.edges, v, done) > 0
    ensures HasDirectedCycle(g)
  {
    var rest := NodeIds(g) - done;
    var missing :| missing in NodeIds(g) && missing !in done;
    assert missing in rest;
    forall v | v in rest
      ensures HasPredecessorIn(g, rest, v)
    {
      PendingZero(g.edges, v, done);
      var e :| e in g.edges && e.to == v && e.from !in done;
      assert Linked(g, e.from, v);
    }
    BackwardClosedHasCycle(g, rest);
  }

  lemma DrainedOutcome(g: Graph, order: seq<Id>)
    requires EdgesClosed(g) && ForwardClosed(g, order)
    requires forall v | v in NodeIds(g) && v !in order :: Pending(g.edges, v, Elements(order)) > 0
    ensures |order| == |NodeIds(g)| <==> !HasDirectedCycle(g)
    ensures |order| == |NodeIds(g)| ==> TopologicalOrder(g, order)
  {
    DistinctSize(order);
    if |order| == |NodeIds(g)| {
      SameSizeSubset(Elements(order), NodeIds(g));
      CompleteIsTopological(g, order);
      TopologicalOrderAcyclic(g, order);
    } else {
      StuckHasCycle(g, Elements(order));
    }
  }

  // ---------- The three callers ----------

  lemma CountOneEdge(ids: set<Id>, edges: seq<Edge>, indegree: map<Id, int>, adjacency: map<Id, seq<Id>>, e: Edge)
    requires CountsOf(ids, edges, indegree, {}) && AdjacentOf(ids, edges, adjacency)
    requires e.from in ids && e.to in ids
    ensures CountsOf(ids, edges + [e], indegree[e.to := indegree[e.to] + 1], {})
    ensures AdjacentOf(ids, edges + [e], adjacency[e.from := Lookup(adjacency, e.from) + [e.to]])
  {
    assert (edges + [e])[..|edges|] == edges;
  }

  ghost predicate EdgesInside(g: Graph, k: nat)
    requires k <= |g.edges|
  {
    forall i | 0 <= i < k :: g.edges[i].from in NodeIds(g) && g.edges[i].to in NodeIds(g)
  }

  lemma EdgeOutside(g: Graph, k: nat)
    requires k < |g.edges| && !(g.edges[k].from in NodeIds(g) && g.edges[k].to in NodeIds(g))
    ensures !EdgesClosed(g)
  {
    assert g.edges[k] in g.edges;
  }

  lemma AllEdgesInside(g: Graph)
    requires EdgesInside(g, |g.edges|)
    ensures EdgesClosed(g) && g.edges[..|g.edges|] == g.edges
  {
  }

  method CountEdges(g: Graph) returns (r: OrderResult, indegree: map<Id, int>, adjacency: map<Id, seq<Id>>)
    ensures r.SourceMissing? || r.TargetMissing? <==> !EdgesClosed(g)
    ensures r.Ordered? <==> EdgesClosed(g)
    ensures r.Ordered? ==> Counts(g, indegree, {}) && Adjacent(g, adjacency)
  {
    indegree := map id | id in NodeIds(g) :: 0;
    adjacency := map[];
    r := Ordered([]);
    for k := 0 to |g.edges|
      invariant r.Ordered?
      invariant EdgesInside(g, k)
      invariant CountsOf(NodeIds(g), g.edges[..k], indegree, {})
      invariant AdjacentOf(NodeIds(g), g.edges[..k], adjacency)
    {
      var e := g.edges[k];
      if e.from !in indegree {
        EdgeOutside(g, k);
        return SourceMissing, indegree, adjacency;
      }
      if e.to !in indegree {
        EdgeOutside(g, k);
        return TargetMissing, indegree, adjacency;
      }
      CountOneEdge(NodeIds(g), g.edges[..k], indegree, adjacency, e);
      TakeOneMore(g.edges, k);
      adjacency := adjacency[e.from := Lookup(adjacency, e.from) + [e.to]];
      indegree := indegree[e.to := indegree[e.to] + 1];
    }
    AllEdgesInside(g);
  }

  function IdsBefore(g: Graph, k: nat): (ids: set<Id>)
    requires k <= |g.nodes|
    ensures ids <= NodeIds(g)
  {
    set i | 0 <= i < k :: g.nodes[i].id
  }

  method RootsInOrder(g: Graph, indegree: map<Id, int>) returns (queue: seq<Id>)
    requires UniqueNodeIds(g) && indegree.Keys == NodeIds(g)
    ensures Distinct(queue)
    ensures forall v :: v in queue <==> v in NodeIds(g) && indegree[v] == 0
  {
    queue := [];
    for k := 0 to |g.nodes|
      invariant Distinct(queue)
      invariant forall v :: v in queue <==> v in IdsBefore(g, k) && indegree[v] == 0
    {
      var id := g.nodes[k].id;
      assert id !in IdsBefore(g, k) && IdsBefore(g, k + 1) == IdsBefore(g, k) + {id};
      if indegree[id] == 0 {
        queue := queue + [id];
      }
    }
    assert IdsBefore(g, |g.nodes|) == NodeIds(g);
  }

  /** executionOrder and simulationOrder. Node identifiers are distinct in every stored version,
      because saving one runs ValidateShape. */
  method ExecutionOrder(g: Graph) returns (r: OrderResult)
    requires UniqueNodeIds(g)
    ensures r.SourceMissing? || r.TargetMissing? <==> !EdgesClosed(g)
    ensures r.CycleFound? <==> EdgesClosed(g) && HasDirectedCycle(g)
    ensures r.Ordered? ==> TopologicalOrder(g, r.order)
  {
    var indegree, adjacency;
    r, indegree, adjacency := CountEdges(g);
    if !r.Ordered? {
      return;
    }
    var queue := RootsInOrder(g, indegree);
    var order := DrainQueue(g, indegree, adjacency, queue);
    DrainedOutcome(g, order);
    if |order| != |indegree| {
      return CycleFound;
    }
    return Ordered(order);
  }

  method RootsInAnyOrder(indegree: map<Id, int>) returns (queue: seq<Id>)
    ensures Distinct(queue)
    ensures forall v :: v in queue <==> v in indegree && indegree[v] == 0
  {
    queue := [];
    var rest := indegree.Keys;
    while rest != {}
      invariant rest <= indegree.Keys
      invariant Distinct(queue)
      invariant forall v :: v in queue <==> v in indegree && v !in rest && indegree[v] == 0
    {
      var id :| id in rest;
      if indegree[id] == 0 {
        queue := queue + [id];
      }
      rest := rest - {id};
    }
  }

  /** The node order of a compiled plan: any enumeration of the roots may seed the queue. The graph
      has passed validation, so its edges are closed and it has no cycle. */
  method CompileOrder(g: Graph) returns (order: seq<Id>)
    requires EdgesClosed(g) && !HasDirectedCycle(g)
    ensures TopologicalOrder(g, order)
  {
    var _, indegree, adjacency := CountEdges(g);
    var queue := RootsInAnyOrder(indegree);
    order := DrainQueue(g, indegree, adjacency, queue);
    DrainedOutcome(g, order);
  }
}
