/** The three-colour depth-first search that rejects loops at validation. */
module CycleSearch {
  import opened Text
  import opened FlowGraph
  import opened TopologicalSort

  const ON_STACK := 1
  const FINISHED := 2

  /** `stack` holds the nodes being visited, outermost first; it is a path. `finished` holds the finished
      nodes, first finished first; every edge of one of them leads to a node finished before it. */
  ghost predicate Coloured(g: Graph, state: map<Id, int>, stack: seq<Id>, finished: seq<Id>) {
    && state.Keys <= NodeIds(g)
    && (forall v | v in state :: state[v] == ON_STACK || state[v] == FINISHED)
    && (forall v :: v in stack <==> v in state && state[v] == ON_STACK)
    && (forall v :: v in finished <==> v in state && state[v] == FINISHED)
    && (stack != [] ==> IsPath(g, stack))
    && EdgesGoBack(g, finished)
  }

  predicate Done(state: map<Id, int>, v: Id) {
    v in state && state[v] == FINISHED
  }

  ghost predicate StillDone(before: map<Id, int>, after: map<Id, int>) {
    before.Keys <= after.Keys && forall v | Done(before, v) :: Done(after, v)
  }

  /** Every target that is a node has been finished. */
  predicate TargetsDone(g: Graph, targets: seq<Id>, state: map<Id, int>) {
    forall v | v in targets && v in NodeIds(g) :: Done(state, v)
  }

  lemma OneMoreDone(g: Graph, targets: seq<Id>, k: nat, before: map<Id, int>, after: map<Id, int>)
    requires k < |targets| && TargetsDone(g, targets[..k], before) && StillDone(before, after)
    requires targets[k] in NodeIds(g) ==> Done(after, targets[k])
    ensures TargetsDone(g, targets[..k + 1], after)
  {
    assert targets[..k + 1] == targets[..k] + [targets[k]];
  }

  class Search {
    const g: Graph
    const adjacency: map<Id, seq<Id>>
    var state: map<Id, int>
    ghost var finished: seq<Id>

    ghost predicate Valid(stack: seq<Id>)
      reads this
    {
      EdgesClosed(g) && Adjacent(g, adjacency) && Coloured(g, state, stack, finished)
    }

    constructor (g: Graph, adjacency: map<Id, seq<Id>>)
      requires EdgesClosed(g) && Adjacent(g, adjacency)
      ensures this.g == g && Valid([]) && state == map[]
    {
      this.g, this.adjacency := g, adjacency;
      state, finished := map[], [];
    }

    method Visit(id: Id, ghost stack: seq<Id>) returns (found: bool)
      requires Valid(stack) && id in NodeIds(g)
      requires stack != [] ==> Linked(g, stack[|stack| - 1], id)
      modifies this
      ensures found ==> HasDirectedCycle(g)
      ensures !found ==> Valid(stack) && Done(state, id) && StillDone(old(state), state)
      decreases NodeIds(g) - state.Keys
    {
      if id in state && state[id] == ON_STACK {
        BackEdgeCycle(g, stack, id);
        return true;
      }
      if id in state && state[id] == FINISHED {
        return false;
      }
      Enter(g, state, stack, finished, id);
      state := state[id := ON_STACK];
      var targets := Lookup(adjacency, id);
      ghost var entered := state;
      for k := 0 to |targets|
        invariant Valid(stack + [id]) && StillDone(entered, state)
        invariant TargetsDone(g, targets[..k], state)
      {
        ghost var before := state;
        if targets[k] in NodeIds(g) {
          TargetsAreLinked(g, g.edges, id, targets[k]);
          var loop := Visit(targets[k], stack + [id]);
          if loop {
            return true;
          }
        }
        OneMoreDone(g, targets, k, before, state);
      }
      assert targets[..|targets|] == targets;
      Leave(g, state, stack, finished, targets, id);
      state := state[id := FINISHED];
      finished := finished + [id];
      return false;
    }
  }

  lemma Enter(g: Graph, state: map<Id, int>, stack: seq<Id>, finished: seq<Id>, id: Id)
    requires Coloured(g, state, stack, finished) && id in NodeIds(g) && id !in state
    requires stack != [] ==> Linked(g, stack[|stack| - 1], id)
    ensures Coloured(g, state[id := ON_STACK], stack + [id], finished)
    ensures StillDone(state, state[id := ON_STACK])
  {
    AppendPath(g, stack, id);
  }

  lemma Leave(g: Graph, state: map<Id, int>, stack: seq<Id>, finished: seq<Id>, targets: seq<Id>, id: Id)
    requires EdgesClosed(g) && Coloured(g, state, stack + [id], finished) && id !in stack
    requires targets == Targets(g.edges, id)
    requires TargetsDone(g, targets, state)
    ensures Coloured(g, state[id := FINISHED], stack, finished + [id])
    ensures StillDone(state, state[id := FINISHED])
  {
    assert id in stack + [id];
    assert EdgesGoBack(g, finished + [id]) by {
      SuccessorsFinished(g, targets, id, finished);
    }
    ShorterPath(g, stack, id);
  }

  lemma ShorterPath(g: Graph, stack: seq<Id>, id: Id)
    requires IsPath(g, stack + [id])
    ensures stack != [] ==> IsPath(g, stack)
  {
    if stack != [] {
      SubPath(g, stack + [id], 0, |stack|);
      assert (stack + [id])[0..|stack|] == stack;
    }
  }

  ghost predicate EdgesGoBack(g: Graph, finished: seq<Id>) {
    && Distinct(finished)
    && forall e, i | e in g.edges && 0 <= i < |finished| && finished[i] == e.from :: e.to in finished[..i]
  }

  lemma AppendPath(g: Graph, stack: seq<Id>, id: Id)
    requires stack != [] ==> IsPath(g, stack) && Linked(g, stack[|stack| - 1], id)
    ensures IsPath(g, stack + [id])
  {
  }

  lemma BackEdgeCycle(g: Graph, stack: seq<Id>, id: Id)
    requires id in stack && IsPath(g, stack) && Linked(g, stack[|stack| - 1], id)
    ensures HasDirectedCycle(g)
  {
    var i :| 0 <= i < |stack| && stack[i] == id;
    AppendPath(g, stack, id);
    RepeatedNodeCycle(g, stack + [id], i, |stack|);
  }

  lemma SuccessorsFinished(g: Graph, targets: seq<Id>, id: Id, finished: seq<Id>)
    requires EdgesClosed(g) && EdgesGoBack(g, finished) && id !in finished
    requires targets == Targets(g.edges, id)
    requires forall v | v in targets && v in NodeIds(g) :: v in finished
    ensures EdgesGoBack(g, finished + [id])
  {
    var next := finished + [id];
    forall e, i | e in g.edges && 0 <= i < |next| && next[i] == e.from
      ensures e.to in next[..i]
    {
      if i < |finished| {
        assert finished[i] == e.from && next[..i] == finished[..i];
      } else {
        TargetsAreLinked(g, g.edges, id, e.to);
        assert next[..i] == finished;
      }
    }
  }

  /** From a finished node every longer path leads to nodes finished strictly earlier. */
  lemma {:induction false} PathDescends(g: Graph, finished: seq<Id>, p: seq<Id>, i: nat)
    requires EdgesGoBack(g, finished) && IsPath(g, p) && |p| >= 2
    requires i < |finished| && finished[i] == p[0]
    ensures p[|p| - 1] in finished[..i]
  {
    var front := p[..|p| - 1];
    var e := LastEdge(g, p);
    if |front| == 1 {
      assert e.from == p[0];
    } else {
      PathDescends(g, finished, front, i);
      var j :| 0 <= j < i && finished[j] == front[|front| - 1];
      assert finished[j] == e.from;
      assert finished[..j] <= finished[..i];
      assert forall x | x in finished[..j] :: x in finished[..i];
    }
  }

  lemma AllFinishedAcyclic(g: Graph, finished: seq<Id>)
    requires EdgesGoBack(g, finished) && EdgesClosed(g)
    requires forall v | v in NodeIds(g) :: v in finished
    ensures !HasDirectedCycle(g)
  {
    if HasDirectedCycle(g) {
      var p, u :| PathFromTo(g, p, u, u) && |p| >= 2;
      var e := LastEdge(g, p);
      assert u in finished;
      var i :| 0 <= i < |finished| && finished[i] == u;
      PathDescends(g, finished, p, i);
    }
  }

  /** hasCycle: the roots of the search come in map-iteration order. */
  method HasCycle(g: Graph) returns (found: bool)
    requires EdgesClosed(g)
    ensures found <==> HasDirectedCycle(g)
  {
    var _, _, adjacency := CountEdges(g);
    var search := new Search(g, adjacency);
    var rest := NodeIds(g);
    while rest != {}
      invariant search.Valid([]) && fresh(search) && search.g == g
      invariant rest <= NodeIds(g)
      invariant forall v | v in NodeIds(g) && v !in rest :: Done(search.state, v)
    {
      var id :| id in rest;
      found := search.Visit(id, []);
      if found {
        return true;
      }
      rest := rest - {id};
    }
    AllFinishedAcyclic(g, search.finished);
    return false;
  }
}
