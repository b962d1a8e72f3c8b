/** The other half of confluence: where a fed port has no last source, two error-free runs of the same Flow
    can end differently. Together with Confluence this decides order independence exactly. */
module OrderDependence {
  import opened Text
  import opened FlowGraph
  import opened TopologicalSort
  import opened Interpreter
  import opened Confluence

  // ---------- Reordering: the ancestors of a node first ----------

  function Keep(order: seq<Id>, s: set<Id>): seq<Id> {
    if order == [] then []
    else Keep(order[..|order| - 1], s) + if order[|order| - 1] in s then [order[|order| - 1]] else []
  }

  lemma {:induction false} KeepElements(order: seq<Id>, s: set<Id>)
    ensures forall v :: v in Keep(order, s) <==> v in order && v in s
  {
    if order != [] {
      KeepElements(order[..|order| - 1], s);
      assert order == order[..|order| - 1] + [order[|order| - 1]];
    }
  }

  lemma {:induction false} KeepDistinct(order: seq<Id>, s: set<Id>)
    requires Distinct(order)
    ensures Distinct(Keep(order, s))
  {
    if order != [] {
      KeepDistinct(order[..|order| - 1], s);
      KeepElements(order[..|order| - 1], s);
    }
  }

  lemma NotAfterMembers(order: seq<Id>, u: Id, v: Id)
    requires NotAfter(order, u, v)
    ensures u in order && v in order
  {
  }

  lemma NotAfterExtends(front: seq<Id>, last: Id, u: Id, v: Id)
    requires NotAfter(front, u, v) || (v == last && u in front + [last])
    ensures NotAfter(front + [last], u, v)
  {
    var order := front + [last];
    if NotAfter(front, u, v) {
      var i, j :| 0 <= i <= j < |front| && front[i] == u && front[j] == v;
      assert order[i] == u && order[j] == v;
    } else {
      var i :| 0 <= i < |order| && order[i] == u;
      assert order[|front|] == v;
    }
  }

  lemma {:induction false} KeepOrder(order: seq<Id>, s: set<Id>, u: Id, v: Id)
    requires NotAfter(Keep(order, s), u, v)
    ensures NotAfter(order, u, v)
  {
    NotAfterMembers(Keep(order, s), u, v);
    KeepElements(order, s);
    var front, last := order[..|order| - 1], order[|order| - 1];
    assert order == front + [last];
    var i, j :| 0 <= i <= j < |Keep(order, s)| && Keep(order, s)[i] == u && Keep(order, s)[j] == v;
    if j < |Keep(front, s)| {
      assert Keep(front, s)[i] == u && Keep(front, s)[j] == v;
      KeepOrder(front, s, u, v);
    }
    NotAfterExtends(front, last, u, v);
  }

  lemma TopologicalByPairs(g: Graph, order: seq<Id>)
    requires Distinct(order) && Elements(order) == NodeIds(g)
    requires forall e | e in g.edges :: !NotAfter(order, e.to, e.from)
    ensures TopologicalOrder(g, order)
  {
  }

  lemma TopologicalPairs(g: Graph, order: seq<Id>, e: Edge)
    requires TopologicalOrder(g, order) && e in g.edges
    ensures !NotAfter(order, e.to, e.from)
  {
  }

  function Others(g: Graph, s: set<Id>): set<Id> { NodeIds(g) - s }

  function ToFront(g: Graph, order: seq<Id>, s: set<Id>): seq<Id> {
    Keep(order, s) + Keep(order, Others(g, s))
  }

  lemma ToFrontPosition(g: Graph, order: seq<Id>, s: set<Id>, u: Id, v: Id)
    requires NotAfter(ToFront(g, order, s), u, v)
    ensures NotAfter(order, u, v) || (u in s && v !in s)
  {
    var first, second := Keep(order, s), Keep(order, Others(g, s));
    KeepElements(order, s);
    KeepElements(order, Others(g, s));
    var i, j :| 0 <= i <= j < |first + second| && (first + second)[i] == u && (first + second)[j] == v;
    if j < |first| {
      assert first[i] == u && first[j] == v;
      KeepOrder(order, s, u, v);
    } else if i >= |first| {
      assert second[i - |first|] == u && second[j - |first|] == v;
      KeepOrder(order, Others(g, s), u, v);
    } else {
      assert first[i] == u && second[j - |first|] == v;
      assert u in first && v in second;
    }
  }

  /** Moving a set that no edge enters to the front keeps an order topological. */
  lemma ToFrontTopological(g: Graph, order: seq<Id>, s: set<Id>)
    requires TopologicalOrder(g, order) && s <= NodeIds(g)
    requires forall e | e in g.edges && e.to in s :: e.from in s
    ensures TopologicalOrder(g, ToFront(g, order, s))
  {
    var moved := ToFront(g, order, s);
    KeepDistinct(order, s);
    KeepDistinct(order, Others(g, s));
    KeepElements(order, s);
    KeepElements(order, Others(g, s));
    OrderInNodes(g, order);
    ConcatDistinct(Keep(order, s), Keep(order, Others(g, s)));
    assert forall v | v in NodeIds(g) :: v in Elements(order);
    assert Elements(moved) == NodeIds(g);
    forall e | e in g.edges
      ensures !NotAfter(moved, e.to, e.from)
    {
      TopologicalPairs(g, order, e);
      if NotAfter(moved, e.to, e.from) {
        ToFrontPosition(g, order, s, e.to, e.from);
      }
    }
    TopologicalByPairs(g, moved);
  }

  lemma ConcatDistinct(a: seq<Id>, b: seq<Id>)
    requires Distinct(a) && Distinct(b) && forall v :: !(v in a && v in b)
    ensures Distinct(a + b)
  {
    forall i, j | 0 <= i < j < |a + b|
      ensures (a + b)[i] != (a + b)[j]
    {
      if i < |a| <= j {
        assert (a + b)[i] in a && (a + b)[j] in b;
      }
    }
  }

  // ---------- An evaluator that marks one node ----------

  function Marking(a: Id): Config {
    Config((node: Node, input: Fields) => Succeeded(Atom(if node.id == a then 1 else 0)), (f: Fields) => f, true)
  }

  lemma {:induction false} MarkingClean(g: Graph, a: Id, order: seq<Id>, input: Id, event: Value)
    requires forall id | id in order :: id in NodeIds(g)
    ensures Clean(Run(g, Marking(a), order, Start(input, event)))
  {
    if order != [] {
      var front := order[..|order| - 1];
      MarkingClean(g, a, front, input, event);
      StepClean(g, Marking(a), Run(g, Marking(a), front, Start(input, event)), order[|order| - 1]);
    }
  }

  lemma MarkedRun(g: Graph, a: Id, order: seq<Id>, input: Id, event: Value)
    requires TopologicalOrder(g, order) && EdgesClosed(g) && input in NodeIds(g)
    ensures var s := FullRun(g, Marking(a), order, input, event);
      && Clean(s)
      && (forall n :: n in s.values <==> Reaches(g, input, n))
      && (forall n | n in s.values :: s.values[n] == Atom(if n == a then 1 else 0))
      && (forall n, p | n != input :: SlotSettled(g, order, s, n, p))
  {
    OrderInNodes(g, order);
    MarkingClean(g, a, order, input, event);
    FullRunSettled(g, Marking(a), order, input, event);
    ActivatesReachable(g, Marking(a), order, input, event);
    var s := FullRun(g, Marking(a), order, input, event);
    forall n | n in s.values
      ensures s.values[n] == Atom(if n == a then 1 else 0)
    {
      assert Evaluated(g, Marking(a), s, n);
    }
  }

  lemma MarkedSlotOf(g: Graph, a: Id, order: seq<Id>, input: Id, s: Pass, n: Id, p: string, f: Edge) returns (e: Edge)
    requires FeedsFrom(g, ReachableSet(g, input), f, n, p)
    requires forall m :: m in s.values <==> Reaches(g, input, m)
    requires forall m | m in s.values :: s.values[m] == Atom(if m == a then 1 else 0)
    requires SlotSettled(g, order, s, n, p)
    ensures p in Slots(s.inputs, n) && Slots(s.inputs, n)[p] == Atom(if e.from == a then 1 else 0)
    ensures FeedsFrom(g, ReachableSet(g, input), e, n, p)
    ensures forall h | FeedsFrom(g, ReachableSet(g, input), h, n, p) :: NotAfter(order, h.from, e.from)
  {
    assert forall h :: FeedsFrom(g, ReachableSet(g, input), h, n, p) <==> Feeds(g, s.values.Keys, h, n, p);
    assert Fed(g, s.values.Keys, n, p);
    e :| FeedsLast(g, order, s.values.Keys, e, n, p) && Slots(s.inputs, n)[p] == s.values[e.from];
  }

  /** In a marked run the slot shows whether its last source is the marked node. */
  lemma MarkedSlot(g: Graph, a: Id, order: seq<Id>, input: Id, event: Value, n: Id, p: string, f: Edge)
    returns (e: Edge)
    requires TopologicalOrder(g, order) && EdgesClosed(g) && input in NodeIds(g) && n != input
    requires FeedsFrom(g, ReachableSet(g, input), f, n, p)
    ensures var s := FullRun(g, Marking(a), order, input, event);
      Clean(s) && p in Slots(s.inputs, n) && Slots(s.inputs, n)[p] == Atom(if e.from == a then 1 else 0)
    ensures FeedsFrom(g, ReachableSet(g, input), e, n, p)
    ensures forall h | FeedsFrom(g, ReachableSet(g, input), h, n, p) :: NotAfter(order, h.from, e.from)
  {
    MarkedRun(g, a, order, input, event);
    e := MarkedSlotOf(g, a, order, input, FullRun(g, Marking(a), order, input, event), n, p, f);
  }

  ghost function Ancestors(g: Graph, a: Id): set<Id> {
    set v | v in NodeIds(g) && Reaches(g, v, a)
  }

  lemma AncestorsEntered(g: Graph, a: Id)
    requires EdgesClosed(g)
    ensures forall e | e in g.edges && e.to in Ancestors(g, a) :: e.from in Ancestors(g, a)
  {
    forall e | e in g.edges && e.to in Ancestors(g, a)
      ensures e.from in Ancestors(g, a)
    {
      LinkedReaches(g, e.from, e.to);
      ReachesTransitive(g, e.from, e.to, a);
    }
  }

  /** The source whose value the port ends up with, and a source that does not lead to it. */
  lemma LateSource(g: Graph, order: seq<Id>, input: Id, n: Id, p: string, f: Edge) returns (last: Edge, h: Edge)
    requires TopologicalOrder(g, order) && EdgesClosed(g) && input in NodeIds(g) && n != input
    requires FeedsFrom(g, ReachableSet(g, input), f, n, p)
    requires !HasLastSource(g, ReachableSet(g, input), n, p)
    ensures FeedsFrom(g, ReachableSet(g, input), last, n, p)
    ensures forall x | FeedsFrom(g, ReachableSet(g, input), x, n, p) :: NotAfter(order, x.from, last.from)
    ensures FeedsFrom(g, ReachableSet(g, input), h, n, p) && !Reaches(g, h.from, last.from)
  {
    last := MarkedSlot(g, "", order, input, Null, n, p, f);
    assert !IsLastSource(g, ReachableSet(g, input), last, n, p);
    h :| FeedsFrom(g, ReachableSet(g, input), h, n, p) && !Reaches(g, h.from, last.from);
  }

  /** Marking the source that is last in one order but not in the other tells the two runs apart. */
  lemma MarksDisagree(g: Graph, o1: seq<Id>, o2: seq<Id>, input: Id, n: Id, p: string, last: Edge, h: Edge)
    requires TopologicalOrder(g, o1) && TopologicalOrder(g, o2) && EdgesClosed(g) && input in NodeIds(g) && n != input
    requires FeedsFrom(g, ReachableSet(g, input), last, n, p)
    requires forall x | FeedsFrom(g, ReachableSet(g, input), x, n, p) :: NotAfter(o1, x.from, last.from)
    requires FeedsFrom(g, ReachableSet(g, input), h, n, p) && !NotAfter(o2, h.from, last.from)
    ensures !RunsAgree(g, Marking(last.from), o1, o2, input, Null)
  {
    var e1 := MarkedSlot(g, last.from, o1, input, Null, n, p, last);
    NotAfterBoth(o1, last.from, e1.from);
    var e2 := MarkedSlot(g, last.from, o2, input, Null, n, p, last);
  }

  /** A fed port without a last source: some evaluator, event and second order tell two clean runs apart. */
  lemma NoLastSourceSeparates(g: Graph, order: seq<Id>, input: Id, n: Id, p: string, f: Edge)
    requires TopologicalOrder(g, order) && EdgesClosed(g) && input in NodeIds(g) && n != input
    requires FeedsFrom(g, ReachableSet(g, input), f, n, p)
    requires !HasLastSource(g, ReachableSet(g, input), n, p)
    ensures !OrderIndependent(g, input)
  {
    var last, h := LateSource(g, order, input, n, p, f);
    var moved := AncestorsFirst(g, order, last.from, h.from);
    MarksDisagree(g, order, moved, input, n, p, last, h);
  }

  lemma AncestorsFirst(g: Graph, order: seq<Id>, a: Id, v: Id) returns (moved: seq<Id>)
    requires TopologicalOrder(g, order) && EdgesClosed(g)
    requires a in NodeIds(g) && v in NodeIds(g) && !Reaches(g, v, a)
    ensures TopologicalOrder(g, moved) && !NotAfter(moved, v, a)
  {
    AncestorsEntered(g, a);
    moved := ToFront(g, order, Ancestors(g, a));
    ToFrontTopological(g, order, Ancestors(g, a));
    AfterItsAncestors(g, order, v, a);
  }

  lemma AfterItsAncestors(g: Graph, order: seq<Id>, v: Id, a: Id)
    requires TopologicalOrder(g, order) && v in NodeIds(g) && !Reaches(g, v, a) && a in NodeIds(g)
    requires TopologicalOrder(g, ToFront(g, order, Ancestors(g, a)))
    ensures !NotAfter(ToFront(g, order, Ancestors(g, a)), v, a)
  {
    var s := Ancestors(g, a);
    var first, second := Keep(order, s), Keep(order, Others(g, s));
    ReachesSelf(g, a);
    KeepElements(order, s);
    KeepElements(order, Others(g, s));
    assert v !in first && a !in second;
    BehindNotBefore(first, second, v, a);
  }

  lemma BehindNotBefore(first: seq<Id>, second: seq<Id>, v: Id, a: Id)
    requires v !in first && a !in second
    ensures !NotAfter(first + second, v, a)
  {
    var all := first + second;
    assert forall i | 0 <= i < |first| :: all[i] in first;
    assert forall j | |first| <= j < |all| :: all[j] in second;
  }

  /** Order independence, decided: runs agree along all topological orders, for all evaluators and events,
      if and only if every port fed by reachable nodes has a last source. */
  lemma OrderIndependenceDecided(g: Graph, order: seq<Id>, input: Id)
    requires TopologicalOrder(g, order) && EdgesClosed(g) && input in NodeIds(g)
    ensures OrderIndependent(g, input) <==> LastSources(g, input)
  {
    if LastSources(g, input) {
      forall cfg, o1, o2, event | TopologicalOrder(g, o1) && TopologicalOrder(g, o2)
        ensures RunsAgree(g, cfg, o1, o2, input, event)
      {
        SameAlongEveryOrder(g, cfg, o1, o2, input, event);
      }
    } else {
      var n, p, e :| n != input && FeedsFrom(g, ReachableSet(g, input), e, n, p)
        && !HasLastSource(g, ReachableSet(g, input), n, p);
      NoLastSourceSeparates(g, order, input, n, p, e);
    }
  }
}
