/** The action that completes every projection of a change and closes the publication issues, over failed and
    retried runs. Runs of one connection do not overlap: the worker holds the connection's lock. */
module IssueCompletion {
  import opened Text
  import opened Projections

  datatype Call = SetStatus(key: ChangeKey, status: Lifecycle) | Note(issue: int) | Close(issue: int)

  /** What the providers answer: `setOk` by position in the list of active projections. A call after which the
      process stops counts as failed, since the projection is not marked. */
  datatype Answers = Answers(setOk: nat -> bool, reachable: bool, noteOk: int -> bool, closeOk: int -> bool)

  /** `closes` says whether GitLab credentials are configured at all. */
  datatype Request = Request(
    workspace: Id, connection: Id, source: string, publication: string,
    status: Lifecycle, abandoned: bool, closes: bool)

  datatype Completion =
    | Missing | Guarded | StatusFailed | Unreachable | CloseFailed | Finished(closed: nat, notesFailed: bool)

  datatype Outcome = Outcome(rows: Rows, calls: seq<Call>, result: Completion)

  ghost predicate ListsFor(rows: Rows, q: Request, listed: seq<ChangeKey>) {
    Lists(rows, q.workspace, q.connection, q.source, q.publication, listed)
  }

  predicate InScope(key: ChangeKey, q: Request) {
    Matches(key, q.workspace, q.connection, q.source, q.publication)
  }

  // ---------- What one run does ----------

  function ActiveOf(rows: Rows, listed: seq<ChangeKey>): seq<ChangeKey> {
    if listed == [] then []
    else
      var last := listed[|listed| - 1];
      ActiveOf(rows, listed[..|listed| - 1]) + if last in rows && rows[last].lifecycle.Active? then [last] else []
  }

  function IssuesOf(rows: Rows, listed: seq<ChangeKey>): set<int> {
    set key, issue | key in listed && key in rows && issue in rows[key].issues && issue > 0 :: issue
  }

  /** i is the number of a publication issue of the change. */
  predicate IssueInScope(rows: Rows, q: Request, i: int) {
    i > 0 && exists key | key in rows && InScope(key, q) :: i in rows[key].issues
  }

  /** The numbers of the publication issues in ascending order. */
  ghost predicate IssueOrder(rows: Rows, q: Request, order: seq<int>) {
    (forall i, j | 0 <= i < j < |order| :: order[i] < order[j]) && forall i :: i in order <==> IssueInScope(rows, q, i)
  }

  ghost predicate AnyActive(rows: Rows, q: Request) {
    exists key | key in rows && InScope(key, q) :: rows[key].lifecycle.Active?
  }

  datatype Progress = Progress(rows: Rows, calls: seq<Call>, stopped: bool)

  /** The first k projections: call the provider, then mark. */
  function Advance(rows: Rows, active: seq<ChangeKey>, status: Lifecycle, setOk: nat -> bool, k: nat): Progress
    requires k <= |active|
  {
    if k == 0 then Progress(rows, [], false)
    else
      var p := Advance(rows, active, status, setOk, k - 1);
      if p.stopped then p
      else
        var calls := p.calls + [SetStatus(active[k - 1], status)];
        if setOk(k - 1) then Progress(Mark(p.rows, active[k - 1], status), calls, false)
        else Progress(p.rows, calls, true)
  }

  function Notes(order: seq<int>): seq<Call> {
    seq(|order|, i requires 0 <= i < |order| => Note(order[i]))
  }

  /** The first k issues, stopping at the first that cannot be closed. */
  function Closes(order: seq<int>, closeOk: int -> bool, k: nat): (seq<Call>, bool)
    requires k <= |order|
  {
    if k == 0 then ([], true)
    else
      var before := Closes(order, closeOk, k - 1);
      if before.1 then (before.0 + [Close(order[k - 1])], closeOk(order[k - 1])) else before
  }

  function Closing(p: Progress, q: Request, order: seq<int>, a: Answers): Outcome {
    if !q.closes || order == [] then Outcome(p.rows, p.calls, Finished(0, false))
    else if !a.reachable then Outcome(p.rows, p.calls, Unreachable)
    else
      var notes := if q.abandoned then Notes(order) else [];
      var closes := Closes(order, a.closeOk, |order|);
      Outcome(p.rows, p.calls + notes + closes.0,
              if closes.1 then Finished(|order|, q.abandoned && exists i | i in order :: !a.noteOk(i)) else CloseFailed)
  }

  function Complete(rows: Rows, listed: seq<ChangeKey>, q: Request, order: seq<int>, a: Answers): Outcome {
    var active := ActiveOf(rows, listed);
    if listed == [] then Outcome(rows, [], Missing)
    else if active == [] then Outcome(rows, [], Guarded)
    else
      var p := Advance(rows, active, q.status, a.setOk, |active|);
      if p.stopped then Outcome(p.rows, p.calls, StatusFailed) else Closing(p, q, order, a)
  }

  ghost predicate Ascending(order: seq<int>, s: set<int>) {
    (forall i, j | 0 <= i < j < |order| :: order[i] < order[j]) && forall x :: x in order <==> x in s
  }

  lemma {:induction false} LeastExists(s: set<int>) returns (least: int)
    requires s != {}
    ensures least in s && forall x | x in s :: least <= x
    decreases s
  {
    var some := Member(s);
    var rest := s - {some};
    assert forall x :: x in s <==> x == some || x in rest;
    least := some;
    if rest != {} {
      var other := LeastExists(rest);
      least := if other < some then other else some;
    }
  }

  method SortedInts(s: set<int>) returns (order: seq<int>)
    ensures Ascending(order, s)
  {
    order := [];
    var rest := s;
    while rest != {}
      invariant rest <= s
      invariant forall i, j | 0 <= i < j < |order| :: order[i] < order[j]
      invariant forall i | 0 <= i < |order| :: order[i] in order
      invariant forall x :: x in order <==> x in s && x !in rest
      invariant forall x, y | x in order && y in rest :: x < y
    {
      ghost var _ := LeastExists(rest);
      var least :| least in rest && forall x | x in rest :: least <= x;
      order := order + [least];
      rest := rest - {least};
    }
  }

  lemma OrderOfIssues(rows: Rows, q: Request, listed: seq<ChangeKey>, order: seq<int>)
    requires ListsFor(rows, q, listed) && Ascending(order, IssuesOf(rows, listed))
    ensures IssueOrder(rows, q, order)
  {
  }

  /** The issues that the calls close, in the order of the calls. */
  function Closed(calls: seq<Call>): seq<int> {
    if calls == [] then []
    else
      var last := calls[|calls| - 1];
      Closed(calls[..|calls| - 1]) + if last.Close? then [last.issue] else []
  }

  lemma {:induction false} ClosedAppend(calls: seq<Call>, more: seq<Call>)
    ensures Closed(calls + more) == Closed(calls) + Closed(more)
  {
    if more == [] {
      assert calls + more == calls;
    } else {
      var all := calls + more;
      assert all[..|all| - 1] == calls + more[..|more| - 1] && all[|all| - 1] == more[|more| - 1];
      ClosedAppend(calls, more[..|more| - 1]);
    }
  }

  lemma {:induction false} NoneClosed(calls: seq<Call>)
    requires forall call | call in calls :: !call.Close?
    ensures Closed(calls) == []
  {
    if calls != [] {
      NoneClosed(calls[..|calls| - 1]);
      assert calls[|calls| - 1] in calls;
    }
  }

  lemma {:induction false} ClosedCalls(calls: seq<Call>, i: int)
    ensures Close(i) in calls <==> i in Closed(calls)
  {
    if calls != [] {
      ClosedCalls(calls[..|calls| - 1], i);
      assert calls == calls[..|calls| - 1] + [calls[|calls| - 1]];
    }
  }

  /** Closing goes through the issues in order and stops at the first that cannot be closed. */
  lemma {:induction false} ClosesInOrder(order: seq<int>, closeOk: int -> bool, k: nat)
    requires k <= |order|
    ensures var (calls, ok) := Closes(order, closeOk, k);
      if ok then Closed(calls) == order[..k] && forall j | 0 <= j < k :: closeOk(order[j])
      else exists m :: 0 < m <= k && ClosedUpTo(order, closeOk, Closed(calls), m)
  {
    if k > 0 {
      ClosesInOrder(order, closeOk, k - 1);
      var (before, ok) := Closes(order, closeOk, k - 1);
      if ok {
        ClosedAppend(before, [Close(order[k - 1])]);
        TakeOneMore(order, k - 1);
        assert [Close(order[k - 1])][..0] == [];
        if !closeOk(order[k - 1]) {
          assert ClosedUpTo(order, closeOk, order[..k], k);
        }
      }
    }
  }

  /** The first m issues have been called for, and the last of them could not be closed. */
  predicate ClosedUpTo(order: seq<int>, closeOk: int -> bool, closed: seq<int>, m: nat) {
    && 0 < m <= |order| && closed == order[..m]
    && !closeOk(order[m - 1]) && forall j | 0 <= j < m - 1 :: closeOk(order[j])
  }

  /** The calls made for the publication issues: all the notes of an abandoned change, and then the closes. */
  lemma ClosingCloses(p: Progress, q: Request, order: seq<int>, a: Answers)
    requires forall call | call in p.calls :: !call.Close? && !call.Note?
    ensures var o := Closing(p, q, order, a);
      && (o.result.Finished? && q.closes ==> Closed(o.calls) == order)
      && (o.result.Finished? && !q.closes ==> Closed(o.calls) == [])
      && (o.result.CloseFailed? ==> exists m :: ClosedUpTo(order, a.closeOk, Closed(o.calls), m))
      && (o.result.CloseFailed? || (o.result.Finished? && q.closes) ==>
            forall i :: Note(i) in o.calls <==> q.abandoned && i in order)
      && (o.result.Finished? ==> o.result.closed == |Closed(o.calls)|)
      && (o.result.Finished? ==> (o.result.notesFailed <==> exists i :: Note(i) in o.calls && !a.noteOk(i)))
  {
    var notes := if q.abandoned then Notes(order) else [];
    var (closes, ok) := Closes(order, a.closeOk, |order|);
    ClosesAreCloses(order, a.closeOk, |order|);
    NoneClosed(p.calls);
    NoneClosed(notes);
    ClosedAppend(p.calls + notes, closes);
    ClosedAppend(p.calls, notes);
    assert [] + [] + Closed(closes) == Closed(closes);
    ClosesInOrder(order, a.closeOk, |order|);
    assert order[..|order|] == order;
    forall i
      ensures Note(i) in p.calls + notes + closes <==> q.abandoned && i in order
    {
      NotedCalls(order, i);
    }
    if q.closes && order != [] && a.reachable && !ok {
      var m :| 0 < m <= |order| && ClosedUpTo(order, a.closeOk, Closed(closes), m);
      assert ClosedUpTo(order, a.closeOk, Closed(Closing(p, q, order, a).calls), m);
    }
  }

  lemma NotedCalls(order: seq<int>, i: int)
    ensures Note(i) in Notes(order) <==> i in order
  {
    if i in order {
      var k :| 0 <= k < |order| && order[k] == i;
      assert Notes(order)[k] == Note(i);
    }
  }

  /** What a run does about the publication issues: nothing without an active projection; notes and closes for every
      one if it finishes; and if it stops at one, closes up to that one. */
  lemma RunCloses(rows: Rows, listed: seq<ChangeKey>, q: Request, order: seq<int>, a: Answers)
    requires ListsFor(rows, q, listed) && IssueOrder(rows, q, order)
    ensures var o := Complete(rows, listed, q, order, a);
      && (o.result.Finished? ==> AnyActive(rows, q))
      && (o.result.Finished? && q.closes ==> forall i :: Close(i) in o.calls <==> IssueInScope(rows, q, i))
      && (o.result.Finished? && !q.closes ==> forall i :: Close(i) !in o.calls)
      && (o.result.CloseFailed? ==> exists m :: ClosedUpTo(order, a.closeOk, Closed(o.calls), m))
      && (o.result.CloseFailed? || (o.result.Finished? && q.closes) ==>
            forall i :: Note(i) in o.calls <==> q.abandoned && IssueInScope(rows, q, i))
      && (o.result.Finished? ==> o.result.closed == |Closed(o.calls)|)
      && (o.result.Finished? ==> (o.result.notesFailed <==> exists i :: Note(i) in o.calls && !a.noteOk(i)))
      && (o.result.Guarded? || o.result.Missing? ==> o.calls == [] && !AnyActive(rows, q))
      && (o.result.Missing? <==> forall key | key in rows :: !InScope(key, q))
  {
    var o, active := Complete(rows, listed, q, order, a), ActiveOf(rows, listed);
    ActiveListed(rows, listed);
    forall i
      ensures Close(i) in o.calls <==> i in Closed(o.calls)
    {
      ClosedCalls(o.calls, i);
    }
    if listed != [] {
      assert listed[0] in listed;
    }
    if active != [] {
      assert active[0] in active;
      var p := Advance(rows, active, q.status, a.setOk, |active|);
      AdvanceCalls(rows, active, q.status, a.setOk, |active|);
      ClosingCloses(p, q, order, a);
    }
  }

  /** completeIssue. */
  method CompleteIssue(store: Correlations, q: Request, a: Answers)
    returns (listed: seq<ChangeKey>, order: seq<int>, calls: seq<Call>, result: Completion)
    requires !q.status.Active?
    modifies store
    ensures ListsFor(old(store.rows), q, listed) && IssueOrder(old(store.rows), q, order)
    ensures result.Finished? ==> AnyActive(old(store.rows), q)
    ensures result.Finished? && q.closes ==> forall i :: Close(i) in calls <==> IssueInScope(old(store.rows), q, i)
    ensures result.CloseFailed? ==> exists m :: ClosedUpTo(order, a.closeOk, Closed(calls), m)
    ensures Outcome(store.rows, calls, result) == Complete(old(store.rows), listed, q, order, a)
  {
    calls := [];
    listed := store.ListCorrelations(q.workspace, q.connection, q.source, q.publication);
    order := SortedInts(IssuesOf(store.rows, listed));
    OrderOfIssues(store.rows, q, listed, order);
    RunCloses(store.rows, listed, q, order, a);
    if listed == [] {
      return listed, order, calls, Missing;
    }
    var active := [];
    for k := 0 to |listed|
      invariant active == ActiveOf(store.rows, listed[..k]) && store.rows == old(store.rows)
    {
      assert listed[..k + 1][..k] == listed[..k];
      if listed[k] in store.rows && store.rows[listed[k]].lifecycle.Active? {
        active := active + [listed[k]];
      }
    }
    assert listed[..|listed|] == listed;
    if active == [] {
      return listed, order, calls, Guarded;
    }
    var stopped;
    calls, stopped := MarkActive(store, active, q.status, a.setOk);
    if stopped {
      return listed, order, calls, StatusFailed;
    }
    calls, result := CloseIssues(store.rows, calls, q, order, a);
  }

  method MarkActive(store: Correlations, active: seq<ChangeKey>, status: Lifecycle, setOk: nat -> bool)
    returns (calls: seq<Call>, stopped: bool)
    requires !status.Active?
    modifies store
    ensures Progress(store.rows, calls, stopped) == Advance(old(store.rows), active, status, setOk, |active|)
  {
    calls := [];
    for k := 0 to |active|
      invariant Progress(store.rows, calls, false) == Advance(old(store.rows), active, status, setOk, k)
    {
      calls := calls + [SetStatus(active[k], status)];
      if !setOk(k) {
        AdvanceStops(old(store.rows), active, status, setOk, k + 1, |active|);
        return calls, true;
      }
      var _ := store.MarkCorrelationLifecycle(active[k], status);
    }
    return calls, false;
  }

  method NoteIssues(order: seq<int>, noteOk: int -> bool) returns (calls: seq<Call>, failed: bool)
    ensures calls == Notes(order) && (failed <==> exists i | i in order :: !noteOk(i))
  {
    calls, failed := [], false;
    for k := 0 to |order|
      invariant calls == Notes(order)[..k]
      invariant failed <==> exists i | i in order[..k] :: !noteOk(i)
    {
      TakeOneMore(order, k);
      calls := calls + [Note(order[k])];
      if !noteOk(order[k]) {
        failed := true;
      }
    }
    assert order[..|order|] == order;
  }

  method CloseEach(order: seq<int>, closeOk: int -> bool) returns (calls: seq<Call>, ok: bool)
    ensures (calls, ok) == Closes(order, closeOk, |order|)
  {
    calls := [];
    for k := 0 to |order|
      invariant (calls, true) == Closes(order, closeOk, k)
    {
      calls := calls + [Close(order[k])];
      if !closeOk(order[k]) {
        StoppedCloses(order, closeOk, k + 1);
        return calls, false;
      }
    }
    return calls, true;
  }

  method CloseIssues(rows: Rows, marked: seq<Call>, q: Request, order: seq<int>, a: Answers)
    returns (calls: seq<Call>, result: Completion)
    ensures Outcome(rows, calls, result) == Closing(Progress(rows, marked, false), q, order, a)
  {
    if !q.closes || order == [] {
      return marked, Finished(0, false);
    }
    if !a.reachable {
      return marked, Unreachable;
    }
    var notes, notesFailed := [], false;
    if q.abandoned {
      notes, notesFailed := NoteIssues(order, a.noteOk);
    }
    var closes, closed := CloseEach(order, a.closeOk);
    return marked + notes + closes, if closed then Finished(|order|, notesFailed) else CloseFailed;
  }

  lemma {:induction false} AdvanceStops(rows: Rows, active: seq<ChangeKey>, status: Lifecycle, setOk: nat -> bool,
      k: nat, m: nat)
    requires k <= m <= |active| && Advance(rows, active, status, setOk, k).stopped
    ensures Advance(rows, active, status, setOk, m) == Advance(rows, active, status, setOk, k)
  {
    if k < m {
      AdvanceStops(rows, active, status, setOk, k, m - 1);
    }
  }

  lemma {:induction false} StoppedCloses(order: seq<int>, closeOk: int -> bool, k: nat)
    requires k <= |order| && !Closes(order, closeOk, k).1
    ensures Closes(order, closeOk, |order|) == Closes(order, closeOk, k)
    decreases |order| - k
  {
    if k < |order| {
      StoppedCloses(order, closeOk, k + 1);
    }
  }

  // ---------- One run ----------

  predicate DistinctKeys(keys: seq<ChangeKey>) {
    forall i, j | 0 <= i < j < |keys| :: keys[i] != keys[j]
  }

  lemma {:induction false} ActiveListed(rows: Rows, listed: seq<ChangeKey>)
    requires DistinctKeys(listed)
    ensures DistinctKeys(ActiveOf(rows, listed))
    ensures forall key :: key in ActiveOf(rows, listed) <==> key in listed && key in rows && rows[key].lifecycle.Active?
  {
    if listed != [] {
      ActiveListed(rows, listed[..|listed| - 1]);
      assert listed == listed[..|listed| - 1] + [listed[|listed| - 1]];
    }
  }

  /** Whatever the providers answer, the active projections are called in order, each once. */
  lemma {:induction false} AdvanceCalls(rows: Rows, active: seq<ChangeKey>, status: Lifecycle, setOk: nat -> bool,
      k: nat)
    requires k <= |active|
    ensures var p := Advance(rows, active, status, setOk, k);
      && |p.calls| <= k && (!p.stopped ==> |p.calls| == k)
      && (forall i | 0 <= i < |p.calls| :: p.calls[i] == SetStatus(active[i], status))
  {
    if k > 0 {
      AdvanceCalls(rows, active, status, setOk, k - 1);
    }
  }

  predicate RowAdvanced(before: Row, after: Row, status: Lifecycle) {
    after == before || after == before.(lifecycle := status)
  }

  lemma {:induction false} AdvanceRow(
    rows: Rows, active: seq<ChangeKey>, status: Lifecycle, setOk: nat -> bool, k: nat, key: ChangeKey)
    requires k <= |active| && DistinctKeys(active) && key in rows
    requires key in active ==> rows[key].lifecycle.Active?
    ensures var p := Advance(rows, active, status, setOk, k);
      && p.rows.Keys == rows.Keys
      && (key !in active[..k] ==> p.rows[key] == rows[key])
      && (key in active[..k] ==> RowAdvanced(rows[key], p.rows[key], status))
      && (!p.stopped && key in active[..k] ==> p.rows[key].lifecycle == status)
  {
    if k > 0 {
      AdvanceRow(rows, active, status, setOk, k - 1, key);
      TakeOneMore(active, k - 1);
      FirstTime(active, k - 1);
    }
  }

  lemma FirstTime(active: seq<ChangeKey>, k: nat)
    requires k < |active| && DistinctKeys(active)
    ensures active[k] !in active[..k]
  {
  }

  lemma AdvanceRows(rows: Rows, active: seq<ChangeKey>, status: Lifecycle, setOk: nat -> bool)
    requires DistinctKeys(active) && !status.Active?
    requires forall key | key in active :: key in rows && rows[key].lifecycle.Active?
    ensures var p := Advance(rows, active, status, setOk, |active|);
      && p.rows.Keys == rows.Keys
      && (forall key | key in rows && key !in active :: p.rows[key] == rows[key])
      && (forall key | key in active :: RowAdvanced(rows[key], p.rows[key], status))
      && (!p.stopped ==> forall key | key in active :: p.rows[key].lifecycle == status)
  {
    assert active[..|active|] == active;
    if active == [] {
      assert Advance(rows, active, status, setOk, |active|).rows == rows;
    } else {
      AdvanceRow(rows, active, status, setOk, |active|, active[0]);
      forall key | key in rows
        ensures var p := Advance(rows, active, status, setOk, |active|);
          && p.rows.Keys == rows.Keys
          && (key !in active ==> p.rows[key] == rows[key])
          && (key in active ==> RowAdvanced(rows[key], p.rows[key], status))
          && (!p.stopped && key in active ==> p.rows[key].lifecycle == status)
      {
        AdvanceRow(rows, active, status, setOk, |active|, key);
      }
    }
  }

  lemma {:induction false} ClosesAreCloses(order: seq<int>, closeOk: int -> bool, k: nat)
    requires k <= |order|
    ensures forall call | call in Closes(order, closeOk, k).0 :: call.Close?
    ensures Closes(order, closeOk, k).1 ==> forall i | 0 <= i < k :: Close(order[i]) in Closes(order, closeOk, k).0
  {
    if k > 0 {
      ClosesAreCloses(order, closeOk, k - 1);
    }
  }

  lemma ClosingEffect(p: Progress, q: Request, order: seq<int>, a: Answers)
    ensures var o := Closing(p, q, order, a);
      && o.rows == p.rows
      && p.calls <= o.calls && (forall i | |p.calls| <= i < |o.calls| :: !o.calls[i].SetStatus?)
      && (o.result.Finished? && q.closes ==> forall i | i in order :: Close(i) in o.calls)
      && (o.result.Finished? || o.result.Unreachable? || o.result.CloseFailed?)
  {
    ClosesAreCloses(order, a.closeOk, |order|);
    var notes, closes := if q.abandoned then Notes(order) else [], Closes(order, a.closeOk, |order|).0;
    var all := p.calls + notes + closes;
    forall i | |p.calls| <= i < |all|
      ensures !all[i].SetStatus?
    {
      if i < |p.calls| + |notes| {
        assert all[i] == notes[i - |p.calls|];
      } else {
        assert all[i] == closes[i - |p.calls| - |notes|] && all[i] in closes;
      }
    }
  }

  /** A projection that nothing is to be done for any more. */
  predicate AtRest(rows: Rows, key: ChangeKey) {
    key in rows && !rows[key].lifecycle.Active?
  }

  ghost predicate AllAtRest(rows: Rows, q: Request) {
    forall key | key in rows && InScope(key, q) :: AtRest(rows, key)
  }

  /** A run calls the status of active projections only, each once, and changes no row but theirs. */
  lemma RunEffect(rows: Rows, listed: seq<ChangeKey>, q: Request, order: seq<int>, a: Answers)
    requires !q.status.Active? && ListsFor(rows, q, listed)
    ensures var o := Complete(rows, listed, q, order, a);
      && (forall call | call in o.calls && call.SetStatus? :: call.key in rows && rows[call.key].lifecycle.Active?)
      && (forall i, j | 0 <= i < j < |o.calls| && o.calls[i].SetStatus? && o.calls[j].SetStatus? ::
            o.calls[i].key != o.calls[j].key)
      && o.rows.Keys == rows.Keys
      && (forall key | key in rows :: o.rows[key] == rows[key]
            || (InScope(key, q) && rows[key].lifecycle.Active? && o.rows[key] == rows[key].(lifecycle := q.status)))
  {
    var active := ActiveOf(rows, listed);
    ActiveListed(rows, listed);
    if active != [] {
      AdvanceRows(rows, active, q.status, a.setOk);
      AdvanceCalls(rows, active, q.status, a.setOk, |active|);
      assert active[..|active|] == active;
      ClosingEffect(Advance(rows, active, q.status, a.setOk, |active|), q, order, a);
    }
  }

  /** However the closing of the GitLab issues goes, once every status call has succeeded no listed projection
      is active; a successful run in particular leaves all of them terminal. */
  lemma MarkedRunsRest(rows: Rows, listed: seq<ChangeKey>, q: Request, order: seq<int>, a: Answers)
    requires !q.status.Active? && ListsFor(rows, q, listed)
    requires !Complete(rows, listed, q, order, a).result.StatusFailed?
    ensures AllAtRest(Complete(rows, listed, q, order, a).rows, q)
  {
    var active := ActiveOf(rows, listed);
    ActiveListed(rows, listed);
    if active != [] {
      AdvanceRows(rows, active, q.status, a.setOk);
      assert active[..|active|] == active;
    }
  }

  /** With nothing active left, a run makes no provider call at all. */
  lemma RestIsSilent(rows: Rows, listed: seq<ChangeKey>, q: Request, order: seq<int>, a: Answers)
    requires ListsFor(rows, q, listed) && AllAtRest(rows, q)
    ensures Complete(rows, listed, q, order, a) == Outcome(rows, [], if listed == [] then Missing else Guarded)
  {
    NoneActive(rows, listed);
  }

  lemma {:induction false} NoneActive(rows: Rows, listed: seq<ChangeKey>)
    requires forall key | key in listed :: AtRest(rows, key)
    ensures ActiveOf(rows, listed) == []
  {
    if listed != [] {
      NoneActive(rows, listed[..|listed| - 1]);
      assert listed[|listed| - 1] in listed;
    }
  }

  /** A successful run closes the publication issues exactly when it found an active projection: a retry of a
      run that failed at closing them reports success without closing any. */
  lemma ClosesIffActive(rows: Rows, listed: seq<ChangeKey>, q: Request, order: seq<int>, a: Answers)
    requires ListsFor(rows, q, listed) && IssueOrder(rows, q, order) && q.closes
    requires Complete(rows, listed, q, order, a).result.Finished? || Complete(rows, listed, q, order, a).result.Guarded?
    ensures forall i :: Close(i) in Complete(rows, listed, q, order, a).calls <==>
      IssueInScope(rows, q, i) && AnyActive(rows, q)
  {
    RunCloses(rows, listed, q, order, a);
  }

  // ---------- Any number of runs ----------

  datatype Event =
    | Publish(key: ChangeKey, row: Row)
    | Attempt(q: Request, listed: seq<ChangeKey>, order: seq<int>, answers: Answers)

  ghost function Step(rows: Rows, e: Event): Outcome {
    match e
    case Publish(key, row) => Outcome(Upsert(rows, key, row), [], Missing)
    case Attempt(q, listed, order, answers) => Complete(rows, listed, q, order, answers)
  }

  ghost function Play(rows: Rows, events: seq<Event>): Outcome {
    if events == [] then Outcome(rows, [], Missing)
    else
      var before := Play(rows, events[..|events| - 1]);
      var o := Step(before.rows, events[|events| - 1]);
      Outcome(o.rows, before.calls + o.calls, o.result)
  }

  ghost predicate Proper(rows: Rows, e: Event) {
    e.Attempt? ==> !e.q.status.Active? && ListsFor(rows, e.q, e.listed)
  }

  ghost predicate ProperEvents(rows: Rows, events: seq<Event>) {
    events == []
    || (ProperEvents(rows, events[..|events| - 1])
         && Proper(Play(rows, events[..|events| - 1]).rows, events[|events| - 1]))
  }

  lemma StepKeepsRest(rows: Rows, e: Event, key: ChangeKey)
    requires Proper(rows, e) && AtRest(rows, key)
    ensures AtRest(Step(rows, e).rows, key) && Step(rows, e).rows[key].lifecycle == rows[key].lifecycle
    ensures forall call | call in Step(rows, e).calls && call.SetStatus? :: call.key != key
  {
    if e.Attempt? {
      RunEffect(rows, e.listed, e.q, e.order, e.answers);
    }
  }

  /** Across any number of failed and repeated runs and new publications, a terminal projection keeps its
      status and gets no status call. */
  lemma {:induction false} TerminalNeverCalled(rows: Rows, events: seq<Event>, key: ChangeKey)
    requires ProperEvents(rows, events) && AtRest(rows, key)
    ensures var o := Play(rows, events);
      && AtRest(o.rows, key) && o.rows[key].lifecycle == rows[key].lifecycle
      && forall call | call in o.calls && call.SetStatus? :: call.key != key
  {
    if events != [] {
      TerminalNeverCalled(rows, events[..|events| - 1], key);
      StepKeepsRest(Play(rows, events[..|events| - 1]).rows, events[|events| - 1], key);
    }
  }

  /** No publication adds a projection to the scope. */
  ghost predicate NothingNew(rows: Rows, events: seq<Event>, q: Request) {
    forall e | e in events && e.Publish? && InScope(e.key, q) :: e.key in rows
  }

  ghost predicate SameScope(q: Request, e: Event) {
    e.Attempt? && e.q.workspace == q.workspace && e.q.connection == q.connection && e.q.source == q.source
    && e.q.publication == q.publication
  }

  ghost predicate Rested(rows: Rows, rows': Rows, q: Request) {
    AllAtRest(rows', q) && forall key | InScope(key, q) :: key in rows' <==> key in rows
  }

  lemma StepRested(rows: Rows, before: Rows, e: Event, q: Request)
    requires Rested(rows, before, q) && Proper(before, e)
    requires e.Publish? && InScope(e.key, q) ==> e.key in rows
    ensures Rested(rows, Step(before, e).rows, q)
  {
    if e.Attempt? {
      RunEffect(before, e.listed, e.q, e.order, e.answers);
    }
    forall key | key in Step(before, e).rows && InScope(key, q)
      ensures AtRest(Step(before, e).rows, key)
    {
      StepKeepsRest(before, e, key);
    }
  }

  lemma {:induction false} RestStays(rows: Rows, events: seq<Event>, q: Request)
    requires ProperEvents(rows, events) && AllAtRest(rows, q) && NothingNew(rows, events, q)
    ensures Rested(rows, Play(rows, events).rows, q)
  {
    if events != [] {
      RestStays(rows, events[..|events| - 1], q);
      StepRested(rows, Play(rows, events[..|events| - 1]).rows, events[|events| - 1], q);
    }
  }

  /** Once a run has marked its projections, whether it then succeeded or failed to close the issues, every
      later run for the change makes no provider call, until a new projection is published. So issues that
      the failed run left open are closed by no later one. */
  lemma MarkedOnceThenSilent(
    rows: Rows, first: Event, events: seq<Event>, again: Event)
    requires first.Attempt? && Proper(rows, first) && !Step(rows, first).result.StatusFailed?
    requires ProperEvents(Step(rows, first).rows, events) && NothingNew(Step(rows, first).rows, events, first.q)
    requires SameScope(first.q, again) && Proper(Play(Step(rows, first).rows, events).rows, again)
    ensures var rows' := Play(Step(rows, first).rows, events).rows;
      Step(rows', again) == Outcome(rows', [], if again.listed == [] then Missing else Guarded)
  {
    MarkedRunsRest(rows, first.listed, first.q, first.order, first.answers);
    RestStays(Step(rows, first).rows, events, first.q);
    RestIsSilent(Play(Step(rows, first).rows, events).rows, again.listed, again.q, again.order, again.answers);
  }
}
