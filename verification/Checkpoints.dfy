/** The node records of one execution, written by any number of interleaved runs of it: attempt numbers, the
    single success of each connector, and exactly when a run may start without endangering that. */
module Checkpoints {
  import opened Text

  datatype Status = InProgress | Succeeded | Skipped | Failed | Indeterminate

  /** Rows are unique in node and attempt. */
  type Records = map<(Id, nat), Status>

  datatype Latest = Latest(attempt: nat, status: Status)

  datatype Row = Row(node: Id, attempt: nat, status: Status)

  /** Every node's row with the highest attempt. */
  ghost predicate IsLatest(records: Records, latest: map<Id, Latest>) {
    && (forall n | n in latest ::
         (n, latest[n].attempt) in records && records[(n, latest[n].attempt)] == latest[n].status)
    && (forall n, a | (n, a) in records :: n in latest && a <= latest[n].attempt)
  }

  /** The rows are those of the table, each once. */
  ghost predicate Lists(rows: seq<Row>, records: Records) {
    && (forall i | 0 <= i < |rows| ::
          (rows[i].node, rows[i].attempt) in records && records[(rows[i].node, rows[i].attempt)] == rows[i].status)
    && (forall n, a | (n, a) in records :: exists i :: 0 <= i < |rows| && rows[i].node == n && rows[i].attempt == a)
  }

  function Insert(records: Records, node: Id, attempt: nat): (Records, bool) {
    if (node, attempt) in records then (records, false) else (records[(node, attempt) := InProgress], true)
  }

  /** A row that is not there is an error. */
  function Rewrite(records: Records, node: Id, attempt: nat, status: Status): (Records, bool) {
    if (node, attempt) in records then (records[(node, attempt) := status], true) else (records, false)
  }

  class NodeTable {
    var records: Records

    method CreateNodeExecution(node: Id, attempt: nat) returns (ok: bool)
      modifies this
      ensures (records, ok) == Insert(old(records), node, attempt)
    {
      ok := (node, attempt) !in records;
      if ok {
        records := records[(node, attempt) := InProgress];
      }
    }

    method UpdateNodeExecution(node: Id, attempt: nat, status: Status) returns (found: bool)
      modifies this
      ensures (records, found) == Rewrite(old(records), node, attempt, status)
    {
      found := (node, attempt) in records;
      if found {
        records := records[(node, attempt) := status];
      }
    }
  }

  /** latestNodeExecutions, over the rows of the table in any order. */
  method LatestNodeExecutions(rows: seq<Row>, ghost records: Records) returns (latest: map<Id, Latest>)
    requires Lists(rows, records)
    ensures IsLatest(records, latest)
  {
    latest := map[];
    for k := 0 to |rows|
      invariant forall n | n in latest ::
        (n, latest[n].attempt) in records && records[(n, latest[n].attempt)] == latest[n].status
      invariant forall i | 0 <= i < k :: rows[i].node in latest && rows[i].attempt <= latest[rows[i].node].attempt
    {
      var item := rows[k];
      if item.node !in latest || item.attempt > latest[item.node].attempt {
        latest := latest[item.node := Latest(item.attempt, item.status)];
      }
    }
    forall n, a | (n, a) in records
      ensures n in latest && a <= latest[n].attempt
    {
      var i :| 0 <= i < |rows| && rows[i].node == n && rows[i].attempt == a;
    }
  }

  // ---------- Interleaved runs ----------

  /** Where a run stands: between nodes, about to call the node's adapter, or holding its answer. */
  datatype Place = Between | Calling(node: Id, attempt: nat) | Answered(node: Id, attempt: nat, status: Status)

  datatype Run = Run(latest: map<Id, Latest>, visited: set<Id>, place: Place)

  datatype System = System(connectors: set<Id>, records: Records, runs: map<nat, Run>)

  datatype Action =
    | Start(r: nat, latest: map<Id, Latest>)
    | Enter(r: nat, node: Id)
    | Answer(r: nat, status: Status)
    | Record(r: nat)
    | Stop(r: nat)

  /** A connector that succeeded or was skipped when the run began is resumed, not executed. */
  predicate Resumes(s: System, run: Run, node: Id) {
    node in s.connectors && node in run.latest
      && (run.latest[node].status.Succeeded? || run.latest[node].status.Skipped?)
  }

  function NextAttempt(run: Run, node: Id): nat {
    if node in run.latest then run.latest[node].attempt + 1 else 1
  }

  function DoEnter(s: System, r: nat, node: Id): System
    requires r in s.runs
  {
    var run := s.runs[r];
    var seen := run.(visited := run.visited + {node});
    if Resumes(s, run, node) then s.(runs := s.runs[r := seen])
    else
      var attempt := NextAttempt(run, node);
      var (records, inserted) := Insert(s.records, node, attempt);
      if !inserted then s.(runs := s.runs - {r})
      else s.(records := records, runs := s.runs[r := seen.(place := Calling(node, attempt))])
  }

  function DoRecord(s: System, r: nat): System
    requires r in s.runs && s.runs[r].place.Answered?
  {
    var place := s.runs[r].place;
    var (records, found) := Rewrite(s.records, place.node, place.attempt, place.status);
    s.(records := records,
       runs := if found && place.status.Succeeded? then s.runs[r := s.runs[r].(place := Between)] else s.runs - {r})
  }

  /** An action that is not enabled changes nothing. */
  ghost function Do(s: System, a: Action): System {
    match a
    case Start(r, latest) =>
      if r !in s.runs && IsLatest(s.records, latest) then s.(runs := s.runs[r := Run(latest, {}, Between)]) else s
    case Enter(r, node) =>
      if r in s.runs && s.runs[r].place.Between? && node !in s.runs[r].visited then DoEnter(s, r, node) else s
    case Answer(r, status) =>
      if r in s.runs && s.runs[r].place.Calling? && !status.InProgress?
      then s.(runs := s.runs[r := s.runs[r].(place := Answered(s.runs[r].place.node, s.runs[r].place.attempt, status))])
      else s
    case Record(r) => if r in s.runs && s.runs[r].place.Answered? then DoRecord(s, r) else s
    case Stop(r) => s.(runs := s.runs - {r})
  }

  ghost function After(s: System, actions: seq<Action>): System {
    if actions == [] then s else Do(After(s, actions[..|actions| - 1]), actions[|actions| - 1])
  }

  // ---------- What the steps of a run do ----------

  /** The other runs stay where they are. */
  ghost predicate OthersStay(s: System, s': System, r: nat) {
    && s'.connectors == s.connectors
    && (forall x | x in s.runs && x != r :: x in s'.runs && s'.runs[x] == s.runs[x])
    && (forall x | x in s'.runs && x != r :: x in s.runs)
  }

  /** The connector's result is known from an earlier run. */
  predicate Known(s: System, run: Run, node: Id) {
    node in s.connectors && node in run.latest && run.latest[node].status in {Succeeded, Skipped}
  }

  /** Taking up a node: a known result needs no row and no call; any other node gets a row of its own, one attempt
      after the last the run knows of, before its adapter is called; a row that is taken ends the run. */
  lemma EnterDoes(s: System, r: nat, node: Id, last: nat)
    requires r in s.runs && s.runs[r].place.Between? && node !in s.runs[r].visited
    requires if node in s.runs[r].latest then last == s.runs[r].latest[node].attempt else last == 0
    ensures var s', run, visited := Do(s, Enter(r, node)), s.runs[r], s.runs[r].visited + {node};
      && OthersStay(s, s', r)
      && (Known(s, run, node) ==>
            s'.records == s.records && r in s'.runs && s'.runs[r] == Run(run.latest, visited, Between))
      && (!Known(s, run, node) && (node, last + 1) in s.records ==> s'.records == s.records && r !in s'.runs)
      && (!Known(s, run, node) && (node, last + 1) !in s.records ==>
            && s'.records == s.records[(node, last + 1) := InProgress]
            && r in s'.runs && s'.runs[r] == Run(run.latest, visited, Calling(node, last + 1)))
  {
  }

  /** Recording an answer: the row gets the answered status, and the run goes on exactly after a success. */
  lemma RecordDoes(s: System, r: nat, node: Id, attempt: nat, status: Status)
    requires r in s.runs && s.runs[r].place == Answered(node, attempt, status) && (node, attempt) in s.records
    ensures var s', run := Do(s, Record(r)), s.runs[r];
      && OthersStay(s, s', r)
      && s'.records == s.records[(node, attempt) := status]
      && (r in s'.runs <==> status == Succeeded)
      && (r in s'.runs ==> s'.runs[r] == Run(run.latest, run.visited, Between))
  {
  }

  /** An answer waits to be recorded, a stop leaves the rows as they are, and a start reads the latest rows. */
  lemma OtherStepsDo(s: System, r: nat, status: Status, latest: map<Id, Latest>)
    ensures OthersStay(s, Do(s, Answer(r, status)), r) && Do(s, Answer(r, status)).records == s.records
    ensures r in s.runs && s.runs[r].place.Calling? && status != InProgress ==>
      var run := s.runs[r];
      r in Do(s, Answer(r, status)).runs && Do(s, Answer(r, status)).runs[r]
        == Run(run.latest, run.visited, Answered(run.place.node, run.place.attempt, status))
    ensures OthersStay(s, Do(s, Stop(r)), r) && r !in Do(s, Stop(r)).runs && Do(s, Stop(r)).records == s.records
    ensures r !in s.runs && IsLatest(s.records, latest) ==>
      var s' := Do(s, Start(r, latest));
      OthersStay(s, s', r) && s'.records == s.records && r in s'.runs && s'.runs[r] == Run(latest, {}, Between)
  {
  }

  // ---------- Attempt numbers, under every interleaving ----------

  ghost predicate Contiguous(records: Records) {
    forall n, a | (n, a) in records :: 1 <= a && (a > 1 ==> (n, a - 1) in records)
  }

  ghost predicate Numbered(s: System) {
    && Contiguous(s.records)
    && (forall r, n | r in s.runs && n in s.runs[r].latest :: (n, s.runs[r].latest[n].attempt) in s.records)
    && (forall r | r in s.runs && !s.runs[r].place.Between? ::
         (s.runs[r].place.node, s.runs[r].place.attempt) in s.records)
  }

  lemma StepNumbered(s: System, a: Action)
    requires Numbered(s)
    ensures Numbered(Do(s, a))
  {
  }

  /** Attempts of a node are 1, 2, 3, ... without gaps, however runs overlap. */
  lemma {:induction false} AttemptsHaveNoGaps(s: System, actions: seq<Action>)
    requires Numbered(s)
    ensures Numbered(After(s, actions))
  {
    if actions != [] {
      AttemptsHaveNoGaps(s, actions[..|actions| - 1]);
      StepNumbered(After(s, actions[..|actions| - 1]), actions[|actions| - 1]);
    }
  }

  lemma {:induction false} AllLowerAttempts(records: Records, n: Id, a: nat, b: nat)
    requires Contiguous(records) && (n, a) in records && 1 <= b <= a
    ensures (n, b) in records
    decreases a
  {
    if b < a {
      AllLowerAttempts(records, n, a - 1, b);
    }
  }

  // ---------- One success per connector ----------

  predicate InFlight(run: Run, n: Id, a: nat) {
    !run.place.Between? && run.place.node == n && run.place.attempt == a
  }

  /** The run may still record a success under (n, a). */
  predicate Pending(run: Run, n: Id, a: nat) {
    InFlight(run, n, a) && (run.place.Answered? ==> run.place.status.Succeeded?)
  }

  predicate MaySucceed(s: System, n: Id, a: nat) {
    && (n, a) in s.records
    && (s.records[(n, a)].Succeeded? || exists r | r in s.runs :: Pending(s.runs[r], n, a))
  }

  /** The run could still execute the node. */
  predicate Executes(s: System, run: Run, n: Id) {
    n !in run.visited && !Resumes(s, run, n)
  }

  /** A run in flight works on a row of its own, still in progress. */
  ghost predicate FlightsApart(s: System) {
    && (forall r | r in s.runs && !s.runs[r].place.Between? ::
          (s.runs[r].place.node, s.runs[r].place.attempt) in s.records
          && s.records[(s.runs[r].place.node, s.runs[r].place.attempt)].InProgress?)
    && (forall r, r' | r in s.runs && r' in s.runs && !s.runs[r].place.Between?
          && InFlight(s.runs[r'], s.runs[r].place.node, s.runs[r].place.attempt) :: r == r')
  }

  ghost predicate LastAttempt(s: System, n: Id, a: nat) {
    forall b: nat | (n, b) in s.records :: b <= a
  }

  /** No run would execute n under a later attempt. */
  ghost predicate ViewsBehind(s: System, n: Id, a: nat) {
    forall r | r in s.runs && Executes(s, s.runs[r], n) :: NextAttempt(s.runs[r], n) <= a
  }

  ghost predicate Guarded(s: System) {
    forall n, a: nat | n in s.connectors && MaySucceed(s, n, a) :: LastAttempt(s, n, a) && ViewsBehind(s, n, a)
  }

  ghost predicate Inv(s: System) {
    Numbered(s) && FlightsApart(s) && Guarded(s)
  }

  /** No run of the execution may still record a success of a connector. */
  ghost predicate Quiet(s: System) {
    forall r, n, a: nat | r in s.runs && n in s.connectors :: !Pending(s.runs[r], n, a)
  }

  lemma StartKeeps(s: System, r: nat, latest: map<Id, Latest>)
    requires Inv(s) && Quiet(s) && r !in s.runs && IsLatest(s.records, latest)
    ensures Inv(Do(s, Start(r, latest)))
  {
    var s' := Do(s, Start(r, latest));
    forall n, a: nat | n in s'.connectors && MaySucceed(s', n, a)
      ensures LastAttempt(s', n, a) && ViewsBehind(s', n, a)
    {
      assert MaySucceed(s, n, a) && s.records[(n, a)].Succeeded?;
      assert latest[n] == Latest(a, Succeeded);
    }
  }

  lemma CreateKeeps(s: System, r: nat, node: Id)
    requires Inv(s) && r in s.runs && s.runs[r].place.Between? && node !in s.runs[r].visited
    requires !Resumes(s, s.runs[r], node) && (node, NextAttempt(s.runs[r], node)) !in s.records
    ensures Inv(DoEnter(s, r, node))
  {
    var s' := DoEnter(s, r, node);
    StepNumbered(s, Enter(r, node));
    var next := NextAttempt(s.runs[r], node);
    forall n, a: nat | n in s'.connectors && MaySucceed(s', n, a)
      ensures LastAttempt(s', n, a) && ViewsBehind(s', n, a)
    {
      if n == node && a == next {
        NewAttemptIsLast(s, node, next);
      } else {
        assert MaySucceed(s, n, a);
        if n == node {
          AllLowerAttempts(s.records, n, a, next);
        }
      }
    }
  }

  /** An attempt that does not exist yet lies beyond all that do. */
  lemma NewAttemptIsLast(s: System, n: Id, a: nat)
    requires Numbered(s) && a >= 1 && (n, a) !in s.records
    ensures forall b: nat | (n, b) in s.records :: b < a
    ensures forall r | r in s.runs :: NextAttempt(s.runs[r], n) <= a
  {
    forall b: nat | (n, b) in s.records
      ensures b < a
    {
      if b >= a {
        AllLowerAttempts(s.records, n, b, a);
      }
    }
  }

  /** Steps that add no row and no view, and open no new chance of success. */
  lemma FewerChances(s: System, s': System)
    requires Inv(s) && Numbered(s') && FlightsApart(s') && s'.connectors == s.connectors
    requires s'.records.Keys == s.records.Keys
    requires forall n, a: nat | MaySucceed(s', n, a) :: MaySucceed(s, n, a)
    requires forall r, n | r in s'.runs && Executes(s', s'.runs[r], n) ::
      r in s.runs && Executes(s, s.runs[r], n) && s'.runs[r].latest == s.runs[r].latest
    ensures Inv(s')
  {
    forall n, a: nat | n in s'.connectors && MaySucceed(s', n, a)
      ensures LastAttempt(s', n, a) && ViewsBehind(s', n, a)
    {
      assert LastAttempt(s, n, a) && ViewsBehind(s, n, a);
    }
  }

  lemma EnterKeeps(s: System, r: nat, node: Id)
    requires Inv(s) && r in s.runs && s.runs[r].place.Between? && node !in s.runs[r].visited
    ensures Inv(DoEnter(s, r, node))
  {
    StepNumbered(s, Enter(r, node));
    if Resumes(s, s.runs[r], node) || (node, NextAttempt(s.runs[r], node)) in s.records {
      FewerChances(s, DoEnter(s, r, node));
    } else {
      CreateKeeps(s, r, node);
    }
  }

  lemma AnswerKeeps(s: System, r: nat, status: Status)
    requires Inv(s)
    ensures Inv(Do(s, Answer(r, status)))
  {
    var s' := Do(s, Answer(r, status));
    if s' != s {
      StepNumbered(s, Answer(r, status));
      AnswerKeepsPlaces(s, r, status);
      FewerChances(s, s');
    }
  }

  lemma AnswerKeepsPlaces(s: System, r: nat, status: Status)
    ensures var s' := Do(s, Answer(r, status));
      && s'.records == s.records && s'.runs.Keys == s.runs.Keys
      && (forall x, n, a: nat | x in s.runs ::
            && s'.runs[x].latest == s.runs[x].latest && s'.runs[x].visited == s.runs[x].visited
            && (InFlight(s'.runs[x], n, a) <==> InFlight(s.runs[x], n, a))
            && (Pending(s'.runs[x], n, a) ==> Pending(s.runs[x], n, a)))
  {
  }

  lemma RecordKeeps(s: System, r: nat)
    requires Inv(s) && r in s.runs && s.runs[r].place.Answered?
    ensures Inv(DoRecord(s, r))
  {
    var s', place := DoRecord(s, r), s.runs[r].place;
    StepNumbered(s, Record(r));
    assert InFlight(s.runs[r], place.node, place.attempt);
    forall n, a: nat | MaySucceed(s', n, a)
      ensures MaySucceed(s, n, a)
    {
      if n == place.node && a == place.attempt && place.status.Succeeded? {
        assert Pending(s.runs[r], n, a);
      }
    }
    FewerChances(s, s');
  }

  lemma StopKeeps(s: System, r: nat)
    requires Inv(s)
    ensures Inv(Do(s, Stop(r)))
  {
    FewerChances(s, Do(s, Stop(r)));
  }

  lemma StepKeeps(s: System, a: Action)
    requires Inv(s) && (a.Start? ==> Quiet(s))
    ensures Inv(Do(s, a))
  {
    match a
    case Start(r, latest) => if r !in s.runs && IsLatest(s.records, latest) { StartKeeps(s, r, latest); }
    case Enter(r, node) =>
      if r in s.runs && s.runs[r].place.Between? && node !in s.runs[r].visited {
        EnterKeeps(s, r, node);
      }
    case Answer(r, status) => AnswerKeeps(s, r, status);
    case Record(r) => if r in s.runs && s.runs[r].place.Answered? { RecordKeeps(s, r); }
    case Stop(r) => StopKeeps(s, r);
  }

  /** Every run starts at a quiet moment. A lock held for the whole of a run gives that, and so does its crash. */
  ghost predicate QuietStarts(s: System, actions: seq<Action>) {
    actions == []
    || (var front, a := actions[..|actions| - 1], actions[|actions| - 1];
        QuietStarts(s, front) && (a.Start? ==> Quiet(After(s, front))))
  }

  ghost predicate OneSuccess(s: System) {
    forall n, a: nat, b: nat | n in s.connectors && (n, a) in s.records && (n, b) in s.records
      && s.records[(n, a)].Succeeded? && s.records[(n, b)].Succeeded? :: a == b
  }

  /** No adapter is about to be called for a connector that has succeeded. */
  ghost predicate NoCallAfterSuccess(s: System) {
    forall r, a: nat | r in s.runs && s.runs[r].place.Calling? && s.runs[r].place.node in s.connectors
      && (s.runs[r].place.node, a) in s.records :: !s.records[(s.runs[r].place.node, a)].Succeeded?
  }

  lemma InvOneSuccess(s: System)
    requires Inv(s)
    ensures OneSuccess(s) && NoCallAfterSuccess(s)
  {
    forall n, a: nat, b: nat | n in s.connectors && (n, a) in s.records && (n, b) in s.records
      && s.records[(n, a)].Succeeded? && s.records[(n, b)].Succeeded?
      ensures a == b
    {
      assert MaySucceed(s, n, a) && MaySucceed(s, n, b);
      assert LastAttempt(s, n, a) && LastAttempt(s, n, b);
    }
    forall r, a: nat | r in s.runs && s.runs[r].place.Calling? && s.runs[r].place.node in s.connectors
      && (s.runs[r].place.node, a) in s.records
      ensures !s.records[(s.runs[r].place.node, a)].Succeeded?
    {
      var n, mine := s.runs[r].place.node, s.runs[r].place.attempt;
      assert Pending(s.runs[r], n, mine);
      assert MaySucceed(s, n, mine) && LastAttempt(s, n, mine);
      assert s.records[(n, a)].Succeeded? ==> MaySucceed(s, n, a);
    }
  }

  lemma {:induction false} QuietRunsKeep(s: System, actions: seq<Action>)
    requires Inv(s) && QuietStarts(s, actions)
    ensures Inv(After(s, actions))
  {
    if actions != [] {
      QuietRunsKeep(s, actions[..|actions| - 1]);
      StepKeeps(After(s, actions[..|actions| - 1]), actions[|actions| - 1]);
    }
  }

  /** Checkpoint resume: over any number of runs, interrupted anywhere, each connector succeeds at most once
      and its adapter is not called after that. */
  lemma CheckpointsHold(s: System, actions: seq<Action>)
    requires Inv(s) && QuietStarts(s, actions)
    ensures OneSuccess(After(s, actions)) && NoCallAfterSuccess(After(s, actions))
  {
    QuietRunsKeep(s, actions);
    InvOneSuccess(After(s, actions));
  }

  // ---------- A run that starts too early ----------

  lemma {:induction false} AfterAppend(s: System, before: seq<Action>, later: seq<Action>)
    ensures After(s, before + later) == After(After(s, before), later)
  {
    var actions := before + later;
    if later == [] {
      assert actions == before;
    } else {
      assert actions[..|actions| - 1] == before + later[..|later| - 1];
      assert actions[|actions| - 1] == later[|later| - 1];
      AfterAppend(s, before, later[..|later| - 1]);
    }
  }

  lemma AfterOne(s: System, a: Action)
    ensures After(s, [a]) == Do(s, a)
  {
    assert [a][..0] == [];
    assert After(s, [a][..0]) == s;
  }

  lemma NoStartsQuiet(s: System, actions: seq<Action>)
    requires forall a | a in actions :: !a.Start?
    ensures QuietStarts(s, actions)
  {
  }

  /** The run in flight gets its success recorded. */
  lemma FlightLands(s: System, r: nat, n: Id, a: nat) returns (actions: seq<Action>, s': System)
    requires r in s.runs && Pending(s.runs[r], n, a) && (n, a) in s.records
    ensures s' == After(s, actions) && forall x | x in actions :: !x.Start?
    ensures s'.records == s.records[(n, a) := Succeeded] && s'.connectors == s.connectors
    ensures forall x | x in s.runs && x != r :: x in s'.runs && s'.runs[x] == s.runs[x]
  {
    if s.runs[r].place.Answered? {
      actions := [Record(r)];
      s' := Do(s, Record(r));
      AfterOne(s, Record(r));
    } else {
      actions := [Answer(r, Succeeded)] + [Record(r)];
      AfterAppend(s, [Answer(r, Succeeded)], [Record(r)]);
      AfterOne(s, Answer(r, Succeeded));
      AfterOne(Do(s, Answer(r, Succeeded)), Record(r));
      s' := Do(Do(s, Answer(r, Succeeded)), Record(r));
    }
  }

  lemma EarlyRunRepeats(s: System, r: nat, n: Id, a: nat, r': nat, latest: map<Id, Latest>)
    returns (actions: seq<Action>)
    requires Inv(s) && n in s.connectors && r in s.runs && Pending(s.runs[r], n, a)
    requires r' !in s.runs && IsLatest(s.records, latest)
    ensures forall x | x in actions :: !x.Start?
    ensures !OneSuccess(After(Do(s, Start(r', latest)), actions))
  {
    assert MaySucceed(s, n, a) && LastAttempt(s, n, a);
    var s1 := Do(s, Start(r', latest));
    assert latest[n].attempt == a && !latest[n].status.Succeeded?;
    var s2 := Do(s1, Enter(r', n));
    AfterOne(s1, Enter(r', n));
    assert Pending(s2.runs[r'], n, a + 1);
    var first, s3 := FlightLands(s2, r, n, a);
    var second, s4 := FlightLands(s3, r', n, a + 1);
    actions := [Enter(r', n)] + first + second;
    AfterAppend(s1, [Enter(r', n)] + first, second);
    AfterAppend(s1, [Enter(r', n)], first);
    assert s4.records[(n, a)].Succeeded? && s4.records[(n, a + 1)].Succeeded?;
  }

  /** Starting a run is safe exactly at a quiet moment: if a connector's success may still be recorded, the new
      run can go on to call the connector again and record a second success. */
  lemma StartIsSafeWhenQuiet(s: System, r: nat, latest: map<Id, Latest>)
    requires Inv(s) && r !in s.runs && IsLatest(s.records, latest)
    ensures Quiet(s) <==>
      forall actions | QuietStarts(Do(s, Start(r, latest)), actions) ::
        OneSuccess(After(Do(s, Start(r, latest)), actions))
  {
    var s1 := Do(s, Start(r, latest));
    if Quiet(s) {
      StartKeeps(s, r, latest);
      forall actions | QuietStarts(s1, actions)
        ensures OneSuccess(After(s1, actions))
      {
        CheckpointsHold(s1, actions);
      }
    } else {
      var f, n, a: nat :| f in s.runs && n in s.connectors && Pending(s.runs[f], n, a);
      var actions := EarlyRunRepeats(s, f, n, a, r, latest);
      NoStartsQuiet(s1, actions);
    }
  }
}
