/** What unguarded status writes can undo: when a succeeded execution is final, and how a lease that expires
    under its holder loses work. */
module StaleWrites {
  import opened Text
  import opened RuntimeStore
  import opened StoreHistory
  import opened JobProtocol

  /** Someone holds an old copy of the row: an operator's pending attention request, or a thread running the
      execution. */
  predicate StaleWriter(s: System, e: Id)
    requires e in s.t.executions
  {
    || (exists rid | rid in s.pending :: HasRead(s, rid, e))
    || (exists tid | tid in s.threads :: RunsNow(s, tid, e))
  }

  predicate HasRead(s: System, rid: nat, e: Id)
    requires rid in s.pending && e in s.t.executions
  {
    s.pending[rid].execution == e && s.pending[rid].workspace == s.t.executions[e].workspace
  }

  predicate RunsNow(s: System, tid: nat, e: Id)
    requires tid in s.threads && e in s.t.executions
  {
    && s.threads[tid].execution == e && s.threads[tid].workspace == s.t.executions[e].workspace
    && (s.threads[tid].stage.Loaded? || s.threads[tid].stage.Working?)
  }

  /** What the protocol keeps about the copies that are around. */
  ghost predicate CopiesShaped(s: System) {
    && (forall e | e in s.t.executions :: s.t.executions[e].workspace != "")
    && (forall r | r in s.pending :: Actionable(s.pending[r].copy.status))
    && (forall tid | tid in s.threads && s.threads[tid].stage.Working? :: s.threads[tid].stage.copy.status.Running?)
  }

  lemma {:induction false} RunCopiesShaped(s: System, actions: seq<Action>)
    requires CopiesShaped(s)
    ensures CopiesShaped(Run(s, actions))
  {
    if actions != [] {
      RunCopiesShaped(s, actions[..|actions| - 1]);
      StepCopiesShaped(Run(s, actions[..|actions| - 1]), actions[|actions| - 1]);
    }
  }

  lemma StepCopiesShaped(s: System, a: Action)
    requires CopiesShaped(s)
    ensures CopiesShaped(Do(s, a))
  {
    if a.WriteAttention? && a.rid in s.pending && !a.attention.NoAttention? {
      WorkspacesStay(s.t, UpdateOp(s.pending[a.rid].workspace, s.pending[a.rid].execution,
                                   s.pending[a.rid].copy.(attention := a.attention, actor := a.actor)));
    } else if a.Request? && External(a.op) {
      WorkspacesStay(s.t, a.op);
    } else if a.GiveUp? || a.Begin? || a.Visit? || a.End? {
      WritesCopiesShaped(s, a);
    }
  }

  lemma WorkspacesStay(t: Tables, op: Op)
    requires forall e | e in t.executions :: t.executions[e].workspace != ""
    ensures forall e | e in Perform(t, op).executions :: Perform(t, op).executions[e].workspace != ""
  {
  }

  lemma WritesCopiesShaped(s: System, a: Action)
    requires CopiesShaped(s) && (a.GiveUp? || a.Begin? || a.Visit? || a.End?)
    ensures CopiesShaped(Do(s, a))
  {
  }

  predicate SucceededIn(s: System, e: Id) {
    e in s.t.executions && s.t.executions[e].status.Succeeded?
  }

  lemma RequestKeepsSucceeded(s: System, op: Op, e: Id)
    requires SucceededIn(s, e) && !StaleWriter(s, e) && External(op)
    ensures var s' := s.(t := Perform(s.t, op)); SucceededIn(s', e) && !StaleWriter(s', e)
  {
    PerformPersists(s.t, op);
  }

  lemma SettleKeepsSucceeded(s: System, tid: nat, verdict: Verdict, e: Id)
    requires SucceededIn(s, e) && !StaleWriter(s, e) && tid in s.threads
    ensures SucceededIn(DoSettle(s, tid, verdict), e) && !StaleWriter(DoSettle(s, tid, verdict), e)
  {
    PerformPersists(s.t, SettleOp(s.threads[tid], verdict, s.now));
  }

  lemma OtherRowWritten(s: System, workspace: Id, x: Id, copy: Execution, e: Id)
    requires SucceededIn(s, e) && (x != e || workspace != s.t.executions[e].workspace)
    ensures var t' := Perform(s.t, UpdateOp(workspace, x, copy));
      e in t'.executions && t'.executions[e] == s.t.executions[e]
  {
  }

  /** A thread writes to another row: it would hold an old copy of this one. */
  lemma WriteKeepsSucceeded(s: System, tid: nat, copy: Execution, stage: Stage, e: Id)
    requires SucceededIn(s, e) && !StaleWriter(s, e) && tid in s.threads
    requires s.threads[tid].stage.Loaded? || s.threads[tid].stage.Working?
    ensures SucceededIn(Write(s, tid, copy, stage), e) && !StaleWriter(Write(s, tid, copy, stage), e)
  {
    assert !RunsNow(s, tid, e);
    OtherRowWritten(s, s.threads[tid].workspace, s.threads[tid].execution, copy, e);
  }

  lemma AttentionKeepsSucceeded(s: System, rid: nat, attention: Attention, actor: Option<Id>, e: Id)
    requires SucceededIn(s, e) && !StaleWriter(s, e) && rid in s.pending
    ensures SucceededIn(DoWrite(s, rid, attention, actor), e) && !StaleWriter(DoWrite(s, rid, attention, actor), e)
  {
    var read := s.pending[rid];
    assert !HasRead(s, rid, e);
    OtherRowWritten(s, read.workspace, read.execution, read.copy.(attention := attention, actor := actor), e);
  }

  lemma MoveKeepsSucceeded(s: System, a: Action, e: Id)
    requires SucceededIn(s, e) && !StaleWriter(s, e)
    requires a.Tick? || a.Take? || a.Load? || a.Crash? || a.ReadAttention?
    ensures SucceededIn(Do(s, a), e) && !StaleWriter(Do(s, a), e)
  {
    hide Next;
  }

  lemma ThreadKeepsSucceeded(s: System, a: Action, e: Id)
    requires SucceededIn(s, e) && !StaleWriter(s, e) && (a.GiveUp? || a.Begin? || a.Visit? || a.End?)
    ensures SucceededIn(Do(s, a), e) && !StaleWriter(Do(s, a), e)
  {
    hide Perform;
    if a.tid in s.threads && (s.threads[a.tid].stage.Loaded? || s.threads[a.tid].stage.Working?) {
      assert !RunsNow(s, a.tid, e);
      forall copy, stage
        ensures SucceededIn(Write(s, a.tid, copy, stage), e) && !StaleWriter(Write(s, a.tid, copy, stage), e)
      {
        WriteKeepsSucceeded(s, a.tid, copy, stage, e);
      }
    }
  }

  lemma StepKeepsSucceeded(s: System, a: Action, e: Id)
    requires SucceededIn(s, e) && !StaleWriter(s, e)
    ensures SucceededIn(Do(s, a), e) && !StaleWriter(Do(s, a), e)
  {
    hide StaleWriter, Perform;
    match a
    case Request(op) =>
      if External(op) {
        RequestKeepsSucceeded(s, op, e);
      }
    case Settle(tid) =>
      if tid in s.threads && s.threads[tid].stage.Returned? {
        SettleKeepsSucceeded(s, tid, s.threads[tid].stage.verdict, e);
      }
    case WriteAttention(rid, attention, actor) =>
      if rid in s.pending {
        AttentionKeepsSucceeded(s, rid, attention, actor, e);
      }
    case GiveUp(_) => ThreadKeepsSucceeded(s, a, e);
    case Begin(_) => ThreadKeepsSucceeded(s, a, e);
    case Visit(_) => ThreadKeepsSucceeded(s, a, e);
    case End(_, _) => ThreadKeepsSucceeded(s, a, e);
    case _ => MoveKeepsSucceeded(s, a, e);
  }

  lemma {:induction false} RunKeepsSucceeded(s: System, actions: seq<Action>, e: Id)
    requires SucceededIn(s, e) && !StaleWriter(s, e)
    ensures SucceededIn(Run(s, actions), e) && !StaleWriter(Run(s, actions), e)
  {
    if actions != [] {
      RunKeepsSucceeded(s, actions[..|actions| - 1], e);
      StepKeepsSucceeded(Run(s, actions[..|actions| - 1]), actions[|actions| - 1], e);
    }
  }

  /** What the holder of an old copy can do next. */
  lemma StaleWriterUndoes(s: System, e: Id) returns (a: Action)
    requires CopiesShaped(s) && SucceededIn(s, e) && StaleWriter(s, e)
    ensures !SucceededIn(Do(s, a), e)
  {
    if rid: nat :| rid in s.pending && HasRead(s, rid, e) {
      a := WriteAttention(rid, Open, None);
    } else {
      var tid :| tid in s.threads && RunsNow(s, tid, e);
      a := if s.threads[tid].stage.Loaded? then GiveUp(tid) else Visit(tid);
    }
  }

  lemma RunOne(s: System, a: Action)
    ensures Run(s, [a]) == Do(s, a)
  {
    assert [a][..0] == [];
  }

  /** Succeeded is final, in all continuations, exactly when no one holds an old copy of the row. */
  lemma SucceededIsFinal(s: System, e: Id)
    requires CopiesShaped(s) && SucceededIn(s, e)
    ensures (forall actions :: SucceededIn(Run(s, actions), e)) <==> !StaleWriter(s, e)
  {
    if !StaleWriter(s, e) {
      forall actions
        ensures SucceededIn(Run(s, actions), e)
      {
        RunKeepsSucceeded(s, actions, e);
      }
    } else {
      var a := StaleWriterUndoes(s, e);
      RunOne(s, a);
      assert !SucceededIn(Run(s, [a]), e);
    }
  }

  // ---------- A lease that expires under its holder ----------

  /** e is running, but no job, thread or attention request is left that could ever change that. */
  ghost predicate Stuck(s: System, e: Id) {
    && e in s.t.executions && s.t.executions[e].status.Running?
    && (forall j | j in s.t.jobs && s.t.jobs[j].execution == e :: !Active(s.t.jobs[j]))
    && (forall tid | tid in s.threads :: ElsewhereThread(s.t, s.threads[tid], e))
    && (forall rid | rid in s.pending :: s.pending[rid].execution != e)
  }

  predicate ElsewhereThread(t: Tables, th: Thread, e: Id) {
    th.execution != e && th.job in t.jobs && t.jobs[th.job].execution == th.execution
  }

  lemma StepStuck(s: System, a: Action, e: Id)
    requires Stuck(s, e)
    ensures Stuck(Do(s, a), e)
  {
    if a.Take? {
      TakeStuck(s, a, e);
    } else if a.Request? {
      if External(a.op) {
        JobsStay(s.t, a.op);
        RequestStuck(s.t, a.op, e);
      }
    } else if a.Settle? {
      SettleStuck(s, a, e);
    } else if a.GiveUp? || a.Begin? || a.Visit? || a.End? {
      WriteStuck(s, a, e);
    } else {
      OtherStepStuck(s, a, e);
    }
  }

  lemma SettleStuck(s: System, a: Action, e: Id)
    requires Stuck(s, e) && a.Settle?
    ensures Stuck(Do(s, a), e)
  {
    if a.tid in s.threads && s.threads[a.tid].stage.Returned? {
      SettleOnlyJob(s.t, s.threads[a.tid], s.threads[a.tid].stage.verdict, s.now);
      SettleKeepsExecution(s.t, s.threads[a.tid], s.threads[a.tid].stage.verdict, s.now);
    }
  }

  lemma SettleKeepsExecution(t: Tables, th: Thread, verdict: Verdict, now: Time)
    ensures th.job in t.jobs ==>
      Perform(t, SettleOp(th, verdict, now)).jobs[th.job].execution == t.jobs[th.job].execution
  {
  }

  lemma RowWrittenStuck(s: System, tid: nat, copy: Execution, stage: Stage, e: Id)
    requires Stuck(s, e) && tid in s.threads
    ensures Stuck(Write(s, tid, copy, stage), e)
  {
  }

  lemma WriteStuck(s: System, a: Action, e: Id)
    requires Stuck(s, e) && (a.GiveUp? || a.Begin? || a.Visit? || a.End?)
    ensures Stuck(Do(s, a), e)
  {
    hide Perform;
    if a.tid in s.threads {
      forall copy, stage
        ensures Stuck(Write(s, a.tid, copy, stage), e)
      {
        RowWrittenStuck(s, a.tid, copy, stage, e);
      }
    }
  }

  lemma TakeStuck(s: System, a: Action, e: Id)
    requires Stuck(s, e) && a.Take?
    ensures Stuck(Do(s, a), e)
  {
  }

  lemma RequestStuck(t: Tables, op: Op, e: Id)
    requires External(op) && e in t.executions && t.executions[e].status.Running?
    ensures var t' := Perform(t, op);
      && e in t'.executions && t'.executions[e].status.Running?
      && forall j | j in t'.jobs && t'.jobs[j].execution == e :: j in t.jobs
  {
  }

  lemma OtherStepStuck(s: System, a: Action, e: Id)
    requires Stuck(s, e)
    requires a.Tick? || a.Load? || a.Crash? || a.ReadAttention? || a.WriteAttention?
    ensures Stuck(Do(s, a), e)
  {
  }

  lemma {:induction false} StuckForever(s: System, actions: seq<Action>, e: Id)
    requires Stuck(s, e)
    ensures Stuck(Run(s, actions), e)
  {
    if actions != [] {
      StuckForever(s, actions[..|actions| - 1], e);
      StepStuck(Run(s, actions[..|actions| - 1]), actions[|actions| - 1], e);
    }
  }

  /** One queued execution and its job, nothing else. */
  function Start(e: Id, row: Execution, j: Id, kind: string): System {
    System(Tables(map[], map[e := row], map[j := NewJob(row.workspace, kind, e, 0)]), map[], map[], 0)
  }

  predicate Startable(e: Id, row: Execution, a: string, b: string, lease: Time) {
    e != "" && row.workspace != "" && row.status.Queued? && !IsBlank(a) && !IsBlank(b) && lease > 0
  }

  /** A claims the job and reads the execution; its lease runs out. */
  lemma FirstWorkerStalls(e: Id, row: Execution, j: Id, kind: string, a: string, lease: Time) returns (s: System)
    requires Startable(e, row, a, a, lease)
    ensures s == Do(Do(Do(Start(e, row, j, kind), Take(0, j, a, lease)), Load(0)), Tick(lease))
    ensures s.t == Tables(map[], map[e := row], map[j := Leased(NewJob(row.workspace, kind, e, 0), a, lease, 0)])
    ensures s.threads == map[0 := Thread(j, row.workspace, e, a, 1, Loaded(row))]
    ensures s.pending == map[] && s.now == lease
  {
    var s0 := Start(e, row, j, kind);
    assert Next(s0.t.jobs, j, 0);
    var s1 := Do(s0, Take(0, j, a, lease));
    var s2 := Do(s1, Load(0));
    s := Do(s2, Tick(lease));
  }

  lemma Takes(s: System, tid: nat, j: Id, worker: string, lease: Time)
    requires tid !in s.threads && Next(s.t.jobs, j, s.now) && !IsBlank(worker) && lease > 0
    ensures j in s.t.jobs && Do(s, Take(tid, j, worker, lease)).t.jobs.Keys == s.t.jobs.Keys
    ensures var row := s.t.jobs[j];
      Do(s, Take(tid, j, worker, lease)) == s.(
        t := s.t.(jobs := s.t.jobs[j := Leased(row, worker, lease, s.now)]),
        threads := s.threads[tid := Thread(j, row.workspace, row.execution, worker, row.attempts + 1, Claimed)])
  {
  }

  lemma OneJobNext(jobs: map<Id, Job>, j: Id, now: Time)
    requires jobs.Keys == {j} && Claimable(jobs[j], now)
    ensures Next(jobs, j, now)
  {
  }

  /** B takes the expired job over, and reads the execution that A has read. */
  lemma SecondWorkerStarts(s: System, e: Id, row: Execution, j: Id, b: string, lease: Time) returns (s': System)
    requires Startable(e, row, b, b, lease)
    requires s.t.executions == map[e := row] && s.t.jobs.Keys == {j}
    requires s.t.jobs[j].execution == e && s.t.jobs[j].workspace == row.workspace && Claimable(s.t.jobs[j], s.now)
    requires s.threads.Keys == {0}
    ensures s' == Do(Do(s, Take(1, j, b, lease)), Load(1))
    ensures s'.t.executions == s.t.executions && s'.t.jobs == map[j := Leased(s.t.jobs[j], b, lease, s.now)]
    ensures s'.threads == s.threads[1 := Thread(j, row.workspace, e, b, s.t.jobs[j].attempts + 1, Loaded(row))]
    ensures s'.pending == s.pending
  {
    OneJobNext(s.t.jobs, j, s.now);
    Takes(s, 1, j, b, lease);
    var s1 := Do(s, Take(1, j, b, lease));
    s' := Do(s1, Load(1));
    assert s'.threads == s.threads[1 := Thread(j, row.workspace, e, b, s.t.jobs[j].attempts + 1, Loaded(row))];
  }

  /** One row has a new status, and nothing else of the tables has changed. */
  predicate StatusWritten(t: Tables, t': Tables, e: Id, status: ExecutionStatus)
    requires e in t.executions
  {
    && t'.jobs == t.jobs && t'.executions.Keys == t.executions.Keys
    && t'.executions[e].workspace == t.executions[e].workspace && t'.executions[e].status == status
  }

  predicate RunsRow(s: System, tid: nat, e: Id) {
    && tid in s.threads && s.threads[tid].execution == e && e in s.t.executions
    && s.threads[tid].workspace == s.t.executions[e].workspace && s.threads[tid].workspace != ""
  }

  lemma Begins(s: System, tid: nat, e: Id, row: Execution)
    requires RunsRow(s, tid, e) && s.threads[tid].stage == Loaded(row) && row.status.Queued?
    ensures var s' := Do(s, Begin(tid));
      && StatusWritten(s.t, s'.t, e, Running) && s'.pending == s.pending && s'.now == s.now
      && s'.threads == s.threads[tid := s.threads[tid].(stage := Working(row.(status := Running)))]
  {
  }

  lemma Ends(s: System, tid: nat, e: Id, ending: Ending)
    requires RunsRow(s, tid, e) && s.threads[tid].stage.Working?
    ensures var s' := Do(s, End(tid, ending));
      && StatusWritten(s.t, s'.t, e, EndStatus(ending)) && s'.pending == s.pending && s'.now == s.now
      && s'.threads == s.threads[tid := s.threads[tid].(stage := Returned(EndVerdict(ending)))]
  {
  }

  /** The job is done with: succeeded, or failed without a retry. */
  lemma Settles(s: System, tid: nat, verdict: Verdict)
    requires tid in s.threads && s.threads[tid].stage == Returned(verdict) && (verdict.Problem? ==> !verdict.retryable)
    requires var th := s.threads[tid]; Held(s.t, th.workspace, th.job, th.worker)
    ensures var s' := Do(s, Settle(tid));
      && s'.t.executions == s.t.executions && s'.pending == s.pending && s'.now == s.now
      && s'.threads == s.threads - {tid} && s'.t.jobs.Keys == s.t.jobs.Keys
      && s'.t.jobs[s.threads[tid].job].status == (if verdict.Fine? then JobSucceeded else JobFailed)
      && forall j | j in s.t.jobs && j != s.threads[tid].job :: s'.t.jobs[j] == s.t.jobs[j]
  {
  }

  /** A thread runs what it has loaded to the end and settles the job. */
  lemma WorkerFinishes(s: System, tid: nat, e: Id, row: Execution, ending: Ending) returns (s': System)
    requires RunsRow(s, tid, e) && s.threads[tid].stage == Loaded(row) && row.status.Queued?
    requires var th := s.threads[tid]; Held(s.t, th.workspace, th.job, th.worker)
    requires ending.Failure? ==> !ending.retryable
    ensures s' == Do(Do(Do(s, Begin(tid)), End(tid, ending)), Settle(tid))
    ensures s'.t.executions.Keys == s.t.executions.Keys && s'.t.jobs.Keys == s.t.jobs.Keys
    ensures s'.t.executions[e].workspace == s.t.executions[e].workspace
      && s'.t.executions[e].status == EndStatus(ending)
    ensures s'.t.jobs[s.threads[tid].job].status == (if ending.Failure? then JobFailed else JobSucceeded)
    ensures forall j | j in s.t.jobs && j != s.threads[tid].job :: s'.t.jobs[j] == s.t.jobs[j]
    ensures s'.threads == s.threads - {tid} && s'.pending == s.pending && s'.now == s.now
  {
    hide Do;
    Begins(s, tid, e, row);
    var s1 := Do(s, Begin(tid));
    Ends(s1, tid, e, ending);
    var s2 := Do(s1, End(tid, ending));
    Settles(s2, tid, EndVerdict(ending));
    s' := Do(s2, Settle(tid));
  }

  /** A comes back, marks the execution running from its old copy, and stops. */
  lemma FirstWorkerReturns(s: System, e: Id, row: Execution, j: Id, th: Thread)
    requires s.t.executions.Keys == {e} && s.t.executions[e].workspace == row.workspace && row.workspace != ""
    requires s.t.jobs.Keys == {j} && s.t.jobs[j].status.JobSucceeded? && s.pending == map[]
    requires s.threads == map[0 := th] && th.stage == Loaded(row) && row.status.Queued?
    requires th.execution == e && th.workspace == row.workspace
    ensures Stuck(Do(Do(s, Begin(0)), Crash(0)), e)
  {
    hide Perform;
    Begins(s, 0, e, row);
  }

  function LosingRun(j: Id, a: string, b: string, lease: Time): seq<Action> {
    [Take(0, j, a, lease), Load(0), Tick(lease), Take(1, j, b, lease), Load(1), Begin(1), End(1, Success), Settle(1),
     Begin(0), Crash(0)]
  }

  lemma RunNext(s: System, actions: seq<Action>, k: nat)
    requires k < |actions|
    ensures Run(s, actions[..k + 1]) == Do(Run(s, actions[..k]), actions[k])
  {
    assert actions[..k + 1][..k] == actions[..k];
  }

  lemma RunThree(s: System, actions: seq<Action>, k: nat)
    requires k + 3 <= |actions|
    ensures Run(s, actions[..k + 3]) == Do(Do(Do(Run(s, actions[..k]), actions[k]), actions[k + 1]), actions[k + 2])
  {
    RunNext(s, actions, k);
    RunNext(s, actions, k + 1);
    RunNext(s, actions, k + 2);
  }

  lemma RunTwo(s: System, actions: seq<Action>, k: nat)
    requires k + 2 <= |actions|
    ensures Run(s, actions[..k + 2]) == Do(Do(Run(s, actions[..k]), actions[k]), actions[k + 1])
  {
    RunNext(s, actions, k);
    RunNext(s, actions, k + 1);
  }

  lemma {:induction false} RunAppend(s: System, before: seq<Action>, later: seq<Action>)
    ensures Run(s, before + later) == Run(Run(s, before), later)
  {
    var actions := before + later;
    if later == [] {
      assert actions == before;
    } else {
      assert actions[..|actions| - 1] == before + later[..|later| - 1];
      assert actions[|actions| - 1] == later[|later| - 1];
      RunAppend(s, before, later[..|later| - 1]);
    }
  }

  lemma {:induction false} HonestPrefix(s: System, actions: seq<Action>, k: nat)
    requires k < |actions| && HonestRun(s, actions)
    ensures Honest(Run(s, actions[..k]), actions[k])
  {
    if k < |actions| - 1 {
      HonestPrefix(s, actions[..|actions| - 1], k);
      assert actions[..|actions| - 1][..k] == actions[..k];
    }
  }

  lemma LosingRunUnfolds(s0: System, j: Id, a: string, b: string, lease: Time)
    ensures var run := LosingRun(j, a, b, lease);
      var s3 := Do(Do(Do(s0, Take(0, j, a, lease)), Load(0)), Tick(lease));
      var s5 := Do(Do(s3, Take(1, j, b, lease)), Load(1));
      var s8 := Do(Do(Do(s5, Begin(1)), End(1, Success)), Settle(1));
      Run(s0, run[..3]) == s3 && Run(s0, run) == Do(Do(s8, Begin(0)), Crash(0))
  {
    var run := LosingRun(j, a, b, lease);
    assert run[..0] == [] && run[..10] == run;
    RunThree(s0, run, 0);
    RunTwo(s0, run, 3);
    RunThree(s0, run, 5);
    RunTwo(s0, run, 8);
  }

  lemma LosingRunStages(e: Id, row: Execution, j: Id, kind: string, a: string, b: string, lease: Time)
    requires Startable(e, row, a, b, lease)
    ensures var run := LosingRun(j, a, b, lease);
      !Honest(Run(Start(e, row, j, kind), run[..3]), run[3]) && Stuck(Run(Start(e, row, j, kind), run), e)
  {
    LosingRunUnfolds(Start(e, row, j, kind), j, a, b, lease);
    var s3 := FirstWorkerStalls(e, row, j, kind, a, lease);
    assert s3.threads[0].job == j;
    var s5 := SecondWorkerStarts(s3, e, row, j, b, lease);
    var s8 := WorkerFinishes(s5, 1, e, row, Success);
    assert s8.threads == s3.threads;
    FirstWorkerReturns(s8, e, row, j, s3.threads[0]);
  }

  /** The lease assumption is needed: if a live thread's lease expires, the execution can end up running with
      no job, and then nothing ever runs it again, an operator's retry included. */
  lemma ExpiredHolderLosesWork(e: Id, row: Execution, j: Id, kind: string, a: string, b: string, lease: Time,
      later: seq<Action>)
    requires Startable(e, row, a, b, lease)
    ensures Inv(Start(e, row, j, kind)) && !HonestRun(Start(e, row, j, kind), LosingRun(j, a, b, lease))
    ensures Stuck(Run(Start(e, row, j, kind), LosingRun(j, a, b, lease) + later), e)
  {
    var run, s0 := LosingRun(j, a, b, lease), Start(e, row, j, kind);
    assert Carries(s0, j, e);
    LosingRunStages(e, row, j, kind, a, b, lease);
    if HonestRun(s0, run) {
      HonestPrefix(s0, run, 3);
    }
    RunAppend(s0, run, later);
    StuckForever(Run(s0, run), later, e);
  }

  // ---------- A succeeded execution that is not final ----------

  function Turn(tid: nat, j: Id, worker: string, lease: Time, ending: Ending): seq<Action> {
    [Take(tid, j, worker, lease), Load(tid), Begin(tid), End(tid, ending), Settle(tid)]
  }

  lemma {:induction false} HonestAppend(s: System, before: seq<Action>, later: seq<Action>)
    requires HonestRun(s, before) && HonestRun(Run(s, before), later)
    ensures HonestRun(s, before + later)
  {
    var actions := before + later;
    if later == [] {
      assert actions == before;
    } else {
      assert actions[..|actions| - 1] == before + later[..|later| - 1];
      assert actions[|actions| - 1] == later[|later| - 1];
      HonestAppend(s, before, later[..|later| - 1]);
      RunAppend(s, before, later[..|later| - 1]);
    }
  }

  /** Only a claim can be dishonest. */
  lemma {:induction false} HonestBeyondFirst(s: System, actions: seq<Action>)
    requires actions != [] ==> Honest(s, actions[0])
    requires forall k | 0 < k < |actions| :: !actions[k].Take?
    ensures HonestRun(s, actions)
  {
    if actions != [] {
      HonestBeyondFirst(s, actions[..|actions| - 1]);
      assert |actions| == 1 ==> actions[..|actions| - 1] == [];
    }
  }

  /** A worker takes the job of a queued execution, runs it and settles the job. */
  lemma TurnRuns(s: System, tid: nat, e: Id, j: Id, worker: string, lease: Time, ending: Ending) returns (s': System)
    requires s.threads == map[] && e != "" && e in s.t.executions && s.t.executions[e].status.Queued?
    requires s.t.executions[e].workspace != "" && Next(s.t.jobs, j, s.now) && !IsBlank(worker) && lease > 0
    requires s.t.jobs[j].execution == e && s.t.jobs[j].workspace == s.t.executions[e].workspace
    requires ending.Failure? ==> !ending.retryable
    ensures s' == Run(s, Turn(tid, j, worker, lease, ending)) && HonestRun(s, Turn(tid, j, worker, lease, ending))
    ensures s'.t.executions.Keys == s.t.executions.Keys && s'.t.jobs.Keys == s.t.jobs.Keys
    ensures s'.t.executions[e].workspace == s.t.executions[e].workspace
      && s'.t.executions[e].status == EndStatus(ending)
    ensures s'.t.jobs[j].status == (if ending.Failure? then JobFailed else JobSucceeded)
    ensures s'.threads == map[] && s'.pending == s.pending && s'.now == s.now
  {
    hide Do, Next, HonestRun, IsBlank;
    var turn := Turn(tid, j, worker, lease, ending);
    var s2 := TakesAndLoads(s, tid, e, j, worker, lease);
    s' := WorkerFinishes(s2, tid, e, s.t.executions[e], ending);
    assert turn[..0] == [] && turn[..5] == turn;
    RunTwo(s, turn, 0);
    RunThree(s, turn, 2);
    HonestBeyondFirst(s, turn);
  }

  lemma TakesAndLoads(s: System, tid: nat, e: Id, j: Id, worker: string, lease: Time) returns (s2: System)
    requires s.threads == map[] && e != "" && e in s.t.executions && s.t.executions[e].status.Queued?
    requires s.t.executions[e].workspace != "" && Next(s.t.jobs, j, s.now) && !IsBlank(worker) && lease > 0
    requires s.t.jobs[j].execution == e && s.t.jobs[j].workspace == s.t.executions[e].workspace
    ensures s2 == Do(Do(s, Take(tid, j, worker, lease)), Load(tid))
    ensures s2.t.executions == s.t.executions && s2.t.jobs.Keys == s.t.jobs.Keys && s2.threads.Keys == {tid}
    ensures RunsRow(s2, tid, e) && s2.threads[tid].stage == Loaded(s.t.executions[e]) && s2.threads[tid].job == j
    ensures Held(s2.t, s2.threads[tid].workspace, j, s2.threads[tid].worker)
    ensures s2.pending == s.pending && s2.now == s.now
  {
    hide Do, Next, IsBlank;
    Takes(s, tid, j, worker, lease);
    Loads(Do(s, Take(tid, j, worker, lease)), tid, e);
    s2 := Do(Do(s, Take(tid, j, worker, lease)), Load(tid));
  }

  lemma Loads(s: System, tid: nat, e: Id)
    requires RunsRow(s, tid, e) && s.threads[tid].stage.Claimed? && e != "" && s.t.executions[e].status.Queued?
    ensures Do(s, Load(tid)) == s.(threads := s.threads[tid := s.threads[tid].(stage := Loaded(s.t.executions[e]))])
  {
  }

  function Empty(): System {
    System(Tables(map[], map[], map[]), map[], map[], 0)
  }

  /** A delivery of a new execution, as ingress builds it. */
  predicate Deliverable(d: Delivery) {
    && InScope(d) && d.executionId != "" && d.jobExecution == d.executionId && JobKind(d.kind) == FLOW_EXECUTE
    && d.execution.status.Queued?
  }

  /** The execution fails; an operator's attention request reads it; a retry is queued. */
  function FailedAndRetried(d: Delivery, retryJob: Id, kind: string, worker: string, lease: Time): seq<Action> {
    [Request(AcceptOp(d, 0))] + Turn(0, d.jobId, worker, lease, Failure(false, false))
      + [ReadAttention(0, d.execution.workspace, d.executionId),
         Request(RequeueOp(d.execution.workspace, d.executionId, retryJob, kind, 0))]
  }

  lemma Delivered(d: Delivery) returns (s: System)
    requires Deliverable(d)
    ensures s == Run(Empty(), [Request(AcceptOp(d, 0))]) && HonestRun(Empty(), [Request(AcceptOp(d, 0))])
    ensures s.threads == map[] && s.pending == map[] && s.now == 0
    ensures s.t.executions.Keys == {d.executionId} && s.t.executions[d.executionId].status.Queued?
    ensures s.t.executions[d.executionId].workspace == d.execution.workspace
    ensures s.t.jobs == map[d.jobId := NewJob(d.execution.workspace, FLOW_EXECUTE, d.executionId, 0)]
  {
    s := Do(Empty(), Request(AcceptOp(d, 0)));
    RunOne(Empty(), Request(AcceptOp(d, 0)));
    HonestBeyondFirst(Empty(), [Request(AcceptOp(d, 0))]);
  }

  lemma ReadAndRetried(s: System, e: Id, j: Id, retryJob: Id, kind: string) returns (s': System)
    requires s.threads == map[] && s.pending == map[] && s.now == 0 && s.t.jobs.Keys == {j} && retryJob != j
    requires e in s.t.executions && s.t.executions[e].status.Failed? && s.t.jobs[j].status.JobFailed?
    requires s.t.executions[e].workspace != "" && !IsBlank(kind) && kind != FLOW_EXECUTE
    ensures var workspace := s.t.executions[e].workspace;
      s' == Run(s, [ReadAttention(0, workspace, e), Request(RequeueOp(workspace, e, retryJob, kind, 0))])
    ensures s'.threads == map[]
      && s'.pending == map[0 := PendingRead(s.t.executions[e].workspace, e, s.t.executions[e])]
    ensures s'.now == 0 && e in s'.t.executions && s'.t.executions[e].status.Queued?
    ensures s'.t.executions[e].workspace == s.t.executions[e].workspace
    ensures Next(s'.t.jobs, retryJob, 0) && s'.t.jobs[retryJob] == NewJob(s.t.executions[e].workspace, kind, e, 0)
  {
    var workspace := s.t.executions[e].workspace;
    var actions := [ReadAttention(0, workspace, e), Request(RequeueOp(workspace, e, retryJob, kind, 0))];
    assert actions[..0] == [] && actions[..2] == actions;
    RunTwo(s, actions, 0);
    s' := Do(Do(s, actions[0]), actions[1]);
  }

  lemma RetryQueued(d: Delivery, retryJob: Id, kind: string, worker: string, lease: Time) returns (s: System)
    requires Deliverable(d) && retryJob != d.jobId && !IsBlank(kind) && kind != FLOW_EXECUTE && !IsBlank(worker)
      && lease > 0
    ensures var actions := FailedAndRetried(d, retryJob, kind, worker, lease);
      var e, workspace := d.executionId, d.execution.workspace;
      && s == Run(Empty(), actions) && HonestRun(Empty(), actions)
      && s.threads == map[] && s.now == 0 && e in s.t.executions && s.t.executions[e].status.Queued?
      && s.t.executions[e].workspace == workspace
      && 0 in s.pending && s.pending[0].execution == e && s.pending[0].workspace == workspace
      && s.pending[0].copy.status.Failed?
      && Next(s.t.jobs, retryJob, 0) && s.t.jobs[retryJob] == NewJob(workspace, kind, e, 0)
  {
    hide Run, HonestRun, Do;
    var e, workspace := d.executionId, d.execution.workspace;
    var first, turn := [Request(AcceptOp(d, 0))], Turn(0, d.jobId, worker, lease, Failure(false, false));
    var retry := [ReadAttention(0, workspace, e), Request(RequeueOp(workspace, e, retryJob, kind, 0))];
    var s1 := Delivered(d);
    var s2 := TurnRuns(s1, 0, e, d.jobId, worker, lease, Failure(false, false));
    s := ReadAndRetried(s2, e, d.jobId, retryJob, kind);
    RunAppend(Empty(), first, turn);
    HonestAppend(Empty(), first, turn);
    RunAppend(Empty(), first + turn, retry);
    HonestBeyondFirst(s2, retry);
    HonestAppend(Empty(), first + turn, retry);
  }

  lemma AttentionUndoes(s: System, rid: nat, attention: Attention, e: Id)
    requires e in s.t.executions && s.t.executions[e].workspace != "" && !attention.NoAttention?
    requires rid in s.pending && HasRead(s, rid, e)
    requires s.pending[rid].copy.status.Failed?
    ensures !SucceededIn(Do(s, WriteAttention(rid, attention, None)), e)
  {
  }

  /** And such copies are around in honest runs: from an empty system, one leads to a succeeded execution on which an
      attention request is still to be written. */
  lemma SucceededNotFinal(d: Delivery, retryJob: Id, kind: string, worker: string, lease: Time, attention: Attention)
    requires Deliverable(d) && retryJob != d.jobId && !IsBlank(kind) && kind != FLOW_EXECUTE && !IsBlank(worker)
      && lease > 0
    requires !attention.NoAttention?
    ensures var actions :=
      FailedAndRetried(d, retryJob, kind, worker, lease) + Turn(1, retryJob, worker, lease, Success);
      && HonestRun(Empty(), actions)
      && SucceededIn(Run(Empty(), actions), d.executionId)
      && !SucceededIn(Run(Empty(), actions + [WriteAttention(0, attention, None)]), d.executionId)
  {
    hide Run, HonestRun, Do, Next;
    var before, turn := FailedAndRetried(d, retryJob, kind, worker, lease), Turn(1, retryJob, worker, lease, Success);
    var s1 := RetryQueued(d, retryJob, kind, worker, lease);
    var s2 := TurnRuns(s1, 1, d.executionId, retryJob, worker, lease, Success);
    RunAppend(Empty(), before, turn);
    HonestAppend(Empty(), before, turn);
    AttentionUndoes(s2, 0, attention, d.executionId);
    RunOne(s2, WriteAttention(0, attention, None));
    RunAppend(Empty(), before + turn, [WriteAttention(0, attention, None)]);
  }
}
