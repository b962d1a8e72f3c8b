/** Worker threads, operators and incoming deliveries acting on one store. A step is one store statement, or a
    thread's move between two of them; a thread can crash between any two steps. */
module JobProtocol {
  import opened Text
  import opened RuntimeStore
  import opened StoreHistory

  const MAX_ATTEMPTS := 5
  const BACKOFF := 5

  datatype Verdict = Fine | Problem(retryable: bool)

  /** Where a run of a job stands; `copy` is the execution row as the run read it. */
  datatype Stage = Claimed | Loaded(copy: Execution) | Working(copy: Execution) | Returned(verdict: Verdict)

  datatype Thread = Thread(job: Id, workspace: Id, execution: Id, worker: string, attempts: nat, stage: Stage)

  /** An operator's attention request that has read the row but not written it back. */
  datatype PendingRead = PendingRead(workspace: Id, execution: Id, copy: Execution)

  datatype System = System(t: Tables, threads: map<nat, Thread>, pending: map<nat, PendingRead>, now: Time)

  datatype Ending = Success | SkipAll | Failure(reconcile: bool, retryable: bool)

  datatype Action =
    | Request(op: Op)
    | Tick(now: Time)
    | Take(tid: nat, job: Id, worker: string, lease: Time)
    | Load(tid: nat)
    | GiveUp(tid: nat)
    | Begin(tid: nat)
    | Visit(tid: nat)
    | End(tid: nat, ending: Ending)
    | Settle(tid: nat)
    | Crash(tid: nat)
    | ReadAttention(rid: nat, workspace: Id, execution: Id)
    | WriteAttention(rid: nat, attention: Attention, actor: Option<Id>)

  // ---------- The steps ----------

  /** Deliveries, replays, retries and repairs, as their handlers build them. */
  predicate External(op: Op) {
    (op.AcceptOp? || op.CreateOp? || op.RequeueOp?) && Wired(op) && (op.AcceptOp? ==> op.delivery.executionId != "")
  }

  function EndStatus(ending: Ending): ExecutionStatus {
    match ending
    case Success => Succeeded
    case SkipAll => Skipped
    case Failure(reconcile, _) => if reconcile then ReconciliationRequired else Failed
  }

  function EndVerdict(ending: Ending): Verdict {
    if ending.Failure? then Problem(ending.retryable) else Fine
  }

  /** runJob's choice: nothing to retry, retry later, or give up. */
  function RetryTime(th: Thread, verdict: Verdict, now: Time): Option<Time> {
    if verdict.Problem? && verdict.retryable && th.attempts < MAX_ATTEMPTS
    then Some(now + th.attempts * BACKOFF) else None
  }

  function SettleOp(th: Thread, verdict: Verdict, now: Time): Op {
    if verdict.Fine? then CompleteOp(th.workspace, th.job, th.worker)
    else FailOp(th.workspace, th.job, th.worker, RetryTime(th, verdict, now), now)
  }

  function WriteOp(th: Thread, copy: Execution): Op {
    UpdateOp(th.workspace, th.execution, copy)
  }

  function Move(s: System, tid: nat, stage: Stage): System
    requires tid in s.threads
  {
    s.(threads := s.threads[tid := s.threads[tid].(stage := stage)])
  }

  ghost function Write(s: System, tid: nat, copy: Execution, stage: Stage): System
    requires tid in s.threads
  {
    Move(s.(t := Perform(s.t, WriteOp(s.threads[tid], copy))), tid, stage)
  }

  function LoadStage(t: Tables, th: Thread): Stage {
    if th.execution == "" || !Stored(t, th.workspace, th.execution) then Returned(Problem(false))
    else
      var row := t.executions[th.execution];
      if row.status.Succeeded? || row.status.Skipped? then Returned(Fine) else Loaded(row)
  }

  ghost function DoTake(s: System, tid: nat, job: Id, worker: string, lease: Time): System {
    if tid in s.threads || !Claim(s.t, job, worker, lease, s.now).1 then s
    else
      var t := Claim(s.t, job, worker, lease, s.now).0;
      var row := t.jobs[job];
      s.(t := t, threads := s.threads[tid := Thread(job, row.workspace, row.execution, worker, row.attempts, Claimed)])
  }

  ghost function DoLoaded(s: System, tid: nat, copy: Execution, giveUp: bool): System
    requires tid in s.threads
  {
    if giveUp then Write(s, tid, copy.(status := Failed), Returned(Problem(false)))
    else if copy.status.Running? then Move(s, tid, Working(copy))
    else Write(s, tid, copy.(status := Running), Working(copy.(status := Running)))
  }

  ghost function DoSettle(s: System, tid: nat, verdict: Verdict): System
    requires tid in s.threads
  {
    s.(t := Perform(s.t, SettleOp(s.threads[tid], verdict, s.now)), threads := s.threads - {tid})
  }

  ghost function DoRead(s: System, rid: nat, workspace: Id, execution: Id): System {
    if rid !in s.pending && Stored(s.t, workspace, execution) && Actionable(s.t.executions[execution].status)
    then s.(pending := s.pending[rid := PendingRead(workspace, execution, s.t.executions[execution])])
    else s
  }

  ghost function DoWrite(s: System, rid: nat, attention: Attention, actor: Option<Id>): System
    requires rid in s.pending
  {
    var read := s.pending[rid];
    s.(t := Perform(s.t, UpdateOp(read.workspace, read.execution, read.copy.(attention := attention, actor := actor))),
       pending := s.pending - {rid})
  }

  /** An action that is not enabled changes nothing. */
  ghost function Do(s: System, a: Action): System {
    match a
    case Request(op) => if External(op) then s.(t := Perform(s.t, op)) else s
    case Tick(now) => if now >= s.now then s.(now := now) else s
    case Take(tid, job, worker, lease) => DoTake(s, tid, job, worker, lease)
    case Load(tid) =>
      if tid in s.threads && s.threads[tid].stage.Claimed? then Move(s, tid, LoadStage(s.t, s.threads[tid])) else s
    case GiveUp(tid) =>
      if tid in s.threads && s.threads[tid].stage.Loaded? then DoLoaded(s, tid, s.threads[tid].stage.copy, true) else s
    case Begin(tid) =>
      if tid in s.threads && s.threads[tid].stage.Loaded? then DoLoaded(s, tid, s.threads[tid].stage.copy, false) else s
    case Visit(tid) =>
      if tid in s.threads && s.threads[tid].stage.Working? then
        Write(s, tid, s.threads[tid].stage.copy, s.threads[tid].stage)
      else s
    case End(tid, ending) =>
      if tid in s.threads && s.threads[tid].stage.Working? then
        Write(s, tid, s.threads[tid].stage.copy.(status := EndStatus(ending)), Returned(EndVerdict(ending)))
      else s
    case Settle(tid) =>
      if tid in s.threads && s.threads[tid].stage.Returned? then DoSettle(s, tid, s.threads[tid].stage.verdict) else s
    case Crash(tid) => s.(threads := s.threads - {tid})
    case ReadAttention(rid, workspace, execution) => DoRead(s, rid, workspace, execution)
    case WriteAttention(rid, attention, actor) =>
      if rid in s.pending && !attention.NoAttention? then DoWrite(s, rid, attention, actor) else s
  }

  ghost function Run(s: System, actions: seq<Action>): System {
    if actions == [] then s else Do(Run(s, actions[..|actions| - 1]), actions[|actions| - 1])
  }

  // ---------- No lost work ----------

  /** The lease assumption: a job is claimed again only once the thread that held it has stopped. */
  predicate Honest(s: System, a: Action) {
    a.Take? ==> forall tid | tid in s.threads :: s.threads[tid].job != a.job
  }

  ghost predicate HonestRun(s: System, actions: seq<Action>) {
    actions == []
      || (HonestRun(s, actions[..|actions| - 1]) && Honest(Run(s, actions[..|actions| - 1]), actions[|actions| - 1]))
  }

  predicate Active(job: Job) { job.status.JobQueued? || job.status.JobRunning? }

  predicate Unfinished(row: Execution) { row.status.Queued? || row.status.Running? }

  predicate Returning(s: System, j: Id) {
    exists tid | tid in s.threads :: s.threads[tid].job == j && s.threads[tid].stage.Returned?
  }

  /** j will still run e: it is waiting or being run, and its thread has not come back from running it. */
  predicate Carries(s: System, j: Id, e: Id)
    requires e in s.t.executions
  {
    && j in s.t.jobs && Active(s.t.jobs[j]) && s.t.jobs[j].execution == e
    && s.t.jobs[j].workspace == s.t.executions[e].workspace
    && !Returning(s, j)
  }

  ghost predicate Safe(s: System, e: Id)
    requires e in s.t.executions
  {
    Unfinished(s.t.executions[e]) ==> exists j :: Carries(s, j, e)
  }

  ghost predicate NoLostWork(s: System) {
    forall e | e in s.t.executions :: Safe(s, e)
  }

  /** A thread holds the lease of its job, and what it read is stored. */
  predicate Holds(t: Tables, th: Thread) {
    && th.job in t.jobs && t.jobs[th.job].status.JobRunning? && t.jobs[th.job].leasedBy == th.worker
    && t.jobs[th.job].workspace == th.workspace && t.jobs[th.job].execution == th.execution
    && !IsBlank(th.worker)
    && (th.stage.Loaded? || th.stage.Working? ==> Stored(t, th.workspace, th.execution))
  }

  ghost predicate ThreadsHold(s: System) {
    && (forall tid | tid in s.threads :: Holds(s.t, s.threads[tid]))
    && (forall i, j | i in s.threads && j in s.threads && s.threads[i].job == s.threads[j].job :: i == j)
  }

  predicate Rooted(t: Tables) {
    "" !in t.executions && forall e | e in t.executions :: t.executions[e].workspace != ""
  }

  ghost predicate Inv(s: System) {
    && Rooted(s.t) && ThreadsHold(s) && NoLostWork(s)
    && (forall r | r in s.pending :: Actionable(s.pending[r].copy.status))
  }

  /** Storing a new execution together with its job, or queueing a retry together with its job. */
  lemma RequestKeeps(s: System, op: Op)
    requires Inv(s) && External(op)
    ensures Inv(s.(t := Perform(s.t, op)))
  {
    var s' := s.(t := Perform(s.t, op));
    PerformPersists(s.t, op);
    JobsStay(s.t, op);
    forall e | e in s'.t.executions
      ensures Safe(s', e)
    {
      if Unfinished(s'.t.executions[e]) {
        if e in s.t.executions && s'.t.executions[e] == s.t.executions[e] {
          var j :| Carries(s, j, e);
          assert Carries(s', j, e);
        } else {
          RequestCarries(s, op, e);
        }
      }
    }
  }

  lemma JobsStay(t: Tables, op: Op)
    requires External(op)
    ensures forall j | j in t.jobs :: j in Perform(t, op).jobs && Perform(t, op).jobs[j] == t.jobs[j]
  {
  }

  function NewJobId(op: Op): Id
    requires External(op)
  {
    match op
    case AcceptOp(d, _) => d.jobId
    case CreateOp(_, _, _, jobId, _, _) => jobId
    case RequeueOp(_, _, jobId, _, _) => jobId
  }

  lemma RequestCarries(s: System, op: Op, e: Id)
    requires Inv(s) && External(op) && e in Perform(s.t, op).executions
    requires e !in s.t.executions || Perform(s.t, op).executions[e] != s.t.executions[e]
    ensures Carries(s.(t := Perform(s.t, op)), NewJobId(op), e)
  {
    assert NewJobId(op) !in s.t.jobs;
  }

  lemma TakeKeeps(s: System, tid: nat, job: Id, worker: string, lease: Time)
    requires Inv(s) && Honest(s, Take(tid, job, worker, lease))
    ensures Inv(DoTake(s, tid, job, worker, lease))
  {
    var s' := DoTake(s, tid, job, worker, lease);
    if s' != s {
      forall e | e in s'.t.executions
        ensures Safe(s', e)
      {
        if Unfinished(s'.t.executions[e]) {
          assert Safe(s, e);
          var j :| Carries(s, j, e);
          assert Returning(s', j) ==> Returning(s, j);
          assert Carries(s', j, e);
        }
      }
    }
  }

  /** Nothing but the stage of one thread moves, and if that thread comes back its job carried nothing. */
  lemma MoveKeeps(s: System, tid: nat, stage: Stage)
    requires Inv(s) && tid in s.threads
    requires stage.Loaded? || stage.Working? ==> Stored(s.t, s.threads[tid].workspace, s.threads[tid].execution)
    requires stage.Returned? ==> forall e | e in s.t.executions && Carries(s, s.threads[tid].job, e) ::
      !Unfinished(s.t.executions[e])
    ensures Inv(Move(s, tid, stage))
  {
    var s' := Move(s, tid, stage);
    assert forall i | i in s'.threads :: Holds(s'.t, s'.threads[i]);
    forall e | e in s'.t.executions
      ensures Safe(s', e)
    {
      if Unfinished(s'.t.executions[e]) {
        assert Safe(s, e);
        var j :| Carries(s, j, e);
        MoveReturning(s, tid, stage, j);
        assert Carries(s', j, e);
      }
    }
  }

  lemma MoveReturning(s: System, tid: nat, stage: Stage, j: Id)
    requires tid in s.threads
    ensures Returning(Move(s, tid, stage), j) ==> Returning(s, j) || (stage.Returned? && s.threads[tid].job == j)
  {
  }

  lemma LoadKeeps(s: System, tid: nat)
    requires Inv(s) && tid in s.threads && s.threads[tid].stage.Claimed?
    ensures Inv(Move(s, tid, LoadStage(s.t, s.threads[tid])))
  {
    assert Holds(s.t, s.threads[tid]);
    MoveKeeps(s, tid, LoadStage(s.t, s.threads[tid]));
  }

  ghost predicate OnlyRow(t: Tables, t': Tables, e: Id) {
    && t'.jobs == t.jobs && t'.executions.Keys == t.executions.Keys
    && forall x | x in t.executions ::
         t'.executions[x].workspace == t.executions[x].workspace && (x != e ==> t'.executions[x] == t.executions[x])
  }

  lemma UpdateOnlyRow(t: Tables, workspace: Id, e: Id, copy: Execution)
    requires Rooted(t) && Stored(t, workspace, e)
    ensures var t' := Perform(t, UpdateOp(workspace, e, copy));
      OnlyRow(t, t', e) && e in t'.executions && t'.executions[e].status == copy.status
  {
  }

  /** A write to one execution row keeps the invariant if that row is finished or still carried. */
  lemma RowWriteKeeps(s: System, t': Tables, e: Id)
    requires Inv(s) && e in s.t.executions && OnlyRow(s.t, t', e)
    requires Unfinished(t'.executions[e]) ==> exists j :: Carries(s, j, e)
    ensures Inv(s.(t := t'))
  {
    var s' := s.(t := t');
    assert forall i | i in s'.threads :: Holds(s.t, s.threads[i]) && Holds(t', s'.threads[i]);
    forall x | x in s'.t.executions
      ensures Safe(s', x)
    {
      if Unfinished(s'.t.executions[x]) {
        assert Safe(s, x);
        var j :| Carries(s, j, x);
        assert Returning(s', j) ==> Returning(s, j);
        assert Carries(s', j, x);
      }
    }
  }

  lemma OwnJobCarries(s: System, tid: nat)
    requires Inv(s) && tid in s.threads && (s.threads[tid].stage.Loaded? || s.threads[tid].stage.Working?)
    ensures s.threads[tid].execution in s.t.executions
    ensures Carries(s, s.threads[tid].job, s.threads[tid].execution)
  {
    assert Holds(s.t, s.threads[tid]);
  }

  lemma WriteKeeps(s: System, tid: nat, copy: Execution, stage: Stage)
    requires Inv(s) && tid in s.threads && (s.threads[tid].stage.Loaded? || s.threads[tid].stage.Working?)
    requires stage.Working? || (stage.Returned? && !Unfinished(copy))
    ensures Inv(Write(s, tid, copy, stage))
  {
    var th := s.threads[tid];
    var t' := Perform(s.t, WriteOp(th, copy));
    OwnJobCarries(s, tid);
    assert Holds(s.t, th);
    UpdateOnlyRow(s.t, th.workspace, th.execution, copy);
    RowWriteKeeps(s, t', th.execution);
    MoveKeeps(s.(t := t'), tid, stage);
  }

  lemma CrashKeeps(s: System, tid: nat)
    requires Inv(s)
    ensures Inv(s.(threads := s.threads - {tid}))
  {
    var s' := s.(threads := s.threads - {tid});
    forall e | e in s'.t.executions
      ensures Safe(s', e)
    {
      if Unfinished(s'.t.executions[e]) {
        assert Safe(s, e);
        var j :| Carries(s, j, e);
        assert Returning(s', j) ==> Returning(s, j);
        assert Carries(s', j, e);
      }
    }
  }

  ghost predicate OnlyJob(t: Tables, t': Tables, j: Id) {
    t'.executions == t.executions && t'.jobs.Keys == t.jobs.Keys
    && forall k | k in t.jobs && k != j :: t'.jobs[k] == t.jobs[k]
  }

  lemma SettleOnlyJob(t: Tables, th: Thread, verdict: Verdict, now: Time)
    ensures OnlyJob(t, Perform(t, SettleOp(th, verdict, now)), th.job)
  {
  }

  lemma SettleKeeps(s: System, tid: nat)
    requires Inv(s) && tid in s.threads && s.threads[tid].stage.Returned?
    ensures Inv(DoSettle(s, tid, s.threads[tid].stage.verdict))
  {
    var th := s.threads[tid];
    var s' := DoSettle(s, tid, th.stage.verdict);
    SettleOnlyJob(s.t, th, th.stage.verdict, s.now);
    forall i | i in s'.threads
      ensures Holds(s'.t, s'.threads[i])
    {
      assert Holds(s.t, s.threads[i]);
    }
    forall e | e in s'.t.executions
      ensures Safe(s', e)
    {
      if Unfinished(s'.t.executions[e]) {
        assert Safe(s, e);
        var j :| Carries(s, j, e);
        assert Returning(s, th.job);
        assert Returning(s', j) ==> Returning(s, j);
        assert Carries(s', j, e);
      }
    }
  }

  lemma AttentionKeeps(s: System, rid: nat, attention: Attention, actor: Option<Id>)
    requires Inv(s) && rid in s.pending && !attention.NoAttention?
    ensures Inv(DoWrite(s, rid, attention, actor))
  {
    var read := s.pending[rid];
    var copy := read.copy.(attention := attention, actor := actor);
    if Stored(s.t, read.workspace, read.execution) {
      UpdateOnlyRow(s.t, read.workspace, read.execution, copy);
      RowWriteKeeps(s, Perform(s.t, UpdateOp(read.workspace, read.execution, copy)), read.execution);
    }
    FewerPending(s.(t := Perform(s.t, UpdateOp(read.workspace, read.execution, copy))), s.pending - {rid});
  }

  lemma FewerPending(s: System, pending: map<nat, PendingRead>)
    requires Inv(s)
    requires forall r | r in pending :: Actionable(pending[r].copy.status)
    ensures Inv(s.(pending := pending))
  {
    var s' := s.(pending := pending);
    forall e | e in s'.t.executions
      ensures Safe(s', e)
    {
      assert Safe(s, e);
      if Unfinished(s.t.executions[e]) {
        var j :| Carries(s, j, e);
        assert Returning(s', j) ==> Returning(s, j);
        assert Carries(s', j, e);
      }
    }
  }

  lemma TickKeeps(s: System, now: Time)
    requires Inv(s)
    ensures Inv(s.(now := now))
  {
    var s' := s.(now := now);
    forall e | e in s'.t.executions
      ensures Safe(s', e)
    {
      assert Safe(s, e);
      if Unfinished(s.t.executions[e]) {
        var j :| Carries(s, j, e);
        assert Returning(s', j) ==> Returning(s, j);
        assert Carries(s', j, e);
      }
    }
  }

  lemma StepKeeps(s: System, a: Action)
    requires Inv(s) && Honest(s, a)
    ensures Inv(Do(s, a))
  {
    match a
    case Request(op) => if External(op) { RequestKeeps(s, op); }
    case Tick(now) => TickKeeps(s, now);
    case Take(tid, job, worker, lease) => TakeKeeps(s, tid, job, worker, lease);
    case Load(tid) => if tid in s.threads && s.threads[tid].stage.Claimed? { LoadKeeps(s, tid); }
    case Settle(tid) => if tid in s.threads && s.threads[tid].stage.Returned? { SettleKeeps(s, tid); }
    case Crash(tid) => CrashKeeps(s, tid);
    case ReadAttention(rid, workspace, execution) => FewerPending(s, DoRead(s, rid, workspace, execution).pending);
    case WriteAttention(rid, attention, actor) =>
      if rid in s.pending && !attention.NoAttention? { AttentionKeeps(s, rid, attention, actor); }
    case _ => RunStepKeeps(s, a);
  }

  lemma RunStepKeeps(s: System, a: Action)
    requires Inv(s) && (a.GiveUp? || a.Begin? || a.Visit? || a.End?)
    ensures Inv(Do(s, a))
  {
    if a.tid in s.threads {
      var stage := s.threads[a.tid].stage;
      if a.GiveUp? && stage.Loaded? {
        WriteKeeps(s, a.tid, stage.copy.(status := Failed), Returned(Problem(false)));
      } else if a.Begin? && stage.Loaded? {
        if stage.copy.status.Running? {
          OwnJobCarries(s, a.tid);
          assert Holds(s.t, s.threads[a.tid]);
          MoveKeeps(s, a.tid, Working(stage.copy));
        } else {
          WriteKeeps(s, a.tid, stage.copy.(status := Running), Working(stage.copy.(status := Running)));
        }
      } else if a.Visit? && stage.Working? {
        WriteKeeps(s, a.tid, stage.copy, stage);
      } else if a.End? && stage.Working? {
        WriteKeeps(s, a.tid, stage.copy.(status := EndStatus(a.ending)), Returned(EndVerdict(a.ending)));
      }
    }
  }

  /** No lost work: as long as leases outlive their holders, in every interleaving of deliveries, replays,
      retries, attention updates, worker threads and crashes, an execution that is queued or running has a
      queued or running job that will run it. */
  lemma {:induction false} NothingIsLost(s: System, actions: seq<Action>)
    requires Inv(s) && HonestRun(s, actions)
    ensures Inv(Run(s, actions))
  {
    if actions != [] {
      NothingIsLost(s, actions[..|actions| - 1]);
      StepKeeps(Run(s, actions[..|actions| - 1]), actions[|actions| - 1]);
    }
  }
}
