/** What every history of store operations keeps, whoever calls them and in whatever order: one execution and
    one acceptance job per idempotency key, the shape of a lease, and the finality of a settled job. */
module StoreHistory {
  import opened Text
  import opened RuntimeStore

  datatype Op =
    | AcceptOp(delivery: Delivery, now: Time)
    | CreateOp(id: Id, row: Execution, versionFound: bool, jobId: Id, kind: string, now: Time)
    | RequeueOp(workspace: Id, id: Id, jobId: Id, kind: string, now: Time)
    | UpdateOp(workspace: Id, id: Id, copy: Execution)
    | ClaimOp(id: Id, worker: string, lease: Time, now: Time)
    | CompleteOp(workspace: Id, id: Id, worker: string)
    | FailOp(workspace: Id, id: Id, worker: string, retryAt: Option<Time>, now: Time)

  ghost function Perform(t: Tables, op: Op): Tables {
    match op
    case AcceptOp(delivery, now) => Accept(t, delivery, now).0
    case CreateOp(id, row, versionFound, jobId, kind, now) => Create(t, id, row, versionFound, jobId, kind, now).0
    case RequeueOp(workspace, id, jobId, kind, now) => Requeue(t, workspace, id, jobId, kind, now).0
    case UpdateOp(workspace, id, copy) => Update(t, workspace, id, copy).0
    case ClaimOp(id, worker, lease, now) => Claim(t, id, worker, lease, now).0
    case CompleteOp(workspace, id, worker) => Finish(t, workspace, id, worker).0
    case FailOp(workspace, id, worker, retryAt, now) => Release(t, workspace, id, worker, retryAt, now).0
  }

  ghost function After(t: Tables, ops: seq<Op>): Tables {
    if ops == [] then t else Perform(After(t, ops[..|ops| - 1]), ops[|ops| - 1])
  }

  // ---------- Rows persist and stay unique ----------

  /** Executions keep their identity: only status and attention change. */
  predicate SameIdentity(a: Execution, b: Execution) {
    a.(status := b.status, attention := b.attention, actor := b.actor) == b
  }

  ghost predicate Persist(t: Tables, t': Tables) {
    && (forall id | id in t.executions :: id in t'.executions && SameIdentity(t.executions[id], t'.executions[id]))
    && (forall id | id in t.events :: id in t'.events && t'.events[id] == t.events[id])
  }

  lemma PerformPersists(t: Tables, op: Op)
    ensures Persist(t, Perform(t, op))
  {
  }

  lemma {:induction false} HistoryPersists(t: Tables, ops: seq<Op>)
    ensures Persist(t, After(t, ops))
  {
    if ops != [] {
      HistoryPersists(t, ops[..|ops| - 1]);
      PerformPersists(After(t, ops[..|ops| - 1]), ops[|ops| - 1]);
    }
  }

  lemma AcceptUnique(t: Tables, d: Delivery, now: Time)
    requires Unique(t)
    ensures Unique(Accept(t, d, now).0)
  {
    var t' := Accept(t, d, now).0;
    assert forall a, b | a in t'.events && b in t'.events && t'.events[a].key == t'.events[b].key :: a == b;
  }

  lemma PerformUnique(t: Tables, op: Op)
    requires Unique(t)
    ensures Unique(Perform(t, op))
  {
    if op.AcceptOp? {
      AcceptUnique(t, op.delivery, op.now);
    }
  }

  /** The uniqueness constraints hold throughout. */
  lemma {:induction false} HistoryUnique(t: Tables, ops: seq<Op>)
    requires Unique(t)
    ensures Unique(After(t, ops))
  {
    if ops != [] {
      HistoryUnique(t, ops[..|ops| - 1]);
      PerformUnique(After(t, ops[..|ops| - 1]), ops[|ops| - 1]);
    }
  }

  // ---------- Idempotent acceptance ----------

  predicate On(op: Op, workspace: Id, key: string) {
    op.AcceptOp? && Keyed(op.delivery.execution, workspace, key)
  }

  function One(b: bool): nat { if b then 1 else 0 }

  /** How many accepts on the key reported a new execution. */
  ghost function NewReports(t: Tables, ops: seq<Op>, workspace: Id, key: string): nat {
    if ops == [] then 0
    else
      var before, op := After(t, ops[..|ops| - 1]), ops[|ops| - 1];
      NewReports(t, ops[..|ops| - 1], workspace, key)
        + One(On(op, workspace, key) && Accept(before, op.delivery, op.now).1.Accepted?)
  }

  /** The operation is a replay that stores an execution under the key. */
  ghost predicate ReplayOn(t: Tables, op: Op, workspace: Id, key: string) {
    && op.CreateOp? && Keyed(op.row, workspace, key)
    && Create(t, op.id, op.row, op.versionFound, op.jobId, op.kind, op.now).1
  }

  /** How many replays have stored an execution under the key. */
  ghost function ReplaysStored(t: Tables, ops: seq<Op>, workspace: Id, key: string): nat {
    if ops == [] then 0
    else
      ReplaysStored(t, ops[..|ops| - 1], workspace, key)
        + One(ReplayOn(After(t, ops[..|ops| - 1]), ops[|ops| - 1], workspace, key))
  }

  /** What an operation adds under the key. */
  ghost function Added(t: Tables, op: Op, workspace: Id, key: string): nat {
    One(On(op, workspace, key) && Accept(t, op.delivery, op.now).1.Accepted?) + One(ReplayOn(t, op, workspace, key))
  }

  lemma StepKeepsKey(t: Tables, op: Op, workspace: Id, key: string)
    requires HasExecution(t, workspace, key)
    ensures HasExecution(Perform(t, op), workspace, key) && Added(t, op, workspace, key) == 0
  {
    PerformPersists(t, op);
    hide Perform;
    var id :| id in t.executions && Keyed(t.executions[id], workspace, key);
    assert Keyed(Perform(t, op).executions[id], workspace, key);
  }

  lemma AcceptAddsKey(t: Tables, d: Delivery, now: Time, workspace: Id, key: string)
    requires !HasExecution(t, workspace, key)
    ensures HasExecution(Accept(t, d, now).0, workspace, key) <==>
      Keyed(d.execution, workspace, key) && Accept(t, d, now).1.Accepted?
  {
    var t' := Accept(t, d, now).0;
    if Keyed(d.execution, workspace, key) && Accept(t, d, now).1.Accepted? {
      assert Keyed(t'.executions[d.executionId], workspace, key);
    }
  }

  lemma CreateAddsKey(t: Tables, op: Op, workspace: Id, key: string)
    requires op.CreateOp? && !HasExecution(t, workspace, key)
    ensures HasExecution(Perform(t, op), workspace, key) <==> ReplayOn(t, op, workspace, key)
  {
    if ReplayOn(t, op, workspace, key) {
      assert Keyed(Perform(t, op).executions[op.id], workspace, key);
    }
  }

  lemma StepAddsKey(t: Tables, op: Op, workspace: Id, key: string)
    requires !HasExecution(t, workspace, key)
    ensures One(HasExecution(Perform(t, op), workspace, key)) == Added(t, op, workspace, key)
  {
    match op
    case AcceptOp(d, now) => AcceptAddsKey(t, d, now, workspace, key);
    case CreateOp(_, _, _, _, _, _) => CreateAddsKey(t, op, workspace, key);
    case _ =>
  }

  /** Over every history: at most one accept per workspace and key reports new, and exactly one if the key has come
      into use other than by a replay; whatever else happens in between. */
  lemma {:induction false} OneReportsNew(t: Tables, ops: seq<Op>, workspace: Id, key: string)
    ensures NewReports(t, ops, workspace, key) + ReplaysStored(t, ops, workspace, key)
              + One(HasExecution(t, workspace, key))
         == One(HasExecution(After(t, ops), workspace, key))
  {
    if ops != [] {
      OneReportsNew(t, ops[..|ops| - 1], workspace, key);
      var before, op := After(t, ops[..|ops| - 1]), ops[|ops| - 1];
      if HasExecution(before, workspace, key) {
        StepKeepsKey(before, op, workspace, key);
      } else {
        StepAddsKey(before, op, workspace, key);
      }
    }
  }

  lemma SoleExecution(t: Tables, id: Id, workspace: Id, key: string)
    requires Unique(t) && id in t.executions && Keyed(t.executions[id], workspace, key)
    ensures HasExecution(t, workspace, key) && ExecutionOf(t, workspace, key) == id
  {
  }

  /** In scope, and with identifiers of its own. */
  predicate Acceptable(t: Tables, d: Delivery) {
    InScope(d) && d.eventId !in t.events && d.executionId !in t.executions
  }

  /** Once an accept has been answered, every later acceptable one on the key is a duplicate of the same execution,
      and none changes an execution or queues a job. */
  lemma AcceptsConverge(t: Tables, first: Op, between: seq<Op>, second: Op, workspace: Id, key: string)
    requires Unique(t) && On(first, workspace, key) && On(second, workspace, key)
    requires !Accept(t, first.delivery, first.now).1.Refused?
    ensures var answer := Accept(t, first.delivery, first.now).1;
      var t' := After(Perform(t, first), between);
      var again := Accept(t', second.delivery, second.now);
      && again.1 == (if Acceptable(t', second.delivery) then Duplicate(answer.execution) else Refused)
      && answer.execution in t'.executions && Keyed(t'.executions[answer.execution], workspace, key)
      && again.0.executions == t'.executions && again.0.jobs == t'.jobs
  {
    var t1 := Perform(t, first);
    var id := Accept(t, first.delivery, first.now).1.execution;
    PerformUnique(t, first);
    assert Keyed(t1.executions[id], workspace, key);
    HistoryUnique(t1, between);
    HistoryPersists(t1, between);
    SoleExecution(After(t1, between), id, workspace, key);
  }

  // ---------- One acceptance job per execution ----------

  /** How the ingress, the replay and the retry handlers build their requests. */
  predicate Wired(op: Op) {
    match op
    case AcceptOp(d, _) => d.jobExecution == d.executionId && JobKind(d.kind) == FLOW_EXECUTE
    case CreateOp(_, _, _, _, kind, _) => kind == FLOW_EXECUTE
    case RequeueOp(_, _, _, kind, _) => kind != FLOW_EXECUTE
    case _ => true
  }

  predicate StartJob(t: Tables, j: Id, e: Id) {
    j in t.jobs && t.jobs[j].kind == FLOW_EXECUTE && t.jobs[j].execution == e
  }

  ghost predicate OneStartJobEach(t: Tables) {
    && (forall j | j in t.jobs :: t.jobs[j].execution in t.executions)
    && (forall e | e in t.executions :: exists j :: StartJob(t, j, e))
    && (forall e, j, k | StartJob(t, j, e) && StartJob(t, k, e) :: j == k)
  }

  lemma AddedPair(t: Tables, t': Tables, e: Id, j: Id)
    requires OneStartJobEach(t) && e !in t.executions && j !in t.jobs
    requires t'.executions.Keys == t.executions.Keys + {e}
    requires t'.jobs.Keys == t.jobs.Keys + {j} && (forall k | k in t.jobs :: t'.jobs[k] == t.jobs[k])
    requires t'.jobs[j].kind == FLOW_EXECUTE && t'.jobs[j].execution == e
    ensures OneStartJobEach(t')
  {
    StartJobsAfterPair(t, t', e, j);
    assert StartJob(t', j, e);
    JobsOfStored(t, t', e, j);
    hide StartJob;
    forall x | x in t'.executions
      ensures exists k :: StartJob(t', k, x)
    {
      if x in t.executions {
        var k :| StartJob(t, k, x);
        assert StartJob(t', k, x);
      }
    }
  }

  lemma JobsOfStored(t: Tables, t': Tables, e: Id, j: Id)
    requires forall k | k in t.jobs :: t.jobs[k].execution in t.executions
    requires t'.executions.Keys == t.executions.Keys + {e}
    requires t'.jobs.Keys == t.jobs.Keys + {j} && (forall k | k in t.jobs :: t'.jobs[k] == t.jobs[k])
    requires t'.jobs[j].execution == e
    ensures forall k | k in t'.jobs :: t'.jobs[k].execution in t'.executions
  {
    assert forall k | k in t'.jobs :: k in t.jobs || k == j;
  }

  lemma StartJobsAfterPair(t: Tables, t': Tables, e: Id, j: Id)
    requires (forall k | k in t.jobs :: t.jobs[k].execution in t.executions) && e !in t.executions && j !in t.jobs
    requires t'.jobs.Keys == t.jobs.Keys + {j} && (forall k | k in t.jobs :: t'.jobs[k] == t.jobs[k])
    requires t'.jobs[j].kind == FLOW_EXECUTE && t'.jobs[j].execution == e
    ensures forall k, x :: StartJob(t', k, x) <==> StartJob(t, k, x) || (k == j && x == e)
    ensures forall k :: !StartJob(t, k, e) && !StartJob(t, j, k)
  {
    assert forall k :: k in t'.jobs <==> k in t.jobs || k == j;
  }

  predicate SameStart(a: Job, b: Job) {
    a.kind == b.kind && a.execution == b.execution
  }

  lemma AddedOther(t: Tables, t': Tables)
    requires OneStartJobEach(t)
    requires t'.executions.Keys == t.executions.Keys
    requires forall k | k in t.jobs :: k in t'.jobs && SameStart(t.jobs[k], t'.jobs[k])
    requires forall k | k in t'.jobs && k !in t.jobs ::
      t'.jobs[k].kind != FLOW_EXECUTE && t'.jobs[k].execution in t.executions
    ensures OneStartJobEach(t')
  {
    assert forall k, x :: StartJob(t', k, x) <==> StartJob(t, k, x);
    assert forall k | k in t'.jobs :: t'.jobs[k].execution in t'.executions;
  }

  lemma AcceptOneStartJob(t: Tables, d: Delivery, now: Time)
    requires OneStartJobEach(t) && d.jobExecution == d.executionId && JobKind(d.kind) == FLOW_EXECUTE
    ensures OneStartJobEach(Accept(t, d, now).0)
  {
    if Accept(t, d, now).1.Accepted? {
      AddedPair(t, Accept(t, d, now).0, d.executionId, d.jobId);
    } else {
      AddedOther(t, Accept(t, d, now).0);
    }
  }

  lemma CreateOneStartJob(t: Tables, op: Op)
    requires OneStartJobEach(t) && op.CreateOp? && op.kind == FLOW_EXECUTE
    ensures OneStartJobEach(Perform(t, op))
  {
    if Create(t, op.id, op.row, op.versionFound, op.jobId, op.kind, op.now).1 {
      AddedPair(t, Perform(t, op), op.id, op.jobId);
    }
  }

  lemma OtherOpsStartNothing(t: Tables, op: Op)
    requires !op.AcceptOp? && !op.CreateOp? && Wired(op)
    ensures var t' := Perform(t, op);
      && t'.executions.Keys == t.executions.Keys
      && (forall k | k in t.jobs :: k in t'.jobs && SameStart(t.jobs[k], t'.jobs[k]))
      && (forall k | k in t'.jobs && k !in t.jobs ::
           t'.jobs[k].kind != FLOW_EXECUTE && t'.jobs[k].execution in t.executions)
  {
  }

  lemma StepOneStartJob(t: Tables, op: Op)
    requires OneStartJobEach(t) && Wired(op)
    ensures OneStartJobEach(Perform(t, op))
  {
    match op
    case AcceptOp(d, now) => AcceptOneStartJob(t, d, now);
    case CreateOp(_, _, _, _, _, _) => CreateOneStartJob(t, op);
    case _ =>
      OtherOpsStartNothing(t, op);
      AddedOther(t, Perform(t, op));
  }

  /** Every execution has exactly one job that started it; operator retries add jobs of other kinds. */
  lemma {:induction false} HistoryOneStartJob(t: Tables, ops: seq<Op>)
    requires OneStartJobEach(t) && forall op | op in ops :: Wired(op)
    ensures OneStartJobEach(After(t, ops))
  {
    if ops != [] {
      HistoryOneStartJob(t, ops[..|ops| - 1]);
      StepOneStartJob(After(t, ops[..|ops| - 1]), ops[|ops| - 1]);
    }
  }

  // ---------- Leases ----------

  /** A job is running exactly when it has a holder and a lease. */
  predicate LeaseShaped(job: Job) {
    if job.status.JobRunning? then !IsBlank(job.leasedBy) && job.leaseUntil.Some?
    else job.leasedBy == "" && job.leaseUntil.None?
  }

  /** Workers have a name. */
  predicate NamedWorker(op: Op) {
    op.CompleteOp? || op.FailOp? ==> !IsBlank(op.worker)
  }

  predicate Settled(job: Job) {
    job.status.JobSucceeded? || job.status.JobFailed?
  }

  lemma StepLease(t: Tables, op: Op, j: Id)
    requires NamedWorker(op) && j in t.jobs && LeaseShaped(t.jobs[j])
    ensures j in Perform(t, op).jobs && LeaseShaped(Perform(t, op).jobs[j])
    ensures Settled(t.jobs[j]) ==> Perform(t, op).jobs[j] == t.jobs[j]
  {
  }

  lemma NewJobsLeaseShaped(t: Tables, op: Op, j: Id)
    requires j in Perform(t, op).jobs && j !in t.jobs
    ensures LeaseShaped(Perform(t, op).jobs[j])
  {
  }

  /** In every reachable state a job is running exactly when it has a named holder and a lease. */
  lemma {:induction false} HistoryLease(t: Tables, ops: seq<Op>)
    requires forall j | j in t.jobs :: LeaseShaped(t.jobs[j])
    requires forall op | op in ops :: NamedWorker(op)
    ensures forall j | j in After(t, ops).jobs :: LeaseShaped(After(t, ops).jobs[j])
  {
    if ops != [] {
      var before, op := After(t, ops[..|ops| - 1]), ops[|ops| - 1];
      HistoryLease(t, ops[..|ops| - 1]);
      forall j | j in Perform(before, op).jobs
        ensures LeaseShaped(Perform(before, op).jobs[j])
      {
        if j in before.jobs {
          StepLease(before, op, j);
        } else {
          NewJobsLeaseShaped(before, op, j);
        }
      }
    }
  }

  /** Succeeded and failed are final: the row never changes again. */
  lemma {:induction false} SettledForever(t: Tables, ops: seq<Op>, j: Id)
    requires j in t.jobs && LeaseShaped(t.jobs[j]) && Settled(t.jobs[j])
    requires forall op | op in ops :: NamedWorker(op)
    ensures j in After(t, ops).jobs && After(t, ops).jobs[j] == t.jobs[j]
  {
    if ops != [] {
      SettledForever(t, ops[..|ops| - 1], j);
      StepLease(After(t, ops[..|ops| - 1]), ops[|ops| - 1], j);
    }
  }

  predicate Claims(t: Tables, op: Op, j: Id) {
    op.ClaimOp? && op.id == j && Claim(t, j, op.worker, op.lease, op.now).1
  }

  predicate Settles(t: Tables, op: Op, j: Id) {
    || (op.CompleteOp? && op.id == j && Finish(t, op.workspace, j, op.worker).1)
    || (op.FailOp? && op.id == j && Release(t, op.workspace, j, op.worker, op.retryAt, op.now).1)
  }

  /** The worker of the last claim of the job that nobody has settled since; "" if there is none. */
  ghost function LastClaimant(t: Tables, ops: seq<Op>, j: Id): string {
    if ops == [] then ""
    else
      var before, op := After(t, ops[..|ops| - 1]), ops[|ops| - 1];
      if Claims(before, op, j) then op.worker
      else if Settles(before, op, j) then ""
      else LastClaimant(t, ops[..|ops| - 1], j)
  }

  lemma HolderAfter(t: Tables, op: Op, j: Id)
    ensures j in t.jobs ==> j in Perform(t, op).jobs
    ensures j in t.jobs ==> (Perform(t, op).jobs[j].leasedBy ==
      if Claims(t, op, j) then op.worker else if Settles(t, op, j) then "" else t.jobs[j].leasedBy)
    ensures j !in t.jobs ==> !Claims(t, op, j) && !Settles(t, op, j)
    ensures j !in t.jobs && j in Perform(t, op).jobs ==> Perform(t, op).jobs[j].leasedBy == ""
  {
  }

  lemma {:induction false} HolderIsLastClaimant(t: Tables, ops: seq<Op>, j: Id)
    requires j !in t.jobs || t.jobs[j].leasedBy == ""
    ensures j in After(t, ops).jobs ==> After(t, ops).jobs[j].leasedBy == LastClaimant(t, ops, j)
    ensures j !in After(t, ops).jobs ==> LastClaimant(t, ops, j) == ""
  {
    if ops != [] {
      HolderIsLastClaimant(t, ops[..|ops| - 1], j);
      HolderAfter(After(t, ops[..|ops| - 1]), ops[|ops| - 1], j);
    }
  }

  /** A worker settles a job exactly when the last claim of it was its own and has not been settled: once
      another worker has reclaimed the job, neither completing nor failing it does anything. */
  lemma SettleNeedsLastClaim(t: Tables, ops: seq<Op>, j: Id, workspace: Id, worker: string, retryAt: Option<Time>,
      now: Time)
    requires j in After(t, ops).jobs && After(t, ops).jobs[j].workspace == workspace && worker != ""
    requires j !in t.jobs || t.jobs[j].leasedBy == ""
    ensures Finish(After(t, ops), workspace, j, worker).1 <==> LastClaimant(t, ops, j) == worker
    ensures Release(After(t, ops), workspace, j, worker, retryAt, now).1 <==> LastClaimant(t, ops, j) == worker
    ensures LastClaimant(t, ops, j) != worker ==>
      (Finish(After(t, ops), workspace, j, worker).0 == After(t, ops)
       && Release(After(t, ops), workspace, j, worker, retryAt, now).0 == After(t, ops))
  {
    HolderIsLastClaimant(t, ops, j);
  }

  // ---------- Attention ----------

  /** Attention marks exactly the executions an operator can act on. */
  predicate AttentionShaped(row: Execution) {
    && (row.attention.NoAttention? <==> !Actionable(row.status))
    && (row.attention.NoAttention? ==> row.actor.None?)
  }

  lemma StepAttention(t: Tables, op: Op)
    requires forall e | e in t.executions :: AttentionShaped(t.executions[e])
    ensures forall e | e in Perform(t, op).executions :: AttentionShaped(Perform(t, op).executions[e])
  {
  }

  lemma {:induction false} HistoryAttention(t: Tables, ops: seq<Op>)
    requires forall e | e in t.executions :: AttentionShaped(t.executions[e])
    ensures forall e | e in After(t, ops).executions :: AttentionShaped(After(t, ops).executions[e])
  {
    if ops != [] {
      HistoryAttention(t, ops[..|ops| - 1]);
      StepAttention(After(t, ops[..|ops| - 1]), ops[|ops| - 1]);
    }
  }
}
