/** Runs of the system as histories of the store, and how often a job is retried automatically, whether or
    not leases expire under their holders. */
module JobRetries {
  import opened Text
  import opened RuntimeStore
  import opened StoreHistory
  import opened JobProtocol

  // ---------- A run of the system is a history of the store ----------

  /** The store operation a step performs, if any. */
  function OpOf(s: System, a: Action): Option<Op> {
    match a
    case Request(op) => if External(op) then Some(op) else None
    case Take(tid, job, worker, lease) => if tid in s.threads then None else Some(ClaimOp(job, worker, lease, s.now))
    case GiveUp(tid) =>
      if tid in s.threads && s.threads[tid].stage.Loaded?
      then Some(WriteOp(s.threads[tid], s.threads[tid].stage.copy.(status := Failed))) else None
    case Begin(tid) =>
      if tid in s.threads && s.threads[tid].stage.Loaded? && !s.threads[tid].stage.copy.status.Running?
      then Some(WriteOp(s.threads[tid], s.threads[tid].stage.copy.(status := Running))) else None
    case Visit(tid) =>
      if tid in s.threads && s.threads[tid].stage.Working?
      then Some(WriteOp(s.threads[tid], s.threads[tid].stage.copy)) else None
    case End(tid, ending) =>
      if tid in s.threads && s.threads[tid].stage.Working?
      then Some(WriteOp(s.threads[tid], s.threads[tid].stage.copy.(status := EndStatus(ending)))) else None
    case Settle(tid) =>
      if tid in s.threads && s.threads[tid].stage.Returned?
      then Some(SettleOp(s.threads[tid], s.threads[tid].stage.verdict, s.now)) else None
    case WriteAttention(rid, attention, actor) =>
      if rid in s.pending && !attention.NoAttention?
      then Some(UpdateOp(s.pending[rid].workspace, s.pending[rid].execution,
                         s.pending[rid].copy.(attention := attention, actor := actor))) else None
    case _ => None
  }

  ghost function Performed(t: Tables, op: Option<Op>): Tables {
    match op case None => t case Some(o) => Perform(t, o)
  }

  predicate WorkersNamed(s: System) {
    forall tid | tid in s.threads :: !IsBlank(s.threads[tid].worker)
  }

  lemma StepIsOp(s: System, a: Action)
    requires WorkersNamed(s)
    ensures Do(s, a).t == Performed(s.t, OpOf(s, a)) && WorkersNamed(Do(s, a))
    ensures OpOf(s, a).Some? ==> NamedWorker(OpOf(s, a).value) && Wired(OpOf(s, a).value)
  {
  }

  /** Whatever the interleaving, the tables see a history of store operations, all by named workers and all
      wired as their handlers wire them; so everything proved of histories holds of every run. */
  lemma {:induction false} RunIsHistory(s: System, actions: seq<Action>) returns (ops: seq<Op>)
    requires WorkersNamed(s)
    ensures Run(s, actions).t == After(s.t, ops) && WorkersNamed(Run(s, actions))
    ensures forall op | op in ops :: NamedWorker(op) && Wired(op)
  {
    if actions == [] {
      ops := [];
    } else {
      var front, a := actions[..|actions| - 1], actions[|actions| - 1];
      ops := RunIsHistory(s, front);
      StepIsOp(Run(s, front), a);
      var op := OpOf(Run(s, front), a);
      if op.Some? {
        assert (ops + [op.value])[..|ops|] == ops;
        ops := ops + [op.value];
      }
    }
  }

  ghost predicate LeasesShaped(s: System) {
    WorkersNamed(s) && forall j | j in s.t.jobs :: LeaseShaped(s.t.jobs[j])
  }

  lemma RunLeases(s: System, actions: seq<Action>)
    requires LeasesShaped(s)
    ensures LeasesShaped(Run(s, actions))
  {
    var ops := RunIsHistory(s, actions);
    HistoryLease(s.t, ops);
  }

  // ---------- Bounded retry ----------

  /** What settling does to the job, as its row shows it: done, queued again after a pause that grows with the
      attempts, or failed when it is not worth another attempt or five have been made. */
  lemma SettleOutcome(s: System, tid: nat)
    requires tid in s.threads && s.threads[tid].stage.Returned?
    requires Held(s.t, s.threads[tid].workspace, s.threads[tid].job, s.threads[tid].worker)
    ensures var th, s' := s.threads[tid], Do(s, Settle(tid));
      && s'.threads == s.threads - {tid} && s'.t.executions == s.t.executions && s'.t.events == s.t.events
      && th.job in s'.t.jobs && s'.t.jobs == s.t.jobs[th.job := s'.t.jobs[th.job]]
      && var row, row' := s.t.jobs[th.job], s'.t.jobs[th.job];
         match th.stage.verdict
         case Fine =>
           row' == row.(status := JobSucceeded, leaseUntil := None, leasedBy := "")
         case Problem(retryable) =>
           row' == row.(status := if retryable && th.attempts < 5 then JobQueued else JobFailed,
                        availableAt := if retryable && th.attempts < 5 then s.now + 5 * th.attempts else s.now,
                        leaseUntil := None, leasedBy := "")
  {
  }

  /** How a run of the execution ends shows in its row and in what becomes of the job. */
  lemma EndOutcome(s: System, tid: nat, ending: Ending)
    requires tid in s.threads && s.threads[tid].stage.Working? && s.threads[tid].workspace != ""
    requires Stored(s.t, s.threads[tid].workspace, s.threads[tid].execution)
    ensures var th, s' := s.threads[tid], Do(s, End(tid, ending));
      && th.execution in s'.t.executions && s'.t.jobs == s.t.jobs
      && s'.t.executions[th.execution].status ==
           (match ending
            case Success => Succeeded
            case SkipAll => Skipped
            case Failure(true, _) => ReconciliationRequired
            case Failure(false, _) => Failed)
      && s'.threads == s.threads[tid := th.(stage := Returned(
           match ending case Failure(_, retryable) => Problem(retryable) case _ => Fine))]
  {
  }

  /** The step puts job j back into the queue for another automatic attempt. */
  ghost predicate Retries(s: System, a: Action, j: Id) {
    j in s.t.jobs && !s.t.jobs[j].status.JobQueued? && j in Do(s, a).t.jobs && Do(s, a).t.jobs[j].status.JobQueued?
  }

  /** Only a settlement does, of a thread whose problem may be retried, before the fifth attempt. */
  lemma RetryIsSettlement(s: System, a: Action, j: Id)
    requires Retries(s, a, j)
    ensures a.Settle? && a.tid in s.threads && s.threads[a.tid].job == j && s.threads[a.tid].attempts < MAX_ATTEMPTS
    ensures s.threads[a.tid].stage == Returned(Problem(true))
    ensures Do(s, a).t.jobs[j].availableAt == s.now + BACKOFF * s.threads[a.tid].attempts
  {
    if !(a.Settle? && a.tid in s.threads && s.threads[a.tid].stage.Returned?) {
      NoSettlementNoRetry(s, a, j);
    } else {
      SettleOnlyJob(s.t, s.threads[a.tid], s.threads[a.tid].stage.verdict, s.now);
      if Held(s.t, s.threads[a.tid].workspace, s.threads[a.tid].job, s.threads[a.tid].worker) {
        SettleOutcome(s, a.tid);
      }
    }
  }

  /** A step that neither claims nor settles leaves j and its threads as they are, or takes some away. */
  lemma OtherStepLeavesJob(s: System, a: Action, j: Id)
    requires !a.Take? && !(a.Settle? && a.tid in s.threads && s.threads[a.tid].stage.Returned?)
    ensures j in s.t.jobs ==> j in Do(s, a).t.jobs && Do(s, a).t.jobs[j] == s.t.jobs[j]
    ensures j !in s.t.jobs && j in Do(s, a).t.jobs ==> Do(s, a).t.jobs[j].status.JobQueued?
    ensures forall tid | tid in Do(s, a).threads :: tid in s.threads && SameClaim(s.threads[tid], Do(s, a).threads[tid])
  {
    if a.Request? && External(a.op) {
      JobsStay(s.t, a.op);
      NewJobsQueued(s.t, a.op, j);
    } else if !a.Request? {
      InnerStepLeavesJobs(s, a);
    }
  }

  predicate SameClaim(th: Thread, th': Thread) {
    th'.job == th.job && th'.attempts == th.attempts && th'.workspace == th.workspace && th'.worker == th.worker
  }

  lemma InnerStepLeavesJobs(s: System, a: Action)
    requires !a.Request? && !a.Take? && !(a.Settle? && a.tid in s.threads && s.threads[a.tid].stage.Returned?)
    ensures Do(s, a).t.jobs == s.t.jobs
    ensures forall tid | tid in Do(s, a).threads :: tid in s.threads && SameClaim(s.threads[tid], Do(s, a).threads[tid])
  {
    hide Accept, Create, Requeue, Claim, Finish, Release, Normalized;
  }

  lemma NewJobsQueued(t: Tables, op: Op, j: Id)
    requires External(op)
    ensures j !in t.jobs && j in Perform(t, op).jobs ==> Perform(t, op).jobs[j].status.JobQueued?
  {
  }

  lemma NoSettlementNoRetry(s: System, a: Action, j: Id)
    requires !(a.Settle? && a.tid in s.threads && s.threads[a.tid].stage.Returned?)
    ensures !Retries(s, a, j)
  {
    if !a.Take? {
      OtherStepLeavesJob(s, a, j);
    }
  }

  /** The attempt numbers after which j was queued again, in order. */
  ghost function AutoRetries(s: System, actions: seq<Action>, j: Id): seq<nat> {
    if actions == [] then []
    else
      var front, a := actions[..|actions| - 1], actions[|actions| - 1];
      var before := Run(s, front);
      AutoRetries(s, front, j) + RetriedAttempt(before, a, j)
  }

  ghost function RetriedAttempt(s: System, a: Action, j: Id): seq<nat> {
    if Retries(s, a, j) then
      RetryIsSettlement(s, a, j);
      [s.threads[a.tid].attempts]
    else []
  }

  /** For how long in all j was put off. */
  ghost function Backoff(s: System, actions: seq<Action>, j: Id): int {
    if actions == [] then 0
    else
      var front, a := actions[..|actions| - 1], actions[|actions| - 1];
      var before := Run(s, front);
      Backoff(s, front, j) + if Retries(before, a, j) then Do(before, a).t.jobs[j].availableAt - before.now else 0
  }

  function Sum(ns: seq<nat>): nat {
    if ns == [] then 0 else Sum(ns[..|ns| - 1]) + ns[|ns| - 1]
  }

  predicate DistinctNumbers(ns: seq<nat>) {
    forall i, k | 0 <= i < k < |ns| :: ns[i] != ns[k]
  }

  /** The attempts spent on j: retried ones, and those of live threads, are all different claims. */
  ghost predicate AttemptsSpent(s: System, retried: seq<nat>, j: Id) {
    && DistinctNumbers(retried)
    && (forall n | n in retried :: 1 <= n < MAX_ATTEMPTS && j in s.t.jobs && n <= s.t.jobs[j].attempts)
    && (forall tid | tid in s.threads && s.threads[tid].job == j ::
          j in s.t.jobs && 1 <= s.threads[tid].attempts <= s.t.jobs[j].attempts && s.threads[tid].attempts !in retried)
    && (forall x, y | x in s.threads && y in s.threads && s.threads[x].job == j && s.threads[y].job == j
          && s.threads[x].attempts == s.threads[y].attempts :: x == y)
  }

  lemma AttemptsGrow(t: Tables, op: Op, j: Id)
    requires j in t.jobs
    ensures j in Perform(t, op).jobs && t.jobs[j].attempts <= Perform(t, op).jobs[j].attempts
  {
  }

  /** A step that neither claims nor settles leaves every thread on the claim it made. */
  lemma ThreadsKeepClaims(s: System, s': System, retried: seq<nat>, j: Id)
    requires AttemptsSpent(s, retried, j)
    requires j in s.t.jobs ==> j in s'.t.jobs && s.t.jobs[j].attempts <= s'.t.jobs[j].attempts
    requires forall tid | tid in s'.threads :: tid in s.threads && SameClaim(s.threads[tid], s'.threads[tid])
    ensures AttemptsSpent(s', retried, j)
  {
  }

  lemma TakeSpends(s: System, tid: nat, job: Id, worker: string, lease: Time, retried: seq<nat>, j: Id)
    requires AttemptsSpent(s, retried, j)
    ensures AttemptsSpent(DoTake(s, tid, job, worker, lease), retried, j)
  {
  }

  lemma SettleSpends(s: System, tid: nat, retried: seq<nat>, j: Id)
    requires AttemptsSpent(s, retried, j) && tid in s.threads && s.threads[tid].stage.Returned?
    ensures AttemptsSpent(DoSettle(s, tid, s.threads[tid].stage.verdict),
                          retried + RetriedAttempt(s, Settle(tid), j), j)
  {
    var s' := DoSettle(s, tid, s.threads[tid].stage.verdict);
    if j in s.t.jobs {
      AttemptsGrow(s.t, SettleOp(s.threads[tid], s.threads[tid].stage.verdict, s.now), j);
    }
    ThreadsKeepClaims(s, s', retried, j);
    if Retries(s, Settle(tid), j) {
      RetryIsSettlement(s, Settle(tid), j);
    } else {
      assert retried + [] == retried;
    }
  }

  lemma StepSpends(s: System, a: Action, retried: seq<nat>, j: Id)
    requires AttemptsSpent(s, retried, j)
    ensures AttemptsSpent(Do(s, a), retried + RetriedAttempt(s, a, j), j)
  {
    if a.Settle? && a.tid in s.threads && s.threads[a.tid].stage.Returned? {
      SettleSpends(s, a.tid, retried, j);
    } else {
      NoSettlementNoRetry(s, a, j);
      assert retried + [] == retried;
      if a.Take? {
        TakeSpends(s, a.tid, a.job, a.worker, a.lease, retried, j);
      } else {
        OtherStepLeavesJob(s, a, j);
        ThreadsKeepClaims(s, Do(s, a), retried, j);
      }
    }
  }

  lemma {:induction false} RunSpends(s: System, actions: seq<Action>, j: Id)
    requires forall tid | tid in s.threads :: s.threads[tid].job != j
    ensures AttemptsSpent(Run(s, actions), AutoRetries(s, actions, j), j)
  {
    if actions != [] {
      RunSpends(s, actions[..|actions| - 1], j);
      StepSpends(Run(s, actions[..|actions| - 1]), actions[|actions| - 1], AutoRetries(s, actions[..|actions| - 1], j),
        j);
    }
  }

  function Without(ns: seq<nat>, n: nat): seq<nat> {
    if ns == [] then []
    else if ns[|ns| - 1] == n then ns[..|ns| - 1]
    else Without(ns[..|ns| - 1], n) + [ns[|ns| - 1]]
  }

  lemma {:induction false} WithoutSum(ns: seq<nat>, n: nat)
    requires n in ns
    ensures Sum(ns) == Sum(Without(ns, n)) + n && |ns| == |Without(ns, n)| + 1
  {
    var front, last := ns[..|ns| - 1], ns[|ns| - 1];
    if last != n {
      assert n in front;
      WithoutSum(front, n);
      var rest := Without(front, n) + [last];
      assert rest[..|rest| - 1] == Without(front, n);
    }
  }

  lemma {:induction false} WithoutMembers(ns: seq<nat>, n: nat)
    requires DistinctNumbers(ns)
    ensures DistinctNumbers(Without(ns, n))
    ensures forall m :: m in Without(ns, n) <==> m in ns && m != n
  {
    if ns != [] {
      var front, last := ns[..|ns| - 1], ns[|ns| - 1];
      assert ns == front + [last];
      assert last !in front;
      WithoutMembers(front, n);
    }
  }

  lemma Triangle(n: nat)
    ensures n * (n + 1) == (n - 1) * n + 2 * n
    ensures n * (n + 1) >= 0
  {
  }

  /** Distinct numbers up to n: at most n of them, summing to at most 1 + ... + n. */
  lemma {:induction false} DistinctUpTo(ns: seq<nat>, n: nat)
    requires DistinctNumbers(ns) && forall m | m in ns :: 1 <= m <= n
    ensures |ns| <= n && 2 * Sum(ns) <= n * (n + 1)
    decreases n
  {
    if n in ns {
      WithoutSum(ns, n);
      WithoutMembers(ns, n);
      DistinctUpTo(Without(ns, n), n - 1);
      Triangle(n);
    } else if ns != [] {
      assert ns[0] in ns;
      DistinctUpTo(ns, n - 1);
      Triangle(n);
    }
  }

  /** Bounded retry: however leases expire and threads overlap, a job is queued again automatically at most
      four times, with at most fifty seconds of backoff in all. */
  lemma RetriesAreBounded(s: System, actions: seq<Action>, j: Id)
    requires forall tid | tid in s.threads :: s.threads[tid].job != j
    ensures |AutoRetries(s, actions, j)| <= 4
    ensures 0 <= Backoff(s, actions, j) <= 50
  {
    RunSpends(s, actions, j);
    DistinctUpTo(AutoRetries(s, actions, j), 4);
    BackoffOfAttempts(s, actions, j);
  }

  lemma SumOneMore(ns: seq<nat>, n: nat)
    ensures Sum(ns + [n]) == Sum(ns) + n && Sum(ns + []) == Sum(ns)
  {
    assert (ns + [n])[..|ns|] == ns && ns + [] == ns;
  }

  lemma {:induction false} BackoffOfAttempts(s: System, actions: seq<Action>, j: Id)
    ensures Backoff(s, actions, j) == BACKOFF * Sum(AutoRetries(s, actions, j))
  {
    if actions != [] {
      var front, a := actions[..|actions| - 1], actions[|actions| - 1];
      BackoffOfAttempts(s, front, j);
      if Retries(Run(s, front), a, j) {
        RetryIsSettlement(Run(s, front), a, j);
        SumOneMore(AutoRetries(s, front, j), Run(s, front).threads[a.tid].attempts);
      } else {
        SumOneMore(AutoRetries(s, front, j), 0);
      }
    }
  }

  // ---------- Without lease expiry: at most five claims ----------

  /** No claim takes over a running job. */
  predicate TakesQueued(s: System, a: Action, j: Id) {
    a.Take? && a.job == j && j in s.t.jobs ==> s.t.jobs[j].status.JobQueued?
  }

  ghost predicate NoExpiry(s: System, actions: seq<Action>, j: Id) {
    actions == []
    || (NoExpiry(s, actions[..|actions| - 1], j)
         && TakesQueued(Run(s, actions[..|actions| - 1]), actions[|actions| - 1], j))
  }

  /** Every claim but the current or last one was followed by a retry. */
  predicate ClaimsCounted(t: Tables, retries: nat, j: Id) {
    if j !in t.jobs then retries == 0
    else t.jobs[j].attempts == retries + One(!t.jobs[j].status.JobQueued?)
  }

  lemma OtherStepCounted(s: System, a: Action, retries: nat, j: Id)
    requires ClaimsCounted(s.t, retries, j)
    requires !a.Take? && !(a.Settle? && a.tid in s.threads && s.threads[a.tid].stage.Returned?)
    ensures ClaimsCounted(Do(s, a).t, retries, j)
  {
    if a.Request? && External(a.op) {
      RequestCounted(s.t, a.op, retries, j);
    } else if !a.Request? {
      InnerStepLeavesJobs(s, a);
    }
  }

  lemma RequestCounted(t: Tables, op: Op, retries: nat, j: Id)
    requires ClaimsCounted(t, retries, j) && External(op)
    ensures ClaimsCounted(Perform(t, op), retries, j)
  {
    JobsStay(t, op);
  }

  lemma TakeCounted(s: System, a: Action, retries: nat, j: Id)
    requires ClaimsCounted(s.t, retries, j) && a.Take? && TakesQueued(s, a, j)
    ensures ClaimsCounted(Do(s, a).t, retries, j)
  {
  }

  lemma SettleCounted(s: System, a: Action, retries: nat, j: Id)
    requires ClaimsCounted(s.t, retries, j)
    requires a.Settle? && a.tid in s.threads && s.threads[a.tid].stage.Returned? && !IsBlank(s.threads[a.tid].worker)
    requires j in s.t.jobs ==> LeaseShaped(s.t.jobs[j])
    ensures ClaimsCounted(Do(s, a).t, retries + One(Retries(s, a, j)), j)
  {
    var th := s.threads[a.tid];
    SettleOnlyJob(s.t, th, th.stage.verdict, s.now);
  }

  lemma StepCounted(s: System, a: Action, retries: nat, j: Id)
    requires ClaimsCounted(s.t, retries, j) && TakesQueued(s, a, j) && LeasesShaped(s)
    ensures ClaimsCounted(Do(s, a).t, retries + One(Retries(s, a, j)), j)
  {
    if a.Settle? && a.tid in s.threads && s.threads[a.tid].stage.Returned? {
      SettleCounted(s, a, retries, j);
    } else if a.Take? {
      TakeCounted(s, a, retries, j);
    } else {
      OtherStepCounted(s, a, retries, j);
    }
  }

  lemma {:induction false} RunCounted(s: System, actions: seq<Action>, j: Id)
    requires LeasesShaped(s) && j !in s.t.jobs && NoExpiry(s, actions, j)
    ensures ClaimsCounted(Run(s, actions).t, |AutoRetries(s, actions, j)|, j)
  {
    if actions != [] {
      var front, a := actions[..|actions| - 1], actions[|actions| - 1];
      RunCounted(s, front, j);
      RunLeases(s, front);
      StepCounted(Run(s, front), a, |AutoRetries(s, front, j)|, j);
    }
  }

  /** Without lease expiry a job is claimed at most five times, and the fifth claim is settled for good. */
  lemma FiveClaims(s: System, actions: seq<Action>, j: Id)
    requires LeasesShaped(s) && NoExpiry(s, actions, j) && j !in s.t.jobs
    requires forall tid | tid in s.threads :: s.threads[tid].job != j
    requires j in Run(s, actions).t.jobs
    ensures Run(s, actions).t.jobs[j].attempts <= MAX_ATTEMPTS
    ensures Run(s, actions).t.jobs[j].attempts == MAX_ATTEMPTS ==> !Run(s, actions).t.jobs[j].status.JobQueued?
  {
    RunCounted(s, actions, j);
    RetriesAreBounded(s, actions, j);
  }

  // ---------- And exactly five, if every problem may be retried ----------

  /** Whenever a thread settles j, it has met a problem that may be retried. */
  predicate MeetsRetryable(s: System, a: Action, j: Id) {
    a.Settle? && a.tid in s.threads && s.threads[a.tid].job == j && s.threads[a.tid].stage.Returned? ==>
      s.threads[a.tid].stage.verdict == Problem(true)
  }

  ghost predicate OnlyRetryable(s: System, actions: seq<Action>, j: Id) {
    actions == []
    || (OnlyRetryable(s, actions[..|actions| - 1], j)
        && MeetsRetryable(Run(s, actions[..|actions| - 1]), actions[|actions| - 1], j))
  }

  /** The threads on j hold its lease and are on its last claim; there is one at most. */
  predicate SoleHolder(s: System, j: Id) {
    && (forall tid | tid in s.threads && s.threads[tid].job == j ::
          && j in s.t.jobs && s.t.jobs[j].status.JobRunning?
          && Held(s.t, s.threads[tid].workspace, j, s.threads[tid].worker)
          && s.threads[tid].attempts == s.t.jobs[j].attempts)
    && (forall x, y | x in s.threads && y in s.threads && s.threads[x].job == j && s.threads[y].job == j :: x == y)
  }

  lemma TakeSole(s: System, a: Action, j: Id)
    requires SoleHolder(s, j) && a.Take? && TakesQueued(s, a, j)
    ensures SoleHolder(Do(s, a), j)
  {
  }

  lemma SettleSole(s: System, tid: nat, j: Id)
    requires SoleHolder(s, j) && tid in s.threads && s.threads[tid].stage.Returned?
    ensures SoleHolder(DoSettle(s, tid, s.threads[tid].stage.verdict), j)
  {
    SettleOnlyJob(s.t, s.threads[tid], s.threads[tid].stage.verdict, s.now);
  }

  lemma SameSole(s: System, s': System, j: Id)
    requires SoleHolder(s, j)
    requires j in s.t.jobs ==> j in s'.t.jobs && s'.t.jobs[j] == s.t.jobs[j]
    requires forall tid | tid in s'.threads :: tid in s.threads && SameClaim(s.threads[tid], s'.threads[tid])
    ensures SoleHolder(s', j)
  {
  }

  function UpTo(n: nat): seq<nat> {
    seq(n, i => i + 1)
  }

  /** j has been queued again after attempts 1, 2, 3, ... in turn, and has failed only after the fifth. */
  predicate Persisted(t: Tables, retried: seq<nat>, j: Id) {
    && retried == UpTo(|retried|)
    && (j in t.jobs ==>
          && !t.jobs[j].status.JobSucceeded?
          && (t.jobs[j].status.JobFailed? ==> t.jobs[j].attempts >= MAX_ATTEMPTS))
  }

  lemma UpToOneMore(n: nat)
    ensures UpTo(n) + [n + 1] == UpTo(n + 1) && UpTo(n) + [] == UpTo(n)
  {
  }

  lemma SettlePersists(s: System, a: Action, retried: seq<nat>, j: Id)
    requires SoleHolder(s, j) && Persisted(s.t, retried, j) && ClaimsCounted(s.t, |retried|, j)
    requires a.Settle? && a.tid in s.threads && s.threads[a.tid].stage.Returned? && MeetsRetryable(s, a, j)
    ensures Persisted(Do(s, a).t, retried + RetriedAttempt(s, a, j), j)
  {
    UpToOneMore(|retried|);
    if s.threads[a.tid].job == j {
      SettleOutcome(s, a.tid);
    } else {
      SettleOnlyJob(s.t, s.threads[a.tid], s.threads[a.tid].stage.verdict, s.now);
    }
    if Retries(s, a, j) {
      RetryIsSettlement(s, a, j);
    }
  }

  lemma TakePersists(s: System, a: Action, retried: seq<nat>, j: Id)
    requires Persisted(s.t, retried, j) && a.Take?
    ensures Persisted(Do(s, a).t, retried, j)
  {
  }

  lemma StepPersists(s: System, a: Action, retried: seq<nat>, j: Id)
    requires SoleHolder(s, j) && Persisted(s.t, retried, j) && ClaimsCounted(s.t, |retried|, j)
    requires TakesQueued(s, a, j) && MeetsRetryable(s, a, j)
    ensures SoleHolder(Do(s, a), j) && Persisted(Do(s, a).t, retried + RetriedAttempt(s, a, j), j)
  {
    hide Do, SoleHolder, Persisted, ClaimsCounted;
    if a.Settle? && a.tid in s.threads && s.threads[a.tid].stage.Returned? {
      SettleSole(s, a.tid, j);
      SettlePersists(s, a, retried, j);
      assert Do(s, a) == DoSettle(s, a.tid, s.threads[a.tid].stage.verdict) by { Settling(s, a.tid); }
    } else {
      NoSettlementNoRetry(s, a, j);
      assert retried + [] == retried;
      if a.Take? {
        TakeSole(s, a, j);
        TakePersists(s, a, retried, j);
      } else {
        OtherStepLeavesJob(s, a, j);
        SameSole(s, Do(s, a), j);
        SamePersists(s.t, Do(s, a).t, retried, j);
      }
    }
  }

  lemma Settling(s: System, tid: nat)
    requires tid in s.threads && s.threads[tid].stage.Returned?
    ensures Do(s, Settle(tid)) == DoSettle(s, tid, s.threads[tid].stage.verdict)
  {
  }

  lemma SamePersists(t: Tables, t': Tables, retried: seq<nat>, j: Id)
    requires Persisted(t, retried, j)
    requires j in t.jobs ==> j in t'.jobs && t'.jobs[j] == t.jobs[j]
    requires j !in t.jobs && j in t'.jobs ==> t'.jobs[j].status.JobQueued?
    ensures Persisted(t', retried, j)
  {
  }

  lemma {:induction false} RunPersists(s: System, actions: seq<Action>, j: Id)
    requires LeasesShaped(s) && j !in s.t.jobs && NoExpiry(s, actions, j) && OnlyRetryable(s, actions, j)
    requires forall tid | tid in s.threads :: s.threads[tid].job != j
    ensures SoleHolder(Run(s, actions), j) && Persisted(Run(s, actions).t, AutoRetries(s, actions, j), j)
  {
    if actions != [] {
      var front, a := actions[..|actions| - 1], actions[|actions| - 1];
      RunPersists(s, front, j);
      RunCounted(s, front, j);
      StepPersists(Run(s, front), a, AutoRetries(s, front, j), j);
    }
  }

  /** Without lease expiry, a job whose problems may all be retried is not given up early: if it has failed, it was
      claimed exactly five times, and queued again after attempts 1, 2, 3 and 4. */
  lemma FailedAfterFive(s: System, actions: seq<Action>, j: Id)
    requires LeasesShaped(s) && j !in s.t.jobs && NoExpiry(s, actions, j) && OnlyRetryable(s, actions, j)
    requires forall tid | tid in s.threads :: s.threads[tid].job != j
    requires j in Run(s, actions).t.jobs
    ensures var row, retried := Run(s, actions).t.jobs[j], AutoRetries(s, actions, j);
      && !row.status.JobSucceeded? && retried == UpTo(|retried|)
      && row.attempts == |retried| + One(!row.status.JobQueued?)
      && (row.status.JobFailed? ==> row.attempts == 5 && retried == [1, 2, 3, 4] && Backoff(s, actions, j) == 50)
  {
    hide Do, NoExpiry, OnlyRetryable, Sum;
    RunPersists(s, actions, j);
    RunCounted(s, actions, j);
    FiveClaims(s, actions, j);
    if Run(s, actions).t.jobs[j].status.JobFailed? {
      FourAttempts();
      BackoffOfAttempts(s, actions, j);
    }
  }

  lemma FourAttempts()
    ensures UpTo(4) == [1, 2, 3, 4] && Sum([1, 2, 3, 4]) == 10
  {
    assert [] + [1] == [1] && [1] + [2] == [1, 2] && [1, 2] + [3] == [1, 2, 3] && [1, 2, 3] + [4] == [1, 2, 3, 4];
    SumOneMore([], 1);
    SumOneMore([1], 2);
    SumOneMore([1, 2], 3);
    SumOneMore([1, 2, 3], 4);
  }
}
