/** What the store's operations leave in the rows, column by column. */
module StoredRows {
  import opened Text
  import opened RuntimeStore
  import opened StoreHistory

  /** Nobody holds it and nobody has tried it yet; it is due at once. */
  predicate NewlyQueued(row: Job, workspace: Id, kind: string, execution: Id, now: Time) {
    && row.status.JobQueued? && row.workspace == workspace && row.kind == kind && row.execution == execution
    && row.availableAt == now && row.createdAt == now && row.attempts == 0 && row.leasedBy == "" && row.leaseUntil.None?
  }

  predicate NeedsAttention(status: ExecutionStatus) {
    status == Failed || status == Indeterminate || status == ReconciliationRequired
  }

  /** The attention that is stored for a row: none unless it is needed, and then the caller's or open. */
  predicate AttentionStored(given: Execution, stored: Execution) {
    if NeedsAttention(given.status) then
      if given.attention == NoAttention then stored.attention == Open && stored.actor == None
      else stored.attention == given.attention && stored.actor == given.actor
    else stored.attention == NoAttention && stored.actor == None
  }

  /** The columns that a write of status and attention leaves alone. */
  predicate SameColumns(a: Execution, b: Execution) {
    && a.workspace == b.workspace && a.connection == b.connection && a.flow == b.flow && a.version == b.version
    && a.key == b.key
  }

  /** Workspace and connection agree in event, execution and job, and the execution names this event or none. */
  predicate Consistent(d: Delivery) {
    && d.event.key.workspace != ""
    && d.execution.workspace == d.event.key.workspace && d.execution.connection == d.event.connection
    && d.execution.event in {"", d.eventId} && d.jobWorkspace in {"", d.event.key.workspace}
  }

  ghost predicate KeyTaken(t: Tables, d: Delivery) {
    exists id | id in t.executions ::
      t.executions[id].workspace == d.execution.workspace && t.executions[id].key == d.execution.key
  }

  /** What accepting a delivery stores: nothing at all if it is refused; the event, unless one with its key is there;
      and for a new key the execution, pointing at that event, and a job due at once. */
  lemma AcceptStores(t: Tables, d: Delivery, now: Time)
    requires Unique(t)
    ensures var (t', r) := Accept(t, d, now);
      && (r == Refused ==> t' == t)
      && (r == Refused <==> !Consistent(d) || d.eventId in t.events || d.executionId in t.executions
                            || (!KeyTaken(t, d) && d.jobId in t.jobs))
      && (r.Duplicate? ==>
            && r.execution in t.executions && t.executions[r.execution].workspace == d.execution.workspace
            && t.executions[r.execution].key == d.execution.key && t'.executions == t.executions && t'.jobs == t.jobs)
      && (r.Accepted? ==> r.execution == d.executionId && AcceptedRows(t, t', d, now))
      && (r != Refused ==> EventStored(t, t', d))
  {
  }

  ghost predicate EventStored(t: Tables, t': Tables, d: Delivery) {
    if exists id | id in t.events :: t.events[id].key == d.event.key then t'.events == t.events
    else t'.events == t.events[d.eventId := d.event]
  }

  ghost predicate AcceptedRows(t: Tables, t': Tables, d: Delivery, now: Time) {
    && d.executionId in t'.executions && t'.executions == t.executions[d.executionId := t'.executions[d.executionId]]
    && d.jobId in t'.jobs && t'.jobs == t.jobs[d.jobId := t'.jobs[d.jobId]]
    && NewlyQueued(t'.jobs[d.jobId], d.event.key.workspace, if IsBlank(d.kind) then "flow.execute" else d.kind,
                   d.jobExecution, now)
    && var row := t'.executions[d.executionId];
       && SameColumns(d.execution, row) && row.status == d.execution.status && AttentionStored(d.execution, row)
       && row.event in t'.events && t'.events[row.event].key == d.event.key
  }

  /** A replay stores its execution and a job due at once, or nothing. */
  lemma CreateStores(t: Tables, id: Id, row: Execution, versionFound: bool, jobId: Id, kind: string, now: Time)
    ensures var (t', ok) := Create(t, id, row, versionFound, jobId, kind, now);
      && (!ok ==> t' == t)
      && (ok <==>
            && "" !in {id, row.event, row.connection, row.flow, row.workspace} && !IsBlank(row.key) && versionFound
            && id !in t.executions && jobId !in t.jobs && !IsBlank(kind)
            && forall x | x in t.executions ::
                 t.executions[x].workspace != row.workspace || t.executions[x].key != row.key)
      && (ok ==>
            && id in t'.executions && t'.executions == t.executions[id := t'.executions[id]]
            && jobId in t'.jobs && t'.jobs == t.jobs[jobId := t'.jobs[jobId]] && t'.events == t.events
            && SameColumns(row, t'.executions[id]) && t'.executions[id].event == row.event
            && t'.executions[id].status == row.status && AttentionStored(row, t'.executions[id])
            && NewlyQueued(t'.jobs[jobId], row.workspace, kind, id, now))
  {
  }

  /** A retry or repair queues a failed, indeterminate or reconciliation-required execution of the workspace again,
      with attention cleared and a job due at once. */
  lemma RequeueStores(t: Tables, workspace: Id, id: Id, jobId: Id, kind: string, now: Time)
    ensures var (t', ok) := Requeue(t, workspace, id, jobId, kind, now);
      && (!ok ==> t' == t)
      && (ok <==>
            && workspace != "" && id in t.executions && t.executions[id].workspace == workspace
            && NeedsAttention(t.executions[id].status) && !IsBlank(kind) && jobId !in t.jobs)
      && (ok ==>
            && t'.executions ==
                 t.executions[id := t.executions[id].(status := Queued, attention := NoAttention, actor := None)]
            && jobId in t'.jobs && t'.jobs == t.jobs[jobId := t'.jobs[jobId]] && t'.events == t.events
            && NewlyQueued(t'.jobs[jobId], workspace, kind, id, now))
  {
  }

  /** An update writes the caller's status and attention over whatever an execution of the workspace has. */
  lemma UpdateStores(t: Tables, workspace: Id, id: Id, copy: Execution)
    ensures var (t', ok) := Update(t, workspace, id, copy);
      && (!ok ==> t' == t)
      && (ok <==> workspace != "" && id in t.executions && t.executions[id].workspace == workspace)
      && (ok ==>
            && id in t'.executions && t'.executions == t.executions[id := t'.executions[id]]
            && t'.jobs == t.jobs && t'.events == t.events
            && SameColumns(t.executions[id], t'.executions[id]) && t'.executions[id].event == t.executions[id].event
            && t'.executions[id].status == copy.status && AttentionStored(copy, t'.executions[id]))
  {
  }

  /** The holder completes its job, or gives it back: to be tried again at the time given, or failed. */
  lemma SettlementStores(t: Tables, workspace: Id, id: Id, worker: string, retryAt: Option<Time>, now: Time)
    ensures var (t', ok) := Finish(t, workspace, id, worker);
      && (ok <==> id in t.jobs && t.jobs[id].workspace == workspace && t.jobs[id].leasedBy == worker)
      && t' == if !ok then t
               else t.(jobs := t.jobs[id := t.jobs[id].(status := JobSucceeded, leasedBy := "", leaseUntil := None)])
    ensures var (t', ok) := Release(t, workspace, id, worker, retryAt, now);
      && (ok <==> id in t.jobs && t.jobs[id].workspace == workspace && t.jobs[id].leasedBy == worker)
      && (!ok ==> t' == t)
      && (ok ==>
            && t'.events == t.events && t'.executions == t.executions && id in t'.jobs
            && t'.jobs == t.jobs[id := t'.jobs[id]]
            && t'.jobs[id].leasedBy == "" && t'.jobs[id].leaseUntil.None? && t'.jobs[id].attempts == t.jobs[id].attempts
            && t'.jobs[id].workspace == workspace && t'.jobs[id].execution == t.jobs[id].execution
            && t'.jobs[id].kind == t.jobs[id].kind && t'.jobs[id].createdAt == t.jobs[id].createdAt
            && (retryAt.Some? ==> t'.jobs[id].status == JobQueued && t'.jobs[id].availableAt == retryAt.value)
            && (retryAt.None? ==> t'.jobs[id].status == JobFailed && t'.jobs[id].availableAt == now))
  {
  }
}
