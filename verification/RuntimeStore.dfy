/** The tables behind executions and jobs, and the operations on them. Each operation is one transaction or
    one statement, so it is atomic; time is an abstract clock. Requests carry the identifiers they will be
    stored under. */
module RuntimeStore {
  import opened Text

  type Time = nat

  const FLOW_EXECUTE := "flow.execute"

  datatype ExecutionStatus = Queued | Running | Succeeded | Failed | Skipped | Indeterminate | ReconciliationRequired

  datatype Attention = NoAttention | Open | Acknowledged

  datatype EventKey = EventKey(
    workspace: Id, instance: Id, project: string, behavior: string, behaviorVersion: string, delivery: string)

  datatype Event = Event(key: EventKey, connection: Id, payload: string)

  datatype Execution = Execution(
    workspace: Id, connection: Id, flow: Id, version: int, event: Id, key: string,
    status: ExecutionStatus, attention: Attention, actor: Option<Id>)

  datatype JobStatus = JobQueued | JobRunning | JobSucceeded | JobFailed

  datatype Job = Job(
    workspace: Id, kind: string, execution: Id, availableAt: Time, createdAt: Time,
    leaseUntil: Option<Time>, leasedBy: string, attempts: nat, status: JobStatus)

  datatype Tables = Tables(events: map<Id, Event>, executions: map<Id, Execution>, jobs: map<Id, Job>)

  // ---------- Rows ----------

  /** IsActionableExecutionStatus. */
  predicate Actionable(status: ExecutionStatus) {
    status.Failed? || status.Indeterminate? || status.ReconciliationRequired?
  }

  /** normalizeExecutionAttention. */
  function Normalized(row: Execution): Execution {
    if !Actionable(row.status) then row.(attention := NoAttention, actor := None)
    else if row.attention.NoAttention? then row.(attention := Open, actor := None)
    else row
  }

  function NewJob(workspace: Id, kind: string, execution: Id, now: Time): Job {
    Job(workspace, kind, execution, now, now, None, "", 0, JobQueued)
  }

  predicate HasEvent(t: Tables, key: EventKey) {
    exists id | id in t.events :: t.events[id].key == key
  }

  ghost function EventOf(t: Tables, key: EventKey): Id
    requires HasEvent(t, key)
  {
    var id :| id in t.events && t.events[id].key == key;
    id
  }

  predicate Keyed(row: Execution, workspace: Id, key: string) {
    row.workspace == workspace && row.key == key
  }

  predicate HasExecution(t: Tables, workspace: Id, key: string) {
    exists id | id in t.executions :: Keyed(t.executions[id], workspace, key)
  }

  ghost function ExecutionOf(t: Tables, workspace: Id, key: string): Id
    requires HasExecution(t, workspace, key)
  {
    var id :| id in t.executions && Keyed(t.executions[id], workspace, key);
    id
  }

  // ---------- What each operation does to the tables ----------

  datatype Acceptance = Accepted(execution: Id) | Duplicate(execution: Id) | Refused

  /** The event, execution and job that one delivery asks to store. A blank `executionEvent` or
      `jobWorkspace` is filled in from the event. */
  datatype Delivery = Delivery(
    eventId: Id, event: Event,
    executionId: Id, execution: Execution,
    jobId: Id, jobWorkspace: Id, kind: string, jobExecution: Id)

  predicate InScope(d: Delivery) {
    && d.event.key.workspace != ""
    && d.execution.workspace == d.event.key.workspace && d.execution.connection == d.event.connection
    && (d.execution.event == "" || d.execution.event == d.eventId)
    && (d.jobWorkspace == "" || d.jobWorkspace == d.event.key.workspace)
  }

  function JobKind(kind: string): string {
    if IsBlank(kind) then FLOW_EXECUTE else kind
  }

  ghost function EventsWith(t: Tables, d: Delivery): map<Id, Event> {
    if HasEvent(t, d.event.key) then t.events else t.events[d.eventId := d.event]
  }

  ghost function StoredExecution(t: Tables, d: Delivery): Execution {
    var event := if HasEvent(t, d.event.key) then EventOf(t, d.event.key) else d.eventId;
    Normalized(d.execution.(event := event))
  }

  /** AcceptInboundEvent. A duplicate still records a delivery not seen before. */
  ghost function Accept(t: Tables, d: Delivery, now: Time): (Tables, Acceptance) {
    var workspace, key := d.execution.workspace, d.execution.key;
    if !InScope(d) || d.eventId in t.events || d.executionId in t.executions then (t, Refused)
    else if HasExecution(t, workspace, key) then
      (t.(events := EventsWith(t, d)), Duplicate(ExecutionOf(t, workspace, key)))
    else if d.jobId in t.jobs then (t, Refused)
    else
      (Tables(EventsWith(t, d), t.executions[d.executionId := StoredExecution(t, d)],
              t.jobs[d.jobId := NewJob(workspace, JobKind(d.kind), d.jobExecution, now)]),
       Accepted(d.executionId))
  }

  predicate Complete(id: Id, row: Execution) {
    id != "" && row.event != "" && row.connection != "" && row.flow != "" && !IsBlank(row.key) && row.workspace != ""
  }

  /** CreateFlowExecutionAndEnqueue. `versionFound` says whether the Flow and the version are in the workspace. */
  function Create(
    t: Tables, id: Id, row: Execution, versionFound: bool, jobId: Id, kind: string, now: Time): (Tables, bool)
  {
    if !Complete(id, row) || !versionFound || id in t.executions || HasExecution(t, row.workspace, row.key)
       || IsBlank(kind) || jobId in t.jobs
    then (t, false)
    else (t.(executions := t.executions[id := Normalized(row)],
             jobs := t.jobs[jobId := NewJob(row.workspace, kind, id, now)]), true)
  }

  predicate Stored(t: Tables, workspace: Id, id: Id) {
    id in t.executions && t.executions[id].workspace == workspace
  }

  /** RequeueFlowExecution: only from a status an operator may retry. */
  function Requeue(t: Tables, workspace: Id, id: Id, jobId: Id, kind: string, now: Time): (Tables, bool) {
    if workspace == "" || !Stored(t, workspace, id) || !Actionable(t.executions[id].status) || IsBlank(kind)
      || jobId in t.jobs
    then (t, false)
    else (t.(executions :=
               t.executions[id := t.executions[id].(status := Queued, attention := NoAttention, actor := None)],
             jobs := t.jobs[jobId := NewJob(workspace, kind, id, now)]), true)
  }

  /** UpdateFlowExecution: whatever the stored status is, the caller's copy wins. */
  function Update(t: Tables, workspace: Id, id: Id, copy: Execution): (Tables, bool) {
    if workspace == "" || !Stored(t, workspace, id) then (t, false)
    else
      var next := Normalized(copy);
      (t.(executions := t.executions[id :=
         t.executions[id].(status := next.status, attention := next.attention, actor := next.actor)]), true)
  }

  predicate Claimable(job: Job, now: Time) {
    || (job.status.JobQueued? && job.availableAt <= now)
    || (job.status.JobRunning? && job.leaseUntil.Some? && job.leaseUntil.value <= now)
  }

  /** Text order, as the database compares identifiers. */
  predicate TextLess(a: string, b: string) {
    b != "" && (a == "" || a[0] < b[0] || (a[0] == b[0] && TextLess(a[1..], b[1..])))
  }

  /** ORDER BY available_at, created_at, id. */
  predicate Earlier(jobs: map<Id, Job>, a: Id, b: Id)
    requires a in jobs && b in jobs
  {
    || jobs[a].availableAt < jobs[b].availableAt
    || (jobs[a].availableAt == jobs[b].availableAt
        && (jobs[a].createdAt < jobs[b].createdAt || (jobs[a].createdAt == jobs[b].createdAt && TextLess(a, b))))
  }

  predicate Next(jobs: map<Id, Job>, id: Id, now: Time) {
    && id in jobs && Claimable(jobs[id], now)
    && forall other | other in jobs && Claimable(jobs[other], now) :: other == id || Earlier(jobs, id, other)
  }

  function Leased(job: Job, worker: string, lease: Time, now: Time): Job {
    job.(status := JobRunning, leasedBy := worker, leaseUntil := Some(now + lease), attempts := job.attempts + 1)
  }

  /** ClaimNextJob, for the job it picks. */
  function Claim(t: Tables, id: Id, worker: string, lease: Time, now: Time): (Tables, bool) {
    if IsBlank(worker) || lease == 0 || !Next(t.jobs, id, now) then (t, false)
    else (t.(jobs := t.jobs[id := Leased(t.jobs[id], worker, lease, now)]), true)
  }

  predicate Held(t: Tables, workspace: Id, id: Id, worker: string) {
    id in t.jobs && t.jobs[id].workspace == workspace && t.jobs[id].leasedBy == worker
  }

  /** CompleteJob. */
  function Finish(t: Tables, workspace: Id, id: Id, worker: string): (Tables, bool) {
    if !Held(t, workspace, id, worker) then (t, false)
    else (t.(jobs := t.jobs[id := t.jobs[id].(status := JobSucceeded, leaseUntil := None, leasedBy := "")]), true)
  }

  /** FailJob: with a retry time the job is queued again, without one it has failed. */
  function Release(t: Tables, workspace: Id, id: Id, worker: string, retryAt: Option<Time>, now: Time): (Tables, bool) {
    if !Held(t, workspace, id, worker) then (t, false)
    else
      var released := t.jobs[id].(leaseUntil := None, leasedBy := "");
      (t.(jobs := t.jobs[id :=
         match retryAt
         case Some(time) => released.(status := JobQueued, availableAt := time)
         case None => released.(status := JobFailed, availableAt := now)]), true)
  }

  // ---------- The store ----------

  class Store {
    var events: map<Id, Event>
    var executions: map<Id, Execution>
    var jobs: map<Id, Job>

    function Contents(): Tables
      reads this
    {
      Tables(events, executions, jobs)
    }

    constructor ()
      ensures Contents() == Tables(map[], map[], map[])
    {
      events, executions, jobs := map[], map[], map[];
    }

    method AcceptInboundEvent(d: Delivery, now: Time) returns (r: Acceptance)
      requires Unique(Contents())
      modifies this
      ensures (Contents(), r) == Accept(old(Contents()), d, now)
    {
      if d.event.key.workspace == "" || d.execution.workspace != d.event.key.workspace
         || d.execution.connection != d.event.connection {
        return Refused;
      }
      var row := if d.execution.event == "" then d.execution.(event := d.eventId) else d.execution;
      if row.event != d.eventId {
        return Refused;
      }
      row := Normalized(row);
      if d.jobWorkspace != "" && d.jobWorkspace != d.event.key.workspace {
        return Refused;
      }
      // The transaction works on copies, which become the tables only when it commits.
      var events', executions', jobs' := events, executions, jobs;
      if d.eventId in events' {
        return Refused;
      }
      if !HasEvent(Contents(), d.event.key) {
        events' := events'[d.eventId := d.event];
        assert events'[d.eventId].key == d.event.key;
      }
      var eventId :| eventId in events' && events'[eventId].key == d.event.key;
      row := row.(event := eventId);
      if d.executionId in executions' {
        return Refused;
      }
      if HasExecution(Contents(), row.workspace, row.key) {
        var existing :| existing in executions' && Keyed(executions'[existing], row.workspace, row.key);
        events := events';
        return Duplicate(existing);
      }
      executions' := executions'[d.executionId := row];
      if d.jobId in jobs' {
        return Refused;
      }
      jobs' := jobs'[d.jobId := NewJob(row.workspace, JobKind(d.kind), d.jobExecution, now)];
      events, executions, jobs := events', executions', jobs';
      return Accepted(d.executionId);
    }

    method CreateFlowExecutionAndEnqueue(id: Id, row: Execution, versionFound: bool, jobId: Id, kind: string, now: Time)
    returns (ok: bool)
      modifies this
      ensures (Contents(), ok) == Create(old(Contents()), id, row, versionFound, jobId, kind, now)
    {
      if !Complete(id, row) || !versionFound || id in executions || HasExecution(Contents(), row.workspace, row.key) {
        return false;
      }
      var executions' := executions[id := Normalized(row)];
      if IsBlank(kind) || jobId in jobs {
        return false;
      }
      executions, jobs := executions', jobs[jobId := NewJob(row.workspace, kind, id, now)];
      return true;
    }

    method RequeueFlowExecution(workspace: Id, id: Id, jobId: Id, kind: string, now: Time) returns (ok: bool)
      modifies this
      ensures (Contents(), ok) == Requeue(old(Contents()), workspace, id, jobId, kind, now)
    {
      if workspace == "" || !Stored(Contents(), workspace, id) || !Actionable(executions[id].status) {
        return false;
      }
      var executions' := executions[id := executions[id].(status := Queued, attention := NoAttention, actor := None)];
      if IsBlank(kind) || jobId in jobs {
        return false;
      }
      executions, jobs := executions', jobs[jobId := NewJob(workspace, kind, id, now)];
      return true;
    }

    method UpdateFlowExecution(workspace: Id, id: Id, copy: Execution) returns (ok: bool)
      modifies this`executions
      ensures (Contents(), ok) == Update(old(Contents()), workspace, id, copy)
    {
      if workspace == "" || !Stored(Contents(), workspace, id) {
        return false;
      }
      var next := Normalized(copy);
      executions :=
        executions[id := executions[id].(status := next.status, attention := next.attention, actor := next.actor)];
      return true;
    }

    /** The scan behind ORDER BY and LIMIT 1: a claim takes the earliest job that is due or whose lease ran out. */
    method ClaimNextJob(worker: string, lease: Time, now: Time) returns (claimed: Option<Id>)
      modifies this`jobs
      ensures claimed.None? ==> Contents() == old(Contents())
      ensures claimed.None? <==>
        IsBlank(worker) || lease == 0 || (forall id | id in old(jobs) :: !Claimable(old(jobs)[id], now))
      ensures claimed.Some? ==> (Contents(), true) == Claim(old(Contents()), claimed.value, worker, lease, now)
    {
      if IsBlank(worker) || lease == 0 {
        return None;
      }
      var rest := jobs.Keys;
      claimed := None;
      while rest != {}
        invariant jobs == old(jobs) && rest <= jobs.Keys
        invariant claimed.None? ==> forall id | id in jobs && id !in rest :: !Claimable(jobs[id], now)
        invariant claimed.Some? ==> claimed.value in jobs && Claimable(jobs[claimed.value], now)
        invariant claimed.Some? ==> forall id | id in jobs && id !in rest && Claimable(jobs[id], now) ::
                    id == claimed.value || Earlier(jobs, claimed.value, id)
      {
        var id :| id in rest;
        if Claimable(jobs[id], now) {
          if claimed.Some? {
            TextLessTotal(id, claimed.value);
          }
          if claimed.None? || Earlier(jobs, id, claimed.value) {
            BeforeTheRest(jobs, id, now, claimed);
            claimed := Some(id);
          }
        }
        rest := rest - {id};
      }
      if claimed.Some? {
        jobs := jobs[claimed.value := Leased(jobs[claimed.value], worker, lease, now)];
      }
    }

    method CompleteJob(workspace: Id, id: Id, worker: string) returns (ok: bool)
      modifies this`jobs
      ensures (Contents(), ok) == Finish(old(Contents()), workspace, id, worker)
    {
      if !Held(Contents(), workspace, id, worker) {
        return false;
      }
      jobs := jobs[id := jobs[id].(status := JobSucceeded, leaseUntil := None, leasedBy := "")];
      return true;
    }

    method FailJob(workspace: Id, id: Id, worker: string, retryAt: Option<Time>, now: Time) returns (ok: bool)
      modifies this`jobs
      ensures (Contents(), ok) == Release(old(Contents()), workspace, id, worker, retryAt, now)
    {
      var status, available := JobFailed, now;
      if retryAt.Some? {
        status, available := JobQueued, retryAt.value;
      }
      if !Held(Contents(), workspace, id, worker) {
        return false;
      }
      jobs := jobs[id := jobs[id].(status := status, availableAt := available, leaseUntil := None, leasedBy := "")];
      return true;
    }
  }

  lemma {:induction false} TextLessTotal(a: string, b: string)
    ensures TextLess(a, b) || TextLess(b, a) || a == b
    ensures !TextLess(a, a)
  {
    if a != "" && b != "" && a[0] == b[0] {
      TextLessTotal(a[1..], b[1..]);
      assert a == [a[0]] + a[1..] && b == [b[0]] + b[1..];
    } else if a != "" {
      TextLessTotal(a[1..], "");
    }
  }

  lemma {:induction false} TextLessTransitive(a: string, b: string, c: string)
    requires TextLess(a, b) && TextLess(b, c)
    ensures TextLess(a, c)
  {
    if a != "" && a[0] == b[0] && b[0] == c[0] {
      TextLessTransitive(a[1..], b[1..], c[1..]);
    }
  }

  lemma BeforeTheRest(jobs: map<Id, Job>, id: Id, now: Time, claimed: Option<Id>)
    requires id in jobs && (claimed.Some? ==> claimed.value in jobs && Earlier(jobs, id, claimed.value))
    ensures claimed.Some? ==> forall other | other in jobs && Earlier(jobs, claimed.value, other) ::
      Earlier(jobs, id, other)
  {
    if claimed.Some? {
      forall other | other in jobs && Earlier(jobs, claimed.value, other)
        ensures Earlier(jobs, id, other)
      {
        if TextLess(id, claimed.value) && TextLess(claimed.value, other) {
          TextLessTransitive(id, claimed.value, other);
        }
      }
    }
  }

  // ---------- The uniqueness constraints ----------

  /** UNIQUE over the delivery columns, and over workspace and idempotency key. */
  ghost predicate Unique(t: Tables) {
    && (forall a, b | a in t.events && b in t.events && t.events[a].key == t.events[b].key :: a == b)
    && (forall a, b | a in t.executions && b in t.executions
          && t.executions[a].workspace == t.executions[b].workspace && t.executions[a].key == t.executions[b].key ::
               a == b)
  }
}
