/** Which job a claim takes, and how long its lease keeps every other worker away from it. */
module Leases {
  import opened Text
  import opened RuntimeStore
  import opened StoreHistory

  // ---------- The job that is claimed ----------

  /** Waiting and due, or held under a lease that has run out. */
  predicate Due(row: Job, now: Time) {
    match row.status
    case JobQueued => row.availableAt <= now
    case JobRunning => row.leaseUntil.Some? && row.leaseUntil.value <= now
    case _ => false
  }

  predicate DifferAt(a: string, b: string, k: nat) {
    k < |a| && k < |b| && a[..k] == b[..k] && a[k] < b[k]
  }

  /** a comes before b in the order of bytes: it is a proper prefix, or smaller where they first differ. */
  ghost predicate Alphabetical(a: string, b: string) {
    a < b || exists k :: DifferAt(a, b, k)
  }

  lemma DifferLater(a: string, b: string, k: nat)
    requires a != "" && b != "" && a[0] == b[0]
    ensures DifferAt(a, b, k + 1) <==> DifferAt(a[1..], b[1..], k)
  {
    if k < |a[1..]| && k < |b[1..]| {
      assert a[..k + 1] == [a[0]] + a[1..][..k];
      assert b[..k + 1] == [b[0]] + b[1..][..k];
    }
  }

  lemma AlphabeticalTails(a: string, b: string)
    requires a != "" && b != "" && a[0] == b[0]
    ensures Alphabetical(a, b) <==> Alphabetical(a[1..], b[1..])
  {
    assert a == [a[0]] + a[1..] && b == [b[0]] + b[1..];
    assert !DifferAt(a, b, 0);
    hide DifferAt;
    if k: nat :| DifferAt(a, b, k) {
      assert k > 0;
      DifferLater(a, b, k - 1);
    }
    if k :| DifferAt(a[1..], b[1..], k) {
      DifferLater(a, b, k);
    }
  }

  lemma {:induction false} TextLessAlphabetical(a: string, b: string)
    ensures TextLess(a, b) <==> Alphabetical(a, b)
  {
    if a != "" && b != "" && a[0] == b[0] {
      AlphabeticalTails(a, b);
      TextLessAlphabetical(a[1..], b[1..]);
    } else if a != "" && b != "" {
      assert DifferAt(a, b, 0) <==> a[0] < b[0];
    }
  }

  /** So a poll comes back empty-handed exactly if nothing is due. */
  lemma ClaimableIsDue(row: Job, now: Time)
    ensures Claimable(row, now) <==> Due(row, now)
  {
  }

  /** What a successful claim has found and leaves: the first due job, now leased to the worker until the deadline. */
  lemma ClaimTakesFirstDue(t: Tables, id: Id, worker: string, lease: Time, now: Time)
    requires Claim(t, id, worker, lease, now).1
    ensures id in t.jobs && Due(t.jobs[id], now)
    ensures forall other | other in t.jobs && other != id && Due(t.jobs[other], now) ::
      || t.jobs[id].availableAt < t.jobs[other].availableAt
      || (t.jobs[id].availableAt == t.jobs[other].availableAt
          && (t.jobs[id].createdAt < t.jobs[other].createdAt
              || (t.jobs[id].createdAt == t.jobs[other].createdAt && Alphabetical(id, other))))
    ensures var t', row := Claim(t, id, worker, lease, now).0, Claim(t, id, worker, lease, now).0.jobs[id];
      && t'.events == t.events && t'.executions == t.executions && t'.jobs == t.jobs[id := row]
      && row == t.jobs[id].(status := JobRunning, leasedBy := worker, leaseUntil := Some(now + lease),
                            attempts := t.jobs[id].attempts + 1)
  {
    forall other | other in t.jobs && other != id && Due(t.jobs[other], now)
      ensures Earlier(t.jobs, id, other)
    {
      assert Claimable(t.jobs[other], now);
    }
    forall other
      ensures TextLess(id, other) <==> Alphabetical(id, other)
    {
      TextLessAlphabetical(id, other);
    }
  }

  // ---------- The lease ----------

  /** What the clock says when an operation that reads it is performed. */
  function ClockOf(op: Op): Option<Time> {
    match op
    case AcceptOp(_, now) => Some(now)
    case CreateOp(_, _, _, _, _, now) => Some(now)
    case RequeueOp(_, _, _, _, now) => Some(now)
    case UpdateOp(_, _, _) => None
    case ClaimOp(_, _, _, now) => Some(now)
    case CompleteOp(_, _, _) => None
    case FailOp(_, _, _, _, now) => Some(now)
  }

  /** The clock does not run past the deadline. */
  predicate Before(ops: seq<Op>, deadline: Time) {
    forall op | op in ops :: ClockOf(op).Some? ==> ClockOf(op).value < deadline
  }

  /** Clock values never decrease. */
  predicate Monotone(ops: seq<Op>) {
    forall i, k | 0 <= i < k < |ops| && ClockOf(ops[i]).Some? && ClockOf(ops[k]).Some? ::
      ClockOf(ops[i]).value <= ClockOf(ops[k]).value
  }

  /** Nobody completes or fails the job on the way. */
  ghost predicate Unsettled(t: Tables, ops: seq<Op>, j: Id) {
    ops == []
    || (Unsettled(t, ops[..|ops| - 1], j) && !Settles(After(t, ops[..|ops| - 1]), ops[|ops| - 1], j))
  }

  lemma StepHolds(t: Tables, op: Op, j: Id, deadline: Time)
    requires j in t.jobs && t.jobs[j].status.JobRunning? && t.jobs[j].leaseUntil == Some(deadline)
    requires ClockOf(op).Some? ==> ClockOf(op).value < deadline
    requires !Settles(t, op, j)
    ensures j in Perform(t, op).jobs && Perform(t, op).jobs[j] == t.jobs[j]
    ensures !Claims(t, op, j)
  {
  }

  lemma {:induction false} Holds(t: Tables, ops: seq<Op>, j: Id, deadline: Time)
    requires j in t.jobs && t.jobs[j].status.JobRunning? && t.jobs[j].leaseUntil == Some(deadline)
    requires Before(ops, deadline) && Unsettled(t, ops, j)
    ensures j in After(t, ops).jobs && After(t, ops).jobs[j] == t.jobs[j]
  {
    if ops != [] {
      Holds(t, ops[..|ops| - 1], j, deadline);
      StepHolds(After(t, ops[..|ops| - 1]), ops[|ops| - 1], j, deadline);
    }
  }

  /** A lease keeps others away: in every history, after a claim of the job at one time no claim of it succeeds before
      that time plus the lease, unless the job has been settled in between. */
  lemma LeaseHolds(t: Tables, j: Id, worker: string, lease: Time, now: Time, between: seq<Op>, later: Op)
    requires Claim(t, j, worker, lease, now).1 && later.ClaimOp? && later.id == j && later.now < now + lease
    requires Monotone(between + [later]) && Unsettled(Claim(t, j, worker, lease, now).0, between, j)
    ensures !Claims(After(Claim(t, j, worker, lease, now).0, between), later, j)
  {
    var t1 := Claim(t, j, worker, lease, now).0;
    ClaimTakesFirstDue(t, j, worker, lease, now);
    forall op | op in between && ClockOf(op).Some?
      ensures ClockOf(op).value < now + lease
    {
      var i :| 0 <= i < |between| && between[i] == op;
      assert (between + [later])[i] == op && (between + [later])[|between|] == later;
    }
    Holds(t1, between, j, now + lease);
    assert !Settles(After(t1, between), later, j);
    StepHolds(After(t1, between), later, j, now + lease);
  }
}
