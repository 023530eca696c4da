/**
 The legacy-panel tasks. A provision task carries a compensation flag: once a remote
 success could have been lost, the next attempt removes the client before anything else.
 */
module PanelTaskEntity {
  import opened Common
  import opened NodeTaskEntity

  /** One row type serves both panel tables; revoke tasks never set `compensation`. */
  datatype PanelRow = PanelRow(
    generation: int,
    status: TaskStatus,
    attempts: int,
    maxAttempts: int,
    nextRetryAt: Option<int>,
    claimedAt: Option<int>,
    leaseExpiresAt: Option<int>,
    leaseToken: Option<int>,
    compensation: bool,
    completedAt: Option<int>)

  function NewPanelTask(generation: int, maxAttempts: int, now: int): PanelRow {
    PanelRow(generation, Pending, 0, maxAttempts, Some(now), None, None, None, false, None)
  }

  predicate PanelCanDispatch(t: PanelRow, now: int) {
    t.status == Pending && (t.nextRetryAt.None? || t.nextRetryAt.value <= now)
  }

  predicate PanelOwnsLease(t: PanelRow, token: int, attemptNo: int) {
    t.status == InProgress && t.leaseToken == Some(token) && t.attempts == attemptNo
  }

  predicate PanelOwnsActiveLease(t: PanelRow, token: int, attemptNo: int, now: int) {
    PanelOwnsLease(t, token, attemptNo) && t.leaseExpiresAt.Some? && now < t.leaseExpiresAt.value
  }

  predicate PanelLeaseExpired(t: PanelRow, now: int) {
    t.status == InProgress && t.leaseExpiresAt.Some? && t.leaseExpiresAt.value <= now
  }

  function PanelLeaseCleared(t: PanelRow): PanelRow {
    t.(claimedAt := None, leaseExpiresAt := None, leaseToken := None)
  }

  function PanelStarted(t: PanelRow, now: int, expiresAt: int, token: int): PanelRow {
    t.(status := InProgress, attempts := t.attempts + 1,
       claimedAt := Some(now), leaseExpiresAt := Some(expiresAt), leaseToken := Some(token))
  }

  function PanelCompleted(t: PanelRow, now: int): PanelRow {
    PanelLeaseCleared(t.(status := Succeeded, completedAt := Some(now), compensation := false))
  }

  function PanelRetried(t: PanelRow, now: int, base: int): PanelRow {
    if t.attempts >= t.maxAttempts then
      PanelLeaseCleared(t.(status := TaskFailed, completedAt := Some(now)))
    else
      PanelLeaseCleared(t.(status := Pending, nextRetryAt := Some(now + Backoff(base, t.attempts))))
  }

  /** `require_compensation`, and lease recovery of a provision task. */
  function CompensationQueued(t: PanelRow, now: int): PanelRow {
    PanelLeaseCleared(t.(status := Pending, nextRetryAt := Some(now), compensation := true))
  }

  /** Lease recovery of a revoke task. */
  function PanelRequeued(t: PanelRow, now: int): PanelRow {
    PanelLeaseCleared(t.(status := Pending, nextRetryAt := Some(now)))
  }

  function CompensationDone(t: PanelRow, now: int, terminalLocally: bool): PanelRow {
    var c := PanelLeaseCleared(t.(compensation := false));
    if terminalLocally then c.(status := Cancelled, completedAt := Some(now))
    else if t.attempts >= t.maxAttempts then c.(status := TaskFailed, completedAt := Some(now))
    else c.(status := Pending, nextRetryAt := Some(now), completedAt := None)
  }

  class PanelTask {
    const generation: int
    const maxAttempts: int
    var status: TaskStatus
    var attempts: int
    var nextRetryAt: Option<int>
    var claimedAt: Option<int>
    var leaseExpiresAt: Option<int>
    var leaseToken: Option<int>
    var compensation: bool
    var completedAt: Option<int>

    function Row(): PanelRow
      reads this
    {
      PanelRow(generation, status, attempts, maxAttempts, nextRetryAt, claimedAt, leaseExpiresAt,
               leaseToken, compensation, completedAt)
    }

    constructor (row: PanelRow)
      ensures Row() == row
    {
      generation := row.generation;
      maxAttempts := row.maxAttempts;
      status := row.status;
      attempts := row.attempts;
      nextRetryAt := row.nextRetryAt;
      claimedAt := row.claimedAt;
      leaseExpiresAt := row.leaseExpiresAt;
      leaseToken := row.leaseToken;
      compensation := row.compensation;
      completedAt := row.completedAt;
    }

    method ClearLease()
      modifies this
      ensures Row() == PanelLeaseCleared(old(Row()))
    {
      claimedAt := None;
      leaseExpiresAt := None;
      leaseToken := None;
    }

    method StartAttempt(now: int, expiresAt: int, token: int) returns (ok: bool)
      modifies this
      ensures ok == (PanelCanDispatch(old(Row()), now) && now < expiresAt)
      ensures Row() == if ok then PanelStarted(old(Row()), now, expiresAt, token) else old(Row())
    {
      if !PanelCanDispatch(Row(), now) || expiresAt <= now { return false; }
      status := InProgress;
      attempts := attempts + 1;
      claimedAt := Some(now);
      leaseExpiresAt := Some(expiresAt);
      leaseToken := Some(token);
      ok := true;
    }

    method Complete(now: int) returns (ok: bool)
      modifies this
      ensures ok == old(status == InProgress)
      ensures Row() == if ok then PanelCompleted(old(Row()), now) else old(Row())
    {
      if status != InProgress { return false; }
      status := Succeeded;
      completedAt := Some(now);
      compensation := false;
      ClearLease();
      ok := true;
    }

    method Retry(now: int, base: int)
      modifies this
      ensures Row() == PanelRetried(old(Row()), now, base)
    {
      if attempts >= maxAttempts {
        status := TaskFailed;
        completedAt := Some(now);
        ClearLease();
        return;
      }
      status := Pending;
      nextRetryAt := Some(now + Backoff(base, attempts));
      ClearLease();
    }

    method RecoverProvisionLease(now: int) returns (ok: bool)
      modifies this
      ensures ok == PanelLeaseExpired(old(Row()), now)
      ensures Row() == if ok then CompensationQueued(old(Row()), now) else old(Row())
    {
      if !PanelLeaseExpired(Row(), now) { return false; }
      RequireCompensation(now);
      ok := true;
    }

    method RecoverRevokeLease(now: int) returns (ok: bool)
      modifies this
      ensures ok == PanelLeaseExpired(old(Row()), now)
      ensures Row() == if ok then PanelRequeued(old(Row()), now) else old(Row())
    {
      if !PanelLeaseExpired(Row(), now) { return false; }
      status := Pending;
      nextRetryAt := Some(now);
      ClearLease();
      ok := true;
    }

    method MarkCompensationRequired() returns (ok: bool)
      modifies this
      ensures ok == old(status == InProgress)
      ensures Row() == if ok then old(Row()).(compensation := true) else old(Row())
    {
      if status != InProgress { return false; }
      compensation := true;
      ok := true;
    }

    method RequireCompensation(now: int)
      modifies this
      ensures Row() == CompensationQueued(old(Row()), now)
    {
      status := Pending;
      nextRetryAt := Some(now);
      compensation := true;
      ClearLease();
    }

    method CompensationSucceeded(now: int, terminalLocally: bool)
      modifies this
      ensures Row() == CompensationDone(old(Row()), now, terminalLocally)
    {
      compensation := false;
      ClearLease();
      if terminalLocally {
        status := Cancelled;
        completedAt := Some(now);
        return;
      }
      if attempts >= maxAttempts {
        status := TaskFailed;
        completedAt := Some(now);
        return;
      }
      status := Pending;
      nextRetryAt := Some(now);
      completedAt := None;
    }
  }
}
