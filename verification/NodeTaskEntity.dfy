/**
 The durable node task: a leased unit of remote work with bounded attempts.
 */
module NodeTaskEntity {
  import opened Common

  datatype Operation = ProvisionClient | RevokeClient

  datatype TaskStatus = Pending | InProgress | Succeeded | TaskFailed | Cancelled

  /** Status word of an agent's answer. */
  datatype RemoteStatus =
    | Provisioned | AlreadyExists | ClientRevoked | NotFoundTreatedAsSuccess | OtherStatus(text: string)

  datatype Response = Response(status: RemoteStatus, remoteRef: Option<string>, detail: string)

  datatype NodeTaskRow = NodeTaskRow(
    status: TaskStatus,
    attempts: int,
    maxAttempts: int,
    nextRetryAt: Option<int>,
    claimedAt: Option<int>,
    leaseExpiresAt: Option<int>,
    leaseToken: Option<int>,
    response: Option<Response>,
    remoteRef: Option<string>,
    completedAt: Option<int>)

  predicate IsOpen(s: TaskStatus) { s == Pending || s == InProgress }

  function NewTask(maxAttempts: int, now: int): NodeTaskRow {
    NodeTaskRow(Pending, 0, maxAttempts, Some(now), None, None, None, None, None, None)
  }

  predicate Accepts(op: Operation, s: RemoteStatus) {
    match op
    case ProvisionClient => s == Provisioned || s == AlreadyExists
    case RevokeClient => s == ClientRevoked || s == NotFoundTreatedAsSuccess
  }

  predicate CanDispatch(t: NodeTaskRow, now: int) {
    t.status == Pending && (t.nextRetryAt.None? || t.nextRetryAt.value <= now)
  }

  predicate OwnsActiveLease(t: NodeTaskRow, token: int, now: int, attemptNo: int) {
    && t.status == InProgress
    && t.leaseToken == Some(token)
    && t.attempts == attemptNo
    && t.leaseExpiresAt.Some?
    && now < t.leaseExpiresAt.value
  }

  predicate LeaseExpired(t: NodeTaskRow, now: int) {
    t.status == InProgress && t.leaseExpiresAt.Some? && t.leaseExpiresAt.value <= now
  }

  function LeaseCleared(t: NodeTaskRow): NodeTaskRow {
    t.(claimedAt := None, leaseExpiresAt := None, leaseToken := None)
  }

  function AttemptStarted(t: NodeTaskRow, now: int, expiresAt: int, token: int): NodeTaskRow {
    t.(status := InProgress, attempts := t.attempts + 1,
       claimedAt := Some(now), leaseExpiresAt := Some(expiresAt), leaseToken := Some(token))
  }

  function Deferred(t: NodeTaskRow, now: int, delay: int): NodeTaskRow {
    LeaseCleared(t.(nextRetryAt := Some(now + delay)))
  }

  function Completed(t: NodeTaskRow, response: Response, now: int): NodeTaskRow {
    LeaseCleared(t.(status := Succeeded, response := Some(response),
                    remoteRef := response.remoteRef, completedAt := Some(now)))
  }

  function FailedAt(t: NodeTaskRow, response: Option<Response>, now: int): NodeTaskRow {
    LeaseCleared(t.(status := TaskFailed, response := response, completedAt := Some(now)))
  }

  function Pow2(n: nat): (p: int)
    ensures p >= 1
  {
    if n == 0 then 1 else 2 * Pow2(n - 1)
  }

  /** Exponential backoff from the second retry on, capped at 300 seconds. */
  function Backoff(base: int, attempts: int): int {
    Min(base * Pow2(Max(attempts - 1, 0)), 300)
  }

  function Retried(t: NodeTaskRow, response: Option<Response>, now: int, base: int): NodeTaskRow {
    if t.attempts >= t.maxAttempts then FailedAt(t, response, now)
    else LeaseCleared(t.(status := Pending, response := response,
                         nextRetryAt := Some(now + Backoff(base, t.attempts))))
  }

  /** Each retry waits twice as long as the one before, up to the cap. */
  lemma BackoffDoublesToCap(base: int, attempts: int)
    requires base > 0 && attempts >= 1
    ensures Backoff(base, 1) == Min(base, 300)
    ensures Backoff(base, attempts + 1) == Min(2 * Backoff(base, attempts), 300)
    ensures 0 < Backoff(base, attempts) <= 300
  {
    var p := Pow2(attempts - 1);
    assert Pow2(attempts) == 2 * p;
    assert base * (2 * p) == 2 * (base * p);
    assert base * p >= base;
  }

  /** A retried task is either finished for good or due again within five minutes, never before the retry. */
  lemma RetryIsDue(t: NodeTaskRow, response: Option<Response>, now: int, base: int)
    requires base > 0 && t.attempts >= 1
    ensures var r := Retried(t, response, now, base);
      if t.attempts < t.maxAttempts then CanDispatch(r, now + 300) && !CanDispatch(r, now) else r.status == TaskFailed
  {
    BackoffDoublesToCap(base, t.attempts);
    hide Pow2;
  }

  class NodeTask {
    var status: TaskStatus
    var attempts: int
    const maxAttempts: int
    var nextRetryAt: Option<int>
    var claimedAt: Option<int>
    var leaseExpiresAt: Option<int>
    var leaseToken: Option<int>
    var response: Option<Response>
    var remoteRef: Option<string>
    var completedAt: Option<int>

    function Row(): NodeTaskRow
      reads this
    {
      NodeTaskRow(status, attempts, maxAttempts, nextRetryAt, claimedAt, leaseExpiresAt, leaseToken,
                  response, remoteRef, completedAt)
    }

    constructor (row: NodeTaskRow)
      ensures Row() == row
    {
      status := row.status;
      attempts := row.attempts;
      maxAttempts := row.maxAttempts;
      nextRetryAt := row.nextRetryAt;
      claimedAt := row.claimedAt;
      leaseExpiresAt := row.leaseExpiresAt;
      leaseToken := row.leaseToken;
      response := row.response;
      remoteRef := row.remoteRef;
      completedAt := row.completedAt;
    }

    method ClearLease()
      modifies this
      ensures Row() == LeaseCleared(old(Row()))
    {
      claimedAt := None;
      leaseExpiresAt := None;
      leaseToken := None;
    }

    method StartAttempt(now: int, expiresAt: int, token: int) returns (ok: bool)
      modifies this
      ensures ok == (CanDispatch(old(Row()), now) && now < expiresAt)
      ensures Row() == if ok then AttemptStarted(old(Row()), now, expiresAt, token) else old(Row())
    {
      if !CanDispatch(Row(), now) || expiresAt <= now { return false; }
      status := InProgress;
      attempts := attempts + 1;
      claimedAt := Some(now);
      leaseExpiresAt := Some(expiresAt);
      leaseToken := Some(token);
      ok := true;
    }

    method DeferWithoutAttempt(now: int, delay: int) returns (ok: bool)
      modifies this
      ensures ok == (old(status == Pending) && delay > 0)
      ensures Row() == if ok then Deferred(old(Row()), now, delay) else old(Row())
    {
      if status != Pending || delay <= 0 { return false; }
      nextRetryAt := Some(now + delay);
      ClearLease();
      ok := true;
    }

    method Complete(answer: Response, now: int) returns (ok: bool)
      modifies this
      ensures ok == old(status == InProgress)
      ensures Row() == if ok then Completed(old(Row()), answer, now) else old(Row())
    {
      if status != InProgress { return false; }
      status := Succeeded;
      response := Some(answer);
      remoteRef := answer.remoteRef;
      completedAt := Some(now);
      ClearLease();
      ok := true;
    }

    method Fail(answer: Option<Response>, now: int)
      modifies this
      ensures Row() == FailedAt(old(Row()), answer, now)
    {
      status := TaskFailed;
      response := answer;
      completedAt := Some(now);
      ClearLease();
    }

    method Retry(answer: Option<Response>, now: int, base: int)
      modifies this
      ensures Row() == Retried(old(Row()), answer, now, base)
    {
      if attempts >= maxAttempts {
        Fail(answer, now);
        return;
      }
      var delay := Backoff(base, attempts);
      status := Pending;
      nextRetryAt := Some(now + delay);
      response := answer;
      ClearLease();
    }

    method RecoverExpiredLease(now: int, base: int) returns (ok: bool)
      modifies this
      ensures ok == LeaseExpired(old(Row()), now)
      ensures Row() == if ok then Retried(old(Row()), None, now, base) else old(Row())
    {
      if !LeaseExpired(Row(), now) { return false; }
      Retry(None, now, base);
      ok := true;
    }
  }
}
