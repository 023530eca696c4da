/**
 The node agent's operation journal: a keyed table of rows, each claimed by one owner at a time.
 Keys, request identities and owner tokens are opaque values; a claim brings a fresh token.
 */
module Journal {
  import opened Common
  import opened NodeTaskEntity

  /** `status` with the columns that are set in it. */
  datatype RowState = Working(owner: int, expiresAt: int) | Done(response: Response) | Retryable

  /** `identity` stands for the request hash, operation, client and inbound columns together. */
  datatype Row<I> = Row(identity: I, state: RowState)

  datatype Claim = Owner(reclaimed: bool) | Replay(response: Response) | Conflict | Busy

  datatype Retirement = Retired | AlreadyRetired | OperationInProgress

  // ---------------------------------------------------------------- the table as a value

  function ClaimOutcome<K, I(==)>(rows: map<K, Row<I>>, key: K, identity: I, now: int): Claim {
    if key !in rows then Owner(false)
    else
      var row := rows[key];
      if row.identity != identity then Conflict
      else if row.state.Done? then Replay(row.state.response)
      else if row.state.Working? && now < row.state.expiresAt then Busy
      else Owner(true)
  }

  function AfterClaim<K, I(==)>(rows: map<K, Row<I>>, key: K, identity: I, now: int, token: int, lease: int): map<K, Row<I>> {
    if ClaimOutcome(rows, key, identity, now).Owner? then rows[key := Row(identity, Working(token, now + lease))] else rows
  }

  predicate Owns<K, I>(rows: map<K, Row<I>>, key: K, token: int) {
    key in rows && rows[key].state.Working? && rows[key].state.owner == token
  }

  /** `complete` and `mark_retryable` are guarded updates that differ in the state they set. */
  function AfterUpdate<K, I>(rows: map<K, Row<I>>, key: K, token: int, state: RowState): map<K, Row<I>> {
    if Owns(rows, key, token) then rows[key := rows[key].(state := state)] else rows
  }

  function RetireOutcome<K, I>(rows: map<K, Row<I>>, key: K): Retirement {
    if key !in rows then AlreadyRetired else if rows[key].state.Working? then OperationInProgress else Retired
  }

  function AfterRetire<K, I>(rows: map<K, Row<I>>, key: K): map<K, Row<I>> {
    if RetireOutcome(rows, key) == Retired then rows - {key} else rows
  }

  class NodeOperationJournal<K(==), I(==)> {
    var rows: map<K, Row<I>>
    const leaseSeconds: int

    constructor (leaseSeconds: int)
      ensures rows == map[] && this.leaseSeconds == leaseSeconds
    {
      rows := map[];
      this.leaseSeconds := leaseSeconds;
    }

    method TryClaim(key: K, identity: I, now: int, token: int) returns (claim: Claim)
      modifies this
      ensures claim == ClaimOutcome(old(rows), key, identity, now)
      ensures rows == AfterClaim(old(rows), key, identity, now, token, leaseSeconds)
    {
      if key !in rows {
        rows := rows[key := Row(identity, Working(token, now + leaseSeconds))];
        return Owner(false);
      }
      var row := rows[key];
      if row.identity != identity { return Conflict; }
      if row.state.Done? { return Replay(row.state.response); }
      var liveLease := false;
      if row.state.Working? { liveLease := row.state.expiresAt > now; }
      if liveLease { return Busy; }
      rows := rows[key := row.(state := Working(token, now + leaseSeconds))];
      claim := Owner(true);
    }

    method Complete(key: K, token: int, response: Response) returns (ok: bool)
      modifies this
      ensures ok == Owns(old(rows), key, token)
      ensures rows == AfterUpdate(old(rows), key, token, Done(response))
    {
      ok := key in rows && rows[key].state.Working? && rows[key].state.owner == token;
      if ok { rows := rows[key := rows[key].(state := Done(response))]; }
    }

    method MarkRetryable(key: K, token: int) returns (ok: bool)
      modifies this
      ensures ok == Owns(old(rows), key, token)
      ensures rows == AfterUpdate(old(rows), key, token, Retryable)
    {
      ok := key in rows && rows[key].state.Working? && rows[key].state.owner == token;
      if ok { rows := rows[key := rows[key].(state := Retryable)]; }
    }

    method Retire(key: K) returns (outcome: Retirement)
      modifies this
      ensures outcome == RetireOutcome(old(rows), key)
      ensures rows == AfterRetire(old(rows), key)
    {
      if key !in rows { return AlreadyRetired; }
      if rows[key].state.Working? { return OperationInProgress; }
      rows := rows - {key};
      outcome := Retired;
    }
  }

  // ---------------------------------------------------------------- runs

  datatype Call<K, I> =
    | ClaimCall(key: K, identity: I, now: int, token: int)
    | CompleteCall(key: K, token: int, response: Response)
    | RetryCall(key: K, token: int)
    | RetireCall(key: K)

  function Apply<K, I(==)>(rows: map<K, Row<I>>, call: Call<K, I>, lease: int): map<K, Row<I>> {
    match call
    case ClaimCall(key, identity, now, token) => AfterClaim(rows, key, identity, now, token, lease)
    case CompleteCall(key, token, response) => AfterUpdate(rows, key, token, Done(response))
    case RetryCall(key, token) => AfterUpdate(rows, key, token, Retryable)
    case RetireCall(key) => AfterRetire(rows, key)
  }

  /** The table after the first `n` calls of a run. */
  function At<K, I(==)>(calls: seq<Call<K, I>>, n: nat, lease: int): map<K, Row<I>>
    requires n <= |calls|
  {
    if n == 0 then map[] else Apply(At(calls, n - 1, lease), calls[n - 1], lease)
  }

  /** No two claims of a run draw the same token. */
  ghost predicate FreshTokens<K, I>(calls: seq<Call<K, I>>) {
    forall p, q :: 0 <= p < q < |calls| && calls[p].ClaimCall? && calls[q].ClaimCall? ==> calls[p].token != calls[q].token
  }

  /** Call `p` is a claim on `key` that obtained ownership. */
  ghost predicate Obtains<K, I>(calls: seq<Call<K, I>>, p: nat, key: K, lease: int) {
    && p < |calls| && calls[p].ClaimCall? && calls[p].key == key
    && ClaimOutcome(At(calls, p, lease), key, calls[p].identity, calls[p].now).Owner?
  }

  /** Call `p` is a completion of `key` that took effect. */
  ghost predicate Completes<K, I>(calls: seq<Call<K, I>>, p: nat, key: K, lease: int) {
    p < |calls| && calls[p].CompleteCall? && calls[p].key == key && Owns(At(calls, p, lease), key, calls[p].token)
  }

  /** Call `p` is a retryable mark on `key` that took effect. */
  ghost predicate Releases<K, I>(calls: seq<Call<K, I>>, p: nat, key: K, lease: int) {
    p < |calls| && calls[p].RetryCall? && calls[p].key == key && Owns(At(calls, p, lease), key, calls[p].token)
  }

  /** `key` is in the table after each of the calls `a..b`: no retirement in between. */
  ghost predicate Epoch<K, I>(calls: seq<Call<K, I>>, key: K, a: nat, b: nat, lease: int) {
    b <= |calls| && forall n: nat :: a <= n <= b ==> key in At(calls, n, lease)
  }

  /** What one call may do to a row that stays. */
  lemma RowStep<K, I>(rows: map<K, Row<I>>, call: Call<K, I>, key: K, lease: int)
    requires key in rows && key in Apply(rows, call, lease)
    ensures Apply(rows, call, lease)[key].identity == rows[key].identity
    ensures rows[key].state.Done? ==> Apply(rows, call, lease)[key] == rows[key]
  {
  }

  /** Between insertion and retirement a row keeps its identity and, once completed, its response. */
  lemma {:induction false} EpochKeepsRow<K, I>(calls: seq<Call<K, I>>, key: K, a: nat, b: nat, lease: int)
    requires a <= b && Epoch(calls, key, a, b, lease)
    ensures At(calls, b, lease)[key].identity == At(calls, a, lease)[key].identity
    ensures At(calls, a, lease)[key].state.Done? ==> At(calls, b, lease)[key] == At(calls, a, lease)[key]
    decreases b - a
  {
    if a < b {
      EpochKeepsRow(calls, key, a, b - 1, lease);
      assert key in At(calls, b, lease) && At(calls, b, lease) == Apply(At(calls, b - 1, lease), calls[b - 1], lease);
      RowStep(At(calls, b - 1, lease), calls[b - 1], key, lease);
    }
  }

  /** At most one completion takes effect in an epoch, whoever asks. */
  lemma OneCompletion<K, I>(calls: seq<Call<K, I>>, key: K, p: nat, q: nat, lease: int)
    requires Completes(calls, p, key, lease) && Completes(calls, q, key, lease)
    requires p <= q && Epoch(calls, key, p, q, lease)
    ensures p == q
  {
    if p < q { EpochKeepsRow(calls, key, p + 1, q, lease); }
  }

  /** After a completion, a claim in the same epoch replays that response if its identity matches, and conflicts otherwise. */
  lemma LaterClaimsReplay<K, I>(calls: seq<Call<K, I>>, key: K, p: nat, q: nat, identity: I, now: int, lease: int)
    requires Completes(calls, p, key, lease) && p < q && Epoch(calls, key, p, q, lease)
    ensures ClaimOutcome(At(calls, q, lease), key, identity, now)
      == if identity == At(calls, p, lease)[key].identity then Replay(calls[p].response) else Conflict
  {
    RowStep(At(calls, p, lease), calls[p], key, lease);
    EpochKeepsRow(calls, key, p + 1, q, lease);
  }

  /** With fresh tokens, a claim's token owns nothing before the claim and only its own key afterwards. */
  lemma {:induction false} TokensAreFresh<K, I>(calls: seq<Call<K, I>>, p: nat, n: nat, key: K, lease: int)
    requires FreshTokens(calls) && p < |calls| && calls[p].ClaimCall? && n <= |calls|
    requires n <= p || key != calls[p].key
    ensures !Owns(At(calls, n, lease), key, calls[p].token)
    decreases n
  {
    if n > 0 {
      TokensAreFresh(calls, p, n - 1, key, lease);
    }
  }

  /** A superseded owner has lost the key for good: across epochs, it can neither complete nor mark retryable. */
  lemma {:induction false} SupersededOwnerIsFenced<K, I>(
    calls: seq<Call<K, I>>, key: K, p: nat, q: nat, n: nat, lease: int)
    requires FreshTokens(calls) && p < q < n <= |calls|
    requires Obtains(calls, p, key, lease) && Obtains(calls, q, key, lease)
    ensures !Owns(At(calls, n, lease), key, calls[p].token)
    decreases n
  {
    if q + 1 < n {
      SupersededOwnerIsFenced(calls, key, p, q, n - 1, lease);
    }
  }

  /** What the lease of claim `p` allows the row to be until it expires. */
  ghost predicate Covered<I>(row: Row<I>, until: int) {
    row.state.Done? || (row.state.Working? && until <= row.state.expiresAt)
  }

  lemma {:induction false} LeaseCovers<K, I>(calls: seq<Call<K, I>>, key: K, p: nat, n: nat, lease: int)
    requires lease >= 0 && p < n && Epoch(calls, key, p + 1, n, lease)
    requires Obtains(calls, p, key, lease)
    requires forall m: nat :: p < m < n ==> !Releases(calls, m, key, lease)
    ensures Covered(At(calls, n, lease)[key], calls[p].now + lease)
    decreases n
  {
    if p + 1 < n {
      LeaseCovers(calls, key, p, n - 1, lease);
      assert !Releases(calls, n - 1, key, lease);
    }
  }

  /** Leases exclude each other: without a release in between, a second owner waits for the first lease to run out. */
  lemma LeasesDoNotOverlap<K, I>(calls: seq<Call<K, I>>, key: K, p: nat, q: nat, lease: int)
    requires lease >= 0 && p < q && Epoch(calls, key, p + 1, q, lease)
    requires Obtains(calls, p, key, lease) && Obtains(calls, q, key, lease)
    requires forall m: nat :: p < m < q ==> !Releases(calls, m, key, lease)
    ensures calls[p].now + lease <= calls[q].now
  {
    LeaseCovers(calls, key, p, q, lease);
  }

  /** A key leaves the table only by a retirement, and never while its operation is in progress. */
  lemma OnlySettledRowsRetire<K, I>(calls: seq<Call<K, I>>, n: nat, key: K, lease: int)
    requires n < |calls| && key in At(calls, n, lease)
    ensures key !in At(calls, n + 1, lease) <==>
      calls[n] == RetireCall(key) && !At(calls, n, lease)[key].state.Working?
  {
  }

  // ---------------------------------------------------------------- how every claim is answered

  /** Call `p` obtained `key`, and before call `q` nobody completed, released or obtained it again. */
  ghost predicate HolderAt<K, I>(calls: seq<Call<K, I>>, p: nat, q: nat, key: K, lease: int) {
    && p < q <= |calls| && Obtains(calls, p, key, lease)
    && forall m: nat :: p < m < q ==>
         !Completes(calls, m, key, lease) && !Releases(calls, m, key, lease) && !Obtains(calls, m, key, lease)
  }

  /** Call `p` completed `key`, and it has not been retired before call `q`. */
  ghost predicate CompletedAt<K, I>(calls: seq<Call<K, I>>, p: nat, q: nat, key: K, lease: int) {
    p < q <= |calls| && Completes(calls, p, key, lease) && Epoch(calls, key, p, q, lease)
  }

  /** Call `p` inserted `key`, and it has not been retired before call `q`. */
  ghost predicate InsertedAt<K, I>(calls: seq<Call<K, I>>, p: nat, q: nat, key: K, lease: int) {
    p < q <= |calls| && Obtains(calls, p, key, lease) && key !in At(calls, p, lease) && Epoch(calls, key, p + 1, q, lease)
  }

  /** A holder's row is in progress under its token until its lease runs out. */
  lemma {:induction false} HolderWorks<K, I>(calls: seq<Call<K, I>>, p: nat, q: nat, key: K, lease: int)
    requires HolderAt(calls, p, q, key, lease)
    ensures key in At(calls, q, lease) && At(calls, q, lease)[key].state == Working(calls[p].token, calls[p].now + lease)
    decreases q
  {
    if p + 1 < q {
      HolderWorks(calls, p, q - 1, key, lease);
      assert !Completes(calls, q - 1, key, lease) && !Releases(calls, q - 1, key, lease) && !Obtains(calls, q - 1, key, lease);
    }
  }

  /** A key in the table was inserted by a claim, whose identity it has. */
  lemma {:induction false} InsertionOf<K, I>(calls: seq<Call<K, I>>, q: nat, key: K, lease: int) returns (p: nat)
    requires q <= |calls| && key in At(calls, q, lease)
    ensures InsertedAt(calls, p, q, key, lease) && At(calls, q, lease)[key].identity == calls[p].identity
    decreases q
  {
    p := q - 1;
    if key in At(calls, q - 1, lease) {
      p := InsertionOf(calls, q - 1, key, lease);
      RowStep(At(calls, q - 1, lease), calls[q - 1], key, lease);
    }
  }

  /** A row in progress has a holder. */
  lemma {:induction false} HolderOf<K, I>(calls: seq<Call<K, I>>, q: nat, key: K, lease: int) returns (p: nat)
    requires q <= |calls| && key in At(calls, q, lease) && At(calls, q, lease)[key].state.Working?
    ensures HolderAt(calls, p, q, key, lease)
    decreases q
  {
    p := q - 1;
    if !Obtains(calls, q - 1, key, lease) { p := HolderOf(calls, q - 1, key, lease); }
  }

  /** A completed row was completed by a call, whose response it holds. */
  lemma {:induction false} CompletionOf<K, I>(calls: seq<Call<K, I>>, q: nat, key: K, lease: int) returns (p: nat)
    requires q <= |calls| && key in At(calls, q, lease) && At(calls, q, lease)[key].state.Done?
    ensures CompletedAt(calls, p, q, key, lease) && At(calls, q, lease)[key].state.response == calls[p].response
    decreases q
  {
    p := q - 1;
    if !Completes(calls, q - 1, key, lease) { p := CompletionOf(calls, q - 1, key, lease); }
  }

  lemma CompletedIsDone<K, I>(calls: seq<Call<K, I>>, p: nat, q: nat, key: K, lease: int)
    requires CompletedAt(calls, p, q, key, lease)
    ensures key in At(calls, q, lease) && At(calls, q, lease)[key].state == Done(calls[p].response)
  {
    assert key in At(calls, p + 1, lease) && At(calls, p + 1, lease) == Apply(At(calls, p, lease), calls[p], lease);
    EpochKeepsRow(calls, key, p + 1, q, lease);
  }

  lemma InsertedKeepsIdentity<K, I>(calls: seq<Call<K, I>>, p: nat, q: nat, key: K, lease: int)
    requires InsertedAt(calls, p, q, key, lease)
    ensures key in At(calls, q, lease) && At(calls, q, lease)[key].identity == calls[p].identity
  {
    assert key in At(calls, p + 1, lease) && At(calls, p + 1, lease) == Apply(At(calls, p, lease), calls[p], lease);
    EpochKeepsRow(calls, key, p + 1, q, lease);
  }

  /** The claim disagrees with the claim that inserted the key. */
  ghost predicate Disagrees<K, I>(calls: seq<Call<K, I>>, q: nat, key: K, identity: I, lease: int) {
    exists p: nat :: InsertedAt(calls, p, q, key, lease) && calls[p].identity != identity
  }

  /** Somebody holds the key under a lease that has not run out. */
  ghost predicate HeldNow<K, I>(calls: seq<Call<K, I>>, q: nat, key: K, now: int, lease: int) {
    exists p: nat :: HolderAt(calls, p, q, key, lease) && now < calls[p].now + lease
  }

  /** The key was completed with response `r`. */
  ghost predicate CompletedWith<K, I>(calls: seq<Call<K, I>>, q: nat, key: K, r: Response, lease: int) {
    exists p: nat :: CompletedAt(calls, p, q, key, lease) && calls[p].response == r
  }

  /**
   How a claim is answered, told by the earlier calls alone: a conflict if and only if its identity is
   not the inserting claim's; otherwise a replay if and only if the key was completed, busy if and
   only if a holder's lease has not run out, and in every other case it obtains the key.
   */
  lemma ClaimAnsweredExactlyWhen<K, I>(calls: seq<Call<K, I>>, q: nat, key: K, identity: I, now: int, lease: int)
    requires q <= |calls|
    ensures var outcome := ClaimOutcome(At(calls, q, lease), key, identity, now);
      var conflict := Disagrees(calls, q, key, identity, lease);
      && (outcome == Conflict <==> conflict)
      && (forall r :: outcome == Replay(r) <==> !conflict && CompletedWith(calls, q, key, r, lease))
      && (outcome == Busy <==> !conflict && HeldNow(calls, q, key, now, lease))
      && (outcome.Owner? <==> !conflict && !HeldNow(calls, q, key, now, lease) && forall r :: !CompletedWith(calls, q, key, r, lease))
      && (outcome.Owner? ==> (outcome.reclaimed <==> key in At(calls, q, lease)))
  {
    var rows := At(calls, q, lease);
    if key in rows {
      var i := InsertionOf(calls, q, key, lease);
      if rows[key].state.Working? { var p := HolderOf(calls, q, key, lease); }
      if rows[key].state.Done? { var p := CompletionOf(calls, q, key, lease); }
    }
    forall p: nat | InsertedAt(calls, p, q, key, lease)
      ensures key in rows && rows[key].identity == calls[p].identity
    {
      InsertedKeepsIdentity(calls, p, q, key, lease);
    }
    forall p: nat | HolderAt(calls, p, q, key, lease)
      ensures key in rows && rows[key].state == Working(calls[p].token, calls[p].now + lease)
    {
      HolderWorks(calls, p, q, key, lease);
    }
    forall p: nat | CompletedAt(calls, p, q, key, lease) ensures key in rows && rows[key].state == Done(calls[p].response) {
      CompletedIsDone(calls, p, q, key, lease);
    }
    hide At, InsertedAt, HolderAt, CompletedAt;
  }

  /** A token can complete or release a key exactly while its claim is the key's holder. */
  lemma OwnsExactlyWhen<K, I>(calls: seq<Call<K, I>>, q: nat, key: K, token: int, lease: int)
    requires q <= |calls|
    ensures Owns(At(calls, q, lease), key, token) <==>
      exists p: nat :: HolderAt(calls, p, q, key, lease) && calls[p].token == token
  {
    var rows := At(calls, q, lease);
    if Owns(rows, key, token) {
      var p := HolderOf(calls, q, key, lease);
      HolderWorks(calls, p, q, key, lease);
    }
    forall p: nat | HolderAt(calls, p, q, key, lease)
      ensures key in rows && rows[key].state == Working(calls[p].token, calls[p].now + lease)
    {
      HolderWorks(calls, p, q, key, lease);
    }
  }
}
