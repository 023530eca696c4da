/**
 The reconciler: keyset paging over the anomaly listing under a renewable lease. What the store
 holds when a page is read, how each job submission ends and what other runs do with the lease in
 between are up to the environment.
 */
module Reconciler {
  import opened Common
  import opened ControlPlane
  import Convergence

  datatype Kind =
    | ExpireSubscription | RevokeVpn | CleanupVpn | ProvisionSubscription | RepairProvision | RepairRevoke

  function KindOrder(k: Kind): int {
    match k
    case ExpireSubscription => 1
    case RevokeVpn => 2
    case CleanupVpn => 3
    case ProvisionSubscription => 4
    case RepairProvision => 5
    case RepairRevoke => 6
  }

  datatype Anomaly = Anomaly(kind: Kind, id: int)

  datatype Cursor = Cursor(order: int, id: int)

  const START := Cursor(0, 0)

  function CursorOf(a: Anomaly): Cursor {
    Cursor(KindOrder(a.kind), a.id)
  }

  predicate Follows(a: Anomaly, c: Cursor) {
    KindOrder(a.kind) > c.order || (KindOrder(a.kind) == c.order && a.id > c.id)
  }

  /** Duplicate-free and in (kind, id) order. */
  ghost predicate Ordered(l: seq<Anomaly>) {
    forall i, j :: 0 <= i < j < |l| ==> Follows(l[j], CursorOf(l[i]))
  }

  /** The kinds in the order in which they are handled. */
  const KINDS := [ExpireSubscription, RevokeVpn, CleanupVpn, ProvisionSubscription, RepairProvision, RepairRevoke]

  /** A listing goes through the kinds in this order, and through each by id. */
  lemma ListedByKind(l: seq<Anomaly>, i: int, j: int, a: int, b: int)
    requires Ordered(l) && 0 <= i < j < |l| && 0 <= a < |KINDS| && 0 <= b < |KINDS|
    requires l[i].kind == KINDS[a] && l[j].kind == KINDS[b]
    ensures a < b || (a == b && l[i].id < l[j].id)
  {
    assert Follows(l[j], CursorOf(l[i]));
  }

  /** The rows behind the cursor, in listing order. */
  function After(l: seq<Anomaly>, c: Cursor): (r: seq<Anomaly>)
    ensures forall a :: a in r <==> a in l && Follows(a, c)
  {
    if l == [] then [] else (if Follows(l[0], c) then [l[0]] else []) + After(l[1..], c)
  }

  /** One page of `list_reconciliation_anomalies`. */
  function Page(l: seq<Anomaly>, c: Cursor, limit: nat): seq<Anomaly> {
    After(l, c)[..Min(limit, |After(l, c)|)]
  }

  lemma {:induction false} AfterIsOrdered(l: seq<Anomaly>, c: Cursor)
    requires Ordered(l)
    ensures Ordered(After(l, c))
  {
    if l != [] {
      AfterIsOrdered(l[1..], c);
      var rest := After(l[1..], c);
      forall j | 0 <= j < |rest| ensures Follows(rest[j], CursorOf(l[0])) {
        assert rest[j] in l[1..];
      }
    }
  }

  lemma {:induction false} AllFollow(l: seq<Anomaly>, c: Cursor)
    requires forall i :: 0 <= i < |l| ==> Follows(l[i], c)
    ensures After(l, c) == l
  {
    if l != [] { AllFollow(l[1..], c); }
  }

  /** Behind the cursor of item `k - 1`, the listing continues with item `k`. */
  lemma {:induction false} AfterPosition(l: seq<Anomaly>, k: nat, c: Cursor)
    requires Ordered(l) && k <= |l|
    requires if k == 0 then forall i :: 0 <= i < |l| ==> Follows(l[i], c) else c == CursorOf(l[k - 1])
    ensures After(l, c) == l[k..]
    decreases k
  {
    if k == 0 {
      AllFollow(l, c);
    } else {
      assert !Follows(l[0], c) by {
        if k > 1 { assert Follows(l[k - 1], CursorOf(l[0])); }
      }
      var t := l[1..];
      forall i | 0 <= i < |t| ensures k == 1 ==> Follows(t[i], c) { assert k == 1 ==> Follows(l[i + 1], CursorOf(l[0])); }
      AfterPosition(t, k - 1, c);
      assert t[k - 1..] == l[k..];
    }
  }

  // ---------------------------------------------------------------- one run

  /** How handling one anomaly ended: expiry re-checks the subscription, the others submit a job. */
  datatype Outcome = Done | NotDone

  datatype Handled = Handled(anomaly: Anomaly, outcome: Outcome)

  datatype Counters = Counters(
    processed: int, expired: int, toRevoke: int, toProvision: int, cleanup: int, provisionRepairs: int, revokeRepairs: int,
    enqueueFailures: int)

  const ZERO := Counters(0, 0, 0, 0, 0, 0, 0, 0)

  function Anomalies(h: seq<Handled>): (r: seq<Anomaly>)
    ensures |r| == |h| && forall i :: 0 <= i < |h| ==> r[i] == h[i].anomaly
  {
    if h == [] then [] else Anomalies(h[..|h| - 1]) + [h[|h| - 1].anomaly]
  }

  /** How many items of a run satisfy a property. */
  function Count(h: seq<Handled>, p: Handled -> bool): int {
    if h == [] then 0 else Count(h[..|h| - 1], p) + if p(h[|h| - 1]) then 1 else 0
  }

  predicate Submits(a: Anomaly) { a.kind != ExpireSubscription }

  predicate Revokes(k: Kind) { k == RevokeVpn || k == CleanupVpn || k == RepairRevoke }

  predicate Provisions(k: Kind) { k == ProvisionSubscription || k == RepairProvision }

  /** The counters say exactly what happened to the items of the run. */
  ghost predicate CountersExact(h: seq<Handled>, r: Counters) {
    && r.processed == |h|
    && r.expired == Count(h, (x: Handled) => !Submits(x.anomaly) && x.outcome == Done)
    && r.toRevoke == Count(h, (x: Handled) => Revokes(x.anomaly.kind) && x.outcome == Done)
    && r.toProvision == Count(h, (x: Handled) => Provisions(x.anomaly.kind) && x.outcome == Done)
    && r.cleanup == Count(h, (x: Handled) => x.anomaly.kind == CleanupVpn && x.outcome == Done)
    && r.provisionRepairs == Count(h, (x: Handled) => x.anomaly.kind == RepairProvision && x.outcome == Done)
    && r.revokeRepairs == Count(h, (x: Handled) => x.anomaly.kind == RepairRevoke && x.outcome == Done)
    && r.enqueueFailures == Count(h, (x: Handled) => Submits(x.anomaly) && x.outcome == NotDone)
  }

  /** `_record_enqueued` and the branches around it. */
  method HandleAnomaly(h: seq<Handled>, r: Counters, a: Anomaly, outcome: Outcome) returns (r': Counters)
    requires CountersExact(h, r)
    ensures CountersExact(h + [Handled(a, outcome)], r')
  {
    var next := h + [Handled(a, outcome)];
    assert next[..|h|] == h;
    r' := r.(processed := r.processed + 1);
    if a.kind == ExpireSubscription {
      if outcome == Done { r' := r'.(expired := r'.expired + 1); }
      return;
    }
    if outcome == NotDone {
      r' := r'.(enqueueFailures := r'.enqueueFailures + 1);
      return;
    }
    if a.kind == RevokeVpn || a.kind == CleanupVpn || a.kind == RepairRevoke { r' := r'.(toRevoke := r'.toRevoke + 1); }
    if a.kind == ProvisionSubscription || a.kind == RepairProvision { r' := r'.(toProvision := r'.toProvision + 1); }
    if a.kind == CleanupVpn { r' := r'.(cleanup := r'.cleanup + 1); }
    else if a.kind == RepairProvision { r' := r'.(provisionRepairs := r'.provisionRepairs + 1); }
    else if a.kind == RepairRevoke { r' := r'.(revokeRepairs := r'.revokeRepairs + 1); }
  }

  method HandlePage(h: seq<Handled>, r: Counters, page: seq<Anomaly>, outcome: Anomaly -> Outcome)
    returns (h': seq<Handled>, r': Counters)
    requires CountersExact(h, r)
    ensures CountersExact(h', r') && Anomalies(h') == Anomalies(h) + page
  {
    h', r' := h, r;
    for i := 0 to |page|
      invariant CountersExact(h', r') && Anomalies(h') == Anomalies(h) + page[..i]
    {
      r' := HandleAnomaly(h', r', page[i], outcome(page[i]));
      h' := h' + [Handled(page[i], outcome(page[i]))];
    }
  }

  /** What a run sees, batch by batch. */
  datatype Environment = Environment(listings: seq<seq<Anomaly>>, renewed: seq<bool>, outcome: Anomaly -> Outcome)

  ghost predicate Sound(env: Environment, batches: nat) {
    && |env.listings| == |env.renewed| == batches
    && forall n :: 0 <= n < batches ==> Ordered(env.listings[n])
  }

  /** Every batch reads the same listing, and the lease is never lost. */
  ghost predicate Unchanging(env: Environment, l: seq<Anomaly>) {
    && (forall n :: 0 <= n < |env.listings| ==> env.listings[n] == l)
    && (forall n :: 0 <= n < |env.renewed| ==> env.renewed[n])
  }

  function CursorAfter(s: seq<Anomaly>): Cursor {
    if s == [] then START else CursorOf(s[|s| - 1])
  }

  lemma PageKeepsOrder(s: seq<Anomaly>, l: seq<Anomaly>, limit: nat)
    requires Ordered(s) && Ordered(l)
    ensures Ordered(s + Page(l, CursorAfter(s), limit))
  {
    var page := Page(l, CursorAfter(s), limit);
    AfterIsOrdered(l, CursorAfter(s));
    var t := s + page;
    forall i, j | 0 <= i < j < |t| ensures Follows(t[j], CursorOf(t[i])) {
      if i < |s| <= j {
        assert page[j - |s|] in After(l, CursorAfter(s));
        assert i < |s| - 1 ==> Follows(s[|s| - 1], CursorOf(s[i]));
      }
    }
  }

  lemma NextPage(l: seq<Anomaly>, k: nat, limit: nat)
    requires Ordered(l) && k <= |l|
    ensures Page(l, CursorAfter(l[..k]), limit) == l[k..Min(k + limit, |l|)]
  {
    AfterPosition(l, k, CursorAfter(l[..k]));
  }

  /** Everything a run handles from batch `n` on, when it has handled `s` before. */
  function Visit(env: Environment, s: seq<Anomaly>, n: nat, size: nat): seq<Anomaly>
    requires |env.renewed| == |env.listings|
    decreases |env.listings| - n
  {
    if n >= |env.listings| then s
    else
      var page := Page(env.listings[n], CursorAfter(s), size);
      if page == [] then s
      else if !env.renewed[n] || |page| < size then s + page
      else Visit(env, s + page, n + 1, size)
  }

  /** However the store changes between batches, nothing is handled twice, and everything handled was listed. */
  lemma {:induction false} NothingTwice(env: Environment, s: seq<Anomaly>, n: nat, size: nat)
    requires Sound(env, |env.listings|) && Ordered(s)
    ensures Ordered(Visit(env, s, n, size))
    ensures forall a :: a in Visit(env, s, n, size) && a !in s ==>
      exists m :: n <= m < |env.listings| && a in env.listings[m]
    decreases |env.listings| - n
  {
    if n < |env.listings| {
      var page := Page(env.listings[n], CursorAfter(s), size);
      PageKeepsOrder(s, env.listings[n], size);
      assert forall a :: a in page ==> a in env.listings[n];
      NothingTwice(env, s + page, n + 1, size);
    }
  }

  /** How many items `m` batches can hold. */
  function Reach(m: nat, size: nat): nat {
    if m == 0 then 0 else size + Reach(m - 1, size)
  }

  lemma {:induction false} ReachIsProduct(m: nat, size: nat)
    ensures Reach(m, size) == m * size
  {
    if m > 0 {
      ReachIsProduct(m - 1, size);
      assert m * size == (m - 1) * size + size;
    }
  }

  lemma VisitEnd(env: Environment, s: seq<Anomaly>, n: nat, size: nat)
    requires |env.renewed| == |env.listings| == n
    ensures Visit(env, s, n, size) == s
  {
  }

  /** One batch on an unchanging listing moves on by one page, and the run ends only at the end of the listing. */
  lemma VisitPage(env: Environment, l: seq<Anomaly>, k: nat, n: nat, size: nat)
    requires Sound(env, |env.listings|) && Unchanging(env, l) && Ordered(l) && k <= |l| && size > 0 && n < |env.listings|
    ensures var next := Min(k + size, |l|);
      Visit(env, l[..k], n, size) == if k + size <= |l| then Visit(env, l[..next], n + 1, size) else l
  {
    var next := Min(k + size, |l|);
    NextPage(l, k, size);
    assert env.listings[n] == l && env.renewed[n];
    assert l[..k] + l[k..next] == l[..next] && l[..|l|] == l;
    hide Page, Ordered, Unchanging, Sound, CursorAfter;
  }

  /** Paging refines the full listing: from item `k`, the batches left handle as many further items as they can hold. */
  lemma {:induction false} PagingRefinesListing(env: Environment, l: seq<Anomaly>, k: nat, n: nat, size: nat)
    requires |env.renewed| == |env.listings|
    requires Sound(env, |env.listings|) && Unchanging(env, l) && Ordered(l) && k <= |l| && size > 0 && n <= |env.listings|
    ensures Visit(env, l[..k], n, size) == l[..Min(|l|, k + Reach(|env.listings| - n, size))]
    decreases |env.listings| - n
  {
    hide Visit, Ordered, Unchanging, Sound;
    if n == |env.listings| {
      VisitEnd(env, l[..k], n, size);
    } else {
      VisitPage(env, l, k, n, size);
      assert Reach(|env.listings| - n, size) == size + Reach(|env.listings| - n - 1, size);
      if k + size <= |l| {
        PagingRefinesListing(env, l, k + size, n + 1, size);
      } else {
        assert l[..|l|] == l;
      }
    }
  }

  /** On an unchanging listing a run handles exactly the first items, up to the number of batches times the batch size. */
  lemma RunHandlesFirstItems(env: Environment, l: seq<Anomaly>, size: nat)
    requires |env.renewed| == |env.listings|
    requires Sound(env, |env.listings|) && Unchanging(env, l) && Ordered(l) && size > 0
    ensures Visit(env, [], 0, size) == l[..Min(|l|, |env.listings| * size)]
  {
    hide Visit, Ordered, Unchanging, Sound;
    PagingRefinesListing(env, l, 0, 0, size);
    ReachIsProduct(|env.listings|, size);
    assert l[..0] == [];
  }

  /** How many batches of a run are handled, from batch `n` on. */
  function Batches(env: Environment, s: seq<Anomaly>, n: nat, size: nat): nat
    requires |env.renewed| == |env.listings|
    decreases |env.listings| - n
  {
    if n >= |env.listings| then n
    else
      var page := Page(env.listings[n], CursorAfter(s), size);
      if page == [] then n
      else if !env.renewed[n] || |page| < size then n + 1
      else Batches(env, s + page, n + 1, size)
  }

  /** A run stops at the first renewal that fails: every batch before its last was renewed. */
  lemma {:induction false} StopsAtLoss(env: Environment, s: seq<Anomaly>, n: nat, size: nat)
    requires |env.renewed| == |env.listings|
    ensures forall m :: n <= m < Batches(env, s, n, size) - 1 && m < |env.renewed| ==> env.renewed[m]
    decreases |env.listings| - n
  {
    if n < |env.listings| {
      var page := Page(env.listings[n], CursorAfter(s), size);
      StopsAtLoss(env, s + page, n + 1, size);
    }
  }

  lemma EmptyRun()
    ensures CountersExact([], ZERO) && Anomalies([]) == [] && CursorAfter([]) == START
  {
  }

  /** One batch of the run: it ends here, or it goes on from the handled page. */
  lemma VisitStep(env: Environment, s: seq<Anomaly>, n: nat, size: nat)
    requires |env.renewed| == |env.listings| && n < |env.listings|
    ensures var page := Page(env.listings[n], CursorAfter(s), size);
      if page == [] then Visit(env, s, n, size) == s && Batches(env, s, n, size) == n
      else if !env.renewed[n] || |page| < size then Visit(env, s, n, size) == s + page && Batches(env, s, n, size) == n + 1
      else
        && |page| == size
        && Visit(env, s, n, size) == Visit(env, s + page, n + 1, size)
        && Batches(env, s, n, size) == Batches(env, s + page, n + 1, size)
  {
    assert |Page(env.listings[n], CursorAfter(s), size)| <= size;
    hide Page;
  }

  lemma VisitDone(env: Environment, s: seq<Anomaly>, n: nat, size: nat)
    requires |env.renewed| == |env.listings| <= n
    ensures Visit(env, s, n, size) == s && Batches(env, s, n, size) == n
  {
  }

  lemma CursorMoves(s: seq<Anomaly>, page: seq<Anomaly>)
    requires page != []
    ensures CursorAfter(s + page) == CursorOf(page[|page| - 1])
  {
  }

  // ---------------------------------------------------------------- what the listing contains

  /** The six queries, as rows of the listing. */
  ghost predicate IsAnomaly(w: World, a: Anomaly, now: int) {
    match a.kind
    case ExpireSubscription => Convergence.ExpireSubscription(w, a.id, now)
    case RevokeVpn => 0 <= a.id < |w.configs| && Convergence.RevokeVpn(w, a.id, now)
    case CleanupVpn => 0 <= a.id < |w.configs| && Convergence.CleanupVpn(w, a.id, now)
    case ProvisionSubscription => Convergence.ProvisionSubscription(w, a.id, now)
    case RepairProvision =>
      exists i :: 0 <= i < |w.configs| && w.configs[i].subscription == a.id && Convergence.RepairProvision(w, i, now)
    case RepairRevoke => 0 <= a.id < |w.configs| && Convergence.RepairRevoke(w, a.id)
  }

  ghost predicate Lists(l: seq<Anomaly>, w: World, now: int) {
    Ordered(l) && forall a :: a in l <==> IsAnomaly(w, a, now)
  }

  /** A listing is empty exactly when the store has no anomaly. */
  lemma EmptyListing(l: seq<Anomaly>, w: World, now: int)
    requires Lists(l, w, now)
    ensures l == [] <==> Convergence.NoAnomaly(w, now)
  {
    if l == [] {
      forall sub | sub in w.subs
        ensures !Convergence.ExpireSubscription(w, sub, now) && !Convergence.ProvisionSubscription(w, sub, now)
      {
        assert !IsAnomaly(w, Anomaly(ExpireSubscription, sub), now);
        assert !IsAnomaly(w, Anomaly(ProvisionSubscription, sub), now);
      }
      forall i | 0 <= i < |w.configs| ensures !Convergence.ConfigAnomaly(w, i, now) {
        assert !IsAnomaly(w, Anomaly(RevokeVpn, i), now) && !IsAnomaly(w, Anomaly(CleanupVpn, i), now);
        assert !IsAnomaly(w, Anomaly(RepairProvision, w.configs[i].subscription), now);
        assert !IsAnomaly(w, Anomaly(RepairRevoke, i), now);
      }
    } else {
      assert IsAnomaly(w, l[0], now);
      if Convergence.NoAnomaly(w, now) { NoAnomalyNoRow(w, l[0], now); }
    }
  }

  lemma NoAnomalyNoRow(w: World, a: Anomaly, now: int)
    requires Convergence.NoAnomaly(w, now)
    ensures !IsAnomaly(w, a, now)
  {
    if (a.kind.ExpireSubscription? || a.kind.ProvisionSubscription?) && a.id in w.subs {
      assert !Convergence.ExpireSubscription(w, a.id, now) && !Convergence.ProvisionSubscription(w, a.id, now);
    } else if 0 <= a.id < |w.configs| {
      assert !Convergence.ConfigAnomaly(w, a.id, now);
    }
    forall i | 0 <= i < |w.configs| ensures !Convergence.RepairProvision(w, i, now) {
      assert !Convergence.ConfigAnomaly(w, i, now);
    }
  }

  /** A run whose batches can hold an unchanging store's anomalies handles each of them once and nothing else. */
  lemma RunCoversStore(env: Environment, w: World, now: int, size: nat, l: seq<Anomaly>)
    requires Sound(env, |env.listings|) && size > 0 && Unchanging(env, l) && Lists(l, w, now)
    requires |l| <= |env.listings| * size
    ensures forall a :: a in Visit(env, [], 0, size) <==> IsAnomaly(w, a, now)
    ensures |Visit(env, [], 0, size)| == |l|
  {
    RunHandlesFirstItems(env, l, size);
    assert l[..|l|] == l;
  }

  // ---------------------------------------------------------------- the lease

  datatype LeaseRow = LeaseRow(owner: int, expiresAt: int)

  predicate Free(row: Option<LeaseRow>, now: int) {
    row.None? || row.value.expiresAt <= now
  }

  function Acquired(row: Option<LeaseRow>, token: int, now: int, seconds: int): Option<LeaseRow> {
    if Free(row, now) then Some(LeaseRow(token, now + seconds)) else row
  }

  predicate Holds(row: Option<LeaseRow>, token: int) {
    row.Some? && row.value.owner == token
  }

  function Renewed(row: Option<LeaseRow>, token: int, now: int, seconds: int): Option<LeaseRow> {
    if Holds(row, token) then Some(LeaseRow(token, now + seconds)) else row
  }

  function Released(row: Option<LeaseRow>, token: int): Option<LeaseRow> {
    if Holds(row, token) then None else row
  }

  class MaintenanceLease {
    var row: Option<LeaseRow>

    constructor ()
      ensures row.None?
    {
      row := None;
    }

    method Acquire(token: int, now: int, seconds: int) returns (ok: bool)
      modifies this
      ensures row == Acquired(old(row), token, now, seconds) && ok == Free(old(row), now)
    {
      ok := row.None? || row.value.expiresAt <= now;
      if ok { row := Some(LeaseRow(token, now + seconds)); }
    }

    method Renew(token: int, now: int, seconds: int) returns (ok: bool)
      modifies this
      ensures row == Renewed(old(row), token, now, seconds) && ok == Holds(old(row), token)
    {
      ok := row.Some? && row.value.owner == token;
      if ok { row := Some(LeaseRow(token, now + seconds)); }
    }

    method Release(token: int) returns (ok: bool)
      modifies this
      ensures row == Released(old(row), token) && ok == Holds(old(row), token)
    {
      ok := row.Some? && row.value.owner == token;
      if ok { row := None; }
    }

    /** The calls of other runs, between two calls of this one. */
    method Meanwhile(calls: seq<LeaseCall>, seconds: int)
      modifies this
      ensures row == LeaseAt(old(row), calls, |calls|, seconds)
    {
      for n := 0 to |calls|
        invariant row == LeaseAt(old(row), calls, n, seconds)
      {
        match calls[n]
        case AcquireCall(token, now) => var _ := Acquire(token, now, seconds);
        case RenewCall(token, now) => var _ := Renew(token, now, seconds);
        case ReleaseCall(token) => var _ := Release(token);
      }
    }
  }

  // ---------------------------------------------------------------- lease calls of several runs

  datatype LeaseCall =
    | AcquireCall(token: int, now: int)
    | RenewCall(token: int, now: int)
    | ReleaseCall(token: int)

  function Called(row: Option<LeaseRow>, call: LeaseCall, seconds: int): Option<LeaseRow> {
    match call
    case AcquireCall(token, now) => Acquired(row, token, now, seconds)
    case RenewCall(token, now) => Renewed(row, token, now, seconds)
    case ReleaseCall(token) => Released(row, token)
  }

  /** The row after the first `n` calls. */
  function LeaseAt(row: Option<LeaseRow>, calls: seq<LeaseCall>, n: nat, seconds: int): Option<LeaseRow>
    requires n <= |calls|
  {
    if n == 0 then row else Called(LeaseAt(row, calls, n - 1, seconds), calls[n - 1], seconds)
  }

  /** Call `k` takes the lease. */
  ghost predicate Takes(row: Option<LeaseRow>, calls: seq<LeaseCall>, k: nat, seconds: int) {
    k < |calls| && calls[k].AcquireCall? && Free(LeaseAt(row, calls, k, seconds), calls[k].now)
  }

  /** Every run draws its own token, so once another run has the lease the first can no longer renew or release it. */
  lemma {:induction false} OvertakenRunIsFenced(calls: seq<LeaseCall>, p: nat, q: nat, n: nat, seconds: int)
    requires forall i, j :: 0 <= i < j < |calls| && calls[i].AcquireCall? && calls[j].AcquireCall? ==> calls[i].token != calls[j].token
    requires p < q < n <= |calls| && calls[p].AcquireCall? && Takes(None, calls, q, seconds)
    ensures !Holds(LeaseAt(None, calls, n, seconds), calls[p].token)
    decreases n
  {
    if q + 1 < n { OvertakenRunIsFenced(calls, p, q, n - 1, seconds); }
  }

  /** Calls of runs other than `token`'s. */
  predicate ByOthers(calls: seq<LeaseCall>, token: int) {
    forall k :: 0 <= k < |calls| ==> calls[k].token != token
  }

  /** Others leave a held lease exactly as it is, or take it from its holder after it has expired. */
  lemma {:induction false} LostExactlyWhenTaken(row: Option<LeaseRow>, calls: seq<LeaseCall>, n: nat, token: int, seconds: int)
    requires Holds(row, token) && ByOthers(calls, token) && n <= |calls|
    ensures Holds(LeaseAt(row, calls, n, seconds), token) <==> LeaseAt(row, calls, n, seconds) == row
    ensures Holds(LeaseAt(row, calls, n, seconds), token) <==>
      forall k :: 0 <= k < n && calls[k].AcquireCall? ==> calls[k].now < row.value.expiresAt
    decreases n
  {
    if n > 0 {
      LostExactlyWhenTaken(row, calls, n - 1, token, seconds);
    }
  }

  // ---------------------------------------------------------------- a whole run

  /**
   What happens around a run: the listing each batch reads, the calls of other runs before each
   renewal and, last, before the release, and the clock readings of the renewals.
   */
  datatype Surroundings = Surroundings(
    listings: seq<seq<Anomaly>>, rivals: seq<seq<LeaseCall>>, clocks: seq<int>, outcome: Anomaly -> Outcome)

  ghost predicate Fits(around: Surroundings, token: int) {
    && |around.rivals| == |around.listings| + 1 && |around.clocks| == |around.listings|
    && forall n :: 0 <= n < |around.rivals| ==> ByOthers(around.rivals[n], token)
  }

  /** One run of `ReconcileSubscriptions`: its token and the row it acquired. */
  datatype Lease = Lease(token: int, seconds: int, start: Option<LeaseRow>)

  /** The row after the first `n` renewals, and after what the others then do. */
  function RowAfter(around: Surroundings, l: Lease, n: nat): Option<LeaseRow>
    requires n <= |around.clocks| < |around.rivals|
    decreases n, 0
  {
    if n == 0 then l.start else Renewed(RowBefore(around, l, n - 1), l.token, around.clocks[n - 1], l.seconds)
  }

  function RowBefore(around: Surroundings, l: Lease, n: nat): Option<LeaseRow>
    requires n <= |around.clocks| < |around.rivals|
    decreases n, 1
  {
    LeaseAt(RowAfter(around, l, n), around.rivals[n], |around.rivals[n]|, l.seconds)
  }

  /** What the run sees: a renewal succeeds if and only if the run still holds the row. */
  function Seen(around: Surroundings, l: Lease): (env: Environment)
    requires |around.listings| <= |around.clocks| < |around.rivals|
    ensures env.listings == around.listings && env.outcome == around.outcome && |env.renewed| == |env.listings|
    ensures forall n :: 0 <= n < |env.listings| ==> (env.renewed[n] <==> Holds(RowBefore(around, l, n), l.token))
  {
    Environment(around.listings,
                seq(|around.listings|, n requires 0 <= n < |around.listings| => Holds(RowBefore(around, l, n), l.token)),
                around.outcome)
  }

  /** When the lease that was renewed `n` times expires. */
  function ExpiryAfter(around: Surroundings, l: Lease, n: nat): int
    requires n <= |around.clocks| && l.start.Some?
  {
    if n == 0 then l.start.value.expiresAt else around.clocks[n - 1] + l.seconds
  }

  lemma {:induction false} HeldWhileRenewed(around: Surroundings, l: Lease, n: nat)
    requires Fits(around, l.token) && Holds(l.start, l.token) && n <= |around.listings|
    requires forall m :: 0 <= m < n ==> Seen(around, l).renewed[m]
    ensures RowAfter(around, l, n) == Some(LeaseRow(l.token, ExpiryAfter(around, l, n)))
  {
    if n > 0 { assert Seen(around, l).renewed[n - 1]; }
  }

  /**
   After `n` successful renewals, the run still holds the lease if and only if no other run has asked
   for it since at a clock reading at or after its expiry.
   */
  lemma HeldExactlyWhen(around: Surroundings, l: Lease, n: nat)
    requires Fits(around, l.token) && Holds(l.start, l.token) && n <= |around.listings|
    requires forall m :: 0 <= m < n ==> Seen(around, l).renewed[m]
    ensures Holds(RowBefore(around, l, n), l.token) <==>
      forall k :: 0 <= k < |around.rivals[n]| && around.rivals[n][k].AcquireCall? ==>
        around.rivals[n][k].now < ExpiryAfter(around, l, n)
  {
    HeldWhileRenewed(around, l, n);
    hide Seen;
    LostExactlyWhenTaken(RowAfter(around, l, n), around.rivals[n], |around.rivals[n]|, l.token, l.seconds);
  }

  lemma RowAtStart(around: Surroundings, l: Lease)
    requires |around.clocks| < |around.rivals|
    ensures RowAfter(around, l, 0) == l.start
  {
  }

  /** The renewal after batch `n`, whatever other runs did before it. */
  method RenewAfterBatch(lease: MaintenanceLease, around: Surroundings, l: Lease, n: nat) returns (ok: bool)
    requires n < |around.clocks| < |around.rivals| && lease.row == RowAfter(around, l, n)
    modifies lease
    ensures lease.row == RowAfter(around, l, n + 1) && ok == Holds(RowBefore(around, l, n), l.token)
  {
    hide LeaseAt, Renewed;
    lease.Meanwhile(around.rivals[n], l.seconds);
    ok := lease.Renew(l.token, around.clocks[n], l.seconds);
  }

  /** The batches of a run, after the items of `h0` were handled. */
  method RunBatches(
    lease: MaintenanceLease, around: Surroundings, l: Lease, size: nat, h0: seq<Handled>, r0: Counters, cursor0: Cursor)
    returns (h: seq<Handled>, r: Counters, batches: nat, leaseLost: bool)
    requires |around.listings| == |around.clocks| == |around.rivals| - 1 && size > 0 && lease.row == RowAfter(around, l, 0)
    requires CountersExact(h0, r0) && cursor0 == CursorAfter(Anomalies(h0))
    modifies lease
    ensures var env := Seen(around, l);
      && Anomalies(h) == Visit(env, Anomalies(h0), 0, size) && batches == Batches(env, Anomalies(h0), 0, size)
      && batches <= |env.listings| && (leaseLost <==> batches > 0 && !env.renewed[batches - 1])
      && lease.row == RowAfter(around, l, batches)
    ensures CountersExact(h, r)
  {
    hide CountersExact, Page, Visit, Batches, CursorAfter, Seen, RowAfter, RowBefore;
    h, r, batches, leaseLost := h0, r0, 0, false;
    ghost var env := Seen(around, l);
    ghost var seen := Anomalies(h0);
    var cursor := cursor0;
    while batches < |around.listings|
      invariant batches <= |around.listings| && CountersExact(h, r) && Anomalies(h) == seen && cursor == CursorAfter(seen)
      invariant !leaseLost && (batches > 0 ==> env.renewed[batches - 1]) && lease.row == RowAfter(around, l, batches)
      invariant Visit(env, seen, batches, size) == Visit(env, Anomalies(h0), 0, size)
      invariant Batches(env, seen, batches, size) == Batches(env, Anomalies(h0), 0, size)
    {
      var page := Page(around.listings[batches], cursor, size);
      VisitStep(env, seen, batches, size);
      if page == [] { return; }
      h, r := HandlePage(h, r, page, around.outcome);
      CursorMoves(seen, page);
      seen := seen + page;
      var last := page[|page| - 1];
      cursor := Cursor(KindOrder(last.kind), last.id);
      var renewed := RenewAfterBatch(lease, around, l, batches);
      batches := batches + 1;
      if !renewed {
        leaseLost := true;
        return;
      }
      if |page| < size { return; }
    }
    VisitDone(env, seen, batches, size);
  }

  /** The batch loop of `ReconcileSubscriptions.execute`, under an acquired lease. */
  method Reconcile(lease: MaintenanceLease, around: Surroundings, l: Lease, batchSize: nat)
    returns (h: seq<Handled>, r: Counters, batches: nat, leaseLost: bool)
    requires |around.listings| == |around.clocks| == |around.rivals| - 1 && batchSize > 0 && lease.row == l.start
    modifies lease
    ensures var env := Seen(around, l);
      && Anomalies(h) == Visit(env, [], 0, batchSize) && batches == Batches(env, [], 0, batchSize)
      && batches <= |env.listings| && (leaseLost <==> batches > 0 && !env.renewed[batches - 1])
      && lease.row == RowAfter(around, l, batches)
    ensures CountersExact(h, r)
  {
    hide *;
    EmptyRun();
    RowAtStart(around, l);
    h, r, batches, leaseLost := RunBatches(lease, around, l, batchSize, [], ZERO, START);
  }

  /** How a run reports itself. */
  datatype RunStatus = Completed | LeaseLost | AlreadyRunning

  /** `ReconcileSubscriptions.execute`: acquire, run the batches, release. */
  method Execute(lease: MaintenanceLease, token: int, now: int, seconds: int, around: Surroundings, batchSize: nat)
    returns (status: RunStatus, h: seq<Handled>, r: Counters, batches: nat)
    requires Fits(around, token) && batchSize > 0
    modifies lease
    ensures status == AlreadyRunning <==> !Free(old(lease.row), now)
    ensures status == AlreadyRunning ==> h == [] && lease.row == old(lease.row)
    ensures status != AlreadyRunning ==>
      var l := Lease(token, seconds, Some(LeaseRow(token, now + seconds)));
      var env := Seen(around, l);
      && Anomalies(h) == Visit(env, [], 0, batchSize) && CountersExact(h, r)
      && batches == Batches(env, [], 0, batchSize) && batches <= |env.listings|
      && (status == LeaseLost <==> batches > 0 && !Holds(RowBefore(around, l, batches - 1), token))
      && lease.row == Released(RowBefore(around, l, batches), token)
  {
    h, r, batches := [], ZERO, 0;
    var acquired := lease.Acquire(token, now, seconds);
    if !acquired { return AlreadyRunning, h, r, batches; }
    var lost;
    h, r, batches, lost := Reconcile(lease, around, Lease(token, seconds, lease.row), batchSize);
    lease.Meanwhile(around.rivals[batches], seconds);
    var _ := lease.Release(token);
    status := if lost then LeaseLost else Completed;
  }
}
