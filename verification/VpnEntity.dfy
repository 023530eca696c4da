/**
 The VPN configuration entity: its row, its state transitions as functions on the row,
 and the mutable entity whose methods the use cases call.

 A transition that the entity refuses (InvalidStateTransition) is one whose `Can...`
 predicate is false; the method then reports `ok == false` and changes nothing.
 */
module VpnEntity {
  import opened Common

  datatype VpnStatus =
    | Provisioning | Active | Failed | Revoking | RevokeFailed | Revoked | Expired | Disabled

  datatype DesiredState = WantActive | WantRevoked

  datatype VpnRow = VpnRow(
    status: VpnStatus,
    desired: DesiredState,
    generation: int,
    remoteRef: Option<string>,
    revokedAt: Option<int>)

  /** The row every provisioning inserts. */
  const FRESH_VPN := VpnRow(Provisioning, WantActive, 1, None, None)

  predicate IsTerminal(status: VpnStatus) {
    status == Revoked || status == Expired || status == Disabled
  }

  /** `remote_client_ref or self.remote_client_ref`: an absent or blank reference keeps the old one. */
  function KeepRef(ref: Option<string>, old_: Option<string>): Option<string> {
    if ref.Some? && ref.value != "" then ref else old_
  }

  predicate CanActivate(v: VpnRow) { v.status == Provisioning && v.desired == WantActive }

  function Activated(v: VpnRow, ref: Option<string>): VpnRow {
    v.(status := Active, remoteRef := KeepRef(ref, v.remoteRef), revokedAt := None)
  }

  function RevokeBegun(v: VpnRow): VpnRow {
    v.(desired := WantRevoked, generation := v.generation + 1, status := Revoking)
  }

  /** Shared by `retry_revoke`, `cancel_provisioning_for_revoke` and `request_cleanup_from_failed`. */
  function RevokeRestarted(v: VpnRow): VpnRow {
    RevokeBegun(v).(revokedAt := None)
  }

  predicate CanRevoke(v: VpnRow) { v.status == Revoking && v.desired == WantRevoked }

  function RevokedNow(v: VpnRow, now: int): VpnRow {
    v.(status := Revoked, revokedAt := Some(now))
  }

  class VpnConfiguration {
    var status: VpnStatus
    var desired: DesiredState
    var generation: int
    var remoteRef: Option<string>
    var revokedAt: Option<int>

    function Row(): VpnRow
      reads this
    {
      VpnRow(status, desired, generation, remoteRef, revokedAt)
    }

    constructor (row: VpnRow)
      ensures Row() == row
    {
      status := row.status;
      desired := row.desired;
      generation := row.generation;
      remoteRef := row.remoteRef;
      revokedAt := row.revokedAt;
    }

    method Activate(ref: Option<string>) returns (ok: bool)
      modifies this
      ensures ok == CanActivate(old(Row()))
      ensures Row() == if ok then Activated(old(Row()), ref) else old(Row())
    {
      if status != Provisioning || desired != WantActive { return false; }
      status := Active;
      if ref.Some? && ref.value != "" { remoteRef := ref; }
      revokedAt := None;
      ok := true;
    }

    method BeginRevoke() returns (ok: bool)
      modifies this
      ensures ok == old(status == Active)
      ensures Row() == if ok then RevokeBegun(old(Row())) else old(Row())
    {
      if status != Active { return false; }
      desired := WantRevoked;
      generation := generation + 1;
      status := Revoking;
      ok := true;
    }

    /** What the three restarts of a revoke share. */
    method Restart()
      modifies this
      ensures Row() == RevokeRestarted(old(Row()))
    {
      desired := WantRevoked;
      generation := generation + 1;
      status := Revoking;
      revokedAt := None;
    }

    method RetryRevoke() returns (ok: bool)
      modifies this
      ensures ok == old(status == RevokeFailed)
      ensures Row() == if ok then RevokeRestarted(old(Row())) else old(Row())
    {
      if status != RevokeFailed { return false; }
      Restart();
      ok := true;
    }

    method CancelProvisioningForRevoke() returns (ok: bool)
      modifies this
      ensures ok == old(status == Provisioning)
      ensures Row() == if ok then RevokeRestarted(old(Row())) else old(Row())
    {
      if status != Provisioning { return false; }
      Restart();
      ok := true;
    }

    method RequestCleanupFromFailed() returns (ok: bool)
      modifies this
      ensures ok == old(status == Failed)
      ensures Row() == if ok then RevokeRestarted(old(Row())) else old(Row())
    {
      if status != Failed { return false; }
      Restart();
      ok := true;
    }

    method Revoke(now: int) returns (ok: bool)
      modifies this
      ensures ok == CanRevoke(old(Row()))
      ensures Row() == if ok then RevokedNow(old(Row()), now) else old(Row())
    {
      if status != Revoking || desired != WantRevoked { return false; }
      status := Revoked;
      revokedAt := Some(now);
      ok := true;
    }

    method FailProvisioning() returns (ok: bool)
      modifies this
      ensures ok == old(status == Provisioning)
      ensures Row() == if ok then old(Row()).(status := Failed) else old(Row())
    {
      if status != Provisioning { return false; }
      status := Failed;
      ok := true;
    }

    method FailRevoke() returns (ok: bool)
      modifies this
      ensures ok == old(status == Revoking)
      ensures Row() == if ok then old(Row()).(status := RevokeFailed) else old(Row())
    {
      if status != Revoking { return false; }
      status := RevokeFailed;
      ok := true;
    }
  }
}
