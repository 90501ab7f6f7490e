/**
 * Governance (`GovernanceService`): an append-only audit log that can be read
 * back per target, and the two drive checks: its version and whether it may be edited.
 */
module Governance {
  import opened Values
  import opened Workflow

  datatype AuditLog = AuditLog(
    id: string,
    timestamp: string,
    actor: string,
    action: string,
    targetId: string,
    metadata: Val)

  /** The logs that concern `targetId`, in insertion order */
  function LogsFor(logs: seq<AuditLog>, targetId: string): (r: seq<AuditLog>)
    ensures forall i :: 0 <= i < |r| ==> r[i] in logs && r[i].targetId == targetId
    ensures forall i :: 0 <= i < |logs| && logs[i].targetId == targetId ==> logs[i] in r
  {
    Filter(logs, (l: AuditLog) => l.targetId == targetId)
  }

  /** A new log joins the end of its own target's trail and no other */
  lemma LogsForAppend(logs: seq<AuditLog>, log: AuditLog, targetId: string)
    ensures LogsFor(logs + [log], targetId) == LogsFor(logs, targetId) + (if log.targetId == targetId then [log] else [])
  {
    var p := (l: AuditLog) => l.targetId == targetId;
    FilterAppend(logs, [log], p);
    FilterSingleton(log, p);
  }

  class GovernanceService {
    var logs: seq<AuditLog>

    constructor ()
      ensures logs == []
    {
      logs := [];
    }

    /**
     * `logAction`, with `now` standing for `Date.now()` and `timestamp` for
     * the ISO rendering of the time of the call: one entry is appended.
     */
    method LogAction(actor: string, action: string, targetId: string, metadata: Val, now: nat, timestamp: string)
      modifies this
      ensures logs == old(logs) + [AuditLog("LOG_" + NatText(now), timestamp, actor, action, targetId, metadata)]
      ensures forall t ::
        GetAuditLogs(Some(t)) == old(GetAuditLogs(Some(t))) + (if t == "" || t == targetId then [logs[|logs| - 1]] else [])
    {
      var log := AuditLog("LOG_" + NatText(now), timestamp, actor, action, targetId, metadata);
      forall t
        ensures LogsFor(logs + [log], t) == LogsFor(logs, t) + (if log.targetId == t then [log] else [])
      {
        LogsForAppend(logs, log, t);
      }
      logs := logs + [log];
    }

    /** `getAuditLogs`: every log when no (or an empty) target is given, else that target's logs */
    function GetAuditLogs(targetId: Option<string>): (r: seq<AuditLog>)
      reads this
      ensures targetId.None? || targetId.value == "" ==> r == logs
      ensures targetId.Some? && targetId.value != "" ==> r == LogsFor(logs, targetId.value)
    {
      if targetId.Some? && targetId.value != "" then LogsFor(logs, targetId.value) else logs
    }
  }

  /** `getBindingVersion`: the drive's current version */
  function GetBindingVersion(drive: PlacementDrive): int
  {
    drive.version
  }

  /** `canModify`: a drive may be edited exactly while it is not frozen */
  predicate CanModify(drive: PlacementDrive)
  {
    !drive.isFrozen
  }

  /**
   * Freezing a drive forbids edits, and unfreezing allows them; the drive's
   * version is untouched by either
   */
  lemma FreezeControlsModification(drive: PlacementDrive)
    ensures !CanModify(drive.(isFrozen := true))
    ensures CanModify(drive.(isFrozen := false))
    ensures GetBindingVersion(drive.(isFrozen := true)) == GetBindingVersion(drive)
    ensures GetBindingVersion(drive.(isFrozen := false)) == GetBindingVersion(drive)
  {
  }
}
