/** The remediation engine: executing (or simulating) a control's remediation for one
    stored result, and rolling an executed remediation back
    (backend/app/services/remediation_engine.py). */
module Remediation {
  import opened Wrappers
  import opened Json
  import opened Base
  import opened AwsControls
  import opened Records
  import opened Store

  /** The client a control is built with: an AWS client for an AWS account, `None` for
      any other provider. */
  datatype Client = AwsClient | NoClient

  function ClientFor(account: CloudAccount): (c: Client)
    ensures c == AwsClient <==> account.provider == "aws"
  {
    if account.provider == "aws" then AwsClient else NoClient
  }

  /** `control.remediate(finding, dry_run)` and `control.rollback(rollback_data)` for the
      control a result names, built with the given client; the cloud calls they make are
      the caller's to supply. */
  type Remediator = (ControlKind, Client, FindingView, bool) -> RemediationResult
  type RollbackRunner = (ControlKind, Client, Dict) -> RemediationResult

  /** What `remediate_finding` and `rollback_remediation` return, or why they raise. */
  datatype Reply =
    | Remediated(findingId: int, controlId: string, dryRun: bool, resourceId: Option<string>,
                 beforeState: Dict, afterState: Option<Dict>)
    | RemediationFailed(findingId: int, error: Option<string>)
    | RollbackSucceeded(findingId: int)
    | RollbackFailed(findingId: int, error: Option<string>)
    | Rejected(reason: EngineError)

  datatype Step = Step(state: DbState, reply: Reply)

  /** The object rebuilt from a stored result for the control to look at. */
  function ViewOf(row: ControlResult): (v: FindingView)
    ensures v.resourceId == row.resourceId && v.evidence == row.evidenceBefore
  {
    FindingView(row.resourceId, row.resourceType, row.evidenceBefore, row.findingDetails)
  }

  /** `approved_by or "system"`. */
  function Actor(approvedBy: Option<string>): (actor: string)
    ensures actor == "system" || approvedBy == Some(actor)
    ensures approvedBy.Some? && approvedBy.value != "" ==> actor == approvedBy.value
  {
    if approvedBy.Some? && approvedBy.value != "" then approvedBy.value else "system"
  }

  /** The checks an operation makes before it runs the control. */
  datatype Gate = Go(row: ControlResult, kind: ControlKind) | Stop(error: EngineError)

  /** Remediation: the result exists and is FAIL or ERROR, its account exists (a missing
      one fails when its provider is read) and its control id is registered. */
  function RemediationGate(s: DbState, findingId: int): (g: Gate)
    ensures g.Go? <==>
      && findingId in s.results
      && s.results[findingId].status in {Fail, Error}
      && s.results[findingId].cloudAccountId in s.accounts
      && FindControl(s.results[findingId].controlId).Some?
    ensures g.Go? ==> g.row == s.results[findingId] && ControlId(g.kind) == g.row.controlId
    ensures findingId !in s.results ==> g == Stop(FindingNotFound)
  {
    if findingId !in s.results then Stop(FindingNotFound)
    else
      var row := s.results[findingId];
      if row.status != Fail && row.status != Error then Stop(NotRemediable)
      else if row.cloudAccountId !in s.accounts then Stop(AccountMissing)
      else
        match FindControl(row.controlId)
        case None => Stop(ControlNotFound(row.controlId))
        case Some(k) => FindControlExact(row.controlId, k); Go(row, k)
  }

  /** Rollback: the result exists and is FIXED, it has non-empty rollback data, its
      account exists and its control id is registered. */
  function RollbackGate(s: DbState, findingId: int): (g: Gate)
    ensures g.Go? <==>
      && findingId in s.results
      && s.results[findingId].status == Fixed
      && s.results[findingId].rollbackData.Some? && s.results[findingId].rollbackData.value != map[]
      && s.results[findingId].cloudAccountId in s.accounts
      && FindControl(s.results[findingId].controlId).Some?
    ensures g.Go? ==> g.row == s.results[findingId] && ControlId(g.kind) == g.row.controlId
  {
    if findingId !in s.results || s.results[findingId].status != Fixed then Stop(NotRollbackable)
    else
      var row := s.results[findingId];
      if !TruthyDict(row.rollbackData) then Stop(NoRollbackData)
      else if row.cloudAccountId !in s.accounts then Stop(AccountMissing)
      else
        match FindControl(row.controlId)
        case None => Stop(ControlNotFound(row.controlId))
        case Some(k) => FindControlExact(row.controlId, k); Go(row, k)
  }

  /** The row after a live remediation succeeded. */
  function ExecutedRow(row: ControlResult, approvedBy: Option<string>, now: Timestamp, outcome: RemediationResult): ControlResult {
    row.(status := Fixed, remediationStatus := Some(Executed), remediationApprovedBy := approvedBy,
         remediationExecutedAt := Some(now), evidenceAfter := outcome.afterState,
         rollbackData := outcome.rollbackData, resolvedAt := Some(now))
  }

  /** The row after a live remediation failed. */
  function FailedRow(row: ControlResult, outcome: RemediationResult): ControlResult {
    row.(remediationStatus := Some(Failed), remediationDetails := map["error" := OptStr(outcome.errorMessage)])
  }

  function SuccessLog(findingId: int, row: ControlResult, account: CloudAccount, dryRun: bool,
                      approvedBy: Option<string>, outcome: RemediationResult): AuditLog {
    AuditLog(Some(findingId), Remediation,
             (if dryRun then "Dry-run remediation for " else "Executed remediation for ") + row.controlId,
             Actor(approvedBy), Some(row.cloudAccountId), Some(account.organizationId), Some(row.controlId),
             row.resourceId, RemediationDone(dryRun, findingId), Some(outcome.beforeState), outcome.afterState,
             Success, None)
  }

  /** The failure entry carries no organization and no before or after state. */
  function FailureLog(findingId: int, row: ControlResult, dryRun: bool, approvedBy: Option<string>,
                      outcome: RemediationResult): AuditLog {
    AuditLog(Some(findingId), Remediation, "Failed remediation for " + row.controlId, Actor(approvedBy),
             Some(row.cloudAccountId), None, Some(row.controlId), row.resourceId,
             RemediationError(dryRun, outcome.errorMessage), None, None, Failure, outcome.errorMessage)
  }

  /** `remediate_finding`: after the gate, the control's answer decides. A dry run never
      changes the row; a live success marks it FIXED with the control's after state and
      rollback data; a live failure records the error. Either way one entry is logged. */
  function RemediationStep(s: DbState, findingId: int, dryRun: bool, approvedBy: Option<string>, now: Timestamp,
                     remediate: Remediator): Step {
    match RemediationGate(s, findingId)
    case Stop(e) => Step(s, Rejected(e))
    case Go(row, k) =>
      var account := s.accounts[row.cloudAccountId];
      var outcome := remediate(k, ClientFor(account), ViewOf(row), dryRun);
      if outcome.success then
        var s1 := if dryRun then s else s.(results := s.results[findingId := ExecutedRow(row, approvedBy, now, outcome)]);
        Step(s1.(audit := s1.audit + [SuccessLog(findingId, row, account, dryRun, approvedBy, outcome)]),
             Remediated(findingId, row.controlId, dryRun, row.resourceId, outcome.beforeState, outcome.afterState))
      else
        var s1 := if dryRun then s else s.(results := s.results[findingId := FailedRow(row, outcome)]);
        Step(s1.(audit := s1.audit + [FailureLog(findingId, row, dryRun, approvedBy, outcome)]),
             RemediationFailed(findingId, outcome.errorMessage))
  }

  /** The row after a rollback succeeded: FAIL again, with who and when merged into the
      remediation details. */
  function RolledBackRow(row: ControlResult, rolledBackBy: string, now: Timestamp): ControlResult {
    row.(status := Fail, remediationStatus := Some(RolledBack),
         remediationDetails := row.remediationDetails + map["rolled_back_at" := JStr(now), "rolled_back_by" := JStr(rolledBackBy)])
  }

  function RollbackLog(findingId: int, row: ControlResult, rolledBackBy: string): AuditLog {
    AuditLog(Some(findingId), Rollback, "Rolled back remediation for " + row.controlId, rolledBackBy,
             Some(row.cloudAccountId), None, Some(row.controlId), row.resourceId, RollbackDone(findingId),
             None, None, Success, None)
  }

  /** `rollback_remediation`: after the gate, a successful rollback reopens the result and
      logs it; a failed one changes nothing and logs nothing. */
  function RollbackStep(s: DbState, findingId: int, rolledBackBy: string, now: Timestamp, rollback: RollbackRunner): Step {
    match RollbackGate(s, findingId)
    case Stop(e) => Step(s, Rejected(e))
    case Go(row, k) =>
      var outcome := rollback(k, ClientFor(s.accounts[row.cloudAccountId]), row.rollbackData.value);
      if outcome.success then
        Step(s.(results := s.results[findingId := RolledBackRow(row, rolledBackBy, now)],
                audit := s.audit + [RollbackLog(findingId, row, rolledBackBy)]),
             RollbackSucceeded(findingId))
      else Step(s, RollbackFailed(findingId, outcome.errorMessage))
  }

  // ---- The engine --------------------------------------------------------------------

  class RemediationEngine {
    const db: Database

    constructor (db: Database)
      ensures this.db == db
    {
      this.db := db;
    }

    /** `remediate_finding`, with the control's `remediate` and the clock supplied. */
    method RemediateFinding(findingId: int, dryRun: bool, approvedBy: Option<string>, now: Timestamp,
                            remediate: Remediator) returns (reply: Reply)
      requires db.Valid()
      modifies db
      ensures db.Valid()
      ensures Step(db.State(), reply) == RemediationStep(old(db.State()), findingId, dryRun, approvedBy, now, remediate)
    {
      var gate := RemediationGate(db.State(), findingId);
      if gate.Stop? {
        return Rejected(gate.error);
      }
      var row := gate.row;
      var account := db.accounts[row.cloudAccountId];
      var outcome := remediate(gate.kind, ClientFor(account), ViewOf(row), dryRun);
      if outcome.success {
        if !dryRun {
          db.Update(findingId, ExecutedRow(row, approvedBy, now, outcome));
        }
        db.Append(SuccessLog(findingId, row, account, dryRun, approvedBy, outcome));
        reply := Remediated(findingId, row.controlId, dryRun, row.resourceId, outcome.beforeState, outcome.afterState);
      } else {
        if !dryRun {
          db.Update(findingId, FailedRow(row, outcome));
        }
        db.Append(FailureLog(findingId, row, dryRun, approvedBy, outcome));
        reply := RemediationFailed(findingId, outcome.errorMessage);
      }
    }

    /** `rollback_remediation`, with the control's `rollback` and the clock supplied. */
    method RollbackRemediation(findingId: int, rolledBackBy: string, now: Timestamp, rollback: RollbackRunner)
      returns (reply: Reply)
      requires db.Valid()
      modifies db
      ensures db.Valid()
      ensures Step(db.State(), reply) == RollbackStep(old(db.State()), findingId, rolledBackBy, now, rollback)
    {
      var gate := RollbackGate(db.State(), findingId);
      if gate.Stop? {
        return Rejected(gate.error);
      }
      var row := gate.row;
      var client := ClientFor(db.accounts[row.cloudAccountId]);
      var outcome := rollback(gate.kind, client, row.rollbackData.value);
      if outcome.success {
        db.Update(findingId, RolledBackRow(row, rolledBackBy, now));
        db.Append(RollbackLog(findingId, row, rolledBackBy));
        reply := RollbackSucceeded(findingId);
      } else {
        reply := RollbackFailed(findingId, outcome.errorMessage);
      }
    }
  }

  // ---- Properties ----------------------------------------------------------------------

  /** A rejected remediation changes nothing, and whether it is rejected depends only on
      the store, never on the dry-run flag, the approver or the control's answer. */
  lemma RemediationRejectedIffGateStops(s: DbState, findingId: int, dryRun: bool, approvedBy: Option<string>,
                                        now: Timestamp, remediate: Remediator)
    ensures var r := RemediationStep(s, findingId, dryRun, approvedBy, now, remediate);
      (r.reply.Rejected? <==> RemediationGate(s, findingId).Stop?) &&
      (r.reply.Rejected? ==> r.state == s && r.reply.reason == RemediationGate(s, findingId).error)
  {
  }

  /** The audit log only grows: a remediation that passes its gate appends exactly one
      entry, a rejected one none, and the entries already there stay. */
  lemma RemediationAppendsOneEntry(s: DbState, findingId: int, dryRun: bool, approvedBy: Option<string>,
                                   now: Timestamp, remediate: Remediator)
    ensures var r := RemediationStep(s, findingId, dryRun, approvedBy, now, remediate);
      && |r.state.audit| == |s.audit| + (if r.reply.Rejected? then 0 else 1)
      && r.state.audit[..|s.audit|] == s.audit
      && r.state.accounts == s.accounts && r.state.nextId == s.nextId
  {
  }

  /** A dry run never changes a stored result. Its one entry is a remediation entry by the
      approver (or "system") for the result: on success a successful "Dry-run" entry with
      the dry-run flag set, on failure a failed entry carrying the control's error. */
  lemma DryRunKeepsResults(s: DbState, findingId: int, approvedBy: Option<string>, now: Timestamp,
                           remediate: Remediator)
    ensures var r := RemediationStep(s, findingId, true, approvedBy, now, remediate);
      && r.state.results == s.results
      && (r.reply.Remediated? ==>
            var e := r.state.audit[|s.audit|];
            && e.action == "Dry-run remediation for " + s.results[findingId].controlId
            && e.eventType == Remediation && e.success == Success
            && e.eventData == RemediationDone(true, findingId)
            && e.actor == Actor(approvedBy) && e.controlResultId == Some(findingId))
      && (r.reply.RemediationFailed? ==>
            var e := r.state.audit[|s.audit|];
            && e.eventType == Remediation && e.success == Failure
            && e.errorMessage == r.reply.error
            && e.eventData == RemediationError(true, r.reply.error)
            && e.actor == Actor(approvedBy) && e.controlResultId == Some(findingId))
  {
    var g := RemediationGate(s, findingId);
    if g.Go? {
      var outcome := remediate(g.kind, ClientFor(s.accounts[g.row.cloudAccountId]), ViewOf(g.row), true);
      var r := RemediationStep(s, findingId, true, approvedBy, now, remediate);
      if outcome.success {
        var log := SuccessLog(findingId, g.row, s.accounts[g.row.cloudAccountId], true, approvedBy, outcome);
        assert r.state == s.(audit := s.audit + [log]);
        assert log.action == "Dry-run remediation for " + g.row.controlId;
      } else {
        assert r.state == s.(audit := s.audit + [FailureLog(findingId, g.row, true, approvedBy, outcome)]);
      }
    }
  }

  /** Past the gate the control's answer decides. A success is reported with the control's
      before and after state; live, it turns the row FIXED, marks it executed by the
      approver at `now`, keeps the control's after state and rollback data, resolves it at
      `now`, and leaves every other column as it was. A failure reports the control's
      error; live, it marks the row failed with the error under "error" and changes
      nothing else. No other row changes. */
  lemma RemediationFollowsControl(s: DbState, findingId: int, dryRun: bool, approvedBy: Option<string>,
                                  now: Timestamp, remediate: Remediator)
    requires RemediationGate(s, findingId).Go?
    ensures var row := s.results[findingId];
      var outcome := remediate(RemediationGate(s, findingId).kind, ClientFor(s.accounts[row.cloudAccountId]),
                               ViewOf(row), dryRun);
      var r := RemediationStep(s, findingId, dryRun, approvedBy, now, remediate);
      && (outcome.success ==>
            r.reply == Remediated(findingId, row.controlId, dryRun, row.resourceId, outcome.beforeState, outcome.afterState))
      && (!outcome.success ==> r.reply == RemediationFailed(findingId, outcome.errorMessage))
      && (dryRun ==> r.state.results == s.results)
      && (!dryRun && outcome.success ==>
            r.state.results == s.results[findingId := row.(
              status := Fixed, remediationStatus := Some(Executed), remediationApprovedBy := approvedBy,
              remediationExecutedAt := Some(now), evidenceAfter := outcome.afterState,
              rollbackData := outcome.rollbackData, resolvedAt := Some(now))])
      && (!dryRun && !outcome.success ==>
            r.state.results == s.results[findingId := row.(
              remediationStatus := Some(Failed), remediationDetails := map["error" := OptStr(outcome.errorMessage)])])
  {
  }

  /** A remediation changes at most the one result it names. That result becomes FIXED only
      from FAIL or ERROR, only live, and only when the control reported success; it then
      keeps the control's after state and rollback data and records the approver and the
      time. */
  lemma RemediationTransitions(s: DbState, findingId: int, dryRun: bool, approvedBy: Option<string>,
                               now: Timestamp, remediate: Remediator)
    ensures var r := RemediationStep(s, findingId, dryRun, approvedBy, now, remediate);
      && r.state.results.Keys == s.results.Keys
      && (forall id :: id in s.results && id != findingId ==> r.state.results[id] == s.results[id])
      && (findingId in s.results && r.state.results[findingId].status == Fixed &&
          s.results[findingId].status != Fixed ==>
            && !dryRun
            && s.results[findingId].status in {Fail, Error}
            && r.reply.Remediated?
            && var row := s.results[findingId];
               var outcome := remediate(RemediationGate(s, findingId).kind, ClientFor(s.accounts[row.cloudAccountId]),
                                        ViewOf(row), false);
               && outcome.success
               && r.state.results[findingId].remediationStatus == Some(Executed)
               && r.state.results[findingId].rollbackData == outcome.rollbackData
               && r.state.results[findingId].evidenceAfter == outcome.afterState
               && r.state.results[findingId].remediationApprovedBy == approvedBy
               && r.state.results[findingId].remediationExecutedAt == Some(now)
               && r.state.results[findingId].resolvedAt == Some(now))
  {
  }

  /** A live failure leaves the status and every column but the remediation status and
      details alone, and records the control's error message under "error". */
  lemma LiveFailureRecordsError(s: DbState, findingId: int, approvedBy: Option<string>, now: Timestamp,
                                remediate: Remediator)
    ensures var r := RemediationStep(s, findingId, false, approvedBy, now, remediate);
      r.reply.RemediationFailed? ==>
        && r.state.results[findingId] == s.results[findingId].(
             remediationStatus := Some(Failed), remediationDetails := map["error" := OptStr(r.reply.error)])
        && r.state.audit[|s.audit|].success == Failure
        && r.state.audit[|s.audit|].errorMessage == r.reply.error
  {
  }

  /** A rollback changes at most the one result it names, and only from FIXED back to FAIL:
      the remediation status becomes rolled back, the earlier remediation details are kept
      with who (and when) added, and every other column, the rollback data among them,
      stays. It appends one rollback entry by the person rolling back. A failed or
      rejected rollback changes nothing at all, not even the audit log. */
  lemma RollbackTransitions(s: DbState, findingId: int, rolledBackBy: string, now: Timestamp,
                            rollback: RollbackRunner)
    ensures var r := RollbackStep(s, findingId, rolledBackBy, now, rollback);
      && (!r.reply.RollbackSucceeded? ==> r.state == s)
      && (r.reply.RollbackSucceeded? ==>
            && s.results[findingId].status == Fixed
            && r.state.results == s.results[findingId := r.state.results[findingId]]
            && r.state.results[findingId] == s.results[findingId].(
                 status := Fail, remediationStatus := Some(RolledBack),
                 remediationDetails := r.state.results[findingId].remediationDetails)
            && (forall key :: key in s.results[findingId].remediationDetails && key != "rolled_back_at" && key != "rolled_back_by"
                  ==> r.state.results[findingId].remediationDetails[key] == s.results[findingId].remediationDetails[key])
            && r.state.results[findingId].remediationDetails["rolled_back_by"] == JStr(rolledBackBy)
            && |r.state.audit| == |s.audit| + 1 && r.state.audit[..|s.audit|] == s.audit
            && r.state.audit[|s.audit|].eventType == Rollback
            && r.state.audit[|s.audit|].actor == rolledBackBy)
  {
  }

  /** Past the gate the control's answer decides: a successful rollback is reported as
      such, a failed one with the control's error. */
  lemma RollbackFollowsControl(s: DbState, findingId: int, rolledBackBy: string, now: Timestamp,
                               rollback: RollbackRunner)
    requires RollbackGate(s, findingId).Go?
    ensures var row := s.results[findingId];
      var outcome := rollback(RollbackGate(s, findingId).kind, ClientFor(s.accounts[row.cloudAccountId]),
                              row.rollbackData.value);
      var r := RollbackStep(s, findingId, rolledBackBy, now, rollback);
      && (outcome.success ==> r.reply == RollbackSucceeded(findingId))
      && (!outcome.success ==> r.reply == RollbackFailed(findingId, outcome.errorMessage))
  {
  }
}
