/** The records every control speaks in and the behaviour a control inherits when it
    does not provide its own remediation or rollback (backend/app/controls/base.py). */
module Base {
  import opened Wrappers
  import opened Json

  /** The status of a finding or stored result. Detection only ever produces Pass, Fail
      and Error; Fixed is set by remediation; Manual is named by the schema but never set. */
  datatype Status = Pass | Fail | Error | Fixed | Manual

  /** A control's severity, copied into every stored result as its risk level. */
  datatype Severity = Critical | High | Medium | Low

  /** The remediation risk a finding declares ("low" unless a control says otherwise). */
  datatype RiskTier = LowRisk | MediumRisk | HighRisk

  /** What one control check reports about one resource. */
  datatype ControlFinding = ControlFinding(
    status: Status,
    resourceId: string,
    resourceType: string,
    findingDetails: Dict,
    evidence: Dict,
    canAutoRemediate: bool,
    remediationRisk: RiskTier)

  /** A finding built without the two trailing arguments takes the dataclass defaults. */
  function NewFinding(status: Status, resourceId: string, resourceType: string,
                      findingDetails: Dict, evidence: Dict): (f: ControlFinding)
    ensures !f.canAutoRemediate && f.remediationRisk == LowRisk
    ensures f.status == status && f.resourceId == resourceId && f.resourceType == resourceType
    ensures f.findingDetails == findingDetails && f.evidence == evidence
  {
    ControlFinding(status, resourceId, resourceType, findingDetails, evidence, false, LowRisk)
  }

  /** What `remediate` and `rollback` report. `resourceId` is whatever value the control
      put there (a string, or `None` copied from a result that has no resource). */
  datatype RemediationResult = RemediationResult(
    success: bool,
    resourceId: Json,
    beforeState: Dict,
    afterState: Option<Dict>,
    rollbackData: Option<Dict>,
    errorMessage: Option<string>)

  /** The object the remediation engine rebuilds from a stored result and hands to
      `remediate`: only these four attributes exist on it. */
  datatype FindingView = FindingView(
    resourceId: Option<string>,
    resourceType: Option<string>,
    evidence: Dict,
    findingDetails: Dict)

  const RemediationNotImplemented: string := "Remediation not implemented for this control"
  const RollbackNotImplemented: string := "Rollback not implemented for this control"

  /** `BaseControl.remediate`: reports failure, echoing the finding's evidence as the
      before state, whatever `dryRun` says. */
  function DefaultRemediate(finding: FindingView, dryRun: bool): (r: RemediationResult)
    ensures !r.success
    ensures r.beforeState == finding.evidence && r.afterState == None && r.rollbackData == None
    ensures r.errorMessage == Some(RemediationNotImplemented)
  {
    RemediationResult(false, OptStr(finding.resourceId), finding.evidence, None, None,
                      Some(RemediationNotImplemented))
  }

  /** `BaseControl.rollback`: reports failure; the resource id is read from the rollback
      data's "resource_id" entry, or is "unknown". */
  function DefaultRollback(rollbackData: Dict): (r: RemediationResult)
    ensures !r.success && r.beforeState == map[] && r.afterState == None && r.rollbackData == None
    ensures r.resourceId == (if "resource_id" in rollbackData then rollbackData["resource_id"]
                             else JStr("unknown"))
    ensures r.errorMessage == Some(RollbackNotImplemented)
  {
    RemediationResult(false,
                      if "resource_id" in rollbackData then rollbackData["resource_id"] else JStr("unknown"),
                      map[], None, None, Some(RollbackNotImplemented))
  }

  /** The default remediation gives the same answer for a dry run and a live run. */
  lemma DefaultRemediateIgnoresDryRun(finding: FindingView)
    ensures DefaultRemediate(finding, true) == DefaultRemediate(finding, false)
  {
  }
}
