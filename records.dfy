/** The rows the engines read and write (backend/app/models/control_result.py,
    audit_log.py, cloud_account.py), the database state they make up, and the replies
    the engines give. */
module Records {
  import opened Wrappers
  import opened Json
  import opened Base

  datatype RemediationStatus = Pending | Approved | Executed | Failed | RolledBack

  datatype ScanStatus = InProgress | ScanSucceeded | ScanFailed

  /** An audit entry's `success` column. */
  datatype AuditOutcome = Success | Failure | Partial

  datatype EventType = Detection | Remediation | Approval | Rollback | Scan

  /** One stored control result (a "finding" to the remediation engine). */
  datatype ControlResult = ControlResult(
    cloudAccountId: int,
    controlId: string,
    status: Status,
    riskLevel: Severity,
    resourceId: Option<string>,
    resourceType: Option<string>,
    findingDetails: Dict,
    evidenceBefore: Dict,
    evidenceAfter: Option<Dict>,
    remediationStatus: Option<RemediationStatus>,
    remediationApprovedBy: Option<string>,
    remediationExecutedAt: Option<Timestamp>,
    remediationDetails: Dict,
    rollbackData: Option<Dict>,
    scanId: string,
    resolvedAt: Option<Timestamp>)

  /** The `event_data` each kind of audit entry carries. */
  datatype EventData =
    | ScanEvent(scanId: string, controlsRun: nat, totalFindings: nat, passCount: nat, failCount: nat,
                errorCount: nat)
    | DetectionEvent(status: Status, severity: Severity, finding: Dict)
    | RemediationDone(dryRun: bool, findingId: int)
    | RemediationError(dryRun: bool, error: Option<string>)
    | RollbackDone(findingId: int)

  /** One audit entry. */
  datatype AuditLog = AuditLog(
    controlResultId: Option<int>,
    eventType: EventType,
    action: string,
    actor: string,
    cloudAccountId: Option<int>,
    organizationId: Option<int>,
    controlId: Option<string>,
    resourceId: Option<string>,
    eventData: EventData,
    beforeState: Option<Dict>,
    afterState: Option<Dict>,
    success: AuditOutcome,
    errorMessage: Option<string>)

  /** The columns of a cloud account the engines read or write. */
  datatype CloudAccount = CloudAccount(
    organizationId: int,
    name: string,
    provider: string,
    lastScanAt: Option<Timestamp>,
    lastScanStatus: Option<ScanStatus>)

  /** The three tables: results keyed by their id, the next id the store hands out, the
      audit log in insertion order, and the accounts keyed by their id. */
  datatype DbState = DbState(
    results: map<int, ControlResult>,
    nextId: int,
    audit: seq<AuditLog>,
    accounts: map<int, CloudAccount>)

  /** Ids are positive and every stored id lies below the next one handed out. */
  predicate Valid(s: DbState) {
    s.nextId >= 1 && forall id :: id in s.results ==> 1 <= id < s.nextId
  }

  /** The reasons an engine raises instead of answering. */
  datatype EngineError =
    | AccountNotFound
    | UnsupportedProvider(provider: string)
    | ClientFailed(message: string)
    | FindingNotFound
    | NotRemediable
    | AccountMissing
    | ControlNotFound(controlId: string)
    | NotRollbackable
    | NoRollbackData

  /** The JSON spelling of a status, as stored and as written into audit actions. */
  function StatusName(s: Status): string {
    match s
    case Pass => "PASS"
    case Fail => "FAIL"
    case Error => "ERROR"
    case Fixed => "FIXED"
    case Manual => "MANUAL"
  }

  lemma StatusNameInjective(a: Status, b: Status)
    ensures StatusName(a) == StatusName(b) <==> a == b
  {
  }
}
