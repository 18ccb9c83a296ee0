/** What follows when the engines run the controls as shipped: only the two S3 controls
    can fix anything, nothing can be rolled back, and a result stored for a failed
    control run cannot be fixed live. */
module SystemFacts {
  import opened Wrappers
  import opened Json
  import opened Base
  import opened AwsControls
  import opened Records
  import opened Detection
  import opened Remediation

  /** The error Python gives when a control calls the client of an account that has none. */
  const NoClientError := "'NoneType' object has no attribute 'get_client'"

  /** The registered controls' `remediate`. `getClient` is the outcome of asking the AWS
      client for its S3 client and `put` that of the S3 call; an account without a client
      makes the first of these raise. */
  function ShippedRemediator(getClient: Answer<()>, put: Answer<()>): Remediator {
    (k: ControlKind, c: Client, v: FindingView, d: bool) =>
      ControlRemediate(k, v, d, if c == AwsClient then getClient else Raise(NoClientError), put)
  }

  /** The registered controls' `rollback`. */
  function ShippedRollback(): RollbackRunner {
    (k: ControlKind, c: Client, data: Dict) => ControlRollback(k, data)
  }

  /** No rollback ever gets past the controls: the store is left exactly as it was and
      the reply is a rejection or a failure. */
  lemma RollbackNeverChangesAnything(s: DbState, findingId: int, rolledBackBy: string, now: Timestamp)
    ensures RollbackStep(s, findingId, rolledBackBy, now, ShippedRollback()).state == s
    ensures !RollbackStep(s, findingId, rolledBackBy, now, ShippedRollback()).reply.RollbackSucceeded?
  {
  }

  /** A result becomes FIXED only through a live run of an S3 control, for an AWS account,
      whose evidence names the bucket and whose two client calls both succeeded. */
  lemma OnlyS3ResultsGetFixed(s: DbState, findingId: int, dryRun: bool, approvedBy: Option<string>,
                              now: Timestamp, client: Answer<()>, put: Answer<()>)
    requires findingId in s.results && s.results[findingId].status != Fixed
    ensures var r := RemediationStep(s, findingId, dryRun, approvedBy, now, ShippedRemediator(client, put));
      r.state.results[findingId].status == Fixed ==>
        && !dryRun && client.Ok? && put.Ok?
        && s.accounts[s.results[findingId].cloudAccountId].provider == "aws"
        && s.results[findingId].controlId in {"AWS-S3-001", "AWS-S3-002"}
        && "bucket" in s.results[findingId].evidenceBefore
  {
    var r := RemediationStep(s, findingId, dryRun, approvedBy, now, ShippedRemediator(client, put));
    if r.state.results[findingId].status == Fixed {
      RemediationTransitions(s, findingId, dryRun, approvedBy, now, ShippedRemediator(client, put));
      var k := RemediationGate(s, findingId).kind;
      var c := ClientFor(s.accounts[s.results[findingId].cloudAccountId]);
      var call := if c == AwsClient then client else Raise(NoClientError);
      OnlyS3ControlsRemediate(k, ViewOf(s.results[findingId]), false, call, put, map[]);
    }
  }

  /** A result a scan stored for a control that raised has no evidence, so a live
      remediation of it never fixes it. */
  lemma ErrorResultsCannotBeFixed(s: DbState, findingId: int, accountId: int, scanId: string, control: ControlKind,
                                  message: string, approvedBy: Option<string>, now: Timestamp,
                                  client: Answer<()>, put: Answer<()>)
    requires findingId in s.results && accountId in s.accounts
    requires s.results[findingId] == SaveRow(accountId, scanId, Save(control, None, Error, Some(message)))
    ensures RemediationStep(s, findingId, false, approvedBy, now, ShippedRemediator(client, put)).state.results[findingId].status == Error
  {
    FindControlExact(ControlId(control), control);
    NoBucketNoLiveFix(s, findingId, approvedBy, now, client, put);
  }

  /** Without a bucket in the evidence no shipped control succeeds live, so a live
      remediation keeps the result's status. */
  lemma NoBucketNoLiveFix(s: DbState, findingId: int, approvedBy: Option<string>, now: Timestamp,
                          client: Answer<()>, put: Answer<()>)
    requires RemediationGate(s, findingId).Go? && "bucket" !in s.results[findingId].evidenceBefore
    ensures RemediationStep(s, findingId, false, approvedBy, now, ShippedRemediator(client, put)).state.results[findingId].status
         == s.results[findingId].status
  {
    var g := RemediationGate(s, findingId);
    var c := ClientFor(s.accounts[g.row.cloudAccountId]);
    var call := if c == AwsClient then client else Raise(NoClientError);
    assert !ControlRemediate(g.kind, ViewOf(g.row), false, call, put).success;
    RemediationFollowsControl(s, findingId, false, approvedBy, now, ShippedRemediator(client, put));
  }

  /** An account whose provider is not "aws" gets no client, so a live run of an S3
      control on one of its results fails with Python's error for the missing client and
      the result keeps its status. */
  lemma AccountsWithoutClientCannotBeFixed(s: DbState, findingId: int, approvedBy: Option<string>, now: Timestamp,
                                           client: Answer<()>, put: Answer<()>)
    requires RemediationGate(s, findingId).Go?
    requires RemediationGate(s, findingId).kind in {S3PublicAccess, S3Encryption}
    requires s.accounts[s.results[findingId].cloudAccountId].provider != "aws"
    ensures var r := RemediationStep(s, findingId, false, approvedBy, now, ShippedRemediator(client, put));
      && r.reply == RemediationFailed(findingId, Some(NoClientError))
      && r.state.results[findingId].status == s.results[findingId].status
  {
    var g := RemediationGate(s, findingId);
    assert ClientFor(s.accounts[g.row.cloudAccountId]) == NoClient;
    assert ShippedRemediator(client, put)(g.kind, NoClient, ViewOf(g.row), false)
        == ControlRemediate(g.kind, ViewOf(g.row), false, Raise(NoClientError), put);
    RemediationFollowsControl(s, findingId, false, approvedBy, now, ShippedRemediator(client, put));
  }

  /** A dry run of an S3 control on such a result nevertheless reports success, since the
      S3 controls' dry run looks at nothing. */
  lemma ErrorResultsPassDryRun(s: DbState, findingId: int, accountId: int, scanId: string, control: ControlKind,
                               message: string, approvedBy: Option<string>, now: Timestamp,
                               client: Answer<()>, put: Answer<()>)
    requires findingId in s.results && accountId in s.accounts
    requires s.results[findingId] == SaveRow(accountId, scanId, Save(control, None, Error, Some(message)))
    requires control in {S3PublicAccess, S3Encryption}
    ensures RemediationStep(s, findingId, true, approvedBy, now, ShippedRemediator(client, put)).reply.Remediated?
  {
    FindControlExact(ControlId(control), control);
    var row := s.results[findingId];
    var view := ViewOf(row);
    assert RemediationGate(s, findingId) == Go(row, control);
    var c := ClientFor(s.accounts[accountId]);
    var call := if c == AwsClient then client else Raise(NoClientError);
    var dry := ShippedRemediator(client, put)(control, c, view, true);
    assert dry == ControlRemediate(control, view, true, call, put);
    assert dry.success;
    RemediationFollowsControl(s, findingId, true, approvedBy, now, ShippedRemediator(client, put));
  }

  /** The bucket flagged by S3PublicAccessControl, once stored by a scan of an AWS account,
      is fixed by a live remediation whose calls succeed. The fix keeps the bucket's evidence as
      rollback data, which opens the rollback gate, but the rollback then fails and the
      result stays FIXED. */
  lemma PublicBucketFixedForGood(s: DbState, findingId: int, accountId: int, scanId: string, name: string,
                                 approvedBy: Option<string>, now: Timestamp, rolledBackBy: string, later: Timestamp)
    requires findingId in s.results && accountId in s.accounts && s.accounts[accountId].provider == "aws"
    requires s.results[findingId] == SaveRow(accountId, scanId, Save(S3PublicAccess, Some(PublicAccessFinding(name)), Fail, None))
    ensures var fixed := RemediationStep(s, findingId, false, approvedBy, now, ShippedRemediator(Ok(()), Ok(())));
      && fixed.reply.Remediated?
      && fixed.state.results[findingId].status == Fixed
      && fixed.state.results[findingId].rollbackData == Some(map["bucket" := JStr(name)])
      && fixed.state.results[findingId].evidenceAfter == Some(map["blocked" := JBool(true)])
      && RollbackGate(fixed.state, findingId).Go?
      && RollbackStep(fixed.state, findingId, rolledBackBy, later, ShippedRollback()).state == fixed.state
  {
    FindControlExact(ControlId(S3PublicAccess), S3PublicAccess);
    var view := ViewOf(s.results[findingId]);
    assert ClientFor(s.accounts[accountId]) == AwsClient;
    assert ShippedRemediator(Ok(()), Ok(()))(S3PublicAccess, AwsClient, view, false)
        == ControlRemediate(S3PublicAccess, view, false, Ok(()), Ok(()));
  }
}
