# Cloud compliance core, modelled in Dafny

This project models the compliance core of a cloud-security service with three parts:

- Twenty AWS controls. Each one checks one kind of resource, and two of them can also fix what they find.
- A detection engine. It scans one cloud account with the registered controls and stores one result row and one audit entry per outcome, then summarises the scan. It also computes the account's or organization's compliance score.
- A remediation engine. It runs, or dry-runs, a control's fix for one stored result, and rolls an executed fix back.

Layout, one module per file:

| file | module | what it holds |
|---|---|---|
| `wrappers.dfy` | `Wrappers` | `Option`, and `Answer` (a value, or the message of the exception Python would raise) |
| `json.dfy` | `Json` | JSON scalars, dictionaries, Python truthiness |
| `base.dfy` | `Base` | `ControlFinding`, `RemediationResult`, the base class's default `remediate`/`rollback` |
| `provider.dfy` | `Provider` | the provider answers each control reads (`Snapshot`) |
| `aws_controls.dfy` | `AwsControls` | control metadata, the registry, the twenty `detect` checks as functions, the four loop-written ones also as methods, the S3 remediations |
| `records.dfy` | `Records` | the stored rows (`ControlResult`, `AuditLog`, `CloudAccount`) and the store's state |
| `store.dfy` | `Store` | the database session as a class with the three tables as fields |
| `detection.dfy` | `Detection` | the scan as a pure function of the store and as the `DetectionEngine` class |
| `scoring.dfy` | `Scoring` | `get_compliance_score` and `_get_by_severity` |
| `remediation.dfy` | `Remediation` | remediation and rollback as pure functions of the store and as the `RemediationEngine` class |
| `system_facts.dfy` | `SystemFacts` | what follows when the engines run the controls as shipped |

How the model is built:

- Every provider call a control makes is part of the `Snapshot` and sits where the control reads it. A call that fails is a `Raise`, so a control meets its exception exactly where the Python code would.
- The engines' methods hold a `Database` and change only it. Each one is proved against a pure function of the old state: `ScanAccount`, `RemediationStep` or `RollbackStep`. The properties are then proved about those functions.
- The engines take the control's `remediate` and `rollback` as function-valued parameters. `SystemFacts` plugs in the shipped ones, `ControlRemediate` and `ControlRollback`.
- The caller supplies the scan id, the clock and the outcome of constructing the Azure client.

Where the code and its documentation disagree, the model follows the code:

- Remediation accepts ERROR results as well as FAIL ones.
- Remediation does not check `can_auto_remediate`.
- A live run does not require an approver, although the docstring says it does. The audit actor then falls back to "system".
- A failed rollback writes no audit entry.
- A successful rollback keeps the rollback data.
- Checks that swallow every exception report a provider failure as "no findings". The scan then records such a control as PASS.

## Model

| member | source | states |
|---|---|---|
| Base.NewFinding | backend/app/controls/base.py:6-15 | a finding built without the two trailing arguments is not auto-remediable and carries low risk; every other field is the argument given |
| Base.DefaultRemediate | backend/app/controls/base.py:81-99 | the default remediation always fails with "Remediation not implemented for this control", echoes the evidence as the before state and gives no after state or rollback data |
| Base.DefaultRollback | backend/app/controls/base.py:101-118 | the default rollback always fails with "Rollback not implemented for this control"; its resource id is the rollback data's "resource_id" entry, or "unknown" |
| Base.DefaultRemediateIgnoresDryRun | backend/app/controls/base.py:81-99 | the default remediation answers a dry run and a live run alike |
| AwsControls.RegistryIdsDistinct | backend/app/controls/aws_controls.py:216-220 | the twenty registered controls have pairwise distinct control ids |
| AwsControls.RegistryComplete | backend/app/controls/aws_controls.py:216-220 | every control class is registered |
| AwsControls.FirstMatchUnique | backend/app/services/remediation_engine.py:60 | in a list of controls with distinct ids, first-match lookup finds a control exactly when that control is in the list and has the id |
| AwsControls.FindControlExact | backend/app/services/remediation_engine.py:60 | looking an id up in the registry finds control k exactly when k's id is that id |
| AwsControls.Swallow | backend/app/controls/aws_controls.py:124-128 | `try: ... except: return []` never raises; it passes a result through and turns an exception into no findings |
| AwsControls.CollectRaiseStays | backend/app/controls/aws_controls.py:17-23 | once a prefix of a per-resource walk has raised, the whole check raises that same exception |
| AwsControls.CollectOkIff | backend/app/controls/aws_controls.py:17-23 | a per-resource walk succeeds exactly when every item's calls succeed; otherwise it raises the first item's exception |
| AwsControls.CollectMembers | backend/app/controls/aws_controls.py:17-23 | a successful walk's findings are exactly those some item contributed |
| AwsControls.FilteredMembers | backend/app/controls/aws_controls.py:11-12 | a list comprehension holds one finding per flagged item and nothing else, is no longer than its input, and is empty when nothing is flagged |
| AwsControls.CollectFiltered | backend/app/controls/aws_controls.py:11-12 | a walk whose steps give the flagged items' findings equals the comprehension |
| AwsControls.RunS3PublicAccess | backend/app/controls/aws_controls.py:17-23 | the append loop of S3PublicAccessControl.detect returns what the check defines, including the exception of the first failing bucket |
| AwsControls.RunSecurityGroupPorts | backend/app/controls/aws_controls.py:90-97 | the nested loops of SecurityGroupControl.detect return one finding per open ingress rule of every group, in order |
| AwsControls.RunKmsRotation | backend/app/controls/aws_controls.py:102-108 | the loop of KMSRotationControl.detect flags customer-managed keys without rotation, and asks for rotation only for those keys |
| AwsControls.RunElbLogs | backend/app/controls/aws_controls.py:163-172 | the loop of ELBLogsControl.detect flags load balancers without S3 access logs; any failure gives no findings |
| AwsControls.RunDetect | backend/app/services/detection_engine.py:71 | `await control.detect()` for any registered control equals that control's check |
| AwsControls.S3Remediate | backend/app/controls/aws_controls.py:24-30 | the S3 fix succeeds exactly on a dry run, or when the client, the bucket key and the put call all succeed; success keeps the evidence as rollback data with the fixed state as after state; failure carries an error message, "'bucket'" when the evidence names no bucket |
| AwsControls.ControlRemediate | backend/app/controls/aws_controls.py:24-44 | S3-001 reports the blocked state, S3-002 the encrypted state, and every other control the base-class default |
| AwsControls.ControlRollback | backend/app/controls/base.py:101-118 | no control's rollback ever succeeds; each reports "Rollback not implemented for this control" |
| AwsControls.CollectAll | backend/app/controls/aws_controls.py:17-23 | a property shared by every item's findings holds for the walk's findings |
| AwsControls.DetectReportsOnlyFailures | backend/app/controls/aws_controls.py:10-213 | every finding of every check has status FAIL; a compliant resource contributes nothing |
| AwsControls.DetectRaisesOnlyUncaught | backend/app/controls/aws_controls.py:113-213 | only checks with no `try` around their work can raise; the password-policy check and the nine guarded checks never do |
| AwsControls.CountOpenSnoc | backend/app/controls/aws_controls.py:93-94 | one more ingress rule adds one to the open count exactly when it admits 0.0.0.0/0 |
| AwsControls.OpenPermissionFindingsAreCopies | backend/app/controls/aws_controls.py:92-96 | a security group yields one identical finding per open ingress rule, however many of the rule's ranges are open |
| AwsControls.IamAndS3Comprehensions | backend/app/controls/aws_controls.py:10-60 | once every call has answered, the MFA check and the S3 encryption, versioning and logging checks each return exactly their comprehension over the listing |
| AwsControls.Ec2Comprehensions | backend/app/controls/aws_controls.py:75-85 | the public-IP and EBS-encryption checks return exactly their comprehension over the listing |
| AwsControls.KmsComprehension | backend/app/controls/aws_controls.py:102-108 | once every call has answered, the KMS check returns exactly the customer-managed keys whose rotation is off, named by their ARN; a failed listing or a failed call for some key raises; a key that is not customer-managed is never asked for its rotation |
| AwsControls.ElbComprehension | backend/app/controls/aws_controls.py:163-172 | the ELB check never raises; once every call has answered it returns exactly the load balancers without S3 access logs, and a failed listing or a failed attribute call gives no findings at all |
| AwsControls.GuardedComprehensions | backend/app/controls/aws_controls.py:124-213 | the RDS, Lambda and SNS checks return their comprehension when every call answered, and no findings otherwise |
| AwsControls.AccountWideChecks | backend/app/controls/aws_controls.py:177-192 | the Config and GuardDuty checks never raise and report their one account-wide finding exactly when the service lists nothing |
| AwsControls.S3PublicAccessFlagsUnblocked | backend/app/controls/aws_controls.py:17-23 | a bucket is flagged exactly when BlockPublicAcls and BlockPublicPolicy are not both set; the finding names the bucket's ARN, is high risk and auto-remediable |
| AwsControls.S3PublicAccessRaisesIff | backend/app/controls/aws_controls.py:19-20 | the S3 public-access check raises exactly when listing the buckets or fetching some bucket's block fails |
| AwsControls.CloudTrailCases | backend/app/controls/aws_controls.py:65-70 | no trails yields the single account-wide finding; otherwise each trail that has no status or is not logging is flagged by its ARN |
| AwsControls.PasswordPolicyVerdict | backend/app/controls/aws_controls.py:113-119 | the password-policy check never raises and reports nothing exactly when the policy was fetched, requires uppercase characters and has a minimum length of at least 14 |
| AwsControls.RdsBackupFlagsShortRetention | backend/app/controls/aws_controls.py:142-146 | an instance is flagged exactly when it keeps backups for fewer than 7 days (none stated counts as 0) |
| AwsControls.VpcFlowLogsFlagsUnlogged | backend/app/controls/aws_controls.py:151-158 | a VPC is flagged exactly when no flow log names it; a failure of either listing gives no findings |
| AwsControls.S3DryRunIgnoresCalls | backend/app/controls/aws_controls.py:25 | an S3 dry run succeeds without looking at either call and keeps the evidence as rollback data |
| AwsControls.OnlyS3ControlsRemediate | backend/app/controls/aws_controls.py:24-44 | only S3-001 and S3-002 can ever report a successful fix; no rollback ever succeeds |
| Records.StatusNameInjective | backend/app/services/detection_engine.py:167 | two statuses have the same spelling only when they are the same status |
| Store.Database.Insert | backend/app/services/detection_engine.py:161-162 | adding a row stores it under the next id, a fresh one, and keeps the store valid |
| Store.Database.Append | backend/app/services/detection_engine.py:196-197 | adding an audit entry appends it and changes nothing else |
| Store.Database.Update | backend/app/services/remediation_engine.py:82-89 | committing a changed result replaces that one row only |
| Store.Database.SetAccount | backend/app/services/detection_engine.py:48-49 | committing a changed account replaces that one account only |
| Detection.ProviderControls | backend/app/services/detection_engine.py:52-59 | an "aws" account runs the whole registry; an "azure" account runs no control, or fails when its client cannot be built; any other provider is unsupported |
| Detection.FilterIdsMembers | backend/app/services/detection_engine.py:62-63 | filtering by ids keeps exactly the controls whose id is listed, and never adds controls |
| Detection.SelectionRunsNamedControls | backend/app/services/detection_engine.py:62-63 | a scan with a non-empty id list runs exactly the registered controls it names |
| Detection.FilterIdsAppend | backend/app/services/detection_engine.py:62-63 | filtering a concatenation is concatenating the filtered parts, so the kept controls stay in their relative order |
| Detection.FilterIdsKeepsOrder | backend/app/services/detection_engine.py:62-63 | the filtered controls are the input's controls at strictly increasing positions, and every position whose control is named is among them |
| Detection.SaveRow | backend/app/services/detection_engine.py:143-159 | a stored row carries the account, the scan, the status, the control's id and severity, and no remediation yet; a row without a finding has no resource and empty evidence |
| Detection.SaveRowDetails | backend/app/services/detection_engine.py:143-159 | a row with a finding carries its resource type and details; a row without one has no resource type, and holds the error message under "error" when it is non-empty and no details otherwise; no row has remediation history yet |
| Detection.DetectionLog | backend/app/services/detection_engine.py:165-176 | a detection entry is a successful "system" event for the control and account, linked to no row and no organization |
| Detection.DetectionActionIdentifiesSave | backend/app/services/detection_engine.py:167 | two detection entries have the same action text exactly when they are for the same control with the same status |
| Detection.SplitAtColon | backend/app/services/detection_engine.py:167 | a text is split at its first ": " unambiguously when the part before it has no colon |
| Detection.DetectionEngine.constructor | backend/app/services/detection_engine.py:21-22 | the engine holds the session it is given |
| Detection.DetectionEngine.SaveResult | backend/app/services/detection_engine.py:133-176 | saving stores the row under the next id and then appends its detection entry |
| Detection.DetectionEngine.SaveOutcome | backend/app/services/detection_engine.py:73-88 | one control's outcome is saved as one ERROR row, one PASS row, or one row per finding in order |
| Detection.DetectionEngine.SaveFindings | backend/app/services/detection_engine.py:82-83 | a failing control's findings are stored one row each, with the finding's own status, in the order the control reported them |
| Detection.DetectionEngine.RunControls | backend/app/services/detection_engine.py:65-88 | the scan loop's counters are the tally of the controls' outcomes, and the store holds every save in control order |
| Detection.DetectionEngine.ScanControl | backend/app/services/detection_engine.py:69-88 | one pass of the loop raises exactly the counter the control's outcome calls for and saves that outcome |
| Detection.DetectionEngine.Scan | backend/app/services/detection_engine.py:24-131 | `scan_account` leaves the store and replies exactly as `ScanAccount` defines, on every path |
| Detection.PrefixSnoc | backend/app/services/detection_engine.py:69-88 | one more control extends the saves and the counters by that control's outcome |
| Detection.ScanAccountRuns | backend/app/services/detection_engine.py:65-125 | a scan that runs its controls saves every outcome, marks the account scanned at the given time, logs the scan and reports its tally |
| Detection.ApplySavesSnoc | backend/app/services/detection_engine.py:161-176 | one more save is one more row and one more entry |
| Detection.ApplySavesAppend | backend/app/services/detection_engine.py:69-88 | saving two runs of outcomes in turn is saving them together |
| Detection.ApplySavesAccounts | backend/app/services/detection_engine.py:133-176 | saving never reads or changes the accounts |
| Detection.MarkAfterSaves | backend/app/services/detection_engine.py:47-93 | the `in_progress` mark written before the loop is replaced by the success mark after it, whatever the loop saved |
| Detection.CountSavesAppend | backend/app/services/detection_engine.py:69-88 | the number of saves with a status adds up over consecutive runs |
| Detection.FindingSavesAllFail | backend/app/services/detection_engine.py:82-83 | failing findings are saved as that many FAIL rows and nothing else |
| Detection.SavesMatchCount | backend/app/services/detection_engine.py:70-88 | what one control saves agrees with how it moves the counters: passes and errors count controls, failures count findings |
| Detection.TallyMatchesSaves | backend/app/services/detection_engine.py:66-88 | the scan's pass, fail and error counts are exactly the numbers of PASS, FAIL and ERROR rows it stores; fail equals total findings |
| Detection.ApplySavesAudit | backend/app/services/detection_engine.py:165-176 | saving appends one detection entry per save, in order, after the entries already there |
| Detection.TableAt | backend/app/services/detection_engine.py:161-162 | a row added under consecutive ids is found under its own id |
| Detection.TableFacts | backend/app/services/detection_engine.py:161-162 | adding rows under fresh consecutive ids keeps the old rows and adds nothing else |
| Detection.ApplySavesRows | backend/app/services/detection_engine.py:143-162 | saving keeps the store valid, leaves every stored row alone, and puts each new row at its own fresh id |
| Detection.ScanRejectedChangesNothingElse | backend/app/services/detection_engine.py:24-131 | a scan that never runs changes no result and no audit entry; an unknown account changes nothing at all; otherwise only the account is marked failed |
| Detection.ScanCompletedCounts | backend/app/services/detection_engine.py:24-131 | a scan of an account whose provider gives it controls completes, runs that (narrowed) control set, and its summary counts the PASS, FAIL and ERROR rows it stores exactly, FAIL rows being the findings |
| Detection.ScanCompletedStore | backend/app/services/detection_engine.py:24-131 | a scan of an account whose provider gives it controls keeps old rows, adds one row per save under fresh ids, appends one entry per save plus the scan entry, and marks the account scanned at the given time |
| Detection.SavedRowsDescribeTheirControl | backend/app/services/detection_engine.py:143-159 | every row a scan stores names a control that ran, its severity, the account and the scan; PASS and ERROR rows carry no finding; a PASS row comes from a control that found nothing, an ERROR row from one that raised and keeps that exception's message |
| Detection.FindingSavesShape | backend/app/services/detection_engine.py:82-83 | each finding's save carries that finding and its status |
| Scoring.ScopeOf | backend/app/services/detection_engine.py:203-206 | a truthy account id scopes to the account, otherwise a truthy organization id to the organization, otherwise nothing is filtered |
| Scoring.ResultsUpToMembers | backend/app/services/detection_engine.py:201-209 | the results gathered over ids 1..n are exactly the stored rows with such an id that are in scope |
| Scoring.QueryReturnsScope | backend/app/services/detection_engine.py:201-209 | over a valid store the query returns exactly the results in scope |
| Scoring.StatusCountsBounded | backend/app/services/detection_engine.py:214-217 | the PASS, FAIL and FIXED counts never exceed the total; PASS plus FIXED is the total exactly when every result passed or was fixed |
| Scoring.ScoreIsPercentage | backend/app/services/detection_engine.py:211-228 | the score lies between 0 and 100; it is 100 exactly when every result passed or was fixed, and 0 exactly when none did; no results give all zeros and no `by_severity` |
| Scoring.Percentage | backend/app/services/detection_engine.py:219 | a share of a positive total, as a percentage, lies between 0 and 100 and hits either end only at the extremes |
| Scoring.CountFailingSnoc | backend/app/services/detection_engine.py:233 | one more result adds one to a severity's failing count exactly when it is a FAIL of that severity |
| Scoring.BySeverityCounts | backend/app/services/detection_engine.py:230-234 | `by_severity` names a severity exactly when it has failing results, and counts them |
| Scoring.FailingAddsUp | backend/app/services/detection_engine.py:230-234 | the four severities' failing counts add up to the report's FAIL count |
| Remediation.ClientFor | backend/app/services/remediation_engine.py:59 | an account gets the AWS client exactly when its provider is "aws", and no client otherwise |
| Remediation.ViewOf | backend/app/services/remediation_engine.py:68-73 | the object handed to the control carries the row's resource id and its stored evidence |
| Remediation.Actor | backend/app/services/remediation_engine.py:95 | the actor is the approver when one is given and non-empty, otherwise "system" |
| Remediation.RemediationGate | backend/app/services/remediation_engine.py:40-63 | remediation proceeds exactly when the result exists, is FAIL or ERROR, its account exists and its control is registered; an unknown id is "not found" |
| Remediation.RollbackGate | backend/app/services/remediation_engine.py:165-187 | rollback proceeds exactly when the result exists, is FIXED, has non-empty rollback data, its account exists and its control is registered |
| Remediation.RemediationEngine.constructor | backend/app/services/remediation_engine.py:20-21 | the engine holds the session it is given |
| Remediation.RemediationEngine.RemediateFinding | backend/app/services/remediation_engine.py:23-152 | `remediate_finding` leaves the store and replies exactly as `RemediationStep` defines |
| Remediation.RemediationEngine.RollbackRemediation | backend/app/services/remediation_engine.py:154-232 | `rollback_remediation` leaves the store and replies exactly as `RollbackStep` defines |
| Remediation.RemediationRejectedIffGateStops | backend/app/services/remediation_engine.py:46-63 | a remediation is rejected exactly when its checks stop it, for the reason they give, and then changes nothing |
| Remediation.RemediationAppendsOneEntry | backend/app/services/remediation_engine.py:91-142 | a remediation past its checks appends exactly one audit entry and a rejected one none; earlier entries, the accounts and the next id stay |
| Remediation.DryRunKeepsResults | backend/app/services/remediation_engine.py:79-142 | a dry run never changes a stored result; its success entry is a successful remediation event by the approver (or "system") for the result, flagged as a dry run and saying "Dry-run"; its failure entry is a failed remediation event carrying the control's error |
| Remediation.RemediationFollowsControl | backend/app/services/remediation_engine.py:65-142 | past its checks a remediation reports the control's answer; live, a success turns the row FIXED, executed by the approver at the given time, with the control's after state and rollback data and every other column unchanged, and a failure only marks it failed with the error under "error"; a dry run changes no row |
| Remediation.RemediationTransitions | backend/app/services/remediation_engine.py:79-89 | a remediation changes at most the result it names, which becomes FIXED only from FAIL or ERROR, only live and only on the control's success; the row then keeps the control's after state and rollback data, the approver, the execution time and the resolution time |
| Remediation.LiveFailureRecordsError | backend/app/services/remediation_engine.py:120-142 | a live failure changes only the row's remediation status, to failed, and its details, to the control's message under "error"; it logs a failure entry with that message |
| Remediation.RollbackTransitions | backend/app/services/remediation_engine.py:191-228 | a failed or rejected rollback changes nothing, not even the audit log; a successful one changes only the one row, from FIXED back to FAIL and rolled back, keeps every other column and the earlier remediation details, records who rolled back, and appends one rollback entry by that person |
| Remediation.RollbackFollowsControl | backend/app/services/remediation_engine.py:189-228 | past its checks a rollback reports success exactly when the control's rollback succeeded, and otherwise the control's error |
| SystemFacts.RollbackNeverChangesAnything | backend/app/services/remediation_engine.py:191-228 | with the shipped controls no rollback ever succeeds or changes the store |
| SystemFacts.OnlyS3ResultsGetFixed | backend/app/services/remediation_engine.py:77-89 | with the shipped controls a result becomes FIXED only through a live S3-001 or S3-002 run, for an AWS account, whose evidence names the bucket and whose calls succeed |
| SystemFacts.ErrorResultsCannotBeFixed | backend/app/controls/aws_controls.py:24-30 | a result stored for a control that raised has no evidence, so a live fix never succeeds on it and it stays ERROR |
| SystemFacts.ErrorResultsPassDryRun | backend/app/controls/aws_controls.py:25 | an S3 dry run on such a result nevertheless reports success |
| SystemFacts.NoBucketNoLiveFix | backend/app/controls/aws_controls.py:24-44 | when the evidence names no bucket, no shipped control succeeds live, so the result keeps its status |
| SystemFacts.AccountsWithoutClientCannotBeFixed | backend/app/services/remediation_engine.py:59 | an account whose provider is not "aws" gets no client, so a live S3 fix on it fails with Python's error for calling `get_client` on `None` and the result keeps its status |
| SystemFacts.PublicBucketFixedForGood | backend/app/controls/aws_controls.py:17-30 | a public bucket scanned in an AWS account is fixed by a live run whose calls succeed, keeping {"bucket": name} as rollback data; the rollback that data invites then fails and the result stays FIXED |

## Left out

- Asynchrony, the database round-trips and `commit` are not modelled. Each commit is an atomic change of the store's state, and a failing database call is not modelled.
- Logging is left out, because it has no effect on state.
- `uuid.uuid4()` and `datetime.utcnow()` become parameters (`scanId`, `now`). Every `utcnow()` of one operation is taken to give the same time.
- `duration_seconds`, `started_at`, `completed_at`, the `status: "completed"` field and the reply message strings are left out. They are clock values or fixed text.
- `round(score, 2)` is left out: the score is the exact real percentage.
- The provider's answers are one `Snapshot` per scan, so a call that a control makes twice gives the same answer both times. Only whether each client call raises, and with which message, is kept.
- `backend/app/services/aws_client.py` and `backend/app/services/azure_client.py` are not part of this model. Only the fact that building the Azure client can raise is kept. Credentials are not modelled.
- The `metadata=` argument of `_save_result` is not stored. It does not name the row's `result_metadata` column.
- The scan's `in_progress` account status is set and then always overwritten before the scan returns. `Scan` performs the write, but it is not visible in the final state.
- Control titles, descriptions, categories and framework mappings are plain functions with no properties stated. Nothing in the core depends on them beyond storing them.
- RdsBackupFlagsShortRetention: a `BackupRetentionPeriod` key that is present with value `None` is treated like an absent key (0 days). Python would raise on comparing `None`, and the `try` would then give no findings.
- The Azure branch runs no controls, exactly as in the code. No Azure control exists in the core.
- The `except Exception: ... raise` around each remediation and rollback only logs and re-raises. An exception there can come only from the database or from a control's `remediate` or `rollback` raising outside its own `try`. Neither is modelled: a failing database call is left out (see above), and the `remediate` and `rollback` parameters are total functions, as the shipped controls are.
- Building `AWSClient` from the account's credentials is taken never to raise; only which client an account gets (`ClientFor`) is kept.
