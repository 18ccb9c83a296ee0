/** The detection engine: running the registered controls against one cloud account and
    storing one result row and one audit entry per outcome
    (backend/app/services/detection_engine.py). */
module Detection {
  import opened Wrappers
  import opened Json
  import opened Base
  import opened Provider
  import opened AwsControls
  import opened Records
  import opened Store

  // ---- Which controls a scan runs -------------------------------------------------

  /** The control set for a provider, or why the scan stops before running any.
      `azureClient` is the outcome of building the Azure client; the AWS client never
      raises on construction. */
  datatype Selection = Run(kinds: seq<ControlKind>) | Abort(reason: EngineError)

  function ProviderControls(provider: string, azureClient: Answer<()>): (r: Selection)
    ensures r.Run? <==> provider == "aws" || (provider == "azure" && azureClient.Ok?)
    ensures provider == "aws" ==> r == Run(Registry)
    ensures provider != "aws" && r.Run? ==> r.kinds == []
    ensures provider != "aws" && provider != "azure" ==> r == Abort(UnsupportedProvider(provider))
  {
    if provider == "aws" then Run(Registry)
    else if provider == "azure" then
      if azureClient.Raise? then Abort(ClientFailed(azureClient.error)) else Run([])
    else Abort(UnsupportedProvider(provider))
  }

  /** The controls whose id is among `ids`, in their original order. */
  function FilterIds(controls: seq<ControlKind>, ids: seq<string>): seq<ControlKind> {
    if controls == [] then []
    else
      var last := controls[|controls| - 1];
      FilterIds(controls[..|controls| - 1], ids) + (if ControlId(last) in ids then [last] else [])
  }

  /** A list of control ids given and non-empty restricts the run; none, or an empty
      list, runs every control. */
  function Selected(controls: seq<ControlKind>, controlIds: Option<seq<string>>): seq<ControlKind> {
    if controlIds.Some? && controlIds.value != [] then FilterIds(controls, controlIds.value) else controls
  }

  lemma {:induction false} FilterIdsMembers(controls: seq<ControlKind>, ids: seq<string>, k: ControlKind)
    ensures k in FilterIds(controls, ids) <==> k in controls && ControlId(k) in ids
    ensures |FilterIds(controls, ids)| <= |controls|
  {
    if controls != [] {
      var init := controls[..|controls| - 1];
      assert controls == init + [controls[|controls| - 1]];
      FilterIdsMembers(init, ids, k);
    }
  }

  /** A scan with a non-empty id list runs exactly the registered controls it names. */
  lemma SelectionRunsNamedControls(controlIds: seq<string>, k: ControlKind)
    requires controlIds != []
    ensures k in Selected(Registry, Some(controlIds)) <==> ControlId(k) in controlIds
  {
    FilterIdsMembers(Registry, controlIds, k);
    RegistryComplete(k);
  }

  /** Filtering distributes over concatenation, so controls keep their relative order. */
  lemma {:induction false} FilterIdsAppend(a: seq<ControlKind>, b: seq<ControlKind>, ids: seq<string>)
    ensures FilterIds(a + b, ids) == FilterIds(a, ids) + FilterIds(b, ids)
    decreases |b|
  {
    if b == [] {
      assert a + b == a;
    } else {
      var init := b[..|b| - 1];
      assert (a + b)[..|a + b| - 1] == a + init;
      assert (a + b)[|a + b| - 1] == b[|b| - 1];
      FilterIdsAppend(a, init, ids);
    }
  }

  /** The positions in `controls` of the controls that FilterIds keeps. */
  function FilterPositions(controls: seq<ControlKind>, ids: seq<string>): seq<nat> {
    if controls == [] then []
    else
      var n := |controls| - 1;
      FilterPositions(controls[..n], ids) + (if ControlId(controls[n]) in ids then [n] else [])
  }

  /** The filtered controls are the controls at strictly increasing positions of the
      input, and every position whose control is named is among them. */
  lemma {:induction false} FilterIdsKeepsOrder(controls: seq<ControlKind>, ids: seq<string>)
    ensures var r := FilterIds(controls, ids); var p := FilterPositions(controls, ids);
      && |p| == |r|
      && (forall i :: 0 <= i < |p| ==> p[i] < |controls| && controls[p[i]] == r[i])
      && (forall i, j :: 0 <= i < j < |p| ==> p[i] < p[j])
      && (forall n :: 0 <= n < |controls| && ControlId(controls[n]) in ids ==> n in p)
  {
    if controls != [] {
      var n := |controls| - 1;
      var init := controls[..n];
      FilterIdsKeepsOrder(init, ids);
      var r0, p0 := FilterIds(init, ids), FilterPositions(init, ids);
      var r, p := FilterIds(controls, ids), FilterPositions(controls, ids);
      forall i | 0 <= i < |p|
        ensures p[i] < |controls| && controls[p[i]] == r[i]
      {
        if i < |p0| {
          assert p[i] == p0[i] && r[i] == r0[i];
        }
      }
      forall i, j | 0 <= i < j < |p|
        ensures p[i] < p[j]
      {
        if j < |p0| {
          assert p[i] == p0[i] && p[j] == p0[j];
        } else {
          assert p[i] == p0[i] && p[j] == n;
        }
      }
      forall m | 0 <= m < |controls| && ControlId(controls[m]) in ids
        ensures m in p
      {
        if m < n {
          assert controls[m] == init[m];
        }
      }
    }
  }

  // ---- What a scan saves -------------------------------------------------------------

  /** One call of `_save_result`: the control, the finding if any, the status and the
      error message if any. */
  datatype Save = Save(kind: ControlKind, finding: Option<ControlFinding>, status: Status, errorMsg: Option<string>)

  /** One save per finding, each with the finding's own status. */
  function FindingSaves(k: ControlKind, findings: seq<ControlFinding>): seq<Save> {
    if findings == [] then []
    else
      var last := findings[|findings| - 1];
      FindingSaves(k, findings[..|findings| - 1]) + [Save(k, Some(last), last.status, None)]
  }

  /** What one control's outcome saves: an exception one ERROR row, no findings one PASS
      row, otherwise a row per finding. */
  function Saves(k: ControlKind, outcome: Answer<seq<ControlFinding>>): seq<Save> {
    match outcome
    case Raise(e) => [Save(k, None, Error, Some(e))]
    case Ok(findings) => if findings == [] then [Save(k, None, Pass, None)] else FindingSaves(k, findings)
  }

  /** The saves of a whole scan, control after control. */
  function AllSaves(controls: seq<ControlKind>, snap: Snapshot): seq<Save> {
    if controls == [] then []
    else
      var last := controls[|controls| - 1];
      AllSaves(controls[..|controls| - 1], snap) + Saves(last, Detect(last, snap))
  }

  /** The stored row for a save. An error message becomes the details only when it is
      non-empty. */
  function SaveRow(accountId: int, scanId: string, sv: Save): (row: ControlResult)
    ensures row.cloudAccountId == accountId && row.scanId == scanId && row.status == sv.status
    ensures row.controlId == ControlId(sv.kind) && row.riskLevel == SeverityOf(sv.kind)
    ensures row.remediationStatus == None && row.rollbackData == None && row.evidenceAfter == None
    ensures sv.finding.None? ==> row.resourceId == None && row.evidenceBefore == map[]
    ensures sv.finding.Some? ==> row.resourceId == Some(sv.finding.value.resourceId)
                                 && row.evidenceBefore == sv.finding.value.evidence
  {
    var f := sv.finding;
    ControlResult(
      accountId, ControlId(sv.kind), sv.status, SeverityOf(sv.kind),
      if f.Some? then Some(f.value.resourceId) else None,
      if f.Some? then Some(f.value.resourceType) else None,
      if f.Some? then f.value.findingDetails
      else if sv.errorMsg.Some? && sv.errorMsg.value != "" then map["error" := JStr(sv.errorMsg.value)]
      else map[],
      if f.Some? then f.value.evidence else map[],
      None, None, None, None, map[], None, scanId, None)
  }

  /** The rest of a stored row: a finding's resource type and details; without a finding
      no resource type, and the error message under "error" when there is a non-empty
      one, else no details; and no remediation history yet. */
  lemma SaveRowDetails(accountId: int, scanId: string, sv: Save)
    ensures var row := SaveRow(accountId, scanId, sv);
      && (sv.finding.Some? ==> row.resourceType == Some(sv.finding.value.resourceType)
                               && row.findingDetails == sv.finding.value.findingDetails)
      && (sv.finding.None? ==> row.resourceType == None)
      && (sv.finding.None? && sv.errorMsg.Some? && sv.errorMsg.value != "" ==>
            row.findingDetails == map["error" := JStr(sv.errorMsg.value)])
      && (sv.finding.None? && (sv.errorMsg.None? || sv.errorMsg.value == "") ==> row.findingDetails == map[])
      && row.remediationApprovedBy == None && row.remediationExecutedAt == None
      && row.remediationDetails == map[] && row.resolvedAt == None
  {
  }

  /** The audit entry for a save: by "system", with no link to the stored row and no
      organization. */
  function DetectionLog(accountId: int, sv: Save): (log: AuditLog)
    ensures log.eventType == Detection && log.actor == "system" && log.success == Success
    ensures log.controlResultId == None && log.organizationId == None
    ensures log.cloudAccountId == Some(accountId) && log.controlId == Some(ControlId(sv.kind))
  {
    AuditLog(
      None, Detection, "Control " + ControlId(sv.kind) + ": " + StatusName(sv.status), "system",
      Some(accountId), None, Some(ControlId(sv.kind)),
      if sv.finding.Some? then Some(sv.finding.value.resourceId) else None,
      DetectionEvent(sv.status, SeverityOf(sv.kind), if sv.finding.Some? then sv.finding.value.findingDetails else map[]),
      None, None, Success, None)
  }

  /** The action of a detection entry names the control and the status: two entries
      have the same action exactly when their saves are of the same control with the
      same status. */
  lemma DetectionActionIdentifiesSave(a1: int, sv1: Save, a2: int, sv2: Save)
    ensures DetectionLog(a1, sv1).action == DetectionLog(a2, sv2).action <==>
            sv1.kind == sv2.kind && sv1.status == sv2.status
  {
    var id1, id2 := ControlId(sv1.kind), ControlId(sv2.kind);
    var n1, n2 := StatusName(sv1.status), StatusName(sv2.status);
    if DetectionLog(a1, sv1).action == DetectionLog(a2, sv2).action {
      var action := DetectionLog(a1, sv1).action;
      assert action[8..] == id1 + ": " + n1;
      assert action[8..] == id2 + ": " + n2;
      ControlIdHasNoColon(sv1.kind);
      ControlIdHasNoColon(sv2.kind);
      SplitAtColon(id1, n1, id2, n2);
      FindControlExact(id1, sv1.kind);
      FindControlExact(id1, sv2.kind);
      StatusNameInjective(sv1.status, sv2.status);
    }
  }

  lemma ControlIdHasNoColon(k: ControlKind)
    ensures ':' !in ControlId(k)
  {
  }

  /** Text with no colon before ": " is split there unambiguously. */
  lemma SplitAtColon(a: string, x: string, b: string, y: string)
    requires ':' !in a && ':' !in b && a + ": " + x == b + ": " + y
    ensures a == b && x == y
  {
    var s := a + ": " + x;
    assert s[|a|] == ':' && s[|b|] == ':';
    assert |a| == |b|;
    assert a == s[..|a|] == b;
    assert x == s[|a| + 2..] == y;
  }

  /** `_save_result` on the state: the row under the next id, then its audit entry. */
  function RecordSave(s: DbState, accountId: int, scanId: string, sv: Save): DbState {
    s.(results := s.results[s.nextId := SaveRow(accountId, scanId, sv)],
       nextId := s.nextId + 1,
       audit := s.audit + [DetectionLog(accountId, sv)])
  }

  /** The store after a run of saves: their rows under consecutive fresh ids and their
      entries appended in order (`ApplySavesSnoc` shows it is `RecordSave` repeated). */
  function ApplySaves(s: DbState, accountId: int, scanId: string, saves: seq<Save>): DbState {
    StoreRows(s, MapSeq(saves, RowOf(accountId, scanId)), MapSeq(saves, LogOf(accountId)))
  }

  /** `rows` added under consecutive fresh ids and `logs` appended to the audit log. */
  function StoreRows(s: DbState, rows: seq<ControlResult>, logs: seq<AuditLog>): DbState {
    s.(results := Table(s.results, s.nextId, rows), nextId := s.nextId + |rows|, audit := s.audit + logs)
  }

  // ---- The counters ----------------------------------------------------------------

  datatype ScanCounts = ScanCounts(pass: nat, fail: nat, error: nat, totalFindings: nat)

  /** How one outcome moves the counters: `fail` counts findings, not controls. */
  function Count(c: ScanCounts, outcome: Answer<seq<ControlFinding>>): ScanCounts {
    match outcome
    case Raise(_) => c.(error := c.error + 1)
    case Ok(findings) =>
      if findings == [] then c.(pass := c.pass + 1)
      else c.(fail := c.fail + |findings|, totalFindings := c.totalFindings + |findings|)
  }

  function Tally(controls: seq<ControlKind>, snap: Snapshot): ScanCounts {
    if controls == [] then ScanCounts(0, 0, 0, 0)
    else
      var last := controls[|controls| - 1];
      Count(Tally(controls[..|controls| - 1], snap), Detect(last, snap))
  }

  // ---- The scan ----------------------------------------------------------------------

  datatype ScanSummary = ScanSummary(scanId: string, accountId: int, totalControls: nat, pass: nat,
                                     fail: nat, error: nat, totalFindings: nat)

  datatype ScanReply = ScanCompleted(summary: ScanSummary) | ScanRejected(error: EngineError)

  datatype Scanned = Scanned(state: DbState, reply: ScanReply)

  function ScanLog(accountId: int, organizationId: int, scanId: string, controlsRun: nat, c: ScanCounts): AuditLog {
    AuditLog(None, Scan, "Completed scan " + scanId, "system", Some(accountId), Some(organizationId), None, None,
             ScanEvent(scanId, controlsRun, c.totalFindings, c.pass, c.fail, c.error), None, None, Success, None)
  }

  /** `scan_account`: an unknown account raises and changes nothing; a provider with no
      controls to offer marks the scan failed and raises; otherwise every selected
      control's outcome is saved, the account is marked scanned at `now`, and the scan
      itself is logged. */
  function ScanAccount(s: DbState, accountId: int, controlIds: Option<seq<string>>, snap: Snapshot,
                       azureClient: Answer<()>, scanId: string, now: Timestamp): Scanned {
    if accountId !in s.accounts then Scanned(s, ScanRejected(AccountNotFound))
    else
      var account := s.accounts[accountId];
      match ProviderControls(account.provider, azureClient)
      case Abort(e) =>
        Scanned(s.(accounts := s.accounts[accountId := account.(lastScanStatus := Some(ScanFailed))]), ScanRejected(e))
      case Run(kinds) =>
        var controls := Selected(kinds, controlIds);
        var c := Tally(controls, snap);
        var saved := ApplySaves(s, accountId, scanId, AllSaves(controls, snap));
        var marked := saved.(accounts := saved.accounts[accountId :=
                        account.(lastScanAt := Some(now), lastScanStatus := Some(ScanSucceeded))]);
        Scanned(marked.(audit := marked.audit + [ScanLog(accountId, account.organizationId, scanId, |controls|, c)]),
                ScanCompleted(ScanSummary(scanId, accountId, |controls|, c.pass, c.fail, c.error, c.totalFindings)))
  }

  // ---- The engine --------------------------------------------------------------------

  class DetectionEngine {
    const db: Database

    constructor (db: Database)
      ensures this.db == db
    {
      this.db := db;
    }

    /** `_save_result`: store the row, then log the detection. */
    method SaveResult(accountId: int, control: ControlKind, finding: Option<ControlFinding>, status: Status,
                      scanId: string, errorMsg: Option<string>)
      requires db.Valid()
      modifies db
      ensures db.Valid()
      ensures db.State() == RecordSave(old(db.State()), accountId, scanId, Save(control, finding, status, errorMsg))
    {
      var sv := Save(control, finding, status, errorMsg);
      var _ := db.Insert(SaveRow(accountId, scanId, sv));
      db.Append(DetectionLog(accountId, sv));
    }

    /** Save a control's outcome: one error row, one pass row, or a row per finding. */
    method SaveOutcome(accountId: int, control: ControlKind, findings: Answer<seq<ControlFinding>>, scanId: string)
      requires db.Valid()
      modifies db
      ensures db.Valid()
      ensures db.State() == ApplySaves(old(db.State()), accountId, scanId, Saves(control, findings))
    {
      ghost var s := db.State();
      if findings.Raise? {
        SaveResult(accountId, control, None, Error, scanId, Some(findings.error));
        ApplySavesSnoc(s, accountId, scanId, [], Save(control, None, Error, Some(findings.error)));
      } else if findings.value == [] {
        SaveResult(accountId, control, None, Pass, scanId, None);
        ApplySavesSnoc(s, accountId, scanId, [], Save(control, None, Pass, None));
      } else {
        SaveFindings(accountId, control, findings.value, scanId);
      }
    }

    /** The inner loop: one failing row per finding, in order. */
    method SaveFindings(accountId: int, control: ControlKind, fs: seq<ControlFinding>, scanId: string)
      requires db.Valid()
      modifies db
      ensures db.Valid()
      ensures db.State() == ApplySaves(old(db.State()), accountId, scanId, FindingSaves(control, fs))
    {
      ghost var s := db.State();
      for j := 0 to |fs|
        invariant db.Valid()
        invariant db.State() == ApplySaves(s, accountId, scanId, FindingSaves(control, fs[..j]))
      {
        FindingSavesSnoc(control, fs, j);
        ApplySavesSnoc(s, accountId, scanId, FindingSaves(control, fs[..j]), Save(control, Some(fs[j]), fs[j].status, None));
        SaveResult(accountId, control, Some(fs[j]), fs[j].status, scanId, None);
      }
      assert fs[..|fs|] == fs;
    }

    /** The loop of `scan_account`: run each control, count its outcome, save it. */
    method RunControls(accountId: int, controls: seq<ControlKind>, snap: Snapshot, scanId: string)
      returns (c: ScanCounts)
      requires db.Valid()
      modifies db
      ensures db.Valid()
      ensures c == Tally(controls, snap)
      ensures db.State() == ApplySaves(old(db.State()), accountId, scanId, AllSaves(controls, snap))
    {
      ghost var s := db.State();
      c := ScanCounts(0, 0, 0, 0);
      for i := 0 to |controls|
        invariant db.Valid()
        invariant db.State() == ApplySaves(s, accountId, scanId, AllSaves(controls[..i], snap))
        invariant c == Tally(controls[..i], snap)
      {
        PrefixSnoc(controls, i, snap);
        ApplySavesAppend(s, accountId, scanId, AllSaves(controls[..i], snap), Saves(controls[i], Detect(controls[i], snap)));
        c := ScanControl(accountId, controls[i], snap, scanId, c);
      }
      assert controls[..|controls|] == controls;
    }

    /** One pass of the loop: run the control's detect, bump the matching counter, save. */
    method ScanControl(accountId: int, control: ControlKind, snap: Snapshot, scanId: string, c: ScanCounts)
      returns (next: ScanCounts)
      requires db.Valid()
      modifies db
      ensures db.Valid()
      ensures next == Count(c, Detect(control, snap))
      ensures db.State() == ApplySaves(old(db.State()), accountId, scanId, Saves(control, Detect(control, snap)))
    {
      var findings := RunDetect(control, snap);
      if findings.Raise? {
        next := c.(error := c.error + 1);
      } else if findings.value == [] {
        next := c.(pass := c.pass + 1);
      } else {
        next := c.(fail := c.fail + |findings.value|, totalFindings := c.totalFindings + |findings.value|);
      }
      SaveOutcome(accountId, control, findings, scanId);
    }

    /** `scan_account`, with the provider's answers, the Azure client's construction,
        the scan id and the clock supplied by the caller. */
    method Scan(accountId: int, controlIds: Option<seq<string>>, snap: Snapshot, azureClient: Answer<()>,
                scanId: string, now: Timestamp) returns (reply: ScanReply)
      requires db.Valid()
      modifies db
      ensures db.Valid()
      ensures Scanned(db.State(), reply) == ScanAccount(old(db.State()), accountId, controlIds, snap, azureClient, scanId, now)
    {
      if accountId !in db.accounts {
        return ScanRejected(AccountNotFound);
      }
      var account := db.accounts[accountId];
      ghost var s0 := db.State();
      db.SetAccount(accountId, account.(lastScanStatus := Some(InProgress)));
      ghost var s1 := db.State();
      var selection := ProviderControls(account.provider, azureClient);
      if selection.Abort? {
        db.SetAccount(accountId, account.(lastScanStatus := Some(ScanFailed)));
        return ScanRejected(selection.reason);
      }
      var controls := Selected(selection.kinds, controlIds);
      var c := RunControls(accountId, controls, snap, scanId);
      var done := account.(lastScanAt := Some(now), lastScanStatus := Some(ScanSucceeded));
      MarkAfterSaves(s0, accountId, scanId, AllSaves(controls, snap), account.(lastScanStatus := Some(InProgress)), done);
      db.SetAccount(accountId, done);
      db.Append(ScanLog(accountId, account.organizationId, scanId, |controls|, c));
      reply := ScanCompleted(ScanSummary(scanId, accountId, |controls|, c.pass, c.fail, c.error, c.totalFindings));
      ScanAccountRuns(s0, accountId, controlIds, snap, azureClient, scanId, now);
    }
  }

  // ---- Properties of the scan ---------------------------------------------------------

  lemma FindingSavesSnoc(k: ControlKind, fs: seq<ControlFinding>, j: int)
    requires 0 <= j < |fs|
    ensures FindingSaves(k, fs[..j + 1]) == FindingSaves(k, fs[..j]) + [Save(k, Some(fs[j]), fs[j].status, None)]
  {
    assert fs[..j + 1][..j] == fs[..j];
  }

  /** Extending the prefix of controls by one extends the saves and the counters by
      that control's outcome. */
  lemma PrefixSnoc(controls: seq<ControlKind>, i: nat, snap: Snapshot)
    requires i < |controls|
    ensures AllSaves(controls[..i + 1], snap) == AllSaves(controls[..i], snap) + Saves(controls[i], Detect(controls[i], snap))
    ensures Tally(controls[..i + 1], snap) == Count(Tally(controls[..i], snap), Detect(controls[i], snap))
  {
    assert controls[..i + 1][..i] == controls[..i];
  }

  /** The state and reply of a scan that runs its controls, spelled out. */
  lemma ScanAccountRuns(s: DbState, accountId: int, controlIds: Option<seq<string>>, snap: Snapshot,
                        azureClient: Answer<()>, scanId: string, now: Timestamp)
    requires accountId in s.accounts
    requires ProviderControls(s.accounts[accountId].provider, azureClient).Run?
    ensures
      var account := s.accounts[accountId];
      var controls := Selected(ProviderControls(account.provider, azureClient).kinds, controlIds);
      var c := Tally(controls, snap);
      var saved := ApplySaves(s, accountId, scanId, AllSaves(controls, snap));
      var done := account.(lastScanAt := Some(now), lastScanStatus := Some(ScanSucceeded));
      ScanAccount(s, accountId, controlIds, snap, azureClient, scanId, now) ==
        Scanned(saved.(accounts := saved.accounts[accountId := done],
                       audit := saved.audit + [ScanLog(accountId, account.organizationId, scanId, |controls|, c)]),
                ScanCompleted(ScanSummary(scanId, accountId, |controls|, c.pass, c.fail, c.error, c.totalFindings)))
  {
  }

  lemma ApplySavesSnoc(s: DbState, accountId: int, scanId: string, saves: seq<Save>, sv: Save)
    ensures ApplySaves(s, accountId, scanId, saves + [sv]) == RecordSave(ApplySaves(s, accountId, scanId, saves), accountId, scanId, sv)
  {
    ApplySavesAppend(s, accountId, scanId, saves, [sv]);
    MapSeqSingle(sv, RowOf(accountId, scanId));
    MapSeqSingle(sv, LogOf(accountId));
    StoreRowsSingle(ApplySaves(s, accountId, scanId, saves), SaveRow(accountId, scanId, sv), DetectionLog(accountId, sv));
  }

  lemma StoreRowsSingle(s: DbState, row: ControlResult, log: AuditLog)
    ensures StoreRows(s, [row], [log]) == s.(results := s.results[s.nextId := row], nextId := s.nextId + 1, audit := s.audit + [log])
  {
    assert [row][..0] == [];
    assert Table(s.results, s.nextId, [row]) == Table(s.results, s.nextId, [])[s.nextId := row];
  }

  lemma ApplySavesAppend(s: DbState, accountId: int, scanId: string, a: seq<Save>, b: seq<Save>)
    ensures ApplySaves(s, accountId, scanId, a + b) == ApplySaves(ApplySaves(s, accountId, scanId, a), accountId, scanId, b)
  {
    var rows, logs := RowOf(accountId, scanId), LogOf(accountId);
    MapSeqAppend(a, b, rows);
    MapSeqAppend(a, b, logs);
    StoreRowsAppend(s, MapSeq(a, rows), MapSeq(b, rows), MapSeq(a, logs), MapSeq(b, logs));
  }

  lemma StoreRowsAppend(s: DbState, r1: seq<ControlResult>, r2: seq<ControlResult>, l1: seq<AuditLog>, l2: seq<AuditLog>)
    ensures StoreRows(s, r1 + r2, l1 + l2) == StoreRows(StoreRows(s, r1, l1), r2, l2)
  {
    TableAppend(s.results, s.nextId, r1, r2);
    assert s.audit + (l1 + l2) == (s.audit + l1) + l2;
  }

  /** Saving never looks at or touches the accounts. */
  lemma ApplySavesAccounts(s: DbState, accountId: int, scanId: string, saves: seq<Save>,
                           accounts: map<int, CloudAccount>)
    ensures ApplySaves(s, accountId, scanId, saves).accounts == s.accounts
    ensures ApplySaves(s.(accounts := accounts), accountId, scanId, saves) ==
            ApplySaves(s, accountId, scanId, saves).(accounts := accounts)
  {
  }

  /** Marking the account in progress before the saves and done after them is the same as
      marking it done after the saves alone. */
  lemma MarkAfterSaves(s: DbState, accountId: int, scanId: string, saves: seq<Save>,
                       pending: CloudAccount, done: CloudAccount)
    ensures var a := ApplySaves(s.(accounts := s.accounts[accountId := pending]), accountId, scanId, saves);
      var saved := ApplySaves(s, accountId, scanId, saves);
      a.(accounts := a.accounts[accountId := done]) == saved.(accounts := saved.accounts[accountId := done])
  {
    ApplySavesAccounts(s, accountId, scanId, saves, s.accounts[accountId := pending]);
    assert s.accounts[accountId := pending][accountId := done] == s.accounts[accountId := done];
  }

  /** The number of saves with status `st`. */
  function CountSaves(saves: seq<Save>, st: Status): nat {
    if saves == [] then 0
    else CountSaves(saves[..|saves| - 1], st) + (if saves[|saves| - 1].status == st then 1 else 0)
  }

  lemma {:induction false} CountSavesAppend(a: seq<Save>, b: seq<Save>, st: Status)
    ensures CountSaves(a + b, st) == CountSaves(a, st) + CountSaves(b, st)
  {
    if b == [] {
      assert a + b == a;
    } else {
      assert (a + b)[..|a + b| - 1] == a + b[..|b| - 1];
      CountSavesAppend(a, b[..|b| - 1], st);
    }
  }

  /** Findings that all failed are saved as that many FAIL rows and nothing else. */
  lemma {:induction false} FindingSavesAllFail(k: ControlKind, findings: seq<ControlFinding>)
    requires forall f :: f in findings ==> f.status == Fail
    ensures |FindingSaves(k, findings)| == |findings|
    ensures CountSaves(FindingSaves(k, findings), Fail) == |findings|
    ensures CountSaves(FindingSaves(k, findings), Pass) == 0 && CountSaves(FindingSaves(k, findings), Error) == 0
  {
    if findings != [] {
      var init := findings[..|findings| - 1];
      assert forall f :: f in init ==> f in findings;
      FindingSavesAllFail(k, init);
      assert findings[|findings| - 1] in findings;
      var fs := FindingSaves(k, findings);
      assert fs[..|fs| - 1] == FindingSaves(k, init);
    }
  }

  /** What one control's outcome saves agrees with how it moves the counters. */
  lemma SavesMatchCount(k: ControlKind, snap: Snapshot, c: ScanCounts)
    ensures var sv := Saves(k, Detect(k, snap)); var c' := Count(c, Detect(k, snap));
      && |sv| == (c'.pass - c.pass) + (c'.fail - c.fail) + (c'.error - c.error)
      && CountSaves(sv, Pass) == c'.pass - c.pass
      && CountSaves(sv, Fail) == c'.fail - c.fail
      && CountSaves(sv, Error) == c'.error - c.error
      && c'.pass >= c.pass && c'.fail >= c.fail && c'.error >= c.error
      && c'.totalFindings - c.totalFindings == c'.fail - c.fail
      && (c'.pass - c.pass) + (c'.error - c.error) <= 1
  {
    var outcome := Detect(k, snap);
    if outcome.Ok? && outcome.value != [] {
      DetectReportsOnlyFailures(k, snap);
      FindingSavesAllFail(k, outcome.value);
    }
  }

  /** The scan's summary counts what it stores: as many rows as PASS, FAIL and ERROR
      together, each status exactly as often as its counter says; `fail` equals
      `total_findings`; and at most one PASS or ERROR row per control. */
  lemma {:induction false} TallyMatchesSaves(controls: seq<ControlKind>, snap: Snapshot)
    ensures var t := Tally(controls, snap); var sv := AllSaves(controls, snap);
      && |sv| == t.pass + t.fail + t.error
      && CountSaves(sv, Pass) == t.pass
      && CountSaves(sv, Fail) == t.fail
      && CountSaves(sv, Error) == t.error
      && t.fail == t.totalFindings
      && t.pass + t.error <= |controls|
  {
    if controls != [] {
      var init := controls[..|controls| - 1];
      var last := controls[|controls| - 1];
      TallyMatchesSaves(init, snap);
      SavesMatchCount(last, snap, Tally(init, snap));
      var a := AllSaves(init, snap);
      var b := Saves(last, Detect(last, snap));
      CountSavesAppend(a, b, Pass);
      CountSavesAppend(a, b, Fail);
      CountSavesAppend(a, b, Error);
    }
  }

  /** The detection entries of a list of saves, in order. */
  /** Saving appends to the audit log: one detection entry per save, after the entries
      already there, and moves the next id past the new rows. */
  lemma ApplySavesAudit(s: DbState, accountId: int, scanId: string, saves: seq<Save>)
    ensures var r := ApplySaves(s, accountId, scanId, saves);
      && r.nextId == s.nextId + |saves|
      && |r.audit| == |s.audit| + |saves| && r.audit[..|s.audit|] == s.audit
      && (forall i :: 0 <= i < |saves| ==> r.audit[|s.audit| + i] == DetectionLog(accountId, saves[i]))
  {
    MapSeqAt(saves, RowOf(accountId, scanId));
    MapSeqAt(saves, LogOf(accountId));
    var r := ApplySaves(s, accountId, scanId, saves);
    assert r.audit[..|s.audit|] == s.audit;
  }

  /** `base` with `rows` added under consecutive ids starting at `from`. */
  function Table<V>(base: map<int, V>, from: int, rows: seq<V>): map<int, V> {
    if rows == [] then base
    else Table(base, from, rows[..|rows| - 1])[from + |rows| - 1 := rows[|rows| - 1]]
  }

  lemma {:induction false} TableAt<V>(base: map<int, V>, from: int, rows: seq<V>, i: int)
    requires 0 <= i < |rows|
    ensures from + i in Table(base, from, rows) && Table(base, from, rows)[from + i] == rows[i]
  {
    var init := rows[..|rows| - 1];
    if i < |init| {
      TableAt(base, from, init, i);
    }
  }

  /** The table keeps the base's entries, holds each row under its id, and nothing else. */
  lemma {:induction false} TableFacts<V>(base: map<int, V>, from: int, rows: seq<V>)
    requires forall id :: id in base ==> id < from
    ensures forall id :: id in base ==> id in Table(base, from, rows) && Table(base, from, rows)[id] == base[id]
    ensures forall id :: from <= id < from + |rows| ==>
              id in Table(base, from, rows) && Table(base, from, rows)[id] == rows[id - from]
    ensures forall id :: id in Table(base, from, rows) ==> id in base || from <= id < from + |rows|
  {
    forall id | from <= id < from + |rows|
      ensures id in Table(base, from, rows) && Table(base, from, rows)[id] == rows[id - from]
    {
      TableAt(base, from, rows, id - from);
    }
    if rows != [] {
      TableFacts(base, from, rows[..|rows| - 1]);
    }
  }

  lemma {:induction false} TableAppend<V>(base: map<int, V>, from: int, r1: seq<V>, r2: seq<V>)
    ensures Table(base, from, r1 + r2) == Table(Table(base, from, r1), from + |r1|, r2)
  {
    if r2 == [] {
      assert r1 + r2 == r1;
    } else {
      var init := r2[..|r2| - 1];
      assert (r1 + r2)[..|r1 + r2| - 1] == r1 + init;
      TableAppend(base, from, r1, init);
    }
  }

  /** `[f(x) for x in xs]`. */
  function MapSeq<A, B>(xs: seq<A>, f: A -> B): seq<B> {
    if xs == [] then [] else MapSeq(xs[..|xs| - 1], f) + [f(xs[|xs| - 1])]
  }

  lemma {:induction false} MapSeqAt<A, B>(xs: seq<A>, f: A -> B)
    ensures |MapSeq(xs, f)| == |xs|
    ensures forall i :: 0 <= i < |xs| ==> MapSeq(xs, f)[i] == f(xs[i])
  {
    if xs != [] {
      var init := xs[..|xs| - 1];
      MapSeqAt(init, f);
      assert forall i :: 0 <= i < |init| ==> init[i] == xs[i];
    }
  }

  lemma MapSeqSingle<A, B>(x: A, f: A -> B)
    ensures MapSeq([x], f) == [f(x)]
  {
    assert [x][..0] == [];
  }

  lemma {:induction false} MapSeqAppend<A, B>(xs: seq<A>, ys: seq<A>, f: A -> B)
    ensures MapSeq(xs + ys, f) == MapSeq(xs, f) + MapSeq(ys, f)
  {
    if ys == [] {
      assert xs + ys == xs;
    } else {
      var init := ys[..|ys| - 1];
      assert (xs + ys)[..|xs + ys| - 1] == xs + init;
      MapSeqAppend(xs, init, f);
    }
  }

  /** The row a save stores, and the detection entry it logs. */
  function RowOf(accountId: int, scanId: string): Save -> ControlResult {
    sv => SaveRow(accountId, scanId, sv)
  }

  function LogOf(accountId: int): Save -> AuditLog {
    sv => DetectionLog(accountId, sv)
  }

  /** Saving adds each new row at its own fresh id and leaves the rows already stored
      untouched; the store stays valid. */
  lemma ApplySavesRows(s: DbState, accountId: int, scanId: string, saves: seq<Save>)
    requires Valid(s)
    ensures var r := ApplySaves(s, accountId, scanId, saves);
      && Valid(r)
      && (forall id :: id in s.results ==> id in r.results && r.results[id] == s.results[id])
      && (forall id :: s.nextId <= id < s.nextId + |saves| ==>
            id in r.results && r.results[id] == SaveRow(accountId, scanId, saves[id - s.nextId]))
      && (forall id :: id in r.results ==> id in s.results || s.nextId <= id < s.nextId + |saves|)
  {
    MapSeqAt(saves, RowOf(accountId, scanId));
    TableFacts(s.results, s.nextId, MapSeq(saves, RowOf(accountId, scanId)));
  }

  /** A scan that never gets to run leaves the results and the audit log alone: an
      unknown account changes nothing at all, a provider without controls only marks
      the account's scan failed. */
  lemma ScanRejectedChangesNothingElse(s: DbState, accountId: int, controlIds: Option<seq<string>>, snap: Snapshot,
                                       azureClient: Answer<()>, scanId: string, now: Timestamp)
    ensures var r := ScanAccount(s, accountId, controlIds, snap, azureClient, scanId, now);
      r.reply.ScanRejected? ==>
        && r.state.results == s.results && r.state.nextId == s.nextId && r.state.audit == s.audit
        && (accountId !in s.accounts ==> r.state == s && r.reply.error == AccountNotFound)
        && (accountId in s.accounts ==>
              r.state.accounts == s.accounts[accountId := s.accounts[accountId].(lastScanStatus := Some(ScanFailed))])
  {
  }

  /** A scan of an account whose provider gives it controls completes, runs the
      (possibly narrowed) provider control set and reports counters that match the rows
      it stores: one per save, FAIL rows counted as findings. */
  lemma ScanCompletedCounts(s: DbState, accountId: int, controlIds: Option<seq<string>>, snap: Snapshot,
                            azureClient: Answer<()>, scanId: string, now: Timestamp)
    requires accountId in s.accounts && ProviderControls(s.accounts[accountId].provider, azureClient).Run?
    ensures var r := ScanAccount(s, accountId, controlIds, snap, azureClient, scanId, now);
      var controls := Selected(ProviderControls(s.accounts[accountId].provider, azureClient).kinds, controlIds);
      var saves := AllSaves(controls, snap);
      && r.reply.ScanCompleted?
      && r.reply.summary.totalControls == |controls|
      && |saves| == r.reply.summary.pass + r.reply.summary.fail + r.reply.summary.error
      && CountSaves(saves, Fail) == r.reply.summary.fail == r.reply.summary.totalFindings
      && CountSaves(saves, Pass) == r.reply.summary.pass
      && CountSaves(saves, Error) == r.reply.summary.error
  {
    var controls := Selected(ProviderControls(s.accounts[accountId].provider, azureClient).kinds, controlIds);
    var c := Tally(controls, snap);
    ScanAccountRuns(s, accountId, controlIds, snap, azureClient, scanId, now);
    var r := ScanAccount(s, accountId, controlIds, snap, azureClient, scanId, now);
    assert r.reply == ScanCompleted(ScanSummary(scanId, accountId, |controls|, c.pass, c.fail, c.error, c.totalFindings));
    TallyMatchesSaves(controls, snap);
  }

  /** A scan of an account whose provider gives it controls adds a row per save after
      every row already stored, appends their detection entries and then the scan entry, and marks the
      account scanned at `now`. */
  lemma ScanCompletedStore(s: DbState, accountId: int, controlIds: Option<seq<string>>, snap: Snapshot,
                           azureClient: Answer<()>, scanId: string, now: Timestamp)
    requires Valid(s) && accountId in s.accounts
    requires ProviderControls(s.accounts[accountId].provider, azureClient).Run?
    ensures var r := ScanAccount(s, accountId, controlIds, snap, azureClient, scanId, now);
      var saves := AllSaves(Selected(ProviderControls(s.accounts[accountId].provider, azureClient).kinds, controlIds), snap);
      && Valid(r.state)
      && r.state.nextId == s.nextId + |saves|
      && (forall id :: id in s.results ==> id in r.state.results && r.state.results[id] == s.results[id])
      && (forall id :: s.nextId <= id < s.nextId + |saves| ==>
            id in r.state.results && r.state.results[id] == SaveRow(accountId, scanId, saves[id - s.nextId]))
      && |r.state.audit| == |s.audit| + |saves| + 1 && r.state.audit[..|s.audit|] == s.audit
      && r.state.audit[|r.state.audit| - 1].eventType == Scan
      && r.state.accounts[accountId].lastScanStatus == Some(ScanSucceeded)
      && r.state.accounts[accountId].lastScanAt == Some(now)
  {
    var controls := Selected(ProviderControls(s.accounts[accountId].provider, azureClient).kinds, controlIds);
    var saves := AllSaves(controls, snap);
    var account := s.accounts[accountId];
    var saved := ApplySaves(s, accountId, scanId, saves);
    var log := ScanLog(accountId, account.organizationId, scanId, |controls|, Tally(controls, snap));
    ScanAccountRuns(s, accountId, controlIds, snap, azureClient, scanId, now);
    var r := ScanAccount(s, accountId, controlIds, snap, azureClient, scanId, now);
    assert r.state.results == saved.results && r.state.nextId == saved.nextId;
    assert r.state.audit == saved.audit + [log];
    assert r.state.accounts[accountId] == account.(lastScanAt := Some(now), lastScanStatus := Some(ScanSucceeded));
    ApplySavesAudit(s, accountId, scanId, saves);
    ApplySavesRows(s, accountId, scanId, saves);
    assert r.state.audit[..|s.audit|] == saved.audit[..|s.audit|];
  }

  /** Every row a scan stores carries the scan's id, the account, and the severity of a
      selected control with the row's control id; a row without a finding (PASS or
      ERROR) has no resource and empty evidence. A PASS row comes from a control that
      found nothing, an ERROR row from a control that raised, and it keeps that
      exception's message (which SaveRowDetails puts under "error"). */
  lemma {:induction false} SavedRowsDescribeTheirControl(controls: seq<ControlKind>, snap: Snapshot, accountId: int,
                                                         scanId: string, i: nat)
    requires i < |AllSaves(controls, snap)|
    ensures var sv := AllSaves(controls, snap)[i]; var row := SaveRow(accountId, scanId, sv);
      && sv.kind in controls
      && row.controlId == ControlId(sv.kind) && row.riskLevel == SeverityOf(sv.kind)
      && row.cloudAccountId == accountId && row.scanId == scanId
      && (row.status == Pass || row.status == Error <==> sv.finding.None?)
      && (sv.finding.None? ==> row.resourceId == None && row.evidenceBefore == map[])
      && (row.status == Pass ==> Detect(sv.kind, snap) == Ok([]))
      && (row.status == Error ==> Detect(sv.kind, snap).Raise? && sv.errorMsg == Some(Detect(sv.kind, snap).error))
  {
    var init := controls[..|controls| - 1];
    var last := controls[|controls| - 1];
    var a := AllSaves(init, snap);
    if i < |a| {
      SavedRowsDescribeTheirControl(init, snap, accountId, scanId, i);
      assert AllSaves(controls, snap)[i] == a[i];
    } else {
      var outcome := Detect(last, snap);
      var sv := AllSaves(controls, snap)[i];
      assert sv == Saves(last, outcome)[i - |a|];
      if outcome.Ok? && outcome.value != [] {
        DetectReportsOnlyFailures(last, snap);
        FindingSavesShape(last, outcome.value, i - |a|);
      }
    }
  }

  lemma {:induction false} FindingSavesShape(k: ControlKind, findings: seq<ControlFinding>, j: nat)
    requires j < |FindingSaves(k, findings)|
    ensures var sv := FindingSaves(k, findings)[j];
      sv.kind == k && sv.finding.Some? && sv.finding.value in findings && sv.status == sv.finding.value.status
  {
    var init := findings[..|findings| - 1];
    if j < |FindingSaves(k, init)| {
      FindingSavesShape(k, init, j);
    }
  }
}
