/** The twenty AWS controls: their metadata, their `detect` checks over the provider's
    answers, the two remediations S3 controls provide, and the `AWS_CONTROLS` registry
    (backend/app/controls/aws_controls.py). */
module AwsControls {
  import opened Wrappers
  import opened Json
  import opened Base
  import opened Provider

  /** One variant per control class, in registry order. */
  datatype ControlKind =
    | IamMfa | S3PublicAccess | S3Encryption | S3Versioning | S3Logging | CloudTrail
    | Ec2PublicIp | Ec2EncryptedVolumes | SecurityGroupPorts | KmsRotation
    | IamPasswordPolicy | RdsEncryption | RdsPublicAccess | RdsBackup | VpcFlowLogs
    | ElbLogs | ConfigRecorder | GuardDuty | SnsEncryption | LambdaVpc

  // ---- Metadata -----------------------------------------------------------------

  function ControlId(k: ControlKind): string {
    match k
    case IamMfa => "AWS-IAM-001"
    case S3PublicAccess => "AWS-S3-001"
    case S3Encryption => "AWS-S3-002"
    case S3Versioning => "AWS-S3-003"
    case S3Logging => "AWS-S3-004"
    case CloudTrail => "AWS-CT-001"
    case Ec2PublicIp => "AWS-EC2-001"
    case Ec2EncryptedVolumes => "AWS-EC2-002"
    case SecurityGroupPorts => "AWS-SG-001"
    case KmsRotation => "AWS-KMS-001"
    case IamPasswordPolicy => "AWS-IAM-003"
    case RdsEncryption => "AWS-RDS-001"
    case RdsPublicAccess => "AWS-RDS-002"
    case RdsBackup => "AWS-RDS-003"
    case VpcFlowLogs => "AWS-VPC-001"
    case ElbLogs => "AWS-ELB-001"
    case ConfigRecorder => "AWS-CONFIG-001"
    case GuardDuty => "AWS-GD-001"
    case SnsEncryption => "AWS-SNS-001"
    case LambdaVpc => "AWS-LAMBDA-001"
  }

  /** The registered controls, `AWS_CONTROLS`, in their declared order. */
  const Registry: seq<ControlKind> :=
    [IamMfa, S3PublicAccess, S3Encryption, S3Versioning, S3Logging, CloudTrail,
     Ec2PublicIp, Ec2EncryptedVolumes, SecurityGroupPorts, KmsRotation, IamPasswordPolicy,
     RdsEncryption, RdsPublicAccess, RdsBackup, VpcFlowLogs, ElbLogs, ConfigRecorder,
     GuardDuty, SnsEncryption, LambdaVpc]

  lemma RegistryIdsDistinct()
    ensures forall i, j :: 0 <= i < j < |Registry| ==> ControlId(Registry[i]) != ControlId(Registry[j])
  {
  }

  function Title(k: ControlKind): string {
    match k
    case IamMfa => "MFA Required"
    case S3PublicAccess => "Block Public Access"
    case S3Encryption => "S3 Encryption"
    case S3Versioning => "S3 Versioning"
    case S3Logging => "S3 Access Logs"
    case CloudTrail => "CloudTrail Enabled"
    case Ec2PublicIp => "No Public IPs"
    case Ec2EncryptedVolumes => "EBS Encryption"
    case SecurityGroupPorts => "No Open Ports"
    case KmsRotation => "KMS Key Rotation"
    case IamPasswordPolicy => "Password Policy"
    case RdsEncryption => "RDS Encryption"
    case RdsPublicAccess => "RDS Not Public"
    case RdsBackup => "RDS Backup"
    case VpcFlowLogs => "VPC Flow Logs"
    case ElbLogs => "ELB Access Logs"
    case ConfigRecorder => "AWS Config Enabled"
    case GuardDuty => "GuardDuty Enabled"
    case SnsEncryption => "SNS Encryption"
    case LambdaVpc => "Lambda in VPC"
  }

  function SeverityOf(k: ControlKind): Severity {
    match k
    case IamMfa => Critical
    case S3PublicAccess => Critical
    case S3Encryption => High
    case S3Versioning => Medium
    case S3Logging => Medium
    case CloudTrail => Critical
    case Ec2PublicIp => High
    case Ec2EncryptedVolumes => High
    case SecurityGroupPorts => Critical
    case KmsRotation => Medium
    case IamPasswordPolicy => High
    case RdsEncryption => High
    case RdsPublicAccess => Critical
    case RdsBackup => Medium
    case VpcFlowLogs => Medium
    case ElbLogs => Medium
    case ConfigRecorder => Medium
    case GuardDuty => High
    case SnsEncryption => Medium
    case LambdaVpc => Low
  }

  function Category(k: ControlKind): string {
    match k
    case IamMfa => "IAM"
    case S3PublicAccess => "Storage"
    case S3Encryption => "Encryption"
    case S3Versioning => "Backup"
    case S3Logging => "Logging"
    case CloudTrail => "Logging"
    case Ec2PublicIp => "Network"
    case Ec2EncryptedVolumes => "Encryption"
    case SecurityGroupPorts => "Network"
    case KmsRotation => "Encryption"
    case IamPasswordPolicy => "IAM"
    case RdsEncryption => "Encryption"
    case RdsPublicAccess => "Network"
    case RdsBackup => "Backup"
    case VpcFlowLogs => "Logging"
    case ElbLogs => "Logging"
    case ConfigRecorder => "Logging"
    case GuardDuty => "ThreatDetection"
    case SnsEncryption => "Encryption"
    case LambdaVpc => "Network"
  }

  function Description(k: ControlKind): string {
    match k
    case IamMfa => "MFA must be enabled"
    case S3PublicAccess => "S3 buckets must block public access"
    case S3Encryption => "S3 must have default encryption"
    case S3Versioning => "S3 versioning for recovery"
    case S3Logging => "S3 access logging required"
    case CloudTrail => "CloudTrail must be enabled"
    case Ec2PublicIp => "EC2 should not have public IPs"
    case Ec2EncryptedVolumes => "EBS volumes must be encrypted"
    case SecurityGroupPorts => "Block 0.0.0.0/0 on sensitive ports"
    case KmsRotation => "KMS keys must auto-rotate"
    case IamPasswordPolicy => "Strong password policy required"
    case RdsEncryption => "RDS must be encrypted"
    case RdsPublicAccess => "RDS must not be public"
    case RdsBackup => "RDS automated backups"
    case VpcFlowLogs => "VPC flow logs required"
    case ElbLogs => "ELB access logs required"
    case ConfigRecorder => "AWS Config must be enabled"
    case GuardDuty => "GuardDuty must be enabled"
    case SnsEncryption => "SNS topics must be encrypted"
    case LambdaVpc => "Lambda should run in VPC"
  }

  /** The framework clauses each control maps to. */
  function Frameworks(k: ControlKind): map<string, seq<string>> {
    match k
    case IamMfa => map["ISO27001" := ["A.9.2.1"], "SOC2" := ["CC6.1"]]
    case S3PublicAccess => map["ISO27001" := ["A.13.1.3"], "GDPR" := ["Art.32"]]
    case S3Encryption => map["ISO27001" := ["A.10.1.1"], "SOC2" := ["CC6.1"]]
    case S3Versioning => map["ISO27001" := ["A.12.3.1"], "SOC2" := ["A1.2"]]
    case S3Logging => map["ISO27001" := ["A.12.4.1"], "SOC2" := ["CC7.2"]]
    case CloudTrail => map["ISO27001" := ["A.12.4.1"], "SOC2" := ["CC7.2"]]
    case Ec2PublicIp => map["ISO27001" := ["A.13.1.1"], "SOC2" := ["CC6.6"]]
    case Ec2EncryptedVolumes => map["ISO27001" := ["A.10.1.1"], "GDPR" := ["Art.32"]]
    case SecurityGroupPorts => map["ISO27001" := ["A.13.1.1"], "SOC2" := ["CC6.6"]]
    case KmsRotation => map["ISO27001" := ["A.10.1.2"], "SOC2" := ["CC6.1"]]
    case IamPasswordPolicy => map["ISO27001" := ["A.9.4.3"], "SOC2" := ["CC6.1"]]
    case RdsEncryption => map["ISO27001" := ["A.10.1.1"], "GDPR" := ["Art.32"]]
    case RdsPublicAccess => map["ISO27001" := ["A.13.1.3"], "SOC2" := ["CC6.6"]]
    case RdsBackup => map["ISO27001" := ["A.12.3.1"], "SOC2" := ["A1.2"]]
    case VpcFlowLogs => map["ISO27001" := ["A.12.4.1"], "SOC2" := ["CC7.2"]]
    case ElbLogs => map["ISO27001" := ["A.12.4.1"], "SOC2" := ["CC7.2"]]
    case ConfigRecorder => map["ISO27001" := ["A.12.4.1"], "SOC2" := ["CC7.2"]]
    case GuardDuty => map["ISO27001" := ["A.12.6.1"], "SOC2" := ["CC7.2"]]
    case SnsEncryption => map["ISO27001" := ["A.10.1.1"], "SOC2" := ["CC6.1"]]
    case LambdaVpc => map["ISO27001" := ["A.13.1.1"], "SOC2" := ["CC6.6"]]
  }

  // ---- Registry lookup ----------------------------------------------------------

  /** The first control of `controls` whose id is `id` (Python's `next(..., None)`). */
  function FirstMatch(controls: seq<ControlKind>, id: string): Option<ControlKind> {
    if controls == [] then None
    else if ControlId(controls[0]) == id then Some(controls[0])
    else FirstMatch(controls[1..], id)
  }

  /** How both engines find a finding's control: the first registry entry with its id. */
  function FindControl(id: string): Option<ControlKind> {
    FirstMatch(Registry, id)
  }

  lemma RegistryComplete(k: ControlKind)
    ensures k in Registry
  {
  }

  /** In a list of controls with distinct ids, first-match lookup finds a control
      exactly when that control is in the list and carries the id. */
  lemma {:induction false} FirstMatchUnique(controls: seq<ControlKind>, id: string, k: ControlKind)
    requires forall i, j :: 0 <= i < j < |controls| ==> ControlId(controls[i]) != ControlId(controls[j])
    ensures FirstMatch(controls, id) == Some(k) <==> (k in controls && ControlId(k) == id)
  {
    if controls != [] {
      var tail := controls[1..];
      assert forall i, j :: 0 <= i < j < |tail| ==> ControlId(tail[i]) != ControlId(tail[j]) by {
        forall i, j | 0 <= i < j < |tail| ensures ControlId(tail[i]) != ControlId(tail[j]) {
          assert tail[i] == controls[i + 1] && tail[j] == controls[j + 1];
        }
      }
      FirstMatchUnique(tail, id, k);
      if k in controls && ControlId(k) == id && ControlId(controls[0]) != id {
        var n :| 0 <= n < |controls| && controls[n] == k;
        assert n != 0;
        assert tail[n - 1] == k;
      }
    }
  }

  /** Lookup by id is unambiguous: it finds a control exactly when that control has the
      id, and then every registered control with the id is that one. */
  lemma FindControlExact(id: string, k: ControlKind)
    ensures FindControl(id) == Some(k) <==> ControlId(k) == id
  {
    RegistryIdsDistinct();
    RegistryComplete(k);
    FirstMatchUnique(Registry, id, k);
  }

  // ---- Combinators over provider answers ----------------------------------------

  /** The findings a check builds by walking `items` in order, each item contributing
      the findings `step` gives it; the first item whose step raises ends the walk with
      that exception. */
  function Collect<T>(items: seq<T>, step: T -> Answer<seq<ControlFinding>>): Answer<seq<ControlFinding>>
  {
    if items == [] then Ok([])
    else
      match Collect(items[..|items| - 1], step)
      case Raise(e) => Raise(e)
      case Ok(found) =>
        match step(items[|items| - 1])
        case Raise(e) => Raise(e)
        case Ok(more) => Ok(found + more)
  }

  /** A listing call followed by the walk over what it listed. */
  function ForEach<T>(listing: Answer<seq<T>>, step: T -> Answer<seq<ControlFinding>>): Answer<seq<ControlFinding>>
  {
    match listing
    case Raise(e) => Raise(e)
    case Ok(items) => Collect(items, step)
  }

  /** A detect whose whole body sits in `try: ... except: return []`. */
  function Swallow(a: Answer<seq<ControlFinding>>): (r: Answer<seq<ControlFinding>>)
    ensures r.Ok?
    ensures a.Ok? ==> r == a
    ensures a.Raise? ==> r == Ok([])
  {
    if a.Raise? then Ok([]) else a
  }

  /** One more item extends the walk by that item's step. */
  lemma CollectSnoc<T>(items: seq<T>, step: T -> Answer<seq<ControlFinding>>, i: nat)
    requires i < |items|
    ensures Collect(items[..i + 1], step) ==
      match Collect(items[..i], step)
      case Raise(e) => Raise(e)
      case Ok(found) =>
        match step(items[i])
        case Raise(e) => Raise(e)
        case Ok(more) => Ok(found + more)
  {
    assert items[..i + 1][..i] == items[..i];
  }

  /** Once a prefix of the walk has raised, the whole walk raises the same exception. */
  lemma {:induction false} CollectRaiseStays<T>(items: seq<T>, step: T -> Answer<seq<ControlFinding>>, i: nat, e: string)
    requires i <= |items| && Collect(items[..i], step) == Raise(e)
    ensures Collect(items, step) == Raise(e)
    decreases |items| - i
  {
    if i < |items| {
      CollectSnoc(items, step, i);
      CollectRaiseStays(items, step, i + 1, e);
    } else {
      assert items[..i] == items;
    }
  }

  /** The walk raises only when some item's step raises, and then it raises the first
      such exception. */
  lemma {:induction false} CollectOkIff<T>(items: seq<T>, step: T -> Answer<seq<ControlFinding>>)
    ensures Collect(items, step).Ok? <==> forall i :: 0 <= i < |items| ==> step(items[i]).Ok?
    ensures Collect(items, step).Raise? ==>
      exists i :: 0 <= i < |items| && step(items[i]) == Raise(Collect(items, step).error) &&
                  (forall j :: 0 <= j < i ==> step(items[j]).Ok?)
  {
    if items != [] {
      var init := items[..|items| - 1];
      CollectOkIff(init, step);
      assert forall i :: 0 <= i < |init| ==> init[i] == items[i];
    }
  }

  /** When the walk succeeds, a finding is in its result exactly when one item's step
      produced it. */
  lemma {:induction false} CollectMembers<T>(items: seq<T>, step: T -> Answer<seq<ControlFinding>>, f: ControlFinding)
    requires Collect(items, step).Ok?
    ensures f in Collect(items, step).value <==>
      exists i :: 0 <= i < |items| && step(items[i]).Ok? && f in step(items[i]).value
  {
    if items != [] {
      var init := items[..|items| - 1];
      CollectMembers(init, step, f);
      assert forall i :: 0 <= i < |init| ==> init[i] == items[i];
    }
  }

  /** The list comprehension `[finding(x) for x in items if flagged(x)]`. */
  function Filtered<T>(items: seq<T>, flagged: T -> bool, finding: T -> ControlFinding): seq<ControlFinding> {
    if items == [] then []
    else
      var last := items[|items| - 1];
      Filtered(items[..|items| - 1], flagged, finding) + (if flagged(last) then [finding(last)] else [])
  }

  /** A comprehension holds one finding per flagged item, in order, and nothing else. */
  lemma {:induction false} FilteredMembers<T>(items: seq<T>, flagged: T -> bool, finding: T -> ControlFinding,
                                              f: ControlFinding)
    ensures f in Filtered(items, flagged, finding) <==>
      exists i :: 0 <= i < |items| && flagged(items[i]) && f == finding(items[i])
    ensures |Filtered(items, flagged, finding)| <= |items|
    ensures (forall i :: 0 <= i < |items| ==> !flagged(items[i])) ==> Filtered(items, flagged, finding) == []
  {
    if items != [] {
      var init := items[..|items| - 1];
      FilteredMembers(init, flagged, finding, f);
      assert forall i :: 0 <= i < |init| ==> init[i] == items[i];
    }
  }

  /** A walk whose every step gives the item's finding when it is flagged and nothing
      otherwise is the comprehension. */
  lemma {:induction false} CollectFiltered<T>(items: seq<T>, step: T -> Answer<seq<ControlFinding>>,
                                              flagged: T -> bool, finding: T -> ControlFinding)
    requires forall i :: 0 <= i < |items| ==> step(items[i]) == (if flagged(items[i]) then Ok([finding(items[i])]) else Ok([]))
    ensures Collect(items, step) == Ok(Filtered(items, flagged, finding))
  {
    if items != [] {
      var init := items[..|items| - 1];
      assert forall i :: 0 <= i < |init| ==> init[i] == items[i];
      CollectFiltered(init, step, flagged, finding);
    }
  }

  // ---- The detect checks ----------------------------------------------------------

  function BucketArn(name: string): string {
    "arn:aws:s3:::" + name
  }

  /** The finding the S3 checks report for a bucket. */
  function BucketFinding(name: string, canAutoRemediate: bool, risk: RiskTier): ControlFinding {
    ControlFinding(Fail, BucketArn(name), "S3::Bucket", map["bucket" := JStr(name)],
                   map["bucket" := JStr(name)], canAutoRemediate, risk)
  }

  /** IAMMFAControl: a user with no MFA device fails. */
  predicate MfaMissing(u: User) {
    u.mfaDevices == Ok([])
  }

  function MfaFinding(u: User): ControlFinding {
    NewFinding(Fail, u.arn, "IAM::User", map["user" := JStr(u.userName)], map["user" := JStr(u.userName)])
  }

  function MfaStep(u: User): Answer<seq<ControlFinding>> {
    match u.mfaDevices
    case Raise(e) => Raise(e)
    case Ok(devices) => if devices == [] then Ok([MfaFinding(u)]) else Ok([])
  }

  function DetectIamMfa(snap: Snapshot): Answer<seq<ControlFinding>> {
    ForEach(snap.users, MfaStep)
  }

  /** A bucket blocks public access when it has a public-access-block configuration
      whose BlockPublicAcls and BlockPublicPolicy are both true. */
  predicate PublicAccessBlocked(pub: Option<PublicAccessBlock>) {
    && pub.Some?
    && pub.value.configuration.Some?
    && TruthyBool(pub.value.configuration.value.blockPublicAcls)
    && TruthyBool(pub.value.configuration.value.blockPublicPolicy)
  }

  /** S3PublicAccessControl's finding: auto-remediable, high risk. */
  function PublicAccessFinding(name: string): ControlFinding {
    BucketFinding(name, true, HighRisk)
  }

  /** S3PublicAccessControl, per bucket. */
  function PublicAccessStep(b: Bucket): Answer<seq<ControlFinding>> {
    match b.publicAccessBlock
    case Raise(e) => Raise(e)
    case Ok(pub) => if !PublicAccessBlocked(pub) then Ok([PublicAccessFinding(b.name)]) else Ok([])
  }

  function DetectS3PublicAccess(snap: Snapshot): Answer<seq<ControlFinding>> {
    ForEach(snap.buckets, PublicAccessStep)
  }

  /** The finding S3EncryptionControl and S3VersioningControl report: auto-remediable,
      low risk. */
  function LowRiskBucketFinding(b: Bucket): ControlFinding {
    BucketFinding(b.name, true, LowRisk)
  }

  /** S3EncryptionControl: a bucket with no default-encryption configuration fails. */
  predicate Unencrypted(b: Bucket) {
    b.encryption == Ok(None)
  }

  function EncryptionStep(b: Bucket): Answer<seq<ControlFinding>> {
    match b.encryption
    case Raise(e) => Raise(e)
    case Ok(enc) => if enc.None? then Ok([LowRiskBucketFinding(b)]) else Ok([])
  }

  function DetectS3Encryption(snap: Snapshot): Answer<seq<ControlFinding>> {
    ForEach(snap.buckets, EncryptionStep)
  }

  /** S3VersioningControl: versioning missing or its status other than "Enabled" fails. */
  predicate Unversioned(b: Bucket) {
    b.versioning.Ok? && (b.versioning.value.None? || b.versioning.value.value.status != Some("Enabled"))
  }

  function VersioningStep(b: Bucket): Answer<seq<ControlFinding>> {
    match b.versioning
    case Raise(e) => Raise(e)
    case Ok(v) =>
      if v.None? || v.value.status != Some("Enabled") then Ok([LowRiskBucketFinding(b)])
      else Ok([])
  }

  function DetectS3Versioning(snap: Snapshot): Answer<seq<ControlFinding>> {
    ForEach(snap.buckets, VersioningStep)
  }

  /** S3LoggingControl: no logging response, or one without LoggingEnabled, fails. */
  predicate Unlogged(b: Bucket) {
    b.logging.Ok? && (b.logging.value.None? || !b.logging.value.value.hasLoggingEnabled)
  }

  function LoggingFinding(b: Bucket): ControlFinding {
    NewFinding(Fail, BucketArn(b.name), "S3::Bucket", map["bucket" := JStr(b.name)], map["bucket" := JStr(b.name)])
  }

  function LoggingStep(b: Bucket): Answer<seq<ControlFinding>> {
    match b.logging
    case Raise(e) => Raise(e)
    case Ok(l) => if l.None? || !l.value.hasLoggingEnabled then Ok([LoggingFinding(b)]) else Ok([])
  }

  function DetectS3Logging(snap: Snapshot): Answer<seq<ControlFinding>> {
    ForEach(snap.buckets, LoggingStep)
  }

  /** CloudTrailControl's finding when the account has no trail at all. */
  const NoTrailFinding: ControlFinding :=
    ControlFinding(Fail, "aws:cloudtrail", "CloudTrail", map[], map[], false, HighRisk)

  function TrailFinding(t: Trail): ControlFinding {
    ControlFinding(Fail, t.trailArn, "CloudTrail", map["trail" := JStr(t.name)], map["trail" := JStr(t.name)], true, LowRisk)
  }

  /** CloudTrailControl, per trail: no status, or a status that is not logging, fails. */
  function TrailStep(t: Trail): Answer<seq<ControlFinding>> {
    match t.status
    case Raise(e) => Raise(e)
    case Ok(st) => if st.None? || !TruthyBool(st.value.isLogging) then Ok([TrailFinding(t)]) else Ok([])
  }

  function DetectCloudTrail(snap: Snapshot): Answer<seq<ControlFinding>> {
    match snap.trails
    case Raise(e) => Raise(e)
    case Ok(trails) => if trails == [] then Ok([NoTrailFinding]) else Collect(trails, TrailStep)
  }

  /** EC2PublicIPControl: an instance with a non-empty public IP fails. */
  predicate HasPublicIp(i: Instance) {
    TruthyStr(i.publicIpAddress)
  }

  function PublicIpFinding(i: Instance): ControlFinding {
    ControlFinding(Fail, i.instanceId, "EC2::Instance",
                   map["instance" := JStr(i.instanceId), "ip" := OptStr(i.publicIpAddress)],
                   map["instance" := JStr(i.instanceId)], false, HighRisk)
  }

  function PublicIpStep(i: Instance): Answer<seq<ControlFinding>> {
    if HasPublicIp(i) then Ok([PublicIpFinding(i)]) else Ok([])
  }

  function DetectEc2PublicIp(snap: Snapshot): Answer<seq<ControlFinding>> {
    ForEach(snap.instances, PublicIpStep)
  }

  /** EC2EncryptedVolumesControl: a volume not marked encrypted (the default) fails. */
  predicate VolumeUnencrypted(v: Volume) {
    !TruthyBool(v.encrypted)
  }

  function VolumeFinding(v: Volume): ControlFinding {
    ControlFinding(Fail, v.volumeId, "EC2::Volume", map["volume" := JStr(v.volumeId)],
                   map["volume" := JStr(v.volumeId)], false, HighRisk)
  }

  function VolumeStep(v: Volume): Answer<seq<ControlFinding>> {
    if VolumeUnencrypted(v) then Ok([VolumeFinding(v)]) else Ok([])
  }

  function DetectEc2EncryptedVolumes(snap: Snapshot): Answer<seq<ControlFinding>> {
    ForEach(snap.volumes, VolumeStep)
  }

  const WorldCidr: string := "0.0.0.0/0"

  /** An ingress rule with some range whose CidrIp is 0.0.0.0/0. */
  predicate OpenToWorld(p: IpPermission) {
    exists k :: 0 <= k < |p.ipRanges| && p.ipRanges[k].cidrIp == Some(WorldCidr)
  }

  function GroupFinding(groupId: string): ControlFinding {
    ControlFinding(Fail, groupId, "SecurityGroup", map["group" := JStr(groupId)], map["group" := JStr(groupId)], true, HighRisk)
  }

  /** SecurityGroupControl, per group: one finding for every open ingress rule. */
  function OpenPermissionFindings(groupId: string, perms: seq<IpPermission>): seq<ControlFinding> {
    if perms == [] then []
    else OpenPermissionFindings(groupId, perms[..|perms| - 1]) +
         (if OpenToWorld(perms[|perms| - 1]) then [GroupFinding(groupId)] else [])
  }

  function SecurityGroupStep(g: SecurityGroupInfo): Answer<seq<ControlFinding>> {
    Ok(OpenPermissionFindings(g.groupId, g.ipPermissions))
  }

  function DetectSecurityGroupPorts(snap: Snapshot): Answer<seq<ControlFinding>> {
    ForEach(snap.securityGroups, SecurityGroupStep)
  }

  function KeyFinding(keyId: string, meta: KeyMetadata): ControlFinding {
    ControlFinding(Fail, meta.arn, "KMS::Key", map["key" := JStr(keyId)], map["key" := JStr(keyId)], true, LowRisk)
  }

  /** KMSRotationControl, per key: a customer-managed key without rotation fails; the
      rotation status is asked for only when the metadata names a customer key. */
  function KeyStep(k: Key): Answer<seq<ControlFinding>> {
    match k.metadata
    case Raise(e) => Raise(e)
    case Ok(meta) =>
      if meta.Some? && meta.value.keyManager == Some("CUSTOMER") then
        match k.rotationEnabled
        case Raise(e) => Raise(e)
        case Ok(enabled) => if !enabled then Ok([KeyFinding(k.keyId, meta.value)]) else Ok([])
      else Ok([])
  }

  /** A customer-managed key: described, and its KeyManager is "CUSTOMER". */
  predicate CustomerManaged(k: Key) {
    k.metadata.Ok? && k.metadata.value.Some? && k.metadata.value.value.keyManager == Some("CUSTOMER")
  }

  /** Every call KMSRotationControl makes for the key answered: the description, and the
      rotation status when the key is customer-managed. */
  predicate KeyAnswered(k: Key) {
    k.metadata.Ok? && (CustomerManaged(k) ==> k.rotationEnabled.Ok?)
  }

  /** The key fails: customer-managed and rotation reported off. */
  predicate RotationOff(k: Key) {
    CustomerManaged(k) && k.rotationEnabled == Ok(false)
  }

  /** The finding for a key, named by the ARN in its description (only consulted for keys
      that are RotationOff, which are described). */
  function UnrotatedKeyFinding(k: Key): ControlFinding {
    if k.metadata.Ok? && k.metadata.value.Some? then KeyFinding(k.keyId, k.metadata.value.value)
    else KeyFinding(k.keyId, KeyMetadata("", None))
  }

  function DetectKmsRotation(snap: Snapshot): Answer<seq<ControlFinding>> {
    ForEach(snap.keys, KeyStep)
  }

  /** The minimum password length a policy states, 0 when it states none. */
  function MinimumLength(p: PasswordPolicy): int {
    if p.minimumPasswordLength.Some? then p.minimumPasswordLength.value else 0
  }

  /** A policy that requires uppercase characters and at least 14 characters. */
  predicate StrongPasswordPolicy(p: PasswordPolicy) {
    TruthyBool(p.requireUppercaseCharacters) && MinimumLength(p) >= 14
  }

  const WeakPasswordPolicyFinding: ControlFinding :=
    ControlFinding(Fail, "iam:password-policy", "IAM::Policy", map[], map[], true, LowRisk)

  /** IAMPasswordPolicyControl: a weak policy, or any failure fetching it, fails. */
  function DetectIamPasswordPolicy(snap: Snapshot): Answer<seq<ControlFinding>> {
    match snap.passwordPolicy
    case Raise(_) => Ok([WeakPasswordPolicyFinding])
    case Ok(p) => if StrongPasswordPolicy(p) then Ok([]) else Ok([WeakPasswordPolicyFinding])
  }

  /** The finding RDSEncryptionControl and RDSPublicAccessControl report: not
      auto-remediable, high risk. */
  function ExposedDbFinding(db: DbInstance): ControlFinding {
    ControlFinding(Fail, db.dbInstanceArn, "RDS::DB", map["db" := JStr(db.dbInstanceIdentifier)], map[], false, HighRisk)
  }

  /** RDSEncryptionControl, per instance. */
  predicate StorageUnencrypted(db: DbInstance) {
    !TruthyBool(db.storageEncrypted)
  }

  function RdsEncryptionStep(db: DbInstance): Answer<seq<ControlFinding>> {
    if StorageUnencrypted(db) then Ok([ExposedDbFinding(db)]) else Ok([])
  }

  function DetectRdsEncryption(snap: Snapshot): Answer<seq<ControlFinding>> {
    Swallow(ForEach(snap.dbInstances, RdsEncryptionStep))
  }

  /** RDSPublicAccessControl, per instance. */
  predicate PubliclyAccessible(db: DbInstance) {
    TruthyBool(db.publiclyAccessible)
  }

  function RdsPublicStep(db: DbInstance): Answer<seq<ControlFinding>> {
    if PubliclyAccessible(db) then Ok([ExposedDbFinding(db)]) else Ok([])
  }

  function DetectRdsPublicAccess(snap: Snapshot): Answer<seq<ControlFinding>> {
    Swallow(ForEach(snap.dbInstances, RdsPublicStep))
  }

  /** The backup retention an instance states, 0 when it states none. */
  function RetentionDays(db: DbInstance): int {
    if db.backupRetentionPeriod.Some? then db.backupRetentionPeriod.value else 0
  }

  /** RDSBackupControl, per instance: fewer than 7 retention days fails. */
  predicate ShortRetention(db: DbInstance) {
    RetentionDays(db) < 7
  }

  function BackupFinding(db: DbInstance): ControlFinding {
    ControlFinding(Fail, db.dbInstanceArn, "RDS::DB", map["db" := JStr(db.dbInstanceIdentifier)], map[], true, LowRisk)
  }

  function RdsBackupStep(db: DbInstance): Answer<seq<ControlFinding>> {
    if ShortRetention(db) then Ok([BackupFinding(db)]) else Ok([])
  }

  function DetectRdsBackup(snap: Snapshot): Answer<seq<ControlFinding>> {
    Swallow(ForEach(snap.dbInstances, RdsBackupStep))
  }

  function VpcFinding(vpcId: string): ControlFinding {
    NewFinding(Fail, vpcId, "VPC", map["vpc" := JStr(vpcId)], map[])
  }

  /** VPCFlowLogsControl, per VPC: one not among the flow logs' resource ids fails. */
  function VpcStep(logged: seq<string>, vpcId: string): Answer<seq<ControlFinding>> {
    if vpcId !in logged then Ok([VpcFinding(vpcId)]) else Ok([])
  }

  function DetectVpcFlowLogs(snap: Snapshot): Answer<seq<ControlFinding>> {
    Swallow(
      match snap.vpcIds
      case Raise(e) => Raise(e)
      case Ok(vpcs) =>
        match snap.flowLogResourceIds
        case Raise(e) => Raise(e)
        case Ok(logged) => Collect(vpcs, (v: string) => VpcStep(logged, v)))
  }

  /** A load balancer attribute list that switches S3 access logs on. */
  predicate AccessLogsEnabled(attrs: seq<LbAttribute>) {
    exists k :: 0 <= k < |attrs| && attrs[k].key == "access_logs.s3.enabled" && attrs[k].value == "true"
  }

  function LbFinding(lb: LoadBalancer): ControlFinding {
    NewFinding(Fail, lb.loadBalancerArn, "ELB", map["lb" := JStr(lb.loadBalancerName)], map[])
  }

  /** ELBLogsControl, per load balancer. */
  function ElbStep(lb: LoadBalancer): Answer<seq<ControlFinding>> {
    match lb.attributes
    case Raise(e) => Raise(e)
    case Ok(attrs) => if !AccessLogsEnabled(attrs) then Ok([LbFinding(lb)]) else Ok([])
  }

  /** The load balancer's attributes answered and do not enable S3 access logs. */
  predicate LogsDisabled(lb: LoadBalancer) {
    lb.attributes.Ok? && !AccessLogsEnabled(lb.attributes.value)
  }

  function DetectElbLogs(snap: Snapshot): Answer<seq<ControlFinding>> {
    Swallow(ForEach(snap.loadBalancers, ElbStep))
  }

  const NoConfigFinding: ControlFinding := NewFinding(Fail, "aws:config", "Config", map[], map[])

  /** ConfigRecorderControl: no configuration recorder fails. */
  function DetectConfigRecorder(snap: Snapshot): Answer<seq<ControlFinding>> {
    Swallow(
      match snap.configurationRecorders
      case Raise(e) => Raise(e)
      case Ok(recorders) => if recorders == [] then Ok([NoConfigFinding]) else Ok([]))
  }

  const NoDetectorFinding: ControlFinding := NewFinding(Fail, "aws:guardduty", "GuardDuty", map[], map[])

  /** GuardDutyControl: no detector fails. */
  function DetectGuardDuty(snap: Snapshot): Answer<seq<ControlFinding>> {
    Swallow(
      match snap.detectorIds
      case Raise(e) => Raise(e)
      case Ok(detectors) => if detectors == [] then Ok([NoDetectorFinding]) else Ok([]))
  }

  /** SNSEncryptionControl, per topic: no KMS master key fails. */
  predicate TopicUnencrypted(t: Topic) {
    t.kmsMasterKeyId.Ok? && !TruthyStr(t.kmsMasterKeyId.value)
  }

  function TopicFinding(t: Topic): ControlFinding {
    NewFinding(Fail, t.topicArn, "SNS::Topic", map[], map[])
  }

  function TopicStep(t: Topic): Answer<seq<ControlFinding>> {
    match t.kmsMasterKeyId
    case Raise(e) => Raise(e)
    case Ok(keyId) => if !TruthyStr(keyId) then Ok([TopicFinding(t)]) else Ok([])
  }

  function DetectSnsEncryption(snap: Snapshot): Answer<seq<ControlFinding>> {
    Swallow(ForEach(snap.topics, TopicStep))
  }

  /** LambdaVPCControl, per function: no VPC id fails. */
  predicate OutsideVpc(f: LambdaFunction) {
    !TruthyStr(f.vpcId)
  }

  function LambdaFinding(f: LambdaFunction): ControlFinding {
    NewFinding(Fail, f.functionArn, "Lambda", map["func" := JStr(f.functionName)], map[])
  }

  function LambdaStep(f: LambdaFunction): Answer<seq<ControlFinding>> {
    if OutsideVpc(f) then Ok([LambdaFinding(f)]) else Ok([])
  }

  function DetectLambdaVpc(snap: Snapshot): Answer<seq<ControlFinding>> {
    Swallow(ForEach(snap.functions, LambdaStep))
  }

  /** `control.detect()` for every registered control. */
  function Detect(k: ControlKind, snap: Snapshot): Answer<seq<ControlFinding>> {
    match k
    case IamMfa => DetectIamMfa(snap)
    case S3PublicAccess => DetectS3PublicAccess(snap)
    case S3Encryption => DetectS3Encryption(snap)
    case S3Versioning => DetectS3Versioning(snap)
    case S3Logging => DetectS3Logging(snap)
    case CloudTrail => DetectCloudTrail(snap)
    case Ec2PublicIp => DetectEc2PublicIp(snap)
    case Ec2EncryptedVolumes => DetectEc2EncryptedVolumes(snap)
    case SecurityGroupPorts => DetectSecurityGroupPorts(snap)
    case KmsRotation => DetectKmsRotation(snap)
    case IamPasswordPolicy => DetectIamPasswordPolicy(snap)
    case RdsEncryption => DetectRdsEncryption(snap)
    case RdsPublicAccess => DetectRdsPublicAccess(snap)
    case RdsBackup => DetectRdsBackup(snap)
    case VpcFlowLogs => DetectVpcFlowLogs(snap)
    case ElbLogs => DetectElbLogs(snap)
    case ConfigRecorder => DetectConfigRecorder(snap)
    case GuardDuty => DetectGuardDuty(snap)
    case SnsEncryption => DetectSnsEncryption(snap)
    case LambdaVpc => DetectLambdaVpc(snap)
  }

  // ---- The append loops of the imperative detects ---------------------------------

  /** S3PublicAccessControl.detect as the source writes it: a loop appending findings. */
  method RunS3PublicAccess(snap: Snapshot) returns (r: Answer<seq<ControlFinding>>)
    ensures r == DetectS3PublicAccess(snap)
  {
    if snap.buckets.Raise? {
      return Raise(snap.buckets.error);
    }
    var buckets := snap.buckets.value;
    var findings: seq<ControlFinding> := [];
    for i := 0 to |buckets|
      invariant Collect(buckets[..i], PublicAccessStep) == Ok(findings)
    {
      CollectSnoc(buckets, PublicAccessStep, i);
      assert findings + [] == findings;
      var b := buckets[i];
      match b.publicAccessBlock
      case Raise(e) =>
        CollectRaiseStays(buckets, PublicAccessStep, i + 1, e);
        return Raise(e);
      case Ok(pub) =>
        if !PublicAccessBlocked(pub) {
          findings := findings + [PublicAccessFinding(b.name)];
        }
    }
    assert buckets[..|buckets|] == buckets;
    return Ok(findings);
  }

  /** SecurityGroupControl.detect: an outer loop over groups, an inner one over their
      ingress rules. */
  method RunSecurityGroupPorts(snap: Snapshot) returns (r: Answer<seq<ControlFinding>>)
    ensures r == DetectSecurityGroupPorts(snap)
  {
    if snap.securityGroups.Raise? {
      return Raise(snap.securityGroups.error);
    }
    var groups := snap.securityGroups.value;
    var findings: seq<ControlFinding> := [];
    for i := 0 to |groups|
      invariant Collect(groups[..i], SecurityGroupStep) == Ok(findings)
    {
      CollectSnoc(groups, SecurityGroupStep, i);
      var sg := groups[i];
      ghost var before := findings;
      for j := 0 to |sg.ipPermissions|
        invariant findings == before + OpenPermissionFindings(sg.groupId, sg.ipPermissions[..j])
      {
        assert sg.ipPermissions[..j + 1][..j] == sg.ipPermissions[..j];
        if OpenToWorld(sg.ipPermissions[j]) {
          findings := findings + [GroupFinding(sg.groupId)];
        }
      }
      assert sg.ipPermissions[..|sg.ipPermissions|] == sg.ipPermissions;
    }
    assert groups[..|groups|] == groups;
    return Ok(findings);
  }

  /** KMSRotationControl.detect: a loop that asks for a key's rotation status only when
      its metadata names a customer-managed key. */
  method RunKmsRotation(snap: Snapshot) returns (r: Answer<seq<ControlFinding>>)
    ensures r == DetectKmsRotation(snap)
  {
    if snap.keys.Raise? {
      return Raise(snap.keys.error);
    }
    var keys := snap.keys.value;
    var findings: seq<ControlFinding> := [];
    for i := 0 to |keys|
      invariant Collect(keys[..i], KeyStep) == Ok(findings)
    {
      CollectSnoc(keys, KeyStep, i);
      assert findings + [] == findings;
      var k := keys[i];
      if k.metadata.Raise? {
        CollectRaiseStays(keys, KeyStep, i + 1, k.metadata.error);
        return Raise(k.metadata.error);
      }
      var meta := k.metadata.value;
      if meta.Some? && meta.value.keyManager == Some("CUSTOMER") {
        if k.rotationEnabled.Raise? {
          CollectRaiseStays(keys, KeyStep, i + 1, k.rotationEnabled.error);
          return Raise(k.rotationEnabled.error);
        }
        if !k.rotationEnabled.value {
          findings := findings + [KeyFinding(k.keyId, meta.value)];
        }
      }
    }
    assert keys[..|keys|] == keys;
    return Ok(findings);
  }

  /** ELBLogsControl.detect: a loop inside `try`, so any failure yields no findings. */
  method RunElbLogs(snap: Snapshot) returns (r: Answer<seq<ControlFinding>>)
    ensures r == DetectElbLogs(snap)
  {
    if snap.loadBalancers.Raise? {
      return Ok([]);
    }
    var lbs := snap.loadBalancers.value;
    var findings: seq<ControlFinding> := [];
    for i := 0 to |lbs|
      invariant Collect(lbs[..i], ElbStep) == Ok(findings)
    {
      CollectSnoc(lbs, ElbStep, i);
      assert findings + [] == findings;
      var lb := lbs[i];
      match lb.attributes
      case Raise(e) =>
        CollectRaiseStays(lbs, ElbStep, i + 1, e);
        return Ok([]);
      case Ok(attrs) =>
        if !AccessLogsEnabled(attrs) {
          findings := findings + [LbFinding(lb)];
        }
    }
    assert lbs[..|lbs|] == lbs;
    return Ok(findings);
  }

  /** `await control.detect()`: the loop-written controls run their loops, the others are
      single expressions. */
  method RunDetect(k: ControlKind, snap: Snapshot) returns (r: Answer<seq<ControlFinding>>)
    ensures r == Detect(k, snap)
  {
    match k
    case S3PublicAccess => r := RunS3PublicAccess(snap);
    case SecurityGroupPorts => r := RunSecurityGroupPorts(snap);
    case KmsRotation => r := RunKmsRotation(snap);
    case ElbLogs => r := RunElbLogs(snap);
    case _ => r := Detect(k, snap);
  }

  // ---- Remediation ------------------------------------------------------------------

  const BlockedState: Dict := map["blocked" := JBool(true)]
  const EncryptedState: Dict := map["enc" := JBool(true)]

  /** The remediation both S3 controls share, with `afterState` the state each reports.
      `client` is the outcome of creating the S3 client and `put` that of the configuring
      call; a live run reads the finding's evidence["bucket"] between the two, and a
      missing key fails with the message Python gives a KeyError. */
  function S3Remediate(view: FindingView, dryRun: bool, client: Answer<()>, put: Answer<()>,
                       afterState: Dict): (r: RemediationResult)
    ensures r.resourceId == OptStr(view.resourceId) && r.beforeState == view.evidence
    ensures r.success <==> dryRun || (client.Ok? && "bucket" in view.evidence && put.Ok?)
    ensures r.success ==> r.afterState == Some(afterState) && r.rollbackData == Some(view.evidence)
                          && r.errorMessage == None
    ensures !r.success ==> r.afterState == None && r.rollbackData == None && r.errorMessage.Some?
    ensures !dryRun && client.Ok? && "bucket" !in view.evidence ==> r.errorMessage == Some("'bucket'")
  {
    var ok := RemediationResult(true, OptStr(view.resourceId), view.evidence, Some(afterState),
                                Some(view.evidence), None);
    if dryRun then ok
    else
      var call: Answer<()> :=
        if client.Raise? then Raise(client.error)
        else if "bucket" !in view.evidence then Raise("'bucket'")
        else put;
      if call.Ok? then ok
      else RemediationResult(false, OptStr(view.resourceId), view.evidence, None, None, Some(call.error))
  }

  /** `control.remediate(finding, dry_run)`: the two S3 controls that override it, the
      base-class default for every other control. */
  function ControlRemediate(k: ControlKind, view: FindingView, dryRun: bool, client: Answer<()>,
                            put: Answer<()>): (r: RemediationResult)
    ensures k == S3PublicAccess ==> r == S3Remediate(view, dryRun, client, put, BlockedState)
    ensures k == S3Encryption ==> r == S3Remediate(view, dryRun, client, put, EncryptedState)
    ensures k != S3PublicAccess && k != S3Encryption ==> r == DefaultRemediate(view, dryRun)
  {
    match k
    case S3PublicAccess => S3Remediate(view, dryRun, client, put, BlockedState)
    case S3Encryption => S3Remediate(view, dryRun, client, put, EncryptedState)
    case _ => DefaultRemediate(view, dryRun)
  }

  /** `control.rollback(rollback_data)`: no control overrides the base-class default. */
  function ControlRollback(k: ControlKind, rollbackData: Dict): (r: RemediationResult)
    ensures !r.success && r.errorMessage == Some(RollbackNotImplemented)
  {
    DefaultRollback(rollbackData)
  }

  // ---- Properties of the checks -----------------------------------------------------

  /** Every finding `a` carries satisfies `P` (nothing to say about an exception). */
  predicate AllFindings(a: Answer<seq<ControlFinding>>, P: ControlFinding -> bool) {
    a.Ok? ==> forall f :: f in a.value ==> P(f)
  }

  /** A property every step's findings have, the walk's findings have too. */
  lemma {:induction false} CollectAll<T>(items: seq<T>, step: T -> Answer<seq<ControlFinding>>,
                                         P: ControlFinding -> bool)
    requires forall i :: 0 <= i < |items| ==> AllFindings(step(items[i]), P)
    ensures AllFindings(Collect(items, step), P)
  {
    if items != [] {
      var init := items[..|items| - 1];
      assert forall i :: 0 <= i < |init| ==> init[i] == items[i];
      CollectAll(init, step, P);
      assert AllFindings(step(items[|items| - 1]), P);
    }
  }

  predicate IsFail(f: ControlFinding) {
    f.status == Fail
  }

  /** The checks report only failures: a resource that passes contributes nothing. */
  lemma DetectReportsOnlyFailures(k: ControlKind, snap: Snapshot)
    ensures Detect(k, snap).Ok? ==> forall f :: f in Detect(k, snap).value ==> f.status == Fail
  {
    var P := IsFail;
    match k
    case IamMfa => if snap.users.Ok? { CollectAll(snap.users.value, MfaStep, P); }
    case S3PublicAccess => if snap.buckets.Ok? { CollectAll(snap.buckets.value, PublicAccessStep, P); }
    case S3Encryption => if snap.buckets.Ok? { CollectAll(snap.buckets.value, EncryptionStep, P); }
    case S3Versioning => if snap.buckets.Ok? { CollectAll(snap.buckets.value, VersioningStep, P); }
    case S3Logging => if snap.buckets.Ok? { CollectAll(snap.buckets.value, LoggingStep, P); }
    case CloudTrail => if snap.trails.Ok? { CollectAll(snap.trails.value, TrailStep, P); }
    case Ec2PublicIp => if snap.instances.Ok? { CollectAll(snap.instances.value, PublicIpStep, P); }
    case Ec2EncryptedVolumes => if snap.volumes.Ok? { CollectAll(snap.volumes.value, VolumeStep, P); }
    case SecurityGroupPorts =>
      if snap.securityGroups.Ok? {
        forall i | 0 <= i < |snap.securityGroups.value|
          ensures AllFindings(SecurityGroupStep(snap.securityGroups.value[i]), P)
        {
          var g := snap.securityGroups.value[i];
          OpenPermissionFindingsAreCopies(g.groupId, g.ipPermissions);
        }
        CollectAll(snap.securityGroups.value, SecurityGroupStep, P);
      }
    case KmsRotation => if snap.keys.Ok? { CollectAll(snap.keys.value, KeyStep, P); }
    case IamPasswordPolicy =>
    case RdsEncryption => if snap.dbInstances.Ok? { CollectAll(snap.dbInstances.value, RdsEncryptionStep, P); }
    case RdsPublicAccess => if snap.dbInstances.Ok? { CollectAll(snap.dbInstances.value, RdsPublicStep, P); }
    case RdsBackup => if snap.dbInstances.Ok? { CollectAll(snap.dbInstances.value, RdsBackupStep, P); }
    case VpcFlowLogs =>
      if snap.vpcIds.Ok? && snap.flowLogResourceIds.Ok? {
        var logged := snap.flowLogResourceIds.value;
        CollectAll(snap.vpcIds.value, (v: string) => VpcStep(logged, v), P);
      }
    case ElbLogs => if snap.loadBalancers.Ok? { CollectAll(snap.loadBalancers.value, ElbStep, P); }
    case ConfigRecorder =>
    case GuardDuty =>
    case SnsEncryption => if snap.topics.Ok? { CollectAll(snap.topics.value, TopicStep, P); }
    case LambdaVpc => if snap.functions.Ok? { CollectAll(snap.functions.value, LambdaStep, P); }
  }

  /** The controls whose `detect` sits in a `try` that swallows every exception. */
  predicate Swallows(k: ControlKind) {
    k in {RdsEncryption, RdsPublicAccess, RdsBackup, VpcFlowLogs, ElbLogs, ConfigRecorder,
          GuardDuty, SnsEncryption, LambdaVpc}
  }

  /** Which checks can end in an exception: exactly the ones with no `try` around their
      work (the password policy check catches and reports a failure instead). */
  lemma DetectRaisesOnlyUncaught(k: ControlKind, snap: Snapshot)
    ensures Detect(k, snap).Raise? ==> !Swallows(k) && k != IamPasswordPolicy
  {
  }

  /** The number of ingress rules that admit 0.0.0.0/0 through some range. */
  function CountOpen(perms: seq<IpPermission>): nat {
    if perms == [] then 0 else (if OpenToWorld(perms[0]) then 1 else 0) + CountOpen(perms[1..])
  }

  lemma {:induction false} CountOpenSnoc(perms: seq<IpPermission>, p: IpPermission)
    ensures CountOpen(perms + [p]) == CountOpen(perms) + (if OpenToWorld(p) then 1 else 0)
  {
    if perms != [] {
      assert (perms + [p])[1..] == perms[1..] + [p];
      CountOpenSnoc(perms[1..], p);
    }
  }

  /** A security group yields one finding per open ingress rule, however many of the
      rule's ranges are open, each naming the group. */
  lemma {:induction false} OpenPermissionFindingsAreCopies(groupId: string, perms: seq<IpPermission>)
    ensures OpenPermissionFindings(groupId, perms) == seq(CountOpen(perms), _ => GroupFinding(groupId))
  {
    if perms != [] {
      var init := perms[..|perms| - 1];
      var last := perms[|perms| - 1];
      assert init + [last] == perms;
      OpenPermissionFindingsAreCopies(groupId, init);
      CountOpenSnoc(init, last);
    }
  }

  /** The per-user and per-bucket checks, once every call they make has answered, return
      exactly their comprehension over the listing. */
  lemma IamAndS3Comprehensions(snap: Snapshot)
    ensures snap.users.Ok? && (forall i :: 0 <= i < |snap.users.value| ==> snap.users.value[i].mfaDevices.Ok?) ==>
      DetectIamMfa(snap) == Ok(Filtered(snap.users.value, MfaMissing, MfaFinding))
    ensures snap.buckets.Ok? && (forall i :: 0 <= i < |snap.buckets.value| ==> snap.buckets.value[i].encryption.Ok?) ==>
      DetectS3Encryption(snap) == Ok(Filtered(snap.buckets.value, Unencrypted, LowRiskBucketFinding))
    ensures snap.buckets.Ok? && (forall i :: 0 <= i < |snap.buckets.value| ==> snap.buckets.value[i].versioning.Ok?) ==>
      DetectS3Versioning(snap) == Ok(Filtered(snap.buckets.value, Unversioned, LowRiskBucketFinding))
    ensures snap.buckets.Ok? && (forall i :: 0 <= i < |snap.buckets.value| ==> snap.buckets.value[i].logging.Ok?) ==>
      DetectS3Logging(snap) == Ok(Filtered(snap.buckets.value, Unlogged, LoggingFinding))
  {
    if snap.users.Ok? && (forall i :: 0 <= i < |snap.users.value| ==> snap.users.value[i].mfaDevices.Ok?) {
      CollectFiltered(snap.users.value, MfaStep, MfaMissing, MfaFinding);
    }
    if snap.buckets.Ok? {
      var bs := snap.buckets.value;
      if forall i :: 0 <= i < |bs| ==> bs[i].encryption.Ok? {
        CollectFiltered(bs, EncryptionStep, Unencrypted, LowRiskBucketFinding);
      }
      if forall i :: 0 <= i < |bs| ==> bs[i].versioning.Ok? {
        CollectFiltered(bs, VersioningStep, Unversioned, LowRiskBucketFinding);
      }
      if forall i :: 0 <= i < |bs| ==> bs[i].logging.Ok? {
        CollectFiltered(bs, LoggingStep, Unlogged, LoggingFinding);
      }
    }
  }

  /** The EC2 checks make no per-item call: once the listing arrived they return exactly
      their comprehension. */
  lemma Ec2Comprehensions(snap: Snapshot)
    ensures snap.instances.Ok? ==> DetectEc2PublicIp(snap) == Ok(Filtered(snap.instances.value, HasPublicIp, PublicIpFinding))
    ensures snap.volumes.Ok? ==> DetectEc2EncryptedVolumes(snap) == Ok(Filtered(snap.volumes.value, VolumeUnencrypted, VolumeFinding))
  {
    if snap.instances.Ok? {
      CollectFiltered(snap.instances.value, PublicIpStep, HasPublicIp, PublicIpFinding);
    }
    if snap.volumes.Ok? {
      CollectFiltered(snap.volumes.value, VolumeStep, VolumeUnencrypted, VolumeFinding);
    }
  }

  /** The checks inside `try: ... except: return []`: their comprehension when every call
      they make answered, no findings at all otherwise. */
  lemma GuardedComprehensions(snap: Snapshot)
    ensures DetectRdsEncryption(snap) ==
      if snap.dbInstances.Ok? then Ok(Filtered(snap.dbInstances.value, StorageUnencrypted, ExposedDbFinding)) else Ok([])
    ensures DetectRdsPublicAccess(snap) ==
      if snap.dbInstances.Ok? then Ok(Filtered(snap.dbInstances.value, PubliclyAccessible, ExposedDbFinding)) else Ok([])
    ensures DetectRdsBackup(snap) ==
      if snap.dbInstances.Ok? then Ok(Filtered(snap.dbInstances.value, ShortRetention, BackupFinding)) else Ok([])
    ensures DetectLambdaVpc(snap) ==
      if snap.functions.Ok? then Ok(Filtered(snap.functions.value, OutsideVpc, LambdaFinding)) else Ok([])
    ensures snap.topics.Ok? && (forall i :: 0 <= i < |snap.topics.value| ==> snap.topics.value[i].kmsMasterKeyId.Ok?) ==>
      DetectSnsEncryption(snap) == Ok(Filtered(snap.topics.value, TopicUnencrypted, TopicFinding))
    ensures snap.topics.Ok? && (exists i :: 0 <= i < |snap.topics.value| && snap.topics.value[i].kmsMasterKeyId.Raise?) ==>
      DetectSnsEncryption(snap) == Ok([])
  {
    if snap.dbInstances.Ok? {
      var dbs := snap.dbInstances.value;
      CollectFiltered(dbs, RdsEncryptionStep, StorageUnencrypted, ExposedDbFinding);
      CollectFiltered(dbs, RdsPublicStep, PubliclyAccessible, ExposedDbFinding);
      CollectFiltered(dbs, RdsBackupStep, ShortRetention, BackupFinding);
    }
    if snap.functions.Ok? {
      CollectFiltered(snap.functions.value, LambdaStep, OutsideVpc, LambdaFinding);
    }
    if snap.topics.Ok? {
      var ts := snap.topics.value;
      if forall i :: 0 <= i < |ts| ==> ts[i].kmsMasterKeyId.Ok? {
        CollectFiltered(ts, TopicStep, TopicUnencrypted, TopicFinding);
      } else {
        CollectOkIff(ts, TopicStep);
      }
    }
  }

  /** KMSRotationControl is the comprehension of the customer-managed keys without
      rotation when every call it makes answered; a failed listing, or a failed call for
      some key, is raised. A non-customer key is never asked for its rotation status. */
  lemma KmsComprehension(snap: Snapshot)
    ensures snap.keys.Ok? && (forall i :: 0 <= i < |snap.keys.value| ==> KeyAnswered(snap.keys.value[i])) ==>
      DetectKmsRotation(snap) == Ok(Filtered(snap.keys.value, RotationOff, UnrotatedKeyFinding))
    ensures snap.keys.Ok? && (exists i :: 0 <= i < |snap.keys.value| && !KeyAnswered(snap.keys.value[i])) ==>
      DetectKmsRotation(snap).Raise?
    ensures snap.keys.Raise? ==> DetectKmsRotation(snap) == Raise(snap.keys.error)
  {
    if snap.keys.Ok? {
      var ks := snap.keys.value;
      if forall i :: 0 <= i < |ks| ==> KeyAnswered(ks[i]) {
        CollectFiltered(ks, KeyStep, RotationOff, UnrotatedKeyFinding);
      } else {
        CollectOkIff(ks, KeyStep);
        var i :| 0 <= i < |ks| && !KeyAnswered(ks[i]);
        assert KeyStep(ks[i]).Raise?;
      }
    }
  }

  /** ELBLogsControl is the comprehension of the load balancers without S3 access logs
      when every answer arrived, and reports nothing as soon as any call failed, the
      listing or one load balancer's attributes. */
  lemma ElbComprehension(snap: Snapshot)
    ensures DetectElbLogs(snap).Ok?
    ensures snap.loadBalancers.Ok? && (forall i :: 0 <= i < |snap.loadBalancers.value| ==> snap.loadBalancers.value[i].attributes.Ok?) ==>
      DetectElbLogs(snap) == Ok(Filtered(snap.loadBalancers.value, LogsDisabled, LbFinding))
    ensures snap.loadBalancers.Ok? && (exists i :: 0 <= i < |snap.loadBalancers.value| && snap.loadBalancers.value[i].attributes.Raise?) ==>
      DetectElbLogs(snap) == Ok([])
    ensures snap.loadBalancers.Raise? ==> DetectElbLogs(snap) == Ok([])
  {
    if snap.loadBalancers.Ok? {
      var lbs := snap.loadBalancers.value;
      if forall i :: 0 <= i < |lbs| ==> lbs[i].attributes.Ok? {
        CollectFiltered(lbs, ElbStep, LogsDisabled, LbFinding);
      } else {
        CollectOkIff(lbs, ElbStep);
      }
    }
  }

  /** The Config and GuardDuty checks never raise and report the one account-wide
      finding exactly when the service answered with an empty list. */
  lemma AccountWideChecks(snap: Snapshot)
    ensures DetectConfigRecorder(snap).Ok? && DetectGuardDuty(snap).Ok?
    ensures DetectConfigRecorder(snap).value != [] <==> snap.configurationRecorders == Ok([])
    ensures DetectConfigRecorder(snap).value != [] ==> DetectConfigRecorder(snap).value == [NoConfigFinding]
    ensures DetectGuardDuty(snap).value != [] <==> snap.detectorIds == Ok([])
    ensures DetectGuardDuty(snap).value != [] ==> DetectGuardDuty(snap).value == [NoDetectorFinding]
  {
  }

  /** S3PublicAccessControl, when every answer arrived: a bucket yields a finding exactly
      when public access is not fully blocked, and that finding names the bucket's ARN
      and carries its name as evidence. */
  lemma S3PublicAccessFlagsUnblocked(snap: Snapshot, f: ControlFinding)
    requires snap.buckets.Ok?
    requires forall i :: 0 <= i < |snap.buckets.value| ==> snap.buckets.value[i].publicAccessBlock.Ok?
    ensures DetectS3PublicAccess(snap).Ok?
    ensures f in DetectS3PublicAccess(snap).value <==>
      exists i :: 0 <= i < |snap.buckets.value| &&
        !PublicAccessBlocked(snap.buckets.value[i].publicAccessBlock.value) &&
        f == ControlFinding(Fail, "arn:aws:s3:::" + snap.buckets.value[i].name, "S3::Bucket",
                            map["bucket" := JStr(snap.buckets.value[i].name)],
                            map["bucket" := JStr(snap.buckets.value[i].name)], true, HighRisk)
  {
    CollectOkIff(snap.buckets.value, PublicAccessStep);
    CollectMembers(snap.buckets.value, PublicAccessStep, f);
  }

  /** An S3 check ends in the exception of the first bucket whose fetch fails. */
  lemma S3PublicAccessRaisesIff(snap: Snapshot)
    ensures DetectS3PublicAccess(snap).Raise? <==>
      snap.buckets.Raise? ||
      exists i :: 0 <= i < |snap.buckets.value| && snap.buckets.value[i].publicAccessBlock.Raise?
  {
    if snap.buckets.Ok? {
      CollectOkIff(snap.buckets.value, PublicAccessStep);
    }
  }

  /** CloudTrailControl: an account without trails yields the single account-wide
      finding; otherwise each trail that is not logging yields one naming its ARN. */
  lemma CloudTrailCases(snap: Snapshot, f: ControlFinding)
    requires snap.trails.Ok?
    requires forall i :: 0 <= i < |snap.trails.value| ==> snap.trails.value[i].status.Ok?
    ensures snap.trails.value == [] ==>
      DetectCloudTrail(snap) == Ok([ControlFinding(Fail, "aws:cloudtrail", "CloudTrail", map[], map[], false, HighRisk)])
    ensures DetectCloudTrail(snap).Ok?
    ensures snap.trails.value != [] ==>
      (f in DetectCloudTrail(snap).value <==>
        exists i :: 0 <= i < |snap.trails.value| &&
          (snap.trails.value[i].status.value.None? ||
           snap.trails.value[i].status.value.value.isLogging != Some(true)) &&
          f == TrailFinding(snap.trails.value[i]) && f.resourceId == snap.trails.value[i].trailArn)
  {
    if snap.trails.value != [] {
      CollectOkIff(snap.trails.value, TrailStep);
      CollectMembers(snap.trails.value, TrailStep, f);
    }
  }

  /** IAMPasswordPolicyControl never raises and reports at most the one policy finding:
      none exactly when the policy was fetched, requires uppercase characters and asks
      for at least 14 characters. */
  lemma PasswordPolicyVerdict(snap: Snapshot)
    ensures DetectIamPasswordPolicy(snap).Ok? && |DetectIamPasswordPolicy(snap).value| <= 1
    ensures DetectIamPasswordPolicy(snap).value == [] <==>
      snap.passwordPolicy.Ok? &&
      snap.passwordPolicy.value.requireUppercaseCharacters == Some(true) &&
      snap.passwordPolicy.value.minimumPasswordLength.Some? &&
      snap.passwordPolicy.value.minimumPasswordLength.value >= 14
    ensures DetectIamPasswordPolicy(snap).value != [] ==>
      DetectIamPasswordPolicy(snap).value[0].resourceId == "iam:password-policy" &&
      DetectIamPasswordPolicy(snap).value[0].canAutoRemediate
  {
  }

  /** RDSBackupControl, once the instance list arrived: an instance yields a finding
      exactly when it keeps backups for fewer than 7 days (none stated counts as 0). */
  lemma RdsBackupFlagsShortRetention(snap: Snapshot, db: DbInstance)
    requires snap.dbInstances.Ok? && db in snap.dbInstances.value
    ensures DetectRdsBackup(snap).Ok?
    ensures (exists f :: f in DetectRdsBackup(snap).value && f.resourceId == db.dbInstanceArn) <==>
      exists d :: d in snap.dbInstances.value && d.dbInstanceArn == db.dbInstanceArn &&
        (d.backupRetentionPeriod.None? || d.backupRetentionPeriod.value < 7)
  {
    var dbs := snap.dbInstances.value;
    CollectOkIff(dbs, RdsBackupStep);
    forall f | f in DetectRdsBackup(snap).value
      ensures exists i :: 0 <= i < |dbs| && RdsBackupStep(dbs[i]).Ok? && f in RdsBackupStep(dbs[i]).value
    {
      CollectMembers(dbs, RdsBackupStep, f);
    }
    forall d | d in dbs && d.dbInstanceArn == db.dbInstanceArn &&
               (d.backupRetentionPeriod.None? || d.backupRetentionPeriod.value < 7)
      ensures RdsBackupStep(d).value[0] in DetectRdsBackup(snap).value
    {
      var i :| 0 <= i < |dbs| && dbs[i] == d;
      CollectMembers(dbs, RdsBackupStep, RdsBackupStep(d).value[0]);
    }
  }

  /** VPCFlowLogsControl, when both lists arrived: a VPC yields a finding exactly when no
      flow log names it; a failure of either list yields no findings. */
  lemma VpcFlowLogsFlagsUnlogged(snap: Snapshot, vpcId: string)
    ensures snap.vpcIds.Raise? || snap.flowLogResourceIds.Raise? ==> DetectVpcFlowLogs(snap) == Ok([])
    ensures snap.vpcIds.Ok? && snap.flowLogResourceIds.Ok? ==>
      (VpcFinding(vpcId) in DetectVpcFlowLogs(snap).value <==>
        vpcId in snap.vpcIds.value && vpcId !in snap.flowLogResourceIds.value)
  {
    if snap.vpcIds.Ok? && snap.flowLogResourceIds.Ok? {
      var logged := snap.flowLogResourceIds.value;
      var step := (v: string) => VpcStep(logged, v);
      CollectOkIff(snap.vpcIds.value, step);
      CollectMembers(snap.vpcIds.value, step, VpcFinding(vpcId));
    }
  }

  // ---- Properties of the remediations -------------------------------------------------

  /** A dry run of an S3 remediation succeeds without looking at either call and keeps the
      evidence as its rollback data. */
  lemma S3DryRunIgnoresCalls(view: FindingView, c1: Answer<()>, p1: Answer<()>, c2: Answer<()>,
                             p2: Answer<()>, after: Dict)
    ensures S3Remediate(view, true, c1, p1, after) == S3Remediate(view, true, c2, p2, after)
    ensures S3Remediate(view, true, c1, p1, after).success
    ensures S3Remediate(view, true, c1, p1, after).rollbackData == Some(view.evidence)
  {
  }

  /** Only the two S3 controls can ever report a successful remediation, and no rollback
      ever succeeds. */
  lemma OnlyS3ControlsRemediate(k: ControlKind, view: FindingView, dryRun: bool, client: Answer<()>,
                                put: Answer<()>, data: Dict)
    ensures ControlRemediate(k, view, dryRun, client, put).success ==> k == S3PublicAccess || k == S3Encryption
    ensures !ControlRollback(k, data).success
  {
  }
}
