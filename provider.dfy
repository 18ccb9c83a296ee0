/** The answers of the cloud provider that the AWS controls read, after the client
    wrapper's normalisation (a "not found" error already turned into `None` or an empty
    list, any other error left as a raised exception). Each per-resource call appears
    where the control makes it, so an answer that raises sits exactly where the control
    would meet the exception. */
module Provider {
  import opened Wrappers

  // ---- IAM ----------------------------------------------------------------------

  /** A user of `list_users`, with the answer of `get_user_mfa_devices(UserName)`. */
  datatype User = User(arn: string, userName: string, mfaDevices: Answer<seq<string>>)

  /** `get_account_password_policy()['PasswordPolicy']`; a missing key is `None`. */
  datatype PasswordPolicy = PasswordPolicy(
    requireUppercaseCharacters: Option<bool>,
    minimumPasswordLength: Option<int>)

  // ---- S3 -----------------------------------------------------------------------

  /** The `PublicAccessBlockConfiguration` of a bucket; a missing flag is `None`. */
  datatype BlockConfiguration = BlockConfiguration(
    blockPublicAcls: Option<bool>,
    blockPublicPolicy: Option<bool>)

  /** A `get_public_access_block` response; the configuration key may be absent. */
  datatype PublicAccessBlock = PublicAccessBlock(configuration: Option<BlockConfiguration>)

  /** A `get_bucket_encryption` response: the default-encryption rules' algorithms. */
  datatype BucketEncryption = BucketEncryption(algorithms: seq<string>)

  /** A `get_bucket_versioning` response; `Status` is absent for a never-versioned bucket. */
  datatype BucketVersioning = BucketVersioning(status: Option<string>)

  /** A `get_bucket_logging` response; whether it holds a `LoggingEnabled` key. */
  datatype BucketLogging = BucketLogging(hasLoggingEnabled: bool)

  /** A bucket of `list_buckets`, with the answers of the per-bucket calls the S3 controls
      make. `None` is the wrapper's answer when the configuration does not exist. */
  datatype Bucket = Bucket(
    name: string,
    publicAccessBlock: Answer<Option<PublicAccessBlock>>,
    encryption: Answer<Option<BucketEncryption>>,
    versioning: Answer<Option<BucketVersioning>>,
    logging: Answer<Option<BucketLogging>>)

  // ---- CloudTrail ---------------------------------------------------------------

  /** A `get_trail_status` response. */
  datatype TrailStatus = TrailStatus(isLogging: Option<bool>)

  /** A trail of `describe_trails`, with the answer of `get_trail_status(TrailARN)`. */
  datatype Trail = Trail(trailArn: string, name: string, status: Answer<Option<TrailStatus>>)

  // ---- EC2 ----------------------------------------------------------------------

  /** An instance of `describe_instances`. */
  datatype Instance = Instance(instanceId: string, publicIpAddress: Option<string>)

  /** A volume of `describe_volumes`. */
  datatype Volume = Volume(volumeId: string, encrypted: Option<bool>)

  /** One entry of an ingress rule's `IpRanges`. */
  datatype IpRange = IpRange(cidrIp: Option<string>)

  /** One ingress rule (`IpPermissions` entry); a missing `IpRanges` is the empty list. */
  datatype IpPermission = IpPermission(ipRanges: seq<IpRange>)

  /** A group of `describe_security_groups`; a missing `IpPermissions` is the empty list. */
  datatype SecurityGroupInfo = SecurityGroupInfo(groupId: string, ipPermissions: seq<IpPermission>)

  // ---- KMS ----------------------------------------------------------------------

  /** The `KeyMetadata` of `describe_key`. */
  datatype KeyMetadata = KeyMetadata(arn: string, keyManager: Option<string>)

  /** A key of `list_keys`, with the answers of `describe_key` and
      `get_key_rotation_status` for it. */
  datatype Key = Key(keyId: string, metadata: Answer<Option<KeyMetadata>>, rotationEnabled: Answer<bool>)

  // ---- RDS, VPC, ELB, Config, GuardDuty, SNS, Lambda ----------------------------

  /** An entry of `describe_db_instances()['DBInstances']`. */
  datatype DbInstance = DbInstance(
    dbInstanceArn: string,
    dbInstanceIdentifier: string,
    storageEncrypted: Option<bool>,
    publiclyAccessible: Option<bool>,
    backupRetentionPeriod: Option<int>)

  /** One entry of `describe_load_balancer_attributes(...)['Attributes']`. */
  datatype LbAttribute = LbAttribute(key: string, value: string)

  /** A load balancer of `describe_load_balancers`, with the answer of its attributes call. */
  datatype LoadBalancer = LoadBalancer(
    loadBalancerArn: string,
    loadBalancerName: string,
    attributes: Answer<seq<LbAttribute>>)

  /** A topic of `list_topics`, with the `KmsMasterKeyId` its `get_topic_attributes` gives. */
  datatype Topic = Topic(topicArn: string, kmsMasterKeyId: Answer<Option<string>>)

  /** A function of `list_functions`; `vpcId` is `VpcConfig.VpcId` when present. */
  datatype LambdaFunction = LambdaFunction(functionArn: string, functionName: string, vpcId: Option<string>)

  /** Everything the twenty AWS controls read from one account. A listing that raises is
      a `Raise`; a response key that is missing reads as the empty list. */
  datatype Snapshot = Snapshot(
    users: Answer<seq<User>>,
    buckets: Answer<seq<Bucket>>,
    trails: Answer<seq<Trail>>,
    instances: Answer<seq<Instance>>,
    volumes: Answer<seq<Volume>>,
    securityGroups: Answer<seq<SecurityGroupInfo>>,
    keys: Answer<seq<Key>>,
    passwordPolicy: Answer<PasswordPolicy>,
    dbInstances: Answer<seq<DbInstance>>,
    vpcIds: Answer<seq<string>>,
    flowLogResourceIds: Answer<seq<string>>,
    loadBalancers: Answer<seq<LoadBalancer>>,
    configurationRecorders: Answer<seq<string>>,
    detectorIds: Answer<seq<string>>,
    topics: Answer<seq<Topic>>,
    functions: Answer<seq<LambdaFunction>>)
}
