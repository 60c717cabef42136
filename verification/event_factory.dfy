/**
 * The registry's event factory: one function per (entity, mutation) pair,
 * each reading the attributes it needs off a domain record and appending them,
 * in a fixed order, to a fresh event builder.
 *
 * The identity of the user performing the request, which the registry reads
 * from its security context, is the explicit `currentUser` argument.
 * Attributes the domain classes may leave null are `Option`s.
 */
module EventFactory {
  import opened Wrappers
  import opened Decimal
  import opened Events

  /** The attributes of a bucket that events read. */
  datatype Bucket = Bucket(
    identifier: string,
    name: Option<string>,
    description: Option<string>,
    createdTimestamp: Int64,
    allowPublicRead: Option<bool>)

  /** The attributes of a versioned flow that events read. */
  datatype VersionedFlow = VersionedFlow(
    identifier: string,
    name: Option<string>,
    description: Option<string>,
    bucketIdentifier: string,
    bucketName: Option<string>,
    createdTimestamp: Int64,
    modifiedTimestamp: Int64)

  datatype VersionedFlowSnapshotMetadata = VersionedFlowSnapshotMetadata(
    bucketIdentifier: string,
    flowIdentifier: string,
    version: Int32,
    timestamp: Int64,
    author: string,
    comments: Option<string>)

  /** A flow snapshot with its metadata and the bucket and flow it may refer to. */
  datatype VersionedFlowSnapshot = VersionedFlowSnapshot(
    snapshotMetadata: VersionedFlowSnapshotMetadata,
    bucket: Option<Bucket>,
    flow: Option<VersionedFlow>)

  datatype Bundle = Bundle(identifier: string, bucketIdentifier: string)

  datatype BundleVersionMetadata = BundleVersionMetadata(bucketId: string, bundleId: string, version: Int64)

  datatype BundleVersion = BundleVersion(versionMetadata: BundleVersionMetadata)

  datatype RegistryUser = RegistryUser(identifier: string, identity: string)

  datatype RegistryUserGroup = RegistryUserGroup(identifier: string, identity: string)

  /** `Objects.requireNonNullElse(value, "")`: a null attribute becomes the empty string. */
  function OrEmpty(value: Option<string>): (s: string)
    ensures s == "" <==> value == None || value == Some("")
    ensures value.Some? ==> s == value.value
  {
    match value
    case None => ""
    case Some(v) => v
  }

  /** `String.valueOf(Boolean)`. */
  function BoolText(b: bool): (s: string)
    ensures s == "true" <==> b
    ensures s == "false" <==> !b
  {
    if b then "true" else "false"
  }

  /** A nullable flag: the empty string when null, its text otherwise. */
  function NullableBoolText(flag: Option<bool>): (s: string)
    ensures s == "" <==> flag.None?
    ensures s == "true" <==> flag == Some(true)
    ensures s == "false" <==> flag == Some(false)
  {
    if flag.None? then "" else BoolText(flag.value)
  }

  // ---------------------------------------------------------------- buckets

  /** The six fields of every bucket event, with the bucket name passed through unchanged. */
  function BucketEvent(bucket: Bucket, eventType: EventType, currentUser: string): (e: Event)
    requires bucket.name.Some?
    ensures e.eventType == eventType
    ensures Names(e.fields) == [BucketId, BucketName, BucketDescription, CreatedTimestamp, AllowPublicRead, User]
    ensures Values(e.fields) == [bucket.identifier, bucket.name.value, OrEmpty(bucket.description),
                                 DecimalText(bucket.createdTimestamp as int),
                                 NullableBoolText(bucket.allowPublicRead), currentUser]
  {
    NewBuilder(eventType)
      .AddField(BucketId, bucket.identifier)
      .AddField(BucketName, bucket.name.value)
      .AddField(BucketDescription, OrEmpty(bucket.description))
      .AddField(CreatedTimestamp, DecimalText(bucket.createdTimestamp as int))
      .AddField(AllowPublicRead, NullableBoolText(bucket.allowPublicRead))
      .AddField(User, currentUser)
      .Build()
  }

  function BucketCreated(bucket: Bucket, currentUser: string): (e: Event)
    requires bucket.name.Some?
    ensures e.eventType == CreateBucket && Conforms(e)
    ensures e.fields[5].value == currentUser
  {
    BucketEvent(bucket, CreateBucket, currentUser)
  }

  function BucketUpdated(bucket: Bucket, currentUser: string): (e: Event)
    requires bucket.name.Some?
    ensures e.eventType == UpdateBucket && Conforms(e)
    ensures e.fields[5].value == currentUser
  {
    BucketEvent(bucket, UpdateBucket, currentUser)
  }

  function BucketDeleted(bucket: Bucket, currentUser: string): (e: Event)
    requires bucket.name.Some?
    ensures e.eventType == DeleteBucket && Conforms(e)
    ensures e.fields[5].value == currentUser
  {
    BucketEvent(bucket, DeleteBucket, currentUser)
  }

  // ------------------------------------------------------------------ flows

  /** The eight fields of every flow event; the two names and the description are normalised. */
  function FlowEvent(versionedFlow: VersionedFlow, eventType: EventType, currentUser: string): (e: Event)
    ensures e.eventType == eventType
    ensures Names(e.fields) == [BucketId, BucketName, FlowId, FlowName, FlowDescription,
                                CreatedTimestamp, ModifiedTimestamp, User]
    ensures Values(e.fields) == [versionedFlow.bucketIdentifier, OrEmpty(versionedFlow.bucketName),
                                 versionedFlow.identifier, OrEmpty(versionedFlow.name),
                                 OrEmpty(versionedFlow.description),
                                 DecimalText(versionedFlow.createdTimestamp as int),
                                 DecimalText(versionedFlow.modifiedTimestamp as int), currentUser]
  {
    NewBuilder(eventType)
      .AddField(BucketId, versionedFlow.bucketIdentifier)
      .AddField(BucketName, OrEmpty(versionedFlow.bucketName))
      .AddField(FlowId, versionedFlow.identifier)
      .AddField(FlowName, OrEmpty(versionedFlow.name))
      .AddField(FlowDescription, OrEmpty(versionedFlow.description))
      .AddField(CreatedTimestamp, DecimalText(versionedFlow.createdTimestamp as int))
      .AddField(ModifiedTimestamp, DecimalText(versionedFlow.modifiedTimestamp as int))
      .AddField(User, currentUser)
      .Build()
  }

  function FlowCreated(versionedFlow: VersionedFlow, currentUser: string): (e: Event)
    ensures e.eventType == CreateFlow && Conforms(e)
    ensures e.fields[7].value == currentUser
  {
    FlowEvent(versionedFlow, CreateFlow, currentUser)
  }

  function FlowUpdated(versionedFlow: VersionedFlow, currentUser: string): (e: Event)
    ensures e.eventType == UpdateFlow && Conforms(e)
    ensures e.fields[7].value == currentUser
  {
    FlowEvent(versionedFlow, UpdateFlow, currentUser)
  }

  function FlowDeleted(versionedFlow: VersionedFlow, currentUser: string): (e: Event)
    ensures e.eventType == DeleteFlow && Conforms(e)
    ensures e.fields[7].value == currentUser
  {
    FlowEvent(versionedFlow, DeleteFlow, currentUser)
  }

  // ---------------------------------------------------------- flow versions

  /** BUCKET_NAME of a flow-version event: empty without a bucket reference, else its normalised name. */
  function SnapshotBucketName(snapshot: VersionedFlowSnapshot): (s: string)
    ensures snapshot.bucket.None? ==> s == ""
    ensures snapshot.bucket.Some? ==> s == OrEmpty(snapshot.bucket.value.name)
  {
    if snapshot.bucket.None? then "" else OrEmpty(snapshot.bucket.value.name)
  }

  /**
   * FLOW_NAME of a flow-version event. The guard tests the BUCKET reference,
   * not the flow reference, and then dereferences the flow.
   */
  function SnapshotFlowName(snapshot: VersionedFlowSnapshot): (s: string)
    requires snapshot.bucket.Some? ==> snapshot.flow.Some?
    ensures snapshot.bucket.None? ==> s == ""
    ensures snapshot.bucket.Some? ==> s == OrEmpty(snapshot.flow.value.name)
  {
    if snapshot.bucket.None? then "" else OrEmpty(snapshot.flow.value.name)
  }

  /** The eight fields of a flow-version event, given the text chosen for FLOW_NAME. */
  function FlowVersionEvent(snapshot: VersionedFlowSnapshot, flowName: string): (e: Event)
    ensures e.eventType == CreateFlowVersion && Conforms(e)
    ensures Values(e.fields) == [snapshot.snapshotMetadata.bucketIdentifier, SnapshotBucketName(snapshot),
                                 snapshot.snapshotMetadata.flowIdentifier, flowName,
                                 DecimalText(snapshot.snapshotMetadata.version as int),
                                 DecimalText(snapshot.snapshotMetadata.timestamp as int),
                                 snapshot.snapshotMetadata.author,
                                 OrEmpty(snapshot.snapshotMetadata.comments)]
  {
    NewBuilder(CreateFlowVersion)
      .AddField(BucketId, snapshot.snapshotMetadata.bucketIdentifier)
      .AddField(BucketName, SnapshotBucketName(snapshot))
      .AddField(FlowId, snapshot.snapshotMetadata.flowIdentifier)
      .AddField(FlowName, flowName)
      .AddField(Version, DecimalText(snapshot.snapshotMetadata.version as int))
      .AddField(ModifiedTimestamp, DecimalText(snapshot.snapshotMetadata.timestamp as int))
      .AddField(User, snapshot.snapshotMetadata.author)
      .AddField(Comment, OrEmpty(snapshot.snapshotMetadata.comments))
      .Build()
  }

  /**
   * The event for a new flow version, as written: FLOW_NAME is guarded on the
   * bucket reference. With a bucket reference present the flow reference is
   * dereferenced, so it must be present too. The actor is the snapshot's
   * author; the current user plays no part.
   */
  function FlowVersionCreated(snapshot: VersionedFlowSnapshot): (e: Event)
    requires snapshot.bucket.Some? ==> snapshot.flow.Some?
    ensures e.eventType == CreateFlowVersion && Conforms(e)
    ensures e.fields[6].value == snapshot.snapshotMetadata.author
    ensures e.fields[3].value == "" <==>
              snapshot.bucket.None? || snapshot.flow.value.name in {None, Some("")}
  {
    FlowVersionEvent(snapshot, SnapshotFlowName(snapshot))
  }

  /** FLOW_NAME guarded on the flow reference itself, which the guard evidently means to test. */
  function SnapshotFlowNameGuardedOnFlow(snapshot: VersionedFlowSnapshot): (s: string)
    ensures snapshot.flow.None? ==> s == ""
    ensures snapshot.flow.Some? ==> s == OrEmpty(snapshot.flow.value.name)
  {
    if snapshot.flow.None? then "" else OrEmpty(snapshot.flow.value.name)
  }

  /** The corrected flow-version event: defined for every snapshot, FLOW_NAME from the flow reference. */
  function FlowVersionCreatedGuardedOnFlow(snapshot: VersionedFlowSnapshot): (e: Event)
    ensures e.eventType == CreateFlowVersion && Conforms(e)
    ensures e.fields[6].value == snapshot.snapshotMetadata.author
    ensures e.fields[3].value == "" <==>
              snapshot.flow.None? || snapshot.flow.value.name in {None, Some("")}
  {
    FlowVersionEvent(snapshot, SnapshotFlowNameGuardedOnFlow(snapshot))
  }

  // ------------------------------------------------------ extension bundles

  function ExtensionBundleCreated(bundle: Bundle, currentUser: string): (e: Event)
    ensures e.eventType == CreateExtensionBundle && Conforms(e)
    ensures Values(e.fields) == [bundle.bucketIdentifier, bundle.identifier, currentUser]
  {
    NewBuilder(CreateExtensionBundle)
      .AddField(BucketId, bundle.bucketIdentifier)
      .AddField(ExtensionBundleId, bundle.identifier)
      .AddField(User, currentUser)
      .Build()
  }

  function ExtensionBundleDeleted(bundle: Bundle, currentUser: string): (e: Event)
    ensures e.eventType == DeleteExtensionBundle && Conforms(e)
    ensures Values(e.fields) == [bundle.bucketIdentifier, bundle.identifier, currentUser]
  {
    NewBuilder(DeleteExtensionBundle)
      .AddField(BucketId, bundle.bucketIdentifier)
      .AddField(ExtensionBundleId, bundle.identifier)
      .AddField(User, currentUser)
      .Build()
  }

  function ExtensionBundleVersionCreated(bundleVersion: BundleVersion, currentUser: string): (e: Event)
    ensures e.eventType == CreateExtensionBundleVersion && Conforms(e)
    ensures e.fields[0].value == bundleVersion.versionMetadata.bucketId
    ensures e.fields[1].value == bundleVersion.versionMetadata.bundleId
    ensures e.fields[2].value == DecimalText(bundleVersion.versionMetadata.version as int)
    ensures e.fields[3].value == currentUser
  {
    NewBuilder(CreateExtensionBundleVersion)
      .AddField(BucketId, bundleVersion.versionMetadata.bucketId)
      .AddField(ExtensionBundleId, bundleVersion.versionMetadata.bundleId)
      .AddField(Version, DecimalText(bundleVersion.versionMetadata.version as int))
      .AddField(User, currentUser)
      .Build()
  }

  function ExtensionBundleVersionDeleted(bundleVersion: BundleVersion, currentUser: string): (e: Event)
    ensures e.eventType == DeleteExtensionBundleVersion && Conforms(e)
    ensures e.fields[0].value == bundleVersion.versionMetadata.bucketId
    ensures e.fields[1].value == bundleVersion.versionMetadata.bundleId
    ensures e.fields[2].value == DecimalText(bundleVersion.versionMetadata.version as int)
    ensures e.fields[3].value == currentUser
  {
    NewBuilder(DeleteExtensionBundleVersion)
      .AddField(BucketId, bundleVersion.versionMetadata.bucketId)
      .AddField(ExtensionBundleId, bundleVersion.versionMetadata.bundleId)
      .AddField(Version, DecimalText(bundleVersion.versionMetadata.version as int))
      .AddField(User, currentUser)
      .Build()
  }

  // ------------------------------------------------------ users and groups

  function UserCreated(user: RegistryUser, currentUser: string): (e: Event)
    ensures e.eventType == CreateUser && Conforms(e)
    ensures Values(e.fields) == [user.identifier, user.identity, currentUser]
  {
    NewBuilder(CreateUser)
      .AddField(UserId, user.identifier)
      .AddField(UserIdentity, user.identity)
      .AddField(User, currentUser)
      .Build()
  }

  function UserUpdated(user: RegistryUser, currentUser: string): (e: Event)
    ensures e.eventType == UpdateUser && Conforms(e)
    ensures Values(e.fields) == [user.identifier, user.identity, currentUser]
  {
    NewBuilder(UpdateUser)
      .AddField(UserId, user.identifier)
      .AddField(UserIdentity, user.identity)
      .AddField(User, currentUser)
      .Build()
  }

  function UserDeleted(user: RegistryUser, currentUser: string): (e: Event)
    ensures e.eventType == DeleteUser && Conforms(e)
    ensures Values(e.fields) == [user.identifier, user.identity, currentUser]
  {
    NewBuilder(DeleteUser)
      .AddField(UserId, user.identifier)
      .AddField(UserIdentity, user.identity)
      .AddField(User, currentUser)
      .Build()
  }

  function UserGroupCreated(userGroup: RegistryUserGroup, currentUser: string): (e: Event)
    ensures e.eventType == CreateUserGroup && Conforms(e)
    ensures Values(e.fields) == [userGroup.identifier, userGroup.identity, currentUser]
  {
    NewBuilder(CreateUserGroup)
      .AddField(UserGroupId, userGroup.identifier)
      .AddField(UserGroupIdentity, userGroup.identity)
      .AddField(User, currentUser)
      .Build()
  }

  function UserGroupUpdated(userGroup: RegistryUserGroup, currentUser: string): (e: Event)
    ensures e.eventType == UpdateUserGroup && Conforms(e)
    ensures Values(e.fields) == [userGroup.identifier, userGroup.identity, currentUser]
  {
    NewBuilder(UpdateUserGroup)
      .AddField(UserGroupId, userGroup.identifier)
      .AddField(UserGroupIdentity, userGroup.identity)
      .AddField(User, currentUser)
      .Build()
  }

  function UserGroupDeleted(userGroup: RegistryUserGroup, currentUser: string): (e: Event)
    ensures e.eventType == DeleteUserGroup && Conforms(e)
    ensures Values(e.fields) == [userGroup.identifier, userGroup.identity, currentUser]
  {
    NewBuilder(DeleteUserGroup)
      .AddField(UserGroupId, userGroup.identifier)
      .AddField(UserGroupIdentity, userGroup.identity)
      .AddField(User, currentUser)
      .Build()
  }
}
