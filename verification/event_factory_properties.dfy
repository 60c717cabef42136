/**
 * Properties of the event factory that relate several calls or single out one
 * field: normalisation of absent attributes, who the actor is, and how the
 * create/update/delete variants of one entity relate.
 */
module EventFactoryProperties {
  import opened Wrappers
  import opened Decimal
  import opened Events
  import opened EventFactory

  /** The actor recorded in an event. */
  function Actor(e: Event): Option<string> {
    FieldValue(e.fields, User)
  }

  /** Creating, updating and deleting a bucket record the same six fields; only the type differs. */
  lemma BucketEventsDifferOnlyInType(bucket: Bucket, currentUser: string)
    requires bucket.name.Some?
    ensures BucketCreated(bucket, currentUser).fields == BucketUpdated(bucket, currentUser).fields
    ensures BucketUpdated(bucket, currentUser).fields == BucketDeleted(bucket, currentUser).fields
    ensures BucketCreated(bucket, currentUser).eventType != BucketUpdated(bucket, currentUser).eventType
    ensures BucketUpdated(bucket, currentUser).eventType != BucketDeleted(bucket, currentUser).eventType
    ensures BucketCreated(bucket, currentUser).eventType != BucketDeleted(bucket, currentUser).eventType
  {
  }

  /** Creating and deleting a bundle record the same three fields; only the type differs. */
  lemma BundleEventsDifferOnlyInType(bundle: Bundle, currentUser: string)
    ensures ExtensionBundleCreated(bundle, currentUser).fields == ExtensionBundleDeleted(bundle, currentUser).fields
    ensures ExtensionBundleCreated(bundle, currentUser).eventType != ExtensionBundleDeleted(bundle, currentUser).eventType
  {
  }

  /** Creating and deleting a bundle version record the same four fields; only the type differs. */
  lemma BundleVersionEventsDifferOnlyInType(bundleVersion: BundleVersion, currentUser: string)
    ensures ExtensionBundleVersionCreated(bundleVersion, currentUser).fields
              == ExtensionBundleVersionDeleted(bundleVersion, currentUser).fields
    ensures ExtensionBundleVersionCreated(bundleVersion, currentUser).eventType
              != ExtensionBundleVersionDeleted(bundleVersion, currentUser).eventType
  {
  }

  /** Creating, updating and deleting a user record the same three fields; only the type differs. */
  lemma UserEventsDifferOnlyInType(user: RegistryUser, currentUser: string)
    ensures UserCreated(user, currentUser).fields == UserUpdated(user, currentUser).fields
    ensures UserUpdated(user, currentUser).fields == UserDeleted(user, currentUser).fields
    ensures UserCreated(user, currentUser).eventType != UserUpdated(user, currentUser).eventType
    ensures UserUpdated(user, currentUser).eventType != UserDeleted(user, currentUser).eventType
    ensures UserCreated(user, currentUser).eventType != UserDeleted(user, currentUser).eventType
  {
  }

  /** Creating, updating and deleting a user group record the same three fields; only the type differs. */
  lemma UserGroupEventsDifferOnlyInType(userGroup: RegistryUserGroup, currentUser: string)
    ensures UserGroupCreated(userGroup, currentUser).fields == UserGroupUpdated(userGroup, currentUser).fields
    ensures UserGroupUpdated(userGroup, currentUser).fields == UserGroupDeleted(userGroup, currentUser).fields
    ensures UserGroupCreated(userGroup, currentUser).eventType != UserGroupUpdated(userGroup, currentUser).eventType
    ensures UserGroupUpdated(userGroup, currentUser).eventType != UserGroupDeleted(userGroup, currentUser).eventType
    ensures UserGroupCreated(userGroup, currentUser).eventType != UserGroupDeleted(userGroup, currentUser).eventType
  {
  }

  /** A bundle event has no VERSION field: only bundle-version events carry one. */
  lemma BundleEventsHaveNoVersion(bundle: Bundle, currentUser: string)
    ensures FieldValue(ExtensionBundleCreated(bundle, currentUser).fields, Version) == None
    ensures FieldValue(ExtensionBundleDeleted(bundle, currentUser).fields, Version) == None
  {
    FieldValueAbsent(ExtensionBundleCreated(bundle, currentUser).fields, Version);
    FieldValueAbsent(ExtensionBundleDeleted(bundle, currentUser).fields, Version);
  }

  /**
   * An absent description or public-read flag still yields its field, holding
   * the empty string; a present flag is "true" or "false"; the timestamp
   * reads back as the bucket's.
   */
  lemma BucketFieldsNormalised(bucket: Bucket, eventType: EventType, currentUser: string)
    requires bucket.name.Some?
    ensures var e := BucketEvent(bucket, eventType, currentUser);
      && |e.fields| == 6
      && e.fields[1].value == bucket.name.value
      && (e.fields[2].value == "" <==> bucket.description in {None, Some("")})
      && (bucket.description.Some? ==> e.fields[2].value == bucket.description.value)
      && ParseDecimal(e.fields[3].value) == Some(bucket.createdTimestamp as int)
      && (e.fields[4].value == "" <==> bucket.allowPublicRead.None?)
      && (e.fields[4].value == "true" <==> bucket.allowPublicRead == Some(true))
      && (e.fields[4].value == "false" <==> bucket.allowPublicRead == Some(false))
  {
    var e := BucketEvent(bucket, eventType, currentUser);
    assert Values(e.fields)[3] == e.fields[3].value;
    DecimalRoundTrip(bucket.createdTimestamp as int);
  }

  /** Creating, updating and deleting a flow record the same eight fields; only the type differs. */
  lemma FlowEventsDifferOnlyInType(versionedFlow: VersionedFlow, currentUser: string)
    ensures FlowCreated(versionedFlow, currentUser).fields == FlowUpdated(versionedFlow, currentUser).fields
    ensures FlowUpdated(versionedFlow, currentUser).fields == FlowDeleted(versionedFlow, currentUser).fields
    ensures FlowCreated(versionedFlow, currentUser).eventType != FlowUpdated(versionedFlow, currentUser).eventType
    ensures FlowUpdated(versionedFlow, currentUser).eventType != FlowDeleted(versionedFlow, currentUser).eventType
    ensures FlowCreated(versionedFlow, currentUser).eventType != FlowDeleted(versionedFlow, currentUser).eventType
  {
  }

  /** The bucket name, flow name and description of a flow event are empty exactly when absent or empty. */
  lemma FlowFieldsNormalised(versionedFlow: VersionedFlow, eventType: EventType, currentUser: string)
    ensures var e := FlowEvent(versionedFlow, eventType, currentUser);
      && |e.fields| == 8
      && (e.fields[1].value == "" <==> versionedFlow.bucketName in {None, Some("")})
      && (e.fields[3].value == "" <==> versionedFlow.name in {None, Some("")})
      && (e.fields[4].value == "" <==> versionedFlow.description in {None, Some("")})
      && ParseDecimal(e.fields[5].value) == Some(versionedFlow.createdTimestamp as int)
      && ParseDecimal(e.fields[6].value) == Some(versionedFlow.modifiedTimestamp as int)
  {
    var e := FlowEvent(versionedFlow, eventType, currentUser);
    assert Values(e.fields)[5] == e.fields[5].value;
    assert Values(e.fields)[6] == e.fields[6].value;
    DecimalRoundTrip(versionedFlow.createdTimestamp as int);
    DecimalRoundTrip(versionedFlow.modifiedTimestamp as int);
  }

  /**
   * Without a bucket reference both reference names are empty; with one,
   * each is the referenced name, a null name becoming empty. A null comment
   * becomes empty, and the version reads back as the snapshot's.
   */
  lemma FlowVersionFieldsNormalised(snapshot: VersionedFlowSnapshot)
    requires snapshot.bucket.Some? ==> snapshot.flow.Some?
    ensures var e := FlowVersionCreated(snapshot);
      && (snapshot.bucket.None? ==> e.fields[1].value == "" && e.fields[3].value == "")
      && (snapshot.bucket.Some? ==>
            e.fields[1].value == OrEmpty(snapshot.bucket.value.name) &&
            e.fields[3].value == OrEmpty(snapshot.flow.value.name))
      && (e.fields[7].value == "" <==> snapshot.snapshotMetadata.comments in {None, Some("")})
      && ParseDecimal(e.fields[4].value) == Some(snapshot.snapshotMetadata.version as int)
  {
    var e := FlowVersionCreated(snapshot);
    assert Values(e.fields)[1] == e.fields[1].value;
    assert Values(e.fields)[3] == e.fields[3].value;
    assert Values(e.fields)[4] == e.fields[4].value;
    assert Values(e.fields)[7] == e.fields[7].value;
    DecimalRoundTrip(snapshot.snapshotMetadata.version as int);
  }

  /**
   * The actor of a flow-version event is the snapshot's author, so two
   * snapshots by the same author carry the same actor whoever performs the
   * request.
   */
  lemma FlowVersionActorIsAuthor(snapshot: VersionedFlowSnapshot)
    requires snapshot.bucket.Some? ==> snapshot.flow.Some?
    ensures Actor(FlowVersionCreated(snapshot)) == Some(snapshot.snapshotMetadata.author)
  {
    ConformingLookup(FlowVersionCreated(snapshot), 6);
  }

  /** Bundle events carry the current user as actor; the bundle-version number reads back unchanged. */
  lemma BundleEventsActorAndVersion(bundle: Bundle, bundleVersion: BundleVersion, currentUser: string)
    ensures Actor(ExtensionBundleCreated(bundle, currentUser)) == Some(currentUser)
    ensures Actor(ExtensionBundleDeleted(bundle, currentUser)) == Some(currentUser)
    ensures Actor(ExtensionBundleVersionCreated(bundleVersion, currentUser)) == Some(currentUser)
    ensures Actor(ExtensionBundleVersionDeleted(bundleVersion, currentUser)) == Some(currentUser)
    ensures ParseDecimal(ExtensionBundleVersionCreated(bundleVersion, currentUser).fields[2].value)
              == Some(bundleVersion.versionMetadata.version as int)
    ensures ParseDecimal(ExtensionBundleVersionDeleted(bundleVersion, currentUser).fields[2].value)
              == Some(bundleVersion.versionMetadata.version as int)
  {
    ConformingLookup(ExtensionBundleCreated(bundle, currentUser), 2);
    ConformingLookup(ExtensionBundleDeleted(bundle, currentUser), 2);
    ConformingLookup(ExtensionBundleVersionCreated(bundleVersion, currentUser), 3);
    ConformingLookup(ExtensionBundleVersionDeleted(bundleVersion, currentUser), 3);
    DecimalRoundTrip(bundleVersion.versionMetadata.version as int);
  }

  /** Every bucket event names the current user as its actor. */
  lemma BucketEventsActor(bucket: Bucket, currentUser: string)
    requires bucket.name.Some?
    ensures Actor(BucketCreated(bucket, currentUser)) == Some(currentUser)
    ensures Actor(BucketUpdated(bucket, currentUser)) == Some(currentUser)
    ensures Actor(BucketDeleted(bucket, currentUser)) == Some(currentUser)
  {
    ConformingLookup(BucketCreated(bucket, currentUser), 5);
    ConformingLookup(BucketUpdated(bucket, currentUser), 5);
    ConformingLookup(BucketDeleted(bucket, currentUser), 5);
  }

  /** Every flow event names the current user as its actor. */
  lemma FlowEventsActor(versionedFlow: VersionedFlow, currentUser: string)
    ensures Actor(FlowCreated(versionedFlow, currentUser)) == Some(currentUser)
    ensures Actor(FlowUpdated(versionedFlow, currentUser)) == Some(currentUser)
    ensures Actor(FlowDeleted(versionedFlow, currentUser)) == Some(currentUser)
  {
    ConformingLookup(FlowCreated(versionedFlow, currentUser), 7);
    ConformingLookup(FlowUpdated(versionedFlow, currentUser), 7);
    ConformingLookup(FlowDeleted(versionedFlow, currentUser), 7);
  }

  /** Every user event names the current user as its actor. */
  lemma UserEventsActor(user: RegistryUser, currentUser: string)
    ensures Actor(UserCreated(user, currentUser)) == Some(currentUser)
    ensures Actor(UserUpdated(user, currentUser)) == Some(currentUser)
    ensures Actor(UserDeleted(user, currentUser)) == Some(currentUser)
  {
    ConformingLookup(UserCreated(user, currentUser), 2);
    ConformingLookup(UserUpdated(user, currentUser), 2);
    ConformingLookup(UserDeleted(user, currentUser), 2);
  }

  /** Every user-group event names the current user as its actor. */
  lemma UserGroupEventsActor(userGroup: RegistryUserGroup, currentUser: string)
    ensures Actor(UserGroupCreated(userGroup, currentUser)) == Some(currentUser)
    ensures Actor(UserGroupUpdated(userGroup, currentUser)) == Some(currentUser)
    ensures Actor(UserGroupDeleted(userGroup, currentUser)) == Some(currentUser)
  {
    ConformingLookup(UserGroupCreated(userGroup, currentUser), 2);
    ConformingLookup(UserGroupUpdated(userGroup, currentUser), 2);
    ConformingLookup(UserGroupDeleted(userGroup, currentUser), 2);
  }

  /** A user group g1 called admins, deleted by bob. */
  lemma UserGroupDeletedExample()
    ensures UserGroupDeleted(RegistryUserGroup("g1", "admins"), "bob")
      == Event(DeleteUserGroup, [EventField(UserGroupId, "g1"), EventField(UserGroupIdentity, "admins"),
                                 EventField(User, "bob")])
  {
  }

  /**
   * A bucket b1 named Reports, with no description and no public-read flag,
   * created at 1000 by alice.
   */
  lemma BucketCreatedExample()
    ensures BucketCreated(Bucket("b1", Some("Reports"), None, 1000, None), "alice")
      == Event(CreateBucket, [EventField(BucketId, "b1"), EventField(BucketName, "Reports"),
                              EventField(BucketDescription, ""), EventField(CreatedTimestamp, "1000"),
                              EventField(AllowPublicRead, ""), EventField(User, "alice")])
  {
    assert Digits(1) == "1";
    assert Digits(10) == "10";
    assert Digits(100) == "100";
    assert Digits(1000) == "1000";
  }

  /**
   * The guard of FLOW_NAME tests the bucket reference: a snapshot that names
   * its flow but carries no bucket reference records an empty flow name,
   * where the flow-guarded version records the name.
   */
  lemma FlowNameGuardDiscrepancy()
    ensures var snapshot := VersionedFlowSnapshot(
              VersionedFlowSnapshotMetadata("b1", "f1", 1, 0, "alice", None),
              None,
              Some(VersionedFlow("f1", Some("ingest"), None, "b1", None, 0, 0)));
      && FlowVersionCreated(snapshot).fields[3].value == ""
      && FlowVersionCreatedGuardedOnFlow(snapshot).fields[3].value == "ingest"
  {
  }

  /**
   * The two guards agree on every snapshot that carries both references or
   * neither: the discrepancy needs exactly one of them to be absent.
   */
  lemma FlowNameGuardsAgree(snapshot: VersionedFlowSnapshot)
    requires snapshot.bucket.Some? == snapshot.flow.Some?
    ensures FlowVersionCreated(snapshot) == FlowVersionCreatedGuardedOnFlow(snapshot)
  {
  }
}
