# Registry audit events and listener URI reconstruction

This project models two small pieces of Apache NiFi in Dafny.

**The registry's event factory** (`EventFactory.java`). Each public factory
method takes one domain object: a bucket, a versioned flow, a flow snapshot,
an extension bundle, a bundle version, a user or a user group. It returns an
audit `Event`. The event is an `EventType` tag plus an ordered list of
`(EventFieldName, String)` fields, built by a fluent builder that appends one
field per `addField` call.

The model (modules `Events`, `EventFactory`, `EventFactoryProperties`) uses:

- datatypes for the tag, the field names, the event and the builder;
- records holding only the attributes the factory reads. The attributes whose
  null value the factory replaces or tests are `Option`s: the bucket, flow
  and bucket-name texts passed through `Objects.requireNonNullElse`, the
  snapshot comments, the public-read flag, and the snapshot's bucket and flow
  references. The bucket's own name, which is passed through unchanged, is an
  `Option` too, and the functions reading it require it to be present;
- one Dafny function per factory method, written as the same chain of
  `AddField` calls.

`FieldSchema` gives, for every event type, the ordered field names it must
carry. Each factory function is proved to conform to it. Further lemmas prove:

- absent optional attributes become `""`, never a missing field;
- present flags become `"true"` or `"false"`;
- numbers are rendered in canonical decimal and read back unchanged;
- the actor is the current user everywhere except for a new flow version,
  whose actor is the snapshot's author;
- the create, update and delete events of one entity (bucket, flow, bundle,
  bundle version, user, user group) differ only in their tag;
- bundle events carry no VERSION field.

The identity of the requesting user, which the registry reads from its
security context, is an explicit `currentUser` argument.

**The listener's URI reconstruction** (`HTTPUtils.getURI`, module `HttpUtils`).
It rebuilds `scheme://client@server:port` plus the request URI from a flow
file's attribute map. The map is modelled as a Java `Map<String, String>`:
a key may be missing or mapped to null, and `get` returns null in both cases.
Java string concatenation writes a null reference as the text `null`.

Lemmas prove:

- the scheme is `https` exactly when a certificate subject is recorded;
- the value of the subject does not matter;
- entries under other keys do not matter;
- both branches write the same address text behind the scheme;
- the length of the result;
- missing entries are written as `null`.

Java `long` and `int` values are the newtypes `Int64` and `Int32`. No
arithmetic is done on them; they are only rendered as text.

The model follows the code as written. That includes line 97, where
FLOW_NAME of a flow-version event is guarded on the bucket reference rather
than on the flow reference. A corrected variant sits beside it; see
"## Findings".

## Model

| member | source | states |
|---|---|---|
| `Events.NewBuilder` | nifi-registry/nifi-registry-core/nifi-registry-framework/src/main/java/org/apache/nifi/registry/event/EventFactory.java:51-52 | a new builder has its event type set and holds no field |
| `Events.Builder.AddField` | nifi-registry/nifi-registry-core/nifi-registry-framework/src/main/java/org/apache/nifi/registry/event/EventFactory.java:53 | `addField` appends exactly one field at the end and keeps the type |
| `Events.Builder.Build` | nifi-registry/nifi-registry-core/nifi-registry-framework/src/main/java/org/apache/nifi/registry/event/EventFactory.java:59 | the event carries the builder's type and its fields in insertion order |
| `Events.SchemaIsWellFormed` | nifi-registry/nifi-registry-core/nifi-registry-framework/src/main/java/org/apache/nifi/registry/event/EventFactory.java:50-195 | no event type lists a field name twice, and every type records a USER field |
| `Events.FieldValueAt` | nifi-registry/nifi-registry-core/nifi-registry-framework/src/main/java/org/apache/nifi/registry/event/EventFactory.java:51-59 | in a field list without repeated names, looking up a field's name returns that field's value |
| `Events.FieldValueAbsent` | nifi-registry/nifi-registry-core/nifi-registry-framework/src/main/java/org/apache/nifi/registry/event/EventFactory.java:105-112 | a name that occurs in no field of the list is not found by a lookup |
| `Events.ConformingLookup` | nifi-registry/nifi-registry-core/nifi-registry-framework/src/main/java/org/apache/nifi/registry/event/EventFactory.java:50-195 | in an event that follows its type's schema, the lookup of the i-th schema name gives the i-th field's value |
| `Events.ConformingLookupAbsent` | nifi-registry/nifi-registry-core/nifi-registry-framework/src/main/java/org/apache/nifi/registry/event/EventFactory.java:50-195 | in an event that follows its type's schema, the lookup of a name outside the schema finds nothing |
| `Decimal.Digits` | nifi-registry/nifi-registry-core/nifi-registry-framework/src/main/java/org/apache/nifi/registry/event/EventFactory.java:56 | the digits of a number are non-empty, decimal digits only, with no leading zero except for 0 |
| `Decimal.DecimalText` | nifi-registry/nifi-registry-core/nifi-registry-framework/src/main/java/org/apache/nifi/registry/event/EventFactory.java:56 | `String.valueOf` of an integer is non-empty and starts with `-` exactly for negative numbers |
| `Decimal.DecimalTextCanonical` | nifi-registry/nifi-registry-core/nifi-registry-framework/src/main/java/org/apache/nifi/registry/event/EventFactory.java:82-83 | the rendering is an optional minus followed by digits, with no grouping and no leading zero |
| `Decimal.DigitsRoundTrip` | nifi-registry/nifi-registry-core/nifi-registry-framework/src/main/java/org/apache/nifi/registry/event/EventFactory.java:98 | reading the digits of n back as a number gives n |
| `Decimal.DecimalRoundTrip` | nifi-registry/nifi-registry-core/nifi-registry-framework/src/main/java/org/apache/nifi/registry/event/EventFactory.java:128 | parsing the decimal text of any integer, negative ones included, gives that integer back |
| `Decimal.DecimalTextInjective` | nifi-registry/nifi-registry-core/nifi-registry-framework/src/main/java/org/apache/nifi/registry/event/EventFactory.java:99 | distinct numbers are rendered as distinct texts |
| `EventFactory.OrEmpty` | nifi-registry/nifi-registry-core/nifi-registry-framework/src/main/java/org/apache/nifi/registry/event/EventFactory.java:55 | `requireNonNullElse(v, "")` is empty exactly when v is null or empty, and is v otherwise |
| `EventFactory.BoolText` | nifi-registry/nifi-registry-core/nifi-registry-framework/src/main/java/org/apache/nifi/registry/event/EventFactory.java:57 | `String.valueOf(Boolean)`: the text is `true` exactly for true and `false` exactly for false |
| `EventFactory.NullableBoolText` | nifi-registry/nifi-registry-core/nifi-registry-framework/src/main/java/org/apache/nifi/registry/event/EventFactory.java:57 | the public-read text is empty iff the flag is null, `true` iff it is true, `false` iff it is false |
| `EventFactory.BucketEvent` | nifi-registry/nifi-registry-core/nifi-registry-framework/src/main/java/org/apache/nifi/registry/event/EventFactory.java:50-60 | a bucket event has exactly BUCKET_ID, BUCKET_NAME, BUCKET_DESCRIPTION, CREATED_TIMESTAMP, ALLOW_PUBLIC_READ, USER, in that order, with the values each is drawn from |
| `EventFactory.BucketCreated` | nifi-registry/nifi-registry-core/nifi-registry-framework/src/main/java/org/apache/nifi/registry/event/EventFactory.java:38-40 | type CREATE_BUCKET, fields follow the bucket schema, actor is the current user |
| `EventFactory.BucketUpdated` | nifi-registry/nifi-registry-core/nifi-registry-framework/src/main/java/org/apache/nifi/registry/event/EventFactory.java:42-44 | type UPDATE_BUCKET, fields follow the bucket schema, actor is the current user |
| `EventFactory.BucketDeleted` | nifi-registry/nifi-registry-core/nifi-registry-framework/src/main/java/org/apache/nifi/registry/event/EventFactory.java:46-48 | type DELETE_BUCKET, fields follow the bucket schema, actor is the current user |
| `EventFactory.FlowEvent` | nifi-registry/nifi-registry-core/nifi-registry-framework/src/main/java/org/apache/nifi/registry/event/EventFactory.java:74-86 | a flow event has exactly the eight fields BUCKET_ID … USER in order; bucket name, flow name and description are normalised |
| `EventFactory.FlowCreated` | nifi-registry/nifi-registry-core/nifi-registry-framework/src/main/java/org/apache/nifi/registry/event/EventFactory.java:62-64 | type CREATE_FLOW, fields follow the flow schema, actor is the current user |
| `EventFactory.FlowUpdated` | nifi-registry/nifi-registry-core/nifi-registry-framework/src/main/java/org/apache/nifi/registry/event/EventFactory.java:66-68 | type UPDATE_FLOW, fields follow the flow schema, actor is the current user |
| `EventFactory.FlowDeleted` | nifi-registry/nifi-registry-core/nifi-registry-framework/src/main/java/org/apache/nifi/registry/event/EventFactory.java:70-72 | type DELETE_FLOW, fields follow the flow schema, actor is the current user |
| `EventFactory.SnapshotBucketName` | nifi-registry/nifi-registry-core/nifi-registry-framework/src/main/java/org/apache/nifi/registry/event/EventFactory.java:95 | BUCKET_NAME is empty without a bucket reference, else the reference's name with null made empty |
| `EventFactory.SnapshotFlowName` | nifi-registry/nifi-registry-core/nifi-registry-framework/src/main/java/org/apache/nifi/registry/event/EventFactory.java:97 | FLOW_NAME is empty without a BUCKET reference, else the flow reference's name with null made empty |
| `EventFactory.FlowVersionEvent` | nifi-registry/nifi-registry-core/nifi-registry-framework/src/main/java/org/apache/nifi/registry/event/EventFactory.java:88-103 | a flow-version event has exactly the eight fields of its schema, in order, with the values each is drawn from; the actor is the author and a null comment is empty |
| `EventFactory.FlowVersionCreated` | nifi-registry/nifi-registry-core/nifi-registry-framework/src/main/java/org/apache/nifi/registry/event/EventFactory.java:88-103 | type CREATE_FLOW_VERSION, fields follow the schema, actor is the snapshot author, FLOW_NAME is empty iff the bucket reference is absent or the flow name is null or empty |
| `EventFactory.SnapshotFlowNameGuardedOnFlow` | nifi-registry/nifi-registry-core/nifi-registry-framework/src/main/java/org/apache/nifi/registry/event/EventFactory.java:97 | FLOW_NAME guarded on the flow reference: empty without one, else its normalised name |
| `EventFactory.FlowVersionCreatedGuardedOnFlow` | nifi-registry/nifi-registry-core/nifi-registry-framework/src/main/java/org/apache/nifi/registry/event/EventFactory.java:88-103 | the corrected event needs no precondition; FLOW_NAME is empty iff the flow reference is absent or its name is null or empty |
| `EventFactoryProperties.FlowNameGuardsAgree` | nifi-registry/nifi-registry-core/nifi-registry-framework/src/main/java/org/apache/nifi/registry/event/EventFactory.java:97 | whenever the snapshot has both references or neither, the event as written equals the event guarded on the flow |
| `EventFactory.ExtensionBundleCreated` | nifi-registry/nifi-registry-core/nifi-registry-framework/src/main/java/org/apache/nifi/registry/event/EventFactory.java:105-112 | type CREATE_EXTENSION_BUNDLE, exactly BUCKET_ID, EXTENSION_BUNDLE_ID, USER with the bundle's ids and the current user |
| `EventFactory.ExtensionBundleDeleted` | nifi-registry/nifi-registry-core/nifi-registry-framework/src/main/java/org/apache/nifi/registry/event/EventFactory.java:114-121 | type DELETE_EXTENSION_BUNDLE, exactly BUCKET_ID, EXTENSION_BUNDLE_ID, USER with the bundle's ids and the current user |
| `EventFactory.ExtensionBundleVersionCreated` | nifi-registry/nifi-registry-core/nifi-registry-framework/src/main/java/org/apache/nifi/registry/event/EventFactory.java:123-131 | type CREATE_EXTENSION_BUNDLE_VERSION, exactly BUCKET_ID, EXTENSION_BUNDLE_ID, VERSION, USER from the version metadata and the current user |
| `EventFactory.ExtensionBundleVersionDeleted` | nifi-registry/nifi-registry-core/nifi-registry-framework/src/main/java/org/apache/nifi/registry/event/EventFactory.java:133-141 | type DELETE_EXTENSION_BUNDLE_VERSION, exactly BUCKET_ID, EXTENSION_BUNDLE_ID, VERSION, USER from the version metadata and the current user |
| `EventFactory.UserCreated` | nifi-registry/nifi-registry-core/nifi-registry-framework/src/main/java/org/apache/nifi/registry/event/EventFactory.java:143-150 | type CREATE_USER, exactly USER_ID, USER_IDENTITY, USER with the user's id, identity and the current user |
| `EventFactory.UserUpdated` | nifi-registry/nifi-registry-core/nifi-registry-framework/src/main/java/org/apache/nifi/registry/event/EventFactory.java:152-159 | type UPDATE_USER, exactly USER_ID, USER_IDENTITY, USER with the user's id, identity and the current user |
| `EventFactory.UserDeleted` | nifi-registry/nifi-registry-core/nifi-registry-framework/src/main/java/org/apache/nifi/registry/event/EventFactory.java:161-168 | type DELETE_USER, exactly USER_ID, USER_IDENTITY, USER with the user's id, identity and the current user |
| `EventFactory.UserGroupCreated` | nifi-registry/nifi-registry-core/nifi-registry-framework/src/main/java/org/apache/nifi/registry/event/EventFactory.java:170-177 | type CREATE_USER_GROUP, exactly USER_GROUP_ID, USER_GROUP_IDENTITY, USER with the group's id, identity and the current user |
| `EventFactory.UserGroupUpdated` | nifi-registry/nifi-registry-core/nifi-registry-framework/src/main/java/org/apache/nifi/registry/event/EventFactory.java:179-186 | type UPDATE_USER_GROUP, exactly USER_GROUP_ID, USER_GROUP_IDENTITY, USER with the group's id, identity and the current user |
| `EventFactory.UserGroupDeleted` | nifi-registry/nifi-registry-core/nifi-registry-framework/src/main/java/org/apache/nifi/registry/event/EventFactory.java:188-195 | type DELETE_USER_GROUP, exactly USER_GROUP_ID, USER_GROUP_IDENTITY, USER with the group's id, identity and the current user |
| `EventFactoryProperties.BucketEventsDifferOnlyInType` | nifi-registry/nifi-registry-core/nifi-registry-framework/src/main/java/org/apache/nifi/registry/event/EventFactory.java:38-48 | created, updated and deleted bucket events have identical field lists and pairwise distinct types |
| `EventFactoryProperties.BundleEventsDifferOnlyInType` | nifi-registry/nifi-registry-core/nifi-registry-framework/src/main/java/org/apache/nifi/registry/event/EventFactory.java:105-121 | created and deleted bundle events have identical field lists and distinct types |
| `EventFactoryProperties.BundleVersionEventsDifferOnlyInType` | nifi-registry/nifi-registry-core/nifi-registry-framework/src/main/java/org/apache/nifi/registry/event/EventFactory.java:123-141 | created and deleted bundle-version events have identical field lists and distinct types |
| `EventFactoryProperties.UserEventsDifferOnlyInType` | nifi-registry/nifi-registry-core/nifi-registry-framework/src/main/java/org/apache/nifi/registry/event/EventFactory.java:143-168 | created, updated and deleted user events have identical field lists and pairwise distinct types |
| `EventFactoryProperties.UserGroupEventsDifferOnlyInType` | nifi-registry/nifi-registry-core/nifi-registry-framework/src/main/java/org/apache/nifi/registry/event/EventFactory.java:170-195 | created, updated and deleted user-group events have identical field lists and pairwise distinct types |
| `EventFactoryProperties.BundleEventsHaveNoVersion` | nifi-registry/nifi-registry-core/nifi-registry-framework/src/main/java/org/apache/nifi/registry/event/EventFactory.java:105-121 | a lookup of VERSION in either bundle event finds nothing: the three fields are all it has |
| `EventFactoryProperties.BucketFieldsNormalised` | nifi-registry/nifi-registry-core/nifi-registry-framework/src/main/java/org/apache/nifi/registry/event/EventFactory.java:53-57 | six fields; description empty iff null or empty; public-read empty iff null, else `true`/`false` matching the flag; timestamp reads back unchanged |
| `EventFactoryProperties.FlowEventsDifferOnlyInType` | nifi-registry/nifi-registry-core/nifi-registry-framework/src/main/java/org/apache/nifi/registry/event/EventFactory.java:62-72 | created, updated and deleted flow events have identical field lists and pairwise distinct types |
| `EventFactoryProperties.FlowFieldsNormalised` | nifi-registry/nifi-registry-core/nifi-registry-framework/src/main/java/org/apache/nifi/registry/event/EventFactory.java:77-83 | eight fields; bucket name, flow name and description empty iff null or empty; both timestamps read back unchanged |
| `EventFactoryProperties.FlowVersionFieldsNormalised` | nifi-registry/nifi-registry-core/nifi-registry-framework/src/main/java/org/apache/nifi/registry/event/EventFactory.java:89-101 | without a bucket reference both names are empty, with one each is the referenced name normalised; comment empty iff null or empty; version reads back unchanged |
| `EventFactoryProperties.FlowVersionActorIsAuthor` | nifi-registry/nifi-registry-core/nifi-registry-framework/src/main/java/org/apache/nifi/registry/event/EventFactory.java:100 | the USER field of a flow-version event is the snapshot's author; no current-user identity enters it |
| `EventFactoryProperties.BundleEventsActorAndVersion` | nifi-registry/nifi-registry-core/nifi-registry-framework/src/main/java/org/apache/nifi/registry/event/EventFactory.java:105-141 | the four bundle events record the current user as USER; the VERSION field reads back as the metadata version |
| `EventFactoryProperties.BucketEventsActor` | nifi-registry/nifi-registry-core/nifi-registry-framework/src/main/java/org/apache/nifi/registry/event/EventFactory.java:58 | the three bucket events record the current user as USER |
| `EventFactoryProperties.FlowEventsActor` | nifi-registry/nifi-registry-core/nifi-registry-framework/src/main/java/org/apache/nifi/registry/event/EventFactory.java:84 | the three flow events record the current user as USER |
| `EventFactoryProperties.UserEventsActor` | nifi-registry/nifi-registry-core/nifi-registry-framework/src/main/java/org/apache/nifi/registry/event/EventFactory.java:143-168 | the three user events record the current user as USER |
| `EventFactoryProperties.UserGroupEventsActor` | nifi-registry/nifi-registry-core/nifi-registry-framework/src/main/java/org/apache/nifi/registry/event/EventFactory.java:170-195 | the three user-group events record the current user as USER |
| `EventFactoryProperties.BucketCreatedExample` | nifi-registry/nifi-registry-core/nifi-registry-framework/src/main/java/org/apache/nifi/registry/event/EventFactory.java:38-60 | bucket b1 "Reports", no description, timestamp 1000, no flag, user alice gives exactly the six expected fields |
| `EventFactoryProperties.UserGroupDeletedExample` | nifi-registry/nifi-registry-core/nifi-registry-framework/src/main/java/org/apache/nifi/registry/event/EventFactory.java:188-195 | deleting group g1 "admins" as bob gives exactly the three expected fields |
| `EventFactoryProperties.FlowNameGuardDiscrepancy` | nifi-registry/nifi-registry-core/nifi-registry-framework/src/main/java/org/apache/nifi/registry/event/EventFactory.java:97 | a snapshot naming its flow but lacking a bucket reference records an empty FLOW_NAME as written, the name when guarded on the flow |
| `HttpUtils.KeysDistinct` | nifi-extension-bundles/nifi-standard-bundle/nifi-standard-processors/src/main/java/org/apache/nifi/processors/standard/util/HTTPUtils.java:32-37 | the six attribute keys are pairwise distinct (all fifteen pairs) |
| `HttpUtils.ConcatText` | nifi-extension-bundles/nifi-standard-bundle/nifi-standard-processors/src/main/java/org/apache/nifi/processors/standard/util/HTTPUtils.java:45 | concatenating a null reference writes `null`, a present string writes itself |
| `HttpUtils.GetUri` | nifi-extension-bundles/nifi-standard-bundle/nifi-standard-processors/src/main/java/org/apache/nifi/processors/standard/util/HTTPUtils.java:39-49 | the URI's length is 7 or 8 (scheme) plus the lengths of the four rendered entries plus 2 |
| `HttpUtils.UriShape` | nifi-extension-bundles/nifi-standard-bundle/nifi-standard-processors/src/main/java/org/apache/nifi/processors/standard/util/HTTPUtils.java:44-48 | both branches write the same `client@server:port` + request URI behind `http://` or `https://` |
| `HttpUtils.UriScheme` | nifi-extension-bundles/nifi-standard-bundle/nifi-standard-processors/src/main/java/org/apache/nifi/processors/standard/util/HTTPUtils.java:44-48 | the URI starts with `http://` iff no subject is recorded, and with `https://` iff one is |
| `HttpUtils.CertificateOnlyChangesScheme` | nifi-extension-bundles/nifi-standard-bundle/nifi-standard-processors/src/main/java/org/apache/nifi/processors/standard/util/HTTPUtils.java:44-48 | adding a subject turns the URI without one into the same text with `https` for `http` |
| `HttpUtils.SameAddress` | nifi-extension-bundles/nifi-standard-bundle/nifi-standard-processors/src/main/java/org/apache/nifi/processors/standard/util/HTTPUtils.java:40-43 | maps that agree on every key except the subject have the same address text |
| `HttpUtils.UriDependsOnlyOnAddressEntries` | nifi-extension-bundles/nifi-standard-bundle/nifi-standard-processors/src/main/java/org/apache/nifi/processors/standard/util/HTTPUtils.java:39-48 | maps agreeing on the four address entries and on whether a subject is present give the same URI |
| `HttpUtils.UriIgnoresSubjectValue` | nifi-extension-bundles/nifi-standard-bundle/nifi-standard-processors/src/main/java/org/apache/nifi/processors/standard/util/HTTPUtils.java:44 | any two subject values give the same URI |
| `HttpUtils.UriIgnoresOtherEntries` | nifi-extension-bundles/nifi-standard-bundle/nifi-standard-processors/src/main/java/org/apache/nifi/processors/standard/util/HTTPUtils.java:37-48 | setting the context identifier or any other key outside the five read leaves the URI unchanged |
| `HttpUtils.MissingEntriesReadNull` | nifi-extension-bundles/nifi-standard-bundle/nifi-standard-processors/src/main/java/org/apache/nifi/processors/standard/util/HTTPUtils.java:40-47 | with all four address entries missing or null the URI is `http://null@null:nullnull` or `https://null@null:nullnull` |

## Left out

- `NiFiUserUtils.getNiFiUserIdentity()` reads the security context. It is the `currentUser` argument of each factory function instead.
- `EventFactory.FlowVersionCreated` has no `currentUser` argument, because the Java method never performs the lookup. "The current user does not affect the result" is therefore true by the function's signature. It is not a separate lemma.
- The builder `StandardEvent.Builder` and the classes `Event`, `EventType` and `EventFieldName` are not part of this model. The builder is modelled as appending to a sequence. Nothing is assumed about any checks `build()` or `addField` might make.
- `EventFactory.BucketEvent` (and the three public bucket functions) require a non-null bucket name. Line 54 passes the name through unnormalised, and what the builder does with a null value is not part of this model.
- `EventFactory.FlowVersionCreated` requires a flow reference whenever a bucket reference is present. Line 97 dereferences the flow in that case, and a null-pointer exception is not modelled as an outcome.
- Domain classes (`Bucket`, `VersionedFlow`, `VersionedFlowSnapshot`, `Bundle`, `BundleVersion`, `User`, `UserGroup`) are records of the attributes read. Identifiers, timestamps, versions, the author, user and user-group identities, and the snapshot and bundle-version metadata objects are non-null. A null entity argument is not modelled.
- The bundle version metadata's declared type is not part of this model. Its version is taken to be a 64-bit integer rendered in decimal. If it is in fact text, `String.valueOf` writes it unchanged and the decimal read-back in `EventFactoryProperties.BundleEventsActorAndVersion` does not apply; text versions such as "1.0.0" cannot be represented in this model.
- `String.valueOf(long/int)` is modelled by `Decimal.DecimalText`. It is not checked against the Java library.
- `HTTPUtils.setProxy` is left out. It only wires proxy and credential settings into Apache HttpClient objects and has no logic of its own to state.
- A Java map may use a null key, and `get` may throw for some map implementations. Neither is modelled: keys are plain strings.
- Concurrency, persistence and publication of events are not modelled. The code shown has none of them.

## Findings

| source | as written | input that shows it | evidently intended | confidence | as-written member | corrected member |
|---|---|---|---|---|---|---|
| nifi-registry/nifi-registry-core/nifi-registry-framework/src/main/java/org/apache/nifi/registry/event/EventFactory.java:97 | FLOW_NAME is guarded on `getBucket() == null` and then dereferences `getFlow()` | a snapshot with no bucket reference and flow reference named "ingest" records FLOW_NAME `""`. A snapshot with a bucket reference but no flow reference throws | guard on `getFlow() == null`, as line 95 does for the bucket | medium, not executed | `EventFactoryProperties.FlowNameGuardDiscrepancy` | `EventFactory.FlowVersionCreatedGuardedOnFlow` |
