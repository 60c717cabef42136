/**
 * The audit event record of the registry's hook API: an event type tag and an
 * ordered list of named string fields, assembled by a builder that appends one
 * field per call.
 */
module Events {
  import opened Wrappers

  /** One tag per (entity, mutation) pair. */
  datatype EventType =
    | CreateBucket | UpdateBucket | DeleteBucket
    | CreateFlow | UpdateFlow | DeleteFlow
    | CreateFlowVersion
    | CreateExtensionBundle | DeleteExtensionBundle
    | CreateExtensionBundleVersion | DeleteExtensionBundleVersion
    | CreateUser | UpdateUser | DeleteUser
    | CreateUserGroup | UpdateUserGroup | DeleteUserGroup

  /** The field keys an event may carry; `User` is the actor who caused the event. */
  datatype EventFieldName =
    | BucketId | BucketName | BucketDescription
    | CreatedTimestamp | ModifiedTimestamp | AllowPublicRead
    | FlowId | FlowName | FlowDescription
    | Version | Comment | ExtensionBundleId
    | UserId | UserIdentity | UserGroupId | UserGroupIdentity
    | User

  datatype EventField = EventField(name: EventFieldName, value: string)

  datatype Event = Event(eventType: EventType, fields: seq<EventField>)

  /**
   * The fluent event builder: `eventType(t)` fixes the tag, each `addField`
   * appends one field, and `build()` snapshots both into an event.
   */
  datatype Builder = Builder(eventType: EventType, fields: seq<EventField>) {

    function AddField(name: EventFieldName, value: string): (b: Builder)
      ensures b.eventType == eventType
      ensures b.fields == fields + [EventField(name, value)]
    {
      Builder(eventType, fields + [EventField(name, value)])
    }

    function Build(): (e: Event)
      ensures e.eventType == eventType && e.fields == fields
    {
      Event(eventType, fields)
    }
  }

  /** A fresh builder whose event type has been set and which holds no field yet. */
  function NewBuilder(eventType: EventType): (b: Builder)
    ensures b.eventType == eventType && b.fields == []
  {
    Builder(eventType, [])
  }

  /** The names of the fields, in order. */
  function Names(fields: seq<EventField>): (ns: seq<EventFieldName>)
    ensures |ns| == |fields|
    ensures forall i :: 0 <= i < |fields| ==> ns[i] == fields[i].name
  {
    seq(|fields|, i requires 0 <= i < |fields| => fields[i].name)
  }

  /** The values of the fields, in order. */
  function Values(fields: seq<EventField>): (vs: seq<string>)
    ensures |vs| == |fields|
    ensures forall i :: 0 <= i < |fields| ==> vs[i] == fields[i].value
  {
    seq(|fields|, i requires 0 <= i < |fields| => fields[i].value)
  }

  /** The value of the first field called `name`, if there is one. */
  function FieldValue(fields: seq<EventField>, name: EventFieldName): Option<string> {
    if fields == [] then None
    else if fields[0].name == name then Some(fields[0].value)
    else FieldValue(fields[1..], name)
  }

  /**
   * The ordered field names each event type carries: the per-kind contract
   * every factory method must reproduce.
   */
  function FieldSchema(t: EventType): seq<EventFieldName> {
    match t
    case CreateBucket | UpdateBucket | DeleteBucket =>
      [BucketId, BucketName, BucketDescription, CreatedTimestamp, AllowPublicRead, User]
    case CreateFlow | UpdateFlow | DeleteFlow =>
      [BucketId, BucketName, FlowId, FlowName, FlowDescription, CreatedTimestamp, ModifiedTimestamp, User]
    case CreateFlowVersion =>
      [BucketId, BucketName, FlowId, FlowName, Version, ModifiedTimestamp, User, Comment]
    case CreateExtensionBundle | DeleteExtensionBundle =>
      [BucketId, ExtensionBundleId, User]
    case CreateExtensionBundleVersion | DeleteExtensionBundleVersion =>
      [BucketId, ExtensionBundleId, Version, User]
    case CreateUser | UpdateUser | DeleteUser =>
      [UserId, UserIdentity, User]
    case CreateUserGroup | UpdateUserGroup | DeleteUserGroup =>
      [UserGroupId, UserGroupIdentity, User]
  }

  /** The event carries exactly the fields its type prescribes, in order. */
  predicate Conforms(e: Event) {
    Names(e.fields) == FieldSchema(e.eventType)
  }

  predicate NoDuplicates(ns: seq<EventFieldName>) {
    forall i, j :: 0 <= i < j < |ns| ==> ns[i] != ns[j]
  }

  /** No event type asks for the same field twice, and every one names an actor. */
  lemma SchemaIsWellFormed(t: EventType)
    ensures NoDuplicates(FieldSchema(t))
    ensures User in FieldSchema(t)
  {
  }

  /** In a list without repeated names, looking a field up by name finds that very field. */
  lemma {:induction false} FieldValueAt(fields: seq<EventField>, i: nat)
    requires NoDuplicates(Names(fields))
    requires i < |fields|
    ensures FieldValue(fields, fields[i].name) == Some(fields[i].value)
  {
    if i > 0 {
      var rest := fields[1..];
      assert Names(rest) == Names(fields)[1..];
      assert fields[0].name != fields[i].name by {
        assert Names(fields)[0] != Names(fields)[i];
      }
      FieldValueAt(rest, i - 1);
    }
  }

  /** A name that does not occur among the fields is not found by a lookup. */
  lemma {:induction false} FieldValueAbsent(fields: seq<EventField>, name: EventFieldName)
    requires name !in Names(fields)
    ensures FieldValue(fields, name) == None
  {
    if fields != [] {
      assert Names(fields[1..]) == Names(fields)[1..];
      assert fields[0].name == Names(fields)[0];
      FieldValueAbsent(fields[1..], name);
    }
  }

  /**
   * Looking up a field by name in a conforming event gives the value at the
   * schema position of that name.
   */
  lemma ConformingLookup(e: Event, i: nat)
    requires Conforms(e)
    requires i < |FieldSchema(e.eventType)|
    ensures FieldValue(e.fields, FieldSchema(e.eventType)[i]) == Some(e.fields[i].value)
  {
    SchemaIsWellFormed(e.eventType);
    FieldValueAt(e.fields, i);
  }

  /** Looking up a name outside the schema in a conforming event finds nothing. */
  lemma ConformingLookupAbsent(e: Event, name: EventFieldName)
    requires Conforms(e)
    requires name !in FieldSchema(e.eventType)
    ensures FieldValue(e.fields, name) == None
  {
    FieldValueAbsent(e.fields, name);
  }
}
