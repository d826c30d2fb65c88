/**
 * TrackingEntry: one attached entity, with its snapshot, its id and the version
 * the stored document is expected to still carry.
 */
module TrackingEntries {
  import opened Wrappers
  import opened Bson
  import opened BsonUtils

  /**
   * The `IMongoCollection<BsonDocument>` handle of an entry: an object, compared
   * by reference (`identity`), and the namespace full name it writes to.
   */
  datatype CollectionHandle = CollectionHandle(identity: nat, fullName: string)

  /** The live entity object, by reference; its serialized form is supplied by the caller of a save. */
  type EntityRef = nat

  datatype TrackingEntry = TrackingEntry(
    collection: CollectionHandle,
    entity: EntityRef,
    id: Value,
    expectedVersion: Int64,
    idField: string,
    original: seq<Field>)

  datatype AttachError =
    | MissingIdField(idField: string)    // "must have an `{IdField}` field"
    | MissingVersion                     // "Document must contain a numeric `version` field."

  /**
   * TryGetVersion: a version is found exactly when the snapshot has a "version"
   * field of an integer type, and it is that field's number, widened to `long`.
   */
  function TryGetVersion(doc: seq<Field>): (r: Option<Int64>)
    ensures r.Some? <==> Lookup(doc, "version").Some? && (Lookup(doc, "version").value.I32? || Lookup(doc, "version").value.I64?)
    ensures r.Some? ==> OperatorEquals(Lookup(doc, "version").value, I64(r.value))
  {
    match Lookup(doc, "version")
    case Some(I32(x)) => Some(x)
    case Some(I64(x)) => Some(x)
    case _ => None
  }

  /** The version read agrees with the way the diff reads a number (ToInt64Safe). */
  lemma TryGetVersionWidens(doc: seq<Field>, casts: FloatCasts)
    ensures TryGetVersion(doc).Some? ==> TryGetVersion(doc).value == ToInt64Safe(Lookup(doc, "version").value, casts)
  {
  }

  /**
   * The constructor: takes the snapshot (the serializer's output for the entity
   * at this moment), looks the id up under `idField` (default "_id"), and uses
   * the explicit version if one is given, else the snapshot's own.
   */
  function NewTrackingEntry(collection: CollectionHandle, entity: EntityRef, snapshot: seq<Field>,
                            expectedVersion: Option<Int64>, idField: string := "_id"): (r: Result<TrackingEntry, AttachError>)
    ensures r.Ok? <==> idField in Names(snapshot) && (expectedVersion.Some? || TryGetVersion(snapshot).Some?)
    ensures idField !in Names(snapshot) ==> r == Err(MissingIdField(idField))
    ensures r.Ok? ==> r.value.original == snapshot && Lookup(snapshot, idField) == Some(r.value.id)
                      && r.value.idField == idField && r.value.collection == collection && r.value.entity == entity
    ensures r.Ok? && expectedVersion.Some? ==> r.value.expectedVersion == expectedVersion.value
    ensures r.Ok? && expectedVersion.None? ==> Some(r.value.expectedVersion) == TryGetVersion(snapshot)
  {
    match Lookup(snapshot, idField)
    case None => Err(MissingIdField(idField))
    case Some(id) =>
      var version := if expectedVersion.Some? then expectedVersion else TryGetVersion(snapshot);
      if version.None? then Err(MissingVersion)
      else Ok(TrackingEntry(collection, entity, id, version.value, idField, snapshot))
  }

  /** What every constructed entry satisfies: its id is the snapshot's value under its id field. */
  predicate WellFormed(e: TrackingEntry) {
    Lookup(e.original, e.idField) == Some(e.id)
  }

  /** An explicit version wins even over a missing or mistyped "version" field. */
  lemma ExplicitVersionWins(collection: CollectionHandle, entity: EntityRef, snapshot: seq<Field>, v: Int64, idField: string)
    requires idField in Names(snapshot)
    ensures NewTrackingEntry(collection, entity, snapshot, Some(v), idField).Ok?
    ensures NewTrackingEntry(collection, entity, snapshot, Some(v), idField).value.expectedVersion == v
  {
  }

  /** Without an explicit version, attaching fails unless "version" holds an Int32 or an Int64. */
  lemma ImplicitVersionNeedsInteger(collection: CollectionHandle, entity: EntityRef, snapshot: seq<Field>, idField: string)
    requires idField in Names(snapshot)
    ensures NewTrackingEntry(collection, entity, snapshot, None, idField).Err? <==>
              !(Lookup(snapshot, "version").Some? && (Lookup(snapshot, "version").value.I32? || Lookup(snapshot, "version").value.I64?))
    ensures NewTrackingEntry(collection, entity, snapshot, None, idField).Err? ==>
              NewTrackingEntry(collection, entity, snapshot, None, idField) == Err(MissingVersion)
  {
  }

  /** Entries are well formed, and the id field defaults to "_id". */
  lemma ConstructedEntries(collection: CollectionHandle, entity: EntityRef, snapshot: seq<Field>, ev: Option<Int64>)
    ensures NewTrackingEntry(collection, entity, snapshot, ev).Ok? ==>
              NewTrackingEntry(collection, entity, snapshot, ev).value.idField == "_id"
              && WellFormed(NewTrackingEntry(collection, entity, snapshot, ev).value)
  {
  }
}
