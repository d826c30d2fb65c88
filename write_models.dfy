/**
 * The write instructions the engine hands to the driver, as values: the
 * `Builders<BsonDocument>` filter and update definitions and the two
 * WriteModel kinds it builds (both with IsUpsert = false, which is left implicit).
 */
module Writes {
  import opened Bson

  datatype UpdateOp =
    | SetOp(path: string, value: Value)                 // Update.Set
    | UnsetOp(path: string)                             // Update.Unset
    | IncOp(path: string, amount: Value)                // Update.Inc
    | PushOp(path: string, value: Value)                // Update.Push
    | PushEachOp(path: string, values: seq<Value>)      // Update.PushEach
    | PullOp(path: string, value: Value)                // Update.Pull
    | PullAllOp(path: string, values: seq<Value>)       // Update.PullAll

  /** A conjunction of field equalities (`Filter.Eq(..) & Filter.Eq(..)`). */
  datatype Filter = Filter(eqs: seq<(string, Value)>)

  datatype WriteModel =
    | UpdateOne(filter: Filter, updates: seq<UpdateOp>)     // the combined update
    | ReplaceOne(filter: Filter, replacement: seq<Field>)   // the whole-document replace
}
