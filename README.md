# MongoCTLite change tracking, modelled in Dafny

MongoCTLite is a small unit-of-work layer over the MongoDB C# driver. An entity is
*attached* to a `TrackingContext`, which keeps its BSON snapshot and its expected
version. On `SaveChangesAsync` the context does the following for each entity:

- It serializes the entity again and diffs the result against the snapshot
  (`DiffEngine`).
- It turns the diff into one optimistic-concurrency write model. This is an
  `UpdateOne` of `$set`/`$unset`/`$inc`/`$push`/`$pull` plus `$inc version 1`, or a
  `ReplaceOne` when there are too many field operations. Either way it is filtered
  on the id and the expected version.
- It groups the models by the entry's collection handle and sends one bulk
  write per handle, retrying transient driver errors with a doubling back-off.
  Each entry obtains its own handle when it is attached, so in effect this is
  one bulk write per changed entity.
- It reports unmatched filters as a concurrency conflict.

This project models that core and proves properties of it.

| module (file) | what it models | form |
|---|---|---|
| `Bson` (bson.dfy) | BSON values and documents: an ordered field list where the first field of a name wins; `long` wrap-around (`Wrap64`) | values |
| `BsonUtils` (bson_utils.dfy) | `IsNumeric`, `AreBothNumeric`, `ToInt64Safe`, `Equals`, and BsonValue's `==` operator (`OperatorEquals`) | functions |
| `PathUtils` (path_utils.dfy) | `Join` of dotted update paths | function |
| `ArrayUtils` (array_utils.dfy) | append-only and remove-only tests, appended and removed elements, the change-ratio loop | functions, methods with loops |
| `ArrayDiff` (array_diff.dfy) | DiffArray's choice of patch, what `$push`/`$pullAll`/`$set` then do to the stored array, and a corrected choice | functions, lemmas |
| `Updates` (update_ops.dfy) | the `UpdateOps` container: five insertion-ordered buckets updated in place, `FieldOpsCount`, `IsEmpty`, `NumericDelta` | class over a value state |
| `Policy` (diff_policy.dfy) | `DiffPolicy` with its `AllowInc`/`AllowUnset` predicates | values |
| `Writes` (write_models.dfy) | the write models and update definitions the engine emits | values |
| `TrackingEntries` (tracking_entry.dfy) | the `TrackingEntry` constructor and `TryGetVersion` | functions |
| `DiffEngine` (diff_engine.dfy) | the recursive diff as methods that mutate an `UpdateOps`, each proved equal to a specification function, plus `BuildModel`, `CreateReplaceModel`, `CreateUpdateModel` | methods, functions |
| `DiffFacts` (diff_facts.dfy) | properties of the diff and of the models | lemmas |
| `Registry` (registry.dfy) | `TrackingMetadataRegistry` | class |
| `Tracking` (tracking_context.dfy) | `TrackingContext` with its entry list, `Attach`, `SaveChangesAsync`, `DoBulkWithRetry`, `IsTransient`, `SaveChangesOptions` | class, methods, spec functions |
| `TrackingFacts` (tracking_facts.dfy) | properties of the retry loop, the entry loop, the grouping and the save | lemmas |

## How the model reads the code

- **Documents.** A `BsonDocument` is a sequence of fields. `current[key]` and
  `TryGetValue` return the first field of that name. The key sets of DiffDocument
  (`Names.ToHashSet()`) are the names without repeats, in document order. That is
  the order a `HashSet<string>` that is only ever added to enumerates them in.
- **Buckets and equality.** The dictionaries and the `HashSet` of `UpdateOps` are
  insertion-ordered association lists. Overwriting a key keeps its position, as
  `Dictionary` does when nothing is removed. `BsonValue.Equals` is structural
  equality of values. The id check of `BuildModel` and `CreateReplaceModel` uses
  BsonValue's `!=` operator instead, which compares an `int` and a `long` by
  number (`BsonUtils.OperatorEquals`). The server's filter matching is read the
  same way (`DiffEngine.FilterMatches`).
- **Increments.** `ops.Incs[path] = exists ? existing + delta : delta`
  (DiffEngine.cs:121-123) does not type-check as written: `NumericDelta` has no
  `+` operator, and a `long` does not convert to it. It is modelled as
  `existing.Add(delta)` for a path already present. A fresh path gets a
  `NumericDelta` whose type tag is absent (`None`), because the code gives it none.
  `Update.Inc(path, delta)` (DiffEngine.cs:212) is handed the struct itself; the
  model reads it as an increment by the delta's `long` value, an `Int64`.
  The `long` subtraction `ToInt64Safe(current) - ToInt64Safe(original)`, `Add` and
  `ExpectedVersion + 1` wrap around, as unchecked C# arithmetic does.
- **Driver.** The driver is an oracle `Driver`. It gives the outcome of the n-th
  `BulkWriteAsync` of a save for a collection and its models: a matched count or an
  exception kind. Sessions, transactions and back-off waits are recorded as a
  sequence of `Event`s. The oracle's matched count is not bounded by the number of
  models sent; the save's lemmas hold for every driver. When more documents match
  than were requested, the code still returns `totalReq` (TrackingContext.cs:90-94),
  and so does the model.
- **Grouping.** A collection handle carries an identity and its full name.
  `modelsByCol` groups by handle identity, like the reference-keyed dictionary of
  the code. The entry's constructor obtains a new `IMongoCollection<BsonDocument>`
  from `col.Database.GetCollection` (TrackingEntry.cs:20). The context numbers
  these handles as it attaches (`TrackingContext.handles`), so no two entries share
  one (`Tracking.OwnHandles`). Then every group holds exactly one model
  (`TrackingFacts.OneGroupPerChangedEntry`). Duplicate detection uses the full name
  and the id's `ToString()`.
- **Saving.** A save reads each entity's state at save time through `serialize`, and
  `BsonValue.ToString` through `idString`. Both are parameters of `SaveEnv`.
- **Version field.** The version field is the literal `"version"` everywhere, and
  `Attach` always builds its entry with the id field `"_id"`. The registry is never
  consulted by any of them, so it is modelled as a class of its own.
- **Clearing the entries.** The code clears its entries in a `finally` that only
  starts after the entry loop. So a save that fails in that loop leaves every entry
  attached: an id modified, or the same document changed twice. So does an empty
  context. A save that reaches the writes clears them whether it succeeds or fails.
  `TrackingFacts.SaveClears` states exactly this. It is narrower than a reading of
  the save as "always clears its entries"; the model follows the code.
- **Conflicts in a transaction.** A concurrency conflict inside a transaction is
  detected after `CommitTransactionAsync`. The thrown exception then reaches the
  `catch`, which calls `AbortTransactionAsync`. The model records a commit followed
  by an abort (`TrackingFacts.TransactionBracket`).
- **Dotted paths.** `Join` is not injective: `Join("a", "b.c") == Join("a.b", "c")`
  (`PathUtils.JoinCollides`). Two different fields can therefore meet in one bucket
  entry.

## Model

| member | source | states |
|---|---|---|
| Bson.Wrap64 | MongoCTLite/Diff/UpdateOps.cs:34 | the result is a 64-bit value, and it equals the input whenever the input already fits in a `long` |
| Bson.Wrap64Congruent | MongoCTLite/Diff/UpdateOps.cs:34 | the wrapped value differs from the exact one by a multiple of 2^64 |
| Bson.Lookup | MongoCTLite/Diff/DiffEngine.cs:85 | the lookup finds nothing exactly when no field has that name |
| Bson.FirstIndex | MongoCTLite/Diff/DiffEngine.cs:83 | the field a name reads is the first field with that name |
| Bson.SetField | MongoCTLite/Diff/DiffEngine.cs:190-191 | an indexer write keeps the names in order and appends the name only when it is new |
| Bson.SetFieldLookup | MongoCTLite/Diff/DiffEngine.cs:190-191 | after `doc[k] = v`, reading `k` gives `v` and every other name reads as before |
| BsonUtils.NumericValues | MongoCTLite/Diff/BsonUtils.cs:10-16 | a value is numeric exactly when it is an Int32, Int64, Double or Decimal128 |
| BsonUtils.BothNumeric | MongoCTLite/Diff/BsonUtils.cs:21-24 | `AreBothNumeric` holds exactly when both types are numeric |
| BsonUtils.ToInt64Safe | MongoCTLite/Diff/BsonUtils.cs:29-39 | Int32 is widened, Int64 is kept, and a non-numeric value gives 0 |
| BsonUtils.EqualsIsEquivalence | MongoCTLite/Diff/BsonUtils.cs:44-47 | the equality the diff uses is reflexive, symmetric and transitive |
| BsonUtils.Equals | MongoCTLite/Diff/BsonUtils.cs:44-47 | structural equality; its properties are `BsonUtils.EqualsIsEquivalence` |
| BsonUtils.IsNumeric | MongoCTLite/Diff/BsonUtils.cs:10-16 | the four numeric types; characterised by `BsonUtils.NumericValues` |
| BsonUtils.AreBothNumeric | MongoCTLite/Diff/BsonUtils.cs:21-24 | both types numeric; characterised by `BsonUtils.BothNumeric` |
| BsonUtils.OperatorEqualsIsCoarser | MongoCTLite/Diff/DiffEngine.cs:23 | BsonValue's `==` is an equivalence that holds whenever `Equals` does, and also between an Int32 and the Int64 of the same number |
| PathUtils.Join | MongoCTLite/Diff/PathUtils.cs:8-18 | an empty prefix gives the key; a key starting with '[' is appended as is; any other key is appended after a dot |
| PathUtils.JoinExtendsPrefix | MongoCTLite/Diff/PathUtils.cs:8-18 | under a non-empty prefix the path starts with the prefix and is longer by the key, plus at most one separator |
| PathUtils.JoinUnderPrefixHasSeparator | MongoCTLite/Diff/PathUtils.cs:14-17 | under a non-empty prefix the character after the prefix is '.' or '[' |
| PathUtils.JoinCollides | MongoCTLite/Diff/PathUtils.cs:8-18 | two different prefix/key pairs can join to the same path |
| ArrayUtils.IsAppendOnly | MongoCTLite/Diff/ArrayUtils.cs:11-23 | true exactly when the current array is at least as long and agrees with the original at every original index |
| ArrayUtils.GetAppendedElements | MongoCTLite/Diff/ArrayUtils.cs:64-70 | for an append-only change, the original followed by the result is the current array; otherwise empty |
| ArrayUtils.Missing | MongoCTLite/Diff/ArrayUtils.cs:75-81 | each value missing from the current array keeps its full multiplicity from the original; present values are dropped |
| ArrayUtils.GetRemovedElements | MongoCTLite/Diff/ArrayUtils.cs:75-81 | for a remove-only change, the original's elements that the current array lacks; otherwise empty |
| ArrayUtils.MissingConcat | MongoCTLite/Diff/ArrayUtils.cs:75-81 | the missing elements of a concatenation are the missing elements of each part |
| ArrayUtils.MissingMembers | MongoCTLite/Diff/ArrayUtils.cs:75-81 | a value is reported removed exactly when it is in the original and not in the current array |
| ArrayUtils.EqualIsAppendOnly | MongoCTLite/Diff/ArrayUtils.cs:11-23 | an unchanged array is append-only with nothing appended |
| ArrayUtils.SameValuesRemoveNothing | MongoCTLite/Diff/ArrayUtils.cs:28-34 | a shorter-or-equal array over the same values is remove-only with nothing removed |
| ArrayUtils.PermutationRemovesNothing | MongoCTLite/Diff/ArrayUtils.cs:28-34 | any permutation of the original counts as remove-only with nothing removed |
| ArrayUtils.RemoveOnly | MongoCTLite/Diff/ArrayUtils.cs:28-34 | the remove-only test; its consequences are `ArrayUtils.SameValuesRemoveNothing`, `ArrayUtils.PermutationRemovesNothing` and the first Findings row |
| ArrayUtils.CommonCount | MongoCTLite/Diff/ArrayUtils.cs:48-55 | the count of equal index-aligned positions never exceeds the positions compared |
| ArrayUtils.CommonCountFull | MongoCTLite/Diff/ArrayUtils.cs:48-55 | all compared positions agree exactly when the count reaches their number |
| ArrayUtils.CalculateChangeRatio | MongoCTLite/Diff/ArrayUtils.cs:39-59 | the loop computes the mismatched aligned positions plus the length change, over the longer length |
| ArrayUtils.ChangeRatioBounds | MongoCTLite/Diff/ArrayUtils.cs:37-59 | the ratio lies between 0 and 1 and is 0 exactly for equal arrays; the two empty-original cases give 0 and 1 |
| ArrayUtils.ChangeRatio | MongoCTLite/Diff/ArrayUtils.cs:39-59 | the ratio as a fraction; its bounds are `ArrayUtils.ChangeRatioBounds`, and `ArrayUtils.CalculateChangeRatio` computes it |
| ArrayDiff.PullAll | MongoCTLite/Diff/DiffEngine.cs:219-222 | `$pullAll` keeps exactly the elements not equal to a listed value |
| ArrayDiff.Classify | MongoCTLite/Diff/DiffEngine.cs:151-180 | DiffArray's choice of patch; when it reproduces the current array is `ArrayDiff.ClassifyConvergesIff` |
| ArrayDiff.Present | MongoCTLite/Diff/DiffEngine.cs:162-168 | the original's elements still present are no more than the original |
| ArrayDiff.PullMissingIsPresent | MongoCTLite/Diff/DiffEngine.cs:162-168 | pulling the removed values from the original leaves exactly the original's still-present elements, in order |
| ArrayDiff.NothingMissing | MongoCTLite/Diff/DiffEngine.cs:162-168 | when nothing is missing, every original element is present |
| ArrayDiff.PresentMembers | MongoCTLite/Diff/DiffEngine.cs:162-168 | every present element is in both arrays |
| ArrayDiff.ClassifyConvergesIff | MongoCTLite/Diff/DiffEngine.cs:145-180 | DiffArray's patch reproduces the current array exactly when the change is an append, not remove-only, or the original with values pulled out |
| ArrayDiff.ReorderIsLost | MongoCTLite/Diff/DiffEngine.cs:162-168 | swapping two different elements yields no patch, and the stored array stays unswapped |
| ArrayDiff.DuplicateDropIsLost | MongoCTLite/Diff/DiffEngine.cs:162-168 | dropping one of two equal elements yields no patch |
| ArrayDiff.ReorderedRemovalIsMisapplied | MongoCTLite/Diff/DiffEngine.cs:162-168 | `[a,b,d]` to `[d,a]` pulls `b` and leaves `[a,d]` stored |
| ArrayDiff.CorrectedConverges | MongoCTLite/Diff/DiffEngine.cs:145-180 | the corrected patch always reproduces the current array, and is empty exactly when nothing changed |
| ArrayDiff.CorrectedRemoveOnlyIsRemoveOnly | MongoCTLite/Diff/ArrayUtils.cs:28-34 | the corrected remove-only test only narrows the code's test |
| ArrayDiff.CorrectionOnlyWhereWrong | MongoCTLite/Diff/DiffEngine.cs:145-180 | wherever the two classifiers differ, the code's patch fails to reproduce the current array |
| Updates.Paths | MongoCTLite/Diff/UpdateOps.cs:11-17 | a bucket's paths, one per entry, in order |
| Updates.Get | MongoCTLite/Diff/UpdateOps.cs:11-17 | a bucket read finds nothing exactly when the path is not a key |
| Updates.Put | MongoCTLite/Diff/UpdateOps.cs:11-17 | a dictionary write keeps existing keys in place and appends a new key at the end |
| Updates.PutGet | MongoCTLite/Diff/UpdateOps.cs:11-17 | after a write, its path reads the written value and every other path reads as before |
| Updates.AddPath | MongoCTLite/Diff/UpdateOps.cs:12 | afterwards the set holds exactly the old paths and the added one; it is unchanged exactly when the path was already there, and otherwise grows by that path at the end |
| Updates.NumericDelta.Add | MongoCTLite/Diff/UpdateOps.cs:34 | the type tag is kept, and the amount is the exact sum when that fits in a `long` |
| Updates.PutDistinct | MongoCTLite/Diff/UpdateOps.cs:11-17 | writing keeps a bucket's keys distinct and grows it only by a new key |
| Updates.AddPathDistinct | MongoCTLite/Diff/UpdateOps.cs:12 | a set add keeps the paths distinct and grows the set only by a new path |
| Updates.DistinctCard | MongoCTLite/Diff/UpdateOps.cs:19 | distinct keys: the number of entries is the number of keys |
| Updates.CountIsDistinctPaths | MongoCTLite/Diff/UpdateOps.cs:19 | in a valid container `FieldOpsCount` is the sum over the buckets of their distinct paths |
| Updates.IsEmptyIff | MongoCTLite/Diff/UpdateOps.cs:20 | `IsEmpty` holds exactly when all five buckets are empty; a new container is empty, valid and counts 0 |
| Updates.RewriteKeepsCount | MongoCTLite/Diff/UpdateOps.cs:19 | rewriting a path already present leaves the count unchanged; each write reads back its value |
| Updates.WritesKeepValid | MongoCTLite/Diff/UpdateOps.cs:11-17 | every kind of write keeps every bucket free of repeated keys |
| Updates.UpdateOps.constructor | MongoCTLite/Diff/UpdateOps.cs:8-17 | a new container is empty |
| Updates.UpdateOps.SetValue | MongoCTLite/Diff/DiffEngine.cs:87 | `Sets[path] = v` changes exactly the Sets bucket, by that write |
| Updates.UpdateOps.AddUnset | MongoCTLite/Diff/DiffEngine.cs:74 | `Unsets.Add(path)` changes exactly the Unsets set, by that add |
| Updates.UpdateOps.SetInc | MongoCTLite/Diff/DiffEngine.cs:121-123 | `Incs[path] = d` changes exactly the Incs bucket, by that write |
| Updates.UpdateOps.SetPush | MongoCTLite/Diff/DiffEngine.cs:157 | `Pushes[path] = vals` changes exactly the Pushes bucket, by that write |
| Updates.UpdateOps.SetPull | MongoCTLite/Diff/DiffEngine.cs:166 | `Pulls[path] = vals` changes exactly the Pulls bucket, by that write |
| Policy.DefaultPolicy | MongoCTLite/Abstractions/DiffPolicy.cs:3-11 | the default replaces beyond 32 field operations, allows `$inc` nowhere and `$unset` everywhere |
| Policy.PredicatesDecide | MongoCTLite/Abstractions/DiffPolicy.cs:10-11 | a supplied predicate decides; a missing one means no `$inc` and yes to `$unset` |
| Policy.DiffPolicy.AllowInc | MongoCTLite/Abstractions/DiffPolicy.cs:10 | the predicate's verdict, or false without one (`Policy.PredicatesDecide`) |
| Policy.DiffPolicy.AllowUnset | MongoCTLite/Abstractions/DiffPolicy.cs:11 | the predicate's verdict, or true without one (`Policy.PredicatesDecide`) |
| TrackingEntries.TryGetVersion | MongoCTLite/Tracking/TrackingEntry.cs:38-49 | a version is found exactly when the document has a "version" field of type Int32 or Int64, and it is that field's number |
| TrackingEntries.TryGetVersionWidens | MongoCTLite/Tracking/TrackingEntry.cs:43-48 | the version found is the number `ToInt64Safe` reads from the same field, so the constructor and the diff agree on it |
| TrackingEntries.NewTrackingEntry | MongoCTLite/Tracking/TrackingEntry.cs:17-36 | construction succeeds exactly when the id field exists and a version is given or found; the entry keeps the snapshot, the id under the id field and the right version |
| TrackingEntries.ExplicitVersionWins | MongoCTLite/Tracking/TrackingEntry.cs:31-35 | an explicit version is used even when the snapshot's "version" is missing or mistyped |
| TrackingEntries.ImplicitVersionNeedsInteger | MongoCTLite/Tracking/TrackingEntry.cs:31-35 | without an explicit version, construction fails with the version error exactly when "version" is not an Int32 or Int64 |
| TrackingEntries.ConstructedEntries | MongoCTLite/Tracking/TrackingEntry.cs:17-29 | a constructed entry uses "_id" by default and its id is the snapshot's value there |
| DiffEngine.Dedup | MongoCTLite/Diff/DiffEngine.cs:59-60 | the key set has no repeats and the same members as the names |
| DiffEngine.WithoutReserved | MongoCTLite/Diff/DiffEngine.cs:62-66 | at the root exactly "_id" and "version" are removed, below it nothing |
| DiffEngine.KeySet | MongoCTLite/Diff/DiffEngine.cs:59-66 | the keys compared are the distinct names, less the reserved ones at the root |
| DiffEngine.DiffDocument | MongoCTLite/Diff/DiffEngine.cs:52-93 | the container ends as the document specification applied to the one before |
| DiffEngine.RemoveMissingKeys | MongoCTLite/Diff/DiffEngine.cs:69-77 | the loop records each removed key as `$unset` or `$set null`, by policy |
| DiffEngine.DiffCurrentKeys | MongoCTLite/Diff/DiffEngine.cs:80-92 | the loop sets each new key and diffs each common one, in key order |
| DiffEngine.DiffKey | MongoCTLite/Diff/DiffEngine.cs:82-91 | one current key: Set when absent from the original, else a value diff |
| DiffEngine.DiffValue | MongoCTLite/Diff/DiffEngine.cs:95-143 | the container ends as the value specification: nothing when equal, recursion for documents and arrays, numbers, null, else Set |
| DiffEngine.DiffNumber | MongoCTLite/Diff/DiffEngine.cs:115-130 | under `$inc` a non-zero wrapped delta is recorded; otherwise the current value is Set |
| DiffEngine.AddIncrement | MongoCTLite/Diff/DiffEngine.cs:121-123 | an existing increment is added to; a new path starts untagged |
| DiffEngine.RemoveField | MongoCTLite/Diff/DiffEngine.cs:73-76 | `$unset` when the policy allows it, else `$set` to null |
| DiffEngine.DiffArray | MongoCTLite/Diff/DiffEngine.cs:145-180 | the container records DiffArray's patch: Push, Pull, Set or nothing |
| DiffEngine.ComputeDiff | MongoCTLite/Diff/DiffEngine.cs:42-50 | a fresh container holding the diff of the two documents from the root |
| DiffEngine.PairFilterMatches | MongoCTLite/Diff/DiffEngine.cs:192 | a filter `f.Eq(a, va) & f.Eq(b, vb)` matches exactly the documents that match both equalities |
| DiffEngine.VersionFilter | MongoCTLite/Diff/DiffEngine.cs:192 | a stored document matches exactly when its id field equals the entry's id and its "version" equals the expected version (numeric equality across `int`/`long`) |
| DiffEngine.SetUpdates | MongoCTLite/Diff/DiffEngine.cs:205-206 | one `$set` per Sets entry |
| DiffEngine.UnsetUpdates | MongoCTLite/Diff/DiffEngine.cs:208-209 | one `$unset` per Unsets path |
| DiffEngine.IncUpdates | MongoCTLite/Diff/DiffEngine.cs:211-212 | one `$inc` per Incs entry |
| DiffEngine.PushUpdates | MongoCTLite/Diff/DiffEngine.cs:214-217 | one push per Pushes entry |
| DiffEngine.PullUpdates | MongoCTLite/Diff/DiffEngine.cs:219-222 | one pull per Pulls entry |
| DiffEngine.BuildModel | MongoCTLite/Diff/DiffEngine.cs:16-40 | the method returns the model specification's result (its meaning is `DiffFacts.ModelOutcome`) |
| DiffEngine.CreateReplaceModel | MongoCTLite/Diff/DiffEngine.cs:182-198 | the method returns the replace specification (its meaning is `DiffFacts.ReplacePayload`) |
| DiffEngine.CreateUpdateModel | MongoCTLite/Diff/DiffEngine.cs:200-233 | the model is the combined update of the container in bucket order, filtered on id and version |
| DiffEngine.AddSetUpdates | MongoCTLite/Diff/DiffEngine.cs:205-206 | the loop appends the Sets bucket's updates |
| DiffEngine.AddUnsetUpdates | MongoCTLite/Diff/DiffEngine.cs:208-209 | the loop appends the Unsets updates |
| DiffEngine.AddIncUpdates | MongoCTLite/Diff/DiffEngine.cs:211-212 | the loop appends the Incs updates |
| DiffEngine.AddPushUpdates | MongoCTLite/Diff/DiffEngine.cs:214-217 | the loop appends the Pushes updates |
| DiffEngine.AddPullUpdates | MongoCTLite/Diff/DiffEngine.cs:219-222 | the loop appends the Pulls updates |
| DiffFacts.NothingRemoved | MongoCTLite/Diff/DiffEngine.cs:69-77 | when every original key is still present, the removal loop records nothing |
| DiffFacts.NothingChanged | MongoCTLite/Diff/DiffEngine.cs:80-92 | when each key reads the same in both documents, the current-key loop records nothing |
| DiffFacts.AgreeingDocumentsRecordNothing | MongoCTLite/Diff/DiffEngine.cs:52-93 | documents that agree on every compared key produce no operation |
| DiffFacts.EqualDocumentsRecordNothing | MongoCTLite/Diff/DiffEngine.cs:42-93 | diffing a document against itself gives an empty container |
| DiffFacts.RootIdKeepsId | MongoCTLite/Diff/DiffEngine.cs:26-27 | filling in a missing "_id" changes no other field and does not make the id check fail |
| DiffFacts.UnchangedEntityNeedsNoWrite | MongoCTLite/Diff/DiffEngine.cs:16-32 | an entity whose unreserved fields are unchanged gets no write model |
| DiffFacts.SnapshotNeedsNoWrite | MongoCTLite.Tests/Tests.cs:104-119 | the entity exactly as attached needs no write |
| DiffFacts.ModelOutcome | MongoCTLite/Diff/DiffEngine.cs:16-40 | BuildModel fails exactly on a modified id; else no model for an empty diff, a replace over the threshold, the combined update otherwise |
| DiffFacts.ReplacePayload | MongoCTLite/Diff/DiffEngine.cs:182-198 | the replacement is filtered on id and version, carries the id and version+1, and keeps every other field |
| DiffFacts.NextVersion | MongoCTLite/Diff/DiffEngine.cs:191-192 | the version written is one more than the one filtered on, below the `long` maximum |
| DiffFacts.ReplaceIsNotRematched | MongoCTLite/Diff/DiffEngine.cs:190-192 | the document a replace stores no longer matches the replace's own filter, so a second write from the same snapshot matches nothing |
| DiffFacts.IdWidthChangeAccepted | MongoCTLite/Diff/DiffEngine.cs:23-24 | an `int` id read back as the `long` of the same number is not a modified id, and a model is built |
| DiffFacts.SetUpdatesAt | MongoCTLite/Diff/DiffEngine.cs:205-206 | the i-th `$set` is the i-th Sets entry |
| DiffFacts.UnsetUpdatesAt | MongoCTLite/Diff/DiffEngine.cs:208-209 | the i-th `$unset` is the i-th Unsets path |
| DiffFacts.IncUpdatesAt | MongoCTLite/Diff/DiffEngine.cs:211-212 | the i-th `$inc` is the i-th Incs entry as an Int64 amount |
| DiffFacts.PushUpdatesAt | MongoCTLite/Diff/DiffEngine.cs:214-217 | the i-th push is the i-th Pushes entry |
| DiffFacts.PullUpdatesAt | MongoCTLite/Diff/DiffEngine.cs:219-222 | the i-th pull is the i-th Pulls entry |
| DiffFacts.UpdateListShape | MongoCTLite/Diff/DiffEngine.cs:203-224 | the update list has one entry per field operation plus the trailing `$inc version 1`; Sets come first, then Unsets |
| DiffFacts.UpdateListIncs | MongoCTLite/Diff/DiffEngine.cs:211-212 | the Incs follow the Sets and Unsets, in bucket order |
| DiffFacts.UpdateListPushes | MongoCTLite/Diff/DiffEngine.cs:214-217 | the Pushes follow, in bucket order |
| DiffFacts.UpdateListPulls | MongoCTLite/Diff/DiffEngine.cs:219-222 | the Pulls come last before the version bump |
| DiffFacts.SingleValueForms | MongoCTLite/Diff/DiffEngine.cs:214-222 | push and pull use the single-value form exactly for one value, else `$each`/`$pullAll` |
| DiffFacts.JoinNotReserved | MongoCTLite/Diff/DiffEngine.cs:62-71 | a path below the root, or from an unreserved key, is never a reserved root name |
| DiffFacts.SetKeepsClean | MongoCTLite/Diff/DiffEngine.cs:87 | a Set of an unreserved path keeps the container clean (distinct keys, no reserved root path) |
| DiffFacts.UnsetKeepsClean | MongoCTLite/Diff/DiffEngine.cs:74 | an Unset of an unreserved path keeps the container clean |
| DiffFacts.IncKeepsClean | MongoCTLite/Diff/DiffEngine.cs:121-123 | an Inc of an unreserved path keeps the container clean |
| DiffFacts.PushKeepsClean | MongoCTLite/Diff/DiffEngine.cs:157 | a Push of an unreserved path keeps the container clean |
| DiffFacts.PullKeepsClean | MongoCTLite/Diff/DiffEngine.cs:166 | a Pull of an unreserved path keeps the container clean |
| DiffFacts.RemovalKeepsClean | MongoCTLite/Diff/DiffEngine.cs:73-76 | recording a removal keeps the container clean |
| DiffFacts.ArrayOpsClean | MongoCTLite/Diff/DiffEngine.cs:145-180 | an array diff keeps the container clean |
| DiffFacts.NumericOpsClean | MongoCTLite/Diff/DiffEngine.cs:115-130 | a numeric diff keeps the container clean |
| DiffFacts.RemovedOpsClean | MongoCTLite/Diff/DiffEngine.cs:69-77 | the removal loop keeps the container clean |
| DiffFacts.CurrentOpsClean | MongoCTLite/Diff/DiffEngine.cs:80-92 | the current-key loop keeps the container clean |
| DiffFacts.KeyOpsClean | MongoCTLite/Diff/DiffEngine.cs:82-91 | one key's diff keeps the container clean |
| DiffFacts.DocumentOpsClean | MongoCTLite/Diff/DiffEngine.cs:52-93 | a document diff at any prefix keeps the container clean |
| DiffFacts.ValueOpsClean | MongoCTLite/Diff/DiffEngine.cs:95-143 | a value diff at an unreserved path keeps the container clean |
| DiffFacts.DiffIsClean | MongoCTLite/Diff/DiffEngine.cs:42-50 | the diff never repeats a path in a bucket nor names a root "_id" or "version", so `FieldOpsCount` counts distinct paths |
| DiffFacts.ReservedSkippedAtRoot | MongoCTLite/Diff/DiffEngine.cs:62-66 | changing and adding root "version" and "_id" records nothing |
| DiffFacts.ReservedDiffedBelowRoot | MongoCTLite/Diff/DiffEngine.cs:62-66 | "version" inside a sub-document is diffed like any other key |
| DiffFacts.NestedDocumentDiffed | MongoCTLite/Diff/DiffEngine.cs:107-109 | a changed sub-document is diffed recursively under its key as prefix |
| DiffFacts.IncrementReachesCurrent | MongoCTLite/Diff/DiffEngine.cs:118 | the wrapped delta added back to the original with wrap-around gives the current value |
| DiffFacts.ZeroDeltaIffEqual | MongoCTLite/Diff/DiffEngine.cs:118-119 | the wrapped delta is zero exactly when the two numbers are equal |
| DiffFacts.IntegerIncrement | MongoCTLite/Diff/DiffEngine.cs:115-125 | two integers under `$inc`: nothing when equal as numbers, else one untagged increment of their difference |
| DiffFacts.NumericOpsIncrement | MongoCTLite/Diff/DiffEngine.cs:116-124 | the numeric step under `$inc` records nothing for equal numbers, else the wrapped difference |
| DiffFacts.WidthChangeUnderIncIsLost | MongoCTLite/Diff/DiffEngine.cs:115-125 | Int32 5 becoming Int64 5 writes nothing under `$inc`; becoming 7 increments by 2 |
| Registry.LookupMetadata | MongoCTLite/Tracking/TrackingMetadataRegistry.cs:15-21 | the lookup succeeds exactly for a registered type, with its metadata, else the not-tracked error |
| Registry.TrackingMetadataRegistry.constructor | MongoCTLite/Tracking/TrackingMetadataRegistry.cs:8 | a new registry is empty |
| Registry.TrackingMetadataRegistry.Register | MongoCTLite/Tracking/TrackingMetadataRegistry.cs:10-13 | the type now maps to its metadata and every other type keeps its lookup |
| Registry.TrackingMetadataRegistry.GetOrThrow | MongoCTLite/Tracking/TrackingMetadataRegistry.cs:15-21 | the registered metadata, or the error for an unregistered type |
| Registry.UnregisteredUnchanged | MongoCTLite/Tracking/TrackingMetadataRegistry.cs:10-13 | registrations of other types leave a type's lookup as it was |
| Registry.LastRegistrationWins | MongoCTLite/Tracking/TrackingMetadataRegistry.cs:10-13 | a type's lookup is its last registration |
| Tracking.DefaultOptions | MongoCTLite/Tracking/SaveChangesOptions.cs:5-7 | the defaults themselves; what they mean for a save is `TrackingFacts.DefaultOptionsEffect` |
| Tracking.DoBulkWithRetry | MongoCTLite/Tracking/TrackingContext.cs:112-139 | the loop's outcome, events and call count are those of the retry specification, from an 80 ms back-off |
| Tracking.IsTransient | MongoCTLite/Tracking/TrackingContext.cs:141-146 | the five retried exception kinds; `TrackingFacts.NonTransientNotRetried` and `TrackingFacts.RetryOutcome` use it |
| Tracking.TrackingContext.constructor | MongoCTLite/Tracking/TrackingContext.cs:10 | a new context has no entries and has obtained no handle; its invariant holds |
| Tracking.TrackingContext.NewHandle | MongoCTLite/Tracking/TrackingEntry.cs:20 | `GetCollection<BsonDocument>` gives a handle numbered after every earlier one, on the typed collection's namespace |
| Tracking.TrackingContext.Attach | MongoCTLite/Tracking/TrackingContext.cs:12-17 | the entry is constructed under "_id" with a new handle and appended; a failed construction adds no entry; the entries keep handles of their own |
| Tracking.TrackingContext.AttachChecked | MongoCTLite.Tests/Tests.cs:87-101 | as Attach, but an entry with the key of an attached one is refused, so the keys stay distinct and the handles stay the entries' own |
| Tracking.TrackingContext.BuildPlan | MongoCTLite/Tracking/TrackingContext.cs:35-51 | the entry loop's result is the plan specification over the attached entries |
| Tracking.TrackingContext.SaveChanges | MongoCTLite/Tracking/TrackingContext.cs:22-110 | the result and events are the save specification's; the entries are cleared exactly when it reaches the `finally`; the invariant is kept |
| Tracking.PlanErrorSticks | MongoCTLite/Tracking/TrackingContext.cs:35-51 | once the entry loop throws, later entries do not change the error |
| Tracking.ExecuteGroups | MongoCTLite/Tracking/TrackingContext.cs:72-84 | the group loop's totals and events are the execution specification's |
| TrackingFacts.RetryCount | MongoCTLite/Tracking/TrackingContext.cs:123-138 | at least one call, at most one per retry left plus one, and exactly one once retries are used up |
| TrackingFacts.RetryOutcome | MongoCTLite/Tracking/TrackingContext.cs:123-138 | every call before the last failed transiently; the last call's outcome is returned; a transient failure is thrown only when retries ran out |
| TrackingFacts.RetryEvents | MongoCTLite/Tracking/TrackingContext.cs:121-137 | the events alternate a bulk write with a back-off that doubles each time |
| TrackingFacts.BulkWithRetryBounds | MongoCTLite/Tracking/TrackingContext.cs:112-139 | at most MaxRetries+1 attempts; the k-th retry waits 80·2^k ms; a non-transient failure is passed through |
| TrackingFacts.NonTransientNotRetried | MongoCTLite/Tracking/TrackingContext.cs:132-137 | a non-transient failure is thrown after one call |
| TrackingFacts.DuplicateStep | MongoCTLite/Tracking/TrackingContext.cs:41-43 | a duplicate exists exactly when a changed entry's key was already seen among the earlier ones |
| TrackingFacts.ChangedKeyOf | MongoCTLite/Tracking/TrackingContext.cs:41-43 | a changed entry's key is among the changed keys |
| TrackingFacts.ChangedKeyWitness | MongoCTLite/Tracking/TrackingContext.cs:41-43 | every changed key belongs to a changed entry |
| TrackingFacts.PlanSeen | MongoCTLite/Tracking/TrackingContext.cs:32-43 | after the loop, `seen` is exactly the set of changed entries' keys |
| TrackingFacts.PlanSucceedsIff | MongoCTLite/Tracking/TrackingContext.cs:35-51 | the loop succeeds exactly when no id was modified and no document changed twice |
| TrackingFacts.NothingChangedPlansNothing | MongoCTLite/Tracking/TrackingContext.cs:37-39 | with no model built, nothing is seen and no group exists |
| TrackingFacts.AddToGroupEffect | MongoCTLite/Tracking/TrackingContext.cs:45-50 | a model joins its handle's group or opens one at the end; one model more in total |
| TrackingFacts.CollectionsDistinct | MongoCTLite/Tracking/TrackingContext.cs:33 | each handle has at most one group |
| TrackingFacts.PlanGroups | MongoCTLite/Tracking/TrackingContext.cs:35-51 | there is one group per handle in first-use order, each holding its handle's models in attach order, one model per changed entry |
| TrackingFacts.ModelsForAbsent | MongoCTLite/Tracking/TrackingContext.cs:45-50 | a handle no changed entry uses gets no model |
| TrackingFacts.CollectionsUsed | MongoCTLite/Tracking/TrackingContext.cs:45-50 | a handle that has a group is the handle of some entry |
| TrackingFacts.OwnHandlesCollections | MongoCTLite/Tracking/TrackingContext.cs:45-50 | when no two entries share a handle, there are as many handles with models as changed entries, each with one model |
| TrackingFacts.OneGroupPerChangedEntry | MongoCTLite/Tracking/TrackingContext.cs:33-51 | with entries from Attach (own handles), every group holds exactly one model and there is one group per changed entry |
| TrackingFacts.ExecuteTotals | MongoCTLite/Tracking/TrackingContext.cs:59-84 | the group loop only appends events and requests one write per model; matched never drops |
| TrackingFacts.SaveClears | MongoCTLite/Tracking/TrackingContext.cs:28-110 | an empty context saves 0 without clearing; otherwise the entries are cleared exactly when the entry loop succeeds |
| TrackingFacts.NothingChangedSavesNothing | MongoCTLite/Tracking/TrackingContext.cs:53-57 | with nothing changed, the save writes nothing, returns 0 and clears |
| TrackingFacts.SaveCounts | MongoCTLite/Tracking/TrackingContext.cs:59-94 | a successful save returns the number of changed entries; a conflict reports a positive shortfall no larger |
| TrackingFacts.TransactionBracket | MongoCTLite/Tracking/TrackingContext.cs:65-104 | with a transaction, the writes follow a session and transaction start and end in commit, abort, or commit then abort on a conflict |
| TrackingFacts.RetryIsPlain | MongoCTLite/Tracking/TrackingContext.cs:121-137 | the retry loop emits only bulk writes and back-off waits |
| TrackingFacts.ExecuteIsPlain | MongoCTLite/Tracking/TrackingContext.cs:72-84 | the group loop adds only bulk writes and back-off waits |
| TrackingFacts.DefaultOptionsEffect | MongoCTLite/Tracking/SaveChangesOptions.cs:5-7 | under the defaults the writes are unordered, a save emits no session or transaction event, and each bulk write is attempted at most three times |
| TrackingFacts.SameDocumentAttachesTwice | MongoCTLite/Tracking/TrackingContext.cs:12-17 | attaching the same entity twice builds two entries with the same key, so the attached entries then hold a duplicate key |
| TrackingFacts.SameEntryTwice | MongoCTLite/Tracking/TrackingContext.cs:41-43 | two entries for one document: the save reports a duplicate when it changed, and nothing otherwise |
| TrackingFacts.NoDuplicateKeysNoDuplicateDocument | MongoCTLite/Tracking/TrackingContext.cs:41-43 | with distinct keys the save never reports a duplicate and succeeds exactly when no id was modified |

## Left out

- Asynchrony, `CancellationToken`, the `IRunLogger` calls and the real `Task.Delay` wait are left out. A wait is an event, not a pause.
- Disposing the session is left out, and so is a failure of `StartSessionAsync`, `CommitTransactionAsync` or `AbortTransactionAsync` itself: in the model these calls always succeed. The session handed to `BulkWriteAsync` is not part of the `BulkWrite` event.
- `Ordered` is carried in `SaveOptions` but has no effect on the oracle's answer, because the driver is not modelled.
- `ArrayChangeRatioForReplace` is not modelled: both branches of its comparison in DiffArray write the same `$set`, so the ratio cannot change a result. `CalculateChangeRatio` is modelled on its own with an exact fraction (`Ratio`) in place of the `double` division.
- BsonUtils.ToInt64Safe: the `(long)` casts of Double and Decimal128 are supplied as `FloatCasts`, because floating point is not modelled.
- Serializing an entity (`ToBsonDocument`) and `BsonValue.ToString` are supplied as functions in `SaveEnv`.
- The source generator and `TrackingEntryAdapter` are not modelled. The adapter is only a forwarding wrapper.
- Tracking.TrackingContext.SaveChanges does not model the `(int)` cast of `MatchedCount` or an `int` overflow of the totals; totals are unbounded integers.
- Tracking.DoBulkWithRetry does not model a `TimeSpan` overflow of the doubling delay.
- Thread safety of the registry's `ConcurrentDictionary` is not modelled; the model is sequential.
- The registry is not connected to Attach or the engine, because the code never consults it.
- CollectionHandle stands in for `IMongoCollection<BsonDocument>`: an identity for the dictionary key, and the namespace's full name. TypedCollection stands in for the `IMongoCollection<T>` passed to Attach; only its full name is kept. The driver's own `Equals` on collections is taken to be reference equality, so two handles from two `GetCollection` calls are different keys.
- BsonUtils.OperatorEquals models BsonValue's `==`/`!=` only between `int` and `long`; a comparison of an integer with a `double` or a `Decimal128`, and of two doubles (NaN), is structural in the model.
- DiffEngine.FilterMatches, `$pull` and `$pullAll`: the server's matching is modelled on that same equality, so a value the server would match across numeric types (a `double` 1.0 against an `int` 1) is treated as different. ArrayDiff.ClassifyConvergesIff and ArrayDiff.CorrectedConverges hold for a server that matches that way.
- The `Incs` assignment at DiffEngine.cs:121-123 and the `Update.Inc` call at DiffEngine.cs:212 do not compile as written (no `+` on `NumericDelta`, no conversion from `long`, and no increment by a struct); the model gives them the meaning described above instead of a type error.

## Findings

| source | as written | input that shows it | evidently intended | confidence | as-written member | corrected member |
|---|---|---|---|---|---|---|
| MongoCTLite/Diff/ArrayUtils.cs:28-34 | remove-only means "not longer, and every current element occurs in the original"; DiffEngine.cs:162-168 then pulls the missing values, or writes nothing | `[a,b]` to `[b,a]` writes nothing; `[a,b,d]` to `[d,a]` pulls `b` and leaves `[a,d]` | an array patch that reproduces the current array (its `$pull` removes every copy, in place) | not executed | ArrayDiff.ReorderedRemovalIsMisapplied | ArrayDiff.CorrectedConverges |
| MongoCTLite/Tracking/TrackingContext.cs:12-17 | Attach appends a new entry without looking at the entries already attached | attaching the same entity twice succeeds twice (the test at MongoCTLite.Tests/Tests.cs:87-101 expects an exception) | a second Attach of an already attached document is refused | not executed | TrackingFacts.SameDocumentAttachesTwice | Tracking.TrackingContext.AttachChecked |

The engine (`DiffEngine.DiffArray`, `DiffEngine.ArrayOps`) keeps the code's
classification, because it models the writes the code actually sends.
`ArrayDiff.ClassifyCorrected` is the drop-in replacement for it.
`ArrayDiff.CorrectionOnlyWhereWrong` shows that the replacement changes only those
inputs where the code's patch is wrong. `TrackingContext.Attach` likewise stays as
written, next to `AttachChecked`. `TrackingFacts.NoDuplicateKeysNoDuplicateDocument`
proves that entries attached through AttachChecked never make a save fail on a
duplicate.
