/**
 * DiffEngine: compares an entity's snapshot with its current serialized form,
 * fills an UpdateOps container, and turns it into one write instruction.
 *
 * Each recursive step of the diff is specified by a function on the container's
 * contents (an OpsState): DocumentOps, ValueOps and ArrayOps, with the two
 * field loops of DiffDocument as the folds RemovedOps and CurrentOps. The
 * methods of the same names fill a live UpdateOps and are proved to leave it
 * in exactly the state the functions compute.
 */
module DiffEngine {
  import opened Wrappers
  import opened Bson
  import opened BsonUtils
  import opened PathUtils
  import opened ArrayUtils
  import opened ArrayDiff
  import opened Updates
  import opened Policy
  import opened Writes
  import opened TrackingEntries

  /** ReservedRootKeys: never diffed at the top level. */
  predicate ReservedRootKey(k: string) {
    k == "_id" || k == "version"
  }

  // ---------------------------------------------------------------------------
  // The key sets of DiffDocument
  // ---------------------------------------------------------------------------

  /** `ToHashSet()` over a name list: each name once, in order of first appearance. */
  function Dedup(ns: seq<string>): (r: seq<string>)
    ensures Distinct(r)
    ensures forall k :: k in r <==> k in ns
  {
    if ns == [] then []
    else
      var init := ns[..|ns| - 1];
      var last := ns[|ns| - 1];
      assert ns == init + [last];
      var p := Dedup(init);
      if last in p then p else p + [last]
  }

  /** `ExceptWith(ReservedRootKeys)`, applied only at the root. */
  function WithoutReserved(ks: seq<string>, root: bool): (r: seq<string>)
    ensures forall k :: k in r <==> k in ks && !(root && ReservedRootKey(k))
    ensures Distinct(ks) ==> Distinct(r)
  {
    if ks == [] then []
    else
      var init := ks[..|ks| - 1];
      var last := ks[|ks| - 1];
      assert ks == init + [last];
      assert Distinct(ks) ==> Distinct(init) && last !in init;
      var p := WithoutReserved(init, root);
      if root && ReservedRootKey(last) then p else p + [last]
  }

  /** The key set DiffDocument iterates for one document. */
  function KeySet(fs: seq<Field>, root: bool): (r: seq<string>)
    ensures Distinct(r)
    ensures forall k :: k in r <==> k in Names(fs) && !(root && ReservedRootKey(k))
  {
    WithoutReserved(Dedup(Names(fs)), root)
  }

  // ---------------------------------------------------------------------------
  // Specification of the diff, on the container's contents
  // ---------------------------------------------------------------------------

  /** A field that is gone, or has become null: Unset when the policy allows it, else Set to null. */
  function RecordRemoval(path: string, policy: DiffPolicy, st: OpsState): OpsState {
    if policy.AllowUnset(path) then st.WithUnset(path) else st.WithSet(path, Null)
  }

  /** The first loop of DiffDocument over the first n original keys: those not among the current keys. */
  function RemovedOps(prefix: string, originalKeys: seq<string>, currentKeys: seq<string>, policy: DiffPolicy,
                      n: nat, st: OpsState): OpsState
    requires n <= |originalKeys|
  {
    if n == 0 then st
    else
      var prev := RemovedOps(prefix, originalKeys, currentKeys, policy, n - 1, st);
      var key := originalKeys[n - 1];
      if key in currentKeys then prev else RecordRemoval(Join(prefix, key), policy, prev)
  }

  /** The second loop of DiffDocument over the first n of the current keys `keys`. */
  function CurrentOps(prefix: string, o: seq<Field>, c: seq<Field>, keys: seq<string>, policy: DiffPolicy, casts: FloatCasts,
                      n: nat, st: OpsState): OpsState
    requires n <= |keys|
    decreases Doc(c), 1, n
  {
    if n == 0 then st
    else KeyOps(prefix, o, c, keys[n - 1], policy, casts, CurrentOps(prefix, o, c, keys, policy, casts, n - 1, st))
  }

  /**
   * The body of that loop for one current key: a new field is Set, an existing
   * one is diffed. (A key that current does not hold is never passed.)
   */
  function KeyOps(prefix: string, o: seq<Field>, c: seq<Field>, key: string, policy: DiffPolicy, casts: FloatCasts,
                  st: OpsState): OpsState
    decreases Doc(c), 0, 0
  {
    if key !in Names(c) then st
    else
      var path := Join(prefix, key);
      var currentValue := c[FirstIndex(c, key)].value;
      match Lookup(o, key)
      case None => st.WithSet(path, currentValue)
      case Some(originalValue) => ValueOps(path, originalValue, currentValue, policy, casts, st)
  }

  /** DiffDocument: removed keys first, then every current key. */
  function DocumentOps(prefix: string, o: seq<Field>, c: seq<Field>, policy: DiffPolicy, casts: FloatCasts,
                       st: OpsState): OpsState
    decreases Doc(c), 2, 0
  {
    var root := |prefix| == 0;
    var originalKeys, currentKeys := KeySet(o, root), KeySet(c, root);
    var afterRemoved := RemovedOps(prefix, originalKeys, currentKeys, policy, |originalKeys|, st);
    CurrentOps(prefix, o, c, currentKeys, policy, casts, |currentKeys|, afterRemoved)
  }

  /** The increment recorded for a numeric change: the existing one plus delta, or a fresh untagged one. */
  function IncFor(st: OpsState, path: string, delta: Int64): NumericDelta {
    match Get(st.incs, path)
    case Some(existing) => existing.Add(delta)
    case None => NumericDelta(delta, None)
  }

  /** The `long` delta DiffValue computes between two numbers: the subtraction wraps. */
  function IncDelta(o: Value, c: Value, casts: FloatCasts): Int64 {
    Wrap64(ToInt64Safe(c, casts) - ToInt64Safe(o, casts))
  }

  /** The numeric case of DiffValue. */
  function NumericOps(path: string, o: Value, c: Value, policy: DiffPolicy, casts: FloatCasts, st: OpsState): OpsState {
    if policy.AllowInc(path) then
      var delta := IncDelta(o, c, casts);
      if delta != 0 then st.WithInc(path, IncFor(st, path, delta)) else st
    else st.WithSet(path, c)
  }

  /** Records an array patch in the bucket it belongs to. */
  function RecordPatch(path: string, p: ArrayPatch, st: OpsState): OpsState {
    match p
    case NoPatch => st
    case PushValues(vals) => st.WithPush(path, vals)
    case PullValues(vals) => st.WithPull(path, vals)
    case SetArray(vals) => st.WithSet(path, Arr(vals))
  }

  /** DiffArray. */
  function ArrayOps(path: string, o: seq<Value>, c: seq<Value>, st: OpsState): OpsState {
    RecordPatch(path, Classify(o, c), st)
  }

  /** DiffValue: the cases in the order the switch tries them. */
  function ValueOps(path: string, o: Value, c: Value, policy: DiffPolicy, casts: FloatCasts, st: OpsState): OpsState
    decreases c, 3, 0
  {
    if Equals(o, c) then st
    else if o.Doc? && c.Doc? then DocumentOps(path, o.fields, c.fields, policy, casts, st)
    else if o.Arr? && c.Arr? then ArrayOps(path, o.elems, c.elems, st)
    else if AreBothNumeric(o, c) then NumericOps(path, o, c, policy, casts, st)
    else if c.Null? then RecordRemoval(path, policy, st)
    else st.WithSet(path, c)
  }

  /** ComputeDiff: the root document diffed into an empty container. */
  function DiffOps(o: seq<Field>, c: seq<Field>, policy: DiffPolicy, casts: FloatCasts): OpsState {
    DocumentOps("", o, c, policy, casts, EmptyOps)
  }

  // ---------------------------------------------------------------------------
  // The diff, filling a live container
  // ---------------------------------------------------------------------------

  method DiffDocument(prefix: string, o: seq<Field>, c: seq<Field>, ops: UpdateOps, policy: DiffPolicy, casts: FloatCasts)
    modifies ops
    ensures ops.State() == DocumentOps(prefix, o, c, policy, casts, old(ops.State()))
    decreases Doc(c), 2, 0
  {
    var root := |prefix| == 0;
    var originalKeys := KeySet(o, root);
    var currentKeys := KeySet(c, root);
    RemoveMissingKeys(prefix, originalKeys, currentKeys, ops, policy);
    DiffCurrentKeys(prefix, o, c, currentKeys, ops, policy, casts);
  }

  /** The first loop of DiffDocument: each original key that is not a current key. */
  method RemoveMissingKeys(prefix: string, originalKeys: seq<string>, currentKeys: seq<string>, ops: UpdateOps, policy: DiffPolicy)
    modifies ops
    ensures ops.State() == RemovedOps(prefix, originalKeys, currentKeys, policy, |originalKeys|, old(ops.State()))
  {
    ghost var st := ops.State();
    for i := 0 to |originalKeys|
      invariant ops.State() == RemovedOps(prefix, originalKeys, currentKeys, policy, i, st)
    {
      var key := originalKeys[i];
      if key !in currentKeys {
        RemoveField(Join(prefix, key), ops, policy);
      }
    }
  }

  /** The second loop of DiffDocument: each current key, new or diffed against its original value. */
  method DiffCurrentKeys(prefix: string, o: seq<Field>, c: seq<Field>, currentKeys: seq<string>, ops: UpdateOps,
                         policy: DiffPolicy, casts: FloatCasts)
    requires forall k :: k in currentKeys ==> k in Names(c)
    modifies ops
    ensures ops.State() == CurrentOps(prefix, o, c, currentKeys, policy, casts, |currentKeys|, old(ops.State()))
    decreases Doc(c), 1, 0
  {
    ghost var st := ops.State();
    for j := 0 to |currentKeys|
      invariant ops.State() == CurrentOps(prefix, o, c, currentKeys, policy, casts, j, st)
    {
      assert currentKeys[j] in currentKeys;
      DiffKey(prefix, o, c, currentKeys[j], ops, policy, casts);
    }
  }

  /** The body of the second loop of DiffDocument. */
  method DiffKey(prefix: string, o: seq<Field>, c: seq<Field>, key: string, ops: UpdateOps, policy: DiffPolicy, casts: FloatCasts)
    requires key in Names(c)
    modifies ops
    ensures ops.State() == KeyOps(prefix, o, c, key, policy, casts, old(ops.State()))
    decreases Doc(c), 0, 0
  {
    var path := Join(prefix, key);
    var currentValue := c[FirstIndex(c, key)].value;
    var originalValue := Lookup(o, key);
    if originalValue.None? {
      ops.SetValue(path, currentValue);
    } else {
      DiffValue(path, originalValue.value, currentValue, ops, policy, casts);
    }
  }

  method DiffValue(path: string, o: Value, c: Value, ops: UpdateOps, policy: DiffPolicy, casts: FloatCasts)
    modifies ops
    ensures ops.State() == ValueOps(path, o, c, policy, casts, old(ops.State()))
    decreases c, 3, 0
  {
    if Equals(o, c) {
      return;
    }
    if o.Doc? && c.Doc? {
      DiffDocument(path, o.fields, c.fields, ops, policy, casts);
    } else if o.Arr? && c.Arr? {
      DiffArray(path, o.elems, c.elems, ops);
    } else if AreBothNumeric(o, c) {
      DiffNumber(path, o, c, ops, policy, casts);
    } else if c.Null? {
      RemoveField(path, ops, policy);
    } else {
      ops.SetValue(path, c);
    }
  }

  /** The numeric case of DiffValue. */
  method DiffNumber(path: string, o: Value, c: Value, ops: UpdateOps, policy: DiffPolicy, casts: FloatCasts)
    modifies ops
    ensures ops.State() == NumericOps(path, o, c, policy, casts, old(ops.State()))
  {
    if policy.AllowInc(path) {
      var delta := IncDelta(o, c, casts);
      if delta != 0 {
        AddIncrement(path, delta, ops);
      }
    } else {
      ops.SetValue(path, c);
    }
  }

  /** Folds a delta into the increment already recorded at `path`, if any. */
  method AddIncrement(path: string, delta: Int64, ops: UpdateOps)
    modifies ops
    ensures ops.State() == old(ops.State()).WithInc(path, IncFor(old(ops.State()), path, delta))
  {
    var existing := Get(ops.incs, path);
    var inc := if existing.Some? then existing.value.Add(delta) else NumericDelta(delta, None);
    assert inc == IncFor(ops.State(), path, delta);
    ops.SetInc(path, inc);
  }

  /** A removed or nulled field. */
  method RemoveField(path: string, ops: UpdateOps, policy: DiffPolicy)
    modifies ops
    ensures ops.State() == RecordRemoval(path, policy, old(ops.State()))
  {
    if policy.AllowUnset(path) {
      ops.AddUnset(path);
    } else {
      ops.SetValue(path, Null);
    }
  }

  method DiffArray(path: string, o: seq<Value>, c: seq<Value>, ops: UpdateOps)
    modifies ops
    ensures ops.State() == ArrayOps(path, o, c, old(ops.State()))
  {
    var appendOnly := IsAppendOnly(o, c);
    if appendOnly {
      var appended := GetAppendedElements(o, c);
      if |appended| > 0 {
        ops.SetPush(path, appended);
      }
      return;
    }
    if RemoveOnly(o, c) {
      var removed := GetRemovedElements(o, c);
      if |removed| > 0 {
        ops.SetPull(path, removed);
      }
      return;
    }
    // The change ratio is compared with ArrayChangeRatioForReplace, and both
    // outcomes of that comparison replace the whole array.
    var ratio := CalculateChangeRatio(o, c);
    ops.SetValue(path, Arr(c));
  }

  method ComputeDiff(o: seq<Field>, c: seq<Field>, policy: DiffPolicy, casts: FloatCasts) returns (ops: UpdateOps)
    ensures fresh(ops)
    ensures ops.State() == DiffOps(o, c, policy, casts)
  {
    ops := new UpdateOps();
    DiffDocument("", o, c, ops, policy, casts);
  }

  // ---------------------------------------------------------------------------
  // From the container to a write instruction
  // ---------------------------------------------------------------------------

  datatype ModelError = IdFieldModified(idField: string)   // "`{IdField}` field cannot be modified."

  /**
   * A stored document matches a filter when each named field is present and equal
   * to the filter's value. The server compares an Int32 and an Int64 by number, as
   * OperatorEquals does; its other cross-type numeric comparisons are not modelled.
   */
  predicate FilterMatches(f: Filter, doc: seq<Field>) {
    forall i :: 0 <= i < |f.eqs| ==> Lookup(doc, f.eqs[i].0).Some? && OperatorEquals(Lookup(doc, f.eqs[i].0).value, f.eqs[i].1)
  }

  /** A two-field filter matches exactly the documents that match both of its fields. */
  lemma PairFilterMatches(a: string, va: Value, b: string, vb: Value)
    ensures forall doc :: FilterMatches(Filter([(a, va), (b, vb)]), doc) <==>
              Lookup(doc, a).Some? && OperatorEquals(Lookup(doc, a).value, va)
              && Lookup(doc, b).Some? && OperatorEquals(Lookup(doc, b).value, vb)
  {
    var f := Filter([(a, va), (b, vb)]);
    forall doc | FilterMatches(f, doc)
      ensures Lookup(doc, a).Some? && OperatorEquals(Lookup(doc, a).value, va)
      ensures Lookup(doc, b).Some? && OperatorEquals(Lookup(doc, b).value, vb)
    {
      assert f.eqs[0] == (a, va);
      assert f.eqs[1] == (b, vb);
    }
  }

  /** Both write kinds match exactly the stored documents with the entry's id and the version it was loaded with. */
  function VersionFilter(e: TrackingEntry): (f: Filter)
    ensures forall doc :: FilterMatches(f, doc) <==>
              Lookup(doc, e.idField).Some? && OperatorEquals(Lookup(doc, e.idField).value, e.id)
              && Lookup(doc, "version").Some? && OperatorEquals(Lookup(doc, "version").value, I64(e.expectedVersion))
  {
    PairFilterMatches(e.idField, e.id, "version", I64(e.expectedVersion));
    Filter([(e.idField, e.id), ("version", I64(e.expectedVersion))])
  }

  /** The current document carries a different value under the entry's id field, by BsonValue's `!=`. */
  predicate IdChanged(e: TrackingEntry, current: seq<Field>) {
    Lookup(current, e.idField).Some? && !OperatorEquals(Lookup(current, e.idField).value, e.id)
  }

  /** `if (!current.Contains("_id")) current["_id"] = e.Id`. */
  function WithRootId(e: TrackingEntry, current: seq<Field>): seq<Field> {
    if "_id" in Names(current) then current else SetField(current, "_id", e.id)
  }

  // One update per bucket entry, in the bucket's order.

  function SetUpdates(b: Bucket<Value>): (r: seq<UpdateOp>)
    ensures |r| == |b|
  {
    if b == [] then [] else SetUpdates(b[..|b| - 1]) + [SetOp(b[|b| - 1].0, b[|b| - 1].1)]
  }

  function UnsetUpdates(u: seq<string>): (r: seq<UpdateOp>)
    ensures |r| == |u|
  {
    if u == [] then [] else UnsetUpdates(u[..|u| - 1]) + [UnsetOp(u[|u| - 1])]
  }

  /** `Update.Inc(path, delta)`: the amount goes out as a 64-bit integer. */
  function IncUpdates(b: Bucket<NumericDelta>): (r: seq<UpdateOp>)
    ensures |r| == |b|
  {
    if b == [] then [] else IncUpdates(b[..|b| - 1]) + [IncOp(b[|b| - 1].0, I64(b[|b| - 1].1.delta))]
  }

  /** A single value is pushed with Push, several with PushEach. */
  function PushUpdate(path: string, vals: seq<Value>): UpdateOp {
    if |vals| == 1 then PushOp(path, vals[0]) else PushEachOp(path, vals)
  }

  /** A single value is pulled with Pull, several with PullAll. */
  function PullUpdate(path: string, vals: seq<Value>): UpdateOp {
    if |vals| == 1 then PullOp(path, vals[0]) else PullAllOp(path, vals)
  }

  function PushUpdates(b: Bucket<seq<Value>>): (r: seq<UpdateOp>)
    ensures |r| == |b|
  {
    if b == [] then [] else PushUpdates(b[..|b| - 1]) + [PushUpdate(b[|b| - 1].0, b[|b| - 1].1)]
  }

  function PullUpdates(b: Bucket<seq<Value>>): (r: seq<UpdateOp>)
    ensures |r| == |b|
  {
    if b == [] then [] else PullUpdates(b[..|b| - 1]) + [PullUpdate(b[|b| - 1].0, b[|b| - 1].1)]
  }

  /** The combined update: the five buckets in order, then the version bump. */
  function UpdateList(st: OpsState): seq<UpdateOp> {
    SetUpdates(st.sets) + UnsetUpdates(st.unsets) + IncUpdates(st.incs)
    + PushUpdates(st.pushes) + PullUpdates(st.pulls) + [IncOp("version", I32(1))]
  }

  /** CreateUpdateModel. */
  function UpdateModel(e: TrackingEntry, st: OpsState): WriteModel {
    UpdateOne(VersionFilter(e), UpdateList(st))
  }

  /** CreateReplaceModel: the id is checked again, then the id and the next version are written into the payload. */
  function ReplaceModel(e: TrackingEntry, current: seq<Field>): Result<WriteModel, ModelError> {
    if IdChanged(e, current) then Err(IdFieldModified(e.idField))
    else
      var payload := SetField(SetField(current, e.idField, e.id), "version", I64(Wrap64(e.expectedVersion + 1)));
      Ok(ReplaceOne(VersionFilter(e), payload))
  }

  /** BuildModel: None when nothing changed, a replace past the policy's threshold, else an update. */
  function Model(e: TrackingEntry, current: seq<Field>, policy: DiffPolicy, casts: FloatCasts): Result<Option<WriteModel>, ModelError> {
    if IdChanged(e, current) then Err(IdFieldModified(e.idField))
    else
      var doc := WithRootId(e, current);
      var st := DiffOps(e.original, doc, policy, casts);
      if st.IsEmpty() then Ok(None)
      else if st.FieldOpsCount() > policy.maxFieldOpsBeforeDocReplace then
        match ReplaceModel(e, doc)
        case Ok(m) => Ok(Some(m))
        case Err(err) => Err(err)
      else Ok(Some(UpdateModel(e, st)))
  }

  method BuildModel(e: TrackingEntry, current: seq<Field>, policy: DiffPolicy, casts: FloatCasts)
    returns (r: Result<Option<WriteModel>, ModelError>)
    ensures r == Model(e, current, policy, casts)
  {
    var doc := current;
    var incomingId := Lookup(doc, e.idField);
    if incomingId.Some? && !OperatorEquals(incomingId.value, e.id) {
      return Err(IdFieldModified(e.idField));
    }
    if "_id" !in Names(doc) {
      doc := SetField(doc, "_id", e.id);
    }
    var ops := ComputeDiff(e.original, doc, policy, casts);
    if ops.State().IsEmpty() {
      return Ok(None);
    }
    if ops.State().FieldOpsCount() > policy.maxFieldOpsBeforeDocReplace {
      var m := CreateReplaceModel(e, doc);
      if m.Err? {
        return Err(m.error);
      }
      return Ok(Some(m.value));
    }
    var m := CreateUpdateModel(e, ops);
    return Ok(Some(m));
  }

  method CreateReplaceModel(e: TrackingEntry, current: seq<Field>) returns (r: Result<WriteModel, ModelError>)
    ensures r == ReplaceModel(e, current)
  {
    var incomingId := Lookup(current, e.idField);
    if incomingId.Some? && !OperatorEquals(incomingId.value, e.id) {
      return Err(IdFieldModified(e.idField));
    }
    var doc := SetField(current, e.idField, e.id);
    doc := SetField(doc, "version", I64(Wrap64(e.expectedVersion + 1)));
    return Ok(ReplaceOne(VersionFilter(e), doc));
  }

  method CreateUpdateModel(e: TrackingEntry, ops: UpdateOps) returns (m: WriteModel)
    ensures m == UpdateModel(e, ops.State())
  {
    ghost var st := ops.State();
    var updates := AddSetUpdates([], ops.sets);
    assert updates == SetUpdates(st.sets);
    updates := AddUnsetUpdates(updates, ops.unsets);
    assert updates == SetUpdates(st.sets) + UnsetUpdates(st.unsets);
    updates := AddIncUpdates(updates, ops.incs);
    updates := AddPushUpdates(updates, ops.pushes);
    updates := AddPullUpdates(updates, ops.pulls);
    updates := updates + [IncOp("version", I32(1))];
    assert updates == UpdateList(st);
    m := UpdateOne(VersionFilter(e), updates);
  }

  // The five loops of CreateUpdateModel, each appending one update per bucket entry.

  method AddSetUpdates(init: seq<UpdateOp>, sets: Bucket<Value>) returns (updates: seq<UpdateOp>)
    ensures updates == init + SetUpdates(sets)
  {
    updates := init;
    for i := 0 to |sets|
      invariant updates == init + SetUpdates(sets[..i])
    {
      assert sets[..i + 1][..i] == sets[..i];
      var (path, value) := sets[i];
      updates := updates + [SetOp(path, value)];
    }
    assert sets[..|sets|] == sets;
  }

  method AddUnsetUpdates(init: seq<UpdateOp>, unsets: seq<string>) returns (updates: seq<UpdateOp>)
    ensures updates == init + UnsetUpdates(unsets)
  {
    updates := init;
    for i := 0 to |unsets|
      invariant updates == init + UnsetUpdates(unsets[..i])
    {
      assert unsets[..i + 1][..i] == unsets[..i];
      updates := updates + [UnsetOp(unsets[i])];
    }
    assert unsets[..|unsets|] == unsets;
  }

  method AddIncUpdates(init: seq<UpdateOp>, incs: Bucket<NumericDelta>) returns (updates: seq<UpdateOp>)
    ensures updates == init + IncUpdates(incs)
  {
    updates := init;
    for i := 0 to |incs|
      invariant updates == init + IncUpdates(incs[..i])
    {
      assert incs[..i + 1][..i] == incs[..i];
      var (path, delta) := incs[i];
      updates := updates + [IncOp(path, I64(delta.delta))];
    }
    assert incs[..|incs|] == incs;
  }

  method AddPushUpdates(init: seq<UpdateOp>, pushes: Bucket<seq<Value>>) returns (updates: seq<UpdateOp>)
    ensures updates == init + PushUpdates(pushes)
  {
    updates := init;
    for i := 0 to |pushes|
      invariant updates == init + PushUpdates(pushes[..i])
    {
      assert pushes[..i + 1][..i] == pushes[..i];
      var (path, values) := pushes[i];
      updates := updates + [if |values| == 1 then PushOp(path, values[0]) else PushEachOp(path, values)];
    }
    assert pushes[..|pushes|] == pushes;
  }

  method AddPullUpdates(init: seq<UpdateOp>, pulls: Bucket<seq<Value>>) returns (updates: seq<UpdateOp>)
    ensures updates == init + PullUpdates(pulls)
  {
    updates := init;
    for i := 0 to |pulls|
      invariant updates == init + PullUpdates(pulls[..i])
    {
      assert pulls[..i + 1][..i] == pulls[..i];
      var (path, values) := pulls[i];
      updates := updates + [if |values| == 1 then PullOp(path, values[0]) else PullAllOp(path, values)];
    }
    assert pulls[..|pulls|] == pulls;
  }
}
