/**
 * What the diff promises, proved about the specification functions of
 * DiffEngine (and so, through the methods' postconditions, about the methods).
 */
module DiffFacts {
  import opened Wrappers
  import opened Bson
  import opened BsonUtils
  import opened PathUtils
  import opened ArrayDiff
  import opened Updates
  import opened Policy
  import opened Writes
  import opened TrackingEntries
  import opened DiffEngine

  // ---------------------------------------------------------------------------
  // Unchanged documents need no write
  // ---------------------------------------------------------------------------

  /** The first loop records nothing when every original key is also a current key. */
  lemma {:induction false} NothingRemoved(prefix: string, originalKeys: seq<string>, currentKeys: seq<string>,
                                          policy: DiffPolicy, n: nat, st: OpsState)
    requires n <= |originalKeys|
    requires forall k :: k in originalKeys ==> k in currentKeys
    ensures RemovedOps(prefix, originalKeys, currentKeys, policy, n, st) == st
  {
    if n > 0 {
      NothingRemoved(prefix, originalKeys, currentKeys, policy, n - 1, st);
      assert originalKeys[n - 1] in originalKeys;
    }
  }

  /** The second loop records nothing when each of its keys has the same value in both documents. */
  lemma {:induction false} NothingChanged(prefix: string, o: seq<Field>, c: seq<Field>, keys: seq<string>,
                                          policy: DiffPolicy, casts: FloatCasts, n: nat, st: OpsState)
    requires n <= |keys|
    requires forall k :: k in keys ==> k in Names(c) && Lookup(o, k) == Lookup(c, k)
    ensures CurrentOps(prefix, o, c, keys, policy, casts, n, st) == st
  {
    if n > 0 {
      NothingChanged(prefix, o, c, keys, policy, casts, n - 1, st);
      var key := keys[n - 1];
      assert key in keys;
      var v := c[FirstIndex(c, key)].value;
      assert Lookup(o, key) == Some(v);
      assert ValueOps(Join(prefix, key), v, v, policy, casts, st) == st;
    }
  }

  /**
   * Two documents that agree on every name the diff looks at (all names, or at
   * the root all but "_id" and "version") record nothing at all.
   */
  lemma AgreeingDocumentsRecordNothing(prefix: string, o: seq<Field>, c: seq<Field>, policy: DiffPolicy,
                                       casts: FloatCasts, st: OpsState)
    requires forall k :: !(|prefix| == 0 && ReservedRootKey(k)) ==> Lookup(o, k) == Lookup(c, k)
    ensures DocumentOps(prefix, o, c, policy, casts, st) == st
  {
    var root := |prefix| == 0;
    var originalKeys, currentKeys := KeySet(o, root), KeySet(c, root);
    assert forall k :: k in originalKeys ==> k in currentKeys by {
      forall k | k in originalKeys ensures k in currentKeys {
        assert Lookup(o, k) == Lookup(c, k);
      }
    }
    NothingRemoved(prefix, originalKeys, currentKeys, policy, |originalKeys|, st);
    assert forall k :: k in currentKeys ==> k in Names(c) && Lookup(o, k) == Lookup(c, k);
    NothingChanged(prefix, o, c, currentKeys, policy, casts, |currentKeys|, st);
  }

  /** Diffing a document against itself records nothing. */
  lemma EqualDocumentsRecordNothing(prefix: string, d: seq<Field>, policy: DiffPolicy, casts: FloatCasts, st: OpsState)
    ensures DocumentOps(prefix, d, d, policy, casts, st) == st
    ensures DiffOps(d, d, policy, casts).IsEmpty()
  {
    AgreeingDocumentsRecordNothing(prefix, d, d, policy, casts, st);
    AgreeingDocumentsRecordNothing("", d, d, policy, casts, EmptyOps);
  }

  /** Filling in a missing "_id" keeps the id the entry was checked against. */
  lemma RootIdKeepsId(e: TrackingEntry, current: seq<Field>, k: string)
    ensures k != "_id" ==> Lookup(WithRootId(e, current), k) == Lookup(current, k)
    ensures !IdChanged(e, current) ==> !IdChanged(e, WithRootId(e, current))
  {
    if "_id" !in Names(current) {
      SetFieldLookup(current, "_id", e.id, k);
      SetFieldLookup(current, "_id", e.id, e.idField);
    }
  }

  /**
   * A current document that differs from the snapshot at most in the root "_id"
   * and "version" fields (and keeps the id) needs no write; in particular an
   * untouched entity needs none.
   */
  lemma UnchangedEntityNeedsNoWrite(e: TrackingEntry, current: seq<Field>, policy: DiffPolicy, casts: FloatCasts)
    requires !IdChanged(e, current)
    requires forall k :: !ReservedRootKey(k) ==> Lookup(current, k) == Lookup(e.original, k)
    ensures Model(e, current, policy, casts) == Ok(None)
  {
    var doc := WithRootId(e, current);
    forall k | !ReservedRootKey(k) ensures Lookup(e.original, k) == Lookup(doc, k) {
      RootIdKeepsId(e, current, k);
    }
    AgreeingDocumentsRecordNothing("", e.original, doc, policy, casts, EmptyOps);
  }

  /** The corollary for the entity exactly as it was attached. */
  lemma SnapshotNeedsNoWrite(e: TrackingEntry, policy: DiffPolicy, casts: FloatCasts)
    requires WellFormed(e)
    ensures Model(e, e.original, policy, casts) == Ok(None)
  {
    UnchangedEntityNeedsNoWrite(e, e.original, policy, casts);
  }

  // ---------------------------------------------------------------------------
  // The three outcomes of BuildModel
  // ---------------------------------------------------------------------------

  /**
   * BuildModel fails exactly when the id was modified; otherwise it returns no
   * write when the diff is empty, a replace when the diff has more field
   * operations than the policy allows, and the combined update otherwise.
   * The id check that the replace repeats never fails.
   */
  lemma ModelOutcome(e: TrackingEntry, current: seq<Field>, policy: DiffPolicy, casts: FloatCasts)
    ensures Model(e, current, policy, casts).Err? <==> IdChanged(e, current)
    ensures Model(e, current, policy, casts).Err? ==> Model(e, current, policy, casts).error == IdFieldModified(e.idField)
    ensures !IdChanged(e, current) ==>
              var doc := WithRootId(e, current);
              var st := DiffOps(e.original, doc, policy, casts);
              var r := Model(e, current, policy, casts).value;
              (r.None? <==> st.IsEmpty())
              && (r.Some? && st.FieldOpsCount() > policy.maxFieldOpsBeforeDocReplace ==>
                    ReplaceModel(e, doc).Ok? && r.value == ReplaceModel(e, doc).value)
              && (r.Some? && st.FieldOpsCount() <= policy.maxFieldOpsBeforeDocReplace ==> r.value == UpdateModel(e, st))
  {
    RootIdKeepsId(e, current, "_id");
  }

  /**
   * The replacement: id and next version written in, every other field as in
   * the document handed over, matched on the id and the expected version.
   */
  lemma ReplacePayload(e: TrackingEntry, current: seq<Field>)
    requires !IdChanged(e, current)
    ensures ReplaceModel(e, current).Ok?
    ensures var m := ReplaceModel(e, current).value;
            m.ReplaceOne? && m.filter == VersionFilter(e)
            && Lookup(m.replacement, "version") == Some(I64(Wrap64(e.expectedVersion + 1)))
            && (e.idField != "version" ==> Lookup(m.replacement, e.idField) == Some(e.id))
            && forall k :: k != e.idField && k != "version" ==> Lookup(m.replacement, k) == Lookup(current, k)
  {
    var withId := SetField(current, e.idField, e.id);
    var payload := SetField(withId, "version", I64(Wrap64(e.expectedVersion + 1)));
    SetFieldLookup(withId, "version", I64(Wrap64(e.expectedVersion + 1)), "version");
    SetFieldLookup(withId, "version", I64(Wrap64(e.expectedVersion + 1)), e.idField);
    SetFieldLookup(current, e.idField, e.id, e.idField);
    forall k | k != e.idField && k != "version" ensures Lookup(payload, k) == Lookup(current, k) {
      SetFieldLookup(withId, "version", I64(Wrap64(e.expectedVersion + 1)), k);
      SetFieldLookup(current, e.idField, e.id, k);
    }
  }

  /** The version a write sets is one more than the one it filters on (until `long` overflows). */
  lemma NextVersion(e: TrackingEntry)
    requires e.expectedVersion < 0x7FFF_FFFF_FFFF_FFFF
    ensures Wrap64(e.expectedVersion + 1) == e.expectedVersion + 1
    ensures VersionFilter(e).eqs[1] == ("version", I64(e.expectedVersion))
  {
  }

  /**
   * Optimistic concurrency: the stored document a replace writes is no longer
   * matched by the filter the replace used, so a second write from the same
   * stale snapshot matches nothing.
   */
  lemma ReplaceIsNotRematched(e: TrackingEntry, current: seq<Field>)
    requires !IdChanged(e, current)
    ensures ReplaceModel(e, current).Ok?
    ensures !FilterMatches(VersionFilter(e), ReplaceModel(e, current).value.replacement)
  {
    ReplacePayload(e, current);
    var next := Wrap64(e.expectedVersion + 1);
    assert next != e.expectedVersion;
    assert !OperatorEquals(I64(next), I64(e.expectedVersion));
  }

  /**
   * The id check compares by BsonValue's `!=`: an `int` id read back as the
   * `long` of the same number is not a modification, and the write is built.
   */
  lemma IdWidthChangeAccepted(e: TrackingEntry, current: seq<Field>, n: Int32, policy: DiffPolicy, casts: FloatCasts)
    requires e.id == I32(n)
    requires Lookup(current, e.idField) == Some(I64(n))
    ensures !IdChanged(e, current)
    ensures Model(e, current, policy, casts).Ok?
  {
    ModelOutcome(e, current, policy, casts);
  }

  // ---------------------------------------------------------------------------
  // The combined update
  // ---------------------------------------------------------------------------

  lemma {:induction false} SetUpdatesAt(b: Bucket<Value>)
    ensures |SetUpdates(b)| == |b|
    ensures forall i :: 0 <= i < |b| ==> SetUpdates(b)[i] == SetOp(b[i].0, b[i].1)
  {
    if b != [] {
      SetUpdatesAt(b[..|b| - 1]);
    }
  }

  lemma {:induction false} UnsetUpdatesAt(u: seq<string>)
    ensures |UnsetUpdates(u)| == |u|
    ensures forall i :: 0 <= i < |u| ==> UnsetUpdates(u)[i] == UnsetOp(u[i])
  {
    if u != [] {
      UnsetUpdatesAt(u[..|u| - 1]);
    }
  }

  lemma {:induction false} IncUpdatesAt(b: Bucket<NumericDelta>)
    ensures |IncUpdates(b)| == |b|
    ensures forall i :: 0 <= i < |b| ==> IncUpdates(b)[i] == IncOp(b[i].0, I64(b[i].1.delta))
  {
    if b != [] {
      IncUpdatesAt(b[..|b| - 1]);
    }
  }

  lemma {:induction false} PushUpdatesAt(b: Bucket<seq<Value>>)
    ensures |PushUpdates(b)| == |b|
    ensures forall i :: 0 <= i < |b| ==> PushUpdates(b)[i] == PushUpdate(b[i].0, b[i].1)
  {
    if b != [] {
      PushUpdatesAt(b[..|b| - 1]);
    }
  }

  lemma {:induction false} PullUpdatesAt(b: Bucket<seq<Value>>)
    ensures |PullUpdates(b)| == |b|
    ensures forall i :: 0 <= i < |b| ==> PullUpdates(b)[i] == PullUpdate(b[i].0, b[i].1)
  {
    if b != [] {
      PullUpdatesAt(b[..|b| - 1]);
    }
  }

  /**
   * The combined update holds one operation per bucket entry, bucket after
   * bucket, and ends with the version bump; so it has FieldOpsCount + 1
   * operations. Its first part is the Sets, then the Unsets.
   */
  lemma UpdateListShape(st: OpsState)
    ensures |UpdateList(st)| == st.FieldOpsCount() + 1
    ensures UpdateList(st)[st.FieldOpsCount()] == IncOp("version", I32(1))
    ensures forall i :: 0 <= i < |st.sets| ==> UpdateList(st)[i] == SetOp(st.sets[i].0, st.sets[i].1)
    ensures forall i :: 0 <= i < |st.unsets| ==> UpdateList(st)[|st.sets| + i] == UnsetOp(st.unsets[i])
  {
    SetUpdatesAt(st.sets);
    UnsetUpdatesAt(st.unsets);
    var head := SetUpdates(st.sets) + UnsetUpdates(st.unsets);
    var tail := IncUpdates(st.incs) + PushUpdates(st.pushes) + PullUpdates(st.pulls) + [IncOp("version", I32(1))];
    assert UpdateList(st) == head + tail;
  }

  /** After the Sets and Unsets come the Incs, in their bucket's order, each as a 64-bit amount. */
  lemma UpdateListIncs(st: OpsState)
    ensures |UpdateList(st)| == st.FieldOpsCount() + 1
    ensures forall i :: 0 <= i < |st.incs| ==>
              UpdateList(st)[|st.sets| + |st.unsets| + i] == IncOp(st.incs[i].0, I64(st.incs[i].1.delta))
  {
    IncUpdatesAt(st.incs);
    var pre := SetUpdates(st.sets) + UnsetUpdates(st.unsets);
    var mid := IncUpdates(st.incs);
    var post := PushUpdates(st.pushes) + PullUpdates(st.pulls) + [IncOp("version", I32(1))];
    assert UpdateList(st) == pre + mid + post;
    forall i | 0 <= i < |st.incs| ensures UpdateList(st)[|pre| + i] == mid[i] {
      assert (pre + mid + post)[|pre| + i] == mid[i];
    }
  }

  /** Then the Pushes, in their bucket's order. */
  lemma UpdateListPushes(st: OpsState)
    ensures |UpdateList(st)| == st.FieldOpsCount() + 1
    ensures forall i :: 0 <= i < |st.pushes| ==>
              UpdateList(st)[|st.sets| + |st.unsets| + |st.incs| + i] == PushUpdate(st.pushes[i].0, st.pushes[i].1)
  {
    PushUpdatesAt(st.pushes);
    var pre := SetUpdates(st.sets) + UnsetUpdates(st.unsets) + IncUpdates(st.incs);
    var mid := PushUpdates(st.pushes);
    var post := PullUpdates(st.pulls) + [IncOp("version", I32(1))];
    assert UpdateList(st) == pre + mid + post;
    forall i | 0 <= i < |st.pushes| ensures UpdateList(st)[|pre| + i] == mid[i] {
      assert (pre + mid + post)[|pre| + i] == mid[i];
    }
  }

  /** Then the Pulls, in their bucket's order, just before the version bump. */
  lemma UpdateListPulls(st: OpsState)
    ensures |UpdateList(st)| == st.FieldOpsCount() + 1
    ensures forall i :: 0 <= i < |st.pulls| ==>
              UpdateList(st)[|st.sets| + |st.unsets| + |st.incs| + |st.pushes| + i] == PullUpdate(st.pulls[i].0, st.pulls[i].1)
  {
    PullUpdatesAt(st.pulls);
    var pre := SetUpdates(st.sets) + UnsetUpdates(st.unsets) + IncUpdates(st.incs) + PushUpdates(st.pushes);
    var mid := PullUpdates(st.pulls);
    var post := [IncOp("version", I32(1))];
    assert UpdateList(st) == pre + mid + post;
    forall i | 0 <= i < |st.pulls| ensures UpdateList(st)[|pre| + i] == mid[i] {
      assert (pre + mid + post)[|pre| + i] == mid[i];
    }
  }

  /** Push and Pull take the single-value form exactly for a one-element list, else the list form. */
  lemma SingleValueForms(path: string, vals: seq<Value>)
    ensures PushUpdate(path, vals).PushOp? <==> |vals| == 1
    ensures PushUpdate(path, vals).PushOp? ==> PushUpdate(path, vals) == PushOp(path, vals[0])
    ensures !PushUpdate(path, vals).PushOp? ==> PushUpdate(path, vals) == PushEachOp(path, vals)
    ensures PullUpdate(path, vals).PullOp? <==> |vals| == 1
    ensures PullUpdate(path, vals).PullOp? ==> PullUpdate(path, vals) == PullOp(path, vals[0])
    ensures !PullUpdate(path, vals).PullOp? ==> PullUpdate(path, vals) == PullAllOp(path, vals)
  {
  }

  // ---------------------------------------------------------------------------
  // What the diff writes: no repeated path, never a reserved root name
  // ---------------------------------------------------------------------------

  /** No bucket names a root-level "_id" or "version". */
  predicate NoReservedPath(st: OpsState) {
    (forall p :: p in Paths(st.sets) ==> !ReservedRootKey(p))
    && (forall p :: p in st.unsets ==> !ReservedRootKey(p))
    && (forall p :: p in Paths(st.incs) ==> !ReservedRootKey(p))
    && (forall p :: p in Paths(st.pushes) ==> !ReservedRootKey(p))
    && (forall p :: p in Paths(st.pulls) ==> !ReservedRootKey(p))
  }

  /** The invariant every step of the diff keeps: each bucket repeat-free, no reserved root name. */
  predicate Clean(st: OpsState) {
    st.Valid() && NoReservedPath(st)
  }

  /** A path is never reserved when it was joined under a prefix, or from a key that is not reserved. */
  lemma JoinNotReserved(prefix: string, key: string)
    requires prefix != "" || !ReservedRootKey(key)
    ensures !ReservedRootKey(Join(prefix, key))
  {
    if prefix != "" {
      JoinUnderPrefixHasSeparator(prefix, key);
      JoinExtendsPrefix(prefix, key);
    }
  }

  // Each write at a non-reserved path keeps the invariant.

  lemma SetKeepsClean(st: OpsState, path: string, v: Value)
    requires Clean(st) && !ReservedRootKey(path)
    ensures Clean(st.WithSet(path, v))
  {
    PutDistinct(st.sets, path, v);
  }

  lemma UnsetKeepsClean(st: OpsState, path: string)
    requires Clean(st) && !ReservedRootKey(path)
    ensures Clean(st.WithUnset(path))
  {
    AddPathDistinct(st.unsets, path);
  }

  lemma IncKeepsClean(st: OpsState, path: string, d: NumericDelta)
    requires Clean(st) && !ReservedRootKey(path)
    ensures Clean(st.WithInc(path, d))
  {
    PutDistinct(st.incs, path, d);
  }

  lemma PushKeepsClean(st: OpsState, path: string, vals: seq<Value>)
    requires Clean(st) && !ReservedRootKey(path)
    ensures Clean(st.WithPush(path, vals))
  {
    PutDistinct(st.pushes, path, vals);
  }

  lemma PullKeepsClean(st: OpsState, path: string, vals: seq<Value>)
    requires Clean(st) && !ReservedRootKey(path)
    ensures Clean(st.WithPull(path, vals))
  {
    PutDistinct(st.pulls, path, vals);
  }

  lemma RemovalKeepsClean(st: OpsState, path: string, policy: DiffPolicy)
    requires Clean(st) && !ReservedRootKey(path)
    ensures Clean(RecordRemoval(path, policy, st))
  {
    if policy.AllowUnset(path) {
      UnsetKeepsClean(st, path);
    } else {
      SetKeepsClean(st, path, Null);
    }
  }

  lemma ArrayOpsClean(path: string, o: seq<Value>, c: seq<Value>, st: OpsState)
    requires Clean(st) && !ReservedRootKey(path)
    ensures Clean(ArrayOps(path, o, c, st))
  {
    match Classify(o, c)
    case NoPatch =>
    case PushValues(vals) => PushKeepsClean(st, path, vals);
    case PullValues(vals) => PullKeepsClean(st, path, vals);
    case SetArray(vals) => SetKeepsClean(st, path, Arr(vals));
  }

  lemma NumericOpsClean(path: string, o: Value, c: Value, policy: DiffPolicy, casts: FloatCasts, st: OpsState)
    requires Clean(st) && !ReservedRootKey(path)
    ensures Clean(NumericOps(path, o, c, policy, casts, st))
  {
    if policy.AllowInc(path) {
      IncKeepsClean(st, path, IncFor(st, path, IncDelta(o, c, casts)));
    } else {
      SetKeepsClean(st, path, c);
    }
  }

  lemma {:induction false} RemovedOpsClean(prefix: string, originalKeys: seq<string>, currentKeys: seq<string>,
                                           policy: DiffPolicy, n: nat, st: OpsState)
    requires n <= |originalKeys|
    requires forall k :: k in originalKeys ==> prefix != "" || !ReservedRootKey(k)
    requires Clean(st)
    ensures Clean(RemovedOps(prefix, originalKeys, currentKeys, policy, n, st))
  {
    if n > 0 {
      RemovedOpsClean(prefix, originalKeys, currentKeys, policy, n - 1, st);
      var key := originalKeys[n - 1];
      if key !in currentKeys {
        assert key in originalKeys;
        JoinNotReserved(prefix, key);
        var prev := RemovedOps(prefix, originalKeys, currentKeys, policy, n - 1, st);
        RemovalKeepsClean(prev, Join(prefix, key), policy);
      }
    }
  }

  lemma {:induction false} CurrentOpsClean(prefix: string, o: seq<Field>, c: seq<Field>, keys: seq<string>,
                                           policy: DiffPolicy, casts: FloatCasts, n: nat, st: OpsState)
    requires n <= |keys|
    requires forall k :: k in keys ==> prefix != "" || !ReservedRootKey(k)
    requires Clean(st)
    ensures Clean(CurrentOps(prefix, o, c, keys, policy, casts, n, st))
    decreases Doc(c), 1, n
  {
    if n > 0 {
      CurrentOpsClean(prefix, o, c, keys, policy, casts, n - 1, st);
      assert keys[n - 1] in keys;
      KeyOpsClean(prefix, o, c, keys[n - 1], policy, casts, CurrentOps(prefix, o, c, keys, policy, casts, n - 1, st));
    }
  }

  lemma {:induction false} KeyOpsClean(prefix: string, o: seq<Field>, c: seq<Field>, key: string,
                                       policy: DiffPolicy, casts: FloatCasts, st: OpsState)
    requires prefix != "" || !ReservedRootKey(key)
    requires Clean(st)
    ensures Clean(KeyOps(prefix, o, c, key, policy, casts, st))
    decreases Doc(c), 0, 0
  {
    if key in Names(c) {
      var path := Join(prefix, key);
      JoinNotReserved(prefix, key);
      var currentValue := c[FirstIndex(c, key)].value;
      match Lookup(o, key)
      case None =>
        SetKeepsClean(st, path, currentValue);
      case Some(originalValue) =>
        ValueOpsClean(path, originalValue, currentValue, policy, casts, st);
    }
  }

  lemma {:induction false} DocumentOpsClean(prefix: string, o: seq<Field>, c: seq<Field>, policy: DiffPolicy,
                                            casts: FloatCasts, st: OpsState)
    requires Clean(st)
    ensures Clean(DocumentOps(prefix, o, c, policy, casts, st))
    decreases Doc(c), 2, 0
  {
    var root := |prefix| == 0;
    var originalKeys, currentKeys := KeySet(o, root), KeySet(c, root);
    RemovedOpsClean(prefix, originalKeys, currentKeys, policy, |originalKeys|, st);
    var afterRemoved := RemovedOps(prefix, originalKeys, currentKeys, policy, |originalKeys|, st);
    CurrentOpsClean(prefix, o, c, currentKeys, policy, casts, |currentKeys|, afterRemoved);
  }

  lemma {:induction false} ValueOpsClean(path: string, o: Value, c: Value, policy: DiffPolicy, casts: FloatCasts, st: OpsState)
    requires !ReservedRootKey(path)
    requires Clean(st)
    ensures Clean(ValueOps(path, o, c, policy, casts, st))
    decreases c, 3, 0
  {
    var r := ValueOps(path, o, c, policy, casts, st);
    if Equals(o, c) {
      assert r == st;
    } else if o.Doc? && c.Doc? {
      assert r == DocumentOps(path, o.fields, c.fields, policy, casts, st);
      DocumentOpsClean(path, o.fields, c.fields, policy, casts, st);
    } else if o.Arr? && c.Arr? {
      assert r == ArrayOps(path, o.elems, c.elems, st);
      ArrayOpsClean(path, o.elems, c.elems, st);
    } else if AreBothNumeric(o, c) {
      assert r == NumericOps(path, o, c, policy, casts, st);
      NumericOpsClean(path, o, c, policy, casts, st);
    } else if c.Null? {
      assert r == RecordRemoval(path, policy, st);
      RemovalKeepsClean(st, path, policy);
    } else {
      assert r == st.WithSet(path, c);
      SetKeepsClean(st, path, c);
    }
  }

  /**
   * The container the diff produces never holds a path twice in a bucket and
   * never names a root "_id" or "version"; so FieldOpsCount is the number of
   * distinct paths per bucket, summed.
   */
  lemma DiffIsClean(o: seq<Field>, c: seq<Field>, policy: DiffPolicy, casts: FloatCasts)
    ensures DiffOps(o, c, policy, casts).Valid()
    ensures NoReservedPath(DiffOps(o, c, policy, casts))
    ensures var st := DiffOps(o, c, policy, casts);
            st.FieldOpsCount() ==
              |set p | p in Paths(st.sets)| + |set p | p in st.unsets| + |set p | p in Paths(st.incs)|
              + |set p | p in Paths(st.pushes)| + |set p | p in Paths(st.pulls)|
  {
    IsEmptyIff(EmptyOps);
    DocumentOpsClean("", o, c, policy, casts, EmptyOps);
    CountIsDistinctPaths(DiffOps(o, c, policy, casts));
  }

  /** Root-level "_id" and "version" are skipped, whatever they hold. */
  lemma ReservedSkippedAtRoot(policy: DiffPolicy, casts: FloatCasts)
    ensures DiffOps([Field("version", I32(1))], [Field("version", I32(2)), Field("_id", Str("x"))], policy, casts) == EmptyOps
  {
    var o := [Field("version", I32(1))];
    var c := [Field("version", I32(2)), Field("_id", Str("x"))];
    assert Names(o) == ["version"];
    assert Names(c) == ["version", "_id"];
    assert KeySet(o, true) == [];
    assert KeySet(c, true) == [];
  }

  /** The same names one level down are diffed like any other. */
  lemma ReservedDiffedBelowRoot(policy: DiffPolicy, casts: FloatCasts)
    requires !policy.AllowInc("a.version")
    ensures DiffOps([Field("a", Doc([Field("version", I32(1))]))], [Field("a", Doc([Field("version", I32(2))]))], policy, casts).sets
            == [("a.version", I32(2))]
  {
    var inner1, inner2 := [Field("version", I32(1))], [Field("version", I32(2))];
    assert inner1 != inner2 by {
      assert inner1[0] != inner2[0];
    }
    NestedDocumentDiffed("a", inner1, inner2, policy, casts);
    NestedVersionDiffed(policy, casts);
  }

  /** A root holding one changed sub-document under an unreserved key is diffed as that sub-document. */
  lemma NestedDocumentDiffed(key: string, a: seq<Field>, b: seq<Field>, policy: DiffPolicy, casts: FloatCasts)
    requires !ReservedRootKey(key) && a != b
    ensures DiffOps([Field(key, Doc(a))], [Field(key, Doc(b))], policy, casts) == DocumentOps(key, a, b, policy, casts, EmptyOps)
  {
    var o, c := [Field(key, Doc(a))], [Field(key, Doc(b))];
    assert Names(o) == [key] && Names(c) == [key];
    OneKeyDocument("", o, c, key, policy, casts);
    assert Lookup(o, key) == Some(Doc(a));
    assert FirstIndex(c, key) == 0;
    assert Join("", key) == key;
    assert ValueOps(key, Doc(a), Doc(b), policy, casts, EmptyOps) == DocumentOps(key, a, b, policy, casts, EmptyOps);
  }

  /** The nested step: "version" under "a" is an ordinary key. */
  lemma NestedVersionDiffed(policy: DiffPolicy, casts: FloatCasts)
    requires !policy.AllowInc("a.version")
    ensures DocumentOps("a", [Field("version", I32(1))], [Field("version", I32(2))], policy, casts, EmptyOps)
            == EmptyOps.WithSet("a.version", I32(2))
  {
    var inner1, inner2 := [Field("version", I32(1))], [Field("version", I32(2))];
    OneKeyDocument("a", inner1, inner2, "version", policy, casts);
    NestedVersionKey(policy, casts);
  }

  /** Helper: the one key "version" under "a", changed from 1 to 2, is Set. */
  lemma NestedVersionKey(policy: DiffPolicy, casts: FloatCasts)
    requires !policy.AllowInc("a.version")
    ensures KeyOps("a", [Field("version", I32(1))], [Field("version", I32(2))], "version", policy, casts, EmptyOps)
            == EmptyOps.WithSet("a.version", I32(2))
  {
    var inner1, inner2 := [Field("version", I32(1))], [Field("version", I32(2))];
    assert Names(inner2) == ["version"];
    assert Join("a", "version") == "a.version";
    assert Lookup(inner1, "version") == Some(I32(1));
    assert FirstIndex(inner2, "version") == 0;
    NestedVersionValue(policy, casts);
  }

  /** Helper: two different Int32 values at a path without $inc are Set. */
  lemma NestedVersionValue(policy: DiffPolicy, casts: FloatCasts)
    requires !policy.AllowInc("a.version")
    ensures ValueOps("a.version", I32(1), I32(2), policy, casts, EmptyOps) == EmptyOps.WithSet("a.version", I32(2))
  {
    assert !Equals(I32(1), I32(2));
    assert AreBothNumeric(I32(1), I32(2));
    assert ValueOps("a.version", I32(1), I32(2), policy, casts, EmptyOps) == NumericOps("a.version", I32(1), I32(2), policy, casts, EmptyOps);
  }

  /** A document pair with one common, unreserved key is diffed as that one key. */
  lemma OneKeyDocument(prefix: string, o: seq<Field>, c: seq<Field>, key: string, policy: DiffPolicy, casts: FloatCasts)
    requires Names(o) == [key] && Names(c) == [key]
    requires prefix != "" || !ReservedRootKey(key)
    ensures DocumentOps(prefix, o, c, policy, casts, EmptyOps) == KeyOps(prefix, o, c, key, policy, casts, EmptyOps)
  {
    var root := |prefix| == 0;
    assert [key][..0] == [];
    assert Dedup([key]) == [key];
    assert WithoutReserved([key], root) == [key];
    var ko, kc := KeySet(o, root), KeySet(c, root);
    assert ko == [key] && kc == [key];
    var afterRemoved := RemovedOps(prefix, ko, kc, policy, 1, EmptyOps);
    assert afterRemoved == EmptyOps by {
      assert RemovedOps(prefix, ko, kc, policy, 0, EmptyOps) == EmptyOps;
      assert ko[0] in kc;
    }
    assert CurrentOps(prefix, o, c, kc, policy, casts, 0, afterRemoved) == EmptyOps;
    assert DocumentOps(prefix, o, c, policy, casts, EmptyOps) == CurrentOps(prefix, o, c, kc, policy, casts, 1, afterRemoved);
  }

  // ---------------------------------------------------------------------------
  // Increments
  // ---------------------------------------------------------------------------

  /** Wrapping undoes a shift by 2^64 in either direction. */
  lemma Wrap64Shift(x: Int64)
    ensures Wrap64(x + 0x1_0000_0000_0000_0000) == x
    ensures Wrap64(x - 0x1_0000_0000_0000_0000) == x
  {
  }

  /**
   * The delta DiffValue computes, added back with `long` wrap-around to the original
   * value, gives the current value, whether or not the subtraction overflowed.
   */
  lemma IncrementReachesCurrent(o: Int64, c: Int64)
    ensures Wrap64(o + Wrap64(c - o)) == c
  {
    var m := 0x1_0000_0000_0000_0000;
    if c - o >= 0x8000_0000_0000_0000 {
      Wrap64Shift(c - o - m);
      Wrap64Shift(c);
      assert o + Wrap64(c - o) == c - m;
    } else if c - o < -0x8000_0000_0000_0000 {
      Wrap64Shift(c - o + m);
      Wrap64Shift(c);
      assert o + Wrap64(c - o) == c + m;
    }
  }

  /** Two 64-bit values have a zero wrapped difference exactly when they are equal. */
  lemma ZeroDeltaIffEqual(o: Int64, c: Int64)
    ensures Wrap64(c - o) == 0 <==> c == o
  {
    if Wrap64(c - o) == 0 {
      IncrementReachesCurrent(o, c);
    }
  }

  /**
   * Two integer values at a path that allows $inc, with no increment recorded there yet:
   * nothing is recorded when they hold the same number (even across Int32/Int64, so a
   * width change alone is not written), otherwise a fresh, untagged increment from
   * the original to the current number.
   */
  lemma IntegerIncrement(path: string, o: Value, c: Value, policy: DiffPolicy, casts: FloatCasts, st: OpsState)
    requires (o.I32? || o.I64?) && (c.I32? || c.I64?)
    requires policy.AllowInc(path) && Get(st.incs, path) == None
    ensures ToInt64Safe(o, casts) == ToInt64Safe(c, casts) ==> ValueOps(path, o, c, policy, casts, st) == st
    ensures ToInt64Safe(o, casts) != ToInt64Safe(c, casts) ==>
              ValueOps(path, o, c, policy, casts, st)
              == st.WithInc(path, NumericDelta(Wrap64(ToInt64Safe(c, casts) - ToInt64Safe(o, casts)), None))
  {
    NumericOpsIncrement(path, o, c, policy, casts, st);
    if !Equals(o, c) {
      assert AreBothNumeric(o, c);
      assert ValueOps(path, o, c, policy, casts, st) == NumericOps(path, o, c, policy, casts, st);
    }
  }

  lemma NumericOpsIncrement(path: string, o: Value, c: Value, policy: DiffPolicy, casts: FloatCasts, st: OpsState)
    requires policy.AllowInc(path) && Get(st.incs, path) == None
    ensures ToInt64Safe(o, casts) == ToInt64Safe(c, casts) ==> NumericOps(path, o, c, policy, casts, st) == st
    ensures ToInt64Safe(o, casts) != ToInt64Safe(c, casts) ==>
              NumericOps(path, o, c, policy, casts, st)
              == st.WithInc(path, NumericDelta(Wrap64(ToInt64Safe(c, casts) - ToInt64Safe(o, casts)), None))
  {
    ZeroDeltaIffEqual(ToInt64Safe(o, casts), ToInt64Safe(c, casts));
  }

  /** An Int32 field rewritten as the same number in Int64 is not written at all under $inc. */
  lemma WidthChangeUnderIncIsLost(path: string, policy: DiffPolicy, casts: FloatCasts, st: OpsState)
    requires policy.AllowInc(path) && Get(st.incs, path) == None
    ensures ValueOps(path, I32(5), I64(5), policy, casts, st) == st
    ensures ValueOps(path, I32(5), I64(7), policy, casts, st) == st.WithInc(path, NumericDelta(2, None))
  {
    IntegerIncrement(path, I32(5), I64(5), policy, casts, st);
    IntegerIncrement(path, I32(5), I64(7), policy, casts, st);
  }
}
