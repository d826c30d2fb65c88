/**
 * What a save promises: the retry loop's bounds and back-off, when the entry loop
 * fails, how the models are grouped, what the counts add up to, the transaction
 * bracket, and when the entries are cleared.
 */
module TrackingFacts {
  import opened Wrappers
  import opened Bson
  import opened Writes
  import opened TrackingEntries
  import opened DiffEngine
  import opened Tracking

  // ---------------------------------------------------------------------------
  // DoBulkWithRetry
  // ---------------------------------------------------------------------------

  function Pow2(k: nat): nat {
    if k == 0 then 1 else 2 * Pow2(k - 1)
  }

  /** From attempt number `attempt` on, at least one and at most `maxRetries - attempt + 1` calls are made. */
  lemma {:induction false} RetryCount(driver: Driver, col: CollectionHandle, models: seq<WriteModel>, maxRetries: int,
                                      attempt: nat, delay: nat, calls: nat)
    ensures 1 <= Retry(driver, col, models, maxRetries, attempt, delay, calls).count
    ensures attempt < maxRetries ==> Retry(driver, col, models, maxRetries, attempt, delay, calls).count <= maxRetries - attempt + 1
    ensures attempt >= maxRetries ==> Retry(driver, col, models, maxRetries, attempt, delay, calls).count == 1
    decreases maxRetries - attempt
  {
    var outcome := driver(calls, col, models);
    if outcome.Failed? && IsTransient(outcome.error) && attempt < maxRetries {
      RetryCount(driver, col, models, maxRetries, attempt + 1, delay + delay, calls + 1);
    }
  }

  /** The `n`-th driver call throws a transient exception. */
  predicate TransientAt(driver: Driver, col: CollectionHandle, models: seq<WriteModel>, n: nat) {
    driver(n, col, models).Failed? && IsTransient(driver(n, col, models).error)
  }

  /**
   * Every call before the last failed transiently; the result is the last call's
   * outcome, and it is a transient failure only when the retries ran out.
   */
  lemma {:induction false} RetryOutcome(driver: Driver, col: CollectionHandle, models: seq<WriteModel>, maxRetries: int,
                                        attempt: nat, delay: nat, calls: nat)
    ensures var r := Retry(driver, col, models, maxRetries, attempt, delay, calls);
            r.count >= 1
            && (forall n :: calls <= n < calls + r.count - 1 ==> TransientAt(driver, col, models, n))
            && r.outcome == driver(calls + r.count - 1, col, models)
            && (r.outcome.Failed? && IsTransient(r.outcome.error) ==> attempt + r.count - 1 >= maxRetries)
    decreases maxRetries - attempt
  {
    var outcome := driver(calls, col, models);
    if outcome.Failed? && IsTransient(outcome.error) && attempt < maxRetries {
      RetryOutcome(driver, col, models, maxRetries, attempt + 1, delay + delay, calls + 1);
      assert TransientAt(driver, col, models, calls);
    }
  }

  /** The events alternate one BulkWrite per call with the back-off waited before the next call, doubling from `delay`. */
  lemma {:induction false} RetryEvents(driver: Driver, col: CollectionHandle, models: seq<WriteModel>, maxRetries: int,
                                       attempt: nat, delay: nat, calls: nat)
    ensures var r := Retry(driver, col, models, maxRetries, attempt, delay, calls);
            r.count >= 1
            && |r.events| == 2 * r.count - 1
            && (forall j :: 0 <= j < r.count ==> r.events[2 * j] == BulkWrite(col, models))
            && (forall j :: 0 <= j < r.count - 1 ==> r.events[2 * j + 1] == Delay(delay * Pow2(j)))
    decreases maxRetries - attempt
  {
    var outcome := driver(calls, col, models);
    if outcome.Failed? && IsTransient(outcome.error) && attempt < maxRetries {
      RetryEvents(driver, col, models, maxRetries, attempt + 1, delay + delay, calls + 1);
      var rest := Retry(driver, col, models, maxRetries, attempt + 1, delay + delay, calls + 1);
      var r := Retry(driver, col, models, maxRetries, attempt, delay, calls);
      assert r.events == [BulkWrite(col, models), Delay(delay)] + rest.events;
      forall j | 1 <= j < r.count
        ensures r.events[2 * j] == BulkWrite(col, models)
      {
        assert r.events[2 * j] == rest.events[2 * (j - 1)];
      }
      forall j | 1 <= j < r.count - 1
        ensures r.events[2 * j + 1] == Delay(delay * Pow2(j))
      {
        assert r.events[2 * j + 1] == rest.events[2 * (j - 1) + 1];
        DoubledDelay(delay, j);
      }
    }
  }

  /** Doubling the first back-off shifts the powers of two by one. */
  lemma DoubledDelay(delay: nat, j: nat)
    requires j >= 1
    ensures (delay + delay) * Pow2(j - 1) == delay * Pow2(j)
  {
    var p := Pow2(j - 1);
    assert Pow2(j) == 2 * p;
    assert (delay + delay) * p == delay * (2 * p);
  }

  /** DoBulkWithRetry as called: at most `maxRetries + 1` attempts, and the k-th retry waits 80·2^k ms. */
  lemma BulkWithRetryBounds(driver: Driver, col: CollectionHandle, models: seq<WriteModel>, maxRetries: int, calls: nat)
    ensures var r := Retry(driver, col, models, maxRetries, 0, 80, calls);
            1 <= r.count <= (if maxRetries > 0 then maxRetries else 0) + 1
            && |r.events| == 2 * r.count - 1
            && (forall k :: 0 <= k < r.count - 1 ==> r.events[2 * k + 1] == Delay(80 * Pow2(k)))
            && (r.outcome.Failed? && !IsTransient(r.outcome.error) ==> r.outcome == driver(calls + r.count - 1, col, models))
  {
    RetryCount(driver, col, models, maxRetries, 0, 80, calls);
    RetryOutcome(driver, col, models, maxRetries, 0, 80, calls);
    RetryEvents(driver, col, models, maxRetries, 0, 80, calls);
  }

  /** A non-transient failure is thrown at its first occurrence, without a retry. */
  lemma NonTransientNotRetried(driver: Driver, col: CollectionHandle, models: seq<WriteModel>, maxRetries: int, calls: nat)
    requires driver(calls, col, models).Failed? && !IsTransient(driver(calls, col, models).error)
    ensures Retry(driver, col, models, maxRetries, 0, 80, calls) == Attempts(driver(calls, col, models), [BulkWrite(col, models)], 1)
  {
  }

  // ---------------------------------------------------------------------------
  // The entry loop
  // ---------------------------------------------------------------------------

  /** The entry has changes: BuildModel returned a model. */
  predicate Changed(e: TrackingEntry, pl: Planner) {
    pl.build(e).Ok? && pl.build(e).value.Some?
  }

  /** BuildModel threw: the entity's id was modified. */
  predicate Faulty(e: TrackingEntry, pl: Planner) {
    pl.build(e).Err?
  }

  /** The number of changed entries. */
  function ChangedCount(entries: seq<TrackingEntry>, pl: Planner): nat {
    if entries == [] then 0
    else ChangedCount(entries[..|entries| - 1], pl) + if Changed(entries[|entries| - 1], pl) then 1 else 0
  }

  /** The keys of the changed entries. */
  function ChangedKeys(entries: seq<TrackingEntry>, pl: Planner): set<(string, string)> {
    if entries == [] then {}
    else ChangedKeys(entries[..|entries| - 1], pl) + if Changed(entries[|entries| - 1], pl) then {DocKey(entries[|entries| - 1], pl)} else {}
  }

  /** Two changed entries for the same document. */
  predicate HasDuplicate(entries: seq<TrackingEntry>, pl: Planner) {
    exists i, j :: 0 <= i < j < |entries| && Changed(entries[i], pl) && Changed(entries[j], pl)
                   && DocKey(entries[i], pl) == DocKey(entries[j], pl)
  }

  /** The models of the changed entries of one collection handle, in attach order. */
  function ModelsFor(entries: seq<TrackingEntry>, pl: Planner, col: CollectionHandle): seq<WriteModel> {
    if entries == [] then []
    else
      var e := entries[|entries| - 1];
      ModelsFor(entries[..|entries| - 1], pl, col)
      + if Changed(e, pl) && e.collection == col then [pl.build(e).value.value] else []
  }

  /** The collection handles of the changed entries, in order of first appearance. */
  function Collections(entries: seq<TrackingEntry>, pl: Planner): seq<CollectionHandle> {
    if entries == [] then []
    else
      var e := entries[|entries| - 1];
      var prior := Collections(entries[..|entries| - 1], pl);
      if Changed(e, pl) && e.collection !in prior then prior + [e.collection] else prior
  }

  function Cols(groups: seq<Group>): seq<CollectionHandle> {
    if groups == [] then [] else [groups[0].col] + Cols(groups[1..])
  }

  function SumModels(groups: seq<Group>): nat {
    if groups == [] then 0 else |groups[0].models| + SumModels(groups[1..])
  }

  lemma {:induction false} ColsIndex(groups: seq<Group>)
    ensures |Cols(groups)| == |groups|
    ensures forall k :: 0 <= k < |groups| ==> Cols(groups)[k] == groups[k].col
  {
    if groups != [] {
      ColsIndex(groups[1..]);
    }
  }

  /** A duplicate appears exactly when a changed entry's key is already among the earlier changed entries' keys. */
  lemma DuplicateStep(entries: seq<TrackingEntry>, pl: Planner)
    requires entries != []
    ensures var init, e := entries[..|entries| - 1], entries[|entries| - 1];
            HasDuplicate(entries, pl) <==> HasDuplicate(init, pl) || (Changed(e, pl) && DocKey(e, pl) in ChangedKeys(init, pl))
  {
    DuplicateStepSplits(entries, pl);
    DuplicateStepExtends(entries, pl);
  }

  /** Helper: a duplicate among all entries lies among the earlier ones or involves the last one. */
  lemma DuplicateStepSplits(entries: seq<TrackingEntry>, pl: Planner)
    requires entries != []
    ensures var init, e := entries[..|entries| - 1], entries[|entries| - 1];
            HasDuplicate(entries, pl) ==> HasDuplicate(init, pl) || (Changed(e, pl) && DocKey(e, pl) in ChangedKeys(init, pl))
  {
    var init := entries[..|entries| - 1];
    if HasDuplicate(entries, pl) {
      var i, j :| 0 <= i < j < |entries| && Changed(entries[i], pl) && Changed(entries[j], pl)
                  && DocKey(entries[i], pl) == DocKey(entries[j], pl);
      assert init[i] == entries[i];
      if j < |entries| - 1 {
        assert init[j] == entries[j];
      } else {
        ChangedKeyOf(init, i, pl);
      }
    }
  }

  /** Helper: a duplicate among the earlier entries, or one the last entry makes, is a duplicate among all. */
  lemma DuplicateStepExtends(entries: seq<TrackingEntry>, pl: Planner)
    requires entries != []
    ensures var init, e := entries[..|entries| - 1], entries[|entries| - 1];
            HasDuplicate(init, pl) || (Changed(e, pl) && DocKey(e, pl) in ChangedKeys(init, pl)) ==> HasDuplicate(entries, pl)
  {
    var init, e := entries[..|entries| - 1], entries[|entries| - 1];
    if Changed(e, pl) && DocKey(e, pl) in ChangedKeys(init, pl) {
      var i := ChangedKeyWitness(init, DocKey(e, pl), pl);
      assert entries[i] == init[i];
    }
    if HasDuplicate(init, pl) {
      var i, j :| 0 <= i < j < |init| && Changed(init[i], pl) && Changed(init[j], pl)
                  && DocKey(init[i], pl) == DocKey(init[j], pl);
      assert entries[i] == init[i] && entries[j] == init[j];
    }
  }

  /** A changed entry's key is among the changed keys. */
  lemma {:induction false} ChangedKeyOf(entries: seq<TrackingEntry>, i: nat, pl: Planner)
    requires i < |entries| && Changed(entries[i], pl)
    ensures DocKey(entries[i], pl) in ChangedKeys(entries, pl)
  {
    if i < |entries| - 1 {
      var init := entries[..|entries| - 1];
      assert init[i] == entries[i];
      ChangedKeyOf(init, i, pl);
    }
  }

  /** Every changed key belongs to some changed entry. */
  lemma {:induction false} ChangedKeyWitness(entries: seq<TrackingEntry>, key: (string, string), pl: Planner) returns (i: nat)
    requires key in ChangedKeys(entries, pl)
    ensures i < |entries| && Changed(entries[i], pl) && DocKey(entries[i], pl) == key
  {
    var init, e := entries[..|entries| - 1], entries[|entries| - 1];
    if Changed(e, pl) && DocKey(e, pl) == key {
      i := |entries| - 1;
    } else {
      i := ChangedKeyWitness(init, key, pl);
      assert init[i] == entries[i];
    }
  }

  /** The `seen` set is the set of the changed entries' keys. */
  lemma {:induction false} PlanSeen(entries: seq<TrackingEntry>, pl: Planner)
    requires PlanEntries(entries, pl).Ok?
    ensures PlanEntries(entries, pl).value.seen == ChangedKeys(entries, pl)
  {
    if entries != [] {
      PlanSeen(entries[..|entries| - 1], pl);
    }
  }

  /**
   * The entry loop succeeds exactly when no entry's id was modified and no two
   * changed entries are for the same document; with no id modified, its only
   * failure is the duplicate.
   */
  lemma {:induction false} PlanSucceedsIff(entries: seq<TrackingEntry>, pl: Planner)
    ensures PlanEntries(entries, pl).Ok? <==>
              (forall i :: 0 <= i < |entries| ==> !Faulty(entries[i], pl)) && !HasDuplicate(entries, pl)
    ensures (forall i :: 0 <= i < |entries| ==> !Faulty(entries[i], pl)) && PlanEntries(entries, pl).Err? ==>
              PlanEntries(entries, pl).error.DuplicateDocument?
  {
    if entries != [] {
      var init, e := entries[..|entries| - 1], entries[|entries| - 1];
      PlanSucceedsIff(init, pl);
      DuplicateStep(entries, pl);
      assert forall i :: 0 <= i < |init| ==> init[i] == entries[i];
      if PlanEntries(init, pl).Ok? {
        PlanSeen(init, pl);
      }
    }
  }

  /** With no model built, the entry loop ends with nothing seen and no groups. */
  lemma {:induction false} NothingChangedPlansNothing(entries: seq<TrackingEntry>, pl: Planner)
    requires forall i :: 0 <= i < |entries| ==> pl.build(entries[i]) == Ok(None)
    ensures PlanEntries(entries, pl) == Ok(Plan({}, []))
  {
    if entries != [] {
      var init := entries[..|entries| - 1];
      assert forall i :: 0 <= i < |init| ==> init[i] == entries[i];
      NothingChangedPlansNothing(init, pl);
    }
  }

  // ---------------------------------------------------------------------------
  // The groups
  // ---------------------------------------------------------------------------

  predicate DistinctCols(cs: seq<CollectionHandle>) {
    forall i, j :: 0 <= i < j < |cs| ==> cs[i] != cs[j]
  }

  /** Adding a model extends the group of its handle, or opens one at the end. */
  lemma {:induction false} AddToGroupEffect(groups: seq<Group>, col: CollectionHandle, m: WriteModel)
    requires DistinctCols(Cols(groups))
    ensures Cols(AddToGroup(groups, col, m)) == if col in Cols(groups) then Cols(groups) else Cols(groups) + [col]
    ensures |AddToGroup(groups, col, m)| == |groups| + if col in Cols(groups) then 0 else 1
    ensures forall k :: 0 <= k < |AddToGroup(groups, col, m)| ==>
              AddToGroup(groups, col, m)[k].models
              == if k == |groups| then [m] else groups[k].models + if groups[k].col == col then [m] else []
    ensures SumModels(AddToGroup(groups, col, m)) == SumModels(groups) + 1
  {
    ColsIndex(groups);
    ColsIndex(AddToGroup(groups, col, m));
    if groups != [] {
      var rest := groups[1..];
      assert Cols(groups) == [groups[0].col] + Cols(rest);
      assert DistinctCols(Cols(rest)) by {
        forall i, j | 0 <= i < j < |Cols(rest)| ensures Cols(rest)[i] != Cols(rest)[j] {
          assert Cols(rest)[i] == Cols(groups)[i + 1] && Cols(rest)[j] == Cols(groups)[j + 1];
        }
      }
      if groups[0].col != col {
        AddToGroupEffect(rest, col, m);
        ColsIndex(rest);
        ColsIndex(AddToGroup(rest, col, m));
        assert AddToGroup(groups, col, m) == [groups[0]] + AddToGroup(rest, col, m);
      } else {
        ColsIndex(rest);
        assert Cols(AddToGroup(groups, col, m)) == [col] + Cols(rest);
        forall k | 1 <= k < |groups| ensures groups[k].col != col {
          assert Cols(groups)[k] == groups[k].col && Cols(groups)[0] == col;
        }
      }
    }
  }

  /** Collections lists each handle once. */
  lemma {:induction false} CollectionsDistinct(entries: seq<TrackingEntry>, pl: Planner)
    ensures DistinctCols(Collections(entries, pl))
  {
    if entries != [] {
      CollectionsDistinct(entries[..|entries| - 1], pl);
    }
  }

  /**
   * After a successful entry loop there is one group per collection handle of a
   * changed entry, in order of first appearance; each holds exactly that handle's
   * models in attach order; and the groups hold one model per changed entry.
   */
  lemma {:induction false} PlanGroups(entries: seq<TrackingEntry>, pl: Planner)
    requires PlanEntries(entries, pl).Ok?
    ensures var gs := PlanEntries(entries, pl).value.groups;
            Cols(gs) == Collections(entries, pl)
            && (forall k :: 0 <= k < |gs| ==> gs[k].models == ModelsFor(entries, pl, gs[k].col))
            && SumModels(gs) == ChangedCount(entries, pl)
  {
    if entries != [] {
      var init, e := entries[..|entries| - 1], entries[|entries| - 1];
      PlanGroups(init, pl);
      CollectionsDistinct(init, pl);
      var gs0 := PlanEntries(init, pl).value.groups;
      var gs := PlanEntries(entries, pl).value.groups;
      ColsIndex(gs0);
      ColsIndex(gs);
      if Changed(e, pl) {
        var m := pl.build(e).value.value;
        assert gs == AddToGroup(gs0, e.collection, m);
        AddToGroupEffect(gs0, e.collection, m);
        forall k | 0 <= k < |gs| ensures gs[k].models == ModelsFor(entries, pl, gs[k].col) {
          if k < |gs0| {
            assert gs[k].col == gs0[k].col by {
              assert Cols(gs)[k] == Cols(gs0)[k];
            }
          } else {
            assert gs[k].col == e.collection by {
              assert Cols(gs)[k] == e.collection;
            }
            assert e.collection !in Cols(gs0);
            ModelsForAbsent(init, pl, e.collection);
          }
        }
      } else {
        assert gs == gs0;
      }
    }
  }

  /** A handle no changed entry uses has no models. */
  lemma {:induction false} ModelsForAbsent(entries: seq<TrackingEntry>, pl: Planner, col: CollectionHandle)
    requires col !in Collections(entries, pl)
    ensures ModelsFor(entries, pl, col) == []
  {
    if entries != [] {
      ModelsForAbsent(entries[..|entries| - 1], pl, col);
    }
  }

  /** A handle in Collections is some entry's handle. */
  lemma {:induction false} CollectionsUsed(entries: seq<TrackingEntry>, pl: Planner, col: CollectionHandle)
    ensures col in Collections(entries, pl) ==> exists i :: 0 <= i < |entries| && entries[i].collection == col
  {
    if entries != [] {
      var init := entries[..|entries| - 1];
      CollectionsUsed(init, pl, col);
      if col in Collections(init, pl) {
        var i :| 0 <= i < |init| && init[i].collection == col;
        assert entries[i] == init[i];
      }
    }
  }

  /**
   * When every entry has a handle of its own, each changed entry contributes its
   * own handle, and each such handle receives exactly one model.
   */
  lemma {:induction false} OwnHandlesCollections(entries: seq<TrackingEntry>, pl: Planner)
    requires OwnHandles(entries)
    ensures |Collections(entries, pl)| == ChangedCount(entries, pl)
    ensures forall col :: col in Collections(entries, pl) ==> |ModelsFor(entries, pl, col)| == 1
  {
    if entries != [] {
      var init, e := entries[..|entries| - 1], entries[|entries| - 1];
      assert OwnHandles(init) by {
        forall i, j | 0 <= i < j < |init| ensures init[i].collection != init[j].collection {
          assert init[i] == entries[i] && init[j] == entries[j];
        }
      }
      OwnHandlesCollections(init, pl);
      CollectionsUsed(init, pl, e.collection);
      forall i | 0 <= i < |init| ensures init[i].collection != e.collection {
        assert init[i] == entries[i];
      }
      ModelsForAbsent(init, pl, e.collection);
    }
  }

  /**
   * Grouping by handle, as the entry loop does, therefore puts each changed entry
   * in a group of its own: one bulk write per changed entry, not per collection.
   */
  lemma OneGroupPerChangedEntry(entries: seq<TrackingEntry>, pl: Planner)
    requires OwnHandles(entries) && PlanEntries(entries, pl).Ok?
    ensures var gs := PlanEntries(entries, pl).value.groups;
            |gs| == ChangedCount(entries, pl) && forall k :: 0 <= k < |gs| ==> |gs[k].models| == 1
  {
    var gs := PlanEntries(entries, pl).value.groups;
    PlanGroups(entries, pl);
    ColsIndex(gs);
    OwnHandlesCollections(entries, pl);
    forall k | 0 <= k < |gs| ensures |gs[k].models| == 1 {
      assert gs[k].col in Collections(entries, pl) by {
        assert Cols(gs)[k] == gs[k].col;
      }
    }
  }

  // ---------------------------------------------------------------------------
  // Sending
  // ---------------------------------------------------------------------------

  function SumFrom(groups: seq<Group>, i: nat): nat
    requires i <= |groups|
    decreases |groups| - i
  {
    if i == |groups| then 0 else |groups[i].models| + SumFrom(groups, i + 1)
  }

  lemma {:induction false} SumFromAll(groups: seq<Group>)
    ensures SumFrom(groups, 0) == SumModels(groups)
  {
    if groups != [] {
      SumFromAll(groups[1..]);
      SumFromShift(groups, 0);
    }
  }

  lemma {:induction false} SumFromShift(groups: seq<Group>, i: nat)
    requires i < |groups|
    ensures SumFrom(groups, i + 1) == SumFrom(groups[1..], i)
    decreases |groups| - i
  {
    if i + 1 < |groups| {
      SumFromShift(groups, i + 1);
    }
  }

  /**
   * A completed group loop requested one write per model of the remaining groups,
   * matched no fewer than before, and only appended events.
   */
  lemma {:induction false} ExecuteTotals(groups: seq<Group>, i: nat, driver: Driver, maxRetries: int, calls: nat,
                                         t: Totals, events: seq<Event>)
    requires i <= |groups|
    ensures var x := Execute(groups, i, driver, maxRetries, calls, t, events);
            |x.events| >= |events| && x.events[..|events|] == events
            && (i < |groups| ==> |x.events| > |events|)
            && (x.result.Ok? ==> x.result.value.req == t.req + SumFrom(groups, i) && x.result.value.matched >= t.matched)
    decreases |groups| - i
  {
    if i < |groups| {
      var g := groups[i];
      var a := Retry(driver, g.col, g.models, maxRetries, 0, 80, calls);
      RetryEvents(driver, g.col, g.models, maxRetries, 0, 80, calls);
      if a.outcome.Written? {
        ExecuteTotals(groups, i + 1, driver, maxRetries, calls + a.count,
                      Totals(t.req + |g.models|, t.matched + a.outcome.matched), events + a.events);
        var x := Execute(groups, i, driver, maxRetries, calls, t, events);
        assert x.events[..|events + a.events|] == events + a.events;
        assert x.events[..|events|] == (events + a.events)[..|events|];
      } else {
        assert (events + a.events)[..|events|] == events;
      }
    }
  }

  // ---------------------------------------------------------------------------
  // The save
  // ---------------------------------------------------------------------------

  /** An empty context saves nothing; otherwise the entries are cleared exactly when the entry loop succeeds. */
  lemma SaveClears(entries: seq<TrackingEntry>, env: SaveEnv, driver: Driver, options: SaveOptions)
    ensures entries == [] ==> Save(entries, env, driver, options) == SaveOutcome(Ok(0), [], false)
    ensures Save(entries, env, driver, options).clears <==> entries != [] && PlanEntries(entries, PlannerOf(env)).Ok?
    ensures PlanEntries(entries, PlannerOf(env)).Err? ==>
              Save(entries, env, driver, options) == SaveOutcome(Err(PlanEntries(entries, PlannerOf(env)).error), [], false)
  {
  }

  /** With nothing changed, nothing is written, the save returns 0 and the entries are cleared. */
  lemma NothingChangedSavesNothing(entries: seq<TrackingEntry>, env: SaveEnv, driver: Driver, options: SaveOptions)
    requires entries != []
    requires forall i :: 0 <= i < |entries| ==> Model(entries[i], env.serialize(entries[i].entity), env.policy, env.casts) == Ok(None)
    ensures Save(entries, env, driver, options) == SaveOutcome(Ok(0), [], true)
  {
    NothingChangedPlansNothing(entries, PlannerOf(env));
  }

  /**
   * A successful save with writes returns the number of changed entries; a
   * conflict reports a positive shortfall no larger than that number.
   */
  lemma SaveCounts(entries: seq<TrackingEntry>, env: SaveEnv, driver: Driver, options: SaveOptions)
    requires PlanEntries(entries, PlannerOf(env)).Ok?
    ensures Save(entries, env, driver, options).result.Ok? ==> Save(entries, env, driver, options).result.value == ChangedCount(entries, PlannerOf(env))
    ensures Save(entries, env, driver, options).result.Err? && Save(entries, env, driver, options).result.error.ConcurrencyConflict? ==>
              0 < Save(entries, env, driver, options).result.error.conflicts <= ChangedCount(entries, PlannerOf(env))
  {
    if entries != [] {
      var p := PlanEntries(entries, PlannerOf(env)).value;
      PlanGroups(entries, PlannerOf(env));
      if |p.groups| == 0 {
        assert Cols(p.groups) == [];
        assert SumModels(p.groups) == 0;
      } else {
        var begin := if options.useTransaction then [StartSession(p.groups[0].col), StartTransaction] else [];
        ExecuteTotals(p.groups, 0, driver, options.maxRetries, 0, Totals(0, 0), begin);
        SumFromAll(p.groups);
      }
    } else {
      assert ChangedCount(entries, PlannerOf(env)) == 0;
    }
  }

  /**
   * With a transaction the writes are bracketed by a session and a transaction
   * start and end in a commit, an abort, or (on a conflict) a commit followed by
   * an abort; without one there are no transaction events at all.
   */
  lemma TransactionBracket(entries: seq<TrackingEntry>, env: SaveEnv, driver: Driver, options: SaveOptions)
    requires PlanEntries(entries, PlannerOf(env)).Ok? && |PlanEntries(entries, PlannerOf(env)).value.groups| > 0
    ensures var s := Save(entries, env, driver, options);
            var g0 := PlanEntries(entries, PlannerOf(env)).value.groups[0];
            options.useTransaction ==>
              |s.events| >= 3 && s.events[..2] == [StartSession(g0.col), StartTransaction]
              && (s.result.Ok? ==> s.events[|s.events| - 1] == CommitTransaction)
              && (s.result.Err? && s.result.error.BulkFailed? ==> s.events[|s.events| - 1] == AbortTransaction)
              && (s.result.Err? && s.result.error.ConcurrencyConflict? ==>
                    s.events[|s.events| - 2..] == [CommitTransaction, AbortTransaction])
  {
    var p := PlanEntries(entries, PlannerOf(env)).value;
    var begin := if options.useTransaction then [StartSession(p.groups[0].col), StartTransaction] else [];
    ExecuteTotals(p.groups, 0, driver, options.maxRetries, 0, Totals(0, 0), begin);
    if entries == [] {
      assert PlanEntries(entries, PlannerOf(env)) == Ok(Plan({}, []));
    }
  }

  /** Only writes and back-off waits: no session or transaction event. */
  predicate PlainEvents(events: seq<Event>) {
    forall k :: 0 <= k < |events| ==> events[k].BulkWrite? || events[k].Delay?
  }

  lemma {:induction false} RetryIsPlain(driver: Driver, col: CollectionHandle, models: seq<WriteModel>, maxRetries: int,
                                        attempt: nat, delay: nat, calls: nat)
    ensures PlainEvents(Retry(driver, col, models, maxRetries, attempt, delay, calls).events)
    decreases maxRetries - attempt
  {
    var outcome := driver(calls, col, models);
    if outcome.Failed? && IsTransient(outcome.error) && attempt < maxRetries {
      RetryIsPlain(driver, col, models, maxRetries, attempt + 1, delay + delay, calls + 1);
    }
  }

  lemma {:induction false} ExecuteIsPlain(groups: seq<Group>, i: nat, driver: Driver, maxRetries: int, calls: nat,
                                          t: Totals, events: seq<Event>)
    requires i <= |groups| && PlainEvents(events)
    ensures PlainEvents(Execute(groups, i, driver, maxRetries, calls, t, events).events)
    decreases |groups| - i
  {
    if i < |groups| {
      var g := groups[i];
      var a := Retry(driver, g.col, g.models, maxRetries, 0, 80, calls);
      RetryIsPlain(driver, g.col, g.models, maxRetries, 0, 80, calls);
      assert PlainEvents(events + a.events);
      if a.outcome.Written? {
        ExecuteIsPlain(groups, i + 1, driver, maxRetries, calls + a.count,
                       Totals(t.req + |g.models|, t.matched + a.outcome.matched), events + a.events);
      }
    }
  }

  /**
   * The default options: unordered, no transaction, so a save emits no session
   * or transaction event; and two retries, so each collection's bulk write is
   * attempted at most three times.
   */
  lemma DefaultOptionsEffect(entries: seq<TrackingEntry>, env: SaveEnv, driver: Driver,
                             col: CollectionHandle, models: seq<WriteModel>, calls: nat)
    ensures !DefaultOptions().ordered
    ensures PlainEvents(Save(entries, env, driver, DefaultOptions()).events)
    ensures Retry(driver, col, models, DefaultOptions().maxRetries, 0, 80, calls).count <= 3
  {
    RetryCount(driver, col, models, DefaultOptions().maxRetries, 0, 80, calls);
    if entries != [] && PlanEntries(entries, PlannerOf(env)).Ok? {
      var p := PlanEntries(entries, PlannerOf(env)).value;
      if |p.groups| > 0 {
        ExecuteIsPlain(p.groups, 0, driver, DefaultOptions().maxRetries, 0, Totals(0, 0), []);
      }
    }
  }

  // ---------------------------------------------------------------------------
  // Attach
  // ---------------------------------------------------------------------------

  /**
   * Attaching the same entity twice is accepted: both entries are built, and they
   * have the same key. The duplicate only surfaces at save time, and only if the
   * entity changed.
   */
  lemma SameDocumentAttachesTwice(fullName: string, h1: nat, h2: nat, entity: EntityRef, snapshot: seq<Field>, v: Int64,
                                   prior: seq<TrackingEntry>, idString: Value -> string)
    requires "_id" in Names(snapshot)
    ensures var r1 := NewTrackingEntry(CollectionHandle(h1, fullName), entity, snapshot, Some(v));
            var r2 := NewTrackingEntry(CollectionHandle(h2, fullName), entity, snapshot, Some(v));
            r1.Ok? && r2.Ok? && AttachKey(r1.value, idString) == AttachKey(r2.value, idString)
            && !NoDuplicateKeys(prior + [r1.value, r2.value], idString)
  {
    var r1 := NewTrackingEntry(CollectionHandle(h1, fullName), entity, snapshot, Some(v));
    var r2 := NewTrackingEntry(CollectionHandle(h2, fullName), entity, snapshot, Some(v));
    var all := prior + [r1.value, r2.value];
    assert all[|prior|] == r1.value && all[|prior| + 1] == r2.value;
  }

  /** Two entries for one document: the save fails on the duplicate when the entity changed, and not otherwise. */
  lemma SameEntryTwice(e: TrackingEntry, pl: Planner)
    ensures !NoDuplicateKeys([e, e], pl.idString)
    ensures Changed(e, pl) ==> PlanEntries([e, e], pl).Err? && PlanEntries([e, e], pl).error.DuplicateDocument?
    ensures pl.build(e) == Ok(None) ==> PlanEntries([e, e], pl) == Ok(Plan({}, []))
  {
    var es := [e, e];
    assert es[0] == e && es[1] == e;
    if Changed(e, pl) {
      PlanSucceedsIff(es, pl);
      assert HasDuplicate(es, pl);
    }
    if pl.build(e) == Ok(None) {
      NothingChangedPlansNothing(es, pl);
    }
  }

  /** Entries attached through AttachChecked never make the save report a duplicate document. */
  lemma NoDuplicateKeysNoDuplicateDocument(entries: seq<TrackingEntry>, pl: Planner)
    requires NoDuplicateKeys(entries, pl.idString)
    ensures !HasDuplicate(entries, pl)
    ensures PlanEntries(entries, pl).Ok? <==> forall i :: 0 <= i < |entries| ==> !Faulty(entries[i], pl)
  {
    PlanSucceedsIff(entries, pl);
  }
}
