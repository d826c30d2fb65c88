/**
 * TrackingContext: the unit of work. It holds the attached entries; a save builds
 * each entry's write model, rejects a document written twice, groups the models by
 * collection handle in attach order, sends one bulk write per collection (retrying
 * transient driver failures with a doubling back-off), turns unmatched version
 * filters into a concurrency conflict, and clears its entries once it gets that far.
 *
 * The driver is an oracle (`Driver`): the outcome of the n-th BulkWriteAsync call of a
 * save. Sessions, transactions and back-off sleeps are recorded as events, not run.
 */
module Tracking {
  import opened Wrappers
  import opened Bson
  import opened BsonUtils
  import opened Policy
  import opened Writes
  import opened TrackingEntries
  import opened DiffEngine

  // ---------------------------------------------------------------------------
  // The driver
  // ---------------------------------------------------------------------------

  /** The exception a bulk write can end in; the first five are the ones IsTransient names. */
  datatype ErrorKind =
    | MongoConnection
    | MongoNotPrimary
    | MongoNodeIsRecovering
    | MongoExecutionTimeout
    | MongoWriteConcern
    | OtherError(name: string)

  /** IsTransient: connection, not-primary, node-recovering, execution-timeout and write-concern errors. */
  predicate IsTransient(e: ErrorKind) {
    e.MongoConnection? || e.MongoNotPrimary? || e.MongoNodeIsRecovering?
    || e.MongoExecutionTimeout? || e.MongoWriteConcern?
  }

  /** A BulkWriteAsync call: its MatchedCount, or the exception it threw. */
  datatype BulkOutcome = Written(matched: nat) | Failed(error: ErrorKind)

  /** The driver: the outcome of the `n`-th bulk write of a save, for one collection and its models. */
  type Driver = (nat, CollectionHandle, seq<WriteModel>) -> BulkOutcome

  /** What a save does to the outside world, in order. */
  datatype Event =
    | StartSession(col: CollectionHandle)
    | StartTransaction
    | BulkWrite(col: CollectionHandle, models: seq<WriteModel>)
    | Delay(ms: nat)
    | CommitTransaction
    | AbortTransaction

  /** SaveChangesOptions; its defaults are Ordered = false, MaxRetries = 2, UseTransaction = false. */
  datatype SaveOptions = SaveOptions(ordered: bool, maxRetries: int, useTransaction: bool)

  function DefaultOptions(): (o: SaveOptions)
    ensures !o.ordered && o.maxRetries == 2 && !o.useTransaction
  {
    SaveOptions(false, 2, false)
  }

  // ---------------------------------------------------------------------------
  // DoBulkWithRetry
  // ---------------------------------------------------------------------------

  /** The attempts of one DoBulkWithRetry: the outcome it returns or throws, its events, how many calls it made. */
  datatype Attempts = Attempts(outcome: BulkOutcome, events: seq<Event>, count: nat)

  /** `r` preceded by `events` and `n` more calls. */
  function After(events: seq<Event>, n: nat, r: Attempts): Attempts {
    Attempts(r.outcome, events + r.events, n + r.count)
  }

  /**
   * The retry loop from attempt number `attempt` on, `delay` being the back-off the
   * next retry waits and `calls` the number of driver calls made before: a failure
   * is retried while it is transient and `attempt < maxRetries`, waiting `delay`,
   * which then doubles.
   */
  function Retry(driver: Driver, col: CollectionHandle, models: seq<WriteModel>, maxRetries: int,
                 attempt: nat, delay: nat, calls: nat): Attempts
    decreases maxRetries - attempt
  {
    var outcome := driver(calls, col, models);
    if outcome.Failed? && IsTransient(outcome.error) && attempt < maxRetries then
      After([BulkWrite(col, models), Delay(delay)], 1,
            Retry(driver, col, models, maxRetries, attempt + 1, delay + delay, calls + 1))
    else Attempts(outcome, [BulkWrite(col, models)], 1)
  }

  /** DoBulkWithRetry, starting from an 80 ms back-off. */
  method DoBulkWithRetry(driver: Driver, col: CollectionHandle, models: seq<WriteModel>, maxRetries: int, calls: nat)
    returns (outcome: BulkOutcome, events: seq<Event>, count: nat)
    ensures Attempts(outcome, events, count) == Retry(driver, col, models, maxRetries, 0, 80, calls)
  {
    var delay := 80;
    var attempt := 0;
    events := [];
    while true
      invariant Retry(driver, col, models, maxRetries, 0, 80, calls)
                == After(events, attempt, Retry(driver, col, models, maxRetries, attempt, delay, calls + attempt))
      decreases maxRetries - attempt
    {
      var res := driver(calls + attempt, col, models);
      if res.Failed? && IsTransient(res.error) && attempt < maxRetries {
        ghost var rest := Retry(driver, col, models, maxRetries, attempt + 1, delay + delay, calls + attempt + 1);
        assert events + ([BulkWrite(col, models), Delay(delay)] + rest.events)
               == (events + [BulkWrite(col, models), Delay(delay)]) + rest.events;
        events := events + [BulkWrite(col, models), Delay(delay)];
        delay := delay + delay;
        attempt := attempt + 1;
      } else {
        return res, events + [BulkWrite(col, models)], attempt + 1;
      }
    }
  }

  // ---------------------------------------------------------------------------
  // Building the writes
  // ---------------------------------------------------------------------------

  /** What a save reads besides the entries: the entities' serialized state now, `BsonValue.ToString`, the policy. */
  datatype SaveEnv = SaveEnv(serialize: EntityRef -> seq<Field>, idString: Value -> string, policy: DiffPolicy, casts: FloatCasts)

  /** Why a save fails. */
  datatype SaveError =
    | IdModified(idField: string)                 // BuildModel's InvalidOperationException
    | DuplicateDocument(collectionFullName: string)
    | BulkFailed(error: ErrorKind)                // the bulk write's exception, rethrown
    | ConcurrencyConflict(conflicts: int)         // ConcurrencyConflictException(conflicts)

  /** The models one collection handle receives, in the order they were added. */
  datatype Group = Group(col: CollectionHandle, models: seq<WriteModel>)

  /** The state of SaveChanges' entry loop: the `seen` keys and `modelsByCol`, in insertion order. */
  datatype Plan = Plan(seen: set<(string, string)>, groups: seq<Group>)

  /** What the entry loop reads of each entry: its BuildModel result, and `BsonValue.ToString` for its id. */
  datatype Planner = Planner(build: TrackingEntry -> Result<Option<WriteModel>, ModelError>, idString: Value -> string)

  /** The entry loop of a save reads each entry's write model, built from its entity's state at save time. */
  function PlannerOf(env: SaveEnv): Planner {
    Planner((e: TrackingEntry) => Model(e, env.serialize(e.entity), env.policy, env.casts), env.idString)
  }

  /** The duplicate-detection key of an entry: its collection's full name and its id as a string. */
  function DocKey(e: TrackingEntry, pl: Planner): (string, string) {
    AttachKey(e, pl.idString)
  }

  /** `modelsByCol[col].Add(m)`, creating the list at the end when the handle is new. */
  function AddToGroup(groups: seq<Group>, col: CollectionHandle, m: WriteModel): seq<Group> {
    if groups == [] then [Group(col, [m])]
    else if groups[0].col == col then [groups[0].(models := groups[0].models + [m])] + groups[1..]
    else [groups[0]] + AddToGroup(groups[1..], col, m)
  }

  /** One turn of the entry loop. */
  function PlanEntry(p: Plan, e: TrackingEntry, pl: Planner): Result<Plan, SaveError> {
    match pl.build(e)
    case Err(IdFieldModified(f)) => Err(IdModified(f))
    case Ok(None) => Ok(p)
    case Ok(Some(m)) =>
      if DocKey(e, pl) in p.seen then Err(DuplicateDocument(e.collection.fullName))
      else Ok(Plan(p.seen + {DocKey(e, pl)}, AddToGroup(p.groups, e.collection, m)))
  }

  /** The entry loop over a list of entries, in order; it stops at the first failure. */
  function PlanEntries(entries: seq<TrackingEntry>, pl: Planner): Result<Plan, SaveError> {
    if entries == [] then Ok(Plan({}, []))
    else
      match PlanEntries(entries[..|entries| - 1], pl)
      case Err(err) => Err(err)
      case Ok(p) => PlanEntry(p, entries[|entries| - 1], pl)
  }

  // ---------------------------------------------------------------------------
  // Sending the writes
  // ---------------------------------------------------------------------------

  /** totalReq and totalMatched. */
  datatype Totals = Totals(req: int, matched: int)

  datatype Execution = Execution(result: Result<Totals, ErrorKind>, events: seq<Event>)

  /**
   * The loop over the groups from the `i`-th on: one DoBulkWithRetry per group,
   * adding its model count and matched count; the first failure ends it.
   */
  function Execute(groups: seq<Group>, i: nat, driver: Driver, maxRetries: int, calls: nat, t: Totals, events: seq<Event>): Execution
    requires i <= |groups|
    decreases |groups| - i
  {
    if i == |groups| then Execution(Ok(t), events)
    else
      var g := groups[i];
      var a := Retry(driver, g.col, g.models, maxRetries, 0, 80, calls);
      match a.outcome
      case Failed(err) => Execution(Err(err), events + a.events)
      case Written(matched) =>
        Execute(groups, i + 1, driver, maxRetries, calls + a.count, Totals(t.req + |g.models|, t.matched + matched), events + a.events)
  }

  /** A save's result, its events, and whether it reaches the `finally` that clears the entries. */
  datatype SaveOutcome = SaveOutcome(result: Result<int, SaveError>, events: seq<Event>, clears: bool)

  function TxnEvent(options: SaveOptions, ev: Event): seq<Event> {
    if options.useTransaction then [ev] else []
  }

  /** SaveChangesAsync over a given list of entries. */
  function Save(entries: seq<TrackingEntry>, env: SaveEnv, driver: Driver, options: SaveOptions): SaveOutcome {
    if |entries| == 0 then SaveOutcome(Ok(0), [], false)
    else
      match PlanEntries(entries, PlannerOf(env))
      case Err(err) => SaveOutcome(Err(err), [], false)
      case Ok(p) =>
        if |p.groups| == 0 then SaveOutcome(Ok(0), [], true)
        else
          var begin := if options.useTransaction then [StartSession(p.groups[0].col), StartTransaction] else [];
          var x := Execute(p.groups, 0, driver, options.maxRetries, 0, Totals(0, 0), begin);
          match x.result
          case Err(err) => SaveOutcome(Err(BulkFailed(err)), x.events + TxnEvent(options, AbortTransaction), true)
          case Ok(t) =>
            var committed := x.events + TxnEvent(options, CommitTransaction);
            var conflicts := t.req - t.matched;
            if conflicts > 0 then
              SaveOutcome(Err(ConcurrencyConflict(conflicts)), committed + TxnEvent(options, AbortTransaction), true)
            else SaveOutcome(Ok(t.req), committed, true)
  }

  // ---------------------------------------------------------------------------
  // The context
  // ---------------------------------------------------------------------------

  /** The typed `IMongoCollection<T>` an entity is attached through; only its namespace matters here. */
  datatype TypedCollection = TypedCollection(fullName: string)

  /**
   * Each entry holds its own `IMongoCollection<BsonDocument>`: the entry's
   * constructor asks the database for a new one, so no two entries share a handle.
   */
  predicate OwnHandles(entries: seq<TrackingEntry>) {
    forall i, j :: 0 <= i < j < |entries| ==> entries[i].collection != entries[j].collection
  }

  class TrackingContext {
    var entries: seq<TrackingEntry>
    /** How many collection handles the entries' constructors have obtained so far; the next one is numbered `handles`. */
    var handles: nat

    /** Every entry's handle was obtained by this context, and each by one entry only. */
    predicate Valid()
      reads this
    {
      (forall i :: 0 <= i < |entries| ==> entries[i].collection.identity < handles)
      && OwnHandles(entries)
    }

    constructor()
      ensures entries == [] && handles == 0
      ensures Valid()
    {
      entries := [];
      handles := 0;
    }

    /** `col.Database.GetCollection<BsonDocument>(...)`: a new handle object on the same namespace. */
    method NewHandle(col: TypedCollection) returns (h: CollectionHandle)
      modifies this
      ensures h == CollectionHandle(old(handles), col.fullName)
      ensures handles == old(handles) + 1 && entries == old(entries)
    {
      h := CollectionHandle(handles, col.fullName);
      handles := handles + 1;
    }

    /**
     * Attach: builds an entry, with a new collection handle, from the entity's
     * snapshot (always under "_id") and appends it; a failed construction adds no
     * entry. There is no duplicate check.
     */
    method Attach(col: TypedCollection, entity: EntityRef, snapshot: seq<Field>, expectedVersion: Option<Int64>)
      returns (r: Result<TrackingEntry, AttachError>)
      requires Valid()
      modifies this
      ensures Valid() && handles == old(handles) + 1
      ensures r == NewTrackingEntry(CollectionHandle(old(handles), col.fullName), entity, snapshot, expectedVersion)
      ensures entries == if r.Ok? then old(entries) + [r.value] else old(entries)
    {
      var h := NewHandle(col);
      r := NewTrackingEntry(h, entity, snapshot, expectedVersion);
      if r.Ok? {
        entries := entries + [r.value];
      }
    }

    /**
     * Attach as the behaviour it is expected to have: a second entry for a document
     * already attached (same collection full name, same id string) is refused.
     */
    method AttachChecked(col: TypedCollection, entity: EntityRef, snapshot: seq<Field>, expectedVersion: Option<Int64>,
                         idString: Value -> string)
      returns (r: Result<TrackingEntry, CheckedAttachError>)
      requires Valid()
      modifies this
      ensures Valid() && handles == old(handles) + 1
      ensures var made := NewTrackingEntry(CollectionHandle(old(handles), col.fullName), entity, snapshot, expectedVersion);
              (made.Err? ==> r == Err(NotConstructed(made.error)))
              && (made.Ok? ==> if Attached(old(entries), made.value, idString) then r == Err(AlreadyAttached(col.fullName))
                               else r == Ok(made.value))
      ensures entries == if r.Ok? then old(entries) + [r.value] else old(entries)
      ensures NoDuplicateKeys(old(entries), idString) ==> NoDuplicateKeys(entries, idString)
    {
      var h := NewHandle(col);
      var made := NewTrackingEntry(h, entity, snapshot, expectedVersion);
      if made.Err? {
        return Err(NotConstructed(made.error));
      }
      var e := made.value;
      for i := 0 to |entries|
        invariant forall j :: 0 <= j < i ==> AttachKey(entries[j], idString) != AttachKey(e, idString)
      {
        if AttachKey(entries[i], idString) == AttachKey(e, idString) {
          return Err(AlreadyAttached(col.fullName));
        }
      }
      entries := entries + [e];
      r := Ok(e);
    }

    /** The entry loop of SaveChangesAsync. */
    method BuildPlan(env: SaveEnv) returns (r: Result<Plan, SaveError>)
      ensures r == PlanEntries(entries, PlannerOf(env))
    {
      ghost var pl := PlannerOf(env);
      var seen: set<(string, string)> := {};
      var groups: seq<Group> := [];
      for i := 0 to |entries|
        invariant PlanEntries(entries[..i], pl) == Ok(Plan(seen, groups))
      {
        var e := entries[i];
        var model := BuildModel(e, env.serialize(e.entity), env.policy, env.casts);
        assert model == pl.build(e);
        assert entries[..i + 1][..i] == entries[..i];
        assert PlanEntries(entries[..i + 1], pl) == PlanEntry(Plan(seen, groups), e, pl);
        match model {
          case Err(IdFieldModified(f)) =>
            PlanErrorSticks(entries, i + 1, pl);
            return Err(IdModified(f));
          case Ok(None) =>
          case Ok(Some(m)) =>
            var key := AttachKey(e, env.idString);
            if key in seen {
              PlanErrorSticks(entries, i + 1, pl);
              return Err(DuplicateDocument(e.collection.fullName));
            }
            seen := seen + {key};
            groups := AddToGroup(groups, e.collection, m);
        }
      }
      assert entries[..|entries|] == entries;
      return Ok(Plan(seen, groups));
    }

    /** SaveChangesAsync. */
    method SaveChanges(env: SaveEnv, driver: Driver, options: SaveOptions) returns (r: Result<int, SaveError>, events: seq<Event>)
      requires Valid()
      modifies this
      ensures Valid() && handles == old(handles)
      ensures r == Save(old(entries), env, driver, options).result
      ensures events == Save(old(entries), env, driver, options).events
      ensures entries == if Save(old(entries), env, driver, options).clears then [] else old(entries)
    {
      if |entries| == 0 {
        return Ok(0), [];
      }
      var plan := BuildPlan(env);
      if plan.Err? {
        return Err(plan.error), [];
      }
      var groups := plan.value.groups;
      if |groups| == 0 {
        entries := [];
        return Ok(0), [];
      }
      events := [];
      if options.useTransaction {
        events := [StartSession(groups[0].col), StartTransaction];
      }
      var x := ExecuteGroups(groups, driver, options.maxRetries, events);
      entries := [];
      match x.result {
        case Err(err) =>
          r, events := Err(BulkFailed(err)), x.events + TxnEvent(options, AbortTransaction);
        case Ok(t) =>
          events := x.events + TxnEvent(options, CommitTransaction);
          var conflicts := t.req - t.matched;
          if conflicts > 0 {
            r, events := Err(ConcurrencyConflict(conflicts)), events + TxnEvent(options, AbortTransaction);
          } else {
            r := Ok(t.req);
          }
      }
    }
  }

  /** Why the checked Attach refuses an entity. */
  datatype CheckedAttachError = NotConstructed(cause: AttachError) | AlreadyAttached(collectionFullName: string)

  /** The key SaveChangesAsync detects duplicates by. */
  function AttachKey(e: TrackingEntry, idString: Value -> string): (string, string) {
    (e.collection.fullName, idString(e.id))
  }

  predicate Attached(entries: seq<TrackingEntry>, e: TrackingEntry, idString: Value -> string) {
    exists j :: 0 <= j < |entries| && AttachKey(entries[j], idString) == AttachKey(e, idString)
  }

  /** No two entries share a collection full name and an id string. */
  predicate NoDuplicateKeys(entries: seq<TrackingEntry>, idString: Value -> string) {
    forall i, j :: 0 <= i < j < |entries| ==> AttachKey(entries[i], idString) != AttachKey(entries[j], idString)
  }

  /** Once the entry loop fails, it stays failed with the same error. */
  lemma {:induction false} PlanErrorSticks(entries: seq<TrackingEntry>, n: nat, pl: Planner)
    requires n <= |entries| && PlanEntries(entries[..n], pl).Err?
    ensures PlanEntries(entries, pl) == PlanEntries(entries[..n], pl)
    decreases |entries| - n
  {
    if n < |entries| {
      assert entries[..n + 1][..n] == entries[..n];
      PlanErrorSticks(entries, n + 1, pl);
    } else {
      assert entries[..n] == entries;
    }
  }

  /** The loop over the groups of SaveChangesAsync. */
  method ExecuteGroups(groups: seq<Group>, driver: Driver, maxRetries: int, begin: seq<Event>) returns (x: Execution)
    ensures x == Execute(groups, 0, driver, maxRetries, 0, Totals(0, 0), begin)
  {
    var totalReq, totalMatched := 0, 0;
    var calls := 0;
    var events := begin;
    for i := 0 to |groups|
      invariant Execute(groups, 0, driver, maxRetries, 0, Totals(0, 0), begin)
                == Execute(groups, i, driver, maxRetries, calls, Totals(totalReq, totalMatched), events)
    {
      var g := groups[i];
      var outcome, attemptEvents, count := DoBulkWithRetry(driver, g.col, g.models, maxRetries, calls);
      events := events + attemptEvents;
      if outcome.Failed? {
        return Execution(Err(outcome.error), events);
      }
      totalReq := totalReq + |g.models|;
      totalMatched := totalMatched + outcome.matched;
      calls := calls + count;
    }
    return Execution(Ok(Totals(totalReq, totalMatched)), events);
  }
}
