/**
 * UpdateOps: the five buckets the diff fills in. Each bucket is a .NET
 * Dictionary (or, for Unsets, a HashSet) that is only ever written, never
 * removed from, so it enumerates its paths in first-insertion order; it is
 * modelled as an insertion-ordered association list, and writing a path that
 * is already there replaces its value in place.
 */
module Updates {
  import opened Wrappers
  import opened Bson

  type Bucket<V> = seq<(string, V)>

  function Paths<V>(b: Bucket<V>): (r: seq<string>)
    ensures |r| == |b|
    ensures forall i :: 0 <= i < |b| ==> r[i] == b[i].0
  {
    if b == [] then [] else [b[0].0] + Paths(b[1..])
  }

  predicate Distinct(s: seq<string>) {
    forall i, j :: 0 <= i < j < |s| ==> s[i] != s[j]
  }

  /** Dictionary.TryGetValue. */
  function Get<V>(b: Bucket<V>, k: string): (r: Option<V>)
    ensures r.None? <==> k !in Paths(b)
  {
    if b == [] then None else if b[0].0 == k then Some(b[0].1) else Get(b[1..], k)
  }

  /** The indexer assignment `bucket[k] = v`. */
  function Put<V>(b: Bucket<V>, k: string, v: V): (r: Bucket<V>)
    ensures Paths(r) == if k in Paths(b) then Paths(b) else Paths(b) + [k]
  {
    if b == [] then [(k, v)]
    else if b[0].0 == k then [(k, v)] + b[1..]
    else
      var r := [b[0]] + Put(b[1..], k, v);
      assert Paths(r) == [b[0].0] + Paths(Put(b[1..], k, v));
      r
  }

  /** After `bucket[k] = v`, k maps to v and every other path keeps its value. */
  lemma PutGet<V>(b: Bucket<V>, k: string, v: V, j: string)
    ensures Get(Put(b, k, v), j) == if j == k then Some(v) else Get(b, j)
  {
  }

  /**
   * HashSet.Add: the set afterwards holds the old paths and `k`; it is unchanged
   * exactly when `k` was already there, and otherwise `k` is appended.
   */
  function AddPath(u: seq<string>, k: string): (r: seq<string>)
    ensures forall x :: x in r <==> x in u || x == k
    ensures r == u <==> k in u
    ensures |u| <= |r| <= |u| + 1 && r[..|u|] == u
  {
    if k in u then u else u + [k]
  }

  /** NumericDelta: a signed 64-bit delta with the width tag it was created with, if any. */
  datatype NumericDelta = NumericDelta(delta: Int64, width: Option<BsonType>) {
    /** NumericDelta.Add: `long` addition (it wraps), the tag is kept. */
    function Add(v: Int64): (r: NumericDelta)
      ensures r.width == width
      ensures -0x8000_0000_0000_0000 <= delta + v < 0x8000_0000_0000_0000 ==> r.delta == delta + v
    {
      NumericDelta(Wrap64(delta + v), width)
    }
  }

  /** The contents of an UpdateOps. */
  datatype OpsState = OpsState(
    sets: Bucket<Value>,
    unsets: seq<string>,
    incs: Bucket<NumericDelta>,
    pushes: Bucket<seq<Value>>,
    pulls: Bucket<seq<Value>>)
  {
    /** FieldOpsCount: the number of entries over all five buckets. */
    function FieldOpsCount(): nat {
      |sets| + |unsets| + |incs| + |pushes| + |pulls|
    }

    /** IsEmpty, as written: FieldOpsCount is 0 and (redundantly) Pushes and Pulls are empty. */
    predicate IsEmpty() {
      FieldOpsCount() == 0 && |pushes| == 0 && |pulls| == 0
    }

    /** No bucket holds a path twice: what makes each bucket's length its Count. */
    predicate Valid() {
      Distinct(Paths(sets)) && Distinct(unsets) && Distinct(Paths(incs))
      && Distinct(Paths(pushes)) && Distinct(Paths(pulls))
    }

    function WithSet(path: string, v: Value): OpsState { this.(sets := Put(sets, path, v)) }
    function WithUnset(path: string): OpsState { this.(unsets := AddPath(unsets, path)) }
    function WithInc(path: string, d: NumericDelta): OpsState { this.(incs := Put(incs, path, d)) }
    function WithPush(path: string, vals: seq<Value>): OpsState { this.(pushes := Put(pushes, path, vals)) }
    function WithPull(path: string, vals: seq<Value>): OpsState { this.(pulls := Put(pulls, path, vals)) }
  }

  const EmptyOps := OpsState([], [], [], [], [])

  /** Writing a path keeps its bucket free of repeats; the count grows by one exactly for a new path. */
  lemma PutDistinct<V>(b: Bucket<V>, k: string, v: V)
    requires Distinct(Paths(b))
    ensures Distinct(Paths(Put(b, k, v)))
    ensures |Put(b, k, v)| == if k in Paths(b) then |b| else |b| + 1
  {
  }

  lemma AddPathDistinct(u: seq<string>, k: string)
    requires Distinct(u)
    ensures Distinct(AddPath(u, k))
    ensures |AddPath(u, k)| == if k in u then |u| else |u| + 1
  {
  }

  /** The cardinality of a repeat-free sequence's elements is its length. */
  lemma {:induction false} DistinctCard(s: seq<string>)
    requires Distinct(s)
    ensures |set x | x in s| == |s|
  {
    if s != [] {
      var t := s[1..];
      assert Distinct(t);
      DistinctCard(t);
      assert (set x | x in s) == {s[0]} + (set x | x in t);
      assert s[0] !in (set x | x in t);
    }
  }

  /** With no repeated paths, FieldOpsCount is the sum of the buckets' Count (distinct paths per bucket). */
  lemma CountIsDistinctPaths(st: OpsState)
    requires st.Valid()
    ensures st.FieldOpsCount() ==
      |set p | p in Paths(st.sets)| + |set p | p in st.unsets| + |set p | p in Paths(st.incs)|
      + |set p | p in Paths(st.pushes)| + |set p | p in Paths(st.pulls)|
  {
    DistinctCard(Paths(st.sets));
    DistinctCard(st.unsets);
    DistinctCard(Paths(st.incs));
    DistinctCard(Paths(st.pushes));
    DistinctCard(Paths(st.pulls));
  }

  /** IsEmpty holds exactly when all five buckets are empty; the fresh container is empty. */
  lemma IsEmptyIff(st: OpsState)
    ensures st.IsEmpty() <==> st.sets == [] && st.unsets == [] && st.incs == [] && st.pushes == [] && st.pulls == []
    ensures EmptyOps.IsEmpty() && EmptyOps.FieldOpsCount() == 0 && EmptyOps.Valid()
  {
  }

  /**
   * Writing a path that a bucket already holds replaces its value and leaves the
   * count alone; adding a path to Unsets twice counts it once.
   */
  lemma RewriteKeepsCount(st: OpsState, path: string, v: Value, d: NumericDelta, vals: seq<Value>)
    ensures path in Paths(st.sets) ==> st.WithSet(path, v).FieldOpsCount() == st.FieldOpsCount()
    ensures path in st.unsets ==> st.WithUnset(path) == st
    ensures path in Paths(st.incs) ==> st.WithInc(path, d).FieldOpsCount() == st.FieldOpsCount()
    ensures path in Paths(st.pushes) ==> st.WithPush(path, vals).FieldOpsCount() == st.FieldOpsCount()
    ensures path in Paths(st.pulls) ==> st.WithPull(path, vals).FieldOpsCount() == st.FieldOpsCount()
    ensures Get(st.WithSet(path, v).sets, path) == Some(v)
    ensures Get(st.WithInc(path, d).incs, path) == Some(d)
    ensures Get(st.WithPush(path, vals).pushes, path) == Some(vals)
    ensures Get(st.WithPull(path, vals).pulls, path) == Some(vals)
  {
    PutGet(st.sets, path, v, path);
    PutGet(st.incs, path, d, path);
    PutGet(st.pushes, path, vals, path);
    PutGet(st.pulls, path, vals, path);
  }

  /** Every write keeps the container valid. */
  lemma WritesKeepValid(st: OpsState, path: string, v: Value, d: NumericDelta, vals: seq<Value>)
    requires st.Valid()
    ensures st.WithSet(path, v).Valid() && st.WithUnset(path).Valid() && st.WithInc(path, d).Valid()
    ensures st.WithPush(path, vals).Valid() && st.WithPull(path, vals).Valid()
  {
    PutDistinct(st.sets, path, v);
    AddPathDistinct(st.unsets, path);
    PutDistinct(st.incs, path, d);
    PutDistinct(st.pushes, path, vals);
    PutDistinct(st.pulls, path, vals);
  }

  /** The mutable container DiffEngine fills in place. */
  class UpdateOps {
    var sets: Bucket<Value>
    var unsets: seq<string>
    var incs: Bucket<NumericDelta>
    var pushes: Bucket<seq<Value>>
    var pulls: Bucket<seq<Value>>

    function State(): OpsState
      reads this
    {
      OpsState(sets, unsets, incs, pushes, pulls)
    }

    constructor ()
      ensures State() == EmptyOps
    {
      sets, unsets, incs, pushes, pulls := [], [], [], [], [];
    }

    /** `Sets[path] = v`. */
    method SetValue(path: string, v: Value)
      modifies this
      ensures State() == old(State()).WithSet(path, v)
    {
      sets := Put(sets, path, v);
    }

    /** `Unsets.Add(path)`. */
    method AddUnset(path: string)
      modifies this
      ensures State() == old(State()).WithUnset(path)
    {
      unsets := AddPath(unsets, path);
    }

    /** `Incs[path] = d`. */
    method SetInc(path: string, d: NumericDelta)
      modifies this
      ensures State() == old(State()).WithInc(path, d)
    {
      incs := Put(incs, path, d);
    }

    /** `Pushes[path] = vals`. */
    method SetPush(path: string, vals: seq<Value>)
      modifies this
      ensures State() == old(State()).WithPush(path, vals)
    {
      pushes := Put(pushes, path, vals);
    }

    /** `Pulls[path] = vals`. */
    method SetPull(path: string, vals: seq<Value>)
      modifies this
      ensures State() == old(State()).WithPull(path, vals)
    {
      pulls := Put(pulls, path, vals);
    }
  }
}
