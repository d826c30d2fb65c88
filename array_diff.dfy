/**
 * The decision DiffArray makes for an array that changed, as a value, next to
 * what the chosen operator does to the stored array on the server: `$push`
 * with `$each` appends, `$pull` and `$pullAll` remove EVERY element equal to a
 * listed value, `$set` replaces the array.
 *
 * The decision as the code writes it does not always reproduce the current
 * array; ClassifyCorrected is a classifier whose patch always reproduces the
 * current array (CorrectedConverges).
 */
module ArrayDiff {
  import opened Bson
  import opened ArrayUtils

  datatype ArrayPatch =
    | NoPatch
    | PushValues(vals: seq<Value>)
    | PullValues(vals: seq<Value>)
    | SetArray(vals: seq<Value>)

  /** DiffArray's decision: push the tail, else pull the removed values, else set the whole array. */
  function Classify(o: seq<Value>, c: seq<Value>): ArrayPatch {
    if AppendOnly(o, c) then
      var appended := GetAppendedElements(o, c);
      if |appended| > 0 then PushValues(appended) else NoPatch
    else if RemoveOnly(o, c) then
      var removed := GetRemovedElements(o, c);
      if |removed| > 0 then PullValues(removed) else NoPatch
    else
      SetArray(c)
  }

  /** `$pullAll`: every element equal to one of `vals` is removed. */
  function PullAll(a: seq<Value>, vals: seq<Value>): (r: seq<Value>)
    ensures forall x :: x in r <==> x in a && x !in vals
  {
    if a == [] then []
    else
      var rest := PullAll(a[1..], vals);
      assert a == [a[0]] + a[1..];
      if a[0] in vals then rest else [a[0]] + rest
  }

  /** The stored array after the patch is applied to `a`. */
  function Apply(a: seq<Value>, p: ArrayPatch): seq<Value> {
    match p
    case NoPatch => a
    case PushValues(vals) => a + vals
    case PullValues(vals) => PullAll(a, vals)
    case SetArray(vals) => vals
  }

  /** The elements of `o` that occur in `c`, in `o`'s order. */
  function Present(o: seq<Value>, c: seq<Value>): (r: seq<Value>)
    ensures |r| <= |o|
  {
    if o == [] then []
    else
      var rest := Present(o[1..], c);
      if o[0] in c then [o[0]] + rest else rest
  }

  /** Pulling every missing value leaves exactly the elements that are still present. */
  lemma {:induction false} PullMissingIsPresent(o: seq<Value>, c: seq<Value>)
    ensures PullAll(o, Missing(o, c)) == Present(o, c)
  {
    if o != [] {
      assert o == [o[0]] + o[1..];
      MissingMembers(o, c, o[0]);
      PullTailMissing(o, c);
      PullMissingIsPresent(o[1..], c);
    }
  }

  /** Helper: the tail of `o` is pulled by `Missing(o, c)` as by `Missing(o[1..], c)`. */
  lemma {:induction false} PullTailMissing(o: seq<Value>, c: seq<Value>)
    requires o != []
    ensures PullAll(o[1..], Missing(o, c)) == PullAll(o[1..], Missing(o[1..], c))
  {
    PullSameMembers(o[1..], Missing(o, c), Missing(o[1..], c), o[1..]);
  }

  /** PullAll only depends on which of the pulled values occur in the array. */
  lemma {:induction false} PullSameMembers(a: seq<Value>, v1: seq<Value>, v2: seq<Value>, whole: seq<Value>)
    requires forall i :: 0 <= i < |a| ==> a[i] in whole
    requires forall x :: x in whole ==> (x in v1 <==> x in v2)
    ensures PullAll(a, v1) == PullAll(a, v2)
  {
    if a != [] {
      assert a[0] in whole;
      PullSameMembers(a[1..], v1, v2, whole);
    }
  }

  /** Nothing of `o` is missing from `c` exactly when every element of `o` is still present. */
  lemma {:induction false} NothingMissing(o: seq<Value>, c: seq<Value>)
    requires Missing(o, c) == []
    ensures Present(o, c) == o
  {
    if o != [] {
      MissingMembers(o, c, o[0]);
      assert o[0] in c;
      assert o == [o[0]] + o[1..];
      NothingMissing(o[1..], c);
    }
  }

  /**
   * When DiffArray's patch reproduces the current array: always for an append,
   * a full set or a mixed change, but for a remove-only classification only
   * when the current array is the original with the missing values pulled out.
   */
  lemma ClassifyConvergesIff(o: seq<Value>, c: seq<Value>)
    ensures Apply(o, Classify(o, c)) == c <==>
              AppendOnly(o, c) || !RemoveOnly(o, c) || Present(o, c) == c
  {
    if !AppendOnly(o, c) && RemoveOnly(o, c) {
      PullMissingIsPresent(o, c);
      if Missing(o, c) == [] {
        NothingMissing(o, c);
      }
    }
  }

  /** A reordering of two different values is classified as no change at all. */
  lemma ReorderIsLost(a: Value, b: Value)
    requires a != b
    ensures Classify([a, b], [b, a]) == NoPatch
    ensures Apply([a, b], Classify([a, b], [b, a])) != [b, a]
  {
    SameValuesRemoveNothing([a, b], [b, a]);
  }

  /** Dropping one of two equal values is classified as no change at all. */
  lemma DuplicateDropIsLost(a: Value)
    ensures Classify([a, a], [a]) == NoPatch
    ensures Apply([a, a], Classify([a, a], [a])) != [a]
  {
    SameValuesRemoveNothing([a, a], [a]);
  }

  /** A removal combined with a reordering is pulled, and the reordering is lost. */
  lemma ReorderedRemovalIsMisapplied(a: Value, b: Value, d: Value)
    requires a != b && b != d && a != d
    ensures Classify([a, b, d], [d, a]) == PullValues([b])
    ensures Apply([a, b, d], Classify([a, b, d], [d, a])) == [a, d]
  {
    ExampleMissing(a, b, d);
    ExamplePull(a, b, d);
  }

  /** Helper: the value missing from [d, a] is b. */
  lemma ExampleMissing(a: Value, b: Value, d: Value)
    requires a != b && b != d && a != d
    ensures Missing([a, b, d], [d, a]) == [b]
  {
    assert [a, b, d][1..] == [b, d];
    assert [b, d][1..] == [d];
    assert [d][1..] == [];
  }

  /** Helper: pulling b out of [a, b, d] leaves [a, d]. */
  lemma ExamplePull(a: Value, b: Value, d: Value)
    requires a != b && b != d && a != d
    ensures PullAll([a, b, d], [b]) == [a, d]
  {
    assert PullAll([d], [b]) == [d];
    assert PullAll([b, d], [b]) == [d];
    assert PullAll([a, b, d], [b]) == [a] + PullAll([b, d], [b]);
  }

  /**
   * Remove-only in the sense of "only some items removed": the current array is
   * the original with every copy of some values pulled out, in the original order.
   */
  predicate RemoveOnlyCorrected(o: seq<Value>, c: seq<Value>) {
    Present(o, c) == c
  }

  /** The classifier with the corrected remove-only test. */
  function ClassifyCorrected(o: seq<Value>, c: seq<Value>): ArrayPatch {
    if AppendOnly(o, c) then
      var appended := GetAppendedElements(o, c);
      if |appended| > 0 then PushValues(appended) else NoPatch
    else if RemoveOnlyCorrected(o, c) then
      var removed := Missing(o, c);
      if |removed| > 0 then PullValues(removed) else NoPatch
    else
      SetArray(c)
  }

  /** The corrected patch always reproduces the current array, and is empty only for an unchanged one. */
  lemma CorrectedConverges(o: seq<Value>, c: seq<Value>)
    ensures Apply(o, ClassifyCorrected(o, c)) == c
    ensures ClassifyCorrected(o, c) == NoPatch <==> o == c
  {
    if !AppendOnly(o, c) && RemoveOnlyCorrected(o, c) {
      PullMissingIsPresent(o, c);
      if Missing(o, c) == [] {
        NothingMissing(o, c);
      }
      assert o != c by { EqualIsAppendOnly(o); }
    }
    if o == c {
      EqualIsAppendOnly(o);
    }
  }

  /** Every element present in `c` occurs in `c`. */
  lemma {:induction false} PresentMembers(o: seq<Value>, c: seq<Value>)
    ensures forall x :: x in Present(o, c) ==> x in c && x in o
  {
    if o != [] {
      PresentMembers(o[1..], c);
    }
  }

  /** An array that passes the corrected remove-only test also passes the code's test. */
  lemma CorrectedRemoveOnlyIsRemoveOnly(o: seq<Value>, c: seq<Value>)
    ensures RemoveOnlyCorrected(o, c) ==> RemoveOnly(o, c)
  {
    PresentMembers(o, c);
  }

  /** The correction changes the decision only where the code's own patch is wrong. */
  lemma CorrectionOnlyWhereWrong(o: seq<Value>, c: seq<Value>)
    requires Classify(o, c) != ClassifyCorrected(o, c)
    ensures Apply(o, Classify(o, c)) != c
  {
    CorrectedRemoveOnlyIsRemoveOnly(o, c);
    ClassifyConvergesIff(o, c);
  }
}
