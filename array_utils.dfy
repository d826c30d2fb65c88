/**
 * ArrayUtils: classifying how an array changed between the snapshot (`o`,
 * the original) and the current state (`c`), and extracting what was appended
 * or removed. Membership (`x in s`) is BsonArray.Contains, which compares with
 * BsonValue.Equals.
 */
module ArrayUtils {
  import opened Bson

  /** Append-only: the original is an index-aligned prefix of the current array. */
  predicate AppendOnly(o: seq<Value>, c: seq<Value>) {
    |c| >= |o| && c[..|o|] == o
  }

  /** IsAppendOnly: the early-exit index loop. */
  method IsAppendOnly(o: seq<Value>, c: seq<Value>) returns (b: bool)
    ensures b <==> |c| >= |o| && forall i :: 0 <= i < |o| ==> o[i] == c[i]
    ensures b == AppendOnly(o, c)
  {
    if |c| < |o| {
      return false;
    }
    for i := 0 to |o|
      invariant forall k :: 0 <= k < i ==> o[k] == c[k]
    {
      if o[i] != c[i] {
        return false;
      }
    }
    assert c[..|o|] == o;
    return true;
  }

  /** IsRemoveOnly: no longer than the original, and every current element occurs in it. */
  predicate RemoveOnly(o: seq<Value>, c: seq<Value>) {
    |c| <= |o| && forall x :: x in c ==> x in o
  }

  /** GetAppendedElements: the tail past the original's length, or nothing. */
  function GetAppendedElements(o: seq<Value>, c: seq<Value>): (r: seq<Value>)
    ensures AppendOnly(o, c) ==> o + r == c
    ensures !AppendOnly(o, c) ==> r == []
  {
    if AppendOnly(o, c) then c[|o|..] else []
  }

  /** The elements of `o` that do not occur in `c`, in `o`'s order, duplicates kept. */
  function Missing(o: seq<Value>, c: seq<Value>): (r: seq<Value>)
    ensures |r| <= |o|
    ensures forall x :: multiset(r)[x] == if x in c then 0 else multiset(o)[x]
  {
    if o == [] then []
    else
      var rest := Missing(o[1..], c);
      assert o == [o[0]] + o[1..];
      if o[0] in c then rest else [o[0]] + rest
  }

  /** GetRemovedElements: what `o` holds that `c` does not, or nothing when not remove-only. */
  function GetRemovedElements(o: seq<Value>, c: seq<Value>): (r: seq<Value>)
    ensures RemoveOnly(o, c) ==> r == Missing(o, c)
    ensures !RemoveOnly(o, c) ==> r == []
  {
    if RemoveOnly(o, c) then Missing(o, c) else []
  }

  /** Missing keeps `o`'s order: it distributes over concatenation. */
  lemma {:induction false} MissingConcat(o1: seq<Value>, o2: seq<Value>, c: seq<Value>)
    ensures Missing(o1 + o2, c) == Missing(o1, c) + Missing(o2, c)
  {
    if o1 == [] {
      assert o1 + o2 == o2;
    } else {
      assert (o1 + o2)[1..] == o1[1..] + o2;
      MissingConcat(o1[1..], o2, c);
    }
  }

  /** Membership in Missing, both directions. */
  lemma MissingMembers(o: seq<Value>, c: seq<Value>, x: Value)
    ensures x in Missing(o, c) <==> x in o && x !in c
  {
    assert x in Missing(o, c) <==> multiset(Missing(o, c))[x] > 0;
    assert x in o <==> multiset(o)[x] > 0;
  }

  /** Equal arrays are append-only with nothing appended. */
  lemma EqualIsAppendOnly(o: seq<Value>)
    ensures AppendOnly(o, o) && GetAppendedElements(o, o) == []
  {
  }

  /**
   * Remove-only is not multiset-aware: when `c` holds exactly the values of `o`
   * and is no longer (a reordering, or some copies of a duplicate dropped), the
   * change is remove-only and nothing is reported as removed.
   */
  lemma {:induction false} SameValuesRemoveNothing(o: seq<Value>, c: seq<Value>)
    requires |c| <= |o|
    requires forall x :: x in o <==> x in c
    ensures RemoveOnly(o, c)
    ensures GetRemovedElements(o, c) == []
  {
    var r := Missing(o, c);
    if r != [] {
      MissingMembers(o, c, r[0]);
    }
  }

  /** A reordering is a case of the above. */
  lemma PermutationRemovesNothing(o: seq<Value>, c: seq<Value>)
    requires multiset(c) == multiset(o)
    ensures RemoveOnly(o, c)
    ensures GetRemovedElements(o, c) == []
  {
    assert |c| == |multiset(c)| == |multiset(o)| == |o|;
    forall x ensures x in o <==> x in c {
      assert x in o <==> x in multiset(o);
      assert x in c <==> x in multiset(c);
    }
    SameValuesRemoveNothing(o, c);
  }

  /** The change ratio as an exact fraction `changed / size` (the source divides in floating point). */
  datatype Ratio = Ratio(changed: int, size: int)

  /** How many index-aligned positions below `n` hold equal elements. */
  function CommonCount(o: seq<Value>, c: seq<Value>, n: nat): (r: nat)
    requires n <= |o| && n <= |c|
    ensures r <= n
  {
    if n == 0 then 0 else CommonCount(o, c, n - 1) + (if o[n - 1] == c[n - 1] then 1 else 0)
  }

  function Min(a: int, b: int): int { if a <= b then a else b }
  function Max(a: int, b: int): int { if a >= b then a else b }
  function Abs(a: int): int { if a >= 0 then a else -a }

  /** The ratio CalculateChangeRatio returns, as a fraction. */
  function ChangeRatio(o: seq<Value>, c: seq<Value>): Ratio {
    if |o| == 0 then
      (if |c| == 0 then Ratio(0, 1) else Ratio(1, 1))
    else
      var minCount := Min(|o|, |c|);
      Ratio(minCount - CommonCount(o, c, minCount) + Abs(|c| - |o|), Max(|o|, |c|))
  }

  /** CalculateChangeRatio: the loop that counts index-aligned equal elements. */
  method CalculateChangeRatio(o: seq<Value>, c: seq<Value>) returns (r: Ratio)
    ensures r == ChangeRatio(o, c)
  {
    if |o| == 0 {
      return if |c| == 0 then Ratio(0, 1) else Ratio(1, 1);
    }
    var sizeChange := Abs(|c| - |o|);
    var maxSize := Max(|o|, |c|);
    var commonCount := 0;
    var minCount := Min(|o|, |c|);
    for i := 0 to minCount
      invariant commonCount == CommonCount(o, c, i)
    {
      if o[i] == c[i] {
        commonCount := commonCount + 1;
      }
    }
    r := Ratio(minCount - commonCount + sizeChange, maxSize);
  }

  /** All positions below `n` agree exactly when the common count reaches `n`. */
  lemma {:induction false} CommonCountFull(o: seq<Value>, c: seq<Value>, n: nat)
    requires n <= |o| && n <= |c|
    ensures CommonCount(o, c, n) == n <==> o[..n] == c[..n]
  {
    if n > 0 {
      CommonCountFull(o, c, n - 1);
      assert o[..n] == o[..n - 1] + [o[n - 1]];
      assert c[..n] == c[..n - 1] + [c[n - 1]];
      if o[..n] == c[..n] {
        assert o[..n - 1] == o[..n][..n - 1];
        assert c[..n - 1] == c[..n][..n - 1];
      }
    }
  }

  /**
   * The documented bound "0.0 ~ 1.0": the ratio is a fraction between 0 and 1,
   * and it is 0 exactly for an unchanged array.
   */
  lemma ChangeRatioBounds(o: seq<Value>, c: seq<Value>)
    ensures 0 <= ChangeRatio(o, c).changed <= ChangeRatio(o, c).size
    ensures ChangeRatio(o, c).size > 0
    ensures ChangeRatio(o, c).changed == 0 <==> o == c
    ensures |o| == 0 && |c| == 0 ==> ChangeRatio(o, c) == Ratio(0, 1)
    ensures |o| == 0 && |c| != 0 ==> ChangeRatio(o, c) == Ratio(1, 1)
  {
    if |o| != 0 {
      var m := Min(|o|, |c|);
      CommonCountFull(o, c, m);
      if |o| == |c| {
        assert o[..m] == o && c[..m] == c;
      }
    }
  }
}
