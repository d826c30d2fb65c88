/** BsonUtils: numeric-type tests, widening to a 64-bit integer, and equality. */
module BsonUtils {
  import opened Bson

  /** IsNumeric: Int32, Int64, Double and Decimal128 are the numeric BSON types. */
  predicate IsNumeric(t: BsonType) {
    t == Int32 || t == Int64 || t == Double || t == Decimal128
  }

  predicate AreBothNumeric(a: Value, b: Value) {
    IsNumeric(TypeOf(a)) && IsNumeric(TypeOf(b))
  }

  /**
   * The `(long)` casts of a double and of a decimal. Floating point is not part of
   * this model, so these are supplied from outside and are otherwise unknown.
   */
  datatype FloatCasts = FloatCasts(fromDouble: int -> Int64, fromDecimal: int -> Int64)

  /** ToInt64Safe: widens a numeric value to `long`; 0 for every other type. */
  function ToInt64Safe(v: Value, casts: FloatCasts): (r: Int64)
    ensures v.I32? ==> r == v.i
    ensures v.I64? ==> r == v.l
    ensures !IsNumeric(TypeOf(v)) ==> r == 0
  {
    match v
    case I32(x) => x
    case I64(x) => x
    case Dbl(bits) => casts.fromDouble(bits)
    case Dec(bits) => casts.fromDecimal(bits)
    case _ => 0
  }

  /** BsonUtils.Equals delegates to BsonValue.Equals: structural equality. */
  predicate Equals(a: Value, b: Value) {
    a == b
  }

  /**
   * BsonValue's `==`/`!=` operators, which the id check uses: like Equals, except
   * that an Int32 and an Int64 compare by numeric value. The operators' comparisons
   * of an integer with a Double or a Decimal128 are floating point and are not
   * modelled: those pairs compare as by Equals.
   */
  predicate OperatorEquals(a: Value, b: Value) {
    if (a.I32? || a.I64?) && (b.I32? || b.I64?) then
      (if a.I32? then a.i else a.l) == (if b.I32? then b.i else b.l)
    else a == b
  }

  /**
   * The operator is an equivalence that accepts everything Equals accepts, and it
   * also identifies an Int32 with the Int64 of the same number, which Equals does not.
   */
  lemma OperatorEqualsIsCoarser(a: Value, b: Value, c: Value, n: Int32)
    ensures OperatorEquals(a, a)
    ensures OperatorEquals(a, b) == OperatorEquals(b, a)
    ensures OperatorEquals(a, b) && OperatorEquals(b, c) ==> OperatorEquals(a, c)
    ensures Equals(a, b) ==> OperatorEquals(a, b)
    ensures OperatorEquals(I32(n), I64(n)) && !Equals(I32(n), I64(n))
  {
  }

  /** A value is numeric exactly when it is built by one of the four numeric constructors. */
  lemma NumericValues(v: Value)
    ensures IsNumeric(TypeOf(v)) <==> (v.I32? || v.I64? || v.Dbl? || v.Dec?)
  {
  }

  lemma BothNumeric(a: Value, b: Value)
    ensures AreBothNumeric(a, b) <==> IsNumeric(TypeOf(a)) && IsNumeric(TypeOf(b))
  {
  }

  lemma EqualsIsEquivalence(a: Value, b: Value, c: Value)
    ensures Equals(a, a)
    ensures Equals(a, b) == Equals(b, a)
    ensures Equals(a, b) && Equals(b, c) ==> Equals(a, c)
  {
  }
}
