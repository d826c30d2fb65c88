/**
 * The tree-shaped document value that both the snapshot and the current state
 * of a tracked entity are serialized into (the driver's BsonValue), and the few
 * BsonDocument operations the engine relies on: lookup by name, the set of names,
 * and set-or-append through the indexer.
 *
 * A document is an ORDERED list of fields, like BsonDocument; two values are equal
 * exactly when they are structurally equal, which is what BsonValue.Equals does
 * for documents (element by element, in order), arrays and scalars.
 */
module Bson {
  import opened Wrappers

  /** The C# `int` and `long` ranges. */
  type Int32 = x: int | -0x8000_0000 <= x < 0x8000_0000
  type Int64 = x: int | -0x8000_0000_0000_0000 <= x < 0x8000_0000_0000_0000

  /** Two's-complement wrap-around of unchecked `long` arithmetic. */
  function Wrap64(x: int): (r: Int64)
    ensures -0x8000_0000_0000_0000 <= x < 0x8000_0000_0000_0000 ==> r == x
  {
    (x + 0x8000_0000_0000_0000) % 0x1_0000_0000_0000_0000 - 0x8000_0000_0000_0000
  }

  /** The wrapped result differs from the exact one by a multiple of 2^64. */
  lemma Wrap64Congruent(x: int)
    ensures (Wrap64(x) - x) % 0x1_0000_0000_0000_0000 == 0
  {
  }

  /**
   * A BSON value. Doubles and Decimal128 values are kept as opaque
   * representations: nothing in the core does arithmetic on them except the
   * truncating casts of ToInt64Safe, which are a parameter (see BsonUtils).
   */
  datatype Value =
    | I32(i: Int32)
    | I64(l: Int64)
    | Dbl(dbits: int)
    | Dec(decbits: int)
    | Str(s: string)
    | Bool(b: bool)
    | Null
    | Oid(oid: string)
    | Arr(elems: seq<Value>)
    | Doc(fields: seq<Field>)

  datatype Field = Field(name: string, value: Value)

  /** BsonType: the tag of a value. */
  datatype BsonType = Int32 | Int64 | Double | Decimal128 | String | Boolean | NullType | ObjectId | Array | Document

  function TypeOf(v: Value): BsonType {
    match v
    case I32(_) => Int32
    case I64(_) => Int64
    case Dbl(_) => Double
    case Dec(_) => Decimal128
    case Str(_) => String
    case Bool(_) => Boolean
    case Null => NullType
    case Oid(_) => ObjectId
    case Arr(_) => Array
    case Doc(_) => Document
  }

  /** The field names of a document, in order (BsonDocument.Names). */
  function Names(fs: seq<Field>): (r: seq<string>)
    ensures |r| == |fs|
    ensures forall i :: 0 <= i < |fs| ==> r[i] == fs[i].name
  {
    if fs == [] then [] else [fs[0].name] + Names(fs[1..])
  }

  /** The position of the first field called `k`. */
  function FirstIndex(fs: seq<Field>, k: string): (i: nat)
    requires k in Names(fs)
    ensures i < |fs| && fs[i].name == k
    ensures forall j :: 0 <= j < i ==> fs[j].name != k
  {
    if fs[0].name == k then 0 else 1 + FirstIndex(fs[1..], k)
  }

  /** TryGetValue / Contains: the value of the first field called `k`. */
  function Lookup(fs: seq<Field>, k: string): (r: Option<Value>)
    ensures r.None? <==> k !in Names(fs)
  {
    if k in Names(fs) then Some(fs[FirstIndex(fs, k)].value) else None
  }

  /**
   * The indexer assignment `doc[k] = v`: replaces the value of the first field
   * called `k` in place, or appends a new field at the end.
   */
  function SetField(fs: seq<Field>, k: string, v: Value): (r: seq<Field>)
    ensures Names(r) == if k in Names(fs) then Names(fs) else Names(fs) + [k]
  {
    if k in Names(fs) then
      var i := FirstIndex(fs, k);
      var r := fs[i := Field(k, v)];
      assert Names(r) == Names(fs);
      r
    else
      var r := fs + [Field(k, v)];
      assert Names(r) == Names(fs) + [k];
      r
  }


  /** After `doc[k] = v`, looking up `k` gives `v` and every other name is unaffected. */
  lemma SetFieldLookup(fs: seq<Field>, k: string, v: Value, j: string)
    ensures Lookup(SetField(fs, k, v), j) == if j == k then Some(v) else Lookup(fs, j)
  {
    var r := SetField(fs, k, v);
    assert forall x :: 0 <= x < |fs| ==> r[x].name == fs[x].name;
    assert forall x :: 0 <= x < |fs| && fs[x].name != k ==> r[x] == fs[x];
    if j in Names(fs) {
      var a, b := FirstIndex(r, j), FirstIndex(fs, j);
      assert a == b;
    } else if j == k {
      assert FirstIndex(r, k) == |fs|;
    }
  }
}
