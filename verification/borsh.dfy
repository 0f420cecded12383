/** The two Borsh primitives the stream instructions use -- fixed-width
    little-endian unsigned integers and fixed-size byte arrays written without
    a length prefix -- and the schema-driven struct encoding built from them. */
module Borsh {
  import opened Wrappers

  type Byte = b: int | 0 <= b < 256

  /** 256^n: the number of distinct values an n-byte integer can hold. */
  function Pow256(n: nat): (r: nat)
    ensures r > 0
  {
    if n == 0 then 1 else 256 * Pow256(n - 1)
  }

  const U64_BOUND: nat := 0x1_0000_0000_0000_0000

  predicate IsU64(x: int) {
    0 <= x < U64_BOUND
  }

  lemma Pow256EightIsU64Bound()
    ensures Pow256(8) == U64_BOUND
  {
  }

  /** The `width` low-order bytes of `x`, least significant first. */
  function EncodeLE(x: nat, width: nat): (r: seq<Byte>)
    ensures |r| == width
  {
    if width == 0 then [] else [(x % 256) as Byte] + EncodeLE(x / 256, width - 1)
  }

  /** The unsigned integer a little-endian byte string denotes. */
  function DecodeLE(s: seq<Byte>): (r: nat)
    ensures r < Pow256(|s|)
  {
    if |s| == 0 then 0
    else
      var rest := DecodeLE(s[1..]);
      assert rest <= Pow256(|s| - 1) - 1;
      s[0] + 256 * rest
  }

  lemma {:induction false} DecodeEncodeLE(x: nat, width: nat)
    requires x < Pow256(width)
    ensures DecodeLE(EncodeLE(x, width)) == x
  {
    if width > 0 {
      var e := EncodeLE(x, width);
      assert e[1..] == EncodeLE(x / 256, width - 1);
      DecodeEncodeLE(x / 256, width - 1);
    }
  }

  lemma {:induction false} EncodeDecodeLE(s: seq<Byte>)
    ensures EncodeLE(DecodeLE(s), |s|) == s
  {
    if |s| > 0 {
      var rest := DecodeLE(s[1..]);
      var d := s[0] + 256 * rest;
      assert d % 256 == s[0];
      assert d / 256 == rest;
      EncodeDecodeLE(s[1..]);
    }
  }

  /** Borsh `u64`: eight little-endian bytes. */
  function EncodeU64(x: nat): (r: seq<Byte>)
    requires IsU64(x)
    ensures |r| == 8
    ensures DecodeLE(r) == x
  {
    Pow256EightIsU64Bound();
    DecodeEncodeLE(x, 8);
    EncodeLE(x, 8)
  }

  /** The number of bytes in the shortest little-endian form of `x` (none for 0). */
  function MinimalLength(x: nat): nat {
    if x == 0 then 0 else 1 + MinimalLength(x / 256)
  }

  lemma {:induction false} MinimalLengthBound(x: nat, n: nat)
    ensures MinimalLength(x) <= n <==> x < Pow256(n)
  {
    if n > 0 && x > 0 {
      MinimalLengthBound(x / 256, n - 1);
    }
  }

  /** The writer's `u64`: the value goes through `new BN(value).toArray('le', 8)`,
      which throws when the shortest form needs more than eight bytes. */
  function WriteU64(x: nat): (r: Option<seq<Byte>>)
    ensures r.Some? <==> IsU64(x)
    ensures r.Some? ==> r.value == EncodeU64(x)
  {
    MinimalLengthBound(x, 8);
    Pow256EightIsU64Bound();
    if MinimalLength(x) > 8 then None else Some(EncodeLE(x, 8))
  }

  /** Every 8-byte string is the encoding of exactly the value it decodes to. */
  lemma EncodeU64OfDecode(s: seq<Byte>)
    requires |s| == 8
    ensures IsU64(DecodeLE(s))
    ensures EncodeU64(DecodeLE(s)) == s
  {
    Pow256EightIsU64Bound();
    EncodeDecodeLE(s);
  }

  /** The field kinds of a Borsh struct schema used here: `"u64"` and `[n]`. */
  datatype FieldType = U64 | FixedBytes(len: nat)

  /** One `[name, type]` entry of a schema's `fields` list. */
  datatype Field = Field(name: string, ty: FieldType)

  datatype Value = U64Value(n: nat) | BytesValue(bytes: seq<Byte>)

  predicate Conforms(ty: FieldType, v: Value) {
    match ty
    case U64 => v.U64Value? && IsU64(v.n)
    case FixedBytes(len) => v.BytesValue? && |v.bytes| == len
  }

  /** The values, in schema order, fit the field types one for one. */
  predicate ConformsAll(schema: seq<Field>, vs: seq<Value>) {
    |schema| == |vs| &&
    (|schema| == 0 || (Conforms(schema[0].ty, vs[0]) && ConformsAll(schema[1..], vs[1..])))
  }

  function Width(ty: FieldType): nat {
    match ty
    case U64 => 8
    case FixedBytes(len) => len
  }

  /** Total encoded size of a struct: fixed, since no field has a length prefix. */
  function StructWidth(schema: seq<Field>): nat {
    if |schema| == 0 then 0 else Width(schema[0].ty) + StructWidth(schema[1..])
  }

  function SerializeField(ty: FieldType, v: Value): (r: seq<Byte>)
    requires Conforms(ty, v)
    ensures |r| == Width(ty)
  {
    match ty
    case U64 => EncodeU64(v.n)
    case FixedBytes(_) => v.bytes
  }

  /** Borsh `serialize(schema, obj)` for a struct: the fields in schema order,
      concatenated with no separators. */
  function Serialize(schema: seq<Field>, vs: seq<Value>): (r: seq<Byte>)
    requires ConformsAll(schema, vs)
    ensures |r| == StructWidth(schema)
  {
    if |schema| == 0 then [] else SerializeField(schema[0].ty, vs[0]) + Serialize(schema[1..], vs[1..])
  }

  /** The value has the field's kind (and a byte array its length), but a `u64`
      may still be out of range. */
  predicate Shaped(ty: FieldType, v: Value) {
    match ty
    case U64 => v.U64Value?
    case FixedBytes(len) => v.BytesValue? && |v.bytes| == len
  }

  predicate ShapedAll(schema: seq<Field>, vs: seq<Value>) {
    |schema| == |vs| &&
    (|schema| == 0 || (Shaped(schema[0].ty, vs[0]) && ShapedAll(schema[1..], vs[1..])))
  }

  /** The writer's step for one field; `None` where it throws. */
  function WriteField(ty: FieldType, v: Value): (r: Option<seq<Byte>>)
    requires Shaped(ty, v)
    ensures r.Some? <==> Conforms(ty, v)
    ensures r.Some? ==> r.value == SerializeField(ty, v)
  {
    match ty
    case U64 => WriteU64(v.n)
    case FixedBytes(_) => Some(v.bytes)
  }

  /** Borsh `serialize` as it runs: the fields are written in schema order and
      the first one the writer rejects aborts the whole call. */
  function TrySerialize(schema: seq<Field>, vs: seq<Value>): (r: Option<seq<Byte>>)
    requires ShapedAll(schema, vs)
    ensures r.Some? <==> ConformsAll(schema, vs)
    ensures r.Some? ==> r.value == Serialize(schema, vs)
  {
    if |schema| == 0 then Some([])
    else
      match WriteField(schema[0].ty, vs[0])
      case None => None
      case Some(head) =>
        match TrySerialize(schema[1..], vs[1..])
        case None => None
        case Some(tail) => Some(head + tail)
  }

  function ReadField(ty: FieldType, bytes: seq<Byte>): (v: Value)
    requires |bytes| == Width(ty)
  {
    match ty
    case U64 => U64Value(DecodeLE(bytes))
    case FixedBytes(_) => BytesValue(bytes)
  }

  /** Reads the schema's fields off the front of `b`; returns the values and the unread rest.
      Fails when `b` runs out before the last field. */
  function DeserializePrefix(schema: seq<Field>, b: seq<Byte>): Option<(seq<Value>, seq<Byte>)> {
    if |schema| == 0 then Some(([], b))
    else
      var w := Width(schema[0].ty);
      if |b| < w then None
      else
        match DeserializePrefix(schema[1..], b[w..])
        case None => None
        case Some((vs, rest)) => Some(([ReadField(schema[0].ty, b[..w])] + vs, rest))
  }

  /** Borsh `deserialize(schema, buffer)`: fails on a short buffer and on bytes left over. */
  function Deserialize(schema: seq<Field>, b: seq<Byte>): Option<seq<Value>> {
    match DeserializePrefix(schema, b)
    case None => None
    case Some((vs, rest)) => if rest == [] then Some(vs) else None
  }

  lemma {:induction false} ReadSerializedField(ty: FieldType, v: Value)
    requires Conforms(ty, v)
    ensures ReadField(ty, SerializeField(ty, v)) == v
  {
  }

  lemma {:induction false} DeserializePrefixOfSerialize(schema: seq<Field>, vs: seq<Value>, tail: seq<Byte>)
    requires ConformsAll(schema, vs)
    ensures DeserializePrefix(schema, Serialize(schema, vs) + tail) == Some((vs, tail))
  {
    if |schema| > 0 {
      var head := SerializeField(schema[0].ty, vs[0]);
      var b := Serialize(schema, vs) + tail;
      var w := Width(schema[0].ty);
      assert b == head + (Serialize(schema[1..], vs[1..]) + tail);
      assert b[..w] == head;
      assert b[w..] == Serialize(schema[1..], vs[1..]) + tail;
      DeserializePrefixOfSerialize(schema[1..], vs[1..], tail);
      ReadSerializedField(schema[0].ty, vs[0]);
      assert [vs[0]] + vs[1..] == vs;
      assert DeserializePrefix(schema, b) == Some(([ReadField(schema[0].ty, b[..w])] + vs[1..], tail));
    } else {
      assert Serialize(schema, vs) + tail == tail;
    }
  }

  /** Round trip: decoding an encoded struct gives back exactly its field values. */
  lemma SerializeRoundTrip(schema: seq<Field>, vs: seq<Value>)
    requires ConformsAll(schema, vs)
    ensures Deserialize(schema, Serialize(schema, vs)) == Some(vs)
  {
    DeserializePrefixOfSerialize(schema, vs, []);
    assert Serialize(schema, vs) + [] == Serialize(schema, vs);
  }

  lemma {:induction false} SerializeReadField(ty: FieldType, bytes: seq<Byte>)
    requires |bytes| == Width(ty)
    ensures Conforms(ty, ReadField(ty, bytes))
    ensures SerializeField(ty, ReadField(ty, bytes)) == bytes
  {
    match ty
    case U64 => EncodeU64OfDecode(bytes);
    case FixedBytes(_) =>
  }

  lemma {:induction false} SerializeOfDeserializePrefix(schema: seq<Field>, b: seq<Byte>, vs: seq<Value>, rest: seq<Byte>)
    requires DeserializePrefix(schema, b) == Some((vs, rest))
    ensures ConformsAll(schema, vs)
    ensures Serialize(schema, vs) + rest == b
  {
    if |schema| > 0 {
      var ty := schema[0].ty;
      var w := Width(ty);
      var tailVs := DeserializePrefix(schema[1..], b[w..]).value.0;
      assert vs == [ReadField(ty, b[..w])] + tailVs;
      assert vs[1..] == tailVs;
      SerializeOfDeserializePrefix(schema[1..], b[w..], tailVs, rest);
      SerializeReadField(ty, b[..w]);
      calc {
        Serialize(schema, vs) + rest;
        SerializeField(ty, vs[0]) + Serialize(schema[1..], tailVs) + rest;
        b[..w] + (Serialize(schema[1..], tailVs) + rest);
        b[..w] + b[w..];
        b;
      }
    }
  }

  /** The converse round trip: a buffer that decodes is exactly the encoding of what it decodes to. */
  lemma DeserializeSound(schema: seq<Field>, b: seq<Byte>)
    requires Deserialize(schema, b).Some?
    ensures ConformsAll(schema, Deserialize(schema, b).value)
    ensures Serialize(schema, Deserialize(schema, b).value) == b
  {
    var vs := Deserialize(schema, b).value;
    SerializeOfDeserializePrefix(schema, b, vs, []);
    assert Serialize(schema, vs) + [] == Serialize(schema, vs);
  }

  /** A buffer of the wrong length never decodes. */
  lemma DeserializeNeedsExactWidth(schema: seq<Field>, b: seq<Byte>)
    requires |b| != StructWidth(schema)
    ensures Deserialize(schema, b) == None
  {
    if Deserialize(schema, b).Some? {
      DeserializeSound(schema, b);
    }
  }
}
