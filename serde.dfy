/** What serde's derived `Deserialize` does with a JSON value, for the shapes the
    crate uses: strings, `u64` counters, `Vec<T>`, a struct field under
    `#[serde(default)]`, and externally tagged enums. */
module Serde {
  import opened Wrappers
  import opened Numbers
  import opened Json

  /** `String::deserialize`: only a JSON string is accepted. */
  function DecodeString(j: Json): (r: Result<string>)
    ensures r.Ok? <==> j.Str?
    ensures r.Ok? ==> r.value == j.s
  {
    match j
    case Str(s) => Ok(s)
    case _ => Err("invalid type: expected a string")
  }

  /** `u64::deserialize`: an integer in 0 .. 2^64 - 1. */
  function DecodeU64(j: Json): (r: Result<U64>)
    ensures r.Ok? <==> j.Num? && 0 <= j.n <= U64_MAX
    ensures r.Ok? ==> r.value == j.n
  {
    match j
    case Num(n) => if 0 <= n <= U64_MAX then Ok(n) else Err("invalid value: expected u64")
    case _ => Err("invalid type: expected u64")
  }

  /** One field of a `#[serde(default)]` struct: an absent key gives the field's
      default, a present key is decoded, and a repeated key is an error. */
  function Field<T>(members: seq<(string, Json)>, key: string, default: T, decode: Json -> Result<T>): (r: Result<T>)
    ensures r.Ok? <==> (!LookupKey(members, key).Duplicated? &&
      (LookupKey(members, key).Present? ==> decode(LookupKey(members, key).value).Ok?))
    ensures r.Ok? ==> FieldHolds(members, key, default, decode, r.value)
  {
    match LookupKey(members, key)
    case Absent => Ok(default)
    case Present(v) => decode(v)
    case Duplicated => Err("duplicate field `" + key + "`")
  }

  /** The elements of a JSON array decoded one by one, in order; the first failure
      aborts the whole sequence. */
  function DecodeSeq<T>(items: seq<Json>, decode: Json -> Result<T>): (r: Result<seq<T>>)
    ensures r.Ok? <==> forall i :: 0 <= i < |items| ==> decode(items[i]).Ok?
    ensures r.Ok? ==> |r.value| == |items|
    ensures r.Ok? ==> forall i :: 0 <= i < |items| ==> r.value[i] == decode(items[i]).value
    decreases |items|
  {
    if items == [] then Ok([])
    else
      var x :- decode(items[0]);
      var xs :- DecodeSeq(items[1..], decode);
      Ok([x] + xs)
  }

  /** `Vec<T>::deserialize`: a JSON array of `T`. */
  function DecodeVec<T>(j: Json, decode: Json -> Result<T>): (r: Result<seq<T>>)
    ensures r.Ok? ==> j.Arr?
  {
    match j
    case Arr(items) => DecodeSeq(items, decode)
    case _ => Err("invalid type: expected a sequence")
  }

  // ---------------------------------------------------------------------------
  // Externally tagged enums

  /** The two JSON forms of an externally tagged enum value: a bare tag string, or
      an object with exactly one member whose key is the tag. */
  datatype EnumShape = Bare(tag: string) | Tagged(tag: string, payload: Json)

  function EnumShapeOf(j: Json): (r: Result<EnumShape>)
    ensures r.Ok? <==> j.Str? || (j.Obj? && |j.members| == 1)
    ensures r.Ok? && j.Str? ==> r.value == Bare(j.s)
    ensures r.Ok? && j.Obj? ==> r.value == Tagged(j.members[0].0, j.members[0].1)
    ensures r.Ok? && r.value.Tagged? ==> j == Obj([(r.value.tag, r.value.payload)])
  {
    match j
    case Str(tag) => Ok(Bare(tag))
    case Obj(members) =>
      if |members| == 1 then
        assert members == [(members[0].0, members[0].1)];
        Ok(Tagged(members[0].0, members[0].1))
      else Err("invalid value: expected map with a single key")
    case _ => Err("invalid type: expected string or map")
  }

  /** The variant of the first table entry whose token is `tag`. */
  function TableLookup<E>(table: seq<(string, E)>, tag: string): (r: Option<E>)
    ensures r.None? <==> forall i :: 0 <= i < |table| ==> table[i].0 != tag
    ensures r.Some? ==> exists i :: 0 <= i < |table| && table[i] == (tag, r.value)
    decreases |table|
  {
    if table == [] then None
    else if table[0].0 == tag then Some(table[0].1)
    else TableLookup(table[1..], tag)
  }

  /** The tag table of an enum: each variant under its wire token, in declaration order. */
  function TableOf<E>(variants: seq<E>, token: E -> string): (table: seq<(string, E)>)
    ensures |table| == |variants|
    ensures forall i :: 0 <= i < |variants| ==> table[i] == (token(variants[i]), variants[i])
  {
    seq(|variants|, i requires 0 <= i < |variants| => (token(variants[i]), variants[i]))
  }

  /** A unit variant chosen by its tag from `table`. An unknown tag is an error
      unless the enum has a catch-all variant (`#[serde(other)]`) in `other`; in
      the object form the payload of a unit variant must be `null`. */
  function UnitVariant<E>(table: seq<(string, E)>, other: Option<E>, shape: EnumShape): (r: Result<E>)
    ensures r.Ok? <==>
      (other.Some? || exists i :: 0 <= i < |table| && table[i].0 == shape.tag) &&
      (shape.Tagged? ==> shape.payload.Null?)
    ensures r.Ok? && (exists i :: 0 <= i < |table| && table[i].0 == shape.tag) ==>
      exists i :: 0 <= i < |table| && table[i] == (shape.tag, r.value)
    ensures r.Ok? && (forall i :: 0 <= i < |table| ==> table[i].0 != shape.tag) ==>
      r.value == other.value
  {
    var hit := TableLookup(table, shape.tag);
    var v :-
      if hit.Some? then Ok(hit.value)
      else if other.Some? then Ok(other.value)
      else Err("unknown variant `" + shape.tag + "`");
    if shape.Tagged? && !shape.payload.Null? then Err("invalid type: expected unit variant")
    else Ok(v)
  }

  /** When the listed variants have distinct tokens, each of them decodes from
      exactly its own token (with a `null` payload in the object form). */
  lemma {:induction false} TableOfDecodes<E>(variants: seq<E>, token: E -> string, other: Option<E>)
    requires forall a: E, b: E :: a in variants && b in variants && token(a) == token(b) ==> a == b
    ensures forall shape: EnumShape, v: E ::
      v in variants && shape.tag == token(v) && (shape.Tagged? ==> shape.payload.Null?) ==>
      UnitVariant(TableOf(variants, token), other, shape) == Ok(v)
  {
    var table := TableOf(variants, token);
    forall shape: EnumShape, v: E |
      v in variants && shape.tag == token(v) && (shape.Tagged? ==> shape.payload.Null?)
      ensures UnitVariant(table, other, shape) == Ok(v)
    {
      var i :| 0 <= i < |variants| && variants[i] == v;
      assert table[i].0 == shape.tag;
      var r := UnitVariant(table, other, shape);
      var k :| 0 <= k < |table| && table[k] == (shape.tag, r.value);
      assert token(variants[k]) == token(v);
    }
  }

  /** The meaning of `Field`: the value of a key that occurs at most once, or the
      default when it does not occur. */
  ghost predicate FieldHolds<T>(members: seq<(string, Json)>, key: string, default: T, decode: Json -> Result<T>, value: T)
  {
    match LookupKey(members, key)
    case Absent => value == default
    case Present(v) => decode(v) == Ok(value)
    case Duplicated => false
  }

  /** In an object without repeated keys, the field named by the key of member
      `i` holds whatever that member's value decodes to. */
  lemma FieldAt<T>(members: seq<(string, Json)>, i: nat, default: T, decode: Json -> Result<T>, value: T)
    requires DistinctKeys(members) && i < |members|
    requires decode(members[i].1) == Ok(value)
    ensures FieldHolds(members, members[i].0, default, decode, value)
  {
    DistinctKeysLookup(members, i);
  }

  /** A field whose meaning holds decodes to that value. */
  lemma FieldOf<T>(members: seq<(string, Json)>, key: string, default: T, decode: Json -> Result<T>, value: T)
    requires FieldHolds(members, key, default, decode, value)
    ensures Field(members, key, default, decode) == Ok(value)
  {
  }
}
