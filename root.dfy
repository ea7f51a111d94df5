/** The whole answer of `multipathd show maps json`: the version of the daemon's
    JSON format and every map it manages. */
module Multipathd {
  import opened Wrappers
  import opened Numbers
  import opened Json
  import Serde
  import opened Map

  /** The top-level document, with its wire keys noted beside each field. */
  datatype Multipathd = Multipathd(
    majorVersion: U64, // "major_version"
    minorVersion: U64, // "minor_version"
    maps: seq<Map>     // "maps"
  )

  /** `Multipathd::default()`. */
  const DEFAULT_MULTIPATHD := Multipathd(0, 0, [])

  /** `Vec<Map>::deserialize`: an array of maps, decoded in order; one map that
      fails makes the whole array fail. */
  function DecodeMaps(j: Json): (r: Result<seq<Map>>)
    ensures r.Ok? <==> j.Arr? && forall i :: 0 <= i < |j.items| ==> DecodeMap(j.items[i]).Ok?
    ensures r.Ok? ==> |r.value| == |j.items|
    ensures r.Ok? ==> forall i :: 0 <= i < |j.items| ==> r.value[i] == DecodeMap(j.items[i]).value
  {
    Serde.DecodeVec(j, DecodeMap)
  }

  /** A `#[serde(default)]` document. */
  function DecodeMultipathd(j: Json): (r: Result<Multipathd>)
    ensures r.Ok? ==> j.Obj?
    ensures r.Ok? ==> MultipathdFieldsHold(j.members, r.value)
  {
    match j
    case Obj(ms) =>
      var majorVersion := Serde.Field(ms, "major_version", 0, Serde.DecodeU64);
      var minorVersion := Serde.Field(ms, "minor_version", 0, Serde.DecodeU64);
      var maps := Serde.Field(ms, "maps", [], DecodeMaps);
      if majorVersion.Ok? && minorVersion.Ok? && maps.Ok? then
        Ok(Multipathd(majorVersion.value, minorVersion.value, maps.value))
      else Err("invalid value for struct Multipathd")
    case _ => Err("invalid type: expected struct Multipathd")
  }

  /** Every field of `d` is what its key in `ms` gives, or the field's default
      when the key is absent. */
  ghost predicate MultipathdFieldsHold(ms: seq<(string, Json)>, d: Multipathd)
  {
    Serde.FieldHolds(ms, "major_version", 0, Serde.DecodeU64, d.majorVersion) &&
    Serde.FieldHolds(ms, "minor_version", 0, Serde.DecodeU64, d.minorVersion) &&
    Serde.FieldHolds(ms, "maps", [], DecodeMaps, d.maps)
  }

  /** The converse of `DecodeMultipathd`'s contract. */
  lemma DecodeMultipathdComplete(ms: seq<(string, Json)>, d: Multipathd)
    requires MultipathdFieldsHold(ms, d)
    ensures DecodeMultipathd(Obj(ms)) == Ok(d)
  {
    Serde.FieldOf(ms, "major_version", 0, Serde.DecodeU64, d.majorVersion);
    Serde.FieldOf(ms, "minor_version", 0, Serde.DecodeU64, d.minorVersion);
    Serde.FieldOf(ms, "maps", [], DecodeMaps, d.maps);
  }

  /** An empty object is the default document: version 0.0 and no maps. */
  lemma MultipathdDefaults()
    ensures DecodeMultipathd(Obj([])) == Ok(DEFAULT_MULTIPATHD)
  {
  }

  /** Anything that is not an object is an error. */
  lemma MultipathdNeedsObject(j: Json)
    requires !j.Obj?
    ensures DecodeMultipathd(j).Err?
  {
  }

  /** The maps of the document are those of its "maps" array, in the same order;
      one map that fails to decode makes the whole document fail. */
  lemma MultipathdMaps(ms: seq<(string, Json)>, items: seq<Json>)
    requires LookupKey(ms, "maps") == Present(Arr(items))
    ensures DecodeMultipathd(Obj(ms)).Ok? ==>
      var maps := DecodeMultipathd(Obj(ms)).value.maps;
      |maps| == |items| && forall i :: 0 <= i < |items| ==> DecodeMap(items[i]) == Ok(maps[i])
    ensures (exists i :: 0 <= i < |items| && DecodeMap(items[i]).Err?) ==> DecodeMultipathd(Obj(ms)).Err?
  {
  }

  /** A repeated "maps" key is an error, as for every field. */
  lemma MultipathdDuplicateMaps(ms: seq<(string, Json)>)
    requires LookupKey(ms, "maps").Duplicated?
    ensures DecodeMultipathd(Obj(ms)).Err?
  {
  }

  /** A member under a key the document does not have is ignored. */
  lemma MultipathdIgnoresUnknownKey(ms: seq<(string, Json)>, key: string, v: Json)
    requires key != "major_version" && key != "minor_version" && key != "maps"
    ensures DecodeMultipathd(Obj(ms + [(key, v)])) == DecodeMultipathd(Obj(ms))
  {
    LookupKeyAppendOther(ms, key, v, "major_version");
    LookupKeyAppendOther(ms, key, v, "minor_version");
    LookupKeyAppendOther(ms, key, v, "maps");
  }

  /** The document as multipathd prints it reads back as the same record,
      provided its map array reads back as its maps. */
  lemma MultipathdRoundTrip(ms: seq<(string, Json)>, d: Multipathd, mapItems: seq<Json>)
    requires |ms| == 3
    requires ms[0] == ("major_version", Num(d.majorVersion))
    requires ms[1] == ("minor_version", Num(d.minorVersion))
    requires ms[2] == ("maps", Arr(mapItems))
    requires DecodeMaps(Arr(mapItems)) == Ok(d.maps)
    ensures DecodeMultipathd(Obj(ms)) == Ok(d)
  {
    assert DistinctKeys(ms);
    Serde.FieldAt(ms, 0, 0, Serde.DecodeU64, d.majorVersion);
    Serde.FieldAt(ms, 1, 0, Serde.DecodeU64, d.minorVersion);
    Serde.FieldAt(ms, 2, [], DecodeMaps, d.maps);
    DecodeMultipathdComplete(ms, d);
  }
}
