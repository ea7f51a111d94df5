/** The Go twin's path record and its custom `UnmarshalJSON`: the generic JSON
    decoder fills the plain fields, and five fields are then set by hand from
    the raw values under their keys. */
module GoPath {
  import opened Wrappers
  import opened Numbers
  import opened Json
  import Deserializers
  import RustPath = Path
  import opened GoDeserializers

  // ---------------------------------------------------------------------------
  // PathChecker

  /** `PathChecker` is a named string type: any checker text is a value of it. */
  type PathChecker = string

  /** The nine named checkers. */
  const PATH_CHECKER_DIRECT_IO: PathChecker := "directio"
  const PATH_CHECKER_TEST_UNIT_READY: PathChecker := "tur"
  const PATH_CHECKER_HP_SERVICE_GUARD: PathChecker := "hp_sw"
  const PATH_CHECKER_RDAC: PathChecker := "rdac"
  const PATH_CHECKER_EMC_CLARIION: PathChecker := "emc_clariion"
  const PATH_CHECKER_READ_SECTOR0: PathChecker := "readsector0"
  const PATH_CHECKER_HP_SMART_ARRAY_TEST_UNIT_READY: PathChecker := "cciss_tur"
  const PATH_CHECKER_NONE: PathChecker := "none"
  const PATH_CHECKER_INVALID: PathChecker := "invalid"

  const PATH_CHECKERS: seq<PathChecker> :=
    [PATH_CHECKER_DIRECT_IO, PATH_CHECKER_TEST_UNIT_READY, PATH_CHECKER_HP_SERVICE_GUARD,
     PATH_CHECKER_RDAC, PATH_CHECKER_EMC_CLARIION, PATH_CHECKER_READ_SECTOR0,
     PATH_CHECKER_HP_SMART_ARRAY_TEST_UNIT_READY, PATH_CHECKER_NONE, PATH_CHECKER_INVALID]

  /** The named checkers are the Rust enum's variants, under the same tokens
      and in the same order. */
  lemma CheckersMatchRust()
    ensures |PATH_CHECKERS| == |RustPath.PATH_CHECKER_VARIANTS|
    ensures forall i :: 0 <= i < |PATH_CHECKERS| ==> PATH_CHECKERS[i] == RustPath.PATH_CHECKER_VARIANTS[i].Token()
  {
  }

  /** A checker the Rust decoder does not know becomes its catch-all `Invalid`,
      while the Go string keeps the text. */
  lemma UnknownCheckerTwins(t: string)
    requires forall i :: 0 <= i < |PATH_CHECKERS| ==> PATH_CHECKERS[i] != t
    ensures RustPath.DecodePathChecker(Str(t)) == Ok(RustPath.PathChecker.Invalid)
  {
    CheckersMatchRust();
    forall v: RustPath.PathChecker ensures v.Token() != t {
      RustPath.PathCheckerTable();
      assert v in RustPath.PATH_CHECKER_VARIANTS;
      var i :| 0 <= i < |RustPath.PATH_CHECKER_VARIANTS| && RustPath.PATH_CHECKER_VARIANTS[i] == v;
      assert PATH_CHECKERS[i] == v.Token();
    }
    RustPath.PathCheckerCatchAll(t);
  }

  // ---------------------------------------------------------------------------
  // parseOptionalString

  /** `parseOptionalString`: the text of a raw JSON string, except that the
      sentinel "[undef]" and the empty string mean "no value"; `nil` and every
      value of another type mean "no value" too. */
  function ParseOptionalString(v: Json): (r: Option<string>)
    ensures r.Some? <==> v.Str? && v.s != Deserializers.UNDEF_SENTINEL && v.s != ""
    ensures r.Some? ==> r.value == v.s
  {
    if v.Null? then None
    else
      match v
      case Str(s) => if s == Deserializers.UNDEF_SENTINEL || s == "" then None else Some(s)
      case _ => None
  }

  /** The two implementations agree on every string but the empty one, which
      Rust keeps and Go drops. */
  lemma OptionalStringTwins(s: string)
    ensures s != "" ==> Deserializers.DecodeOptionalString(Str(s)) == Ok(ParseOptionalString(Str(s)))
    ensures Deserializers.DecodeOptionalString(Str("")) == Ok(Some(""))
    ensures ParseOptionalString(Str("")) == None
  {
    if s != Deserializers.UNDEF_SENTINEL {
      Deserializers.OptionalStringKeeps(s);
    }
    Deserializers.OptionalStringKeeps("");
  }

  /** Where the Rust field decoder fails the whole document, Go reads nothing. */
  lemma OptionalStringNonString(v: Json)
    requires !v.Str?
    ensures Deserializers.DecodeOptionalString(v).Err?
    ensures ParseOptionalString(v) == None
  {
  }

  // ---------------------------------------------------------------------------
  // Path.UnmarshalJSON

  /** The fields of `Path` that the generic decoder fills through the embedded
      `*Alias`: all but the five that the outer `aux` fields shadow. */
  datatype Alias = Alias(
    deviceName: string,            // "dev"
    deviceMajorMinor: string,      // "dev_t"
    deviceMapperState: string,     // "dm_st"
    deviceState: string,           // "dev_st"
    checker: PathChecker,          // "checker"
    checkerState: string,          // "chk_st"
    priority: U64,                 // "pri"
    targetWwnn: string,            // "target_wwnn"
    marginalState: string)         // "marginal_st"

  /** What the inner `json.Unmarshal(data, &aux)` leaves behind: the receiver's
      plain fields as it wrote them, the raw `interface{}` values under the five
      shadowed keys (`Null` when the key is absent or `null`), and its error. */
  datatype Unmarshalled = Unmarshalled(
    alias: Alias,
    hostWwnn: Json,                // "host_wwnn"
    hostWwpn: Json,                // "host_wwpn"
    targetWwpn: Json,              // "target_wwpn"
    hostAdapter: Json,             // "host_adapter"
    lunHex: Json,                  // "lun_hex"
    err: Option<string>)

  /** The logical unit a raw "lun_hex" value sets, if it sets one: only a
      JSON string is read, and then `parseHexString` decides. */
  function LunOf(raw: Json, current: Option<U64>): (r: Option<U64>)
    ensures raw.Str? ==> r == ParseHexString(raw.s)
    ensures !raw.Str? ==> r == current
  {
    if raw.Null? then current
    else
      match raw
      case Str(hexStr) => ParseHexString(hexStr)
      case _ => current
  }

  /** A path. The nine plain fields are held as the one `Alias` record the
      generic decoder writes through; the five fields it cannot decode are
      set one by one. */
  class Path {
    var plain: Alias
    var hostWwnn: Option<string>
    var hostWwpn: Option<string>
    var targetWwpn: Option<string>
    var hostAdapter: Option<string>
    var lun: Option<U64>

    /** The zero value a decoder starts from: empty strings, zero, `nil`. */
    constructor ()
      ensures plain == Alias("", "", "", "", "", "", 0, "", "")
      ensures hostWwnn == None && hostWwpn == None && targetWwpn == None && hostAdapter == None
      ensures lun == None
    {
      plain := Alias("", "", "", "", "", "", 0, "", "");
      hostWwnn, hostWwpn, targetWwpn, hostAdapter := None, None, None, None;
      lun := None;
    }

    /** `UnmarshalJSON`: the inner decode writes the plain fields in any case;
        on its error the five shadowed fields are left alone and the error is
        returned; otherwise the four optional strings are read with
        `parseOptionalString`, and "lun_hex" with `parseHexString` when it is
        a string (left alone when it is not). A JSON `null` input, on which the
        inner decode leaves `aux` nil, is not modelled. */
    method UnmarshalJSON(inner: Unmarshalled) returns (err: Option<string>)
      modifies this
      ensures err == inner.err
      ensures plain == inner.alias
      ensures inner.err.Some? ==>
        hostWwnn == old(hostWwnn) && hostWwpn == old(hostWwpn) && targetWwpn == old(targetWwpn) &&
        hostAdapter == old(hostAdapter) && lun == old(lun)
      ensures inner.err.None? ==>
        hostWwnn == ParseOptionalString(inner.hostWwnn) && hostWwpn == ParseOptionalString(inner.hostWwpn) &&
        targetWwpn == ParseOptionalString(inner.targetWwpn) && hostAdapter == ParseOptionalString(inner.hostAdapter)
      ensures inner.err.None? ==> lun == LunOf(inner.lunHex, old(lun))
    {
      plain := inner.alias;
      if inner.err.Some? {
        return inner.err;
      }
      hostWwnn := ParseOptionalString(inner.hostWwnn);
      hostWwpn := ParseOptionalString(inner.hostWwpn);
      targetWwpn := ParseOptionalString(inner.targetWwpn);
      hostAdapter := ParseOptionalString(inner.hostAdapter);
      if !inner.lunHex.Null? {
        if inner.lunHex.Str? {
          lun := ParseHexString(inner.lunHex.s);
        }
      }
      return None;
    }
  }

  /** How `json.Unmarshal` decodes each element of a "paths" array: a zero
      `Path`, then its `UnmarshalJSON`. An absent or non-string "lun_hex" leaves
      the unit `nil`, and any checker text is kept as it is. */
  method DecodeFreshPath(inner: Unmarshalled) returns (p: Path, err: Option<string>)
    ensures fresh(p)
    ensures err == inner.err
    ensures p.plain == inner.alias
    ensures !inner.lunHex.Str? ==> p.lun == None
    ensures inner.err.None? && inner.lunHex.Str? ==> p.lun == ParseHexString(inner.lunHex.s)
    ensures inner.err.None? ==> p.hostWwnn == ParseOptionalString(inner.hostWwnn)
  {
    p := new Path();
    err := p.UnmarshalJSON(inner);
  }
}
