/** One path of a path group: the checker enums and the `Path` record. */
module Path {
  import opened Wrappers
  import opened Numbers
  import opened Json
  import Serde
  import opened Common
  import opened Deserializers

  // ---------------------------------------------------------------------------
  // PathChecker

  /** The checker multipathd runs on a path. `Invalid` is the `#[serde(other)]`
      catch-all and the default. */
  datatype PathChecker =
    | DirectIO | TestUnitReady | HpServiceGuard | RDAC | EmcClariion | ReadSector0
    | HpSmartArrayTestUnitReady | None | Invalid
  {
    /** The wire token. `Invalid` has none of its own renames, so lower-casing
        gives it "invalid"; that tag and every unknown one decode to it. */
    function Token(): string
    {
      match this
      case DirectIO => "directio"
      case TestUnitReady => "tur"
      case HpServiceGuard => "hp_sw"
      case RDAC => "rdac"
      case EmcClariion => "emc_clariion"
      case ReadSector0 => "readsector0"
      case HpSmartArrayTestUnitReady => "cciss_tur"
      case None => "none"
      case Invalid => "invalid"
    }
  }

  const PATH_CHECKER_VARIANTS: seq<PathChecker> :=
    [PathChecker.DirectIO, PathChecker.TestUnitReady, PathChecker.HpServiceGuard, PathChecker.RDAC,
     PathChecker.EmcClariion, PathChecker.ReadSector0, PathChecker.HpSmartArrayTestUnitReady,
     PathChecker.None, PathChecker.Invalid]

  const PATH_CHECKER_DEFAULT := PathChecker.Invalid

  /** Every variant is listed, under a token of its own. */
  lemma PathCheckerTable()
    ensures forall v: PathChecker :: v in PATH_CHECKER_VARIANTS
    ensures forall a: PathChecker, b: PathChecker :: a.Token() == b.Token() ==> a == b
  {
    forall v: PathChecker ensures v in PATH_CHECKER_VARIANTS {
      var i := match v
        case DirectIO => 0 case TestUnitReady => 1 case HpServiceGuard => 2 case RDAC => 3
        case EmcClariion => 4 case ReadSector0 => 5 case HpSmartArrayTestUnitReady => 6
        case None => 7 case Invalid => 8;
      assert PATH_CHECKER_VARIANTS[i] == v;
    }
  }

  /** Any tag is accepted, bare or as `{tag: null}`: a known token gives its
      variant, every other tag gives `Invalid`. */
  function DecodePathChecker(j: Json): (r: Result<PathChecker>)
    ensures r.Ok? <==> j.Str? || (j.Obj? && |j.members| == 1 && j.members[0].1.Null?)
    ensures forall v: PathChecker ::
      j == Str(v.Token()) || j == Obj([(v.Token(), Null)]) ==> r == Ok(v)
    ensures r.Ok? && r.value != PathChecker.Invalid ==>
      j == Str(r.value.Token()) || j == Obj([(r.value.Token(), Null)])
  {
    var shape :- Serde.EnumShapeOf(j);
    var token := (v: PathChecker) => v.Token();
    PathCheckerTable();
    Serde.TableOfDecodes(PATH_CHECKER_VARIANTS, token, Some(PathChecker.Invalid));
    Serde.UnitVariant(Serde.TableOf(PATH_CHECKER_VARIANTS, token), Some(PathChecker.Invalid), shape)
  }

  /** A checker name multipathd has and the model does not, say "emc", is `Invalid`
      rather than an error. */
  lemma PathCheckerCatchAll(t: string)
    requires forall v: PathChecker :: v.Token() != t
    ensures DecodePathChecker(Str(t)) == Ok(PathChecker.Invalid)
  {
  }

  // ---------------------------------------------------------------------------
  // PathCheckerState

  /** The last result of the path checker. */
  datatype PathCheckerState =
    | Ready | Faulty | Shaky | Ghost | Delayed | IoPending | IoTimeout | Undefined
  {
    /** The wire token. */
    function Token(): string
    {
      match this
      case Ready => "ready"
      case Faulty => "faulty"
      case Shaky => "shaky"
      case Ghost => "ghost"
      case Delayed => "delayed"
      case IoPending => "i/o pending"
      case IoTimeout => "i/o timeout"
      case Undefined => "undef"
    }

    /** The declaration index, which `as i64` publishes. */
    function Ordinal(): nat
    {
      match this
      case Ready => 0
      case Faulty => 1
      case Shaky => 2
      case Ghost => 3
      case Delayed => 4
      case IoPending => 5
      case IoTimeout => 6
      case Undefined => 7
    }

    /** The `Display` text: the variant name. */
    function Name(): string
    {
      match this
      case Ready => "Ready"
      case Faulty => "Faulty"
      case Shaky => "Shaky"
      case Ghost => "Ghost"
      case Delayed => "Delayed"
      case IoPending => "IoPending"
      case IoTimeout => "IoTimeout"
      case Undefined => "Undefined"
    }
  }

  /** Declaration order, as `EnumIter` yields it. */
  const PATH_CHECKER_STATE_VARIANTS: seq<PathCheckerState> :=
    [PathCheckerState.Ready, PathCheckerState.Faulty, PathCheckerState.Shaky, PathCheckerState.Ghost,
     PathCheckerState.Delayed, PathCheckerState.IoPending, PathCheckerState.IoTimeout,
     PathCheckerState.Undefined]

  const PATH_CHECKER_STATE_DEFAULT := PathCheckerState.Undefined

  /** The ordinal of every variant is its index in declaration order. */
  lemma PathCheckerStateOrder()
    ensures |PATH_CHECKER_STATE_VARIANTS| == 8
    ensures forall v: PathCheckerState :: v in PATH_CHECKER_STATE_VARIANTS
    ensures forall i :: 0 <= i < |PATH_CHECKER_STATE_VARIANTS| ==> PATH_CHECKER_STATE_VARIANTS[i].Ordinal() == i
    ensures forall v: PathCheckerState ::
      v.Ordinal() < |PATH_CHECKER_STATE_VARIANTS| && PATH_CHECKER_STATE_VARIANTS[v.Ordinal()] == v
  {
    forall v: PathCheckerState ensures v in PATH_CHECKER_STATE_VARIANTS {
      assert PATH_CHECKER_STATE_VARIANTS[v.Ordinal()] == v;
    }
  }

  /** No two variants share a wire token. */
  lemma PathCheckerStateTokensDistinct()
    ensures forall a: PathCheckerState, b: PathCheckerState :: a.Token() == b.Token() ==> a == b
  {
  }

  /** The decoder accepts exactly the eight tokens (bare or as `{token: null}`). */
  function DecodePathCheckerState(j: Json): (r: Result<PathCheckerState>)
    ensures r.Ok? ==> j == Str(r.value.Token()) || j == Obj([(r.value.Token(), Null)])
    ensures forall v: PathCheckerState ::
      j == Str(v.Token()) || j == Obj([(v.Token(), Null)]) ==> r == Ok(v)
  {
    var shape :- Serde.EnumShapeOf(j);
    var token := (v: PathCheckerState) => v.Token();
    PathCheckerStateOrder();
    PathCheckerStateTokensDistinct();
    Serde.TableOfDecodes(PATH_CHECKER_STATE_VARIANTS, token, Option.None);
    Serde.UnitVariant(Serde.TableOf(PATH_CHECKER_STATE_VARIANTS, token), Option.None, shape)
  }

  // ---------------------------------------------------------------------------
  // Path

  /** A path, with its wire keys noted beside each field. */
  datatype Path = Path(
    deviceName: string,                   // "dev"
    deviceMajorMinor: string,             // "dev_t"
    deviceMapperState: PathDeviceMapperState,  // "dm_st"
    deviceState: DeviceState,             // "dev_st"
    checker: PathChecker,                 // "checker"
    checkerState: PathCheckerState,       // "chk_st"
    priority: U64,                        // "pri"
    hostWwnn: Option<string>,             // "host_wwnn", "[undef]" is absent
    targetWwnn: string,                   // "target_wwnn", kept verbatim
    hostWwpn: Option<string>,             // "host_wwpn", "[undef]" is absent
    targetWwpn: Option<string>,           // "target_wwpn", "[undef]" is absent
    hostAdapter: Option<string>,          // "host_adapter", "[undef]" is absent
    logicalUnitNumber: Option<U64>,       // "lun_hex", hexadecimal
    marginalPathState: MarginalState      // "marginal_st"
  )

  /** `Path::default()`: every field at its type's default. */
  const DEFAULT_PATH := Path("", "", PATH_DM_DEFAULT, DEVICE_STATE_DEFAULT, PATH_CHECKER_DEFAULT,
    PATH_CHECKER_STATE_DEFAULT, 0, Option.None, "", Option.None, Option.None, Option.None,
    Option.None, MARGINAL_STATE_DEFAULT)

  /** A `#[serde(default)]` path: each known key, if present once, decoded by its
      field's decoder; each absent key at the field's default; unknown keys ignored. */
  function DecodePath(j: Json): (r: Result<Path>)
    ensures r.Ok? ==> j.Obj?
    ensures r.Ok? ==> PathFieldsHold(j.members, r.value)
  {
    match j
    case Obj(ms) =>
      var deviceName := Serde.Field(ms, "dev", "", Serde.DecodeString);
      var deviceMajorMinor := Serde.Field(ms, "dev_t", "", Serde.DecodeString);
      var deviceMapperState := Serde.Field(ms, "dm_st", PATH_DM_DEFAULT, DecodePathDeviceMapperState);
      var deviceState := Serde.Field(ms, "dev_st", DEVICE_STATE_DEFAULT, DecodeDeviceState);
      var checker := Serde.Field(ms, "checker", PATH_CHECKER_DEFAULT, DecodePathChecker);
      var checkerState := Serde.Field(ms, "chk_st", PATH_CHECKER_STATE_DEFAULT, DecodePathCheckerState);
      var priority := Serde.Field(ms, "pri", 0, Serde.DecodeU64);
      var hostWwnn := Serde.Field(ms, "host_wwnn", Option.None, DecodeOptionalString);
      var targetWwnn := Serde.Field(ms, "target_wwnn", "", Serde.DecodeString);
      var hostWwpn := Serde.Field(ms, "host_wwpn", Option.None, DecodeOptionalString);
      var targetWwpn := Serde.Field(ms, "target_wwpn", Option.None, DecodeOptionalString);
      var hostAdapter := Serde.Field(ms, "host_adapter", Option.None, DecodeOptionalString);
      var logicalUnitNumber := Serde.Field(ms, "lun_hex", Option.None, DecodeHexString);
      var marginalPathState := Serde.Field(ms, "marginal_st", MARGINAL_STATE_DEFAULT, DecodeMarginalState);
      if deviceName.Ok? && deviceMajorMinor.Ok? && deviceMapperState.Ok? && deviceState.Ok? &&
        checker.Ok? && checkerState.Ok? && priority.Ok? && hostWwnn.Ok? && targetWwnn.Ok? &&
        hostWwpn.Ok? && targetWwpn.Ok? && hostAdapter.Ok? && logicalUnitNumber.Ok? &&
        marginalPathState.Ok? then
        Ok(Path(deviceName.value, deviceMajorMinor.value, deviceMapperState.value, deviceState.value,
          checker.value, checkerState.value, priority.value, hostWwnn.value, targetWwnn.value,
          hostWwpn.value, targetWwpn.value, hostAdapter.value, logicalUnitNumber.value,
          marginalPathState.value))
      else Err("invalid value for struct Path")
    case _ => Err("invalid type: expected struct Path")
  }

  /** Every field of `p` is what its key in `ms` gives, or the field's default
      when the key is absent. */
  ghost predicate PathFieldsHold(ms: seq<(string, Json)>, p: Path)
  {
    Serde.FieldHolds(ms, "dev", "", Serde.DecodeString, p.deviceName) &&
    Serde.FieldHolds(ms, "dev_t", "", Serde.DecodeString, p.deviceMajorMinor) &&
    Serde.FieldHolds(ms, "dm_st", PATH_DM_DEFAULT, DecodePathDeviceMapperState, p.deviceMapperState) &&
    Serde.FieldHolds(ms, "dev_st", DEVICE_STATE_DEFAULT, DecodeDeviceState, p.deviceState) &&
    Serde.FieldHolds(ms, "checker", PATH_CHECKER_DEFAULT, DecodePathChecker, p.checker) &&
    Serde.FieldHolds(ms, "chk_st", PATH_CHECKER_STATE_DEFAULT, DecodePathCheckerState, p.checkerState) &&
    Serde.FieldHolds(ms, "pri", 0, Serde.DecodeU64, p.priority) &&
    Serde.FieldHolds(ms, "host_wwnn", Option.None, DecodeOptionalString, p.hostWwnn) &&
    Serde.FieldHolds(ms, "target_wwnn", "", Serde.DecodeString, p.targetWwnn) &&
    Serde.FieldHolds(ms, "host_wwpn", Option.None, DecodeOptionalString, p.hostWwpn) &&
    Serde.FieldHolds(ms, "target_wwpn", Option.None, DecodeOptionalString, p.targetWwpn) &&
    Serde.FieldHolds(ms, "host_adapter", Option.None, DecodeOptionalString, p.hostAdapter) &&
    Serde.FieldHolds(ms, "lun_hex", Option.None, DecodeHexString, p.logicalUnitNumber) &&
    Serde.FieldHolds(ms, "marginal_st", MARGINAL_STATE_DEFAULT, DecodeMarginalState, p.marginalPathState)
  }

  /** The converse of `DecodePath`'s contract: when every field holds of `p`, the
      object decodes to `p`. */
  lemma DecodePathComplete(ms: seq<(string, Json)>, p: Path)
    requires PathFieldsHold(ms, p)
    ensures DecodePath(Obj(ms)) == Ok(p)
  {
    Serde.FieldOf(ms, "dev", "", Serde.DecodeString, p.deviceName);
    Serde.FieldOf(ms, "dev_t", "", Serde.DecodeString, p.deviceMajorMinor);
    Serde.FieldOf(ms, "dm_st", PATH_DM_DEFAULT, DecodePathDeviceMapperState, p.deviceMapperState);
    Serde.FieldOf(ms, "dev_st", DEVICE_STATE_DEFAULT, DecodeDeviceState, p.deviceState);
    Serde.FieldOf(ms, "checker", PATH_CHECKER_DEFAULT, DecodePathChecker, p.checker);
    Serde.FieldOf(ms, "chk_st", PATH_CHECKER_STATE_DEFAULT, DecodePathCheckerState, p.checkerState);
    Serde.FieldOf(ms, "pri", 0, Serde.DecodeU64, p.priority);
    Serde.FieldOf(ms, "host_wwnn", Option.None, DecodeOptionalString, p.hostWwnn);
    Serde.FieldOf(ms, "target_wwnn", "", Serde.DecodeString, p.targetWwnn);
    Serde.FieldOf(ms, "host_wwpn", Option.None, DecodeOptionalString, p.hostWwpn);
    Serde.FieldOf(ms, "target_wwpn", Option.None, DecodeOptionalString, p.targetWwpn);
    Serde.FieldOf(ms, "host_adapter", Option.None, DecodeOptionalString, p.hostAdapter);
    Serde.FieldOf(ms, "lun_hex", Option.None, DecodeHexString, p.logicalUnitNumber);
    Serde.FieldOf(ms, "marginal_st", MARGINAL_STATE_DEFAULT, DecodeMarginalState, p.marginalPathState);
  }

  /** An empty object is the default path. */
  lemma PathDefaults()
    ensures DecodePath(Obj([])) == Ok(DEFAULT_PATH)
  {
  }

  /** "target_wwnn" is a plain string: the "[undef]" sentinel, like any other
      text, is kept as it is. */
  lemma PathTargetWwnnVerbatim(ms: seq<(string, Json)>, t: string)
    requires LookupKey(ms, "target_wwnn") == Present(Str(t))
    requires DecodePath(Obj(ms)).Ok?
    ensures DecodePath(Obj(ms)).value.targetWwnn == t
  {
  }

  /** The four optional identifiers map the "[undef]" sentinel to `None`. */
  lemma PathOptionalSentinels(ms: seq<(string, Json)>)
    requires DecodePath(Obj(ms)).Ok?
    ensures var p := DecodePath(Obj(ms)).value;
      (LookupKey(ms, "host_wwnn") == Present(Str(UNDEF_SENTINEL)) ==> p.hostWwnn == Option.None) &&
      (LookupKey(ms, "host_wwpn") == Present(Str(UNDEF_SENTINEL)) ==> p.hostWwpn == Option.None) &&
      (LookupKey(ms, "target_wwpn") == Present(Str(UNDEF_SENTINEL)) ==> p.targetWwpn == Option.None) &&
      (LookupKey(ms, "host_adapter") == Present(Str(UNDEF_SENTINEL)) ==> p.hostAdapter == Option.None)
  {
  }

  /** An absent "lun_hex" gives no logical unit number; a present one gives
      `Some` of its value, or the whole path fails to decode. */
  lemma PathLogicalUnitNumber(ms: seq<(string, Json)>)
    ensures DecodePath(Obj(ms)).Ok? && LookupKey(ms, "lun_hex").Absent? ==>
      DecodePath(Obj(ms)).value.logicalUnitNumber == Option.None
    ensures DecodePath(Obj(ms)).Ok? && LookupKey(ms, "lun_hex").Present? ==>
      DecodePath(Obj(ms)).value.logicalUnitNumber.Some?
    ensures LookupKey(ms, "lun_hex").Present? && DecodeHexString(LookupKey(ms, "lun_hex").value).Err? ==>
      DecodePath(Obj(ms)).Err?
  {
  }

  /** Whether `p` can be written in multipathd's JSON: an optional identifier
      that holds the "[undef]" text itself would read back as absent. */
  predicate Printable(p: Path)
  {
    p.hostWwnn != Some(UNDEF_SENTINEL) && p.hostWwpn != Some(UNDEF_SENTINEL) &&
    p.targetWwpn != Some(UNDEF_SENTINEL) && p.hostAdapter != Some(UNDEF_SENTINEL)
  }

  /** How multipathd prints an optional identifier: "[undef]" for no value. */
  function OptionalText(o: Option<string>): string
  {
    if o.Some? then o.value else UNDEF_SENTINEL
  }

  /** The members of a path object as multipathd prints them, in its order.
      "lun_hex" is written as `lunText` when the path has a logical unit number
      and left out when it has none. */
  function PathMembers(p: Path, lunText: string): seq<(string, Json)>
  {
    [("dev", Str(p.deviceName)),
     ("dev_t", Str(p.deviceMajorMinor)),
     ("dm_st", Str(p.deviceMapperState.Token())),
     ("dev_st", Str(p.deviceState.Token())),
     ("chk_st", Str(p.checkerState.Token())),
     ("checker", Str(p.checker.Token())),
     ("pri", Num(p.priority)),
     ("host_wwnn", Str(OptionalText(p.hostWwnn))),
     ("target_wwnn", Str(p.targetWwnn)),
     ("host_wwpn", Str(OptionalText(p.hostWwpn))),
     ("target_wwpn", Str(OptionalText(p.targetWwpn))),
     ("host_adapter", Str(OptionalText(p.hostAdapter)))] +
    (if p.logicalUnitNumber.Some? then [("lun_hex", Str(lunText))] else []) +
    [("marginal_st", Str(p.marginalPathState.Token()))]
  }

  /** Every key of a printed path occurs once. */
  lemma PathMembersDistinct(p: Path, lunText: string)
    ensures DistinctKeys(PathMembers(p, lunText))
  {
  }

  /** What each key of a printed path holds: the device, its state and its checker. */
  lemma PathMembersLookupDevice(p: Path, lunText: string)
    ensures var ms := PathMembers(p, lunText);
      LookupKey(ms, "dev") == Present(Str(p.deviceName)) &&
      LookupKey(ms, "dev_t") == Present(Str(p.deviceMajorMinor)) &&
      LookupKey(ms, "dm_st") == Present(Str(p.deviceMapperState.Token())) &&
      LookupKey(ms, "dev_st") == Present(Str(p.deviceState.Token())) &&
      LookupKey(ms, "chk_st") == Present(Str(p.checkerState.Token()))
  {
    var ms := PathMembers(p, lunText);
    PathMembersDistinct(p, lunText);
    DistinctKeysLookup(ms, 0);
    DistinctKeysLookup(ms, 1);
    DistinctKeysLookup(ms, 2);
    DistinctKeysLookup(ms, 3);
    DistinctKeysLookup(ms, 4);
  }

  /** What each key of a printed path holds: the checker, the priority and the names. */
  lemma PathMembersLookupNames(p: Path, lunText: string)
    ensures var ms := PathMembers(p, lunText);
      LookupKey(ms, "checker") == Present(Str(p.checker.Token())) &&
      LookupKey(ms, "pri") == Present(Num(p.priority)) &&
      LookupKey(ms, "host_wwnn") == Present(Str(OptionalText(p.hostWwnn))) &&
      LookupKey(ms, "target_wwnn") == Present(Str(p.targetWwnn)) &&
      LookupKey(ms, "host_wwpn") == Present(Str(OptionalText(p.hostWwpn)))
  {
    var ms := PathMembers(p, lunText);
    PathMembersDistinct(p, lunText);
    DistinctKeysLookup(ms, 5);
    DistinctKeysLookup(ms, 6);
    DistinctKeysLookup(ms, 7);
    DistinctKeysLookup(ms, 8);
    DistinctKeysLookup(ms, 9);
  }

  /** What each key of a printed path holds: the remaining identifiers, the
      logical unit number and the marginal state. */
  lemma PathMembersLookupRest(p: Path, lunText: string)
    ensures var ms := PathMembers(p, lunText);
      LookupKey(ms, "target_wwpn") == Present(Str(OptionalText(p.targetWwpn))) &&
      LookupKey(ms, "host_adapter") == Present(Str(OptionalText(p.hostAdapter))) &&
      (p.logicalUnitNumber.Some? ==> LookupKey(ms, "lun_hex") == Present(Str(lunText))) &&
      (p.logicalUnitNumber.None? ==> LookupKey(ms, "lun_hex") == Absent) &&
      LookupKey(ms, "marginal_st") == Present(Str(p.marginalPathState.Token()))
  {
    var ms := PathMembers(p, lunText);
    PathMembersDistinct(p, lunText);
    DistinctKeysLookup(ms, 10);
    DistinctKeysLookup(ms, 11);
    DistinctKeysLookup(ms, |ms| - 1);
    if p.logicalUnitNumber.Some? {
      DistinctKeysLookup(ms, 12);
    }
  }

  /** A printed path reads back as the same record, provided its logical unit
      number is written as text that decodes to it. */
  lemma PathRoundTrip(p: Path, lunText: string)
    requires Printable(p)
    requires p.logicalUnitNumber.Some? ==> DecodeHexString(Str(lunText)) == Ok(p.logicalUnitNumber)
    ensures DecodePath(Obj(PathMembers(p, lunText))) == Ok(p)
  {
    PathDeviceFieldsHold(p, lunText);
    PathNameFieldsHold(p, lunText);
    PathRestFieldsHold(p, lunText);
    DecodePathComplete(PathMembers(p, lunText), p);
  }

  lemma PathDeviceFieldsHold(p: Path, lunText: string)
    ensures var ms := PathMembers(p, lunText);
      Serde.FieldHolds(ms, "dev", "", Serde.DecodeString, p.deviceName) &&
      Serde.FieldHolds(ms, "dev_t", "", Serde.DecodeString, p.deviceMajorMinor) &&
      Serde.FieldHolds(ms, "dm_st", PATH_DM_DEFAULT, DecodePathDeviceMapperState, p.deviceMapperState) &&
      Serde.FieldHolds(ms, "dev_st", DEVICE_STATE_DEFAULT, DecodeDeviceState, p.deviceState) &&
      Serde.FieldHolds(ms, "chk_st", PATH_CHECKER_STATE_DEFAULT, DecodePathCheckerState, p.checkerState)
  {
    PathMembersLookupDevice(p, lunText);
  }

  lemma PathNameFieldsHold(p: Path, lunText: string)
    requires Printable(p)
    ensures var ms := PathMembers(p, lunText);
      Serde.FieldHolds(ms, "checker", PATH_CHECKER_DEFAULT, DecodePathChecker, p.checker) &&
      Serde.FieldHolds(ms, "pri", 0, Serde.DecodeU64, p.priority) &&
      Serde.FieldHolds(ms, "host_wwnn", Option.None, DecodeOptionalString, p.hostWwnn) &&
      Serde.FieldHolds(ms, "target_wwnn", "", Serde.DecodeString, p.targetWwnn) &&
      Serde.FieldHolds(ms, "host_wwpn", Option.None, DecodeOptionalString, p.hostWwpn)
  {
    PathMembersLookupNames(p, lunText);
    assert DecodeOptionalString(Str(OptionalText(p.hostWwnn))) == Ok(p.hostWwnn);
    assert DecodeOptionalString(Str(OptionalText(p.hostWwpn))) == Ok(p.hostWwpn);
  }

  lemma PathRestFieldsHold(p: Path, lunText: string)
    requires Printable(p)
    requires p.logicalUnitNumber.Some? ==> DecodeHexString(Str(lunText)) == Ok(p.logicalUnitNumber)
    ensures var ms := PathMembers(p, lunText);
      Serde.FieldHolds(ms, "target_wwpn", Option.None, DecodeOptionalString, p.targetWwpn) &&
      Serde.FieldHolds(ms, "host_adapter", Option.None, DecodeOptionalString, p.hostAdapter) &&
      Serde.FieldHolds(ms, "lun_hex", Option.None, DecodeHexString, p.logicalUnitNumber) &&
      Serde.FieldHolds(ms, "marginal_st", MARGINAL_STATE_DEFAULT, DecodeMarginalState, p.marginalPathState)
  {
    PathMembersLookupRest(p, lunText);
    assert DecodeOptionalString(Str(OptionalText(p.targetWwpn))) == Ok(p.targetWwpn);
    assert DecodeOptionalString(Str(OptionalText(p.hostAdapter))) == Ok(p.hostAdapter);
  }

  /** The iSCSI path of the crate's first test case. */
  const ISCSI_PATH := Path(
    "sdag", "66:0", PathDeviceMapperState.Active, DeviceState.Running, PathChecker.TestUnitReady,
    PathCheckerState.Ready, 50, Option.None,
    "iqn.2010-06.com.purestorage:flasharray.1007a309fb52d942", Option.None, Option.None,
    Some("192.168.131.31"), Some(0x000e000000000000), MarginalState.Normal)

  lemma IscsiPathExample(ms: seq<(string, Json)>)
    requires ms == [
      ("dev", Str("sdag")),
      ("dev_t", Str("66:0")),
      ("dm_st", Str("active")),
      ("dev_st", Str("running")),
      ("chk_st", Str("ready")),
      ("checker", Str("tur")),
      ("pri", Num(50)),
      ("host_wwnn", Str("[undef]")),
      ("target_wwnn", Str("iqn.2010-06.com.purestorage:flasharray.1007a309fb52d942")),
      ("host_wwpn", Str("[undef]")),
      ("target_wwpn", Str("[undef]")),
      ("host_adapter", Str("192.168.131.31")),
      ("lun_hex", Str("0x000e000000000000")),
      ("marginal_st", Str("normal"))]
    ensures DecodePath(Obj(ms)) == Ok(ISCSI_PATH)
  {
    assert ms == PathMembers(ISCSI_PATH, "0x000e000000000000");
    LunHexExample();
    PathRoundTrip(ISCSI_PATH, "0x000e000000000000");
  }

  /** The Fibre Channel path of the crate's second test case: no "lun_hex", so no
      logical unit number. */
  const FC_PATH := Path(
    "sdcx", "70:80", PathDeviceMapperState.Active, DeviceState.Running, PathChecker.TestUnitReady,
    PathCheckerState.Ready, 50, Some("0x20000090fa678144"), "0x524a937247e74300",
    Some("0x10000090fa678144"), Some("0x524a937247e74300"), Some("0000:00:03.0"), Option.None,
    MarginalState.Normal)

  lemma FcPathExample(ms: seq<(string, Json)>)
    requires ms == [
      ("dev", Str("sdcx")),
      ("dev_t", Str("70:80")),
      ("dm_st", Str("active")),
      ("dev_st", Str("running")),
      ("chk_st", Str("ready")),
      ("checker", Str("tur")),
      ("pri", Num(50)),
      ("host_wwnn", Str("0x20000090fa678144")),
      ("target_wwnn", Str("0x524a937247e74300")),
      ("host_wwpn", Str("0x10000090fa678144")),
      ("target_wwpn", Str("0x524a937247e74300")),
      ("host_adapter", Str("0000:00:03.0")),
      ("marginal_st", Str("normal"))]
    ensures DecodePath(Obj(ms)) == Ok(FC_PATH)
  {
    assert ms == PathMembers(FC_PATH, "");
    PathRoundTrip(FC_PATH, "");
  }

  /** The logical unit number of the iSCSI path. */
  lemma LunHexExample()
    ensures DecodeHexString(Str("0x000e000000000000")) == Ok(Some(0x000e000000000000))
  {
    LunDigitsValue("000e", "000000000000");
    assert Repeat(HEX_PREFIX, 1) + ("000e" + "000000000000") == "0x000e000000000000";
    HexStringOfDigits(1, "000e" + "000000000000");
  }

  lemma LunDigitsValue(head: string, zeros: string)
    requires head == "000e" && zeros == "000000000000"
    ensures AllDigits(head + zeros, 16) && DigitsValue(head + zeros, 16) == 0x000e000000000000
  {
    LunLeadingDigits();
    ValueFromZeros(14, zeros, 16);
    ValueFromAppend(0, head, zeros, 16);
    assert Pow(16, 12) == 0x1000000000000;
  }

  lemma LunLeadingDigits()
    ensures AllDigits("000e", 16) && ValueFrom(0, "000e", 16) == 14
  {
  }
}
