/** The four state enums shared by maps, path groups and paths. Each is decoded
    from its lower-case wire token (serde `rename_all = "lowercase"` plus the
    explicit renames), has no catch-all, and has a `#[default]` for an absent
    field. The three with `EnumIter`/`Display` also have an ordinal, the
    declaration index that the exporter publishes, and a display name, the Rust
    variant name. */
module Common {
  import opened Wrappers
  import opened Json
  import Serde

  // ---------------------------------------------------------------------------
  // PathGroupDeviceMapperState

  /** The device-mapper state of a path group. */
  datatype PathGroupDeviceMapperState = Active | Enabled | Disabled | Undefined {

    /** The wire token. */
    function Token(): string
    {
      match this
      case Active => "active"
      case Enabled => "enabled"
      case Disabled => "disabled"
      case Undefined => "undef"
    }

    /** The declaration index, which `as i64` publishes. */
    function Ordinal(): nat
    {
      match this
      case Active => 0
      case Enabled => 1
      case Disabled => 2
      case Undefined => 3
    }

    /** The `Display` text: the variant name. */
    function Name(): string
    {
      match this
      case Active => "Active"
      case Enabled => "Enabled"
      case Disabled => "Disabled"
      case Undefined => "Undefined"
    }
  }

  /** Declaration order, as `EnumIter` yields it. */
  const PATH_GROUP_DM_VARIANTS: seq<PathGroupDeviceMapperState> :=
    [PathGroupDeviceMapperState.Active, PathGroupDeviceMapperState.Enabled,
     PathGroupDeviceMapperState.Disabled, PathGroupDeviceMapperState.Undefined]

  const PATH_GROUP_DM_DEFAULT := PathGroupDeviceMapperState.Undefined

  /** The ordinal of every variant is its index in declaration order. */
  lemma PathGroupDeviceMapperStateOrder()
    ensures |PATH_GROUP_DM_VARIANTS| == 4
    ensures forall v: PathGroupDeviceMapperState :: v in PATH_GROUP_DM_VARIANTS
    ensures forall i :: 0 <= i < |PATH_GROUP_DM_VARIANTS| ==> PATH_GROUP_DM_VARIANTS[i].Ordinal() == i
    ensures forall v: PathGroupDeviceMapperState ::
      v.Ordinal() < |PATH_GROUP_DM_VARIANTS| && PATH_GROUP_DM_VARIANTS[v.Ordinal()] == v
  {
    forall v: PathGroupDeviceMapperState ensures v in PATH_GROUP_DM_VARIANTS {
      assert PATH_GROUP_DM_VARIANTS[v.Ordinal()] == v;
    }
  }

  /** No two variants share a wire token. */
  lemma PathGroupDeviceMapperStateTokensDistinct()
    ensures forall a: PathGroupDeviceMapperState, b: PathGroupDeviceMapperState ::
      a.Token() == b.Token() ==> a == b
  {
  }

  /** The decoder accepts exactly the four tokens, as a bare string or as an
      object `{token: null}`; anything else, other capitalisations included, is
      an error. */
  function DecodePathGroupDeviceMapperState(j: Json): (r: Result<PathGroupDeviceMapperState>)
    ensures r.Ok? ==> j == Str(r.value.Token()) || j == Obj([(r.value.Token(), Null)])
    ensures forall v: PathGroupDeviceMapperState ::
      j == Str(v.Token()) || j == Obj([(v.Token(), Null)]) ==> r == Ok(v)
  {
    var shape :- Serde.EnumShapeOf(j);
    var token := (v: PathGroupDeviceMapperState) => v.Token();
    PathGroupDeviceMapperStateOrder();
    PathGroupDeviceMapperStateTokensDistinct();
    Serde.TableOfDecodes(PATH_GROUP_DM_VARIANTS, token, None);
    Serde.UnitVariant(Serde.TableOf(PATH_GROUP_DM_VARIANTS, token), None, shape)
  }

  // ---------------------------------------------------------------------------
  // PathDeviceMapperState

  /** The device-mapper state of a path, and of a whole map. */
  datatype PathDeviceMapperState = Active | Failed | Undefined {

    /** The wire token. */
    function Token(): string
    {
      match this
      case Active => "active"
      case Failed => "failed"
      case Undefined => "undef"
    }

    /** The declaration index, which `as i64` publishes. */
    function Ordinal(): nat
    {
      match this
      case Active => 0
      case Failed => 1
      case Undefined => 2
    }

    /** The `Display` text: the variant name. */
    function Name(): string
    {
      match this
      case Active => "Active"
      case Failed => "Failed"
      case Undefined => "Undefined"
    }
  }

  /** Declaration order, as `EnumIter` yields it. */
  const PATH_DM_VARIANTS: seq<PathDeviceMapperState> :=
    [PathDeviceMapperState.Active, PathDeviceMapperState.Failed, PathDeviceMapperState.Undefined]

  const PATH_DM_DEFAULT := PathDeviceMapperState.Undefined

  /** The ordinal of every variant is its index in declaration order. */
  lemma PathDeviceMapperStateOrder()
    ensures |PATH_DM_VARIANTS| == 3
    ensures forall v: PathDeviceMapperState :: v in PATH_DM_VARIANTS
    ensures forall i :: 0 <= i < |PATH_DM_VARIANTS| ==> PATH_DM_VARIANTS[i].Ordinal() == i
    ensures forall v: PathDeviceMapperState ::
      v.Ordinal() < |PATH_DM_VARIANTS| && PATH_DM_VARIANTS[v.Ordinal()] == v
  {
    forall v: PathDeviceMapperState ensures v in PATH_DM_VARIANTS {
      assert PATH_DM_VARIANTS[v.Ordinal()] == v;
    }
  }

  /** No two variants share a wire token. */
  lemma PathDeviceMapperStateTokensDistinct()
    ensures forall a: PathDeviceMapperState, b: PathDeviceMapperState ::
      a.Token() == b.Token() ==> a == b
  {
  }

  /** The decoder accepts exactly "active", "failed" and "undef" (bare or as
      `{token: null}`); "enabled", which only path groups have, is an error. */
  function DecodePathDeviceMapperState(j: Json): (r: Result<PathDeviceMapperState>)
    ensures r.Ok? ==> j == Str(r.value.Token()) || j == Obj([(r.value.Token(), Null)])
    ensures forall v: PathDeviceMapperState ::
      j == Str(v.Token()) || j == Obj([(v.Token(), Null)]) ==> r == Ok(v)
  {
    var shape :- Serde.EnumShapeOf(j);
    var token := (v: PathDeviceMapperState) => v.Token();
    PathDeviceMapperStateOrder();
    PathDeviceMapperStateTokensDistinct();
    Serde.TableOfDecodes(PATH_DM_VARIANTS, token, None);
    Serde.UnitVariant(Serde.TableOf(PATH_DM_VARIANTS, token), None, shape)
  }

  // ---------------------------------------------------------------------------
  // DeviceState

  /** The state of the block device beneath a path. `Unknown` carries no rename,
      so lower-casing gives it the token "unknown". */
  datatype DeviceState = Running | Offline | Unknown {

    /** The wire token. */
    function Token(): string
    {
      match this
      case Running => "running"
      case Offline => "offline"
      case Unknown => "unknown"
    }

    /** The declaration index, which `as i64` publishes. */
    function Ordinal(): nat
    {
      match this
      case Running => 0
      case Offline => 1
      case Unknown => 2
    }

    /** The `Display` text: the variant name. */
    function Name(): string
    {
      match this
      case Running => "Running"
      case Offline => "Offline"
      case Unknown => "Unknown"
    }
  }

  /** Declaration order, as `EnumIter` yields it. */
  const DEVICE_STATE_VARIANTS: seq<DeviceState> :=
    [DeviceState.Running, DeviceState.Offline, DeviceState.Unknown]

  const DEVICE_STATE_DEFAULT := DeviceState.Unknown

  /** The ordinal of every variant is its index in declaration order. */
  lemma DeviceStateOrder()
    ensures |DEVICE_STATE_VARIANTS| == 3
    ensures forall v: DeviceState :: v in DEVICE_STATE_VARIANTS
    ensures forall i :: 0 <= i < |DEVICE_STATE_VARIANTS| ==> DEVICE_STATE_VARIANTS[i].Ordinal() == i
    ensures forall v: DeviceState ::
      v.Ordinal() < |DEVICE_STATE_VARIANTS| && DEVICE_STATE_VARIANTS[v.Ordinal()] == v
  {
    forall v: DeviceState ensures v in DEVICE_STATE_VARIANTS {
      assert DEVICE_STATE_VARIANTS[v.Ordinal()] == v;
    }
  }

  /** No two variants share a wire token. */
  lemma DeviceStateTokensDistinct()
    ensures forall a: DeviceState, b: DeviceState :: a.Token() == b.Token() ==> a == b
  {
  }

  /** The decoder accepts exactly "running", "offline" and "unknown" (bare or as
      `{token: null}`). */
  function DecodeDeviceState(j: Json): (r: Result<DeviceState>)
    ensures r.Ok? ==> j == Str(r.value.Token()) || j == Obj([(r.value.Token(), Null)])
    ensures forall v: DeviceState ::
      j == Str(v.Token()) || j == Obj([(v.Token(), Null)]) ==> r == Ok(v)
  {
    var shape :- Serde.EnumShapeOf(j);
    var token := (v: DeviceState) => v.Token();
    DeviceStateOrder();
    DeviceStateTokensDistinct();
    Serde.TableOfDecodes(DEVICE_STATE_VARIANTS, token, None);
    Serde.UnitVariant(Serde.TableOf(DEVICE_STATE_VARIANTS, token), None, shape)
  }

  // ---------------------------------------------------------------------------
  // MarginalState

  /** Whether a path (or group) is marked marginal. */
  datatype MarginalState = Marginal | Normal {

    /** The wire token. */
    function Token(): string
    {
      match this
      case Marginal => "marginal"
      case Normal => "normal"
    }
  }

  const MARGINAL_STATE_VARIANTS: seq<MarginalState> := [MarginalState.Marginal, MarginalState.Normal]

  const MARGINAL_STATE_DEFAULT := MarginalState.Normal

  /** Every variant is listed. */
  lemma MarginalStateListed()
    ensures forall v: MarginalState :: v in MARGINAL_STATE_VARIANTS
  {
    forall v: MarginalState ensures v in MARGINAL_STATE_VARIANTS {
      if v.Marginal? {
        assert MARGINAL_STATE_VARIANTS[0] == v;
      } else {
        assert MARGINAL_STATE_VARIANTS[1] == v;
      }
    }
  }

  /** The decoder accepts exactly "marginal" and "normal" (bare or as `{token: null}`). */
  function DecodeMarginalState(j: Json): (r: Result<MarginalState>)
    ensures r.Ok? ==> j == Str(r.value.Token()) || j == Obj([(r.value.Token(), Null)])
    ensures forall v: MarginalState ::
      j == Str(v.Token()) || j == Obj([(v.Token(), Null)]) ==> r == Ok(v)
  {
    var shape :- Serde.EnumShapeOf(j);
    var token := (v: MarginalState) => v.Token();
    MarginalStateListed();
    Serde.TableOfDecodes(MARGINAL_STATE_VARIANTS, token, None);
    Serde.UnitVariant(Serde.TableOf(MARGINAL_STATE_VARIANTS, token), None, shape)
  }

  /** None of the four enums has a catch-all: a token in another case, or one of
      another enum, is an error. */
  lemma PathGroupDeviceMapperStateIsStrict()
    ensures DecodePathGroupDeviceMapperState(Str("Active")).Err?
  {
  }

  lemma PathDeviceMapperStateIsStrict()
    ensures DecodePathDeviceMapperState(Str("enabled")).Err?
  {
  }

  lemma DeviceStateIsStrict()
    ensures DecodeDeviceState(Str("Running")).Err?
  {
  }

  lemma MarginalStateIsStrict()
    ensures DecodeMarginalState(Str("undef")).Err?
  {
  }
}
