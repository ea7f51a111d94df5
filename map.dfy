/** One multipath map: the map-level enums and the `Map` record. */
module Map {
  import opened Wrappers
  import opened Numbers
  import opened Json
  import Serde
  import opened Common
  import opened Deserializers
  import opened PathGroup

  // ---------------------------------------------------------------------------
  // MapFailback

  /** When the map fails back to its preferred group. `Deferred` carries the
      delay, decoded from the payload of `{"deferred": "deferred:N"}`. */
  datatype MapFailback = Immediate | FollowOver | Manual | Deferred(seconds: I32) | Undefined
  {
    /** The tag; every `Deferred` value has the same one. */
    function Token(): string
    {
      match this
      case Immediate => "immediate"
      case FollowOver => "followover"
      case Manual => "manual"
      case Deferred(_) => DEFERRED_TAG
      case Undefined => "undef"
    }
  }

  const DEFERRED_TAG := "deferred"

  /** The unit variants, in declaration order. */
  const MAP_FAILBACK_UNITS: seq<MapFailback> :=
    [MapFailback.Immediate, MapFailback.FollowOver, MapFailback.Manual, MapFailback.Undefined]

  const MAP_FAILBACK_DEFAULT := MapFailback.Undefined

  /** The unit variants are exactly those listed, each under its own tag, and
      none of them under the newtype variant's tag. */
  lemma MapFailbackUnits()
    ensures forall v: MapFailback :: v in MAP_FAILBACK_UNITS <==> !v.Deferred?
    ensures forall a: MapFailback, b: MapFailback ::
      !a.Deferred? && !b.Deferred? && a.Token() == b.Token() ==> a == b
    ensures forall v: MapFailback :: !v.Deferred? ==> v.Token() != DEFERRED_TAG
  {
    forall v: MapFailback | !v.Deferred? ensures v in MAP_FAILBACK_UNITS {
      var i := match v case Immediate => 0 case FollowOver => 1 case Manual => 2 case _ => 3;
      assert MAP_FAILBACK_UNITS[i] == v;
    }
  }

  /** A unit tag is decoded as for any enum; the "deferred" tag only in the
      object form, where its payload goes to the deferred-failback decoder. A
      bare "deferred", or a bare "deferred:30", is an error. */
  function DecodeMapFailback(j: Json): (r: Result<MapFailback>)
    ensures forall v: MapFailback ::
      !v.Deferred? && (j == Str(v.Token()) || j == Obj([(v.Token(), Null)])) ==> r == Ok(v)
    ensures r.Ok? && !r.value.Deferred? ==>
      j == Str(r.value.Token()) || j == Obj([(r.value.Token(), Null)])
    ensures forall payload :: j == Obj([(DEFERRED_TAG, payload)]) ==>
      (r.Ok? <==> DecodeDeferredFailback(payload).Ok?) &&
      (r.Ok? ==> r.value == MapFailback.Deferred(DecodeDeferredFailback(payload).value))
    ensures r.Ok? && r.value.Deferred? ==> j.Obj? && |j.members| == 1 && j.members[0].0 == DEFERRED_TAG
  {
    var shape :- Serde.EnumShapeOf(j);
    if shape.tag == DEFERRED_TAG then
      match shape
      case Tagged(_, payload) =>
        var n :- DecodeDeferredFailback(payload);
        Ok(MapFailback.Deferred(n))
      case Bare(_) => Err("invalid type: unit variant, expected newtype variant")
    else
      var token := (v: MapFailback) => v.Token();
      MapFailbackUnits();
      Serde.TableOfDecodes(MAP_FAILBACK_UNITS, token, Option.None);
      Serde.UnitVariant(Serde.TableOf(MAP_FAILBACK_UNITS, token), Option.None, shape)
  }

  /** The JSON form of a failback value. */
  function FailbackJson(f: MapFailback): Json
  {
    if f.Deferred? then Obj([(DEFERRED_TAG, Str(DEFERRED_PREFIX + IntToString(f.seconds)))])
    else Str(f.Token())
  }

  /** Every failback value reads back from its JSON form. */
  lemma FailbackRoundTrip(f: MapFailback)
    ensures DecodeMapFailback(FailbackJson(f)) == Ok(f)
  {
    if f.Deferred? {
      DeferredFailbackRoundTrip(f.seconds);
    }
  }

  /** The delay appears only under the "deferred" tag: the bare text is none of
      the tags. */
  lemma BareDeferredFails(n: I32)
    ensures DecodeMapFailback(Str(DEFERRED_TAG)).Err?
    ensures DecodeMapFailback(Str(DEFERRED_PREFIX + IntToString(n))).Err?
  {
    var s := DEFERRED_PREFIX + IntToString(n);
    assert s[8] == ':';
  }

  // ---------------------------------------------------------------------------
  // MapWriteProtection

  /** Whether the map is writable. */
  datatype MapWriteProtection = ReadOnly | ReadWrite | Undefined
  {
    /** The wire token. */
    function Token(): string
    {
      match this
      case ReadOnly => "ro"
      case ReadWrite => "rw"
      case Undefined => "undef"
    }
  }

  const MAP_WRITE_PROTECTION_VARIANTS: seq<MapWriteProtection> :=
    [MapWriteProtection.ReadOnly, MapWriteProtection.ReadWrite, MapWriteProtection.Undefined]

  const MAP_WRITE_PROTECTION_DEFAULT := MapWriteProtection.Undefined

  /** Every variant is listed, under a token of its own. */
  lemma MapWriteProtectionTable()
    ensures forall v: MapWriteProtection :: v in MAP_WRITE_PROTECTION_VARIANTS
    ensures forall a: MapWriteProtection, b: MapWriteProtection :: a.Token() == b.Token() ==> a == b
  {
    forall v: MapWriteProtection ensures v in MAP_WRITE_PROTECTION_VARIANTS {
      var i := match v case ReadOnly => 0 case ReadWrite => 1 case Undefined => 2;
      assert MAP_WRITE_PROTECTION_VARIANTS[i] == v;
    }
  }

  /** The decoder accepts exactly "ro", "rw" and "undef" (bare or as `{token: null}`). */
  function DecodeMapWriteProtection(j: Json): (r: Result<MapWriteProtection>)
    ensures r.Ok? ==> j == Str(r.value.Token()) || j == Obj([(r.value.Token(), Null)])
    ensures forall v: MapWriteProtection ::
      j == Str(v.Token()) || j == Obj([(v.Token(), Null)]) ==> r == Ok(v)
  {
    var shape :- Serde.EnumShapeOf(j);
    var token := (v: MapWriteProtection) => v.Token();
    MapWriteProtectionTable();
    Serde.TableOfDecodes(MAP_WRITE_PROTECTION_VARIANTS, token, Option.None);
    Serde.UnitVariant(Serde.TableOf(MAP_WRITE_PROTECTION_VARIANTS, token), Option.None, shape)
  }

  // ---------------------------------------------------------------------------
  // MapQueueing

  /** What the map does when no path is left. `Timed` carries the limit,
      decoded from the payload of `{"timed": "N sec"}` or `{"timed": "N chk"}`. */
  datatype MapQueueing = Off | On | Timed(value: QueueingValue) | Undefined
  {
    /** The tag; every `Timed` value has the same one. */
    function Token(): string
    {
      match this
      case Off => "off"
      case On => "on"
      case Timed(_) => TIMED_TAG
      case Undefined => "-"
    }
  }

  const TIMED_TAG := "timed"

  /** The unit variants, in declaration order. */
  const MAP_QUEUEING_UNITS: seq<MapQueueing> := [MapQueueing.Off, MapQueueing.On, MapQueueing.Undefined]

  const MAP_QUEUEING_DEFAULT := MapQueueing.Undefined

  /** The unit variants are exactly those listed, each under its own tag, and
      none of them under the newtype variant's tag. */
  lemma MapQueueingUnits()
    ensures forall v: MapQueueing :: v in MAP_QUEUEING_UNITS <==> !v.Timed?
    ensures forall a: MapQueueing, b: MapQueueing ::
      !a.Timed? && !b.Timed? && a.Token() == b.Token() ==> a == b
    ensures forall v: MapQueueing :: !v.Timed? ==> v.Token() != TIMED_TAG
  {
    forall v: MapQueueing | !v.Timed? ensures v in MAP_QUEUEING_UNITS {
      var i := match v case Off => 0 case On => 1 case _ => 2;
      assert MAP_QUEUEING_UNITS[i] == v;
    }
  }

  /** "off", "on" and "-" are unit tags; "timed" is reached only in the object
      form, whose payload goes to the queueing-value decoder. */
  function DecodeMapQueueing(j: Json): (r: Result<MapQueueing>)
    ensures forall v: MapQueueing ::
      !v.Timed? && (j == Str(v.Token()) || j == Obj([(v.Token(), Null)])) ==> r == Ok(v)
    ensures r.Ok? && !r.value.Timed? ==>
      j == Str(r.value.Token()) || j == Obj([(r.value.Token(), Null)])
    ensures forall payload :: j == Obj([(TIMED_TAG, payload)]) ==>
      (r.Ok? <==> DecodeQueueingValue(payload).Ok?) &&
      (r.Ok? ==> r.value == MapQueueing.Timed(DecodeQueueingValue(payload).value))
    ensures r.Ok? && r.value.Timed? ==> j.Obj? && |j.members| == 1 && j.members[0].0 == TIMED_TAG
  {
    var shape :- Serde.EnumShapeOf(j);
    if shape.tag == TIMED_TAG then
      match shape
      case Tagged(_, payload) =>
        var v :- DecodeQueueingValue(payload);
        Ok(MapQueueing.Timed(v))
      case Bare(_) => Err("invalid type: unit variant, expected newtype variant")
    else
      var token := (v: MapQueueing) => v.Token();
      MapQueueingUnits();
      Serde.TableOfDecodes(MAP_QUEUEING_UNITS, token, Option.None);
      Serde.UnitVariant(Serde.TableOf(MAP_QUEUEING_UNITS, token), Option.None, shape)
  }

  /** The text multipathd prints for a queueing limit. */
  function QueueingText(v: QueueingValue): string
  {
    match v
    case Seconds(n) => NatToString(n) + SECONDS_SUFFIX
    case Checks(n) => NatToString(n) + CHECKS_SUFFIX
  }

  /** The JSON form of a queueing mode. */
  function QueueingJson(q: MapQueueing): Json
  {
    if q.Timed? then Obj([(TIMED_TAG, Str(QueueingText(q.value)))]) else Str(q.Token())
  }

  /** Every queueing mode reads back from its JSON form; "5 chk" under "timed",
      for one, is `Timed(Checks(5))`. */
  lemma QueueingRoundTrip(q: MapQueueing)
    ensures DecodeMapQueueing(QueueingJson(q)) == Ok(q)
  {
    if q.Timed? {
      match q.value
      case Seconds(n) => QueueingValueRoundTrip(n);
      case Checks(n) => QueueingValueRoundTrip(n);
    }
  }

  // ---------------------------------------------------------------------------
  // MapAction

  /** The last action multipathd took on the map; "" is `None`. */
  datatype MapAction = Reject | Rename | Reload | Create | SwitchPathGroup | None
  {
    /** The wire token. */
    function Token(): string
    {
      match this
      case Reject => "reject"
      case Rename => "rename"
      case Reload => "reload"
      case Create => "create"
      case SwitchPathGroup => "switchpg"
      case None => ""
    }
  }

  const MAP_ACTION_VARIANTS: seq<MapAction> :=
    [MapAction.Reject, MapAction.Rename, MapAction.Reload, MapAction.Create,
     MapAction.SwitchPathGroup, MapAction.None]

  const MAP_ACTION_DEFAULT := MapAction.None

  /** Every variant is listed, under a token of its own. */
  lemma MapActionTable()
    ensures forall v: MapAction :: v in MAP_ACTION_VARIANTS
    ensures forall a: MapAction, b: MapAction :: a.Token() == b.Token() ==> a == b
  {
    forall v: MapAction ensures v in MAP_ACTION_VARIANTS {
      var i := match v
        case Reject => 0 case Rename => 1 case Reload => 2 case Create => 3
        case SwitchPathGroup => 4 case None => 5;
      assert MAP_ACTION_VARIANTS[i] == v;
    }
  }

  /** The decoder accepts exactly the six tokens, the empty one included. */
  function DecodeMapAction(j: Json): (r: Result<MapAction>)
    ensures r.Ok? ==> j == Str(r.value.Token()) || j == Obj([(r.value.Token(), Null)])
    ensures forall v: MapAction ::
      j == Str(v.Token()) || j == Obj([(v.Token(), Null)]) ==> r == Ok(v)
  {
    var shape :- Serde.EnumShapeOf(j);
    var token := (v: MapAction) => v.Token();
    MapActionTable();
    Serde.TableOfDecodes(MAP_ACTION_VARIANTS, token, Option.None);
    Serde.UnitVariant(Serde.TableOf(MAP_ACTION_VARIANTS, token), Option.None, shape)
  }

  /** The map's dm_st is a path's state, which has no "enabled". */
  lemma MapStateRejectsEnabled()
    ensures DecodePathDeviceMapperState(Str("enabled")).Err?
  {
    PathDeviceMapperStateIsStrict();
  }

  // ---------------------------------------------------------------------------
  // Map

  /** A multipath map, with its wire keys noted beside each field. */
  datatype Map = Map(
    name: string,                               // "name"
    uuid: string,                               // "uuid"
    sysfs: Option<string>,                      // "sysfs", "[undef]" is absent
    failback: MapFailback,                      // "failback"
    queueing: MapQueueing,                      // "queueing"
    paths: U64,                                 // "paths", a count
    writeProtection: MapWriteProtection,        // "write_prot"
    deviceMapperState: PathDeviceMapperState,   // "dm_st"
    features: string,                           // "features"
    hwhandler: string,                          // "hwhandler"
    action: MapAction,                          // "action"
    pathFaults: U64,                            // "path_faults"
    vendor: string,                             // "vend"
    product: string,                            // "prod"
    rev: string,                                // "rev"
    switchGroup: U64,                           // "switch_grp"
    loads: U64,                                 // "map_loads"
    totalQueueTime: U64,                        // "total_q_time"
    queueTimeouts: U64,                         // "q_timeouts"
    pathGroups: seq<PathGroup>                  // "path_groups"
  )

  /** `Map::default()`. */
  const DEFAULT_MAP := Map("", "", Option.None, MAP_FAILBACK_DEFAULT, MAP_QUEUEING_DEFAULT, 0,
    MAP_WRITE_PROTECTION_DEFAULT, PATH_DM_DEFAULT, "", "", MAP_ACTION_DEFAULT, 0, "", "", "",
    0, 0, 0, 0, [])

  /** `Vec<PathGroup>::deserialize`: an array of groups, decoded in order; one
      group that fails makes the whole array fail. */
  function DecodePathGroups(j: Json): (r: Result<seq<PathGroup>>)
    ensures r.Ok? <==> j.Arr? && forall i :: 0 <= i < |j.items| ==> DecodePathGroup(j.items[i]).Ok?
    ensures r.Ok? ==> |r.value| == |j.items|
    ensures r.Ok? ==> forall i :: 0 <= i < |j.items| ==> r.value[i] == DecodePathGroup(j.items[i]).value
  {
    Serde.DecodeVec(j, DecodePathGroup)
  }

  /** A `#[serde(default)]` map. */
  function DecodeMap(j: Json): (r: Result<Map>)
    ensures r.Ok? ==> j.Obj?
    ensures r.Ok? ==> MapFieldsHold(j.members, r.value)
  {
    match j
    case Obj(ms) =>
      var name := Serde.Field(ms, "name", "", Serde.DecodeString);
      var uuid := Serde.Field(ms, "uuid", "", Serde.DecodeString);
      var sysfs := Serde.Field(ms, "sysfs", Option.None, DecodeOptionalString);
      var failback := Serde.Field(ms, "failback", MAP_FAILBACK_DEFAULT, DecodeMapFailback);
      var queueing := Serde.Field(ms, "queueing", MAP_QUEUEING_DEFAULT, DecodeMapQueueing);
      var paths := Serde.Field(ms, "paths", 0, Serde.DecodeU64);
      var writeProtection := Serde.Field(ms, "write_prot", MAP_WRITE_PROTECTION_DEFAULT, DecodeMapWriteProtection);
      var deviceMapperState := Serde.Field(ms, "dm_st", PATH_DM_DEFAULT, DecodePathDeviceMapperState);
      var features := Serde.Field(ms, "features", "", Serde.DecodeString);
      var hwhandler := Serde.Field(ms, "hwhandler", "", Serde.DecodeString);
      var action := Serde.Field(ms, "action", MAP_ACTION_DEFAULT, DecodeMapAction);
      var pathFaults := Serde.Field(ms, "path_faults", 0, Serde.DecodeU64);
      var vendor := Serde.Field(ms, "vend", "", Serde.DecodeString);
      var product := Serde.Field(ms, "prod", "", Serde.DecodeString);
      var rev := Serde.Field(ms, "rev", "", Serde.DecodeString);
      var switchGroup := Serde.Field(ms, "switch_grp", 0, Serde.DecodeU64);
      var loads := Serde.Field(ms, "map_loads", 0, Serde.DecodeU64);
      var totalQueueTime := Serde.Field(ms, "total_q_time", 0, Serde.DecodeU64);
      var queueTimeouts := Serde.Field(ms, "q_timeouts", 0, Serde.DecodeU64);
      var pathGroups := Serde.Field(ms, "path_groups", [], DecodePathGroups);
      if name.Ok? && uuid.Ok? && sysfs.Ok? && failback.Ok? && queueing.Ok? && paths.Ok? &&
        writeProtection.Ok? && deviceMapperState.Ok? && features.Ok? && hwhandler.Ok? && action.Ok?
        && pathFaults.Ok? && vendor.Ok? && product.Ok? && rev.Ok? && switchGroup.Ok? && loads.Ok? &&
        totalQueueTime.Ok? && queueTimeouts.Ok? && pathGroups.Ok? then
        Ok(Map(name.value, uuid.value, sysfs.value, failback.value, queueing.value, paths.value,
          writeProtection.value, deviceMapperState.value, features.value, hwhandler.value,
          action.value, pathFaults.value, vendor.value, product.value, rev.value, switchGroup.value,
          loads.value, totalQueueTime.value, queueTimeouts.value, pathGroups.value))
      else Err("invalid value for struct Map")
    case _ => Err("invalid type: expected struct Map")
  }

  /** Every field of `m` is what its key in `ms` gives, or the field's default
      when the key is absent. */
  ghost predicate MapFieldsHold(ms: seq<(string, Json)>, m: Map)
  {
    Serde.FieldHolds(ms, "name", "", Serde.DecodeString, m.name) &&
    Serde.FieldHolds(ms, "uuid", "", Serde.DecodeString, m.uuid) &&
    Serde.FieldHolds(ms, "sysfs", Option.None, DecodeOptionalString, m.sysfs) &&
    Serde.FieldHolds(ms, "failback", MAP_FAILBACK_DEFAULT, DecodeMapFailback, m.failback) &&
    Serde.FieldHolds(ms, "queueing", MAP_QUEUEING_DEFAULT, DecodeMapQueueing, m.queueing) &&
    Serde.FieldHolds(ms, "paths", 0, Serde.DecodeU64, m.paths) &&
    Serde.FieldHolds(ms, "write_prot", MAP_WRITE_PROTECTION_DEFAULT, DecodeMapWriteProtection, m.writeProtection) &&
    Serde.FieldHolds(ms, "dm_st", PATH_DM_DEFAULT, DecodePathDeviceMapperState, m.deviceMapperState) &&
    Serde.FieldHolds(ms, "features", "", Serde.DecodeString, m.features) &&
    Serde.FieldHolds(ms, "hwhandler", "", Serde.DecodeString, m.hwhandler) &&
    Serde.FieldHolds(ms, "action", MAP_ACTION_DEFAULT, DecodeMapAction, m.action) &&
    Serde.FieldHolds(ms, "path_faults", 0, Serde.DecodeU64, m.pathFaults) &&
    Serde.FieldHolds(ms, "vend", "", Serde.DecodeString, m.vendor) &&
    Serde.FieldHolds(ms, "prod", "", Serde.DecodeString, m.product) &&
    Serde.FieldHolds(ms, "rev", "", Serde.DecodeString, m.rev) &&
    Serde.FieldHolds(ms, "switch_grp", 0, Serde.DecodeU64, m.switchGroup) &&
    Serde.FieldHolds(ms, "map_loads", 0, Serde.DecodeU64, m.loads) &&
    Serde.FieldHolds(ms, "total_q_time", 0, Serde.DecodeU64, m.totalQueueTime) &&
    Serde.FieldHolds(ms, "q_timeouts", 0, Serde.DecodeU64, m.queueTimeouts) &&
    Serde.FieldHolds(ms, "path_groups", [], DecodePathGroups, m.pathGroups)
  }

  /** The converse of `DecodeMap`'s contract. */
  lemma DecodeMapComplete(ms: seq<(string, Json)>, m: Map)
    requires MapFieldsHold(ms, m)
    ensures DecodeMap(Obj(ms)) == Ok(m)
  {
    Serde.FieldOf(ms, "name", "", Serde.DecodeString, m.name);
    Serde.FieldOf(ms, "uuid", "", Serde.DecodeString, m.uuid);
    Serde.FieldOf(ms, "sysfs", Option.None, DecodeOptionalString, m.sysfs);
    Serde.FieldOf(ms, "failback", MAP_FAILBACK_DEFAULT, DecodeMapFailback, m.failback);
    Serde.FieldOf(ms, "queueing", MAP_QUEUEING_DEFAULT, DecodeMapQueueing, m.queueing);
    Serde.FieldOf(ms, "paths", 0, Serde.DecodeU64, m.paths);
    Serde.FieldOf(ms, "write_prot", MAP_WRITE_PROTECTION_DEFAULT, DecodeMapWriteProtection, m.writeProtection);
    Serde.FieldOf(ms, "dm_st", PATH_DM_DEFAULT, DecodePathDeviceMapperState, m.deviceMapperState);
    Serde.FieldOf(ms, "features", "", Serde.DecodeString, m.features);
    Serde.FieldOf(ms, "hwhandler", "", Serde.DecodeString, m.hwhandler);
    Serde.FieldOf(ms, "action", MAP_ACTION_DEFAULT, DecodeMapAction, m.action);
    Serde.FieldOf(ms, "path_faults", 0, Serde.DecodeU64, m.pathFaults);
    Serde.FieldOf(ms, "vend", "", Serde.DecodeString, m.vendor);
    Serde.FieldOf(ms, "prod", "", Serde.DecodeString, m.product);
    Serde.FieldOf(ms, "rev", "", Serde.DecodeString, m.rev);
    Serde.FieldOf(ms, "switch_grp", 0, Serde.DecodeU64, m.switchGroup);
    Serde.FieldOf(ms, "map_loads", 0, Serde.DecodeU64, m.loads);
    Serde.FieldOf(ms, "total_q_time", 0, Serde.DecodeU64, m.totalQueueTime);
    Serde.FieldOf(ms, "q_timeouts", 0, Serde.DecodeU64, m.queueTimeouts);
    Serde.FieldOf(ms, "path_groups", [], DecodePathGroups, m.pathGroups);
  }

  /** An empty object is the default map. */
  lemma MapDefaults()
    ensures DecodeMap(Obj([])) == Ok(DEFAULT_MAP)
  {
  }

  /** A map whose "dm_st" is "enabled", a path-group state, fails to decode. */
  lemma MapRejectsGroupState(ms: seq<(string, Json)>)
    requires LookupKey(ms, "dm_st") == Present(Str("enabled"))
    ensures DecodeMap(Obj(ms)).Err?
  {
    PathDeviceMapperStateIsStrict();
  }

  /** What "failback" holds decides the map's failback, and a failback that
      fails to decode fails the whole map. */
  lemma FailbackDecides(ms: seq<(string, Json)>, j: Json)
    requires LookupKey(ms, "failback") == Present(j)
    ensures DecodeMapFailback(j).Err? ==> DecodeMap(Obj(ms)).Err?
    ensures DecodeMap(Obj(ms)).Ok? ==> DecodeMapFailback(j) == Ok(DecodeMap(Obj(ms)).value.failback)
  {
  }

  /** A bare "deferred:<n>" under "failback" fails the whole map. */
  lemma MapBareDeferredFails(ms: seq<(string, Json)>, n: I32)
    requires LookupKey(ms, "failback") == Present(Str(DEFERRED_PREFIX + IntToString(n)))
    ensures DecodeMap(Obj(ms)).Err?
  {
    BareDeferredFails(n);
    FailbackDecides(ms, Str(DEFERRED_PREFIX + IntToString(n)));
  }

  /** The same text under the "deferred" tag is a delay of `n` seconds. */
  lemma MapTaggedDeferred(ms: seq<(string, Json)>, n: I32)
    requires LookupKey(ms, "failback") == Present(Obj([(DEFERRED_TAG, Str(DEFERRED_PREFIX + IntToString(n)))]))
    requires DecodeMap(Obj(ms)).Ok?
    ensures DecodeMap(Obj(ms)).value.failback == MapFailback.Deferred(n)
  {
    FailbackRoundTrip(MapFailback.Deferred(n));
    FailbackDecides(ms, Obj([(DEFERRED_TAG, Str(DEFERRED_PREFIX + IntToString(n)))]));
  }

  /** The groups of a map are those of its "path_groups" array, in the same
      order; one group that fails to decode makes the whole map fail. */
  lemma MapPathGroups(ms: seq<(string, Json)>, items: seq<Json>)
    requires LookupKey(ms, "path_groups") == Present(Arr(items))
    ensures DecodeMap(Obj(ms)).Ok? ==>
      var groups := DecodeMap(Obj(ms)).value.pathGroups;
      |groups| == |items| && forall i :: 0 <= i < |items| ==> DecodePathGroup(items[i]) == Ok(groups[i])
    ensures (exists i :: 0 <= i < |items| && DecodePathGroup(items[i]).Err?) ==> DecodeMap(Obj(ms)).Err?
  {
  }

  /** `ms` holds the members of `m` in the order multipathd prints them, with
      `groupItems` as the "path_groups" array. */
  predicate MapLaidOut(ms: seq<(string, Json)>, m: Map, groupItems: seq<Json>)
  {
    |ms| == 20 &&
    ms[0] == ("name", Str(m.name)) &&
    ms[1] == ("uuid", Str(m.uuid)) &&
    ms[2] == ("sysfs", Str(OptionalText(m.sysfs))) &&
    ms[3] == ("failback", FailbackJson(m.failback)) &&
    ms[4] == ("queueing", QueueingJson(m.queueing)) &&
    ms[5] == ("paths", Num(m.paths)) &&
    ms[6] == ("write_prot", Str(m.writeProtection.Token())) &&
    ms[7] == ("dm_st", Str(m.deviceMapperState.Token())) &&
    ms[8] == ("features", Str(m.features)) &&
    ms[9] == ("hwhandler", Str(m.hwhandler)) &&
    ms[10] == ("action", Str(m.action.Token())) &&
    ms[11] == ("path_faults", Num(m.pathFaults)) &&
    ms[12] == ("vend", Str(m.vendor)) &&
    ms[13] == ("prod", Str(m.product)) &&
    ms[14] == ("rev", Str(m.rev)) &&
    ms[15] == ("switch_grp", Num(m.switchGroup)) &&
    ms[16] == ("map_loads", Num(m.loads)) &&
    ms[17] == ("total_q_time", Num(m.totalQueueTime)) &&
    ms[18] == ("q_timeouts", Num(m.queueTimeouts)) &&
    ms[19] == ("path_groups", Arr(groupItems))
  }

  /** How multipathd prints an optional name: "[undef]" for no value. */
  function OptionalText(o: Option<string>): string
  {
    if o.Some? then o.value else UNDEF_SENTINEL
  }

  /** The keys of a printed map, in print order. */
  const MAP_KEYS: seq<string> :=
    ["name", "uuid", "sysfs", "failback", "queueing", "paths", "write_prot", "dm_st", "features", "hwhandler",
     "action", "path_faults", "vend", "prod", "rev", "switch_grp", "map_loads", "total_q_time", "q_timeouts", "path_groups"]

  /** The first ten keys differ from each other. */
  lemma MapKeysHeadDistinct()
    ensures forall i, j :: 0 <= i < j < 10 ==> MAP_KEYS[i] != MAP_KEYS[j]
  {
  }

  /** The last ten keys differ from each other. */
  lemma MapKeysTailDistinct()
    ensures forall i, j :: 10 <= i < j < 20 ==> MAP_KEYS[i] != MAP_KEYS[j]
  {
  }

  /** No key of the first ten is among the last ten. */
  lemma MapKeysAcrossDistinct()
    ensures forall i, j :: 0 <= i < 10 <= j < 20 ==> MAP_KEYS[i] != MAP_KEYS[j]
  {
  }

  /** Every key of a printed map occurs once. */
  lemma MapLaidOutDistinct(ms: seq<(string, Json)>, m: Map, groupItems: seq<Json>)
    requires MapLaidOut(ms, m, groupItems)
    ensures DistinctKeys(ms)
  {
    assert forall i :: 0 <= i < 20 ==> ms[i].0 == MAP_KEYS[i];
    MapKeysHeadDistinct();
    MapKeysTailDistinct();
    MapKeysAcrossDistinct();
  }

  /** In an object without repeated keys that holds the names, failback and queueing of `m` at
      positions 0 to 4, those fields decode to `m`'s values. */
  lemma MapIdentityFieldsHold(ms: seq<(string, Json)>, m: Map)
    requires DistinctKeys(ms) && |ms| > 4
    requires ms[0] == ("name", Str(m.name))
    requires ms[1] == ("uuid", Str(m.uuid))
    requires ms[2] == ("sysfs", Str(OptionalText(m.sysfs)))
    requires ms[3] == ("failback", FailbackJson(m.failback))
    requires ms[4] == ("queueing", QueueingJson(m.queueing))
    requires m.sysfs != Some(UNDEF_SENTINEL)
    ensures Serde.FieldHolds(ms, "name", "", Serde.DecodeString, m.name)
    ensures Serde.FieldHolds(ms, "uuid", "", Serde.DecodeString, m.uuid)
    ensures Serde.FieldHolds(ms, "sysfs", Option.None, DecodeOptionalString, m.sysfs)
    ensures Serde.FieldHolds(ms, "failback", MAP_FAILBACK_DEFAULT, DecodeMapFailback, m.failback)
    ensures Serde.FieldHolds(ms, "queueing", MAP_QUEUEING_DEFAULT, DecodeMapQueueing, m.queueing)
  {
    FailbackRoundTrip(m.failback);
    QueueingRoundTrip(m.queueing);
    Serde.FieldAt(ms, 0, "", Serde.DecodeString, m.name);
    Serde.FieldAt(ms, 1, "", Serde.DecodeString, m.uuid);
    Serde.FieldAt(ms, 2, Option.None, DecodeOptionalString, m.sysfs);
    Serde.FieldAt(ms, 3, MAP_FAILBACK_DEFAULT, DecodeMapFailback, m.failback);
    Serde.FieldAt(ms, 4, MAP_QUEUEING_DEFAULT, DecodeMapQueueing, m.queueing);
  }

  /** In an object without repeated keys that holds the path count, the states and the handler of `m` at
      positions 5 to 9, those fields decode to `m`'s values. */
  lemma MapPolicyFieldsHold(ms: seq<(string, Json)>, m: Map)
    requires DistinctKeys(ms) && |ms| > 9
    requires ms[5] == ("paths", Num(m.paths))
    requires ms[6] == ("write_prot", Str(m.writeProtection.Token()))
    requires ms[7] == ("dm_st", Str(m.deviceMapperState.Token()))
    requires ms[8] == ("features", Str(m.features))
    requires ms[9] == ("hwhandler", Str(m.hwhandler))
    ensures Serde.FieldHolds(ms, "paths", 0, Serde.DecodeU64, m.paths)
    ensures Serde.FieldHolds(ms, "write_prot", MAP_WRITE_PROTECTION_DEFAULT, DecodeMapWriteProtection, m.writeProtection)
    ensures Serde.FieldHolds(ms, "dm_st", PATH_DM_DEFAULT, DecodePathDeviceMapperState, m.deviceMapperState)
    ensures Serde.FieldHolds(ms, "features", "", Serde.DecodeString, m.features)
    ensures Serde.FieldHolds(ms, "hwhandler", "", Serde.DecodeString, m.hwhandler)
  {
    Serde.FieldAt(ms, 5, 0, Serde.DecodeU64, m.paths);
    Serde.FieldAt(ms, 6, MAP_WRITE_PROTECTION_DEFAULT, DecodeMapWriteProtection, m.writeProtection);
    Serde.FieldAt(ms, 7, PATH_DM_DEFAULT, DecodePathDeviceMapperState, m.deviceMapperState);
    Serde.FieldAt(ms, 8, "", Serde.DecodeString, m.features);
    Serde.FieldAt(ms, 9, "", Serde.DecodeString, m.hwhandler);
  }

  /** In an object without repeated keys that holds the action, the fault count and the device identity of `m` at
      positions 10 to 14, those fields decode to `m`'s values. */
  lemma MapVendorFieldsHold(ms: seq<(string, Json)>, m: Map)
    requires DistinctKeys(ms) && |ms| > 14
    requires ms[10] == ("action", Str(m.action.Token()))
    requires ms[11] == ("path_faults", Num(m.pathFaults))
    requires ms[12] == ("vend", Str(m.vendor))
    requires ms[13] == ("prod", Str(m.product))
    requires ms[14] == ("rev", Str(m.rev))
    ensures Serde.FieldHolds(ms, "action", MAP_ACTION_DEFAULT, DecodeMapAction, m.action)
    ensures Serde.FieldHolds(ms, "path_faults", 0, Serde.DecodeU64, m.pathFaults)
    ensures Serde.FieldHolds(ms, "vend", "", Serde.DecodeString, m.vendor)
    ensures Serde.FieldHolds(ms, "prod", "", Serde.DecodeString, m.product)
    ensures Serde.FieldHolds(ms, "rev", "", Serde.DecodeString, m.rev)
  {
    Serde.FieldAt(ms, 10, MAP_ACTION_DEFAULT, DecodeMapAction, m.action);
    Serde.FieldAt(ms, 11, 0, Serde.DecodeU64, m.pathFaults);
    Serde.FieldAt(ms, 12, "", Serde.DecodeString, m.vendor);
    Serde.FieldAt(ms, 13, "", Serde.DecodeString, m.product);
    Serde.FieldAt(ms, 14, "", Serde.DecodeString, m.rev);
  }

  /** In an object without repeated keys that holds the counters and the groups of `m` at
      positions 15 to 19, those fields decode to `m`'s values. */
  lemma MapCountersFieldsHold(ms: seq<(string, Json)>, m: Map, groupItems: seq<Json>)
    requires DistinctKeys(ms) && |ms| > 19
    requires ms[15] == ("switch_grp", Num(m.switchGroup))
    requires ms[16] == ("map_loads", Num(m.loads))
    requires ms[17] == ("total_q_time", Num(m.totalQueueTime))
    requires ms[18] == ("q_timeouts", Num(m.queueTimeouts))
    requires ms[19] == ("path_groups", Arr(groupItems))
    requires DecodePathGroups(Arr(groupItems)) == Ok(m.pathGroups)
    ensures Serde.FieldHolds(ms, "switch_grp", 0, Serde.DecodeU64, m.switchGroup)
    ensures Serde.FieldHolds(ms, "map_loads", 0, Serde.DecodeU64, m.loads)
    ensures Serde.FieldHolds(ms, "total_q_time", 0, Serde.DecodeU64, m.totalQueueTime)
    ensures Serde.FieldHolds(ms, "q_timeouts", 0, Serde.DecodeU64, m.queueTimeouts)
    ensures Serde.FieldHolds(ms, "path_groups", [], DecodePathGroups, m.pathGroups)
  {
    Serde.FieldAt(ms, 15, 0, Serde.DecodeU64, m.switchGroup);
    Serde.FieldAt(ms, 16, 0, Serde.DecodeU64, m.loads);
    Serde.FieldAt(ms, 17, 0, Serde.DecodeU64, m.totalQueueTime);
    Serde.FieldAt(ms, 18, 0, Serde.DecodeU64, m.queueTimeouts);
    Serde.FieldAt(ms, 19, [], DecodePathGroups, m.pathGroups);
  }

  /** A printed map reads back as the same record when its group array reads
      back as its groups and its sysfs name is not the "[undef]" text itself. */
  lemma MapRoundTrip(ms: seq<(string, Json)>, m: Map, groupItems: seq<Json>)
    requires MapLaidOut(ms, m, groupItems)
    requires m.sysfs != Some(UNDEF_SENTINEL)
    requires DecodePathGroups(Arr(groupItems)) == Ok(m.pathGroups)
    ensures DecodeMap(Obj(ms)) == Ok(m)
  {
    MapLaidOutDistinct(ms, m, groupItems);
    MapIdentityFieldsHold(ms, m);
    MapPolicyFieldsHold(ms, m);
    MapVendorFieldsHold(ms, m);
    MapCountersFieldsHold(ms, m, groupItems);
    DecodeMapComplete(ms, m);
  }

  /** The iSCSI map of the crate's first test case: "sysfs" is kept, the empty
      "action" is `None`. */
  const PURE_MAP := Map("3624a9370e92ace0b12e941bf000cb4d5", "3624a9370e92ace0b12e941bf000cb4d5",
    Some("dm-31"), MapFailback.Immediate, MapQueueing.Off, 8, MapWriteProtection.ReadWrite,
    PathDeviceMapperState.Active, "0", "1 alua", MapAction.None, 23, "PURE", "FlashArray", "8888",
    0, 16, 0, 0, [])

  /** The members of that test case's map, in its order. */
  const PURE_MAP_MEMBERS: seq<(string, Json)> := [
      ("name", Str("3624a9370e92ace0b12e941bf000cb4d5")),
      ("uuid", Str("3624a9370e92ace0b12e941bf000cb4d5")),
      ("sysfs", Str("dm-31")),
      ("failback", Str("immediate")),
      ("queueing", Str("off")),
      ("paths", Num(8)),
      ("write_prot", Str("rw")),
      ("dm_st", Str("active")),
      ("features", Str("0")),
      ("hwhandler", Str("1 alua")),
      ("action", Str("")),
      ("path_faults", Num(23)),
      ("vend", Str("PURE")),
      ("prod", Str("FlashArray")),
      ("rev", Str("8888")),
      ("switch_grp", Num(0)),
      ("map_loads", Num(16)),
      ("total_q_time", Num(0)),
      ("q_timeouts", Num(0)),
      ("path_groups", Arr([]))]

  lemma PureMapLaidOut()
    ensures MapLaidOut(PURE_MAP_MEMBERS, PURE_MAP, [])
  {
  }

  lemma PureMapExample()
    ensures DecodeMap(Obj(PURE_MAP_MEMBERS)) == Ok(PURE_MAP)
  {
    PureMapLaidOut();
    MapRoundTrip(PURE_MAP_MEMBERS, PURE_MAP, []);
  }

  /** The map of the crate's second test case. */
  const PURE_BOOT_MAP := Map("3624a9370ca38a5c63c724ca8000a5c6d", "3624a9370ca38a5c63c724ca8000a5c6d",
    Some("dm-0"), MapFailback.Immediate, MapQueueing.Off, 8, MapWriteProtection.ReadWrite,
    PathDeviceMapperState.Active, "0", "1 alua", MapAction.None, 0, "PURE", "FlashArray", "8888",
    0, 0, 0, 0, [])

  /** The members of that test case's map, in its order. */
  const PURE_BOOT_MAP_MEMBERS: seq<(string, Json)> := [
      ("name", Str("3624a9370ca38a5c63c724ca8000a5c6d")),
      ("uuid", Str("3624a9370ca38a5c63c724ca8000a5c6d")),
      ("sysfs", Str("dm-0")),
      ("failback", Str("immediate")),
      ("queueing", Str("off")),
      ("paths", Num(8)),
      ("write_prot", Str("rw")),
      ("dm_st", Str("active")),
      ("features", Str("0")),
      ("hwhandler", Str("1 alua")),
      ("action", Str("")),
      ("path_faults", Num(0)),
      ("vend", Str("PURE")),
      ("prod", Str("FlashArray")),
      ("rev", Str("8888")),
      ("switch_grp", Num(0)),
      ("map_loads", Num(0)),
      ("total_q_time", Num(0)),
      ("q_timeouts", Num(0)),
      ("path_groups", Arr([]))]

  lemma PureBootMapLaidOut()
    ensures MapLaidOut(PURE_BOOT_MAP_MEMBERS, PURE_BOOT_MAP, [])
  {
  }

  lemma PureBootMapExample()
    ensures DecodeMap(Obj(PURE_BOOT_MAP_MEMBERS)) == Ok(PURE_BOOT_MAP)
  {
    PureBootMapLaidOut();
    MapRoundTrip(PURE_BOOT_MAP_MEMBERS, PURE_BOOT_MAP, []);
  }
}
