/** The Go twin's collector: four constant descriptors, `Describe`, and a
    `Collect` that walks maps, path groups and paths and sends one one-hot
    sample per state of each entity. The channel the samples go to is the
    sequence the methods return. */
module GoCollector {
  import opened Wrappers
  import opened Numbers
  import GoPath
  import Collector
  import Common
  import RustPath = Path

  // ---------------------------------------------------------------------------
  // The decoded status, as far as `Collect` reads it

  /** A path group: its device-mapper state text, its index and its paths. */
  datatype PathGroup = PathGroup(deviceMapperState: string, group: U64, paths: seq<GoPath.Alias>)

  /** A map: its UUID and its path groups. */
  datatype Map = Map(uuid: string, pathGroups: seq<PathGroup>)

  /** The decoded `multipathd show maps json` document. */
  datatype Status = Status(majorVersion: U64, minorVersion: U64, maps: seq<Map>)

  /** The two steps `Collect` can fail at: running the command, and
      unmarshalling its output. The decoder itself is not part of the model;
      its outcome is given. */
  datatype CommandRun = CommandFailed | CommandSucceeded(unmarshalled: Result<Status>)

  /** The `Values()` lists of the four state enums, in the order they are
      iterated. */
  datatype EnumValues = EnumValues(
    pathGroupDeviceMapperState: seq<string>,
    pathDeviceMapperState: seq<string>,
    deviceState: seq<string>,
    pathCheckerState: seq<string>)

  /** The lists in the order the enum declarations give them. The path-group
      order (enabled, disabled, active, undef) is not the Rust one. */
  const DECLARED_VALUES := EnumValues(
    ["enabled", "disabled", "active", "undef"],
    ["active", "failed", "undef"],
    ["running", "offline", "unknown"],
    ["ready", "faulty", "shaky", "ghost", "delayed", "i/o pending", "i/o timeout", "undef"])

  // ---------------------------------------------------------------------------
  // Descriptors

  const NAMESPACE := "multipath"

  /** The fully qualified name `NewMultipathCollector` gives each dimension. */
  function MetricName(metric: Collector.Metric): string
  {
    match metric
    case GroupDm => Collector.FqName(NAMESPACE, "path_group", "device_mapper_state")
    case PathDm => Collector.FqName(NAMESPACE, "path", "device_mapper_state")
    case PathDev => Collector.FqName(NAMESPACE, "path", "device_state")
    case PathChk => Collector.FqName(NAMESPACE, "path", "checker_state")
  }

  /** The help text `NewMultipathCollector` gives each dimension. */
  function Help(metric: Collector.Metric): string
  {
    match metric
    case GroupDm => "Group device mapper state of the multipath path"
    case PathDm => "Device mapper state of the multipath path"
    case PathDev => "Device state of the multipath path"
    case PathChk => "Checker state of the multipath path"
  }

  /** The descriptor of each dimension: its name, help, and the same label
      names as the Rust gauges. */
  function Descriptor(metric: Collector.Metric): (d: Collector.Desc)
    ensures d.variableLabels == Collector.LabelNames(metric)
    ensures d.fqName == MetricName(metric)
  {
    Collector.Desc(MetricName(metric), Help(metric), Collector.LabelNames(metric))
  }

  /** No two descriptors share a name. */
  lemma DescriptorsDistinct(a: Collector.Metric, b: Collector.Metric)
    requires a != b
    ensures Descriptor(a).fqName != Descriptor(b).fqName
  {
    assert |MetricName(Collector.GroupDm)| == 40 && |MetricName(Collector.PathDm)| == 34;
    assert |MetricName(Collector.PathDev)| == 27 && |MetricName(Collector.PathChk)| == 28;
  }

  /** Every Go name is one character shorter than the Rust name of the same
      dimension: "multipath" against "multipathd". */
  lemma NamespacesDiffer(metric: Collector.Metric)
    ensures |Collector.MetricName(metric)| == |MetricName(metric)| + 1
    ensures Descriptor(metric).fqName != Collector.Descriptor(metric).fqName
  {
    assert |Collector.NAMESPACE| == |NAMESPACE| + 1;
  }

  /** The four descriptors of a collector, one per dimension. */
  datatype Descs = Descs(group: Collector.Desc, pathDm: Collector.Desc, pathDev: Collector.Desc, pathChk: Collector.Desc)

  /** The descriptors `NewMultipathCollector` builds, as written. */
  function Descriptors(): Descs
  {
    Descs(Descriptor(Collector.GroupDm), Descriptor(Collector.PathDm), Descriptor(Collector.PathDev), Descriptor(Collector.PathChk))
  }

  /** The label under which `emitEnumStateMetric` sends the state text. */
  const STATE_LABEL := "state"

  /** A descriptor that also declares the state label `emitEnumStateMetric`
      appends after the others. */
  function CorrectedDescriptor(metric: Collector.Metric): (d: Collector.Desc)
    ensures d.variableLabels == Collector.LabelNames(metric) + [STATE_LABEL]
    ensures d.fqName == Descriptor(metric).fqName && d.help == Descriptor(metric).help
  {
    Collector.Desc(MetricName(metric), Help(metric), Collector.LabelNames(metric) + [STATE_LABEL])
  }

  /** The corrected descriptors, one per dimension. */
  function CorrectedDescriptors(): Descs
  {
    Descs(CorrectedDescriptor(Collector.GroupDm), CorrectedDescriptor(Collector.PathDm),
      CorrectedDescriptor(Collector.PathDev), CorrectedDescriptor(Collector.PathChk))
  }

  /** The label names each descriptor declares: `map` and `group` for the
      path-group dimension, and `target_wwnn` and `dev` after them for the
      path dimensions, each followed by `tail`. */
  predicate DeclaresLabels(descs: Descs, tail: seq<string>)
  {
    descs.group.variableLabels == Collector.PATH_GROUP_LABELS + tail &&
    descs.pathDm.variableLabels == Collector.PATH_LABELS + tail &&
    descs.pathDev.variableLabels == Collector.PATH_LABELS + tail &&
    descs.pathChk.variableLabels == Collector.PATH_LABELS + tail
  }

  /** As written, no descriptor declares the state label; corrected, each
      declares it last. */
  lemma DescriptorsDeclareLabels()
    ensures DeclaresLabels(Descriptors(), [])
    ensures DeclaresLabels(CorrectedDescriptors(), [STATE_LABEL])
  {
    assert Collector.PATH_GROUP_LABELS + [] == Collector.PATH_GROUP_LABELS;
    assert Collector.PATH_LABELS + [] == Collector.PATH_LABELS;
  }

  // ---------------------------------------------------------------------------
  // emitEnumStateMetric

  /** A constant gauge sample: its descriptor, its label values and its value. */
  datatype Sample = Sample(desc: Collector.Desc, labels: seq<string>, value: int)

  /** The sample sent for one state: labelled with the label values and the
      state's text, and 1 exactly when it is the current state. */
  function StateSample(desc: Collector.Desc, current: string, state: string, labelValues: seq<string>): Sample
  {
    Sample(desc, labelValues + [state], if state == current then 1 else 0)
  }

  /** What `emitEnumStateMetric` sends, one sample per state of `allStates`. */
  function OneHot(desc: Collector.Desc, current: string, allStates: seq<string>, labelValues: seq<string>): seq<Sample>
    decreases |allStates|
  {
    if allStates == [] then []
    else
      var n := |allStates| - 1;
      OneHot(desc, current, allStates[..n], labelValues) + [StateSample(desc, current, allStates[n], labelValues)]
  }

  /** One sample per state, in the order of `allStates`, each labelled with the
      label values followed by the state, and valued 1 exactly at the current
      state. */
  lemma {:induction false} OneHotShape(desc: Collector.Desc, current: string, allStates: seq<string>, labelValues: seq<string>)
    ensures var r := OneHot(desc, current, allStates, labelValues);
      |r| == |allStates| &&
      forall i :: 0 <= i < |r| ==>
        r[i].desc == desc && r[i].labels == labelValues + [allStates[i]] &&
        (r[i].value == 1 <==> allStates[i] == current) && (r[i].value == 0 <==> allStates[i] != current)
    decreases |allStates|
  {
    if allStates != [] {
      OneHotShape(desc, current, allStates[..|allStates| - 1], labelValues);
    }
  }

  /** A current state outside the list gives only zeros. */
  lemma OneHotAbsent(desc: Collector.Desc, current: string, allStates: seq<string>, labelValues: seq<string>)
    requires current !in allStates
    ensures forall s :: s in OneHot(desc, current, allStates, labelValues) ==> s.value == 0
  {
    OneHotShape(desc, current, allStates, labelValues);
  }

  /** Some sample is 1 exactly when the current state is in the list. */
  lemma OneHotHit(desc: Collector.Desc, current: string, allStates: seq<string>, labelValues: seq<string>)
    ensures (exists s :: s in OneHot(desc, current, allStates, labelValues) && s.value == 1) <==> current in allStates
  {
    var r := OneHot(desc, current, allStates, labelValues);
    OneHotShape(desc, current, allStates, labelValues);
    if current in allStates {
      var i :| 0 <= i < |allStates| && allStates[i] == current;
      assert r[i] in r && r[i].value == 1;
    }
  }

  /** No state occurs twice in the list. */
  predicate Distinct(allStates: seq<string>)
  {
    forall a, b :: 0 <= a < b < |allStates| ==> allStates[a] != allStates[b]
  }

  /** A list without repeats has at most one sample valued 1. */
  lemma OneHotAtMostOne(desc: Collector.Desc, current: string, allStates: seq<string>, labelValues: seq<string>, i: int, j: int)
    requires Distinct(allStates)
    requires var r := OneHot(desc, current, allStates, labelValues);
      0 <= i < |r| && 0 <= j < |r| && r[i].value == 1 && r[j].value == 1
    ensures i == j
  {
    OneHotShape(desc, current, allStates, labelValues);
  }

  /** `emitEnumStateMetric`: for each state in turn, append the state's text to
      the label values and send a sample valued 1 for the current state and 0
      for the others. */
  method EmitEnumStateMetric(ch: seq<Sample>, desc: Collector.Desc, currentState: string, allStates: seq<string>, labelValues: seq<string>)
    returns (out: seq<Sample>)
    ensures out == ch + OneHot(desc, currentState, allStates, labelValues)
  {
    out := ch;
    for i := 0 to |allStates|
      invariant out == ch + OneHot(desc, currentState, allStates[..i], labelValues)
    {
      var state := allStates[i];
      var value := 0;
      if state == currentState {
        value := 1;
      }
      var labels := labelValues + [state];
      assert allStates[..i + 1][..i] == allStates[..i];
      out := out + [Sample(desc, labels, value)];
    }
    assert allStates[..|allStates|] == allStates;
  }

  /** In a list without repeats, the current state at position `pos` makes
      that position the only one valued 1. */
  lemma OneHotAt(desc: Collector.Desc, allStates: seq<string>, labelValues: seq<string>, pos: nat)
    requires Distinct(allStates) && pos < |allStates|
    ensures var r := OneHot(desc, allStates[pos], allStates, labelValues);
      |r| == |allStates| && forall i :: 0 <= i < |r| ==> (r[i].value == 1 <==> i == pos)
  {
    OneHotShape(desc, allStates[pos], allStates, labelValues);
  }

  // ---------------------------------------------------------------------------
  // The declared lists against the Rust enums

  /** The path device-mapper, device and checker lists name the Rust variants'
      wire tokens in the Rust order. */
  lemma DeclaredPathDmMatchesRust()
    ensures |DECLARED_VALUES.pathDeviceMapperState| == |Common.PATH_DM_VARIANTS|
    ensures forall i :: 0 <= i < |Common.PATH_DM_VARIANTS| ==>
      DECLARED_VALUES.pathDeviceMapperState[i] == Common.PATH_DM_VARIANTS[i].Token()
  {
  }

  lemma DeclaredDeviceStateMatchesRust()
    ensures |DECLARED_VALUES.deviceState| == |Common.DEVICE_STATE_VARIANTS|
    ensures forall i :: 0 <= i < |Common.DEVICE_STATE_VARIANTS| ==>
      DECLARED_VALUES.deviceState[i] == Common.DEVICE_STATE_VARIANTS[i].Token()
  {
  }

  lemma DeclaredCheckerStateMatchesRust()
    ensures |DECLARED_VALUES.pathCheckerState| == |RustPath.PATH_CHECKER_STATE_VARIANTS|
    ensures forall i :: 0 <= i < |RustPath.PATH_CHECKER_STATE_VARIANTS| ==>
      DECLARED_VALUES.pathCheckerState[i] == RustPath.PATH_CHECKER_STATE_VARIANTS[i].Token()
  {
  }

  /** The position of a path-group state in the Go list. */
  function GroupPosition(v: Common.PathGroupDeviceMapperState): (pos: nat)
    ensures pos < |DECLARED_VALUES.pathGroupDeviceMapperState|
    ensures DECLARED_VALUES.pathGroupDeviceMapperState[pos] == v.Token()
  {
    match v
    case Enabled => 0
    case Disabled => 1
    case Active => 2
    case Undefined => 3
  }

  /** The path-group list holds the same tokens as the Rust enum, in another
      order: only "undef" keeps its Rust ordinal. */
  lemma DeclaredGroupOrderDiffers(v: Common.PathGroupDeviceMapperState)
    ensures GroupPosition(v) == v.Ordinal() <==> v == Common.PathGroupDeviceMapperState.Undefined
  {
  }

  /** A Rust checker state, sent by its token, is 1 exactly at its Rust ordinal:
      the Go one-hot block and the Rust gauge value carry the same state. */
  lemma CheckerOneHotIsOrdinal(desc: Collector.Desc, v: RustPath.PathCheckerState, labelValues: seq<string>)
    ensures var r := OneHot(desc, v.Token(), DECLARED_VALUES.pathCheckerState, labelValues);
      |r| == |RustPath.PATH_CHECKER_STATE_VARIANTS| && forall i :: 0 <= i < |r| ==> (r[i].value == 1 <==> i == v.Ordinal())
  {
    RustPath.PathCheckerStateOrder();
    DeclaredCheckerStateMatchesRust();
    RustPath.PathCheckerStateTokensDistinct();
    OneHotAt(desc, DECLARED_VALUES.pathCheckerState, labelValues, v.Ordinal());
  }

  /** A Rust path-group state is 1 at its Go position, which for all but
      "undef" is not its Rust ordinal. */
  lemma GroupOneHotIsPosition(desc: Collector.Desc, v: Common.PathGroupDeviceMapperState, labelValues: seq<string>)
    ensures var r := OneHot(desc, v.Token(), DECLARED_VALUES.pathGroupDeviceMapperState, labelValues);
      |r| == |Common.PATH_GROUP_DM_VARIANTS| && forall i :: 0 <= i < |r| ==> (r[i].value == 1 <==> i == GroupPosition(v))
  {
    OneHotAt(desc, DECLARED_VALUES.pathGroupDeviceMapperState, labelValues, GroupPosition(v));
  }

  // ---------------------------------------------------------------------------
  // What one walk sends

  /** The label values of a path group: the map's UUID and the group index in
      base 10. */
  function GroupLabels(uuid: string, g: PathGroup): (r: seq<string>)
    ensures |r| == |Collector.PATH_GROUP_LABELS|
  {
    [uuid, NatToString(g.group)]
  }

  /** The label values of a path: its group's, then target WWNN and device name. */
  function PathLabels(groupLabels: seq<string>, p: GoPath.Alias): seq<string>
  {
    groupLabels + [p.targetWwnn, p.deviceName]
  }

  /** What one path sends: device-mapper state, device state, checker state. */
  function PathSamples(descs: Descs, values: EnumValues, groupLabels: seq<string>, p: GoPath.Alias): seq<Sample>
  {
    var labels := PathLabels(groupLabels, p);
    OneHot(descs.pathDm, p.deviceMapperState, values.pathDeviceMapperState, labels)
    + OneHot(descs.pathDev, p.deviceState, values.deviceState, labels)
    + OneHot(descs.pathChk, p.checkerState, values.pathCheckerState, labels)
  }

  /** What a run of paths sends, in order. */
  function PathsSamples(descs: Descs, values: EnumValues, groupLabels: seq<string>, paths: seq<GoPath.Alias>): seq<Sample>
    decreases |paths|
  {
    if paths == [] then []
    else
      var n := |paths| - 1;
      PathsSamples(descs, values, groupLabels, paths[..n]) + PathSamples(descs, values, groupLabels, paths[n])
  }

  /** The path-group sample block of a group. */
  function GroupBlock(descs: Descs, values: EnumValues, uuid: string, g: PathGroup): seq<Sample>
  {
    OneHot(descs.group, g.deviceMapperState, values.pathGroupDeviceMapperState, GroupLabels(uuid, g))
  }

  /** What one path group sends: its own block, then its paths'. */
  function GroupSamples(descs: Descs, values: EnumValues, uuid: string, g: PathGroup): seq<Sample>
  {
    GroupBlock(descs, values, uuid, g) + PathsSamples(descs, values, GroupLabels(uuid, g), g.paths)
  }

  /** What the path groups of a map send, in order. */
  function GroupsSamples(descs: Descs, values: EnumValues, uuid: string, groups: seq<PathGroup>): seq<Sample>
    decreases |groups|
  {
    if groups == [] then []
    else
      var n := |groups| - 1;
      GroupsSamples(descs, values, uuid, groups[..n]) + GroupSamples(descs, values, uuid, groups[n])
  }

  /** What the maps send, in order. */
  function MapsSamples(descs: Descs, values: EnumValues, maps: seq<Map>): seq<Sample>
    decreases |maps|
  {
    if maps == [] then []
    else
      var n := |maps| - 1;
      MapsSamples(descs, values, maps[..n]) + GroupsSamples(descs, values, maps[n].uuid, maps[n].pathGroups)
  }

  /** What one scrape sends: nothing when the command or the decoding fails. */
  function Emitted(descs: Descs, run: CommandRun, values: EnumValues): (r: seq<Sample>)
    ensures run.CommandFailed? ==> r == []
    ensures run.CommandSucceeded? && run.unmarshalled.Err? ==> r == []
  {
    match run
    case CommandFailed => []
    case CommandSucceeded(Err(_)) => []
    case CommandSucceeded(Ok(status)) => MapsSamples(descs, values, status.maps)
  }

  /** Sending one more path's three blocks extends what the paths before it sent. */
  lemma PathsSamplesStep(done: seq<Sample>, descs: Descs, values: EnumValues, groupLabels: seq<string>, paths: seq<GoPath.Alias>, k: nat)
    requires k < |paths|
    ensures var p := paths[k];
      var labels := PathLabels(groupLabels, p);
      done + PathsSamples(descs, values, groupLabels, paths[..k])
        + OneHot(descs.pathDm, p.deviceMapperState, values.pathDeviceMapperState, labels)
        + OneHot(descs.pathDev, p.deviceState, values.deviceState, labels)
        + OneHot(descs.pathChk, p.checkerState, values.pathCheckerState, labels)
      == done + PathsSamples(descs, values, groupLabels, paths[..k + 1])
  {
    assert paths[..k + 1][..k] == paths[..k];
  }

  /** A group's block followed by its paths' samples is what the group sends. */
  lemma GroupSamplesSplit(done: seq<Sample>, descs: Descs, values: EnumValues, uuid: string, g: PathGroup)
    ensures done + GroupBlock(descs, values, uuid, g) + PathsSamples(descs, values, GroupLabels(uuid, g), g.paths)
      == done + GroupSamples(descs, values, uuid, g)
  {
  }

  /** Sending one more group extends what the groups before it sent. */
  lemma GroupsSamplesStep(done: seq<Sample>, descs: Descs, values: EnumValues, uuid: string, groups: seq<PathGroup>, j: nat)
    requires j < |groups|
    ensures done + GroupsSamples(descs, values, uuid, groups[..j]) + GroupSamples(descs, values, uuid, groups[j]) ==
      done + GroupsSamples(descs, values, uuid, groups[..j + 1])
  {
    assert groups[..j + 1][..j] == groups[..j];
  }

  /** Sending one more map extends what the maps before it sent. */
  lemma MapsSamplesStep(descs: Descs, values: EnumValues, maps: seq<Map>, i: nat)
    requires i < |maps|
    ensures MapsSamples(descs, values, maps[..i]) + GroupsSamples(descs, values, maps[i].uuid, maps[i].pathGroups) ==
      MapsSamples(descs, values, maps[..i + 1])
  {
    assert maps[..i + 1][..i] == maps[..i];
  }

  // ---------------------------------------------------------------------------
  // Properties of the walk

  /** A group's own block comes first, and a group without paths sends its
      block and nothing else. */
  lemma GroupBlockFirst(descs: Descs, values: EnumValues, uuid: string, g: PathGroup)
    ensures var r := GroupSamples(descs, values, uuid, g);
      |r| >= |values.pathGroupDeviceMapperState| && r[..|values.pathGroupDeviceMapperState|] == GroupBlock(descs, values, uuid, g)
    ensures g.paths == [] ==> GroupSamples(descs, values, uuid, g) == GroupBlock(descs, values, uuid, g)
  {
    var b := GroupBlock(descs, values, uuid, g);
    OneHotShape(descs.group, g.deviceMapperState, values.pathGroupDeviceMapperState, GroupLabels(uuid, g));
    assert (b + PathsSamples(descs, values, GroupLabels(uuid, g), g.paths))[..|b|] == b;
  }

  lemma MulSucc(n: nat, w: nat)
    ensures (n + 1) * w == n * w + w
  {
  }

  /** How many samples a run of paths sends. */
  lemma {:induction false} PathsSamplesCount(descs: Descs, values: EnumValues, groupLabels: seq<string>, paths: seq<GoPath.Alias>)
    ensures |PathsSamples(descs, values, groupLabels, paths)| ==
      |paths| * (|values.pathDeviceMapperState| + |values.deviceState| + |values.pathCheckerState|)
    decreases |paths|
  {
    if paths != [] {
      var n := |paths| - 1;
      var p := paths[n];
      var labels := PathLabels(groupLabels, p);
      PathsSamplesCount(descs, values, groupLabels, paths[..n]);
      OneHotShape(descs.pathDm, p.deviceMapperState, values.pathDeviceMapperState, labels);
      OneHotShape(descs.pathDev, p.deviceState, values.deviceState, labels);
      OneHotShape(descs.pathChk, p.checkerState, values.pathCheckerState, labels);
      var w := |values.pathDeviceMapperState| + |values.deviceState| + |values.pathCheckerState|;
      assert |PathSamples(descs, values, groupLabels, p)| == w;
      MulSucc(n, w);
    }
  }

  /** A sample carries `missing` label values more than its descriptor
      declares names for; `prometheus.MustNewConstMetric` accepts only 0. */
  predicate LabelArity(s: Sample, missing: nat)
  {
    |s.labels| == |s.desc.variableLabels| + missing
  }

  /** Every sample's value is 0 or 1, and each carries `missing` label values
      more than its descriptor declares. */
  predicate WellShaped(samples: seq<Sample>, missing: nat)
  {
    forall i :: 0 <= i < |samples| ==> (samples[i].value == 0 || samples[i].value == 1) && LabelArity(samples[i], missing)
  }

  lemma WellShapedAppend(a: seq<Sample>, b: seq<Sample>, missing: nat)
    requires WellShaped(a, missing) && WellShaped(b, missing)
    ensures WellShaped(a + b, missing)
  {
    forall i | 0 <= i < |a + b|
      ensures ((a + b)[i].value == 0 || (a + b)[i].value == 1) && LabelArity((a + b)[i], missing)
    {
      if i >= |a| { assert (a + b)[i] == b[i - |a|]; }
    }
  }

  lemma OneHotWellShaped(desc: Collector.Desc, current: string, allStates: seq<string>, labelValues: seq<string>, missing: nat)
    requires |labelValues| + 1 == |desc.variableLabels| + missing
    ensures WellShaped(OneHot(desc, current, allStates, labelValues), missing)
  {
    OneHotShape(desc, current, allStates, labelValues);
  }

  lemma {:induction false} PathsWellShaped(descs: Descs, values: EnumValues, groupLabels: seq<string>, paths: seq<GoPath.Alias>, tail: seq<string>)
    requires DeclaresLabels(descs, tail) && |tail| <= 1 && |groupLabels| == |Collector.PATH_GROUP_LABELS|
    ensures WellShaped(PathsSamples(descs, values, groupLabels, paths), 1 - |tail|)
    decreases |paths|
  {
    if paths != [] {
      var n := |paths| - 1;
      var p := paths[n];
      var labels := PathLabels(groupLabels, p);
      var missing := 1 - |tail|;
      PathsWellShaped(descs, values, groupLabels, paths[..n], tail);
      OneHotWellShaped(descs.pathDm, p.deviceMapperState, values.pathDeviceMapperState, labels, missing);
      OneHotWellShaped(descs.pathDev, p.deviceState, values.deviceState, labels, missing);
      OneHotWellShaped(descs.pathChk, p.checkerState, values.pathCheckerState, labels, missing);
      WellShapedAppend(
        OneHot(descs.pathDm, p.deviceMapperState, values.pathDeviceMapperState, labels),
        OneHot(descs.pathDev, p.deviceState, values.deviceState, labels), missing);
      WellShapedAppend(
        OneHot(descs.pathDm, p.deviceMapperState, values.pathDeviceMapperState, labels)
        + OneHot(descs.pathDev, p.deviceState, values.deviceState, labels),
        OneHot(descs.pathChk, p.checkerState, values.pathCheckerState, labels), missing);
      WellShapedAppend(PathsSamples(descs, values, groupLabels, paths[..n]), PathSamples(descs, values, groupLabels, p), missing);
    }
  }

  lemma {:induction false} GroupsWellShaped(descs: Descs, values: EnumValues, uuid: string, groups: seq<PathGroup>, tail: seq<string>)
    requires DeclaresLabels(descs, tail) && |tail| <= 1
    ensures WellShaped(GroupsSamples(descs, values, uuid, groups), 1 - |tail|)
    decreases |groups|
  {
    if groups != [] {
      var n := |groups| - 1;
      var g := groups[n];
      var missing := 1 - |tail|;
      GroupsWellShaped(descs, values, uuid, groups[..n], tail);
      OneHotWellShaped(descs.group, g.deviceMapperState, values.pathGroupDeviceMapperState, GroupLabels(uuid, g), missing);
      PathsWellShaped(descs, values, GroupLabels(uuid, g), g.paths, tail);
      WellShapedAppend(GroupBlock(descs, values, uuid, g), PathsSamples(descs, values, GroupLabels(uuid, g), g.paths), missing);
      WellShapedAppend(GroupsSamples(descs, values, uuid, groups[..n]), GroupSamples(descs, values, uuid, g), missing);
    }
  }

  /** Over a whole scrape, every value is 0 or 1, and every sample carries one
      label value more than its descriptors declare when they declare none
      for the state, and exactly as many when they declare it. */
  lemma {:induction false} MapsWellShaped(descs: Descs, values: EnumValues, maps: seq<Map>, tail: seq<string>)
    requires DeclaresLabels(descs, tail) && |tail| <= 1
    ensures WellShaped(MapsSamples(descs, values, maps), 1 - |tail|)
    decreases |maps|
  {
    if maps != [] {
      var n := |maps| - 1;
      MapsWellShaped(descs, values, maps[..n], tail);
      GroupsWellShaped(descs, values, maps[n].uuid, maps[n].pathGroups, tail);
      WellShapedAppend(MapsSamples(descs, values, maps[..n]), GroupsSamples(descs, values, maps[n].uuid, maps[n].pathGroups), 1 - |tail|);
    }
  }

  /** As written, every sample a successful scrape sends has one label value
      more than its descriptor has names, so `MustNewConstMetric` panics on
      the first one: a scrape with at least one group never completes. */
  lemma AsWrittenLabelsMismatch(run: CommandRun, values: EnumValues, i: int)
    requires 0 <= i < |Emitted(Descriptors(), run, values)|
    ensures var s := Emitted(Descriptors(), run, values)[i];
      |s.labels| == |s.desc.variableLabels| + 1
  {
    DescriptorsDeclareLabels();
    MapsWellShaped(Descriptors(), values, run.unmarshalled.value.maps, []);
  }

  /** A document with one map of one group already mismatches: its first
      sample has three label values for two label names. */
  lemma AsWrittenFirstSampleMismatch(uuid: string, g: PathGroup, maps: seq<Map>, run: CommandRun, values: EnumValues)
    requires |values.pathGroupDeviceMapperState| >= 1
    requires maps == [Map(uuid, [g])] && run == CommandSucceeded(Ok(Status(0, 0, maps)))
    ensures |Emitted(Descriptors(), run, values)| >= 1
    ensures |Emitted(Descriptors(), run, values)[0].labels| == 3
    ensures |Emitted(Descriptors(), run, values)[0].desc.variableLabels| == 2
  {
    var descs := Descriptors();
    assert maps[..0] == [];
    assert [g][..0] == [];
    GroupBlockFirst(descs, values, uuid, g);
    OneHotShape(descs.group, g.deviceMapperState, values.pathGroupDeviceMapperState, GroupLabels(uuid, g));
    assert GroupsSamples(descs, values, uuid, [g]) == [] + GroupSamples(descs, values, uuid, g);
    assert MapsSamples(descs, values, maps) == [] + GroupsSamples(descs, values, uuid, [g]);
  }

  /** With the corrected descriptors, every sample a scrape sends has exactly
      as many label values as its descriptor has names. */
  lemma CorrectedLabelsMatch(run: CommandRun, values: EnumValues, i: int)
    requires 0 <= i < |Emitted(CorrectedDescriptors(), run, values)|
    ensures var s := Emitted(CorrectedDescriptors(), run, values)[i];
      |s.labels| == |s.desc.variableLabels| && (s.value == 0 || s.value == 1)
  {
    DescriptorsDeclareLabels();
    MapsWellShaped(CorrectedDescriptors(), values, run.unmarshalled.value.maps, [STATE_LABEL]);
  }

  /** Each path's samples are labelled with its map's UUID, its group's index
      in base 10, its target WWNN and its device name, then the state; the
      device-mapper block comes first, then the device block, then the checker
      block. */
  lemma PathSampleLabels(descs: Descs, values: EnumValues, uuid: string, g: PathGroup, p: GoPath.Alias, i: int)
    requires 0 <= i < |PathSamples(descs, values, GroupLabels(uuid, g), p)|
    ensures var s := PathSamples(descs, values, GroupLabels(uuid, g), p)[i];
      |s.labels| == 5 && s.labels[..4] == [uuid, NatToString(g.group), p.targetWwnn, p.deviceName]
    ensures var s := PathSamples(descs, values, GroupLabels(uuid, g), p)[i];
      var a := |values.pathDeviceMapperState|;
      var b := |values.deviceState|;
      s.desc == (if i < a then descs.pathDm else if i < a + b then descs.pathDev else descs.pathChk)
  {
    var labels := PathLabels(GroupLabels(uuid, g), p);
    var a := OneHot(descs.pathDm, p.deviceMapperState, values.pathDeviceMapperState, labels);
    var b := OneHot(descs.pathDev, p.deviceState, values.deviceState, labels);
    var c := OneHot(descs.pathChk, p.checkerState, values.pathCheckerState, labels);
    OneHotShape(descs.pathDm, p.deviceMapperState, values.pathDeviceMapperState, labels);
    OneHotShape(descs.pathDev, p.deviceState, values.deviceState, labels);
    OneHotShape(descs.pathChk, p.checkerState, values.pathCheckerState, labels);
    var s := (a + b + c)[i];
    if i < |a| {
      assert s == a[i];
    } else if i < |a| + |b| {
      assert s == b[i - |a|];
    } else {
      assert s == c[i - |a| - |b|];
    }
    assert s.labels[..4] == labels;
  }

  /** Distinct group indexes give distinct group labels. */
  lemma GroupLabelsDistinct(uuid: string, g: PathGroup, h: PathGroup)
    requires g.group != h.group
    ensures GroupLabels(uuid, g) != GroupLabels(uuid, h)
  {
    NatToStringInjective(g.group, h.group);
  }

  // ---------------------------------------------------------------------------
  // The collector

  /** `MultipathCollector`: its four descriptors are fixed when it is built. */
  class MultipathCollector {
    const pathGroupDeviceMapperState: Collector.Desc
    const pathDeviceMapperState: Collector.Desc
    const pathDeviceState: Collector.Desc
    const pathCheckerState: Collector.Desc

    /** The descriptor the collector holds for a dimension. */
    function DescOf(metric: Collector.Metric): Collector.Desc
    {
      match metric
      case GroupDm => pathGroupDeviceMapperState
      case PathDm => pathDeviceMapperState
      case PathDev => pathDeviceState
      case PathChk => pathCheckerState
    }

    /** The four descriptors, as one record. */
    function AllDescs(): Descs
    {
      Descs(pathGroupDeviceMapperState, pathDeviceMapperState, pathDeviceState, pathCheckerState)
    }

    /** `NewMultipathCollector`: one descriptor per dimension, with the
        state label declared last (see `CorrectedDescriptor`). */
    constructor ()
      ensures forall metric: Collector.Metric :: DescOf(metric) == CorrectedDescriptor(metric)
      ensures AllDescs() == CorrectedDescriptors() && DeclaresLabels(AllDescs(), [STATE_LABEL])
    {
      pathGroupDeviceMapperState := CorrectedDescriptor(Collector.GroupDm);
      pathDeviceMapperState := CorrectedDescriptor(Collector.PathDm);
      pathDeviceState := CorrectedDescriptor(Collector.PathDev);
      pathCheckerState := CorrectedDescriptor(Collector.PathChk);
      DescriptorsDeclareLabels();
    }

    /** `Describe`: the four descriptors, in the order of the dimensions. */
    method Describe() returns (ch: seq<Collector.Desc>)
      ensures |ch| == Collector.METRICS_NUMBER
      ensures forall metric: Collector.Metric :: ch[metric.Index()] == DescOf(metric)
    {
      ch := [];
      ch := ch + [pathGroupDeviceMapperState];
      ch := ch + [pathDeviceMapperState];
      ch := ch + [pathDeviceState];
      ch := ch + [pathCheckerState];
    }

    /** `Collect`: nothing when the command or the decoding fails; otherwise,
        for each map, each of its groups in order sends its path-group block
        and then, for each of its paths, the device-mapper, device and checker
        blocks. */
    method Collect(run: CommandRun, values: EnumValues) returns (ch: seq<Sample>)
      ensures ch == Emitted(AllDescs(), run, values)
    {
      ch := [];
      if run.CommandFailed? {
        return;
      }
      if run.unmarshalled.Err? {
        return;
      }
      var result := run.unmarshalled.value;
      var maps := result.maps;
      ghost var descs := AllDescs();
      for i := 0 to |maps|
        invariant ch == MapsSamples(descs, values, maps[..i])
      {
        var map_ := maps[i];
        ghost var beforeMap := ch;
        assert map_.pathGroups[..0] == [];
        for j := 0 to |map_.pathGroups|
          invariant ch == beforeMap + GroupsSamples(descs, values, map_.uuid, map_.pathGroups[..j])
        {
          var pathGroup := map_.pathGroups[j];
          ghost var beforeGroup := ch;
          var groupText := NatToString(pathGroup.group);
          ch := EmitEnumStateMetric(ch, pathGroupDeviceMapperState, pathGroup.deviceMapperState,
            values.pathGroupDeviceMapperState, [map_.uuid, groupText]);
          ghost var afterBlock := ch;
          assert GroupLabels(map_.uuid, pathGroup) == [map_.uuid, groupText];
          assert pathGroup.paths[..0] == [];
          for k := 0 to |pathGroup.paths|
            invariant ch == afterBlock + PathsSamples(descs, values, GroupLabels(map_.uuid, pathGroup), pathGroup.paths[..k])
          {
            var path := pathGroup.paths[k];
            assert PathLabels(GroupLabels(map_.uuid, pathGroup), path) == [map_.uuid, groupText, path.targetWwnn, path.deviceName];
            ch := EmitEnumStateMetric(ch, pathDeviceMapperState, path.deviceMapperState,
              values.pathDeviceMapperState, [map_.uuid, groupText, path.targetWwnn, path.deviceName]);
            ch := EmitEnumStateMetric(ch, pathDeviceState, path.deviceState,
              values.deviceState, [map_.uuid, groupText, path.targetWwnn, path.deviceName]);
            ch := EmitEnumStateMetric(ch, pathCheckerState, path.checkerState,
              values.pathCheckerState, [map_.uuid, groupText, path.targetWwnn, path.deviceName]);
            PathsSamplesStep(afterBlock, descs, values, GroupLabels(map_.uuid, pathGroup), pathGroup.paths, k);
          }
          assert pathGroup.paths[..|pathGroup.paths|] == pathGroup.paths;
          GroupSamplesSplit(beforeGroup, descs, values, map_.uuid, pathGroup);
          GroupsSamplesStep(beforeMap, descs, values, map_.uuid, map_.pathGroups, j);
        }
        assert map_.pathGroups[..|map_.pathGroups|] == map_.pathGroups;
        MapsSamplesStep(descs, values, maps, i);
        assert ch == MapsSamples(descs, values, maps[..i + 1]);
      }
      assert maps[..|maps|] == maps;
    }
  }
}
