/** The Rust exporter's collector: four gauge vectors that every scrape clears
    and refills from the decoded multipathd document, one series per label
    tuple, each holding the ordinal of a state enum. */
module Collector {
  import opened Wrappers
  import opened Numbers
  import opened Json
  import opened Common
  import opened Path
  import opened PathGroup
  import opened Map
  import opened Multipathd

  // ---------------------------------------------------------------------------
  // Help text

  /** `join(sep)`: the parts with `sep` between each two of them. */
  function Join(parts: seq<string>, sep: string): string
    decreases |parts|
  {
    if parts == [] then ""
    else if |parts| == 1 then parts[0]
    else parts[0] + sep + Join(parts[1..], sep)
  }

  /** The legend entries of an enum: each display name lower-cased, " = " and
      its position in declaration order. */
  function Legend(names: seq<string>): (r: seq<string>)
    ensures |r| == |names|
  {
    seq(|names|, i requires 0 <= i < |names| => Lower(names[i]) + " = " + NatToString(i))
  }

  /** `generate_enum_help`: the enum's name and its legend in parentheses. */
  function EnumHelp(enumName: string, names: seq<string>): string
  {
    enumName + " (" + Join(Legend(names), ", ") + ")"
  }

  // ---------------------------------------------------------------------------
  // The four gauges

  /** The four gauge vectors, named after the wire key whose state each carries. */
  datatype Metric = GroupDm | PathDm | PathDev | PathChk

  {
    /** The position of the gauge in what `desc` and `collect` return. */
    function Index(): nat
    {
      match this
      case GroupDm => 0
      case PathDm => 1
      case PathDev => 2
      case PathChk => 3
    }
  }

  /** `METRICS_NUMBER`: how many gauges the collector has. */
  const METRICS_NUMBER := 4

  /** The gauge at a position of what `desc` and `collect` return. */
  function MetricAt(i: nat): (metric: Metric)
    requires i < METRICS_NUMBER
    ensures metric.Index() == i
  {
    if i == 0 then GroupDm else if i == 1 then PathDm else if i == 2 then PathDev else PathChk
  }

  /** Every gauge sits at its own position. */
  lemma MetricAtIndex(metric: Metric)
    ensures metric.Index() < METRICS_NUMBER && MetricAt(metric.Index()) == metric
  {
  }

  const NAMESPACE := "multipathd"
  const PATH_GROUP_LABELS: seq<string> := ["map", "group"]
  const PATH_LABELS: seq<string> := PATH_GROUP_LABELS + ["target_wwnn", "dev"]

  /** A metric descriptor: its fully qualified name, help text and label names. */
  datatype Desc = Desc(fqName: string, help: string, variableLabels: seq<string>)

  /** A gathered family: its descriptor and its series, label values to value. */
  datatype MetricFamily = MetricFamily(desc: Desc, series: map<seq<string>, int>)

  /** The name of a metric with both a namespace and a subsystem. */
  function FqName(namespace: string, subsystem: string, name: string): string
  {
    namespace + "_" + subsystem + "_" + name
  }

  /** The display names of an enum, in declaration order. */
  function Names<E>(variants: seq<E>, name: E -> string): (r: seq<string>)
    ensures |r| == |variants|
  {
    seq(|variants|, i requires 0 <= i < |variants| => name(variants[i]))
  }

  /** The display names of the state enum a metric publishes. */
  function StateNames(metric: Metric): seq<string>
  {
    match metric
    case GroupDm => Names(PATH_GROUP_DM_VARIANTS, (v: PathGroupDeviceMapperState) => v.Name())
    case PathDm => Names(PATH_DM_VARIANTS, (v: PathDeviceMapperState) => v.Name())
    case PathDev => Names(DEVICE_STATE_VARIANTS, (v: DeviceState) => v.Name())
    case PathChk => Names(PATH_CHECKER_STATE_VARIANTS, (v: PathCheckerState) => v.Name())
  }

  /** The label names of a gauge vector: `path_group_labels` for the path-group
      gauge, `path_labels` for the three path gauges. */
  function LabelNames(metric: Metric): seq<string>
  {
    if metric == GroupDm then PATH_GROUP_LABELS else PATH_LABELS
  }

  /** The enum name `new` passes to `generate_enum_help` for each gauge. */
  function HelpName(metric: Metric): string
  {
    match metric
    case GroupDm => "dm_st"
    case PathDm => "dm_st"
    case PathDev => "dev_st"
    case PathChk => "chk_st"
  }

  /** The help text `new` gives each gauge: `generate_enum_help` of its enum. */
  function Help(metric: Metric): string
  {
    EnumHelp(HelpName(metric), StateNames(metric))
  }

  /** The fully qualified name `new` gives each gauge vector. */
  function MetricName(metric: Metric): string
  {
    match metric
    case GroupDm => FqName(NAMESPACE, "path_group", "device_mapper_state")
    case PathDm => FqName(NAMESPACE, "path", "device_mapper_state")
    case PathDev => FqName(NAMESPACE, "path", "device_state")
    case PathChk => FqName(NAMESPACE, "path", "checker_state")
  }

  /** The descriptor `new` gives each gauge vector. */
  function Descriptor(metric: Metric): Desc
  {
    Desc(MetricName(metric), Help(metric), LabelNames(metric))
  }

  /** The fully qualified names the exporter publishes. */
  lemma GroupDmName()
    ensures MetricName(GroupDm) == "multipathd_path_group_device_mapper_state"
  {
  }

  lemma PathDmName()
    ensures MetricName(PathDm) == "multipathd_path_device_mapper_state"
  {
  }

  lemma PathDevName()
    ensures MetricName(PathDev) == "multipathd_path_device_state"
  {
  }

  lemma PathChkName()
    ensures MetricName(PathChk) == "multipathd_path_checker_state"
  {
  }

  /** No two gauges share a name. */
  lemma DescriptorsDistinct(a: Metric, b: Metric)
    requires a != b
    ensures Descriptor(a).fqName != Descriptor(b).fqName
  {
    assert |MetricName(GroupDm)| == 41 && |MetricName(PathDm)| == 35;
    assert |MetricName(PathDev)| == 28 && |MetricName(PathChk)| == 29;
  }

  // ---------------------------------------------------------------------------
  // What one path contributes

  /** One step of the walk: a path together with its group and its map. */
  datatype Row = Row(m: Map, g: PathGroup, p: Path)

  /** The label values a row sets on a metric: ["map", "group"] for the path
      group, then ["target_wwnn", "dev"] for the path gauges. */
  function Labels(metric: Metric, row: Row): (r: seq<string>)
    ensures |r| == |LabelNames(metric)|
  {
    var groupLabels := [row.m.uuid, NatToString(row.g.group)];
    if metric == GroupDm then groupLabels else groupLabels + [row.p.targetWwnn, row.p.deviceName]
  }

  /** The value a row sets: the ordinal of the state the metric carries. */
  function Value(metric: Metric, row: Row): nat
  {
    match metric
    case GroupDm => row.g.deviceMapperState.Ordinal()
    case PathDm => row.p.deviceMapperState.Ordinal()
    case PathDev => row.p.deviceState.Ordinal()
    case PathChk => row.p.checkerState.Ordinal()
  }

  /** The display name of that state. */
  function StateName(metric: Metric, row: Row): string
  {
    match metric
    case GroupDm => row.g.deviceMapperState.Name()
    case PathDm => row.p.deviceMapperState.Name()
    case PathDev => row.p.deviceState.Name()
    case PathChk => row.p.checkerState.Name()
  }

  /** The help of every gauge documents the value it publishes: the legend entry
      at that value names the state, lower-cased. */
  lemma HelpDocumentsValue(metric: Metric, row: Row)
    ensures Value(metric, row) < |Legend(StateNames(metric))|
    ensures Legend(StateNames(metric))[Value(metric, row)] ==
      Lower(StateName(metric, row)) + " = " + NatToString(Value(metric, row))
  {
    match metric
    case GroupDm => PathGroupDeviceMapperStateOrder();
    case PathDm => PathDeviceMapperStateOrder();
    case PathDev => DeviceStateOrder();
    case PathChk => PathCheckerStateOrder();
  }

  /** The legends `new` builds, written out (the eight-state checker legend
      only where the display names are not single words). */
  lemma GroupDmLegend()
    ensures Legend(StateNames(GroupDm)) == ["active = 0", "enabled = 1", "disabled = 2", "undefined = 3"]
  {
    var names := StateNames(GroupDm);
    assert names == ["Active", "Enabled", "Disabled", "Undefined"];
    assert Lower("Active") == "active";
    assert Lower("Enabled") == "enabled";
    assert Lower("Disabled") == "disabled";
    assert Lower("Undefined") == "undefined";
    var legend := Legend(names);
    assert NatToString(0) == "0" && legend[0] == "active = 0";
    assert NatToString(1) == "1" && legend[1] == "enabled = 1";
    assert NatToString(2) == "2" && legend[2] == "disabled = 2";
    assert NatToString(3) == "3" && legend[3] == "undefined = 3";
  }

  lemma PathDmLegend()
    ensures Legend(StateNames(PathDm)) == ["active = 0", "failed = 1", "undefined = 2"]
  {
    var names := StateNames(PathDm);
    assert names == ["Active", "Failed", "Undefined"];
    assert Lower("Active") == "active";
    assert Lower("Failed") == "failed";
    assert Lower("Undefined") == "undefined";
    var legend := Legend(names);
    assert NatToString(0) == "0" && legend[0] == "active = 0";
    assert NatToString(1) == "1" && legend[1] == "failed = 1";
    assert NatToString(2) == "2" && legend[2] == "undefined = 2";
  }

  lemma PathDevLegend()
    ensures Legend(StateNames(PathDev)) == ["running = 0", "offline = 1", "unknown = 2"]
  {
    var names := StateNames(PathDev);
    assert names == ["Running", "Offline", "Unknown"];
    assert Lower("Running") == "running";
    assert Lower("Offline") == "offline";
    assert Lower("Unknown") == "unknown";
    var legend := Legend(names);
    assert NatToString(0) == "0" && legend[0] == "running = 0";
    assert NatToString(1) == "1" && legend[1] == "offline = 1";
    assert NatToString(2) == "2" && legend[2] == "unknown = 2";
  }

  lemma PathChkLegend()
    ensures |Legend(StateNames(PathChk))| == 8
    ensures Legend(StateNames(PathChk))[5] == "iopending = 5"
    ensures Legend(StateNames(PathChk))[6] == "iotimeout = 6"
  {
    var names := StateNames(PathChk);
    assert names[5] == "IoPending" && names[6] == "IoTimeout";
    assert Lower("IoPending") == "iopending";
    assert Lower("IoTimeout") == "iotimeout";
    assert NatToString(5) == "5" && NatToString(6) == "6";
  }

  // ---------------------------------------------------------------------------
  // The walk, as a specification

  /** The rows of the paths of group `g` of map `m`, in order. */
  function PathRows(m: Map, g: PathGroup, paths: seq<Path>): (r: seq<Row>)
    ensures |r| == |paths|
    decreases |paths|
  {
    if paths == [] then [] else PathRows(m, g, paths[..|paths| - 1]) + [Row(m, g, paths[|paths| - 1])]
  }

  /** The rows of the groups of map `m`, group after group. */
  function GroupRows(m: Map, groups: seq<PathGroup>): seq<Row>
    decreases |groups|
  {
    if groups == [] then []
    else
      var g := groups[|groups| - 1];
      GroupRows(m, groups[..|groups| - 1]) + PathRows(m, g, g.paths)
  }

  /** The rows of a sequence of maps, map after map. */
  function MapRows(maps: seq<Map>): seq<Row>
    decreases |maps|
  {
    if maps == [] then []
    else
      var m := maps[|maps| - 1];
      MapRows(maps[..|maps| - 1]) + GroupRows(m, m.pathGroups)
  }

  /** Setting the rows of one more path extends the walk of a group's prefix. */
  lemma PathRowsStep(done: seq<Row>, m: Map, g: PathGroup, k: nat)
    requires k < |g.paths|
    ensures done + PathRows(m, g, g.paths[..k]) + [Row(m, g, g.paths[k])] == done + PathRows(m, g, g.paths[..k + 1])
  {
    assert g.paths[..k + 1][..k] == g.paths[..k];
  }

  /** Setting the rows of one more group extends the walk of a map's prefix. */
  lemma GroupRowsStep(done: seq<Row>, m: Map, j: nat)
    requires j < |m.pathGroups|
    ensures done + GroupRows(m, m.pathGroups[..j]) + PathRows(m, m.pathGroups[j], m.pathGroups[j].paths) ==
      done + GroupRows(m, m.pathGroups[..j + 1])
  {
    assert m.pathGroups[..j + 1][..j] == m.pathGroups[..j];
  }

  /** Setting the rows of one more map extends the walk of a document's prefix. */
  lemma MapRowsStep(maps: seq<Map>, i: nat)
    requires i < |maps|
    ensures MapRows(maps[..i]) + GroupRows(maps[i], maps[i].pathGroups) == MapRows(maps[..i + 1])
  {
    assert maps[..i + 1][..i] == maps[..i];
  }

  /** The series a metric holds after setting each row in turn: a later row
      with the same labels overwrites an earlier one. */
  function Series(rows: seq<Row>, metric: Metric): map<seq<string>, int>
    decreases |rows|
  {
    if rows == [] then map[]
    else
      var last := rows[|rows| - 1];
      Series(rows[..|rows| - 1], metric)[Labels(metric, last) := Value(metric, last)]
  }

  /** Every tuple in the series is set by some row. */
  lemma {:induction false} SeriesKeySound(rows: seq<Row>, metric: Metric, key: seq<string>)
    requires key in Series(rows, metric)
    ensures exists i :: 0 <= i < |rows| && Labels(metric, rows[i]) == key
    decreases |rows|
  {
    var front := rows[..|rows| - 1];
    if key != Labels(metric, rows[|rows| - 1]) {
      SeriesKeySound(front, metric, key);
      var i :| 0 <= i < |front| && Labels(metric, front[i]) == key;
      assert rows[i] == front[i];
    }
  }

  /** Every row's tuple is in the series. */
  lemma {:induction false} SeriesKeyComplete(rows: seq<Row>, metric: Metric, i: nat)
    requires i < |rows|
    ensures Labels(metric, rows[i]) in Series(rows, metric)
    decreases |rows|
  {
    if i < |rows| - 1 {
      var front := rows[..|rows| - 1];
      assert front[i] == rows[i];
      SeriesKeyComplete(front, metric, i);
    }
  }

  /** The series hold exactly the label tuples some row sets. */
  lemma SeriesKeys(rows: seq<Row>, metric: Metric)
    ensures Series(rows, metric).Keys == set i | 0 <= i < |rows| :: Labels(metric, rows[i])
  {
    forall key | key in Series(rows, metric) ensures key in set i | 0 <= i < |rows| :: Labels(metric, rows[i]) {
      SeriesKeySound(rows, metric, key);
    }
    forall i | 0 <= i < |rows| ensures Labels(metric, rows[i]) in Series(rows, metric) {
      SeriesKeyComplete(rows, metric, i);
    }
  }

  /** Last write wins: a tuple holds the value of the last row that sets it. */
  lemma {:induction false} SeriesLastWriteWins(rows: seq<Row>, metric: Metric, i: nat)
    requires i < |rows|
    requires forall k :: i < k < |rows| ==> Labels(metric, rows[k]) != Labels(metric, rows[i])
    ensures Labels(metric, rows[i]) in Series(rows, metric)
    ensures Series(rows, metric)[Labels(metric, rows[i])] == Value(metric, rows[i])
    decreases |rows|
  {
    if i < |rows| - 1 {
      var front := rows[..|rows| - 1];
      assert front[i] == rows[i];
      forall k | i < k < |front| ensures Labels(metric, front[k]) != Labels(metric, front[i]) {
        assert front[k] == rows[k];
      }
      SeriesLastWriteWins(front, metric, i);
      assert Labels(metric, rows[|rows| - 1]) != Labels(metric, rows[i]);
    }
  }

  /** Every tuple a row sets has as many values as the gauge has labels, and
      every value is an ordinal the help documents. */
  lemma {:induction false} SeriesWellFormed(rows: seq<Row>, metric: Metric)
    ensures forall key :: key in Series(rows, metric) ==>
      |key| == |LabelNames(metric)| &&
      0 <= Series(rows, metric)[key] < |Legend(StateNames(metric))|
    decreases |rows|
  {
    if rows != [] {
      SeriesWellFormed(rows[..|rows| - 1], metric);
      HelpDocumentsValue(metric, rows[|rows| - 1]);
    }
  }

  /** A row is in the walk of group `g` exactly when its path is one of `g`'s. */
  lemma {:induction false} PathRowsMembers(m: Map, g: PathGroup, paths: seq<Path>, r: Row)
    ensures r in PathRows(m, g, paths) <==> exists k :: 0 <= k < |paths| && r == Row(m, g, paths[k])
    decreases |paths|
  {
    if paths != [] {
      var front := paths[..|paths| - 1];
      PathRowsMembers(m, g, front, r);
      if exists k :: 0 <= k < |paths| && r == Row(m, g, paths[k]) {
        var k :| 0 <= k < |paths| && r == Row(m, g, paths[k]);
        if k < |front| { assert front[k] == paths[k]; }
      }
      if exists k :: 0 <= k < |front| && r == Row(m, g, front[k]) {
        var k :| 0 <= k < |front| && r == Row(m, g, front[k]);
        assert paths[k] == front[k];
      }
    }
  }

  /** A row is in the walk of map `m`'s groups exactly when it pairs one of
      those groups with one of its paths. */
  lemma {:induction false} GroupRowsMembers(m: Map, groups: seq<PathGroup>, r: Row)
    ensures r in GroupRows(m, groups) <==>
      exists j, k :: 0 <= j < |groups| && 0 <= k < |groups[j].paths| && r == Row(m, groups[j], groups[j].paths[k])
    decreases |groups|
  {
    if groups != [] {
      var front := groups[..|groups| - 1];
      var g := groups[|groups| - 1];
      GroupRowsMembers(m, front, r);
      PathRowsMembers(m, g, g.paths, r);
      if exists j, k :: 0 <= j < |groups| && 0 <= k < |groups[j].paths| && r == Row(m, groups[j], groups[j].paths[k]) {
        var j, k :| 0 <= j < |groups| && 0 <= k < |groups[j].paths| && r == Row(m, groups[j], groups[j].paths[k]);
        if j < |front| { assert front[j] == groups[j]; }
      }
      if exists j, k :: 0 <= j < |front| && 0 <= k < |front[j].paths| && r == Row(m, front[j], front[j].paths[k]) {
        var j, k :| 0 <= j < |front| && 0 <= k < |front[j].paths| && r == Row(m, front[j], front[j].paths[k]);
        assert groups[j] == front[j];
      }
      if exists k :: 0 <= k < |g.paths| && r == Row(m, g, g.paths[k]) {
        var k :| 0 <= k < |g.paths| && r == Row(m, g, g.paths[k]);
        assert groups[|groups| - 1] == g;
      }
    }
  }

  /** Every row of the walk of a document's maps is a path of a group of one of them. */
  lemma {:induction false} MapRowsSound(maps: seq<Map>, r: Row)
    requires r in MapRows(maps)
    ensures InWalk(maps, r)
    decreases |maps|
  {
    var front := maps[..|maps| - 1];
    var m := maps[|maps| - 1];
    if r in MapRows(front) {
      MapRowsSound(front, r);
      var i, j, k :| InWalkAt(front, r, i, j, k);
      assert maps[i] == front[i];
      assert InWalkAt(maps, r, i, j, k);
    } else {
      GroupRowsMembers(m, m.pathGroups, r);
      var j, k :| 0 <= j < |m.pathGroups| && 0 <= k < |m.pathGroups[j].paths| &&
        r == Row(m, m.pathGroups[j], m.pathGroups[j].paths[k]);
      assert InWalkAt(maps, r, |maps| - 1, j, k);
    }
  }

  /** Path `k` of group `j` of map `i` is a row of the walk. */
  lemma {:induction false} MapRowsComplete(maps: seq<Map>, r: Row, i: int, j: int, k: int)
    requires InWalkAt(maps, r, i, j, k)
    ensures r in MapRows(maps)
    decreases |maps|
  {
    var front := maps[..|maps| - 1];
    var m := maps[|maps| - 1];
    if i < |maps| - 1 {
      assert front[i] == maps[i];
      assert InWalkAt(front, r, i, j, k);
      MapRowsComplete(front, r, i, j, k);
    } else {
      GroupRowsMembers(m, m.pathGroups, r);
    }
  }

  /** A row is in the walk of a document's maps exactly when it is a path of a
      group of one of them. */
  lemma MapRowsMembers(maps: seq<Map>, r: Row)
    ensures r in MapRows(maps) <==> InWalk(maps, r)
  {
    if r in MapRows(maps) {
      MapRowsSound(maps, r);
    }
    if InWalk(maps, r) {
      var i, j, k :| InWalkAt(maps, r, i, j, k);
      MapRowsComplete(maps, r, i, j, k);
    }
  }

  /** Row `r` is path `k` of group `j` of map `i`. */
  predicate InWalkAt(maps: seq<Map>, r: Row, i: int, j: int, k: int)
  {
    0 <= i < |maps| && 0 <= j < |maps[i].pathGroups| && 0 <= k < |maps[i].pathGroups[j].paths| &&
    r == Row(maps[i], maps[i].pathGroups[j], maps[i].pathGroups[j].paths[k])
  }

  ghost predicate InWalk(maps: seq<Map>, r: Row)
  {
    exists i, j, k :: InWalkAt(maps, r, i, j, k)
  }

  /** The path-group gauge has a series for a map's group exactly when that
      group has at least one path: a group with no paths is never set. */
  lemma GroupSeriesNeedsPaths(maps: seq<Map>, key: seq<string>)
    ensures key in Series(MapRows(maps), GroupDm) <==>
      exists i, j :: 0 <= i < |maps| && 0 <= j < |maps[i].pathGroups| &&
        |maps[i].pathGroups[j].paths| > 0 && key == [maps[i].uuid, NatToString(maps[i].pathGroups[j].group)]
  {
    var rows := MapRows(maps);
    SeriesKeys(rows, GroupDm);
    if key in Series(rows, GroupDm) {
      var n :| 0 <= n < |rows| && Labels(GroupDm, rows[n]) == key;
      MapRowsMembers(maps, rows[n]);
      var i, j, k :| InWalkAt(maps, rows[n], i, j, k);
      assert |maps[i].pathGroups[j].paths| > 0;
    }
    if exists i, j :: 0 <= i < |maps| && 0 <= j < |maps[i].pathGroups| &&
        |maps[i].pathGroups[j].paths| > 0 && key == [maps[i].uuid, NatToString(maps[i].pathGroups[j].group)] {
      var i, j :| 0 <= i < |maps| && 0 <= j < |maps[i].pathGroups| &&
        |maps[i].pathGroups[j].paths| > 0 && key == [maps[i].uuid, NatToString(maps[i].pathGroups[j].group)];
      var r := Row(maps[i], maps[i].pathGroups[j], maps[i].pathGroups[j].paths[0]);
      assert InWalkAt(maps, r, i, j, 0);
      MapRowsMembers(maps, r);
      var n :| 0 <= n < |rows| && rows[n] == r;
      assert Labels(GroupDm, rows[n]) == key;
    }
  }

  // ---------------------------------------------------------------------------
  // The collector

  /** What running `multipathd show maps json` gave: no process at all, or its
      standard output, which is a JSON document or not. */
  datatype CommandOutput = SpawnFailed | Exited(stdout: Option<Json>)

  /** The document a scrape works on; an error here is a panic in the source. */
  function Scrape(output: CommandOutput): (r: Result<Multipathd>)
    ensures r.Ok? <==> output.Exited? && output.stdout.Some? && DecodeMultipathd(output.stdout.value).Ok?
  {
    match output
    case SpawnFailed => Err("failed to execute command")
    case Exited(stdout) => if stdout.Some? then DecodeMultipathd(stdout.value) else Err("expected value")
  }

  class MultipathdCollector {
    var pathGroupDeviceMapperState: map<seq<string>, int>
    var pathDeviceMapperState: map<seq<string>, int>
    var pathDeviceState: map<seq<string>, int>
    var pathCheckerState: map<seq<string>, int>

    /** The series of one gauge vector. */
    function Vector(metric: Metric): map<seq<string>, int>
      reads this
    {
      match metric
      case GroupDm => pathGroupDeviceMapperState
      case PathDm => pathDeviceMapperState
      case PathDev => pathDeviceState
      case PathChk => pathCheckerState
    }

    /** Each vector holds what `rows` set on it, and nothing else. */
    ghost predicate HoldsSeriesOf(rows: seq<Row>)
      reads this
    {
      pathGroupDeviceMapperState == Series(rows, GroupDm) &&
      pathDeviceMapperState == Series(rows, PathDm) &&
      pathDeviceState == Series(rows, PathDev) &&
      pathCheckerState == Series(rows, PathChk)
    }

    /** The family gathered from one gauge vector. */
    function Family(metric: Metric): MetricFamily
      reads this
    {
      MetricFamily(Descriptor(metric), Vector(metric))
    }

    /** What `collect` hands back: the four families in their fixed order. */
    function Families(): (r: seq<MetricFamily>)
      reads this
      ensures |r| == METRICS_NUMBER
      ensures forall metric: Metric :: metric.Index() < |r| && r[metric.Index()] == Family(metric)
    {
      forall metric: Metric ensures MetricAt(metric.Index()) == metric { MetricAtIndex(metric); }
      seq(METRICS_NUMBER, i requires 0 <= i < METRICS_NUMBER reads this => Family(MetricAt(i)))
    }

    /** `new`: four empty gauge vectors. */
    constructor ()
      ensures HoldsSeriesOf([])
    {
      pathGroupDeviceMapperState := map[];
      pathDeviceMapperState := map[];
      pathDeviceState := map[];
      pathCheckerState := map[];
    }

    /** `desc`: the four descriptors, in the same order as the families. */
    method Desc() returns (ds: seq<Desc>)
      ensures |ds| == METRICS_NUMBER
      ensures forall metric: Metric :: metric.Index() < |ds| && ds[metric.Index()] == Descriptor(metric)
    {
      ds := seq(METRICS_NUMBER, i requires 0 <= i < METRICS_NUMBER => Descriptor(MetricAt(i)));
      forall metric: Metric ensures MetricAt(metric.Index()) == metric { MetricAtIndex(metric); }
    }

    /** Sets the four series of one row. */
    method SetRow(ghost done: seq<Row>, row: Row)
      requires HoldsSeriesOf(done)
      modifies this
      ensures HoldsSeriesOf(done + [row])
    {
      var groupLabels := [row.m.uuid, NatToString(row.g.group)];
      pathGroupDeviceMapperState := pathGroupDeviceMapperState[groupLabels := row.g.deviceMapperState.Ordinal()];
      var pathLabels := groupLabels + [row.p.targetWwnn, row.p.deviceName];
      pathDeviceMapperState := pathDeviceMapperState[pathLabels := row.p.deviceMapperState.Ordinal()];
      pathDeviceState := pathDeviceState[pathLabels := row.p.deviceState.Ordinal()];
      pathCheckerState := pathCheckerState[pathLabels := row.p.checkerState.Ordinal()];
      assert (done + [row])[..|done|] == done;
      assert groupLabels == Labels(GroupDm, row);
      assert pathLabels == Labels(PathDm, row) == Labels(PathDev, row) == Labels(PathChk, row);
    }

    /** Sets the series of every path of every group of map `m`, in order. */
    method SetMap(ghost done: seq<Row>, m: Map)
      requires HoldsSeriesOf(done)
      modifies this
      ensures HoldsSeriesOf(done + GroupRows(m, m.pathGroups))
    {
      var j := 0;
      ghost var walked := done;
      assert done + GroupRows(m, m.pathGroups[..0]) == done;
      while j < |m.pathGroups|
        invariant 0 <= j <= |m.pathGroups|
        invariant walked == done + GroupRows(m, m.pathGroups[..j])
        invariant HoldsSeriesOf(walked)
      {
        var g := m.pathGroups[j];
        SetGroup(walked, m, g);
        GroupRowsStep(done, m, j);
        walked := done + GroupRows(m, m.pathGroups[..j + 1]);
        j := j + 1;
      }
      assert m.pathGroups[..j] == m.pathGroups;
    }

    /** Sets the series of every path of group `g` of map `m`, in order. */
    method SetGroup(ghost done: seq<Row>, m: Map, g: PathGroup)
      requires HoldsSeriesOf(done)
      modifies this
      ensures HoldsSeriesOf(done + PathRows(m, g, g.paths))
    {
      var k := 0;
      ghost var walked := done;
      assert done + PathRows(m, g, g.paths[..0]) == done;
      while k < |g.paths|
        invariant 0 <= k <= |g.paths|
        invariant walked == done + PathRows(m, g, g.paths[..k])
        invariant HoldsSeriesOf(walked)
      {
        var row := Row(m, g, g.paths[k]);
        SetRow(walked, row);
        PathRowsStep(done, m, g, k);
        walked := walked + [row];
        k := k + 1;
      }
      assert g.paths[..k] == g.paths;
    }

    /** `collect`: a scrape that fails leaves every vector as it was; one that
        succeeds clears all four and sets them from the document's walk, maps
        then groups then paths, and returns the four families. */
    method Collect(output: CommandOutput) returns (r: Result<seq<MetricFamily>>)
      modifies this
      ensures r.Ok? <==> Scrape(output).Ok?
      ensures r.Err? ==> unchanged(this)
      ensures r.Ok? ==> HoldsSeriesOf(MapRows(Scrape(output).value.maps))
      ensures r.Ok? ==> r.value == Families()
    {
      var doc := Scrape(output);
      if doc.Err? {
        return Err(doc.message);
      }
      var families := Refill(doc.value);
      return Ok(families);
    }

    /** The part of `collect` after the document is decoded: reset the four
        vectors, then set every row of the walk. */
    method Refill(doc: Multipathd) returns (families: seq<MetricFamily>)
      modifies this
      ensures HoldsSeriesOf(MapRows(doc.maps))
      ensures families == Families()
    {
      var maps := doc.maps;
      pathGroupDeviceMapperState := map[];
      pathDeviceMapperState := map[];
      pathDeviceState := map[];
      pathCheckerState := map[];
      var i := 0;
      ghost var walked := [];
      assert MapRows(maps[..0]) == [];
      while i < |maps|
        invariant 0 <= i <= |maps|
        invariant walked == MapRows(maps[..i])
        invariant HoldsSeriesOf(walked)
      {
        var m := maps[i];
        SetMap(walked, m);
        MapRowsStep(maps, i);
        walked := walked + GroupRows(m, m.pathGroups);
        i := i + 1;
      }
      assert maps[..i] == maps;
      families := Families();
    }
  }
}
