/** A path group of a map: its selector, priority and state, and its paths. */
module PathGroup {
  import opened Wrappers
  import opened Numbers
  import opened Json
  import Serde
  import opened Common
  import opened Deserializers
  import opened Path

  /** A path group, with its wire keys noted beside each field. */
  datatype PathGroup = PathGroup(
    selector: string,                              // "selector"
    priority: U64,                                 // "pri"
    deviceMapperState: PathGroupDeviceMapperState, // "dm_st"
    marginalPathState: MarginalState,              // "marginal_st"
    group: U64,                                    // "group"
    paths: seq<Path>                               // "paths"
  )

  /** `PathGroup::default()`. */
  const DEFAULT_PATH_GROUP :=
    PathGroup("", 0, PATH_GROUP_DM_DEFAULT, MARGINAL_STATE_DEFAULT, 0, [])

  /** `Vec<Path>::deserialize`: an array of paths, decoded in order; one path
      that fails makes the whole array fail. */
  function DecodePaths(j: Json): (r: Result<seq<Path>>)
    ensures r.Ok? <==> j.Arr? && forall i :: 0 <= i < |j.items| ==> DecodePath(j.items[i]).Ok?
    ensures r.Ok? ==> |r.value| == |j.items|
    ensures r.Ok? ==> forall i :: 0 <= i < |j.items| ==> r.value[i] == DecodePath(j.items[i]).value
  {
    Serde.DecodeVec(j, DecodePath)
  }

  /** A `#[serde(default)]` path group. */
  function DecodePathGroup(j: Json): (r: Result<PathGroup>)
    ensures r.Ok? ==> j.Obj?
    ensures r.Ok? ==> PathGroupFieldsHold(j.members, r.value)
  {
    match j
    case Obj(ms) =>
      var selector := Serde.Field(ms, "selector", "", Serde.DecodeString);
      var priority := Serde.Field(ms, "pri", 0, Serde.DecodeU64);
      var deviceMapperState := Serde.Field(ms, "dm_st", PATH_GROUP_DM_DEFAULT, DecodePathGroupDeviceMapperState);
      var marginalPathState := Serde.Field(ms, "marginal_st", MARGINAL_STATE_DEFAULT, DecodeMarginalState);
      var group := Serde.Field(ms, "group", 0, Serde.DecodeU64);
      var paths := Serde.Field(ms, "paths", [], DecodePaths);
      if selector.Ok? && priority.Ok? && deviceMapperState.Ok? && marginalPathState.Ok? && group.Ok?
        && paths.Ok? then
        Ok(PathGroup(selector.value, priority.value, deviceMapperState.value, marginalPathState.value,
          group.value, paths.value))
      else Err("invalid value for struct PathGroup")
    case _ => Err("invalid type: expected struct PathGroup")
  }

  /** Every field of `g` is what its key in `ms` gives, or the field's default
      when the key is absent. */
  ghost predicate PathGroupFieldsHold(ms: seq<(string, Json)>, g: PathGroup)
  {
    Serde.FieldHolds(ms, "selector", "", Serde.DecodeString, g.selector) &&
    Serde.FieldHolds(ms, "pri", 0, Serde.DecodeU64, g.priority) &&
    Serde.FieldHolds(ms, "dm_st", PATH_GROUP_DM_DEFAULT, DecodePathGroupDeviceMapperState, g.deviceMapperState) &&
    Serde.FieldHolds(ms, "marginal_st", MARGINAL_STATE_DEFAULT, DecodeMarginalState, g.marginalPathState) &&
    Serde.FieldHolds(ms, "group", 0, Serde.DecodeU64, g.group) &&
    Serde.FieldHolds(ms, "paths", [], DecodePaths, g.paths)
  }

  /** The converse of `DecodePathGroup`'s contract. */
  lemma DecodePathGroupComplete(ms: seq<(string, Json)>, g: PathGroup)
    requires PathGroupFieldsHold(ms, g)
    ensures DecodePathGroup(Obj(ms)) == Ok(g)
  {
    Serde.FieldOf(ms, "selector", "", Serde.DecodeString, g.selector);
    Serde.FieldOf(ms, "pri", 0, Serde.DecodeU64, g.priority);
    Serde.FieldOf(ms, "dm_st", PATH_GROUP_DM_DEFAULT, DecodePathGroupDeviceMapperState, g.deviceMapperState);
    Serde.FieldOf(ms, "marginal_st", MARGINAL_STATE_DEFAULT, DecodeMarginalState, g.marginalPathState);
    Serde.FieldOf(ms, "group", 0, Serde.DecodeU64, g.group);
    Serde.FieldOf(ms, "paths", [], DecodePaths, g.paths);
  }

  /** An empty object is the default path group, with no paths. */
  lemma PathGroupDefaults()
    ensures DecodePathGroup(Obj([])) == Ok(DEFAULT_PATH_GROUP)
  {
  }

  /** A group without a "paths" key has no paths. */
  lemma PathGroupWithoutPaths(ms: seq<(string, Json)>)
    requires forall i :: 0 <= i < |ms| ==> ms[i].0 != "paths"
    ensures DecodePathGroup(Obj(ms)).Ok? ==> DecodePathGroup(Obj(ms)).value.paths == []
  {
  }

  /** The paths of a group are those of its "paths" array, in the same order; a
      single path that fails to decode makes the whole group fail. */
  lemma PathGroupPaths(ms: seq<(string, Json)>, items: seq<Json>)
    requires LookupKey(ms, "paths") == Present(Arr(items))
    ensures DecodePathGroup(Obj(ms)).Ok? ==>
      var paths := DecodePathGroup(Obj(ms)).value.paths;
      |paths| == |items| && forall i :: 0 <= i < |items| ==> DecodePath(items[i]) == Ok(paths[i])
    ensures (exists i :: 0 <= i < |items| && DecodePath(items[i]).Err?) ==> DecodePathGroup(Obj(ms)).Err?
  {
  }

  /** Unlike a path's, a group's "dm_st" has the states "enabled" and "disabled". */
  lemma PathGroupStates(ms: seq<(string, Json)>)
    requires DecodePathGroup(Obj(ms)).Ok?
    ensures LookupKey(ms, "dm_st") == Present(Str("enabled")) ==>
      DecodePathGroup(Obj(ms)).value.deviceMapperState == PathGroupDeviceMapperState.Enabled
    ensures LookupKey(ms, "dm_st") == Present(Str("disabled")) ==>
      DecodePathGroup(Obj(ms)).value.deviceMapperState == PathGroupDeviceMapperState.Disabled
  {
    assert PathGroupDeviceMapperState.Enabled.Token() == "enabled";
    assert PathGroupDeviceMapperState.Disabled.Token() == "disabled";
  }

  /** The members of a path group as multipathd prints them, in its order, up
      to its paths. */
  function PathGroupHead(g: PathGroup): seq<(string, Json)>
  {
    [("selector", Str(g.selector)),
     ("pri", Num(g.priority)),
     ("dm_st", Str(g.deviceMapperState.Token())),
     ("marginal_st", Str(g.marginalPathState.Token())),
     ("group", Num(g.group))]
  }

  /** The members of a printed path group, with `pathItems` as the "paths" array. */
  function PathGroupMembers(g: PathGroup, pathItems: seq<Json>): seq<(string, Json)>
  {
    PathGroupHead(g) + [("paths", Arr(pathItems))]
  }

  /** A printed group reads back as the same record when its path array reads
      back as its paths. */
  lemma PathGroupRoundTrip(g: PathGroup, pathItems: seq<Json>)
    requires DecodePaths(Arr(pathItems)) == Ok(g.paths)
    ensures DecodePathGroup(Obj(PathGroupMembers(g, pathItems))) == Ok(g)
  {
    var ms := PathGroupMembers(g, pathItems);
    PathGroupScalarsHold(ms, g);
    PathGroupStatesHold(ms, g);
    PathGroupPrinted(g, pathItems);
    assert ms[5] == ("paths", Arr(pathItems));
    Serde.FieldAt(ms, 5, [], DecodePaths, g.paths);
    DecodePathGroupComplete(ms, g);
  }

  /** A group printed without its "paths" array reads back with no paths. */
  lemma PathGroupHeadRoundTrip(g: PathGroup)
    requires g.paths == []
    ensures DecodePathGroup(Obj(PathGroupHead(g))) == Ok(g)
  {
    PathGroupHeadHolds(g);
    DecodePathGroupComplete(PathGroupHead(g), g);
  }

  lemma PathGroupHeadHolds(g: PathGroup)
    requires g.paths == []
    ensures var ms := PathGroupHead(g);
      Serde.FieldHolds(ms, "selector", "", Serde.DecodeString, g.selector) &&
      Serde.FieldHolds(ms, "pri", 0, Serde.DecodeU64, g.priority) &&
      Serde.FieldHolds(ms, "dm_st", PATH_GROUP_DM_DEFAULT, DecodePathGroupDeviceMapperState, g.deviceMapperState) &&
      Serde.FieldHolds(ms, "marginal_st", MARGINAL_STATE_DEFAULT, DecodeMarginalState, g.marginalPathState) &&
      Serde.FieldHolds(ms, "group", 0, Serde.DecodeU64, g.group) &&
      Serde.FieldHolds(ms, "paths", [], DecodePaths, g.paths)
  {
    var ms := PathGroupHead(g);
    PathGroupScalarsHold(ms, g);
    PathGroupStatesHold(ms, g);
    PathGroupHeadHasNoPaths(g);
  }

  lemma PathGroupHeadHasNoPaths(g: PathGroup)
    ensures LookupKey(PathGroupHead(g), "paths") == Absent
  {
    var ms := PathGroupHead(g);
    assert forall i :: 0 <= i < |ms| ==> ms[i].0[0] != 'p' || ms[i].0[1] != 'a';
  }

  /** A printed group has each key once, and its first five members are those of
      `PathGroupHead`. */
  predicate PrintedGroup(ms: seq<(string, Json)>, g: PathGroup)
  {
    DistinctKeys(ms) && |ms| >= 5 && ms[..5] == PathGroupHead(g)
  }

  lemma PathGroupPrinted(g: PathGroup, pathItems: seq<Json>)
    ensures PrintedGroup(PathGroupHead(g), g)
    ensures PrintedGroup(PathGroupMembers(g, pathItems), g)
  {
    assert PathGroupMembers(g, pathItems)[..5] == PathGroupHead(g);
  }

  lemma PathGroupScalarsHold(ms: seq<(string, Json)>, g: PathGroup)
    requires ms == PathGroupHead(g) || exists items :: ms == PathGroupMembers(g, items)
    ensures Serde.FieldHolds(ms, "selector", "", Serde.DecodeString, g.selector)
    ensures Serde.FieldHolds(ms, "pri", 0, Serde.DecodeU64, g.priority)
    ensures Serde.FieldHolds(ms, "group", 0, Serde.DecodeU64, g.group)
  {
    if ms != PathGroupHead(g) {
      var items :| ms == PathGroupMembers(g, items);
      PathGroupPrinted(g, items);
    } else {
      PathGroupPrinted(g, []);
    }
    assert ms[0] == ("selector", Str(g.selector)) && ms[1] == ("pri", Num(g.priority)) && ms[4] == ("group", Num(g.group)) by {
      assert ms[..5] == PathGroupHead(g);
    }
    Serde.FieldAt(ms, 0, "", Serde.DecodeString, g.selector);
    Serde.FieldAt(ms, 1, 0, Serde.DecodeU64, g.priority);
    Serde.FieldAt(ms, 4, 0, Serde.DecodeU64, g.group);
  }

  lemma PathGroupStatesHold(ms: seq<(string, Json)>, g: PathGroup)
    requires ms == PathGroupHead(g) || exists items :: ms == PathGroupMembers(g, items)
    ensures Serde.FieldHolds(ms, "dm_st", PATH_GROUP_DM_DEFAULT, DecodePathGroupDeviceMapperState, g.deviceMapperState)
    ensures Serde.FieldHolds(ms, "marginal_st", MARGINAL_STATE_DEFAULT, DecodeMarginalState, g.marginalPathState)
  {
    if ms != PathGroupHead(g) {
      var items :| ms == PathGroupMembers(g, items);
      PathGroupPrinted(g, items);
    } else {
      PathGroupPrinted(g, []);
    }
    assert ms[2] == ("dm_st", Str(g.deviceMapperState.Token())) && ms[3] == ("marginal_st", Str(g.marginalPathState.Token())) by {
      assert ms[..5] == PathGroupHead(g);
    }
    Serde.FieldAt(ms, 2, PATH_GROUP_DM_DEFAULT, DecodePathGroupDeviceMapperState, g.deviceMapperState);
    Serde.FieldAt(ms, 3, MARGINAL_STATE_DEFAULT, DecodeMarginalState, g.marginalPathState);
  }

  /** A printed group of printed paths reads back as the same group. */
  lemma PathGroupOfPrintedPaths(g: PathGroup, lunTexts: seq<string>)
    requires |lunTexts| == |g.paths|
    requires forall i :: 0 <= i < |g.paths| ==> Printable(g.paths[i])
    requires forall i :: 0 <= i < |g.paths| ==> g.paths[i].logicalUnitNumber.Some? ==>
      DecodeHexString(Str(lunTexts[i])) == Ok(g.paths[i].logicalUnitNumber)
    ensures DecodePathGroup(Obj(PathGroupMembers(g,
      seq(|g.paths|, i requires 0 <= i < |g.paths| => Obj(PathMembers(g.paths[i], lunTexts[i])))))) == Ok(g)
  {
    var items := seq(|g.paths|, i requires 0 <= i < |g.paths| => Obj(PathMembers(g.paths[i], lunTexts[i])));
    forall i | 0 <= i < |items| ensures DecodePath(items[i]) == Ok(g.paths[i]) {
      PathRoundTrip(g.paths[i], lunTexts[i]);
    }
    assert DecodePaths(Arr(items)).value == g.paths;
    PathGroupRoundTrip(g, items);
  }

  /** The path group of the crate's test case: no "paths" key, so no paths. */
  lemma ServiceTimeGroupExample(ms: seq<(string, Json)>)
    requires ms == [
      ("selector", Str("service-time 0")),
      ("pri", Num(50)),
      ("dm_st", Str("active")),
      ("marginal_st", Str("normal")),
      ("group", Num(1))]
    ensures DecodePathGroup(Obj(ms)) ==
      Ok(PathGroup("service-time 0", 50, PathGroupDeviceMapperState.Active, MarginalState.Normal, 1,
        []))
  {
    var g := PathGroup("service-time 0", 50, PathGroupDeviceMapperState.Active, MarginalState.Normal, 1, []);
    assert ms == PathGroupHead(g);
    PathGroupHeadRoundTrip(g);
  }
}
