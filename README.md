# multipathd exporter, modelled in Dafny

The exporter runs `multipathd show maps json` and publishes the state of every
multipath map as Prometheus gauges. It comes in two implementations, and both
are modelled here.

- **Rust.**
  - The `multipathd-structs` crate decodes the daemon's JSON into records: a document of maps, a map of path groups, a group of paths.
  - It decodes the state enums, and uses four field decoders for the texts multipathd prints in its own formats:
    - `optional_string`, where "[undef]" means no value;
    - `hex_string`, for the logical unit number;
    - `deferred_failback`, for "deferred:N";
    - `queueing_value`, for "N sec" and "N chk".
  - `MultipathdCollector` keeps four integer gauge vectors. Every scrape clears them and sets each series to the ordinal of a state.
- **Go.**
  - `parseHexString` reads the unit number with `strconv.ParseUint` base 0.
  - A custom `Path.UnmarshalJSON` reads five fields by hand.
  - `MultipathCollector` sends constant gauges: one per declared state of each enum, 1 for the current state and 0 for the others. That is `emitEnumStateMetric`.

Both decode the same document (`json.dfy` holds it as a parsed value tree). The model proves where the two implementations agree and where they differ:
  - bare digits are hexadecimal to Rust and decimal to Go;
  - "0X" fails the whole Rust document and is a hex prefix to Go;
  - the empty string is kept by Rust and dropped by Go;
  - the Go state lists are in a different order for path groups;
  - every Go metric name is one character shorter.

Modules, by file:

| file | module | models |
|---|---|---|
| `wrappers.dfy` | `Wrappers` | `Option`, `Result` |
| `numbers.dfy` | `Numbers` | integer widths, Rust's `from_str_radix`/`parse`, Go's `ParseUint` base 0 |
| `json.dfy` | `Json` | the parsed JSON value and key lookup |
| `serde.dfy` | `Serde` | serde's derived decoding: strings, `u64`, `Vec`, `#[serde(default)]` fields, externally tagged enums |
| `deserializers.dfy` | `Deserializers` | the four Rust field decoders |
| `common.dfy` | `Common` | the shared state enums |
| `path.dfy` | `Path` | `PathChecker`, `PathCheckerState`, the `Path` record |
| `path_group.dfy` | `PathGroup` | the `PathGroup` record |
| `map.dfy` | `Map` | the map enums and the `Map` record |
| `root.dfy` | `Multipathd` | the whole document |
| `collector.dfy` | `Collector` | the Rust collector |
| `go_deserializers.dfy` | `GoDeserializers` | `parseHexString` |
| `go_path.dfy` | `GoPath` | `PathChecker`, `parseOptionalString`, `Path.UnmarshalJSON` |
| `go_collector.dfy` | `GoCollector` | `emitEnumStateMetric`, `NewMultipathCollector`, `Describe`, `Collect` |

Three things are parameters of the model rather than modelled code:
- The output of the subprocess is a `CommandOutput` or `CommandRun` value.
- What Go's generic `encoding/json` decoder makes of the nested document is an `Unmarshalled` value or a `Result<Status>`.
- The lists that the go-enum `...Values()` functions return are an `EnumValues` record. `DECLARED_VALUES` holds them as the `ENUM(...)` comments declare them.

## Model

| member | source | states |
|---|---|---|
| Serde.DecodeString | crates/multipathd-structs/src/deserializers.rs:9 | `String::deserialize` succeeds exactly on a JSON string and yields its text |
| Serde.DecodeU64 | crates/multipathd-structs/src/map.rs:91 | a `u64` field succeeds exactly on an integer in 0..2^64-1 and yields it |
| Serde.Field | crates/multipathd-structs/src/map.rs:80-81 | a `#[serde(default)]` field succeeds exactly when its key is not repeated and, if present, its value decodes; the result is the decoded value or the default when absent |
| Serde.FieldOf | crates/multipathd-structs/src/map.rs:80-81 | the converse: a field whose meaning holds of a value decodes to that value |
| Serde.DecodeSeq | crates/multipathd-structs/src/map.rs:129 | a `Vec` decodes exactly when every element does, elementwise and in order |
| Serde.EnumShapeOf | crates/multipathd-structs/src/common.rs:6-7 | an externally tagged enum value is a bare tag string or a one-member object; nothing else is accepted |
| Serde.UnitVariant | crates/multipathd-structs/src/path.rs:37-39 | a unit variant is chosen by its tag; an unknown tag is an error unless a `#[serde(other)]` catch-all exists, and a tagged form needs a `null` payload |
| Serde.TableOfDecodes | crates/multipathd-structs/src/common.rs:6-16 | when tokens are distinct, each listed variant decodes from exactly its own token |
| Numbers.RustParseU32 | crates/multipathd-structs/src/deserializers.rs:59 | `parse::<u32>` accepts an optional `+` and decimal digits whose value fits in 32 bits |
| Numbers.RustParseHexU64 | crates/multipathd-structs/src/deserializers.rs:28 | `from_str_radix(s, 16)` accepts an optional `+` and hex digits whose value fits in 64 bits |
| Numbers.RustParseI32 | crates/multipathd-structs/src/deserializers.rs:40 | `parse::<i32>` accepts an optional sign and digits within -2^31..2^31-1 |
| Numbers.RustParseU32OfString | crates/multipathd-structs/src/deserializers.rs:59 | every `u32` parses back from its decimal text |
| Numbers.RustParseI32OfString | crates/multipathd-structs/src/deserializers.rs:40 | every `i32` parses back from its decimal text |
| Numbers.NatToStringValue | src/collector.rs:116 | the decimal text of a group index reads back as that index |
| Numbers.NatToStringInjective | src/collector.rs:116 | distinct group indexes have distinct decimal texts |
| Numbers.GoParseUintPlain | internal/multipath/deserializers.go:14 | without underscores, `ParseUint(s, 0, 64)` succeeds exactly on the prefix-selected digits whose value fits in 64 bits, and yields that value |
| Numbers.Lower | src/collector.rs:23 | lower-casing keeps the length and maps each ASCII capital to its small letter |
| Json.LookupKeyPresent | crates/multipathd-structs/src/map.rs:80-81 | a key is present with value v exactly when exactly one member carries it, with v |
| Json.DistinctKeysLookup | crates/multipathd-structs/src/map.rs:80-81 | in an object without repeated keys every member is found under its key |
| Json.LookupKeyAppendOther | crates/multipathd-structs/src/lib.rs:10-11 | appending a member under another key does not change what a key holds |
| Deserializers.DecodeOptionalString | crates/multipathd-structs/src/deserializers.rs:5-16 | succeeds exactly on strings; `None` exactly for "[undef]"; otherwise the text itself |
| Deserializers.OptionalStringKeeps | crates/multipathd-structs/src/deserializers.rs:100-130 | every string but the sentinel, the empty string included, is kept as it is |
| Deserializers.TrimStart0x | crates/multipathd-structs/src/deserializers.rs:25 | the result does not start with "0x", and the input is some number of "0x" followed by the result |
| Deserializers.TrimRepeatedPrefix | crates/multipathd-structs/src/deserializers.rs:25 | stripping any number of "0x" from before an unprefixed rest gives that rest |
| Deserializers.DecodeHexString | crates/multipathd-structs/src/deserializers.rs:18-31 | succeeds exactly on a string whose stripped rest is base-16 `u64` text, and then always gives `Some` of it |
| Deserializers.HexStringOfDigits | crates/multipathd-structs/src/deserializers.rs:22-30 | any number of "0x" followed by hex digits that fit decodes to their value |
| Deserializers.HexStringTooLarge | crates/multipathd-structs/src/deserializers.rs:28-29 | hex digits that do not fit in 64 bits are an error, whatever prefixes precede them |
| Deserializers.HexStringEmptyFails | crates/multipathd-structs/src/deserializers.rs:25-29 | a string of only "0x"s (or empty) is an error |
| Deserializers.HexStringUpperPrefixFails | crates/multipathd-structs/src/deserializers.rs:25-28 | "0X" is not stripped and is an error |
| Deserializers.DecodeDeferredFailback | crates/multipathd-structs/src/deserializers.rs:33-48 | succeeds only on a string with the "deferred:" prefix, and then is `parse::<i32>` of the rest |
| Deserializers.DeferredFailbackRoundTrip | crates/multipathd-structs/src/deserializers.rs:132-146 | every `i32` round-trips through "deferred:" and its decimal text |
| Deserializers.DeferredFailbackNeedsPrefix | crates/multipathd-structs/src/deserializers.rs:148-161 | a string without the prefix is an error |
| Deserializers.DecodeQueueingValue | crates/multipathd-structs/src/deserializers.rs:50-76 | " sec" is checked first, then " chk"; each yields its variant exactly when the count is a `u32`; any other text is an error |
| Deserializers.QueueingValueRoundTrip | crates/multipathd-structs/src/deserializers.rs:178-208 | every `u32` round-trips through "N sec" and through "N chk" |
| Deserializers.QueueingValueRejects | crates/multipathd-structs/src/deserializers.rs:210-238 | "invalid" and "abc sec" are errors |
| Common.PathGroupDeviceMapperStateOrder | crates/multipathd-structs/src/common.rs:6-16 | the four variants in declaration order, each with its index as ordinal |
| Common.PathGroupDeviceMapperStateTokensDistinct | crates/multipathd-structs/src/common.rs:7-15 | no two variants share a token |
| Common.DecodePathGroupDeviceMapperState | crates/multipathd-structs/src/common.rs:6-16 | accepts exactly the four tokens, bare or `{token: null}`, each giving its own variant |
| Common.PathDeviceMapperStateOrder | crates/multipathd-structs/src/common.rs:20-29 | the three variants in declaration order, each with its index as ordinal |
| Common.PathDeviceMapperStateTokensDistinct | crates/multipathd-structs/src/common.rs:21-28 | no two variants share a token |
| Common.DecodePathDeviceMapperState | crates/multipathd-structs/src/common.rs:20-29 | accepts exactly "active", "failed", "undef", each giving its own variant |
| Common.DeviceStateOrder | crates/multipathd-structs/src/common.rs:33-41 | the three variants in declaration order, each with its index as ordinal |
| Common.DeviceStateTokensDistinct | crates/multipathd-structs/src/common.rs:34-41 | no two variants share a token |
| Common.DecodeDeviceState | crates/multipathd-structs/src/common.rs:33-41 | accepts exactly "running", "offline", "unknown", each giving its own variant; "unknown" is included because `Unknown` has no rename under `rename_all = "lowercase"` |
| Common.MarginalStateListed | crates/multipathd-structs/src/common.rs:45-52 | both variants are listed |
| Common.DecodeMarginalState | crates/multipathd-structs/src/common.rs:45-52 | accepts exactly "marginal" and "normal" |
| Common.PathGroupDeviceMapperStateIsStrict | crates/multipathd-structs/src/common.rs:6-16 | a token in another case ("Active") is an error: no catch-all |
| Common.PathDeviceMapperStateIsStrict | crates/multipathd-structs/src/common.rs:20-29 | a group-only token ("enabled") is an error for a path |
| Common.DeviceStateIsStrict | crates/multipathd-structs/src/common.rs:33-41 | "Running" is an error |
| Common.MarginalStateIsStrict | crates/multipathd-structs/src/common.rs:45-52 | "undef" is an error for the marginal state |
| Path.PathCheckerTable | crates/multipathd-structs/src/path.rs:10-40 | every checker is listed under a token of its own |
| Path.DecodePathChecker | crates/multipathd-structs/src/path.rs:10-40 | accepts every bare string or `{tag: null}`; a known token gives its variant, and only `Invalid` comes from other tags |
| Path.PathCheckerCatchAll | crates/multipathd-structs/src/path.rs:37-39 | an unknown checker name decodes to `Invalid`, not an error |
| Path.PathCheckerStateOrder | crates/multipathd-structs/src/path.rs:44-62 | the eight variants in declaration order, each with its index as ordinal |
| Path.PathCheckerStateTokensDistinct | crates/multipathd-structs/src/path.rs:45-61 | no two variants share a token |
| Path.DecodePathCheckerState | crates/multipathd-structs/src/path.rs:44-62 | accepts exactly the eight tokens, "i/o pending" and "i/o timeout" included |
| Path.DecodePath | crates/multipathd-structs/src/path.rs:64-112 | succeeds only on an object, and then every field is its key's decoded value or the default |
| Path.DecodePathComplete | crates/multipathd-structs/src/path.rs:64-112 | the converse: when every field holds of p, the object decodes to p |
| Path.PathDefaults | crates/multipathd-structs/src/path.rs:64-65 | an empty object is `Path::default()` |
| Path.PathTargetWwnnVerbatim | crates/multipathd-structs/src/path.rs:92-93 | "target_wwnn" is kept verbatim, the sentinel included |
| Path.PathOptionalSentinels | crates/multipathd-structs/src/path.rs:88-104 | "[undef]" under any of the four optional identifiers gives `None` |
| Path.PathLogicalUnitNumber | crates/multipathd-structs/src/path.rs:106-108 | an absent "lun_hex" gives `None`, a present one `Some`, a bad one fails the path |
| Path.PathRoundTrip | crates/multipathd-structs/src/path.rs:64-112 | a path printed in multipathd's layout reads back as the same record |
| Path.IscsiPathExample | crates/multipathd-structs/src/path.rs:122-154 | the crate's iSCSI test document decodes to the expected record |
| Path.FcPathExample | crates/multipathd-structs/src/path.rs:155-184 | the Fibre Channel test document decodes, with no unit number |
| Path.LunHexExample | crates/multipathd-structs/src/path.rs:136 | "0x000e000000000000" decodes to `Some(0x000e000000000000)` |
| PathGroup.DecodePaths | crates/multipathd-structs/src/path_group.rs:22 | the paths array decodes exactly when every path does, in order |
| PathGroup.DecodePathGroup | crates/multipathd-structs/src/path_group.rs:7-23 | succeeds only on an object, and then every field is its key's decoded value or the default |
| PathGroup.DecodePathGroupComplete | crates/multipathd-structs/src/path_group.rs:7-23 | the converse of the decoder's contract |
| PathGroup.PathGroupDefaults | crates/multipathd-structs/src/path_group.rs:7-8 | an empty object is the default group |
| PathGroup.PathGroupWithoutPaths | crates/multipathd-structs/src/path_group.rs:22 | a group without "paths" has no paths |
| PathGroup.PathGroupPaths | crates/multipathd-structs/src/path_group.rs:22 | the group's paths are its array's, in order; one bad path fails the group |
| PathGroup.PathGroupStates | crates/multipathd-structs/src/path_group.rs:15-16 | "enabled" and "disabled" are group states |
| PathGroup.PathGroupRoundTrip | crates/multipathd-structs/src/path_group.rs:7-23 | a printed group reads back as the same record |
| PathGroup.PathGroupHeadRoundTrip | crates/multipathd-structs/src/path_group.rs:33-51 | a group printed without its "paths" key reads back with no paths |
| PathGroup.PathGroupOfPrintedPaths | crates/multipathd-structs/src/path_group.rs:7-23 | a printed group of printed paths reads back as the same group |
| PathGroup.ServiceTimeGroupExample | crates/multipathd-structs/src/path_group.rs:34-47 | the crate's test case decodes to the expected group |
| Map.MapFailbackUnits | crates/multipathd-structs/src/map.rs:10-23 | the unit variants are exactly those listed, under distinct tags, none of them "deferred" |
| Map.DecodeMapFailback | crates/multipathd-structs/src/map.rs:10-23 | unit tags decode as enum tags; `{"deferred": payload}` succeeds exactly when the payload does, and `Deferred` comes only from that form |
| Map.FailbackRoundTrip | crates/multipathd-structs/src/map.rs:12-22 | every failback value reads back from its JSON form |
| Map.BareDeferredFails | crates/multipathd-structs/src/map.rs:17-18 | a bare "deferred" or "deferred:N" is an error |
| Map.MapWriteProtectionTable | crates/multipathd-structs/src/map.rs:27-38 | every variant is listed under a token of its own |
| Map.DecodeMapWriteProtection | crates/multipathd-structs/src/map.rs:27-38 | accepts exactly "ro", "rw", "undef" |
| Map.MapQueueingUnits | crates/multipathd-structs/src/map.rs:48-60 | the unit variants are exactly those listed, none under "timed" |
| Map.DecodeMapQueueing | crates/multipathd-structs/src/map.rs:48-60 | "off", "on", "-" are unit tags; `{"timed": payload}` succeeds exactly when the payload does |
| Map.QueueingRoundTrip | crates/multipathd-structs/src/map.rs:50-59 | every queueing mode reads back from its JSON form |
| Map.MapActionTable | crates/multipathd-structs/src/map.rs:64-78 | every variant is listed under a token of its own |
| Map.DecodeMapAction | crates/multipathd-structs/src/map.rs:64-78 | accepts exactly the six tokens, "" included |
| Map.MapStateRejectsEnabled | crates/multipathd-structs/src/map.rs:96-97 | the map state has no "enabled" |
| Map.DecodePathGroups | crates/multipathd-structs/src/map.rs:129 | the groups array decodes exactly when every group does, in order |
| Map.DecodeMap | crates/multipathd-structs/src/map.rs:80-130 | succeeds only on an object, and then every field is its key's decoded value or the default |
| Map.DecodeMapComplete | crates/multipathd-structs/src/map.rs:80-130 | the converse of the decoder's contract |
| Map.MapDefaults | crates/multipathd-structs/src/map.rs:80-81 | an empty object is the default map |
| Map.MapRejectsGroupState | crates/multipathd-structs/src/map.rs:96-97 | a map whose "dm_st" is "enabled" fails to decode |
| Map.FailbackDecides | crates/multipathd-structs/src/map.rs:89 | the "failback" value decides the map's failback, and a bad one fails the map |
| Map.MapBareDeferredFails | crates/multipathd-structs/src/map.rs:17-18 | a bare "deferred:N" under "failback" fails the whole map |
| Map.MapTaggedDeferred | crates/multipathd-structs/src/map.rs:17-18 | the same text under the "deferred" tag is `Deferred(N)` |
| Map.MapPathGroups | crates/multipathd-structs/src/map.rs:129 | the map's groups are its array's, in order; one bad group fails the map |
| Map.MapLaidOutDistinct | crates/multipathd-structs/src/map.rs:141-161 | a map in multipathd's print order has no repeated key |
| Map.MapRoundTrip | crates/multipathd-structs/src/map.rs:80-130 | a printed map reads back as the same record |
| Map.PureMapExample | crates/multipathd-structs/src/map.rs:140-183 | the crate's first test map decodes to the expected record |
| Map.PureBootMapExample | crates/multipathd-structs/src/map.rs:184-226 | the crate's second test map decodes to the expected record |
| Multipathd.DecodeMaps | crates/multipathd-structs/src/lib.rs:15 | the maps array decodes exactly when every map does, in order |
| Multipathd.DecodeMultipathd | crates/multipathd-structs/src/lib.rs:10-16 | succeeds only on an object, and then every field is its key's decoded value or the default |
| Multipathd.DecodeMultipathdComplete | crates/multipathd-structs/src/lib.rs:10-16 | the converse of the decoder's contract |
| Multipathd.MultipathdDefaults | crates/multipathd-structs/src/lib.rs:10-11 | an empty object is version 0.0 with no maps |
| Multipathd.MultipathdNeedsObject | crates/multipathd-structs/src/lib.rs:10-12 | anything but an object is an error |
| Multipathd.MultipathdMaps | crates/multipathd-structs/src/lib.rs:15 | the document's maps are its array's, in order; one bad map fails the document |
| Multipathd.MultipathdDuplicateMaps | crates/multipathd-structs/src/lib.rs:11 | a repeated "maps" key is an error |
| Multipathd.MultipathdIgnoresUnknownKey | crates/multipathd-structs/src/lib.rs:10-16 | an unknown key is ignored |
| Multipathd.MultipathdRoundTrip | crates/multipathd-structs/src/lib.rs:10-16 | a printed document reads back as the same record |
| Collector.MetricAt | src/collector.rs:31 | each of the `METRICS_NUMBER` positions holds the gauge with that index |
| Collector.MetricAtIndex | src/collector.rs:85-93 | every gauge sits at its own position |
| Collector.GroupDmName | src/collector.rs:40-47 | the name is "multipathd_path_group_device_mapper_state" |
| Collector.PathDmName | src/collector.rs:49-57 | the name is "multipathd_path_device_mapper_state" |
| Collector.PathDevName | src/collector.rs:58-66 | the name is "multipathd_path_device_state" |
| Collector.PathChkName | src/collector.rs:67-75 | the name is "multipathd_path_checker_state" |
| Collector.DescriptorsDistinct | src/collector.rs:35-81 | no two gauges share a name |
| Collector.Labels | src/collector.rs:115-128 | a row sets as many label values as its gauge has label names |
| Collector.HelpDocumentsValue | src/collector.rs:20-28 | the value published is an index into the help legend, and that entry names the state lower-cased with " = " and the value |
| Collector.GroupDmLegend | src/collector.rs:20-28 | the group-state legend is "active = 0, enabled = 1, disabled = 2, undefined = 3" |
| Collector.PathDmLegend | src/collector.rs:20-28 | the path-state legend is "active = 0, failed = 1, undefined = 2" |
| Collector.PathDevLegend | src/collector.rs:20-28 | the device-state legend is "running = 0, offline = 1, unknown = 2" |
| Collector.PathChkLegend | src/collector.rs:20-28 | the checker legend has eight entries, with "iopending = 5" and "iotimeout = 6" |
| Collector.SeriesKeySound | src/collector.rs:112-140 | every series is set by some row of the walk |
| Collector.SeriesKeyComplete | src/collector.rs:112-140 | every row's label tuple has a series |
| Collector.SeriesKeys | src/collector.rs:112-140 | the series are exactly the label tuples the rows set |
| Collector.SeriesLastWriteWins | src/collector.rs:117-119 | a tuple holds the value of the last row that sets it |
| Collector.SeriesWellFormed | src/collector.rs:112-140 | every series has one value per label name and a value the legend documents |
| Collector.PathRowsMembers | src/collector.rs:114 | a row is in a group's walk exactly when its path is one of the group's |
| Collector.GroupRowsMembers | src/collector.rs:113-114 | a row is in a map's walk exactly when it pairs a group of the map with one of that group's paths |
| Collector.MapRowsSound | src/collector.rs:112-140 | every row of the walk is a path of a group of a map |
| Collector.MapRowsComplete | src/collector.rs:112-140 | every path of every group of every map is a row |
| Collector.MapRowsMembers | src/collector.rs:112-140 | both directions together |
| Collector.GroupSeriesNeedsPaths | src/collector.rs:113-119 | the group gauge has a series for a group exactly when that group has at least one path |
| Collector.Scrape | src/collector.rs:98-105 | a scrape has a document exactly when the command ran, printed JSON, and that JSON decodes |
| Collector.MultipathdCollector.Families | src/collector.rs:142-146 | four families, each at its gauge's position |
| Collector.MultipathdCollector.constructor | src/collector.rs:35-81 | the four vectors start empty |
| Collector.MultipathdCollector.Desc | src/collector.rs:85-93 | four descriptors, each at its gauge's position |
| Collector.MultipathdCollector.SetRow | src/collector.rs:115-137 | setting one row extends each vector's series by that row |
| Collector.MultipathdCollector.SetGroup | src/collector.rs:114-138 | the loop over a group's paths extends the series by the group's rows |
| Collector.MultipathdCollector.SetMap | src/collector.rs:113-139 | the loop over a map's groups extends the series by the map's rows |
| Collector.MultipathdCollector.Refill | src/collector.rs:107-146 | after the reset and the walk, the vectors hold exactly the series of the document's rows |
| Collector.MultipathdCollector.Collect | src/collector.rs:95-147 | succeeds exactly when the scrape does; a failed scrape changes nothing; a successful one leaves exactly the document's series and returns the four families |
| GoDeserializers.ParseHexString | internal/multipath/deserializers.go:9-20 | nothing exactly for "", "[undef]" and text `ParseUint` rejects; otherwise its value |
| GoDeserializers.HexPrefixed | internal/multipath/deserializers_test.go:33-65 | "0x"/"0X" and hex digits of either case give their value when it fits, nothing when it does not |
| GoDeserializers.DecimalRoundTrip | internal/multipath/deserializers_test.go:70-77 | the decimal text of every 64-bit value reads back as it, "0" included |
| GoDeserializers.LeadingZeroIsOctal | internal/multipath/deserializers_test.go:82-84 | a leading zero then octal digits is read in base 8 |
| GoDeserializers.NonDigitStartRejected | internal/multipath/deserializers_test.go:94-116 | text not starting with a digit ("-1", "deadbeef") gives nothing |
| GoDeserializers.HexPrefixBadDigit | internal/multipath/deserializers_test.go:89-91 | a non-hex character after the prefix gives nothing |
| GoDeserializers.BarePrefixRejected | internal/multipath/deserializers_test.go:109-111 | "0x" alone gives nothing |
| GoDeserializers.SentinelsGiveNothing | internal/multipath/deserializers.go:10-12 | "" and "[undef]" give nothing |
| GoDeserializers.WidestAccepted | internal/multipath/deserializers_test.go:63-65 | "0x" and sixteen 'f's is the largest 64-bit value |
| GoDeserializers.OverflowRejected | internal/multipath/deserializers_test.go:99-101 | 2^64 gives nothing |
| GoDeserializers.TwinsDifferOnBareDigits | internal/multipath/deserializers.go:14 | bare digits are hexadecimal to the Rust decoder and decimal to the Go one |
| GoDeserializers.TwinsDifferOnCapitalPrefix | internal/multipath/deserializers.go:14 | "0X" fails the Rust document but is a hex prefix to Go |
| GoPath.CheckersMatchRust | internal/multipath/path.go:15-27 | the nine named checkers are the Rust variants' tokens, in the same order |
| GoPath.UnknownCheckerTwins | internal/multipath/path.go:15 | a checker text Go keeps as it is becomes `Invalid` for Rust |
| GoPath.ParseOptionalString | internal/multipath/path.go:86-98 | a value exactly for a string other than "[undef]" and "", and then that string |
| GoPath.OptionalStringTwins | internal/multipath/path.go:93 | Rust and Go agree on every string but "", which Rust keeps and Go drops |
| GoPath.OptionalStringNonString | internal/multipath/path.go:92-95 | for a non-string Rust fails and Go gives nothing |
| GoPath.LunOf | internal/multipath/path.go:77-81 | a raw string sets the unit from `parseHexString`; any other raw value leaves it |
| GoPath.Path.constructor | internal/multipath/path.go:37-52 | the zero value: empty strings, zero, `nil` |
| GoPath.Path.UnmarshalJSON | internal/multipath/path.go:54-84 | the plain fields are written in any case; on the inner error the five fields stay and the error is returned; otherwise the four strings are parsed and the unit follows `LunOf` |
| GoPath.DecodeFreshPath | internal/multipath/path_test.go:86 | a fresh path has no unit when "lun_hex" is absent or not a string |
| GoCollector.Descriptor | collector/multipath.go:30-53 | each descriptor has the Go name and the same label names as the Rust gauge |
| GoCollector.DescriptorsDistinct | collector/multipath.go:30-53 | no two descriptors share a name |
| GoCollector.NamespacesDiffer | collector/multipath.go:31 | each Go name is one shorter than the Rust name, and so differs from it |
| GoCollector.CorrectedDescriptor | collector/util.go:18 | the corrected descriptor declares the label names and then "state"; name and help as written |
| GoCollector.DescriptorsDeclareLabels | collector/multipath.go:30-53 | as written, no descriptor declares the state label; corrected, each declares it last |
| GoCollector.OneHotShape | collector/util.go:12-20 | one sample per state, in order, labelled with the given values and the state; its value is 1 exactly when the state is current |
| GoCollector.OneHotAbsent | collector/util.go:12-20 | a current state not in the list gives only zeros |
| GoCollector.OneHotHit | collector/util.go:12-20 | some sample is 1 exactly when the current state is in the list |
| GoCollector.OneHotAtMostOne | collector/util.go:12-20 | with distinct states, at most one sample is 1 |
| GoCollector.OneHotAt | collector/util.go:12-20 | with distinct states, the only 1 is at the current state's position |
| GoCollector.EmitEnumStateMetric | collector/util.go:5-21 | the loop appends exactly the one-hot block to the channel |
| GoCollector.DeclaredPathDmMatchesRust | internal/multipath/common.go:19 | the Go path states are the Rust tokens, in order |
| GoCollector.DeclaredDeviceStateMatchesRust | internal/multipath/common.go:26 | the Go device states are the Rust tokens, in order |
| GoCollector.DeclaredCheckerStateMatchesRust | internal/multipath/path.go:33 | the Go checker states are the Rust tokens, in order |
| GoCollector.GroupPosition | internal/multipath/common.go:12 | each group state's position in the Go list holds its Rust token |
| GoCollector.DeclaredGroupOrderDiffers | internal/multipath/common.go:12 | the Go position equals the Rust ordinal only for "undef" |
| GoCollector.CheckerOneHotIsOrdinal | collector/util.go:12-20 | the checker block's 1 sits at the Rust ordinal of the state |
| GoCollector.GroupOneHotIsPosition | collector/util.go:12-20 | the group block's 1 sits at the Go position, not the Rust ordinal |
| GoCollector.GroupLabels | collector/multipath.go:85 | a group is labelled with its map's UUID and its index in base 10 |
| GoCollector.Emitted | collector/multipath.go:64-76 | a failed command or a failed decode sends nothing |
| GoCollector.GroupBlockFirst | collector/multipath.go:80-88 | a group sends its own block first, and only that block when it has no paths |
| GoCollector.PathsSamplesCount | collector/multipath.go:88-109 | the paths of a group send the sum of the three list lengths for each path |
| GoCollector.MapsWellShaped | collector/multipath.go:78-112 | every value is 0 or 1, and every sample has one label value more than its descriptor declares, or exactly as many when the descriptor declares the state |
| GoCollector.AsWrittenLabelsMismatch | collector/util.go:18-19 | as written, every sample a scrape sends has one label value too many |
| GoCollector.AsWrittenFirstSampleMismatch | collector/multipath.go:80-86 | one map with one group already gives three values for two names |
| GoCollector.CorrectedLabelsMatch | collector/util.go:18-19 | corrected, every sample has exactly as many values as names |
| GoCollector.PathSampleLabels | collector/multipath.go:89-108 | each path sample is labelled UUID, group, target WWNN, device, then the state, and its block is dm, then dev, then checker |
| GoCollector.GroupLabelsDistinct | collector/multipath.go:85 | distinct group indexes give distinct group labels |
| GoCollector.MultipathCollector.constructor | collector/multipath.go:26-55 | one descriptor per dimension, the corrected ones |
| GoCollector.MultipathCollector.Describe | collector/multipath.go:57-62 | four descriptors, each at its dimension's position |
| GoCollector.MultipathCollector.Collect | collector/multipath.go:64-113 | the nested loops send exactly the walk: map by map, each group's block and then each path's three blocks; nothing on failure |

## Left out

- JSON text parsing (`serde_json::from_slice`, `encoding/json`'s scanner): the model starts from a parsed value tree. Numbers are integers, so floating-point JSON numbers are not modelled.
- Error messages: a decoder's failure is `Err` with some text, and only `Ok` against `Err` is specified.
- serde's sequence form of structs (a record given as a JSON array) is not modelled; only the object form is.
- The subprocess:
  - spawning `multipathd` and its exit status are a `CommandOutput` or `CommandRun` parameter;
  - the Rust `expect`/`unwrap` panics are modelled as `Err`, with the vectors left unchanged;
  - the Go logger calls are left out.
- Prometheus internals are not modelled:
  - the registry, the `MetricFamily` encoding and `IntGaugeVec::new`'s `unwrap`, whose names and labels are valid;
  - `with_label_values`' label-count check, which cannot fail because of `Collector.Labels`;
  - `MustNewConstMetric`'s check, whose failure is stated as a lemma (see Findings).
- Collector.MultipathdCollector.Collect: scrapes are modelled one at a time. Overlapping scrapes share the four vectors and can interleave one scrape's resets with another's sets; that is not modelled.
- The channels of `Describe` and `Collect` are sequences the methods return; goroutines and blocking are not modelled.
- Collector.PathChkLegend: it states only the length and entries 5 and 6 of the checker legend. The single-word entries follow from `Collector.HelpDocumentsValue`, and a literal of the whole legend is too costly to verify.
- Numbers.Lower: Rust's `to_lowercase` is modelled for ASCII only. It is only ever applied to the ASCII variant names.
- The go-enum generated code, both parts:
  - the `...Values()` lists are a parameter (`DECLARED_VALUES` holds them as the `ENUM(...)` comments declare them);
  - the generated text unmarshallers of the Go state enums are not modelled; their verdict arrives through `GoPath.Unmarshalled.err`.
- `encoding/json`'s reflection-driven decoding (case-insensitive key matching included) is the `Unmarshalled` value and `Result<Status>` that the model takes.
- The Go `Map`, `PathGroup` and `Status` structs (internal/multipath/map.go, path_group.go, multipath.go) hold in the model only the fields `Collect` reads.
- GoPath.Path.UnmarshalJSON: a JSON `null` element of a "paths" array is not modelled. For it, encoding/json still calls `UnmarshalJSON`, the inner `json.Unmarshal` (internal/multipath/path.go:68) sets `aux` to nil without an error, and reading `aux.HostWorldWideNodeName` at path.go:72 panics; `Unmarshalled` always carries the shadowed values, so the model has no outcome for that crash, and `GoCollector.MultipathCollector.Collect` none for the resulting panic of a scrape. The Rust decoder rejects the same element with an error (`Path.DecodePath` needs an object).
- GoPath.Path.UnmarshalJSON: the nine plain fields are held as one `Alias` record written as a whole, not field by field.
- GoCollector.EmitEnumStateMetric: `append(labelValues, state)` may share its backing array across iterations in Go. The model uses values, and the metric copies its labels before the next append.
- Gauge values are the integers 0 and 1 rather than the floats 0.0 and 1.0.
- `src/main.rs` and `multipath_exporter.go` (HTTP server, registry, flags) are not part of this model.

## Findings

| source | as written | input that shows it | evidently intended | confidence | as-written member | corrected member |
|---|---|---|---|---|---|---|
| collector/util.go:18 | `emitEnumStateMetric` appends the state text as one more label value, but `NewMultipathCollector` (collector/multipath.go:30-53) declares only `map`, `group` (plus `target_wwnn`, `dev`) | the Go model input is a document `{"maps": [{"uuid": "u", "path_groups": [{"dm_st": "active", "group": 1}]}]}`. Its first sample has three label values for two label names, so `prometheus.MustNewConstMetric` panics | each descriptor declares a trailing `state` label | high, not executed | GoCollector.AsWrittenLabelsMismatch | GoCollector.CorrectedLabelsMatch |

`GoCollector.AsWrittenFirstSampleMismatch` gives the concrete case. `GoCollector.MultipathCollector` is built from `GoCollector.CorrectedDescriptor`, so its `Collect` sends samples whose label counts match.
