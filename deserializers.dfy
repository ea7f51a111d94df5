/** The four field decoders that the Rust records attach with
    `#[serde(deserialize_with = ...)]`. Each takes the JSON value of one field,
    demands a string, and turns it into the field's value or an error. */
module Deserializers {
  import opened Wrappers
  import opened Numbers
  import opened Json
  import Serde

  /** The payload of the `Timed` queueing mode: "N sec" or "N chk". */
  datatype QueueingValue = Seconds(secs: U32) | Checks(checks: U32)

  const UNDEF_SENTINEL := "[undef]"
  const HEX_PREFIX := "0x"
  const DEFERRED_PREFIX := "deferred:"
  const SECONDS_SUFFIX := " sec"
  const CHECKS_SUFFIX := " chk"

  // ---------------------------------------------------------------------------
  // optional_string

  /** A string field in which multipathd's "[undef]" sentinel means "no value". */
  function DecodeOptionalString(j: Json): (r: Result<Option<string>>)
    ensures r.Ok? <==> j.Str?
    ensures r == Ok(None) <==> j == Str(UNDEF_SENTINEL)
    ensures r.Ok? && r.value.Some? ==> r.value.value == j.s
  {
    var s :- Serde.DecodeString(j);
    if s == UNDEF_SENTINEL then Ok(None) else Ok(Some(s))
  }

  /** Every string other than the sentinel, the empty one included, is kept as it is. */
  lemma OptionalStringKeeps(s: string)
    requires s != UNDEF_SENTINEL
    ensures DecodeOptionalString(Str(s)) == Ok(Some(s))
  {
  }

  // ---------------------------------------------------------------------------
  // hex_string

  /** `trim_start_matches("0x")`: every leading repetition of "0x" removed. */
  function TrimStart0x(s: string): (r: string)
    ensures !HasPrefix(r, HEX_PREFIX)
    ensures exists k: nat :: s == Repeat(HEX_PREFIX, k) + r
    decreases |s|
  {
    if HasPrefix(s, HEX_PREFIX) then
      var r := TrimStart0x(s[2..]);
      var k: nat :| s[2..] == Repeat(HEX_PREFIX, k) + r;
      assert s == Repeat(HEX_PREFIX, k + 1) + r by {
        assert s == HEX_PREFIX + s[2..];
      }
      r
    else
      assert s == Repeat(HEX_PREFIX, 0) + s;
      s
  }

  /** `k` copies of `s`, one after the other. */
  function Repeat(s: string, k: nat): (r: string)
    ensures |r| == k * |s|
  {
    if k == 0 then [] else s + Repeat(s, k - 1)
  }

  /** A hex string field: leading "0x"s are dropped and the rest is a base-16 `u64`.
      A successful decode is always `Some`; the `None` of the field's type is
      reached only through the field being absent. */
  function DecodeHexString(j: Json): (r: Result<Option<U64>>)
    ensures r.Ok? ==> r.value.Some?
    ensures r.Ok? <==> j.Str? && RustParseHexU64(TrimStart0x(j.s)).Ok?
    ensures r.Ok? ==> r.value.value == RustParseHexU64(TrimStart0x(j.s)).value
  {
    var s :- Serde.DecodeString(j);
    var v :- RustParseHexU64(TrimStart0x(s));
    Ok(Some(v))
  }

  /** Stripping is idempotent on a string that starts with a hex digit. */
  lemma {:induction false} TrimRepeatedPrefix(k: nat, rest: string)
    requires !HasPrefix(rest, HEX_PREFIX)
    ensures TrimStart0x(Repeat(HEX_PREFIX, k) + rest) == rest
    decreases k
  {
    if k > 0 {
      var s := Repeat(HEX_PREFIX, k) + rest;
      assert s == HEX_PREFIX + (Repeat(HEX_PREFIX, k - 1) + rest);
      assert s[2..] == Repeat(HEX_PREFIX, k - 1) + rest;
      TrimRepeatedPrefix(k - 1, rest);
    } else {
      assert Repeat(HEX_PREFIX, k) + rest == rest;
    }
  }

  /** A run of hex digits neither starts with "0x" nor carries a sign. */
  lemma HexDigitsUnprefixed(digits: string)
    requires |digits| >= 1 && AllDigits(digits, 16)
    ensures !HasPrefix(digits, HEX_PREFIX) && digits[0] != '+' && digits[0] != '-'
  {
    assert IsDigit(digits[0], 16);
    if |digits| >= 2 { assert IsDigit(digits[1], 16); }
  }

  /** Any number of "0x" prefixes followed by hex digits decodes to their value,
      provided it fits in 64 bits. */
  lemma HexStringOfDigits(k: nat, digits: string)
    requires |digits| >= 1 && AllDigits(digits, 16) && DigitsValue(digits, 16) <= U64_MAX
    ensures DecodeHexString(Str(Repeat(HEX_PREFIX, k) + digits)) == Ok(Some(DigitsValue(digits, 16)))
  {
    HexDigitsUnprefixed(digits);
    TrimRepeatedPrefix(k, digits);
    assert RustParseHexU64(digits) == Ok(DigitsValue(digits, 16));
  }

  /** Hex digits whose value does not fit in 64 bits are an error, however many
      "0x" come before them. */
  lemma HexStringTooLarge(k: nat, digits: string)
    requires |digits| >= 1 && AllDigits(digits, 16) && DigitsValue(digits, 16) > U64_MAX
    ensures DecodeHexString(Str(Repeat(HEX_PREFIX, k) + digits)).Err?
  {
    HexDigitsUnprefixed(digits);
    TrimRepeatedPrefix(k, digits);
    assert RustParseHexU64(digits).Err?;
  }

  /** Nothing but "0x"s leaves an empty remainder, which is an error. */
  lemma HexStringEmptyFails(k: nat)
    ensures DecodeHexString(Str(Repeat(HEX_PREFIX, k))).Err?
  {
    TrimRepeatedPrefix(k, []);
    assert Repeat(HEX_PREFIX, k) + [] == Repeat(HEX_PREFIX, k);
  }

  /** The capital "0X" is not stripped, and its 'X' is not a hex digit. */
  lemma HexStringUpperPrefixFails(digits: string)
    ensures DecodeHexString(Str("0X" + digits)).Err?
  {
    var s := "0X" + digits;
    assert !HasPrefix(s, HEX_PREFIX) by { assert s[1] == 'X'; }
    assert TrimStart0x(s) == s;
    assert !IsDigit(s[1], 16);
  }

  // ---------------------------------------------------------------------------
  // deferred_failback

  /** The payload of `MapFailback::Deferred`: "deferred:" and a signed 32-bit count. */
  function DecodeDeferredFailback(j: Json): (r: Result<I32>)
    ensures r.Ok? ==> j.Str? && HasPrefix(j.s, DEFERRED_PREFIX)
    ensures j.Str? && HasPrefix(j.s, DEFERRED_PREFIX) ==>
      r == RustParseI32(j.s[|DEFERRED_PREFIX|..])
  {
    var s :- Serde.DecodeString(j);
    if HasPrefix(s, DEFERRED_PREFIX) then RustParseI32(s[|DEFERRED_PREFIX|..])
    else Err("unexpected format: " + s)
  }

  /** Every `i32` round-trips through "deferred:" and its decimal text. */
  lemma DeferredFailbackRoundTrip(n: I32)
    ensures DecodeDeferredFailback(Str(DEFERRED_PREFIX + IntToString(n))) == Ok(n)
  {
    var s := DEFERRED_PREFIX + IntToString(n);
    assert s[..|DEFERRED_PREFIX|] == DEFERRED_PREFIX;
    assert s[|DEFERRED_PREFIX|..] == IntToString(n);
    RustParseI32OfString(n);
  }

  /** A string without the "deferred:" prefix is an error. */
  lemma DeferredFailbackNeedsPrefix(s: string)
    requires !HasPrefix(s, DEFERRED_PREFIX)
    ensures DecodeDeferredFailback(Str(s)).Err?
  {
  }

  // ---------------------------------------------------------------------------
  // queueing_value

  /** The payload of `MapQueueing::Timed`: "N sec" is checked first, then "N chk",
      each with an unsigned 32-bit count. */
  function DecodeQueueingValue(j: Json): (r: Result<QueueingValue>)
    ensures r.Ok? ==> j.Str? && (HasSuffix(j.s, SECONDS_SUFFIX) || HasSuffix(j.s, CHECKS_SUFFIX))
    ensures j.Str? && HasSuffix(j.s, SECONDS_SUFFIX) ==>
      var num := RustParseU32(j.s[..|j.s| - |SECONDS_SUFFIX|]);
      (r.Ok? <==> num.Ok?) && (r.Ok? ==> r.value == Seconds(num.value))
    ensures j.Str? && !HasSuffix(j.s, SECONDS_SUFFIX) && HasSuffix(j.s, CHECKS_SUFFIX) ==>
      var num := RustParseU32(j.s[..|j.s| - |CHECKS_SUFFIX|]);
      (r.Ok? <==> num.Ok?) && (r.Ok? ==> r.value == Checks(num.value))
  {
    var s :- Serde.DecodeString(j);
    if HasSuffix(s, SECONDS_SUFFIX) then
      match RustParseU32(s[..|s| - |SECONDS_SUFFIX|])
      case Ok(n) => Ok(Seconds(n))
      case Err(_) => Err("invalid number in: " + s)
    else if HasSuffix(s, CHECKS_SUFFIX) then
      match RustParseU32(s[..|s| - |CHECKS_SUFFIX|])
      case Ok(n) => Ok(Checks(n))
      case Err(_) => Err("invalid number in: " + s)
    else Err("unexpected format: " + s)
  }

  /** Every `u32` round-trips through "N sec" and through "N chk". */
  lemma QueueingValueRoundTrip(n: U32)
    ensures DecodeQueueingValue(Str(NatToString(n) + SECONDS_SUFFIX)) == Ok(Seconds(n))
    ensures DecodeQueueingValue(Str(NatToString(n) + CHECKS_SUFFIX)) == Ok(Checks(n))
  {
    var t := NatToString(n);
    RustParseU32OfString(n);
    var secs := t + SECONDS_SUFFIX;
    assert secs[|secs| - |SECONDS_SUFFIX|..] == SECONDS_SUFFIX;
    assert secs[..|secs| - |SECONDS_SUFFIX|] == t;
    var chks := t + CHECKS_SUFFIX;
    assert chks[|chks| - |CHECKS_SUFFIX|..] == CHECKS_SUFFIX;
    assert chks[..|chks| - |CHECKS_SUFFIX|] == t;
    assert !HasSuffix(chks, SECONDS_SUFFIX) by {
      assert chks[|chks| - 1] == 'k';
    }
  }

  /** A string with neither suffix, or with a count that is not a `u32`, is an
      error: "invalid" and "abc sec" among them. */
  lemma QueueingValueRejects()
    ensures DecodeQueueingValue(Str("invalid")).Err?
    ensures DecodeQueueingValue(Str("abc sec")).Err?
  {
    var s := "abc sec";
    assert HasSuffix(s, SECONDS_SUFFIX);
    assert s[..|s| - |SECONDS_SUFFIX|] == "abc";
    assert !IsDigit('a', 10);
    assert !HasSuffix("invalid", SECONDS_SUFFIX) by { assert "invalid"[6] == 'd'; }
    assert !HasSuffix("invalid", CHECKS_SUFFIX) by { assert "invalid"[6] == 'd'; }
  }
}
