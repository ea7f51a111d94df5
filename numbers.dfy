/** Integer widths and the text-to-integer grammars of the two standard libraries
    the exporter relies on, written out as explicit assumptions:

    - Rust `uN::from_str_radix` / `str::parse::<uN>` / `str::parse::<i32>`:
      a nonempty string, an optional leading `+` (and `-` for signed types),
      at least one digit of the radix, and a range check; ASCII only.
    - Go `strconv.ParseUint(s, 0, 64)`: the base is chosen by a prefix
      (`0x`/`0X` hex, `0b` binary, `0o` octal, a bare leading `0` octal, otherwise
      decimal); `_` separators are allowed where Go's `underscoreOK` allows them;
      no sign; a range check against 2^64 - 1.

    Also decimal formatting, which Rust's `to_string` and Go's `FormatUint(_, 10)`
    both perform, and ASCII lower-casing. */
module Numbers {
  import opened Wrappers

  const U32_MAX: nat := 0xFFFF_FFFF
  const U64_MAX: nat := 0xFFFF_FFFF_FFFF_FFFF
  const I32_MIN: int := -0x8000_0000
  const I32_MAX: int := 0x7FFF_FFFF

  type U32 = n: nat | n <= U32_MAX
  type U64 = n: nat | n <= U64_MAX
  type I32 = n: int | I32_MIN <= n <= I32_MAX

  // The four messages of Rust's `ParseIntError`.
  const EMPTY_MSG := "cannot parse integer from empty string"
  const INVALID_DIGIT_MSG := "invalid digit found in string"
  const POS_OVERFLOW_MSG := "number too large to fit in target type"
  const NEG_OVERFLOW_MSG := "number too small to fit in target type"

  // The two messages of Go's `strconv.NumError`.
  const GO_SYNTAX_MSG := "invalid syntax"
  const GO_RANGE_MSG := "value out of range"

  /** The value of an ASCII letter or digit as a digit of radix up to 36:
      `0`-`9` are 0-9, `a`-`z` and `A`-`Z` are 10-35; -1 for anything else. */
  function DigitValue(c: char): int
  {
    if '0' <= c <= '9' then c as int - '0' as int
    else if 'a' <= c <= 'z' then c as int - 'a' as int + 10
    else if 'A' <= c <= 'Z' then c as int - 'A' as int + 10
    else -1
  }

  predicate IsDigit(c: char, radix: nat)
  {
    0 <= DigitValue(c) < radix
  }

  predicate AllDigits(s: string, radix: nat)
  {
    forall i :: 0 <= i < |s| ==> IsDigit(s[i], radix)
  }

  /** The positional value of the digits `s`, read left to right after `acc`. */
  function ValueFrom(acc: nat, s: string, radix: nat): nat
    requires AllDigits(s, radix)
    decreases |s|
  {
    if s == [] then acc else ValueFrom(acc * radix + DigitValue(s[0]), s[1..], radix)
  }

  /** The value of a digit string. */
  function DigitsValue(s: string, radix: nat): nat
    requires AllDigits(s, radix)
  {
    ValueFrom(0, s, radix)
  }

  lemma {:induction false} ValueFromAtLeast(acc: nat, s: string, radix: nat)
    requires 1 <= radix
    ensures AllDigits(s, radix) ==> ValueFrom(acc, s, radix) >= acc
    decreases |s|
  {
    if s != [] && AllDigits(s, radix) {
      assert AllDigits(s[1..], radix);
      assert acc * radix == acc + acc * (radix - 1);
      assert acc * (radix - 1) >= 0;
      ValueFromAtLeast(acc * radix + DigitValue(s[0]), s[1..], radix);
    }
  }

  /** Appending a digit multiplies the value so far by the radix and adds the digit. */
  lemma {:induction false} ValueFromSnoc(acc: nat, s: string, c: char, radix: nat)
    requires AllDigits(s, radix) && IsDigit(c, radix)
    ensures AllDigits(s + [c], radix)
    ensures ValueFrom(acc, s + [c], radix) == ValueFrom(acc, s, radix) * radix + DigitValue(c)
    decreases |s|
  {
    assert AllDigits(s + [c], radix) by {
      forall i | 0 <= i < |s + [c]| ensures IsDigit((s + [c])[i], radix) {
        if i < |s| { assert (s + [c])[i] == s[i]; }
      }
    }
    if s != [] {
      assert (s + [c])[1..] == s[1..] + [c];
      ValueFromSnoc(acc * radix + DigitValue(s[0]), s[1..], c, radix);
    }
  }

  /** Reading `a + b` is reading `a`, then carrying on with `b`. */
  lemma {:induction false} ValueFromAppend(acc: nat, a: string, b: string, radix: nat)
    requires AllDigits(a, radix) && AllDigits(b, radix)
    ensures AllDigits(a + b, radix)
    ensures ValueFrom(acc, a + b, radix) == ValueFrom(ValueFrom(acc, a, radix), b, radix)
    decreases |a|
  {
    assert AllDigits(a + b, radix) by {
      forall i | 0 <= i < |a + b| ensures IsDigit((a + b)[i], radix) {
        if i < |a| { assert (a + b)[i] == a[i]; } else { assert (a + b)[i] == b[i - |a|]; }
      }
    }
    if a == [] {
      assert a + b == b;
    } else {
      assert (a + b)[1..] == a[1..] + b;
      ValueFromAppend(acc * radix + DigitValue(a[0]), a[1..], b, radix);
    }
  }

  function Pow(b: nat, e: nat): nat
  {
    if e == 0 then 1 else b * Pow(b, e - 1)
  }

  /** Trailing zeros shift the value by a power of the radix. */
  lemma {:induction false} ValueFromZeros(acc: nat, s: string, radix: nat)
    requires 1 <= radix && forall i :: 0 <= i < |s| ==> s[i] == '0'
    ensures AllDigits(s, radix)
    ensures ValueFrom(acc, s, radix) == acc * Pow(radix, |s|)
    decreases |s|
  {
    assert AllDigits(s, radix) by {
      forall i | 0 <= i < |s| ensures IsDigit(s[i], radix) {
        assert DigitValue(s[i]) == 0;
      }
    }
    if s != [] {
      assert DigitValue(s[0]) == 0;
      ValueFromZeros(acc * radix, s[1..], radix);
      assert acc * radix * Pow(radix, |s| - 1) == acc * (radix * Pow(radix, |s| - 1));
    }
  }

  // ---------------------------------------------------------------------------
  // Decimal formatting

  function DecimalDigit(d: nat): char
    requires d < 10
  {
    ('0' as int + d) as char
  }

  /** The base-10 text of `n`, without sign or leading zeros. */
  function NatToString(n: nat): (s: string)
    ensures |s| >= 1 && AllDigits(s, 10)
    ensures |s| >= 2 ==> s[0] != '0'
    decreases n
  {
    if n < 10 then [DecimalDigit(n)] else NatToString(n / 10) + [DecimalDigit(n % 10)]
  }

  /** The base-10 text of an integer: a `-` in front of negative values. */
  function IntToString(n: int): string
  {
    if n < 0 then "-" + NatToString(-n) else NatToString(n)
  }

  /** Reading back the decimal text of `n` gives `n`. */
  lemma {:induction false} NatToStringValue(n: nat)
    ensures DigitsValue(NatToString(n), 10) == n
    decreases n
  {
    if n >= 10 {
      NatToStringValue(n / 10);
      ValueFromSnoc(0, NatToString(n / 10), DecimalDigit(n % 10), 10);
      assert DigitValue(DecimalDigit(n % 10)) == n % 10;
      assert (n / 10) * 10 + n % 10 == n;
    } else {
      var t := NatToString(n);
      assert DigitValue(t[0]) == n && t[1..] == [];
      assert ValueFrom(0, t, 10) == ValueFrom(DigitValue(t[0]), t[1..], 10);
    }
  }

  /** Distinct numbers have distinct decimal texts. */
  lemma NatToStringInjective(m: nat, n: nat)
    ensures NatToString(m) == NatToString(n) ==> m == n
  {
    NatToStringValue(m);
    NatToStringValue(n);
  }

  // ---------------------------------------------------------------------------
  // Rust: `from_str_radix`

  /** Rust's digit loop: every character must be a digit of `radix`, and the
      running value must never exceed `limit`; the first offence decides the error. */
  function Accumulate(s: string, radix: nat, acc: nat, limit: nat, overflow: string): (r: Result<nat>)
    requires 2 <= radix && acc <= limit
    ensures r.Ok? <==> AllDigits(s, radix) && ValueFrom(acc, s, radix) <= limit
    ensures r.Ok? ==> r.value == ValueFrom(acc, s, radix)
    decreases |s|
  {
    if s == [] then Ok(acc)
    else if !IsDigit(s[0], radix) then Err(INVALID_DIGIT_MSG)
    else
      var next := acc * radix + DigitValue(s[0]);
      if next > limit then
        (ValueFromAtLeast(next, s[1..], radix); Err(overflow))
      else
        Accumulate(s[1..], radix, next, limit, overflow)
  }

  /** `from_str_radix` for an unsigned type whose largest value is `max`. */
  function RustParseUnsigned(s: string, radix: nat, max: nat): (r: Result<nat>)
    requires 2 <= radix
    ensures r.Ok? <==>
      |s| >= 1 &&
      var digits := if s[0] == '+' then s[1..] else s;
      |digits| >= 1 && AllDigits(digits, radix) && DigitsValue(digits, radix) <= max
    ensures r.Ok? ==> r.value == DigitsValue(if s[0] == '+' then s[1..] else s, radix)
  {
    if s == [] then Err(EMPTY_MSG)
    else if (s[0] == '+' || s[0] == '-') && |s| == 1 then Err(INVALID_DIGIT_MSG)
    else Accumulate(if s[0] == '+' then s[1..] else s, radix, 0, max, POS_OVERFLOW_MSG)
  }

  /** `str::parse::<u32>`. */
  function RustParseU32(s: string): (r: Result<U32>)
    ensures r.Ok? <==> RustParseUnsigned(s, 10, U32_MAX).Ok?
    ensures r.Ok? ==> r.value == RustParseUnsigned(s, 10, U32_MAX).value
  {
    var n :- RustParseUnsigned(s, 10, U32_MAX);
    Ok(n)
  }

  /** `u64::from_str_radix(s, 16)`. */
  function RustParseHexU64(s: string): (r: Result<U64>)
    ensures r.Ok? <==> RustParseUnsigned(s, 16, U64_MAX).Ok?
    ensures r.Ok? ==> r.value == RustParseUnsigned(s, 16, U64_MAX).value
  {
    var n :- RustParseUnsigned(s, 16, U64_MAX);
    Ok(n)
  }

  /** `str::parse::<i32>`: a leading `-` accumulates the magnitude up to 2^31. */
  function RustParseI32(s: string): (r: Result<I32>)
    ensures r.Ok? <==>
      |s| >= 1 &&
      var digits := if s[0] == '+' || s[0] == '-' then s[1..] else s;
      |digits| >= 1 && AllDigits(digits, 10) &&
      DigitsValue(digits, 10) <= (if s[0] == '-' then -I32_MIN else I32_MAX)
    ensures r.Ok? ==>
      var digits := if s[0] == '+' || s[0] == '-' then s[1..] else s;
      r.value == if s[0] == '-' then 0 - DigitsValue(digits, 10) else DigitsValue(digits, 10)
  {
    if s == [] then Err(EMPTY_MSG)
    else if (s[0] == '+' || s[0] == '-') && |s| == 1 then Err(INVALID_DIGIT_MSG)
    else if s[0] == '-' then
      var m :- Accumulate(s[1..], 10, 0, -I32_MIN, NEG_OVERFLOW_MSG);
      var v: I32 := 0 - m;
      Ok(v)
    else
      var m :- Accumulate(if s[0] == '+' then s[1..] else s, 10, 0, I32_MAX, POS_OVERFLOW_MSG);
      Ok(m)
  }

  /** Every `u32` parses back from its decimal text. */
  lemma RustParseU32OfString(n: U32)
    ensures RustParseU32(NatToString(n)) == Ok(n)
  {
    NatToStringValue(n);
  }

  /** Every `i32` parses back from its decimal text. */
  lemma RustParseI32OfString(n: I32)
    ensures RustParseI32(IntToString(n)) == Ok(n)
  {
    var s := IntToString(n);
    if n < 0 {
      var m: nat := 0 - n;
      NatToStringValue(m);
      assert s[1..] == NatToString(m);
    } else {
      NatToStringValue(n);
    }
  }

  // ---------------------------------------------------------------------------
  // Go: `strconv.ParseUint(s, 0, 64)`

  /** Go's `lower`: maps an ASCII capital to its small letter. */
  function GoLower(c: char): char
  {
    if 'A' <= c <= 'Z' then (c as int + 32) as char else c
  }

  /** The base chosen by a prefix, and the text left after the prefix. */
  datatype BaseSplit = BaseSplit(base: nat, digits: string)

  function GoBasePrefix(s: string): (r: BaseSplit)
    requires |s| >= 1
    ensures r.base in {2, 8, 10, 16}
  {
    if s[0] != '0' then BaseSplit(10, s)
    else if |s| >= 3 && GoLower(s[1]) == 'b' then BaseSplit(2, s[2..])
    else if |s| >= 3 && GoLower(s[1]) == 'o' then BaseSplit(8, s[2..])
    else if |s| >= 3 && GoLower(s[1]) == 'x' then BaseSplit(16, s[2..])
    else BaseSplit(8, s[1..])
  }

  /** The running value and whether an underscore was skipped. */
  datatype Scan = Scan(value: nat, underscores: bool)

  /** Go's digit loop: `_` is skipped, any other non-digit of `base` is a syntax
      error, and a running value above 2^64 - 1 is a range error. */
  function GoAccumulate(s: string, base: nat, acc: nat, underscores: bool): Result<Scan>
    requires 2 <= base && acc <= U64_MAX
    decreases |s|
  {
    if s == [] then Ok(Scan(acc, underscores))
    else if s[0] == '_' then GoAccumulate(s[1..], base, acc, true)
    else if !IsDigit(s[0], base) then Err(GO_SYNTAX_MSG)
    else
      var next := acc * base + DigitValue(s[0]);
      if next > U64_MAX then Err(GO_RANGE_MSG) else GoAccumulate(s[1..], base, next, underscores)
  }

  /** What Go's `underscoreOK` remembers of the last character. */
  datatype Saw = Start | SawDigit | SawUnderscore | SawOther

  function UnderscoreScan(s: string, saw: Saw, hex: bool): bool
    decreases |s|
  {
    if s == [] then saw != SawUnderscore
    else if '0' <= s[0] <= '9' || (hex && 'a' <= GoLower(s[0]) <= 'f') then
      UnderscoreScan(s[1..], SawDigit, hex)
    else if s[0] == '_' then
      saw == SawDigit && UnderscoreScan(s[1..], SawUnderscore, hex)
    else if saw == SawUnderscore then false
    else UnderscoreScan(s[1..], SawOther, hex)
  }

  /** Go's `underscoreOK`: an underscore only between digits, or between a base
      prefix and a digit. */
  function UnderscoreOK(s0: string): bool
  {
    var s := if |s0| >= 1 && (s0[0] == '-' || s0[0] == '+') then s0[1..] else s0;
    if |s| >= 2 && s[0] == '0' && GoLower(s[1]) in {'b', 'o', 'x'} then
      UnderscoreScan(s[2..], SawDigit, GoLower(s[1]) == 'x')
    else
      UnderscoreScan(s, Start, false)
  }

  /** `strconv.ParseUint(s, 0, 64)`. */
  function GoParseUint(s: string): Result<U64>
  {
    if s == [] then Err(GO_SYNTAX_MSG)
    else
      var split := GoBasePrefix(s);
      var scan :- GoAccumulate(split.digits, split.base, 0, false);
      if scan.underscores && !UnderscoreOK(s) then Err(GO_SYNTAX_MSG)
      else if scan.value <= U64_MAX then Ok(scan.value)
      else Err(GO_RANGE_MSG)
  }

  /** Without underscores Go's digit loop succeeds exactly on digits whose value fits. */
  lemma {:induction false} GoAccumulatePlain(s: string, base: nat, acc: nat, underscores: bool)
    requires 2 <= base && acc <= U64_MAX
    requires forall i :: 0 <= i < |s| ==> s[i] != '_'
    ensures GoAccumulate(s, base, acc, underscores).Ok? <==>
      AllDigits(s, base) && ValueFrom(acc, s, base) <= U64_MAX
    ensures GoAccumulate(s, base, acc, underscores).Ok? ==>
      GoAccumulate(s, base, acc, underscores) == Ok(Scan(ValueFrom(acc, s, base), underscores))
    decreases |s|
  {
    if s != [] && IsDigit(s[0], base) {
      var next := acc * base + DigitValue(s[0]);
      if next > U64_MAX {
        ValueFromAtLeast(next, s[1..], base);
      } else {
        GoAccumulatePlain(s[1..], base, next, underscores);
      }
    }
  }

  /** Without underscores, `ParseUint` base 0 accepts the prefix-selected digits
      exactly when they are all digits of that base and their value fits in 64 bits. */
  lemma GoParseUintPlain(s: string)
    requires |s| >= 1 && forall i :: 0 <= i < |s| ==> s[i] != '_'
    ensures var split := GoBasePrefix(s);
      GoParseUint(s).Ok? <==>
        AllDigits(split.digits, split.base) && DigitsValue(split.digits, split.base) <= U64_MAX
    ensures var split := GoBasePrefix(s);
      GoParseUint(s).Ok? ==> GoParseUint(s).value == DigitsValue(split.digits, split.base)
  {
    var split := GoBasePrefix(s);
    assert forall i :: 0 <= i < |split.digits| ==> split.digits[i] != '_' by {
      forall i | 0 <= i < |split.digits| ensures split.digits[i] != '_' {
        assert split.digits[i] == s[i + (|s| - |split.digits|)];
      }
    }
    GoAccumulatePlain(split.digits, split.base, 0, false);
  }

  // ---------------------------------------------------------------------------
  // Text helpers

  /** ASCII lower-casing, the part of Rust's `to_lowercase` the variant names need. */
  function Lower(s: string): (r: string)
    ensures |r| == |s|
    ensures forall i :: 0 <= i < |s| ==> r[i] == GoLower(s[i])
  {
    seq(|s|, i requires 0 <= i < |s| => GoLower(s[i]))
  }

  predicate HasPrefix(s: string, prefix: string)
  {
    |prefix| <= |s| && s[..|prefix|] == prefix
  }

  predicate HasSuffix(s: string, suffix: string)
  {
    |suffix| <= |s| && s[|s| - |suffix|..] == suffix
  }
}
