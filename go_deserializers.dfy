/** The Go twin's `parseHexString`: the "lun_hex" text of a path, read by
    `strconv.ParseUint` with base 0, where every failure becomes "no value". */
module GoDeserializers {
  import opened Wrappers
  import opened Numbers
  import Deserializers
  import opened Json

  /** `parseHexString`: absent for "" and "[undef]", and for any text that
      `ParseUint(s, 0, 64)` rejects; otherwise the parsed value. */
  function ParseHexString(s: string): (r: Option<U64>)
    ensures r.None? <==> s == "" || s == Deserializers.UNDEF_SENTINEL || GoParseUint(s).Err?
    ensures r.Some? ==> GoParseUint(s) == Ok(r.value)
  {
    if s == "" || s == Deserializers.UNDEF_SENTINEL then None
    else
      match GoParseUint(s)
      case Ok(v) => Some(v)
      case Err(_) => None
  }

  /** No underscore in `s`. */
  predicate NoUnderscore(s: string)
  {
    forall i :: 0 <= i < |s| ==> s[i] != '_'
  }

  /** "0x" or "0X" and hex digits of either case give their value when it fits
      in 64 bits, and nothing when it does not. */
  lemma HexPrefixed(x: char, digits: string)
    requires x == 'x' || x == 'X'
    requires |digits| >= 1 && AllDigits(digits, 16)
    ensures DigitsValue(digits, 16) <= U64_MAX ==> ParseHexString(['0', x] + digits) == Some(DigitsValue(digits, 16))
    ensures DigitsValue(digits, 16) > U64_MAX ==> ParseHexString(['0', x] + digits).None?
  {
    var s := ['0', x] + digits;
    assert s[2..] == digits;
    assert GoBasePrefix(s) == BaseSplit(16, digits);
    assert NoUnderscore(s) by {
      forall i | 0 <= i < |s| ensures s[i] != '_' {
        if i >= 2 { assert s[i] == digits[i - 2]; assert IsDigit(digits[i - 2], 16); }
      }
    }
    assert s != Deserializers.UNDEF_SENTINEL by { assert s[0] != Deserializers.UNDEF_SENTINEL[0]; }
    GoParseUintPlain(s);
  }

  /** The decimal text of a 64-bit value reads back as that value: a nonzero
      value has no leading zero and is read in base 10, and "0" is a bare
      octal prefix with no digits after it. */
  lemma DecimalRoundTrip(n: U64)
    ensures ParseHexString(NatToString(n)) == Some(n)
  {
    var s := NatToString(n);
    NatToStringValue(n);
    assert NoUnderscore(s) by {
      forall i | 0 <= i < |s| ensures s[i] != '_' { assert IsDigit(s[i], 10); }
    }
    assert s != Deserializers.UNDEF_SENTINEL by { assert IsDigit(s[0], 10); }
    GoParseUintPlain(s);
    if n < 10 {
      if n == 0 {
        assert s == "0";
        assert GoBasePrefix(s) == BaseSplit(8, []);
      } else {
        assert s[0] != '0';
      }
    } else {
      assert s[0] != '0';
    }
  }

  /** A leading zero followed by octal digits is read in base 8. */
  lemma LeadingZeroIsOctal(digits: string)
    requires |digits| >= 1 && AllDigits(digits, 8) && DigitsValue(digits, 8) <= U64_MAX
    ensures ParseHexString("0" + digits) == Some(DigitsValue(digits, 8))
  {
    var s := "0" + digits;
    assert s[1..] == digits;
    assert DigitValue(s[1]) < 8;
    assert GoBasePrefix(s) == BaseSplit(8, digits);
    assert NoUnderscore(s) by {
      forall i | 0 <= i < |s| ensures s[i] != '_' {
        if i >= 1 { assert s[i] == digits[i - 1]; assert IsDigit(digits[i - 1], 8); }
      }
    }
    assert s != Deserializers.UNDEF_SENTINEL by { assert s[0] != Deserializers.UNDEF_SENTINEL[0]; }
    GoParseUintPlain(s);
  }

  /** Text that does not start with a decimal digit is rejected: a sign
      ("-1"), hex letters without a prefix ("deadbeef"), words. */
  lemma NonDigitStartRejected(s: string)
    requires |s| >= 1 && !IsDigit(s[0], 10) && s[0] != '_'
    ensures ParseHexString(s).None?
  {
    assert GoBasePrefix(s) == BaseSplit(10, s);
  }

  /** After a hex prefix, a character that is no hex digit is rejected ("0xZZZ"). */
  lemma HexPrefixBadDigit(x: char, c: char, rest: string)
    requires x == 'x' || x == 'X'
    requires !IsDigit(c, 16) && c != '_'
    ensures ParseHexString(['0', x, c] + rest).None?
  {
    var s := ['0', x, c] + rest;
    assert s[2..] == [c] + rest;
    assert GoBasePrefix(s) == BaseSplit(16, [c] + rest);
  }

  /** A prefix with nothing after it is rejected: "0x" is a bare octal zero
      followed by the non-octal 'x'. */
  lemma BarePrefixRejected()
    ensures ParseHexString("0x").None?
  {
    assert GoBasePrefix("0x") == BaseSplit(8, "x");
    assert !IsDigit('x', 8);
  }

  /** The sentinel and the empty string give nothing. */
  lemma SentinelsGiveNothing()
    ensures ParseHexString("").None?
    ensures ParseHexString(Deserializers.UNDEF_SENTINEL).None?
  {
  }

  /** A run of 'f's after `acc` is one less than the next power of sixteen. */
  lemma {:induction false} ValueOfFs(acc: nat, s: string)
    requires forall i :: 0 <= i < |s| ==> s[i] == 'f'
    ensures AllDigits(s, 16)
    ensures ValueFrom(acc, s, 16) == (acc + 1) * Pow(16, |s|) - 1
    decreases |s|
  {
    assert AllDigits(s, 16) by {
      forall i | 0 <= i < |s| ensures IsDigit(s[i], 16) { assert DigitValue(s[i]) == 15; }
    }
    if s != [] {
      assert DigitValue(s[0]) == 15;
      ValueOfFs(acc * 16 + 15, s[1..]);
      var p := Pow(16, |s| - 1);
      assert (acc * 16 + 15 + 1) * p == (acc + 1) * (16 * p);
    }
  }

  lemma {:induction false} PowAdd(b: nat, e1: nat, e2: nat)
    ensures Pow(b, e1 + e2) == Pow(b, e1) * Pow(b, e2)
    decreases e1
  {
    if e1 > 0 {
      PowAdd(b, e1 - 1, e2);
      assert Pow(b, e1 + e2) == b * Pow(b, e1 - 1 + e2);
    }
  }

  /** Sixteen hex digits span exactly the 64-bit range. */
  lemma SixteenHexDigits()
    ensures Pow(16, 16) == U64_MAX + 1
  {
    assert Pow(16, 4) == 0x1_0000;
    PowAdd(16, 4, 4);
    PowAdd(16, 8, 8);
  }

  /** "0x" and sixteen 'f's, the largest 64-bit value, is accepted. */
  lemma WidestAccepted(fs: string)
    requires |fs| == 16 && forall i :: 0 <= i < |fs| ==> fs[i] == 'f'
    ensures ParseHexString(['0', 'x'] + fs) == Some(U64_MAX)
  {
    SixteenHexDigits();
    ValueOfFs(0, fs);
    HexPrefixed('x', fs);
  }

  /** 2^64, "0x1" and sixteen zeros, does not fit. */
  lemma OverflowRejected(zeros: string)
    requires |zeros| == 16 && forall i :: 0 <= i < |zeros| ==> zeros[i] == '0'
    ensures ParseHexString(['0', 'x', '1'] + zeros).None?
  {
    SixteenHexDigits();
    ValueFromZeros(1, zeros, 16);
    var over := ['1'] + zeros;
    assert AllDigits(over, 16) by {
      forall i | 0 <= i < |over| ensures IsDigit(over[i], 16) {
        if i > 0 { assert over[i] == zeros[i - 1]; }
      }
    }
    assert over[1..] == zeros;
    assert DigitsValue(over, 16) == ValueFrom(1, zeros, 16);
    assert ['0', 'x', '1'] + zeros == ['0', 'x'] + over;
    HexPrefixed('x', over);
  }

  // ---------------------------------------------------------------------------
  // The two implementations side by side

  /** Bare digits are hexadecimal to the Rust decoder and decimal to the Go one. */
  lemma TwinsDifferOnBareDigits(digits: string)
    requires |digits| >= 1 && AllDigits(digits, 10) && digits[0] != '0'
    requires DigitsValue(digits, 16) <= U64_MAX && DigitsValue(digits, 10) <= U64_MAX
    ensures Deserializers.DecodeHexString(Str(digits)) == Ok(Some(DigitsValue(digits, 16)))
    ensures ParseHexString(digits) == Some(DigitsValue(digits, 10))
  {
    assert AllDigits(digits, 16) by {
      forall i | 0 <= i < |digits| ensures IsDigit(digits[i], 16) { assert IsDigit(digits[i], 10); }
    }
    Deserializers.HexStringOfDigits(0, digits);
    assert Deserializers.Repeat(Deserializers.HEX_PREFIX, 0) + digits == digits;
    assert NoUnderscore(digits) by {
      forall i | 0 <= i < |digits| ensures digits[i] != '_' { assert IsDigit(digits[i], 10); }
    }
    assert digits != Deserializers.UNDEF_SENTINEL by { assert IsDigit(digits[0], 10); }
    GoParseUintPlain(digits);
  }

  /** The capital "0X" fails the whole Rust document but is a hex prefix to Go. */
  lemma TwinsDifferOnCapitalPrefix(digits: string)
    requires |digits| >= 1 && AllDigits(digits, 16) && DigitsValue(digits, 16) <= U64_MAX
    ensures Deserializers.DecodeHexString(Str("0X" + digits)).Err?
    ensures ParseHexString("0X" + digits) == Some(DigitsValue(digits, 16))
  {
    Deserializers.HexStringUpperPrefixFails(digits);
    HexPrefixed('X', digits);
  }
}
