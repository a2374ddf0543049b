/**
 * `Number.parseInt(s)` with no radix argument, as defined for `parseInt` in
 * section 19.2.5 of ECMA-262: skip leading white space, read an optional
 * sign, switch to radix 16 after a "0x" or "0X" prefix (radix 10 otherwise),
 * then read the longest run of digits of that radix. No digits gives NaN,
 * here None.
 */
module NumberParsing {
  import opened Options

  /**
   * A code point that `parseInt` skips before the number: the WhiteSpace
   * (TAB, VT, FF, ZWNBSP and every Unicode "Zs" space) and LineTerminator
   * code points of ECMA-262.
   */
  predicate IsStrWhiteSpace(c: char)
  {
    var k := c as int;
    k == 0x09 || k == 0x0B || k == 0x0C || k == 0xFEFF
    || k == 0x20 || k == 0xA0 || k == 0x1680 || 0x2000 <= k <= 0x200A
    || k == 0x202F || k == 0x205F || k == 0x3000
    || k == 0x0A || k == 0x0D || k == 0x2028 || k == 0x2029
  }

  /** The two radixes `parseInt` uses when no radix argument is given. */
  datatype Radix = Decimal | Hexadecimal

  function Base(radix: Radix): nat
  {
    match radix
    case Decimal => 10
    case Hexadecimal => 16
  }

  /** The value of `c` as a digit of the given radix ("0"-"9", then letters of either case), if it is one. */
  function DigitValue(c: char, radix: Radix): (d: Option<nat>)
    ensures d.Some? ==> d.value < Base(radix)
    ensures '0' <= c <= '9' ==> d == Some(c as int - '0' as int)
    ensures radix == Hexadecimal && 'a' <= c <= 'f' ==> d == Some(c as int - 'a' as int + 10)
    ensures radix == Hexadecimal && 'A' <= c <= 'F' ==> d == Some(c as int - 'A' as int + 10)
  {
    var v :=
      if '0' <= c <= '9' then c as int - '0' as int
      else if 'a' <= c <= 'z' then c as int - 'a' as int + 10
      else if 'A' <= c <= 'Z' then c as int - 'A' as int + 10
      else 36;
    if v < Base(radix) then Some(v) else None
  }

  predicate IsDigit(c: char, radix: Radix)
  {
    DigitValue(c, radix).Some?
  }

  /** `s` without its leading white space. */
  function TrimStart(s: string): (t: string)
    ensures |t| <= |s| && t == s[|s| - |t|..]
    ensures forall i :: 0 <= i < |s| - |t| ==> IsStrWhiteSpace(s[i])
    ensures t == [] || !IsStrWhiteSpace(t[0])
  {
    if s != [] && IsStrWhiteSpace(s[0]) then TrimStart(s[1..]) else s
  }

  /** The length of the longest prefix of `s` made of digits of the given radix. */
  function DigitRun(s: string, radix: Radix): (n: nat)
    ensures n <= |s|
    ensures forall i :: 0 <= i < n ==> IsDigit(s[i], radix)
    ensures n == |s| || !IsDigit(s[n], radix)
  {
    if s == [] || !IsDigit(s[0], radix) then 0 else 1 + DigitRun(s[1..], radix)
  }

  /** The number that a string of digits denotes in the given radix, most significant digit first. */
  function DigitsValue(digits: string, radix: Radix): int
    requires forall i :: 0 <= i < |digits| ==> IsDigit(digits[i], radix)
  {
    if digits == [] then 0
    else
      var last := digits[|digits| - 1];
      assert IsDigit(last, radix);
      var high := DigitsValue(digits[..|digits| - 1], radix);
      var shifted := match radix case Decimal => 10 * high case Hexadecimal => 16 * high;
      shifted + DigitValue(last, radix).value
  }

  /** Whether `s` starts with a minus sign, and what follows its sign, if it has one. */
  function SplitSign(s: string): (split: (bool, string))
  {
    if s != [] && s[0] == '-' then (true, s[1..])
    else if s != [] && s[0] == '+' then (false, s[1..])
    else (false, s)
  }

  /** Whether `s` starts with "0x" or "0X". */
  predicate HasHexPrefix(s: string)
  {
    |s| >= 2 && s[0] == '0' && (s[1] == 'x' || s[1] == 'X')
  }

  /** The radix that `s` selects (16 after a "0x" or "0X" prefix, 10 otherwise) and what follows the prefix. */
  function SplitRadix(s: string): (split: (Radix, string))
  {
    if HasHexPrefix(s) then (Hexadecimal, s[2..]) else (Decimal, s)
  }

  /** The value of the longest run of digits that `s` starts with; None when there is none. */
  function ReadDigits(s: string, radix: Radix): (r: Option<int>)
    ensures r.None? <==> s == [] || !IsDigit(s[0], radix)
  {
    var end := DigitRun(s, radix);
    if end == 0 then None else Some(DigitsValue(s[..end], radix))
  }

  /** What `parseInt` makes of its input once the leading white space is gone. */
  function ParseTrimmed(s: string): (r: Option<int>)
    ensures r.Some? ==> s != [] && (s[0] == '-' || s[0] == '+' || '0' <= s[0] <= '9')
  {
    var signed := SplitSign(s);
    var prefixed := SplitRadix(signed.1);
    var digits := ReadDigits(prefixed.1, prefixed.0);
    if digits.None? then None
    else if signed.0 then Some(-digits.value)
    else Some(digits.value)
  }

  /**
   * `Number.parseInt(input)`, None standing for NaN. JavaScript's -0 (from
   * "-0") is the integer 0 here.
   */
  function ParseInt(input: string): (r: Option<int>)
    ensures r.Some? ==> var t := TrimStart(input); t != [] && (t[0] == '-' || t[0] == '+' || '0' <= t[0] <= '9')
  {
    ParseTrimmed(TrimStart(input))
  }

  /** The decimal digit for `d`. */
  function DigitChar(d: nat): (c: char)
    requires d < 10
    ensures '0' <= c <= '9' && c as int - '0' as int == d
  {
    ('0' as int + d) as char
  }

  /**
   * The decimal representation of `n` that JavaScript's `String(n)` gives:
   * digits only, and no leading zero unless `n` is 0.
   */
  function DecimalString(n: nat): (s: string)
    ensures |s| >= 1
    ensures forall i :: 0 <= i < |s| ==> '0' <= s[i] <= '9'
    ensures s[0] == '0' <==> n == 0
    ensures s[0] == '0' ==> |s| == 1
  {
    if n < 10 then [DigitChar(n)] else DecimalString(n / 10) + [DigitChar(n % 10)]
  }

  /** The digits of `DecimalString(n)` denote `n` again. */
  lemma {:induction false} DecimalStringValue(n: nat)
    ensures forall i :: 0 <= i < |DecimalString(n)| ==> IsDigit(DecimalString(n)[i], Decimal)
    ensures DigitsValue(DecimalString(n), Decimal) == n
  {
    var s := DecimalString(n);
    if n < 10 {
      assert s[..0] == [];
    } else {
      DecimalStringValue(n / 10);
      assert s[..|s| - 1] == DecimalString(n / 10);
    }
  }

  /** A digit run followed by a non-digit ends where the non-digit starts. */
  lemma {:induction false} DigitRunOfDigits(digits: string, rest: string, radix: Radix)
    requires forall i :: 0 <= i < |digits| ==> IsDigit(digits[i], radix)
    requires rest == [] || !IsDigit(rest[0], radix)
    ensures DigitRun(digits + rest, radix) == |digits|
  {
    if digits != [] {
      DigitRunOfDigits(digits[1..], rest, radix);
      assert (digits + rest)[1..] == digits[1..] + rest;
    }
  }

  /** Decimal digits followed by anything but "x" or "X" after a lone "0" do not form a hexadecimal prefix. */
  lemma NoHexPrefix(digits: string, rest: string)
    requires digits != []
    requires forall i :: 0 <= i < |digits| ==> IsDigit(digits[i], Decimal)
    requires digits == "0" && rest != [] ==> rest[0] != 'x' && rest[0] != 'X'
    ensures !HasHexPrefix(digits + rest)
  {
    var s := digits + rest;
    if |digits| >= 2 {
      assert s[1] == digits[1] && IsDigit(s[1], Decimal);
    } else if |s| >= 2 && s[0] == '0' {
      assert digits == "0";
      assert s[1] == rest[0];
    }
  }

  /** A decimal digit is one of the numerals "0"-"9" (so it is neither white space nor a sign). */
  lemma DecimalDigitIsNumeral(c: char)
    requires IsDigit(c, Decimal)
    ensures '0' <= c <= '9'
  {
  }

  /** Input that does not start with white space is not trimmed. */
  lemma TrimStartUnchanged(s: string)
    requires s == [] || !IsStrWhiteSpace(s[0])
    ensures TrimStart(s) == s
  {
  }

  /** Input that starts with neither sign nor a "0x" prefix is read in radix 10 from its first character. */
  lemma UnsignedUnchanged(s: string)
    requires s == [] || (s[0] != '-' && s[0] != '+')
    requires !HasHexPrefix(s)
    ensures ParseTrimmed(s) == ReadDigits(s, Decimal)
  {
    assert SplitSign(s) == (false, s);
    assert SplitRadix(s) == (Decimal, s);
  }

  /** An input that starts with a numeral and no hexadecimal prefix is read as its leading run of decimal digits. */
  lemma ParseUnsignedDecimal(s: string)
    requires s != [] && '0' <= s[0] <= '9' && !HasHexPrefix(s)
    ensures ParseInt(s) == ReadDigits(s, Decimal)
  {
    TrimStartUnchanged(s);
    UnsignedUnchanged(s);
  }

  /** The leading run of a string of digits followed by a non-digit is that string of digits. */
  lemma ReadDigitsThenRest(digits: string, rest: string)
    requires digits != []
    requires forall i :: 0 <= i < |digits| ==> IsDigit(digits[i], Decimal)
    requires rest == [] || !IsDigit(rest[0], Decimal)
    ensures ReadDigits(digits + rest, Decimal) == Some(DigitsValue(digits, Decimal))
  {
    DigitRunOfDigits(digits, rest, Decimal);
    assert (digits + rest)[..|digits|] == digits;
  }

  /**
   * A run of decimal digits that does not start a hexadecimal prefix is
   * read as the number it denotes, whatever non-digit follows it.
   */
  lemma ParseDigitsThenRest(digits: string, rest: string)
    requires digits != []
    requires forall i :: 0 <= i < |digits| ==> IsDigit(digits[i], Decimal)
    requires rest == [] || !IsDigit(rest[0], Decimal)
    requires digits == "0" && rest != [] ==> rest[0] != 'x' && rest[0] != 'X'
    ensures ParseInt(digits + rest) == Some(DigitsValue(digits, Decimal))
  {
    var s := digits + rest;
    assert s[0] == digits[0];
    DecimalDigitIsNumeral(digits[0]);
    NoHexPrefix(digits, rest);
    ParseUnsignedDecimal(s);
    ReadDigitsThenRest(digits, rest);
  }

  /**
   * `parseInt` reads the decimal representation of `n` back as `n`, whatever
   * follows it, as long as that does not continue the number: "2.5" gives 2,
   * "7 persons" gives 7. ("0" followed by "x" would start a hexadecimal number.)
   */
  lemma ParseDecimalPrefix(n: nat, rest: string)
    requires rest == [] || (!IsDigit(rest[0], Decimal) && (n == 0 ==> rest[0] != 'x' && rest[0] != 'X'))
    ensures ParseInt(DecimalString(n) + rest) == Some(n)
  {
    var digits := DecimalString(n);
    assert digits == "0" ==> n == 0 by {
      if digits == "0" { assert digits[0] == '0'; }
    }
    DecimalStringValue(n);
    ParseDigitsThenRest(digits, rest);
  }

  /** Round trip: parsing the decimal representation of a natural number gives that number. */
  lemma ParseDecimalString(n: nat)
    ensures ParseInt(DecimalString(n)) == Some(n)
  {
    ParseDecimalPrefix(n, []);
    assert DecimalString(n) + [] == DecimalString(n);
  }

  /**
   * A minus sign in front of an unsigned number negates it, and NaN stays
   * NaN: "-" followed by what reads as `v` reads as `-v`.
   */
  lemma ParseMinusSign(s: string)
    requires s == [] || (!IsStrWhiteSpace(s[0]) && s[0] != '-' && s[0] != '+')
    ensures ParseInt("-" + s).None? <==> ParseInt(s).None?
    ensures ParseInt(s).Some? ==> ParseInt("-" + s) == Some(-ParseInt(s).value)
  {
    var m := "-" + s;
    assert TrimStart(m) == m;
    assert TrimStart(s) == s;
    assert SplitSign(m) == (true, s) by {
      assert m[1..] == s;
    }
    assert SplitSign(s) == (false, s);
  }

  /** A plus sign in front of an unsigned number changes nothing: "+5" reads as 5, "+" alone as NaN. */
  lemma ParsePlusSign(s: string)
    requires s == [] || (!IsStrWhiteSpace(s[0]) && s[0] != '-' && s[0] != '+')
    ensures ParseInt("+" + s) == ParseInt(s)
  {
    var p := "+" + s;
    assert TrimStart(p) == p;
    assert TrimStart(s) == s;
    assert SplitSign(p) == (false, s) by {
      assert p[1..] == s;
    }
    assert SplitSign(s) == (false, s);
  }

  /** A minus sign in front of the decimal representation of `n` gives `-n`. */
  lemma ParseNegative(n: nat)
    ensures ParseInt("-" + DecimalString(n)) == Some(-(n as int))
  {
    ParseDecimalString(n);
    ParseMinusSign(DecimalString(n));
  }

  /** Leading white space is skipped: it never changes what is parsed. */
  lemma {:induction false} TrimStartSkipsWhiteSpace(ws: string, s: string)
    requires forall i :: 0 <= i < |ws| ==> IsStrWhiteSpace(ws[i])
    ensures TrimStart(ws + s) == TrimStart(s)
  {
    if ws != [] {
      var t := ws + s;
      assert t[0] == ws[0] && IsStrWhiteSpace(ws[0]);
      assert t[1..] == ws[1..] + s;
      TrimStartSkipsWhiteSpace(ws[1..], s);
      assert TrimStart(t) == TrimStart(t[1..]);
    } else {
      assert ws + s == s;
    }
  }

  lemma ParseSkipsWhiteSpace(ws: string, s: string)
    requires forall i :: 0 <= i < |ws| ==> IsStrWhiteSpace(ws[i])
    ensures ParseInt(ws + s) == ParseInt(s)
  {
    TrimStartSkipsWhiteSpace(ws, s);
  }

  /**
   * NaN: an input whose first character is neither white space, a sign nor
   * a decimal digit has no number in it (".5", "abc", "").
   */
  lemma ParseNoNumber(s: string)
    requires s == [] || (!IsStrWhiteSpace(s[0]) && s[0] != '-' && s[0] != '+' && !('0' <= s[0] <= '9'))
    ensures ParseInt(s).None?
  {
    var signed := SplitSign(s);
    assert TrimStart(s) == s;
    assert signed == (false, s);
    var prefixed := SplitRadix(signed.1);
    assert prefixed == (Decimal, s);
    assert s == [] || !IsDigit(s[0], Decimal);
  }

  /** A single numeral reads as its digit value. */
  lemma ParseSingleDigit(c: char)
    requires '0' <= c <= '9'
    ensures ParseInt([c]) == Some(c as int - '0' as int)
  {
    ParseUnsignedDecimal([c]);
    ReadDigitsThenRest([c], []);
    assert [c] + [] == [c];
    assert [c][..0] == [];
  }

  /** Two numerals read as the two-digit decimal number they spell. */
  lemma ParseTwoDigits(c: char, d: char)
    requires '0' <= c <= '9' && '0' <= d <= '9'
    ensures ParseInt([c, d]) == Some(10 * (c as int - '0' as int) + (d as int - '0' as int))
  {
    var s := [c, d];
    ParseUnsignedDecimal(s);
    ReadDigitsThenRest(s, []);
    assert s + [] == s;
    assert s[..1] == [c];
    assert [c][..0] == [];
    assert DigitsValue([c], Decimal) == c as int - '0' as int;
    assert DigitsValue(s, Decimal) == 10 * DigitsValue([c], Decimal) + (d as int - '0' as int);
  }

  /** A household size typed as a whole number reads as that number. */
  lemma ParseWholeExample()
    ensures ParseInt("4") == Some(4)
  {
    ParseUnsignedDecimal("4");
    ReadDigitsThenRest("4", []);
    assert "4" + [] == "4";
  }

  /** No range is imposed: a size beyond twenty reads as itself too. */
  lemma ParseOverTwentyExample()
    ensures ParseInt("21") == Some(21)
  {
    ParseTwoDigits('2', '1');
    assert ['2', '1'] == "21";
  }

  /** A number with a fraction is read up to the decimal point. */
  lemma ParseFractionExample()
    ensures ParseInt("2.5") == Some(2)
  {
    ParseDecimalPrefix(2, ".5");
    assert DecimalString(2) + ".5" == "2.5";
  }

  /** A number with an exponent is read up to the exponent. */
  lemma ParseExponentExample()
    ensures ParseInt("1e3") == Some(1)
  {
    ParseDecimalPrefix(1, "e3");
    assert DecimalString(1) + "e3" == "1e3";
  }

  /** A "0x" prefix switches to hexadecimal. */
  lemma ParseHexExample()
    ensures ParseInt("0x1A") == Some(26)
  {
    assert TrimStart("0x1A") == "0x1A";
    assert SplitSign("0x1A") == (false, "0x1A");
    assert SplitRadix("0x1A") == (Hexadecimal, "1A");
    assert DigitRun("1A", Hexadecimal) == 2;
    assert "1A"[..2] == "1A" && "1A"[..1] == "1" && "1"[..0] == "";
  }

  /**
   * The digits of either radix: "0"-"9" in radix 10; those and the letters
   * "a"-"f" and "A"-"F" in radix 16. Any other character ends the number.
   */
  lemma DigitsOfRadix(c: char)
    ensures IsDigit(c, Decimal) <==> '0' <= c <= '9'
    ensures IsDigit(c, Hexadecimal) <==> '0' <= c <= '9' || 'a' <= c <= 'f' || 'A' <= c <= 'F'
  {
  }

  /** After a "0x" or "0X" prefix the rest of the input is read in radix 16, whatever it holds. */
  lemma ParseHexPrefixed(x: char, t: string)
    requires x == 'x' || x == 'X'
    ensures ParseInt(['0', x] + t) == ReadDigits(t, Hexadecimal)
  {
    var s := ['0', x] + t;
    assert s[2..] == t;
    assert TrimStart(s) == s;
    assert SplitSign(s) == (false, s);
    assert SplitRadix(s) == (Hexadecimal, t);
  }

  /** Hexadecimal digits after a "0x" or "0X" prefix, followed by a non-digit, read as the number they denote. */
  lemma ParseHexDigits(x: char, h: string, rest: string)
    requires x == 'x' || x == 'X'
    requires h != []
    requires forall i :: 0 <= i < |h| ==> IsDigit(h[i], Hexadecimal)
    requires rest == [] || !IsDigit(rest[0], Hexadecimal)
    ensures ParseInt(['0', x] + (h + rest)) == Some(DigitsValue(h, Hexadecimal))
  {
    ParseHexPrefixed(x, h + rest);
    DigitRunOfDigits(h, rest, Hexadecimal);
    assert (h + rest)[..|h|] == h;
  }

  /** A hexadecimal prefix with no digits after it is NaN. */
  lemma ParseBarePrefix()
    ensures ParseInt("0x").None?
  {
    assert TrimStart("0x") == "0x";
    assert SplitSign("0x") == (false, "0x");
    assert "0x"[2..] == "";
    assert SplitRadix("0x") == (Hexadecimal, "");
  }

  /** A sign with no digits after it is NaN. */
  lemma ParseBareSign()
    ensures ParseInt("-").None?
  {
    assert TrimStart("-") == "-";
    assert "-"[1..] == "";
    assert SplitSign("-") == (true, "");
    assert SplitRadix("") == (Decimal, "");
  }
}
