/**
 * Conversion of one text token into a field (src/parse_string.h). Every
 * `parse_value` overload writes through a reference: here it takes the field's
 * current value and returns its new value. The float and double overloads call
 * `std::stof`/`std::stod`, which are the abstract `stof` of `Numerics`.
 */
module ParseString {
  import opened Wrappers
  import opened Strings
  import opened BeatmapTypes

  const Int32Min: int := -0x8000_0000
  const Int32Max: int := 0x7FFF_FFFF
  const UInt8Max: int := 0xFF

  predicate IsDigit(c: char)
  {
    '0' <= c <= '9'
  }

  predicate AllDigits(s: string)
  {
    forall i :: 0 <= i < |s| ==> IsDigit(s[i])
  }

  /** The value of a decimal digit (0 for any other character). */
  function DigitValue(c: char): nat
  {
    if IsDigit(c) then (c as int - '0' as int) as nat else 0
  }

  function DigitChar(n: nat): (c: char)
    requires n < 10
    ensures IsDigit(c) && DigitValue(c) == n
  {
    ('0' as int + n) as char
  }

  /** Number of decimal digits at the front of `s`. */
  function DigitRun(s: string): (n: nat)
    ensures n <= |s|
  {
    if s != [] && IsDigit(s[0]) then 1 + DigitRun(s[1..]) else 0
  }

  /** The digit run is all digits, and is followed by a non-digit or the end. */
  lemma {:induction false} DigitRunSpec(s: string)
    ensures forall i :: 0 <= i < DigitRun(s) ==> IsDigit(s[i])
    ensures DigitRun(s) < |s| ==> !IsDigit(s[DigitRun(s)])
    decreases |s|
  {
    if s != [] && IsDigit(s[0]) {
      DigitRunSpec(s[1..]);
      assert forall i :: 1 <= i < DigitRun(s) ==> s[i] == s[1..][i - 1];
    }
  }

  /** The value of a string of decimal digits, most significant first. */
  function DigitsValue(s: string): nat
  {
    if s == [] then 0 else 10 * DigitsValue(s[..|s| - 1]) + DigitValue(s[|s| - 1])
  }

  /** The shortest decimal spelling of `n`. */
  function Digits(n: nat): (s: string)
    ensures s != [] && AllDigits(s)
  {
    if n < 10 then [DigitChar(n)] else Digits(n / 10) + [DigitChar(n % 10)]
  }

  /** The decimal spelling of `n`, with a leading `-` when negative. */
  function Decimal(n: int): string
  {
    if n < 0 then "-" + Digits(-n) else Digits(n)
  }

  /**
   * `std::from_chars` for an integer type with range `[lo, hi]`: an optional
   * `-` (signed types only), then the longest run of decimal digits. No digits,
   * or a value outside the range, is a failure. Whatever follows the digits is
   * not looked at.
   */
  function FromChars(s: string, signed: bool, lo: int, hi: int): (r: Option<int>)
    ensures r.Some? ==> lo <= r.value <= hi
  {
    var negative := signed && s != [] && s[0] == '-';
    var body := if negative then s[1..] else s;
    match Magnitude(body)
    case None => None
    case Some(m) =>
      var v := if negative then -(m as int) else m as int;
      if lo <= v <= hi then Some(v) else None
  }

  /** The value of the digit run at the front of `s`; `None` when there is none. */
  function Magnitude(s: string): Option<nat>
  {
    var n := DigitRun(s);
    if n == 0 then None else Some(DigitsValue(s[..n]))
  }

  /** Digits followed by a non-digit (or nothing) have their own value as magnitude. */
  lemma MagnitudeOfDigits(ds: string, rest: string)
    requires ds != [] && AllDigits(ds)
    requires rest == [] || !IsDigit(rest[0])
    ensures Magnitude(ds + rest) == Some(DigitsValue(ds))
  {
    DigitRunStopsAt(ds, rest);
    assert (ds + rest)[..|ds|] == ds;
  }

  /** Reading back the spelling of a digit string gives its value. */
  lemma {:induction false} DigitsRoundTrip(n: nat)
    ensures DigitsValue(Digits(n)) == n
  {
    if n >= 10 {
      var s := Digits(n);
      assert s[..|s| - 1] == Digits(n / 10);
      DigitsRoundTrip(n / 10);
    }
  }

  /** The digit run stops exactly where the digits of `a` end. */
  lemma {:induction false} DigitRunStopsAt(a: string, rest: string)
    requires AllDigits(a)
    requires rest == [] || !IsDigit(rest[0])
    ensures DigitRun(a + rest) == |a|
    decreases |a|
  {
    if a != [] {
      assert (a + rest)[1..] == a[1..] + rest;
      DigitRunStopsAt(a[1..], rest);
    }
  }

  /**
   * The integer parse inverts decimal formatting: the spelling of any value in
   * range, followed by anything that is not a digit, parses back to that value.
   */
  lemma FromCharsDecimal(n: int, rest: string, lo: int, hi: int)
    requires lo <= n <= hi
    requires rest == [] || !IsDigit(rest[0])
    ensures FromChars(Decimal(n) + rest, true, lo, hi) == Some(n)
    ensures n >= 0 ==> FromChars(Decimal(n) + rest, false, lo, hi) == Some(n)
  {
    if n < 0 {
      FromCharsDecimalNegative(n, rest, lo, hi);
    } else {
      FromCharsDecimalNatural(n, rest, true, lo, hi);
      FromCharsDecimalNatural(n, rest, false, lo, hi);
    }
  }

  lemma FromCharsDecimalNegative(n: int, rest: string, lo: int, hi: int)
    requires lo <= n <= hi && n < 0
    requires rest == [] || !IsDigit(rest[0])
    ensures FromChars(Decimal(n) + rest, true, lo, hi) == Some(n)
  {
    var ds := Digits(-n);
    DigitsRoundTrip(-n);
    FromCharsNegative(ds, rest, lo, hi);
    assert Decimal(n) + rest == ['-'] + (ds + rest);
  }

  lemma FromCharsDecimalNatural(n: nat, rest: string, signed: bool, lo: int, hi: int)
    requires lo <= n <= hi
    requires rest == [] || !IsDigit(rest[0])
    ensures FromChars(Decimal(n) + rest, signed, lo, hi) == Some(n)
  {
    var ds := Digits(n);
    DigitsRoundTrip(n);
    FromCharsDigits(ds, rest, signed, lo, hi);
  }

  /** Digits followed by a non-digit parse to the digits' value when it is in range. */
  lemma FromCharsDigits(ds: string, rest: string, signed: bool, lo: int, hi: int)
    requires ds != [] && AllDigits(ds)
    requires rest == [] || !IsDigit(rest[0])
    requires lo <= DigitsValue(ds) <= hi
    ensures FromChars(ds + rest, signed, lo, hi) == Some(DigitsValue(ds))
  {
    MagnitudeOfDigits(ds, rest);
    assert (ds + rest)[0] == ds[0];
  }

  /** A minus sign, digits and a non-digit parse to the negated value when it is in range. */
  lemma FromCharsNegative(ds: string, rest: string, lo: int, hi: int)
    requires ds != [] && AllDigits(ds)
    requires rest == [] || !IsDigit(rest[0])
    requires lo <= -(DigitsValue(ds) as int) <= hi
    ensures FromChars(['-'] + (ds + rest), true, lo, hi) == Some(-(DigitsValue(ds) as int))
  {
    var body := ds + rest;
    assert (['-'] + body)[1..] == body;
    MagnitudeOfDigits(ds, rest);
    FromCharsMinus(['-'] + body, DigitsValue(ds), lo, hi);
  }

  /** A signed parse of `-` followed by a magnitude in range gives the negated magnitude. */
  lemma FromCharsMinus(s: string, m: nat, lo: int, hi: int)
    requires s != [] && s[0] == '-' && Magnitude(s[1..]) == Some(m)
    requires lo <= -(m as int) <= hi
    ensures FromChars(s, true, lo, hi) == Some(-(m as int))
  {
  }

  /** A token that does not start with a digit (after an allowed `-`) is a failure. */
  lemma FromCharsNeedsDigit(s: string, signed: bool, lo: int, hi: int)
    requires s == [] || (!IsDigit(s[0]) && !(signed && s[0] == '-'))
    ensures FromChars(s, signed, lo, hi) == None
  {
  }

  /** An unsigned parse never accepts a minus sign. */
  lemma FromCharsUnsignedRejectsMinus(s: string, lo: int, hi: int)
    requires s != [] && s[0] == '-'
    ensures FromChars(s, false, lo, hi) == None
  {
  }

  /** The parse result, or `dflt` when the parse fails. */
  function OrElse(r: Option<int>, dflt: int): int
  {
    if r.Some? then r.value else dflt
  }

  /** `parse_value(s, int&)`: on failure the field keeps its value. */
  method ParseInt(text: string, value: int) returns (r: int)
    ensures FromChars(text, true, Int32Min, Int32Max).Some? ==> r == FromChars(text, true, Int32Min, Int32Max).value
    ensures FromChars(text, true, Int32Min, Int32Max).None? ==> r == value
  {
    var parsed := FromChars(text, true, Int32Min, Int32Max);
    r := value;
    if parsed.Some? {
      r := parsed.value;
    }
  }

  /** `parse_value(s, std::uint8_t&)` (the countdown field): unsigned, 0..255. */
  method ParseUInt8(text: string, value: int) returns (r: int)
    ensures FromChars(text, false, 0, UInt8Max).Some? ==> r == FromChars(text, false, 0, UInt8Max).value
    ensures FromChars(text, false, 0, UInt8Max).None? ==> r == value
  {
    var parsed := FromChars(text, false, 0, UInt8Max);
    r := value;
    if parsed.Some? {
      r := parsed.value;
    }
  }

  /** `parse_value(s, bool&)`: looks only at the first character. */
  method ParseBool(text: string, value: bool) returns (r: bool)
    ensures text != [] && text[0] == '1' ==> r
    ensures text != [] && text[0] == '0' ==> !r
    ensures text == [] || (text[0] != '0' && text[0] != '1') ==> r == value
  {
    r := value;
    if text != [] {
      if text[0] == '1' {
        r := true;
      } else if text[0] == '0' {
        r := false;
      }
    }
  }

  /**
   * `parse_value(s, std::chrono::milliseconds&)`: parses into a local that
   * starts at 0, so a failed parse writes 0 and the old value is never kept.
   */
  method ParseMs(text: string, value: int) returns (r: int)
    ensures r == OrElse(FromChars(text, true, Int32Min, Int32Max), 0)
    ensures Int32Min <= r <= Int32Max
  {
    var v := 0;
    v := ParseInt(text, v);
    r := v;
  }

  /**
   * `parse_value(s, Gamemode&)`: the integer is parsed into a local `v`, but
   * the field is then assigned from itself, so the field never changes.
   */
  method ParseGamemode(text: string, value: Gamemode) returns (r: Gamemode)
    ensures r == value
  {
    var v := 0;
    v := ParseInt(text, v);
    r := value;
  }

  /** `parse_value(s, std::string&)`, and the `path` overload that goes through it: a verbatim copy. */
  method ParseText(text: string, value: string) returns (r: string)
    ensures r == text
  {
    r := text;
  }

  /** `parse_value(s, std::vector<std::string>&)`: appends the space-separated tokens. */
  method ParseStringList(text: string, value: seq<string>) returns (r: seq<string>)
    ensures r == value + Tokens(text, ' ')
    ensures |r| >= |value| && r[..|value|] == value
    ensures forall k :: |value| <= k < |r| ==> r[k] != [] && Free(r[k], ' ')
  {
    var tokens := Split(text, ' ');
    TokensWellFormed(text, ' ');
    r := value;
    var i := 0;
    while i < |tokens|
      invariant 0 <= i <= |tokens|
      invariant r == value + tokens[..i]
    {
      r := r + [tokens[i]];
      i := i + 1;
      assert tokens[..i] == tokens[..i - 1] + [tokens[i - 1]];
    }
    assert tokens[..i] == tokens;
  }

  /** The bookmark value of one token: left-trimmed, then an `int` parse with 0 on failure. */
  function MsOfToken(t: string): int
  {
    OrElse(FromChars(LtrimView(t), true, Int32Min, Int32Max), 0)
  }

  /** The per-token conversion of the bookmark list: left-trim, then an `int` parse into a local 0. */
  method ParseListedMs(token: string) returns (v: int)
    ensures v == MsOfToken(token)
  {
    var trimmed := LtrimView(token);
    v := 0;
    v := ParseInt(trimmed, v);
  }

  /**
   * `parse_value(s, std::vector<std::chrono::milliseconds>&)`: appends one
   * duration per space-separated token, 0 for a token that does not parse.
   */
  method ParseMsList(text: string, value: seq<int>) returns (r: seq<int>)
    ensures |r| == |value| + |Tokens(text, ' ')| && r[..|value|] == value
    ensures forall k :: 0 <= k < |Tokens(text, ' ')| ==> r[|value| + k] == MsOfToken(Tokens(text, ' ')[k])
  {
    var tokens := Split(text, ' ');
    ghost var expected := seq(|tokens|, k requires 0 <= k < |tokens| => MsOfToken(tokens[k]));
    r := value;
    var i := 0;
    while i < |tokens|
      invariant 0 <= i <= |tokens|
      invariant r == value + expected[..i]
    {
      var v := ParseListedMs(tokens[i]);
      assert expected[..i + 1] == expected[..i] + [v];
      r := r + [v];
      i := i + 1;
    }
    assert expected[..i] == expected;
  }

  /** `parse_value<int>(s)`: starts from a value-initialised `int`, so failure gives 0. */
  method ParseIntValue(text: string) returns (r: int)
    ensures r == OrElse(FromChars(text, true, Int32Min, Int32Max), 0)
  {
    r := ParseInt(text, 0);
  }
}
