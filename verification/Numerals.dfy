/** Numbers as text: how the driver prints them (`std::to_string`, `std::hex`) and how it reads
    them back (`std::stoi` in base 16). */
module Numerals {
  import opened Bytes

  const DIGITS: string := "0123456789abcdef"
  const INT_MAX: int := 0x7FFF_FFFF
  const INT_MIN: int := -0x8000_0000

  /** The decimal digits of `n`, most significant first, without leading zeros. */
  function Print(n: nat): string {
    if n < 10 then [DIGITS[n]] else Print(n / 10) + [DIGITS[n % 10]]
  }

  /** The same in base 16: `std::hex`. */
  function PrintHex(n: nat): string {
    if n < 16 then [DIGITS[n]] else PrintHex(n / 16) + [DIGITS[n % 16]]
  }

  /** `std::to_string(int)`. */
  function ToDecimal(i: int): string {
    if i < 0 then "-" + Print(-i) else Print(i)
  }

  predicate IsHexDigit(c: char) {
    '0' <= c <= '9' || 'a' <= c <= 'f' || 'A' <= c <= 'F'
  }

  function HexDigitValue(c: char): (v: nat)
    requires IsHexDigit(c)
    ensures v < 16
  {
    if c <= '9' then c as int - '0' as int
    else if c <= 'F' then c as int - 'A' as int + 10
    else c as int - 'a' as int + 10
  }

  predicate AllHex(s: string) {
    forall i :: 0 <= i < |s| ==> IsHexDigit(s[i])
  }

  /** The value of a digit string in `base` (Horner's rule). */
  function Value(s: string, base: nat): nat
    requires AllHex(s)
  {
    if s == "" then 0 else base * Value(s[..|s| - 1], base) + HexDigitValue(s[|s| - 1])
  }

  predicate IsSpace(c: char) {
    c == ' ' || '\t' <= c <= '\r'
  }

  function SkipSpaces(s: string): string {
    if s != "" && IsSpace(s[0]) then SkipSpaces(s[1..]) else s
  }

  /** The longest prefix made of hexadecimal digits. */
  function HexRun(s: string): (r: string)
    ensures AllHex(r)
  {
    if s != "" && IsHexDigit(s[0]) then [s[0]] + HexRun(s[1..]) else ""
  }

  function SkipHexPrefix(s: string): string {
    if |s| > 2 && s[0] == '0' && (s[1] == 'x' || s[1] == 'X') && IsHexDigit(s[2]) then s[2..] else s
  }

  /** `std::stoi(s, nullptr, 16)`: leading white space, a sign and `0x` are skipped and reading stops
      at the first other character. `None` stands for the two exceptions: no digits, or not an int. */
  function StoiHex(s: string): Option<int> {
    var t := SkipSpaces(s);
    var negative := t != "" && t[0] == '-';
    var u := if t != "" && (t[0] == '-' || t[0] == '+') then t[1..] else t;
    var digits := HexRun(SkipHexPrefix(u));
    if digits == "" then None
    else
      var v := if negative then 0 - Value(digits, 16) else Value(digits, 16);
      if INT_MIN <= v <= INT_MAX then Some(v) else None
  }

  // ---------- printing is injective ----------

  lemma {:induction false} PrintIsDecimal(n: nat)
    ensures |Print(n)| > 0 && forall i :: 0 <= i < |Print(n)| ==> '0' <= Print(n)[i] <= '9'
  {
    if n < 10 {
    } else {
      PrintIsDecimal(n / 10);
    }
  }

  lemma DigitReads(d: nat)
    requires d < 16
    ensures IsHexDigit(DIGITS[d]) && HexDigitValue(DIGITS[d]) == d && DIGITS[d] != '\n' && DIGITS[d] as int < 256
  {
  }

  lemma ValueSnoc(s: string, d: nat, base: nat)
    requires AllHex(s) && d < 16
    ensures IsHexDigit(DIGITS[d]) && AllHex(s + [DIGITS[d]])
    ensures Value(s + [DIGITS[d]], base) == base * Value(s, base) + d
  {
    hide IsHexDigit, HexDigitValue;
    DigitReads(d);
    var t := s + [DIGITS[d]];
    assert t[..|t| - 1] == s && t[|t| - 1] == DIGITS[d];
    assert AllHex(t);
    assert Value(t, base) == base * Value(t[..|t| - 1], base) + HexDigitValue(t[|t| - 1]);
  }

  /** Reading a printed number gives it back. */
  lemma {:induction false} ValueOfPrint(n: nat)
    ensures AllHex(Print(n)) && Value(Print(n), 10) == n
  {
    hide AllHex, Value;
    if n < 10 {
      NoDigits(10);
      ValueSnoc("", n, 10);
      assert "" + [DIGITS[n]] == Print(n);
    } else {
      ValueOfPrint(n / 10);
      ValueSnoc(Print(n / 10), n % 10, 10);
    }
  }

  lemma NoDigits(base: nat)
    ensures AllHex("") && Value("", base) == 0
  {
  }

  lemma PrintInjective(m: nat, n: nat)
    requires Print(m) == Print(n)
    ensures m == n
  {
    ValueOfPrint(m);
    ValueOfPrint(n);
  }

  lemma {:induction false} ValueOfPrintHex(n: nat)
    ensures |PrintHex(n)| > 0 && AllHex(PrintHex(n)) && Value(PrintHex(n), 16) == n
  {
    hide AllHex, Value;
    if n < 16 {
      NoDigits(16);
      ValueSnoc("", n, 16);
      assert "" + [DIGITS[n]] == PrintHex(n);
    } else {
      ValueOfPrintHex(n / 16);
      ValueSnoc(PrintHex(n / 16), n % 16, 16);
    }
  }

  // ---------- decimal text re-read in base 16 ----------

  /** The number whose hexadecimal digits are the decimal digits of `n`. */
  function Reread(n: nat): nat {
    if n < 10 then n else 16 * Reread(n / 10) + n % 10
  }

  lemma {:induction false} RereadIsValue(n: nat)
    ensures AllHex(Print(n)) && Value(Print(n), 16) == Reread(n)
  {
    hide AllHex, Value;
    if n < 10 {
      NoDigits(16);
      ValueSnoc("", n, 16);
      assert "" + [DIGITS[n]] == Print(n);
    } else {
      RereadIsValue(n / 10);
      ValueSnoc(Print(n / 10), n % 10, 16);
    }
  }

  lemma {:induction false} HexRunOfHex(s: string)
    requires AllHex(s)
    ensures HexRun(s) == s
  {
    if s == "" {
    } else {
      HexRunOfHex(s[1..]);
    }
  }

  /** `stoi(to_string(n), nullptr, 16)`. */
  lemma StoiOfDecimal(n: nat)
    requires Reread(n) <= INT_MAX
    ensures StoiHex(Print(n)) == Some(Reread(n))
  {
    hide Print, Value, Reread;
    var s := Print(n);
    PrintIsDecimal(n);
    assert SkipSpaces(s) == s && SkipHexPrefix(s) == s;
    HexRunOfHex(s);
    RereadIsValue(n);
  }

  lemma UpperReadsAsLower(k: nat)
    requires k < 6
    ensures var (upper, lower) := ("ABCDEF"[k], "abcdef"[k]);
            IsHexDigit(upper) && IsHexDigit(lower) && HexDigitValue(upper) == HexDigitValue(lower) == 10 + k
  {
  }

  lemma {:induction false} SpacesAreSkipped(spaces: string, s: string)
    requires forall i :: 0 <= i < |spaces| ==> IsSpace(spaces[i])
    requires s != "" && !IsSpace(s[0])
    ensures SkipSpaces(spaces + s) == s
  {
    if spaces == "" {
      assert spaces + s == s;
    } else {
      SpacesAreSkipped(spaces[1..], s);
      assert (spaces + s)[1..] == spaces[1..] + s;
    }
  }

  lemma {:induction false} HexRunStops(digits: string, rest: string)
    requires AllHex(digits) && (rest == "" || !IsHexDigit(rest[0]))
    ensures HexRun(digits + rest) == digits
  {
    if digits == "" {
      assert digits + rest == rest;
    } else {
      HexRunStops(digits[1..], rest);
      assert (digits + rest)[1..] == digits[1..] + rest;
    }
  }

  /** White space, a sign and `0x` before the digits, and anything but a digit behind them, change nothing
      but the sign; the value decides whether it is an int. */
  lemma StoiExactly(spaces: string, sign: string, prefix: string, digits: string, rest: string)
    requires forall i :: 0 <= i < |spaces| ==> spaces[i] == ' ' || '\t' <= spaces[i] <= '\r'
    requires (sign == "" || sign == "+" || sign == "-") && (prefix == "" || prefix == "0x" || prefix == "0X")
    requires AllHex(digits) && digits != "" && (rest == "" || !IsHexDigit(rest[0]))
    requires prefix == "" && digits == "0" && |rest| >= 2 && IsHexDigit(rest[1]) ==> rest[0] != 'x' && rest[0] != 'X'
    ensures var v := if sign == "-" then 0 - Value(digits, 16) else Value(digits, 16);
            StoiHex(spaces + (sign + (prefix + (digits + rest)))) ==
            if -0x8000_0000 <= v <= 0x7FFF_FFFF then Some(v) else None
  {
    hide *;
    var body := prefix + (digits + rest);
    SignedText(spaces, sign, body) by { BodyBegins(prefix, digits, rest); }
    PrefixIsSkipped(prefix, digits, rest);
    HexRunStops(digits, rest);
  }

  lemma BodyBegins(prefix: string, digits: string, rest: string)
    requires (prefix == "" || prefix == "0x" || prefix == "0X") && AllHex(digits) && digits != ""
    ensures var body := prefix + (digits + rest);
            body != "" && IsHexDigit(body[0])
  {
    assert (prefix + (digits + rest))[0] == if prefix == "" then digits[0] else '0';
  }

  /** Reading goes on behind white space and sign. */
  lemma SignedText(spaces: string, sign: string, body: string)
    requires forall i :: 0 <= i < |spaces| ==> spaces[i] == ' ' || '\t' <= spaces[i] <= '\r'
    requires (sign == "" || sign == "+" || sign == "-") && body != "" && IsHexDigit(body[0])
    ensures var digits := HexRun(SkipHexPrefix(body));
            StoiHex(spaces + (sign + body)) ==
            if digits == "" then None
            else
              var v := if sign == "-" then 0 - Value(digits, 16) else Value(digits, 16);
              if -0x8000_0000 <= v <= 0x7FFF_FFFF then Some(v) else None
  {
    hide Value, HexRun, SkipHexPrefix, SkipSpaces;
    var t := sign + body;
    SpacesAreSkipped(spaces, t);
    if sign == "" {
      assert t == body;
    } else {
      assert t[0] == sign[0] && t[1..] == body;
    }
  }

  lemma PrefixIsSkipped(prefix: string, digits: string, rest: string)
    requires prefix == "" || prefix == "0x" || prefix == "0X"
    requires AllHex(digits) && digits != "" && (rest == "" || !IsHexDigit(rest[0]))
    requires prefix == "" && digits == "0" && |rest| >= 2 && IsHexDigit(rest[1]) ==> rest[0] != 'x' && rest[0] != 'X'
    ensures SkipHexPrefix(prefix + (digits + rest)) == digits + rest
  {
    var s := prefix + (digits + rest);
    if prefix == "" {
      assert s == digits + rest;
      assert digits[0] == '0' && |digits| == 1 ==> digits == "0";
    } else {
      assert s[2] == digits[0] && s[2..] == digits + rest;
    }
  }

  /** Without a digit there is no number. */
  lemma StoiNeedsDigits(spaces: string, sign: string, rest: string)
    requires forall i :: 0 <= i < |spaces| ==> spaces[i] == ' ' || '\t' <= spaces[i] <= '\r'
    requires (sign == "" || sign == "+" || sign == "-") && sign + rest != ""
    requires rest != "" ==> !IsHexDigit(rest[0])
    requires rest != "" && sign == "" ==> !IsSpace(rest[0]) && rest[0] != '-' && rest[0] != '+'
    ensures StoiHex(spaces + (sign + rest)) == None
  {
    var t := sign + rest;
    SpacesAreSkipped(spaces, t);
    assert sign == "" ==> t == rest;
    assert sign != "" ==> t[0] == sign[0] && t[1..] == rest;
  }

  /** Reading undoes hexadecimal printing, for every int that is not negative. */
  lemma StoiOfHex(n: nat)
    ensures StoiHex(PrintHex(n)) == if n <= INT_MAX then Some(n) else None
  {
    hide PrintHex, Value;
    var s := PrintHex(n);
    ValueOfPrintHex(n);
    assert IsHexDigit(s[0]) && (|s| > 1 ==> IsHexDigit(s[1]));
    assert SkipSpaces(s) == s && SkipHexPrefix(s) == s;
    HexRunOfHex(s);
  }

  /** Re-reading in base 16 keeps the order of the numbers. */
  lemma {:induction false} RereadStrictlyIncreasing(m: nat, n: nat)
    requires m < n
    ensures Reread(m) < Reread(n)
    decreases n
  {
    if n < 10 || m / 10 == n / 10 {
    } else {
      RereadStrictlyIncreasing(m / 10, n / 10);
      if m < 10 {
        assert Reread(m / 10) == 0;
      }
    }
  }

  lemma RereadOfUint16(n: nat)
    requires n < 0x1_0000
    ensures Reread(n) <= 0x65535
  {
    assert Reread(6) == 6 && Reread(65) == 0x65 && Reread(655) == 0x655;
    assert Reread(6553) == 0x6553 && Reread(65535) == 0x65535;
    if n < 65535 {
      RereadStrictlyIncreasing(n, 65535);
    }
  }
}
