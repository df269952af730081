/** The global `parseInt(string)` of JavaScript, called without a radix, as the
    controller uses it to turn a booking's `seatNumber` string into a seat index.
    A NaN result is `None`. No seat list contains it, since seat lists come from
    JSON bodies and JSON has no NaN. */
module ParseInt {
  import opened Wrappers

  /** The characters `parseInt` skips before the number: the ECMAScript WhiteSpace
      and LineTerminator characters (tab, vertical tab, form feed, space, no-break
      space, byte order mark, the space separators, line feed, carriage return,
      line and paragraph separators). */
  predicate IsSpace(c: char) {
    c == '\t' || c == '\n' || c == '\U{000B}' || c == '\U{000C}' || c == '\r' ||
    c == ' ' || c == '\U{00A0}' || c == '\U{1680}' || ('\U{2000}' <= c <= '\U{200A}') ||
    c == '\U{2028}' || c == '\U{2029}' || c == '\U{202F}' || c == '\U{205F}' ||
    c == '\U{3000}' || c == '\U{FEFF}'
  }

  /** The value of `c` as a digit in any radix up to 36, or 36 when it is no digit. */
  function DigitValue(c: char): (d: nat)
    ensures d <= 36
  {
    if '0' <= c <= '9' then c as int - '0' as int
    else if 'a' <= c <= 'z' then c as int - 'a' as int + 10
    else if 'A' <= c <= 'Z' then c as int - 'A' as int + 10
    else 36
  }

  predicate IsDigit(c: char, radix: nat) {
    DigitValue(c) < radix
  }

  /** `s` without its leading white space. */
  function TrimStart(s: string): (r: string)
    ensures r == [] || !IsSpace(r[0])
    ensures |r| <= |s|
    ensures s == [] || !IsSpace(s[0]) ==> r == s
  {
    if s != [] && IsSpace(s[0]) then TrimStart(s[1..]) else s
  }

  /** What trimming drops is exactly a run of white space at the front: the result
      is a suffix of `s`, and everything before it is white space. */
  lemma {:induction false} TrimStartDropsSpace(s: string)
    ensures TrimStart(s) == s[|s| - |TrimStart(s)|..]
    ensures forall k :: 0 <= k < |s| - |TrimStart(s)| ==> IsSpace(s[k])
  {
    if s != [] && IsSpace(s[0]) {
      TrimStartDropsSpace(s[1..]);
    }
  }

  /** The longest prefix of `s` made of digits of `radix`. */
  function DigitPrefix(s: string, radix: nat): (z: string)
    ensures |z| <= |s| && z == s[..|z|]
    ensures forall k :: 0 <= k < |z| ==> IsDigit(z[k], radix)
    ensures |z| < |s| ==> !IsDigit(s[|z|], radix)
  {
    if s != [] && IsDigit(s[0], radix) then [s[0]] + DigitPrefix(s[1..], radix) else []
  }

  /** The number a string of digits denotes, most significant digit first. */
  function Value(z: string, radix: nat): nat {
    if z == [] then 0
    else Value(z[..|z| - 1], radix) * radix + DigitValue(z[|z| - 1])
  }

  /** `parseInt(s)`: skip leading white space, take an optional sign, switch to
      radix 16 after a `0x` or `0X` prefix, then read the longest run of digits;
      no digit at all gives NaN (`None`). Anything after the digits is ignored. */
  function Parse(s: string): (r: Option<int>)
    ensures r.Some? ==>
            var t := TrimStart(s);
            t != [] && (IsDigit(t[0], 10) || t[0] == '+' || t[0] == '-')
  {
    var (negative, u) := SplitSign(TrimStart(s));
    var (radix, v) := SplitRadix(u);
    var z := DigitPrefix(v, radix);
    if z == [] then None
    else if negative then Some(-(Value(z, radix) as int))
    else Some(Value(z, radix))
  }

  /** Whether `t` starts with a minus sign, and `t` without its leading sign. */
  function SplitSign(t: string): (bool, string) {
    if t != [] && t[0] == '-' then (true, t[1..])
    else if t != [] && t[0] == '+' then (false, t[1..])
    else (false, t)
  }

  /** The radix `u` is read in (16 after a `0x`/`0X` prefix, else 10) and `u`
      without that prefix. */
  function SplitRadix(u: string): (nat, string) {
    if |u| >= 2 && u[0] == '0' && (u[1] == 'x' || u[1] == 'X') then (16, u[2..]) else (10, u)
  }

  /** Decimal digits of `n`, without leading zeros. */
  function Decimal(n: nat): (z: string)
    ensures z != []
  {
    if n < 10 then [DigitChar(n)] else Decimal(n / 10) + [DigitChar(n % 10)]
  }

  function DigitChar(d: nat): char
    requires d < 10
  {
    (d + '0' as int) as char
  }

  /** How JavaScript writes an integer in decimal (`String(n)`). */
  function DecimalString(n: int): string {
    if n < 0 then "-" + Decimal(-n) else Decimal(n)
  }

  lemma {:induction false} DecimalDigits(n: nat)
    ensures forall k :: 0 <= k < |Decimal(n)| ==> IsDigit(Decimal(n)[k], 10)
    ensures Value(Decimal(n), 10) == n
    ensures n > 0 ==> Decimal(n)[0] != '0'
  {
    if n >= 10 {
      DecimalDigits(n / 10);
      var z := Decimal(n);
      assert z[..|z| - 1] == Decimal(n / 10);
    }
  }

  lemma {:induction false} DigitPrefixOfDigits(z: string, rest: string, radix: nat)
    requires forall k :: 0 <= k < |z| ==> IsDigit(z[k], radix)
    requires rest == [] || !IsDigit(rest[0], radix)
    ensures DigitPrefix(z + rest, radix) == z
  {
    if z != [] {
      assert (z + rest)[1..] == z[1..] + rest;
      DigitPrefixOfDigits(z[1..], rest, radix);
    }
  }

  /** `parseInt` reads back what `String(n)` writes, and ignores whatever follows
      the digits — except that a `0` followed by `x` or `X` starts a hexadecimal
      number instead. */
  lemma ParseDecimal(n: int, rest: string)
    requires rest == [] || !IsDigit(rest[0], 10)
    requires n == 0 ==> rest == [] || (rest[0] != 'x' && rest[0] != 'X')
    ensures Parse(DecimalString(n) + rest) == Some(n)
  {
    var m := if n < 0 then -n else n;
    var z := Decimal(m);
    DecimalDigits(m);
    DigitPrefixOfDigits(z, rest, 10);
    SignOfDecimal(n, rest);
    assert SplitRadix(z + rest) == (10, z + rest) by {
      if m == 0 {
        assert z == "0";
      }
    }
  }

  /** A decimal digit is neither white space nor a sign. */
  lemma DecimalDigitIsPlain(c: char)
    requires IsDigit(c, 10)
    ensures '0' <= c <= '9' && !IsSpace(c) && c != '-' && c != '+'
  {
  }

  /** The text `String(n)` writes starts with no white space, and its sign is `-`
      exactly for a negative `n`. */
  lemma SignOfDecimal(n: int, rest: string)
    ensures var m := if n < 0 then -n else n;
            var s := DecimalString(n) + rest;
            TrimStart(s) == s && SplitSign(s) == (n < 0, Decimal(m) + rest)
  {
    var m := if n < 0 then -n else n;
    var z := Decimal(m);
    DecimalDigits(m);
    DecimalDigitIsPlain(z[0]);
    if n < 0 {
      var s := ['-'] + (z + rest);
      assert DecimalString(n) + rest == s;
      assert s[1..] == z + rest;
    } else {
      assert DecimalString(n) + rest == z + rest;
      assert (z + rest)[0] == z[0];
    }
  }

  /** Leading white space never changes the result. */
  lemma {:induction false} ParseSkipsSpace(ws: string, s: string)
    requires forall k :: 0 <= k < |ws| ==> IsSpace(ws[k])
    ensures Parse(ws + s) == Parse(s)
  {
    TrimStartSpace(ws, s);
  }

  lemma {:induction false} TrimStartSpace(ws: string, s: string)
    requires forall k :: 0 <= k < |ws| ==> IsSpace(ws[k])
    ensures TrimStart(ws + s) == TrimStart(s)
    ensures s == [] || !IsSpace(s[0]) ==> TrimStart(ws + s) == s
  {
    if ws != [] {
      assert (ws + s)[0] == ws[0];
      assert (ws + s)[1..] == ws[1..] + s;
      TrimStartSpace(ws[1..], s);
    } else {
      assert ws + s == s;
    }
  }

  /** Text that, after an optional sign, does not start with a decimal digit is NaN:
      this covers a first character that is no digit, white space or sign (`"x"`),
      a sign followed by no digit (`"-x"`, `"+"`, `"- 5"`) and the empty string. */
  lemma ParseNotANumber(sign: string, t: string)
    requires sign == [] || sign == "-" || sign == "+"
    requires sign == [] ==> t == [] || (!IsSpace(t[0]) && t[0] != '+' && t[0] != '-')
    requires t == [] || !IsDigit(t[0], 10)
    ensures Parse(sign + t) == None
  {
    assert SplitSign(TrimStart(sign + t)) == (sign == "-", t) by {
      if sign != [] {
        assert (sign + t)[1..] == t;
      } else {
        assert sign + t == t;
      }
    }
  }

  /** A `0x` or `0X` prefix with no hexadecimal digit after it is NaN (`"0x"`,
      `"-0xg"`). */
  lemma ParseHexWithoutDigits(sign: string, t: string)
    requires sign == [] || sign == "-" || sign == "+"
    requires |t| >= 2 && t[0] == '0' && (t[1] == 'x' || t[1] == 'X')
    requires |t| == 2 || !IsDigit(t[2], 16)
    ensures Parse(sign + t) == None
  {
    assert SplitSign(TrimStart(sign + t)) == (sign == "-", t) by {
      if sign != [] {
        assert (sign + t)[1..] == t;
      } else {
        assert sign + t == t;
      }
    }
    assert SplitRadix(t) == (16, t[2..]);
  }
}
