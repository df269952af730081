/** What `parseInt` returns on text that is a run of digits: the value the digits
    denote, read in radix 10, or in radix 16 after a `0x` prefix. */
module ParseIntDigits {
  import opened Wrappers
  import opened ParseInt

  /** No sign, or a single `-` or `+`. */
  predicate IsSign(sign: string) {
    sign == [] || sign == "-" || sign == "+"
  }

  /** `z` is a nonempty run of digits in `radix` and `rest`, the text after it,
      does not go on with another one. */
  predicate DigitRun(z: string, rest: string, radix: nat) {
    && z != []
    && (forall k :: 0 <= k < |z| ==> IsDigit(z[k], radix))
    && (rest == [] || !IsDigit(rest[0], radix))
  }

  /** The run is not a lone `0` followed by `x` or `X`, which would make it a
      hexadecimal prefix. */
  predicate NoHexPrefix(z: string, rest: string) {
    z == "0" ==> rest == [] || (rest[0] != 'x' && rest[0] != 'X')
  }

  /** `parseInt` of any run of decimal digits, with an optional sign and leading
      zeros (`"07"`, `"+7"`, `"-007"`), followed by a tail that is no digit: the
      value of the digits, negated after a `-`. A lone `0` followed by `x` or `X`
      is the hexadecimal case instead. */
  lemma ParseDigits(sign: string, z: string, rest: string)
    requires IsSign(sign)
    requires DigitRun(z, rest, 10) && NoHexPrefix(z, rest)
    ensures Parse(sign + (z + rest)) == Some(if sign == "-" then -(Value(z, 10) as int) else Value(z, 10))
  {
    DecimalStages(sign, z, rest);
    ParseOfParts(sign + (z + rest), sign == "-", z + rest, 10, z + rest, z);
  }

  /** `parseInt` of a `0x` or `0X` prefix and a run of hexadecimal digits, with an
      optional sign, followed by a tail that is no hexadecimal digit (`"0x1A"`,
      `"-0Xff"`): the value of the digits in radix 16, negated after a `-`. */
  lemma ParseHexDigits(sign: string, x: char, z: string, rest: string)
    requires IsSign(sign)
    requires x == 'x' || x == 'X'
    requires DigitRun(z, rest, 16)
    ensures Parse(sign + (['0', x] + (z + rest))) ==
            Some(if sign == "-" then -(Value(z, 16) as int) else Value(z, 16))
  {
    HexStages(sign, x, z, rest);
    ParseOfParts(sign + (['0', x] + (z + rest)), sign == "-", ['0', x] + (z + rest), 16, z + rest, z);
  }

  /** The stages of `Parse` on a signed decimal digit run: nothing to trim, the
      sign, radix 10, and the run itself as the digits. */
  lemma DecimalStages(sign: string, z: string, rest: string)
    requires IsSign(sign)
    requires DigitRun(z, rest, 10) && NoHexPrefix(z, rest)
    ensures TrimStart(sign + (z + rest)) == sign + (z + rest)
    ensures SplitSign(sign + (z + rest)) == (sign == "-", z + rest)
    ensures SplitRadix(z + rest) == (10, z + rest)
    ensures DigitPrefix(z + rest, 10) == z
  {
    DigitPrefixOfDigits(z, rest, 10);
    DecimalRadix(z, rest);
    DecimalDigitIsPlain(z[0]);
    SplitSigned(sign, z + rest);
  }

  /** The stages of `Parse` on a signed `0x` digit run: nothing to trim, the sign,
      radix 16 after the prefix, and the run itself as the digits. */
  lemma HexStages(sign: string, x: char, z: string, rest: string)
    requires IsSign(sign)
    requires x == 'x' || x == 'X'
    requires DigitRun(z, rest, 16)
    ensures TrimStart(sign + (['0', x] + (z + rest))) == sign + (['0', x] + (z + rest))
    ensures SplitSign(sign + (['0', x] + (z + rest))) == (sign == "-", ['0', x] + (z + rest))
    ensures SplitRadix(['0', x] + (z + rest)) == (16, z + rest)
    ensures DigitPrefix(z + rest, 16) == z
  {
    var u := ['0', x] + (z + rest);
    assert u[2..] == z + rest;
    DigitPrefixOfDigits(z, rest, 16);
    SplitSigned(sign, u);
  }

  /** A decimal digit run that is not a lone `0` before an `x` carries no radix
      prefix. */
  lemma DecimalRadix(z: string, rest: string)
    requires DigitRun(z, rest, 10) && NoHexPrefix(z, rest)
    ensures SplitRadix(z + rest) == (10, z + rest)
  {
    var u := z + rest;
    if |u| >= 2 && u[0] == '0' {
      if |z| >= 2 {
        assert u[1] == z[1];
        DecimalDigitIsPlain(z[1]);
      } else {
        assert z == "0";
        assert u[1] == rest[0];
      }
    }
  }

  /** `Parse` read off its stages: already trimmed text, its sign, its radix and
      its digit run. */
  lemma ParseOfParts(s: string, negative: bool, u: string, radix: nat, v: string, z: string)
    requires TrimStart(s) == s
    requires SplitSign(s) == (negative, u)
    requires SplitRadix(u) == (radix, v)
    requires DigitPrefix(v, radix) == z && z != []
    ensures Parse(s) == Some(if negative then -(Value(z, radix) as int) else Value(z, radix))
  {
  }

  /** Text behind at most one sign, starting with no white space and no sign:
      trimming keeps it whole, and the sign is split off. */
  lemma SplitSigned(sign: string, u: string)
    requires IsSign(sign)
    requires u != [] && !IsSpace(u[0]) && u[0] != '+' && u[0] != '-'
    ensures TrimStart(sign + u) == sign + u
    ensures SplitSign(sign + u) == (sign == "-", u)
  {
    if sign != [] {
      assert (sign + u)[1..] == u;
    } else {
      assert sign + u == u;
    }
  }
}
