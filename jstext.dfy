/**
 * The JavaScript string primitives the application relies on:
 * `String.prototype.trim`, `String.prototype.split` with a one-character
 * separator, `parseInt` without a radix, and `Number` applied to a string
 * (sections 22.1.3.32, 22.1.3.23, 19.2.5 and 7.1.4.1.1 of ECMA-262).
 */
module JsText {
  import opened Common

  /** The value `Number(s)` produces, restricted to what the model distinguishes. */
  datatype NumberValue =
    | Integer(n: int)   // a finite integral value
    | NotInteger        // NaN, or a non-integral or non-decimal numeral
    | Undefined         // no value at all (a missing array element)

  /** WhiteSpace and LineTerminator code points (sections 12.2 and 12.3 of ECMA-262). */
  predicate IsWhiteSpace(c: char)
  {
    var u := c as int;
    u == 0x09 || u == 0x0A || u == 0x0B || u == 0x0C || u == 0x0D || u == 0x20 ||
    u == 0xA0 || u == 0x1680 || (0x2000 <= u <= 0x200A) || u == 0x2028 || u == 0x2029 ||
    u == 0x202F || u == 0x205F || u == 0x3000 || u == 0xFEFF
  }

  predicate AllWhiteSpace(s: string)
  {
    forall i :: 0 <= i < |s| ==> IsWhiteSpace(s[i])
  }

  function TrimStart(s: string): string
  {
    if s != [] && IsWhiteSpace(s[0]) then TrimStart(s[1..]) else s
  }

  function TrimEnd(s: string): string
  {
    if s != [] && IsWhiteSpace(s[|s| - 1]) then TrimEnd(s[..|s| - 1]) else s
  }

  /** `s.trim()`: `s` without its leading and trailing white space. */
  function Trim(s: string): string
  {
    TrimEnd(TrimStart(s))
  }

  /** `TrimStart` drops a blank prefix and stops at the first character that is not blank. */
  lemma {:induction false} TrimStartSpec(s: string)
    ensures var r := TrimStart(s);
      |r| <= |s| && r == s[|s| - |r|..] && AllWhiteSpace(s[..|s| - |r|]) &&
      (r != [] ==> !IsWhiteSpace(r[0]))
  {
    if s != [] && IsWhiteSpace(s[0]) {
      TrimStartSpec(s[1..]);
      var r := TrimStart(s);
      assert s[1..][|s| - 1 - |r|..] == s[|s| - |r|..];
      assert forall i :: 1 <= i < |s| - |r| ==> s[i] == s[1..][..|s| - 1 - |r|][i - 1];
    }
  }

  /** `TrimEnd` drops a blank suffix and stops at the last character that is not blank. */
  lemma {:induction false} TrimEndSpec(s: string)
    ensures var r := TrimEnd(s);
      |r| <= |s| && r == s[..|r|] && AllWhiteSpace(s[|r|..]) &&
      (r != [] ==> !IsWhiteSpace(r[|r| - 1]))
  {
    if s != [] && IsWhiteSpace(s[|s| - 1]) {
      TrimEndSpec(s[..|s| - 1]);
      var r := TrimEnd(s);
      assert s[..|s| - 1][..|r|] == s[..|r|];
      assert forall i :: |r| <= i < |s| - 1 ==> s[i] == s[..|s| - 1][|r|..][i - |r|];
    }
  }

  /** A string trims to the empty string exactly when it is all white space. */
  lemma TrimEmptyIff(s: string)
    ensures Trim(s) == [] <==> AllWhiteSpace(s)
  {
    var t := TrimStart(s);
    TrimStartSpec(s);
    TrimEndSpec(t);
    if Trim(s) == [] {
      assert s == s[..|s| - |t|] + t;
    }
  }

  function Split(s: string, c: char): (parts: seq<string>)
    ensures |parts| >= 1
  {
    if s == [] then [""]
    else if s[0] == c then [""] + Split(s[1..], c)
    else
      var rest := Split(s[1..], c);
      [[s[0]] + rest[0]] + rest[1..]
  }

  /** `parts.join(c)`: the inverse of `Split`. */
  function Join(parts: seq<string>, c: char): string
    requires |parts| >= 1
  {
    if |parts| == 1 then parts[0] else parts[0] + [c] + Join(parts[1..], c)
  }

  /** Splitting and joining again gives back the original string, and no part holds the separator. */
  lemma {:induction false} SplitJoin(s: string, c: char)
    ensures Join(Split(s, c), c) == s
    ensures forall i :: 0 <= i < |Split(s, c)| ==> c !in Split(s, c)[i]
  {
    if s != [] {
      SplitJoin(s[1..], c);
      var rest := Split(s[1..], c);
      if s[0] == c {
        assert Split(s, c)[1..] == rest;
      } else {
        var parts := Split(s, c);
        assert parts[1..] == rest[1..];
        if |rest| == 1 {
          assert Join(parts, c) == [s[0]] + rest[0];
        } else {
          assert Join(rest, c) == rest[0] + [c] + Join(rest[1..], c);
        }
        assert s == [s[0]] + s[1..];
        assert forall i :: 1 <= i < |parts| ==> parts[i] == rest[i];
      }
    }
  }

  /** The first part of a split is the longest prefix that does not hold the separator. */
  lemma {:induction false} SplitFirstPart(s: string, c: char)
    ensures var w := Split(s, c)[0];
      |w| <= |s| && w == s[..|w|] && c !in w && (|w| < |s| ==> s[|w|] == c)
  {
    if s != [] && s[0] != c {
      SplitFirstPart(s[1..], c);
    }
  }

  /** A string without the separator splits into itself. */
  lemma {:induction false} SplitNoSeparator(s: string, c: char)
    requires c !in s
    ensures Split(s, c) == [s]
  {
    if s != [] {
      SplitNoSeparator(s[1..], c);
      assert [s[0]] + s[1..] == s;
    }
  }

  /** The separator after a separator-free prefix ends the first part. */
  lemma {:induction false} SplitAtSeparator(a: string, b: string, c: char)
    requires c !in a
    ensures Split(a + [c] + b, c) == [a] + Split(b, c)
  {
    var s := a + [c] + b;
    if a == [] {
      assert s[1..] == b;
    } else {
      assert s[0] == a[0] && s[1..] == a[1..] + [c] + b;
      SplitAtSeparator(a[1..], b, c);
      assert [a[0]] + a[1..] == a;
    }
  }

  predicate IsDigit(c: char, radix: int)
  {
    ('0' <= c <= '9' && (c as int - '0' as int) < radix) ||
    (radix == 16 && ('a' <= c <= 'f' || 'A' <= c <= 'F'))
  }

  function DigitValue(c: char): nat
  {
    if '0' <= c <= '9' then c as int - '0' as int
    else if 'a' <= c <= 'f' then c as int - 'a' as int + 10
    else if 'A' <= c <= 'F' then c as int - 'A' as int + 10
    else 0
  }

  predicate AllDigits(s: string, radix: int)
  {
    forall i :: 0 <= i < |s| ==> IsDigit(s[i], radix)
  }

  /** The longest prefix of `s` made of radix-`radix` digits. */
  function DigitPrefix(s: string, radix: int): (ds: string)
    ensures |ds| <= |s| && ds == s[..|ds|] && AllDigits(ds, radix)
    ensures |ds| < |s| ==> !IsDigit(s[|ds|], radix)
  {
    if s != [] && IsDigit(s[0], radix) then [s[0]] + DigitPrefix(s[1..], radix) else []
  }

  /** The mathematical value of a digit string, most significant digit first. */
  function DigitsValue(ds: string, radix: nat): nat
  {
    if ds == [] then 0 else DigitsValue(ds[..|ds| - 1], radix) * radix + DigitValue(ds[|ds| - 1])
  }

  /**
   * `parseInt(s)` with no radix: skip leading white space, take an optional
   * sign, then read an unsigned integer. `None` is NaN (no digit at all).
   * A negative zero is reported as 0.
   */
  function ParseInt(s: string): Option<int>
  {
    var t := TrimStart(s);
    if t != [] && t[0] == '-' then
      match ParseUnsigned(t[1..])
      case None => None
      case Some(m) => Some(-m)
    else if t != [] && t[0] == '+' then ParseUnsigned(t[1..])
    else ParseUnsigned(t)
  }

  /** The digits part of `parseInt`: radix 16 after a `0x`/`0X` prefix, else 10; the longest run of digits. */
  function ParseUnsigned(u: string): Option<int>
  {
    var hex := |u| >= 2 && u[0] == '0' && (u[1] == 'x' || u[1] == 'X');
    var radix := if hex then 16 else 10;
    var ds := DigitPrefix(if hex then u[2..] else u, radix);
    if ds == [] then None else Some(DigitsValue(ds, radix))
  }

  /** `Number(s)`: an empty or all-blank string is 0; a signed decimal integer is its value. */
  function ToNumber(s: string): NumberValue
  {
    var t := Trim(s);
    if t == [] then Integer(0)
    else if t[0] == '-' then
      match DecimalInteger(t[1..])
      case None => NotInteger
      case Some(m) => Integer(-m)
    else if t[0] == '+' then
      match DecimalInteger(t[1..])
      case None => NotInteger
      case Some(m) => Integer(m)
    else
      match DecimalInteger(t)
      case None => NotInteger
      case Some(m) => Integer(m)
  }

  /** A non-empty string of decimal digits and its value; anything else is not an integer numeral. */
  function DecimalInteger(u: string): Option<int>
  {
    if u != [] && AllDigits(u, 10) then Some(DigitsValue(u, 10)) else None
  }

  /** The decimal numeral of `n`, without sign or leading zeros. */
  function ToDecimal(n: nat): (s: string)
    ensures s != [] && AllDigits(s, 10)
    ensures n >= 10 ==> |s| >= 2
  {
    if n < 10 then ['0' + n as char] else ToDecimal(n / 10) + ['0' + (n % 10) as char]
  }

  lemma {:induction false} DecimalValue(n: nat)
    ensures DigitsValue(ToDecimal(n), 10) == n
  {
    if n >= 10 {
      DecimalValue(n / 10);
      var s := ToDecimal(n);
      assert s[..|s| - 1] == ToDecimal(n / 10);
    }
  }

  lemma {:induction false} DigitPrefixOfDigits(ds: string, rest: string, radix: int)
    requires AllDigits(ds, radix)
    requires rest == [] || !IsDigit(rest[0], radix)
    ensures DigitPrefix(ds + rest, radix) == ds
  {
    if ds != [] {
      assert (ds + rest)[1..] == ds[1..] + rest;
      DigitPrefixOfDigits(ds[1..], rest, radix);
    } else {
      assert ds + rest == rest;
    }
  }

  lemma UnsignedDecimal(n: nat, rest: string)
    requires rest == [] || (!IsDigit(rest[0], 10) && rest[0] != 'x' && rest[0] != 'X')
    ensures ParseUnsigned(ToDecimal(n) + rest) == Some(n)
  {
    var d := ToDecimal(n);
    var u := d + rest;
    assert u[0] == d[0];
    assert !(|u| >= 2 && u[0] == '0' && (u[1] == 'x' || u[1] == 'X')) by {
      if |u| >= 2 {
        if n < 10 { assert u[1] == rest[0]; } else { assert u[1] == d[1]; }
      }
    }
    DigitPrefixOfDigits(d, rest, 10);
    DecimalValue(n);
  }

  /** A decimal digit is neither white space nor a sign. */
  lemma DigitIsNotBlank(c: char)
    requires IsDigit(c, 10)
    ensures !IsWhiteSpace(c) && c != '-' && c != '+'
  {
  }

  /** A string that begins and ends with a digit is left alone by `trim`. */
  lemma TrimDigits(d: string)
    requires d != [] && IsDigit(d[0], 10) && IsDigit(d[|d| - 1], 10)
    ensures TrimStart(d) == d && Trim(d) == d
  {
    DigitIsNotBlank(d[0]);
    DigitIsNotBlank(d[|d| - 1]);
  }

  /** Round trip: `parseInt` reads back the numeral of `n` when what follows is not part of a number. */
  lemma ParseIntDecimal(n: nat, rest: string)
    requires rest == [] || (!IsDigit(rest[0], 10) && rest[0] != 'x' && rest[0] != 'X')
    ensures ParseInt(ToDecimal(n) + rest) == Some(n)
  {
    var d := ToDecimal(n);
    var s := d + rest;
    assert s[0] == d[0];
    DigitIsNotBlank(d[0]);
    assert TrimStart(s) == s;
    UnsignedDecimal(n, rest);
  }

  /** Round trip for a negative numeral. */
  lemma ParseIntNegative(n: nat, rest: string)
    requires rest == [] || (!IsDigit(rest[0], 10) && rest[0] != 'x' && rest[0] != 'X')
    ensures ParseInt("-" + ToDecimal(n) + rest) == Some(-(n as int))
  {
    var u := ToDecimal(n) + rest;
    assert "-" + ToDecimal(n) + rest == "-" + u;
    UnsignedDecimal(n, rest);
    ParseIntMinus(u, n);
  }

  /** A leading minus sign negates what the digits after it parse to. */
  lemma ParseIntMinus(u: string, m: nat)
    requires ParseUnsigned(u) == Some(m)
    ensures ParseInt("-" + u) == Some(-(m as int))
  {
    var s := "-" + u;
    assert s[0] == '-' && !IsWhiteSpace('-');
    assert TrimStart(s) == s;
    assert s[1..] == u;
  }

  /** `parseInt` is NaN when the first non-blank character is neither a sign nor a digit. */
  lemma ParseIntNaN(s: string)
    requires var t := TrimStart(s); t != [] && t[0] != '-' && t[0] != '+' && !IsDigit(t[0], 10)
    ensures ParseInt(s) == None
  {
  }

  /** `Number` reads back the decimal numeral of `n`. */
  lemma ToNumberDecimal(n: nat)
    ensures ToNumber(ToDecimal(n)) == Integer(n)
  {
    var d := ToDecimal(n);
    TrimDigits(d);
    DecimalValue(n);
  }

  /** `Number` of a two-digit string such as "09" is its value, leading zero included. */
  lemma ToNumberTwoDigits(a: char, b: char)
    requires IsDigit(a, 10) && IsDigit(b, 10)
    ensures ToNumber([a, b]) == Integer(10 * DigitValue(a) + DigitValue(b))
  {
    var d := [a, b];
    TrimDigits(d);
    assert d[..1] == [a];
    assert [a][..0] == [];
    assert DigitsValue([a], 10) == DigitValue(a);
    assert DigitsValue(d, 10) == DigitsValue([a], 10) * 10 + DigitValue(b);
  }
}
