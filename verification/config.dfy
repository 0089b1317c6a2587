/**
 * Environment lookup (src/lib/config.ts). The process environment is a map from
 * variable names to their string values; a name that is not a key is `undefined`.
 */
module Config {
  import opened Wrappers

  type Environment = map<string, string>

  function MissingVariableError(key: string): string {
    "Missing required environment variable: " + key
  }

  function InvalidNumberError(key: string, value: string): string {
    "Invalid number for " + key + ": " + value
  }

  /** `getEnv`: the value when the key is defined (even an empty one), else the default, else an error. */
  function GetEnv(env: Environment, key: string, default: Option<string>): (r: Result<string>)
    ensures key in env ==> r == Ok(env[key])
    ensures r.Err? <==> key !in env && default.None?
    ensures key !in env && default.Some? ==> r == Ok(default.value)
    ensures r.Err? ==> r.message == MissingVariableError(key)
  {
    if key !in env then
      if default.Some? then Ok(default.value) else Err(MissingVariableError(key))
    else
      Ok(env[key])
  }

  /**
   * `getEnvNumber`: for an undefined key the default, unparsed, or the missing-variable error;
   * for a defined key the base-10 parse of its value, or an error when the parse is NaN.
   */
  function GetEnvNumber(env: Environment, key: string, default: Option<int>): (r: Result<int>)
    ensures key !in env ==> r == (if default.Some? then Ok(default.value) else Err(MissingVariableError(key)))
    ensures key in env ==> (r.Ok? <==> ParseInt(env[key]).Some?)
    ensures key in env && r.Ok? ==> r.value == ParseInt(env[key]).value
    ensures key in env && r.Err? ==> r.message == InvalidNumberError(key, env[key])
  {
    if key !in env then
      if default.Some? then Ok(default.value) else Err(MissingVariableError(key))
    else
      match ParseInt(env[key])
      case None => Err(InvalidNumberError(key, env[key]))
      case Some(n) => Ok(n)
  }

  // ---------------------------------------------------------------------------
  // parseInt(value, 10): skip leading white space, take an optional sign, then the
  // longest run of decimal digits; no digit at all is NaN (here None).
  // ---------------------------------------------------------------------------

  /** The white-space and line-terminator characters of ECMAScript that `parseInt` skips (Zs beyond U+00A0 left out). */
  predicate IsWhiteSpace(c: char) {
    c in {' ', '\t', '\n', '\r', '\U{000B}', '\U{000C}', '\U{00A0}', '\U{2028}', '\U{2029}', '\U{FEFF}'}
  }

  predicate IsDigit(c: char) {
    '0' <= c <= '9'
  }

  function DigitValue(c: char): (d: nat)
    requires IsDigit(c)
    ensures d < 10
  {
    (c as int) - ('0' as int)
  }

  function DigitChar(d: nat): (c: char)
    requires d < 10
    ensures IsDigit(c) && DigitValue(c) == d
  {
    ((d + '0' as int) as char)
  }

  /** `s` without its leading white space. */
  function TrimStart(s: string): (r: string)
    ensures |r| <= |s| && r == s[|s| - |r|..]
    ensures r == [] || !IsWhiteSpace(r[0])
    ensures forall i :: 0 <= i < |s| - |r| ==> IsWhiteSpace(s[i])
  {
    if s != [] && IsWhiteSpace(s[0]) then TrimStart(s[1..]) else s
  }

  /** The longest prefix of `s` made of decimal digits. */
  function DigitPrefix(s: string): (r: string)
    ensures |r| <= |s| && r == s[..|r|]
    ensures forall i :: 0 <= i < |r| ==> IsDigit(r[i])
    ensures |r| == |s| || !IsDigit(s[|r|])
  {
    if s != [] && IsDigit(s[0]) then [s[0]] + DigitPrefix(s[1..]) else []
  }

  /** The number a string of decimal digits denotes, most significant digit first. */
  function DigitsValue(ds: string): nat
    requires forall i :: 0 <= i < |ds| ==> IsDigit(ds[i])
  {
    if ds == [] then 0 else DigitsValue(ds[..|ds| - 1]) * 10 + DigitValue(ds[|ds| - 1])
  }

  /** A JavaScript `parseInt(s, 10)` on integers: None stands for NaN. */
  function ParseInt(s: string): (r: Option<int>)
  {
    ParseSigned(TrimStart(s))
  }

  /** `parseInt` after the white space: an optional sign, then the digit prefix. */
  function ParseSigned(t: string): (r: Option<int>)
  {
    var negative := t != [] && t[0] == '-';
    var body := if t != [] && (t[0] == '-' || t[0] == '+') then t[1..] else t;
    var digits := DigitPrefix(body);
    var magnitude: int := if digits == [] then 0 else DigitsValue(digits);
    if digits == [] then None
    else if negative then Some(-magnitude)
    else Some(magnitude)
  }

  /** Base-10 text of a natural number, without leading zeros. */
  function NatString(n: nat): (s: string)
    ensures s != [] && forall i :: 0 <= i < |s| ==> IsDigit(s[i])
  {
    if n < 10 then [DigitChar(n)] else NatString(n / 10) + [DigitChar(n % 10)]
  }

  /** Base-10 text of an integer, as JavaScript's `String(n)` writes a safe integer. */
  function DecimalString(n: int): string {
    if n < 0 then "-" + NatString(-n) else NatString(n)
  }

  lemma {:induction false} NatStringValue(n: nat)
    ensures DigitsValue(NatString(n)) == n
  {
    if n >= 10 {
      var s := NatString(n);
      assert s[..|s| - 1] == NatString(n / 10);
      NatStringValue(n / 10);
    }
  }

  lemma {:induction false} DigitPrefixOfDigits(s: string)
    requires forall i :: 0 <= i < |s| ==> IsDigit(s[i])
    ensures DigitPrefix(s) == s
  {
    if s != [] {
      DigitPrefixOfDigits(s[1..]);
    }
  }

  /** `parseInt` reads back every integer written in base 10. */
  lemma ParseIntDecimalString(n: int)
    ensures ParseInt(DecimalString(n)) == Some(n)
  {
    var s := DecimalString(n);
    assert !IsWhiteSpace(s[0]);
    assert TrimStart(s) == s;
    var m: nat := if n < 0 then -n else n;
    var body := NatString(m);
    if n < 0 {
      assert s[1..] == body;
    } else {
      assert s[0] != '-' && s[0] != '+';
    }
    DigitPrefixOfDigits(body);
    NatStringValue(m);
  }

  /** Example: `parseInt` stops at the first character that is not a digit, so `"80abc"` reads as 80. */
  lemma ParseIntReadsNumericPrefix()
    ensures ParseInt("80abc") == Some(80)
  {
    var s := "80abc";
    assert !IsWhiteSpace(s[0]);
    assert TrimStart(s) == s;
    assert s[1..][1..] == "abc";
    assert DigitPrefix("abc") == [];
    assert DigitPrefix(s) == "80";
    assert "80"[..1] == "8" && "8"[..0] == [];
    assert DigitsValue("80") == 80;
  }

  /** Example: leading white space is skipped and a minus sign negates, so `" -42"` reads as -42. */
  lemma ParseIntSkipsSpaceAndSign()
    ensures ParseInt(" -42") == Some(-42)
  {
    var s := " -42";
    assert IsWhiteSpace(s[0]) && !IsWhiteSpace(s[1..][0]);
    assert TrimStart(s) == "-42";
    assert "-42"[1..] == "42" && "42"[1..] == "2" && "2"[1..] == [];
    assert DigitPrefix("42") == "42";
    assert "42"[..1] == "4" && "4"[..0] == [];
    assert DigitsValue("42") == 42;
  }

  /** Example: `"abc"` starts with no digit and is NaN. */
  lemma ParseIntRejectsNonNumeric()
    ensures ParseInt("abc").None?
  {
    assert !IsWhiteSpace("abc"[0]);
    assert TrimStart("abc") == "abc";
  }

  /** A run of digits followed by text that does not start with a digit: the prefix is the run. */
  lemma {:induction false} DigitPrefixAppend(d: string, t: string)
    requires forall i :: 0 <= i < |d| ==> IsDigit(d[i])
    requires t == [] || !IsDigit(t[0])
    ensures DigitPrefix(d + t) == d
  {
    if d != [] {
      assert (d + t)[1..] == d[1..] + t;
      DigitPrefixAppend(d[1..], t);
    } else {
      assert d + t == t;
    }
  }

  /**
   * `parseInt` reads the base-10 text of any integer and ignores whatever follows it,
   * as long as the text that follows does not start with a digit.
   */
  lemma ParseIntPrefix(n: int, t: string)
    requires t == [] || !IsDigit(t[0])
    ensures ParseInt(DecimalString(n) + t) == Some(n)
  {
    var m: nat := if n < 0 then -n else n;
    var body := NatString(m);
    NatStringValue(m);
    if n < 0 {
      assert DecimalString(n) + t == "-" + (body + t);
      UnsignedDigits(body, t);
      SignedDigits(body, t);
    } else {
      assert DecimalString(n) + t == body + t;
      UnsignedDigits(body, t);
    }
  }

  /** No decimal digit is white space. */
  lemma DigitIsNotSpace(c: char)
    requires IsDigit(c)
    ensures !IsWhiteSpace(c)
  {
  }

  /** Text that does not start with white space is parsed as it stands. */
  lemma TrimStartNoSpace(s: string)
    requires s != [] && !IsWhiteSpace(s[0])
    ensures TrimStart(s) == s
    ensures ParseInt(s) == ParseSigned(s)
  {
  }

  /** Digits followed by a non-digit: the text is already trimmed and reads as the digits' value. */
  lemma UnsignedDigits(d: string, t: string)
    requires d != [] && forall i :: 0 <= i < |d| ==> IsDigit(d[i])
    requires t == [] || !IsDigit(t[0])
    ensures ParseInt(d + t) == Some(DigitsValue(d) as int)
  {
    var s := d + t;
    assert IsDigit(s[0]) by {
      assert s[0] == d[0];
    }
    DigitIsNotSpace(s[0]);
    DigitPrefixAppend(d, t);
    TrimStartNoSpace(s);
    UnsignedSigned(s, d);
  }

  /** Unsigned text whose digit prefix is `d` reads as `d`'s value. */
  lemma UnsignedSigned(s: string, d: string)
    requires s != [] && IsDigit(s[0])
    requires d != [] && forall i :: 0 <= i < |d| ==> IsDigit(d[i])
    requires DigitPrefix(s) == d
    ensures ParseSigned(s) == Some(DigitsValue(d) as int)
  {
  }

  /** The same digits after a minus sign read as the negated value. */
  lemma SignedDigits(d: string, t: string)
    requires d != [] && forall i :: 0 <= i < |d| ==> IsDigit(d[i])
    requires t == [] || !IsDigit(t[0])
    ensures ParseInt("-" + (d + t)) == Some(-(DigitsValue(d) as int))
  {
    var s := "-" + (d + t);
    assert s[0] == '-' && s[1..] == d + t;
    DigitPrefixAppend(d, t);
    TrimStartNoSpace(s);
    NegativeSigned(s, d);
  }

  /** Text after a minus sign whose digit prefix is `d` reads as minus `d`'s value. */
  lemma NegativeSigned(s: string, d: string)
    requires s != [] && s[0] == '-'
    requires d != [] && forall i :: 0 <= i < |d| ==> IsDigit(d[i])
    requires DigitPrefix(s[1..]) == d
    ensures ParseSigned(s) == Some(-(DigitsValue(d) as int))
  {
  }

  /** Leading white space is skipped. */
  lemma {:induction false} TrimStartSkipsWhiteSpace(w: string, s: string)
    requires forall i :: 0 <= i < |w| ==> IsWhiteSpace(w[i])
    ensures TrimStart(w + s) == TrimStart(s)
  {
    if w != [] {
      assert (w + s)[0] == w[0];
      assert (w + s)[1..] == w[1..] + s;
      TrimStartSkipsWhiteSpace(w[1..], s);
    } else {
      assert w + s == s;
    }
  }

  /** `parseInt` gives the same result whatever white space precedes the text. */
  lemma ParseIntSkipsWhiteSpace(w: string, s: string)
    requires forall i :: 0 <= i < |w| ==> IsWhiteSpace(w[i])
    ensures ParseInt(w + s) == ParseInt(s)
  {
    TrimStartSkipsWhiteSpace(w, s);
  }

  /** A leading `-` negates the number the digits denote; a leading `+` changes nothing. */
  lemma ParseIntSign(s: string)
    requires s != [] && IsDigit(s[0])
    ensures ParseInt(s).Some?
    ensures ParseInt("-" + s) == Some(-ParseInt(s).value)
    ensures ParseInt("+" + s) == ParseInt(s)
  {
    DigitIsNotSpace(s[0]);
    assert TrimStart(s) == s;
    assert !IsWhiteSpace(("-" + s)[0]) && !IsWhiteSpace(("+" + s)[0]);
    assert TrimStart("-" + s) == "-" + s;
    assert TrimStart("+" + s) == "+" + s;
    assert ("-" + s)[1..] == s && ("+" + s)[1..] == s;
  }

  /** After the white space, a digit, or a sign followed by a digit. */
  predicate StartsNumeric(s: string) {
    var t := TrimStart(s);
    t != [] && (IsDigit(t[0]) || ((t[0] == '-' || t[0] == '+') && |t| > 1 && IsDigit(t[1])))
  }

  /** `parseInt` is NaN exactly when the text, after its white space, starts with no digit and no signed digit. */
  lemma ParseIntNaNExactly(s: string)
    ensures ParseInt(s).None? <==> !StartsNumeric(s)
  {
    var t := TrimStart(s);
    if t != [] && (t[0] == '-' || t[0] == '+') {
      var body := t[1..];
      assert body != [] ==> body[0] == t[1];
    }
  }

  /** A defined variable whose value does not start numerically is the invalid-number error, whatever the default. */
  lemma GetEnvNumberRejectsNonNumeric(env: Environment, key: string, default: Option<int>)
    requires key in env && !StartsNumeric(env[key])
    ensures GetEnvNumber(env, key, default) == Err(InvalidNumberError(key, env[key]))
  {
    ParseIntNaNExactly(env[key]);
  }

  /** A defined key never falls back to the default, whatever the default is. */
  lemma GetEnvDefinedIgnoresDefault(env: Environment, key: string, d1: Option<string>, d2: Option<string>)
    requires key in env
    ensures GetEnv(env, key, d1) == GetEnv(env, key, d2) == Ok(env[key])
  {
  }

  /** A defined key never falls back to the default, even when its value is not a number. */
  lemma GetEnvNumberDefinedIgnoresDefault(env: Environment, key: string, d1: Option<int>, d2: Option<int>)
    requires key in env
    ensures GetEnvNumber(env, key, d1) == GetEnvNumber(env, key, d2)
  {
  }

  /** A variable holding the base-10 text of `n` reads back as `n`, whatever the default. */
  lemma GetEnvNumberRoundTrip(env: Environment, key: string, n: int, default: Option<int>)
    ensures GetEnvNumber(env[key := DecimalString(n)], key, default) == Ok(n)
  {
    ParseIntDecimalString(n);
  }
}
