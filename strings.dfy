/**
 * The few pieces of JavaScript's string semantics that the profile site relies on:
 * which characters count as white space (for String.prototype.trim and the regex class \s),
 * substring and prefix tests (String.prototype.includes / startsWith), the decimal text of a
 * number (template literals) and the global parseInt with no radix.
 */
module Strings {
  import opened Wrappers

  /** The ECMAScript WhiteSpace and LineTerminator code points. */
  predicate IsJsWhitespace(c: char) {
    var n := c as int;
    n == 0x09 || n == 0x0A || n == 0x0B || n == 0x0C || n == 0x0D || n == 0x20 || n == 0xA0
    || n == 0x1680 || (0x2000 <= n <= 0x200A) || n == 0x2028 || n == 0x2029 || n == 0x202F
    || n == 0x205F || n == 0x3000 || n == 0xFEFF
  }

  predicate AllWhitespace(s: string) {
    forall i :: 0 <= i < |s| ==> IsJsWhitespace(s[i])
  }

  /** String.prototype.trimStart: drops the leading white space and nothing else. */
  function TrimStart(s: string): (r: string)
    ensures |r| <= |s| && r == s[|s| - |r|..]
    ensures AllWhitespace(s[..|s| - |r|])
    ensures r == [] || !IsJsWhitespace(r[0])
  {
    if |s| > 0 && IsJsWhitespace(s[0]) then
      var r := TrimStart(s[1..]);
      assert s[1..][..|s[1..]| - |r|] == s[1..|s| - |r|];
      r
    else s
  }

  /** String.prototype.trimEnd: drops the trailing white space and nothing else. */
  function TrimEnd(s: string): (r: string)
    ensures |r| <= |s| && r == s[..|r|]
    ensures AllWhitespace(s[|r|..])
    ensures r == [] || !IsJsWhitespace(r[|r| - 1])
  {
    if |s| > 0 && IsJsWhitespace(s[|s| - 1]) then
      var r := TrimEnd(s[..|s| - 1]);
      assert s[..|s| - 1][|r|..] == s[|r|..|s| - 1];
      r
    else s
  }

  /** String.prototype.trim: the longest middle slice with no white space at either end. */
  function Trim(s: string): (r: string)
    ensures exists i, j :: 0 <= i <= j <= |s| && r == s[i..j] && AllWhitespace(s[..i]) && AllWhitespace(s[j..])
    ensures r == [] || (!IsJsWhitespace(r[0]) && !IsJsWhitespace(r[|r| - 1]))
  {
    var t := TrimStart(s);
    var r := TrimEnd(t);
    var i := |s| - |t|;
    assert r == s[i..i + |r|];
    assert s[i + |r|..] == t[|r|..];
    r
  }

  lemma {:induction false} TrimOfNonWhitespaceEnds(s: string)
    requires s == [] || (!IsJsWhitespace(s[0]) && !IsJsWhitespace(s[|s| - 1]))
    ensures Trim(s) == s
  {
  }

  /** Trimming twice is the same as trimming once. */
  lemma TrimIdempotent(s: string)
    ensures Trim(Trim(s)) == Trim(s)
  {
    TrimOfNonWhitespaceEnds(Trim(s));
  }

  predicate StartsWith(s: string, prefix: string) {
    |prefix| <= |s| && s[..|prefix|] == prefix
  }

  lemma PrefixOfAppend(a: string, b: string)
    ensures StartsWith(a + b, a)
  {
    assert (a + b)[..|a|] == a;
  }

  predicate OccursAt(s: string, sub: string, i: int) {
    0 <= i && i + |sub| <= |s| && s[i..i + |sub|] == sub
  }

  /** String.prototype.includes, as JavaScript evaluates it: a left-to-right scan. */
  predicate Contains(s: string, sub: string)
    decreases |s|
  {
    StartsWith(s, sub) || (|s| > 0 && Contains(s[1..], sub))
  }

  lemma {:induction false} OccursImpliesContains(s: string, sub: string, i: int)
    requires OccursAt(s, sub, i)
    ensures Contains(s, sub)
    decreases i
  {
    if i > 0 {
      assert s[1..][i - 1..i - 1 + |sub|] == s[i..i + |sub|];
      OccursImpliesContains(s[1..], sub, i - 1);
    }
  }

  lemma {:induction false} ContainsImpliesOccurs(s: string, sub: string)
    requires Contains(s, sub)
    ensures exists i :: OccursAt(s, sub, i)
    decreases |s|
  {
    if StartsWith(s, sub) {
      assert OccursAt(s, sub, 0);
    } else {
      ContainsImpliesOccurs(s[1..], sub);
      var i :| OccursAt(s[1..], sub, i);
      assert s[1..][i..i + |sub|] == s[i + 1..i + 1 + |sub|];
      assert OccursAt(s, sub, i + 1);
    }
  }

  /** The scan finds `sub` exactly when it occurs at some position of `s`. */
  lemma ContainsIffOccurs(s: string, sub: string)
    ensures Contains(s, sub) <==> exists i :: OccursAt(s, sub, i)
  {
    if Contains(s, sub) {
      ContainsImpliesOccurs(s, sub);
    }
    forall i | OccursAt(s, sub, i) ensures Contains(s, sub) {
      OccursImpliesContains(s, sub, i);
    }
  }

  lemma ContainsOfAppend(a: string, sub: string, b: string)
    ensures Contains(a + sub + b, sub)
  {
    var s := a + sub + b;
    assert s[|a|..|a| + |sub|] == sub;
    assert OccursAt(s, sub, |a|);
    ContainsIffOccurs(s, sub);
  }

  // ---------------------------------------------------------------------------------------
  // Decimal text of numbers

  predicate IsDecimalDigit(c: char) { '0' <= c <= '9' }

  predicate AllDecimalDigits(s: string) {
    forall i :: 0 <= i < |s| ==> IsDecimalDigit(s[i])
  }

  function DigitChar(d: nat): (c: char)
    requires d < 10
    ensures IsDecimalDigit(c) && c as int - '0' as int == d
  {
    ('0' as int + d) as char
  }

  /** The value of a run of decimal digits, most significant first. */
  function DecimalValue(s: string): nat
    requires AllDecimalDigits(s)
  {
    if s == [] then 0 else DecimalValue(s[..|s| - 1]) * 10 + (s[|s| - 1] as int - '0' as int)
  }

  /** The text JavaScript prints for a non-negative integer: its shortest decimal digits. */
  function NatToDecimal(n: nat): (r: string)
    ensures |r| > 0 && AllDecimalDigits(r)
    ensures r[0] == '0' ==> n == 0
    decreases n
  {
    if n < 10 then [DigitChar(n)] else NatToDecimal(n / 10) + [DigitChar(n % 10)]
  }

  lemma {:induction false} NatToDecimalValue(n: nat)
    ensures DecimalValue(NatToDecimal(n)) == n
    decreases n
  {
    if n >= 10 {
      NatToDecimalValue(n / 10);
      var r := NatToDecimal(n);
      assert r[..|r| - 1] == NatToDecimal(n / 10);
    }
  }

  /** The decimal text is injective: distinct numbers print differently. */
  lemma NatToDecimalInjective(m: nat, n: nat)
    requires NatToDecimal(m) == NatToDecimal(n)
    ensures m == n
  {
    NatToDecimalValue(m);
    NatToDecimalValue(n);
  }

  /** The text JavaScript prints for an integer-valued number. */
  function IntToDecimal(i: int): string {
    if i < 0 then "-" + NatToDecimal(-i) else NatToDecimal(i)
  }

  // ---------------------------------------------------------------------------------------
  // parseInt(s) with no radix argument

  /** The value of an ASCII letter or digit as a digit of radix up to 36, or 36 if it is none. */
  function DigitValue(c: char): (d: nat)
    ensures d <= 36
    ensures IsDecimalDigit(c) ==> d == c as int - '0' as int
  {
    if '0' <= c <= '9' then c as int - '0' as int
    else if 'a' <= c <= 'z' then c as int - 'a' as int + 10
    else if 'A' <= c <= 'Z' then c as int - 'A' as int + 10
    else 36
  }

  predicate IsDigitOf(c: char, radix: nat) { DigitValue(c) < radix }

  /** The longest prefix of `s` made of digits of the given radix. */
  function LeadingDigits(s: string, radix: nat): (r: string)
    ensures |r| <= |s| && r == s[..|r|]
    ensures forall i :: 0 <= i < |r| ==> IsDigitOf(r[i], radix)
    ensures |r| < |s| ==> !IsDigitOf(s[|r|], radix)
  {
    if |s| > 0 && IsDigitOf(s[0], radix) then
      var r := [s[0]] + LeadingDigits(s[1..], radix);
      assert s[..|r|] == [s[0]] + s[1..][..|r| - 1];
      r
    else []
  }

  function DigitsValue(ds: string, radix: nat): nat {
    if ds == [] then 0
    else DigitsValue(ds[..|ds| - 1], radix) * radix + DigitValue(ds[|ds| - 1])
  }

  /** Whether a number text is negative, and the rest of it after its optional '+' or '-'. */
  function SplitSign(t: string): (bool, string) {
    if |t| > 0 && t[0] == '-' then (true, t[1..])
    else if |t| > 0 && t[0] == '+' then (false, t[1..])
    else (false, t)
  }

  predicate HasHexPrefix(u: string) {
    |u| >= 2 && u[0] == '0' && (u[1] == 'x' || u[1] == 'X')
  }

  /**
   * parseInt(s): skip leading white space, read an optional sign, switch to radix 16 after a
   * "0x"/"0X" prefix, then read the longest run of digits. None stands for NaN (no digits).
   */
  function ParseInt(s: string): (r: Option<int>)
  {
    var (negative, u) := SplitSign(TrimStart(s));
    var radix := if HasHexPrefix(u) then 16 else 10;
    var body := if HasHexPrefix(u) then u[2..] else u;
    var ds := LeadingDigits(body, radix);
    if ds == [] then None
    else if negative then Some(0 - DigitsValue(ds, radix))
    else Some(DigitsValue(ds, radix))
  }

  lemma {:induction false} DigitsValueIsDecimalValue(s: string)
    requires AllDecimalDigits(s)
    ensures DigitsValue(s, 10) == DecimalValue(s)
  {
    if s != [] {
      DigitsValueIsDecimalValue(s[..|s| - 1]);
    }
  }

  lemma {:induction false} LeadingDigitsOfDecimal(s: string)
    requires AllDecimalDigits(s)
    ensures LeadingDigits(s, 10) == s
  {
    if s != [] {
      LeadingDigitsOfDecimal(s[1..]);
    }
  }

  /** parseInt reads back the decimal text of every non-negative integer. */
  lemma ParseIntOfDecimal(n: nat)
    ensures ParseInt(NatToDecimal(n)) == Some(n)
  {
    ParseIntOfDigits(NatToDecimal(n));
    NatToDecimalValue(n);
  }

  /** An all-digit text parses to its decimal value. */
  lemma ParseIntOfDigits(s: string)
    requires s != [] && AllDecimalDigits(s)
    ensures ParseInt(s) == Some(DecimalValue(s))
  {
    assert !IsJsWhitespace(s[0]);
    assert TrimStart(s) == s;
    assert s[0] != '-' && s[0] != '+';
    assert SplitSign(s) == (false, s);
    assert |s| < 2 || IsDecimalDigit(s[1]);
    assert !HasHexPrefix(s);
    LeadingDigitsOfDecimal(s);
    DigitsValueIsDecimalValue(s);
  }

  /** The quotient of JavaScript's `%`: truncated toward zero. */
  function JsQuotient(a: int, b: int): int
    requires b > 0
  {
    if a >= 0 then a / b else 0 - (0 - a) / b
  }

  /** JavaScript's `%` on integers: the remainder of truncated division, with the dividend's sign. */
  function JsRemainder(a: int, b: int): (r: int)
    requires b > 0
    ensures a == JsQuotient(a, b) * b + r
    ensures -b < r < b
    ensures a >= 0 ==> r >= 0
    ensures a < 0 ==> r <= 0
  {
    if a >= 0 then a % b else 0 - (0 - a) % b
  }

  /** The text a template literal prints for a number that parseInt produced; None is NaN. */
  function NumberText(n: Option<int>): string {
    if n.Some? then IntToDecimal(n.value) else "NaN"
  }

  /** `parseInt(s) % m` as a number that may be NaN. */
  function ParseIntRemainder(s: string, m: nat): (r: Option<int>)
    requires m > 0
    ensures r.Some? <==> ParseInt(s).Some?
  {
    if ParseInt(s).Some? then Some(JsRemainder(ParseInt(s).value, m)) else None
  }

  /** For an all-digit text the remainder is the ordinary one, a single digit when m <= 10. */
  lemma ParseIntRemainderOfDigits(s: string, m: nat)
    requires s != [] && AllDecimalDigits(s) && 0 < m <= 10
    ensures ParseIntRemainder(s, m) == Some(DecimalValue(s) % m)
    ensures NumberText(ParseIntRemainder(s, m)) == [DigitChar(DecimalValue(s) % m)]
  {
    ParseIntOfDigits(s);
  }
}
