/**
 * The two string conversions the helpers rely on: `String.prototype.toUpperCase`
 * (restricted to ASCII letters) and the decimal rendering of a non-negative
 * integer used by template literals such as `${type}-${index}`.
 */
module Text {

  predicate IsLower(c: char) {
    'a' <= c <= 'z'
  }

  /** Upper-case mapping of one character: a-z become A-Z, everything else is kept. */
  function UpperChar(c: char): (u: char)
    ensures !IsLower(u)
    ensures IsLower(c) ==> u as int == c as int - 32
    ensures !IsLower(c) ==> u == c
  {
    if IsLower(c) then (c as int - 32) as char else c
  }

  /** `s.toUpperCase()`: each character mapped by UpperChar. */
  function ToUpper(s: string): (u: string)
    ensures |u| == |s|
  {
    if s == [] then [] else [UpperChar(s[0])] + ToUpper(s[1..])
  }

  /** The character at position `i` of the upper-cased string is the upper-cased character. */
  lemma {:induction false} ToUpperAt(s: string, i: nat)
    requires i < |s|
    ensures ToUpper(s)[i] == UpperChar(s[i])
  {
    if i > 0 {
      ToUpperAt(s[1..], i - 1);
    }
  }

  /** A string with no lower-case letter is its own upper-case form. */
  lemma {:induction false} ToUpperFixesUpper(s: string)
    requires forall i :: 0 <= i < |s| ==> !IsLower(s[i])
    ensures ToUpper(s) == s
  {
    if s != [] {
      ToUpperFixesUpper(s[1..]);
    }
  }

  /** ToUpper is determined character by character. */
  lemma {:induction false} ToUpperCharwise(s: string, u: string)
    requires |u| == |s|
    requires forall i :: 0 <= i < |s| ==> u[i] == UpperChar(s[i])
    ensures ToUpper(s) == u
  {
    if s != [] {
      ToUpperCharwise(s[1..], u[1..]);
    }
  }

  /** Upper-casing twice is the same as upper-casing once. */
  lemma {:induction false} ToUpperIdempotent(s: string)
    ensures ToUpper(ToUpper(s)) == ToUpper(s)
  {
    forall i | 0 <= i < |s|
      ensures !IsLower(ToUpper(s)[i])
    {
      ToUpperAt(s, i);
    }
    ToUpperFixesUpper(ToUpper(s));
  }

  function DigitChar(d: nat): (c: char)
    requires d < 10
    ensures '0' <= c <= '9'
  {
    ('0' as int + d) as char
  }

  /** The number a string of decimal digits denotes (most significant digit first). */
  function DigitsValue(s: string): nat
    requires forall i :: 0 <= i < |s| ==> '0' <= s[i] <= '9'
  {
    if s == [] then 0
    else 10 * DigitsValue(s[..|s| - 1]) + (s[|s| - 1] as int - '0' as int)
  }

  /** The decimal rendering of `n` without leading zeros, as `${n}` produces for a non-negative integer. */
  function DecimalString(n: nat): (s: string)
    ensures |s| >= 1
    ensures forall i :: 0 <= i < |s| ==> '0' <= s[i] <= '9'
    ensures DigitsValue(s) == n
    ensures s[0] == '0' ==> n == 0 && |s| == 1
  {
    if n < 10 then [DigitChar(n)]
    else
      var prefix := DecimalString(n / 10);
      var s := prefix + [DigitChar(n % 10)];
      assert s[..|s| - 1] == prefix;
      s
  }
}
