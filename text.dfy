/**
 * String helpers the chatbot's validators rely on: ASCII decimal digits
 * (Python's `str.isdigit` and `int`, restricted to ASCII), the decimal
 * rendering of a natural number (`str(n)`, used for the option numbers) and
 * ASCII lower-casing (`str.lower`).
 */
module Text {

  predicate IsDigit(c: char) {
    '0' <= c <= '9'
  }

  /** Every character is an ASCII digit (the empty string included). */
  predicate AllDigits(s: string) {
    forall i :: 0 <= i < |s| ==> IsDigit(s[i])
  }

  /** Python's `str.isdigit` on ASCII text: non-empty and digits only. */
  predicate IsDigitString(s: string) {
    |s| > 0 && AllDigits(s)
  }

  function DigitValue(c: char): (d: nat)
    requires IsDigit(c)
    ensures d < 10
  {
    c as int - '0' as int
  }

  function DigitChar(d: nat): (c: char)
    requires d < 10
    ensures IsDigit(c) && DigitValue(c) == d
  {
    ('0' as int + d) as char
  }

  /** The number a digit string denotes, as Python's `int` reads it (leading zeros allowed). */
  function DigitsValue(s: string): (r: nat)
    requires AllDigits(s)
    ensures r == 0 <==> forall i :: 0 <= i < |s| ==> s[i] == '0'
  {
    if s == [] then 0 else 10 * DigitsValue(s[..|s| - 1]) + DigitValue(s[|s| - 1])
  }

  /** The canonical decimal rendering of `n`, as Python's `str(n)`. */
  function NatToString(n: nat): (s: string)
    ensures IsDigitString(s)
    ensures s[0] == '0' <==> n == 0
  {
    if n < 10 then [DigitChar(n)] else NatToString(n / 10) + [DigitChar(n % 10)]
  }

  /** A run of `z` zero digits. */
  function Zeros(z: nat): (s: string)
    ensures |s| == z && AllDigits(s)
  {
    seq(z, _ => '0')
  }

  /** How many leading zeros can be dropped from a digit string, always keeping its last digit. */
  function LeadingZeroCount(s: string): (z: nat)
    requires IsDigitString(s)
    ensures z < |s| && s[..z] == Zeros(z)
    ensures s[z] != '0' || z == |s| - 1
  {
    if |s| > 1 && s[0] == '0' then 1 + LeadingZeroCount(s[1..]) else 0
  }

  lemma {:induction false} ValueOfNatToString(n: nat)
    ensures DigitsValue(NatToString(n)) == n
  {
    var s := NatToString(n);
    if n >= 10 {
      assert s[..|s| - 1] == NatToString(n / 10);
      ValueOfNatToString(n / 10);
    }
  }

  /** A digit string without superfluous leading zeros is the rendering of its own value. */
  lemma {:induction false} NatToStringOfValue(s: string)
    requires IsDigitString(s) && (s[0] != '0' || s == "0")
    ensures NatToString(DigitsValue(s)) == s
  {
    if |s| == 1 {
      assert s == [DigitChar(DigitValue(s[0]))];
    } else {
      var p := s[..|s| - 1];
      var d := DigitValue(s[|s| - 1]);
      assert p[0] == s[0];
      assert DigitsValue(p) >= 1;
      NatToStringOfValue(p);
      var v := DigitsValue(s);
      assert v == 10 * DigitsValue(p) + d;
      assert v / 10 == DigitsValue(p) && v % 10 == d;
      assert [DigitChar(d)] == [s[|s| - 1]];
      assert s == p + [s[|s| - 1]];
    }
  }

  /** Leading zeros do not change the value Python's `int` reads. */
  lemma {:induction false} LeadingZerosValue(z: nat, s: string)
    requires AllDigits(s)
    ensures AllDigits(Zeros(z) + s)
    ensures DigitsValue(Zeros(z) + s) == DigitsValue(s)
  {
    var t := Zeros(z) + s;
    assert AllDigits(t) by {
      forall i | 0 <= i < |t| ensures IsDigit(t[i]) {
        if i >= z { assert t[i] == s[i - z]; }
      }
    }
    if s == [] {
      assert t == Zeros(z);
      assert DigitsValue(Zeros(z)) == 0;
    } else {
      var p := s[..|s| - 1];
      assert t[..|t| - 1] == Zeros(z) + p;
      assert t[|t| - 1] == s[|s| - 1];
      LeadingZerosValue(z, p);
    }
  }

  function LowerChar(c: char): char {
    if 'A' <= c <= 'Z' then (c as int - 'A' as int + 'a' as int) as char else c
  }

  /** Python's `str.lower` on ASCII letters; every other character is kept. */
  function Lower(s: string): (r: string)
    ensures |r| == |s|
    ensures forall i :: 0 <= i < |s| ==> r[i] == LowerChar(s[i])
    ensures forall i :: 0 <= i < |r| ==> !('A' <= r[i] <= 'Z')
  {
    seq(|s|, i requires 0 <= i < |s| => LowerChar(s[i]))
  }

  /** The characters that lower-case to the lower-case letter `l` are `l` and its capital. */
  lemma LowerCharInverse(c: char, l: char)
    requires 'a' <= l <= 'z'
    ensures LowerChar(c) == l <==> c == l || c == (l as int - 'a' as int + 'A' as int) as char
  {
  }
}
