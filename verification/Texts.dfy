/** JavaScript strings: literals, trimming, and decimal digits. */
module Texts {
  import opened Wrappers

  /** The code units of a literal without surrogate pairs. */
  function Units(s: string): Text
    requires forall i :: 0 <= i < |s| ==> (s[i] as int) < 0x1_0000
  {
    seq(|s|, (i: nat) requires i < |s| => s[i] as int as CodeUnit)
  }

  // ---- trimming ----

  /** White space and line terminators of ECMA-262. */
  predicate IsSpace(c: CodeUnit) {
    || 9 <= c <= 13 || c == 32 || c == 0xA0 || c == 0x1680 || 0x2000 <= c <= 0x200A
    || c == 0x2028 || c == 0x2029 || c == 0x202F || c == 0x205F || c == 0x3000 || c == 0xFEFF
  }

  function TrimStart(s: Text): Text {
    if s != [] && IsSpace(s[0]) then TrimStart(s[1..]) else s
  }

  function TrimEnd(s: Text): Text {
    if s != [] && IsSpace(s[|s| - 1]) then TrimEnd(s[..|s| - 1]) else s
  }

  function Trim(s: Text): Text {
    TrimEnd(TrimStart(s))
  }

  predicate Trimmed(s: Text) {
    s == [] || (!IsSpace(s[0]) && !IsSpace(s[|s| - 1]))
  }

  lemma {:induction false} TrimStartTrims(s: Text)
    ensures TrimStart(s) == [] || !IsSpace(TrimStart(s)[0])
  {
    if s != [] && IsSpace(s[0]) { TrimStartTrims(s[1..]); }
  }

  lemma {:induction false} TrimEndTrims(s: Text)
    requires s == [] || !IsSpace(s[0])
    ensures Trimmed(TrimEnd(s))
  {
    if s != [] && IsSpace(s[|s| - 1]) { TrimEndTrims(s[..|s| - 1]); }
  }

  lemma TrimTrims(s: Text)
    ensures Trimmed(Trim(s)) && Trim(Trim(s)) == Trim(s)
  {
    TrimStartTrims(s);
    TrimEndTrims(TrimStart(s));
  }

  // ---- digits ----

  const ZERO: CodeUnit := 48

  predicate IsDigit(c: CodeUnit) { ZERO <= c <= 57 }

  function Digit(c: CodeUnit): nat
    requires IsDigit(c)
  {
    c as int - ZERO as int
  }

  /** Number() of a string of decimal digits. */
  function Decimal(s: Text): nat
    requires forall i :: 0 <= i < |s| ==> IsDigit(s[i])
  {
    if s == [] then 0 else 10 * Decimal(s[..|s| - 1]) + Digit(s[|s| - 1])
  }

  lemma DecimalStep(s: Text, n: nat)
    requires n < |s| && forall i :: 0 <= i <= n ==> IsDigit(s[i])
    ensures Decimal(s[..n + 1]) == 10 * Decimal(s[..n]) + Digit(s[n])
  {
    assert s[..n + 1][..n] == s[..n];
  }

  lemma TwoDigits(s: Text)
    requires |s| == 2 && IsDigit(s[0]) && IsDigit(s[1])
    ensures Decimal(s) == 10 * Digit(s[0]) + Digit(s[1])
  {
    DecimalStep(s, 0);
    DecimalStep(s, 1);
    assert s[..2] == s;
  }
}
