/** Decimal numerals: %d printing and scanning, and the padded codes of internal/store/otp.go. */
module Numerals {
  import opened Prelude

  predicate IsDigit(c: char) {
    '0' <= c <= '9'
  }

  function DigitValue(c: char): nat
    requires IsDigit(c)
  {
    c as int - '0' as int
  }

  function Digit(d: nat): char
    requires d < 10
  {
    ('0' as int + d) as char
  }

  predicate AllDigits(s: string) {
    forall k :: 0 <= k < |s| ==> IsDigit(s[k])
  }

  function Print(n: nat): string {
    if n < 10 then [Digit(n)] else Print(n / 10) + [Digit(n % 10)]
  }

  function Value(s: string): nat
    requires AllDigits(s)
  {
    if s == [] then 0 else 10 * Value(s[..|s| - 1]) + DigitValue(s[|s| - 1])
  }

  /** A printed number consists of digits and reads back as itself. */
  lemma {:induction false} PrintValue(n: nat)
    ensures AllDigits(Print(n)) && 0 < |Print(n)| && Value(Print(n)) == n
  {
    if n < 10 {
    } else {
      PrintValue(n / 10);
      assert Print(n)[..|Print(n)| - 1] == Print(n / 10);
    }
  }

  // --- Scanning -----------------------------------------------------------------------------------

  function DigitPrefix(s: string): (n: nat)
    ensures n <= |s| && AllDigits(s[..n]) && (n == |s| || !IsDigit(s[n]))
  {
    if s == "" || !IsDigit(s[0]) then 0 else 1 + DigitPrefix(s[1..])
  }

  /** Blanks before a number are skipped; a newline is not a blank. */
  predicate IsBlank(c: char) {
    c == ' ' || c == '\t' || c == '\r' || c as int == 11 || c as int == 12
  }

  function SkipBlanks(s: string): string {
    if s != "" && IsBlank(s[0]) then SkipBlanks(s[1..]) else s
  }

  /** %d into an unsigned integer below `bound`: the longest run of digits, and what follows it. */
  function ScanUint(s: string, bound: nat): Option<(nat, string)> {
    var t := SkipBlanks(s);
    var n := DigitPrefix(t);
    if n == 0 || bound <= Value(t[..n]) then None else Some((Value(t[..n]), t[n..]))
  }

  const INT64_BOUND: int := 0x8000_0000_0000_0000

  /** %d into a signed 64-bit integer. */
  function ScanInt(s: string): Option<(int, string)> {
    var t := SkipBlanks(s);
    var signed := t != "" && (t[0] == '+' || t[0] == '-');
    var u := if signed then t[1..] else t;
    var n := DigitPrefix(u);
    if n == 0 then None
    else
      var v: int := if signed && t[0] == '-' then 0 - Value(u[..n]) else Value(u[..n]);
      if -INT64_BOUND <= v < INT64_BOUND then Some((v, u[n..])) else None
  }

  function ScanLiteral(s: string, literal: string): Option<string> {
    if literal <= s then Some(s[|literal|..]) else None
  }

  predicate StartsWithoutDigit(s: string) {
    s == "" || !IsDigit(s[0])
  }

  lemma {:induction false} DigitPrefixOf(s: string, rest: string)
    requires AllDigits(s) && StartsWithoutDigit(rest)
    ensures DigitPrefix(s + rest) == |s|
  {
    if s == "" {
      assert s + rest == rest;
    } else {
      DigitPrefixOf(s[1..], rest);
      assert (s + rest)[1..] == s[1..] + rest;
    }
  }

  /** Scanning what was printed gives the number back and stops right after it. */
  lemma ScanPrinted(n: nat, rest: string, bound: nat)
    requires n < bound && StartsWithoutDigit(rest)
    ensures ScanUint(Print(n) + rest, bound) == Some((n, rest))
    ensures n < INT64_BOUND ==> ScanInt(Print(n) + rest) == Some((n, rest))
  {
    PrintValue(n);
    DigitPrefixOf(Print(n), rest);
    var s := Print(n) + rest;
    assert SkipBlanks(s) == s;
    assert s[..|Print(n)|] == Print(n) && s[|Print(n)|..] == rest;
  }

  // --- Fixed-width codes -------------------------------------------------------------------------------

  function Pow10(n: nat): nat {
    if n == 0 then 1 else 10 * Pow10(n - 1)
  }

  lemma {:induction false} PrintLength(v: nat, n: nat)
    requires 0 < n && v < Pow10(n)
    ensures |Print(v)| <= n
    decreases n
  {
    if v < 10 {
    } else {
      assert v / 10 < Pow10(n - 1);
      PrintLength(v / 10, n - 1);
    }
  }

  lemma {:induction false} LeadingZero(s: string)
    requires AllDigits(s)
    ensures AllDigits("0" + s) && Value("0" + s) == Value(s)
    decreases |s|
  {
    if s == "" {
      assert "0" + s == "0";
      assert "0"[..0] == "";
    } else {
      LeadingZero(s[..|s| - 1]);
      assert ("0" + s)[..|s|] == "0" + s[..|s| - 1];
    }
  }

  lemma {:induction false} ValueInjective(s: string, t: string)
    requires AllDigits(s) && AllDigits(t) && |s| == |t| && Value(s) == Value(t)
    ensures s == t
    decreases |s|
  {
    if s == "" {
    } else {
      ValueInjective(s[..|s| - 1], t[..|t| - 1]);
      assert s == s[..|s| - 1] + [s[|s| - 1]] && t == t[..|t| - 1] + [t[|t| - 1]];
    }
  }

  /** NewNumericCode, given the random draw: exactly the n-digit string of that value (one digit when n is 0),
      so that different draws give different codes. */
  method PaddedCode(v: nat, n: nat) returns (s: string)
    requires v < Pow10(n)
    ensures |s| == Max(n, 1) && AllDigits(s) && Value(s) == v
    ensures forall t: string :: |t| == Max(n, 1) && AllDigits(t) && Value(t) == v ==> t == s
  {
    s := Print(v);
    PrintValue(v);
    if 0 < n {
      PrintLength(v, n);
    }
    while |s| < n
      invariant |s| <= Max(n, 1) && AllDigits(s) && Value(s) == v
      decreases n - |s|
    {
      LeadingZero(s);
      s := "0" + s;
    }
    forall t: string | |t| == Max(n, 1) && AllDigits(t) && Value(t) == v ensures t == s {
      ValueInjective(s, t);
    }
  }
}
