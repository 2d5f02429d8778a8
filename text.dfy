/** Character and decimal helpers: ASCII lower-casing (Python `str.lower`,
    Java `toLowerCase` restricted to ASCII) and decimal rendering/parsing of
    integers (Python `int(...)` and f-string `{n}`). */
module Text {

  predicate IsUpper(c: char) { 'A' <= c <= 'Z' }

  predicate IsDigit(c: char) { '0' <= c <= '9' }

  function LowerChar(c: char): (r: char)
    ensures !IsUpper(r)
    ensures !IsUpper(c) ==> r == c
  {
    if IsUpper(c) then (c as int + 32) as char else c
  }

  /** ASCII lower-casing; no upper-case letter survives and the length is kept. */
  function Lower(s: string): (r: string)
    ensures |r| == |s|
    ensures forall i :: 0 <= i < |s| ==> r[i] == LowerChar(s[i])
    ensures forall i :: 0 <= i < |r| ==> !IsUpper(r[i])
  {
    if s == [] then [] else [LowerChar(s[0])] + Lower(s[1..])
  }

  /** A string without upper-case letters is its own lower-case form. */
  lemma LowerKeeps(s: string)
    requires forall i :: 0 <= i < |s| ==> !IsUpper(s[i])
    ensures Lower(s) == s
  {
  }

  lemma LowerIdempotent(s: string)
    ensures Lower(Lower(s)) == Lower(s)
  {
  }

  function DigitValue(c: char): (d: nat)
    requires IsDigit(c)
    ensures d < 10
  {
    c as int - '0' as int
  }

  function DigitChar(d: nat): (c: char)
    requires d < 10
    ensures IsDigit(c) && DigitValue(c) == d
  {
    ('0' as int + d) as char
  }

  predicate AllDigits(s: string) {
    forall i :: 0 <= i < |s| ==> IsDigit(s[i])
  }

  /** The decimal digits of n, without leading zeros. */
  function ShowNat(n: nat): (r: string)
    ensures |r| > 0 && AllDigits(r)
    ensures n < 10 <==> |r| == 1
  {
    if n < 10 then [DigitChar(n)] else ShowNat(n / 10) + [DigitChar(n % 10)]
  }

  /** An integer as Python's f-string or Java's `+` renders it. */
  function ShowInt(i: int): (r: string)
    ensures |r| > 0
    ensures i < 0 <==> r[0] == '-'
  {
    if i < 0 then "-" + ShowNat(-i) else ShowNat(i)
  }

  /** The value of a non-empty run of decimal digits. */
  function ParseDigits(s: string): nat
    requires |s| > 0 && AllDigits(s)
  {
    if |s| == 1 then DigitValue(s[0])
    else 10 * ParseDigits(s[..|s| - 1]) + DigitValue(s[|s| - 1])
  }

  lemma {:induction false} ParseShowNat(n: nat)
    ensures ParseDigits(ShowNat(n)) == n
  {
    if n >= 10 {
      var s := ShowNat(n);
      assert s[..|s| - 1] == ShowNat(n / 10);
      ParseShowNat(n / 10);
    }
  }

  /** Different integers render differently. */
  lemma ShowIntInjective(i: int, j: int)
    requires ShowInt(i) == ShowInt(j)
    ensures i == j
  {
    if i < 0 {
      assert j < 0;
      assert ShowNat(-i) == ShowInt(i)[1..];
      assert ShowNat(-j) == ShowInt(j)[1..];
      ShowNatInjective(-i, -j);
    } else {
      assert j >= 0;
      ShowNatInjective(i, j);
    }
  }

  lemma ShowNatInjective(n: nat, m: nat)
    requires ShowNat(n) == ShowNat(m)
    ensures n == m
  {
    ParseShowNat(n);
    ParseShowNat(m);
  }

  /** A rendered integer is a sign and digits, nothing else. */
  lemma ShowIntChars(i: int, c: char)
    requires c != '-' && !IsDigit(c)
    ensures c !in ShowInt(i)
  {
    var digits := ShowNat(if i < 0 then -i else i);
    assert ShowInt(i) == (if i < 0 then "-" else "") + digits;
    assert forall k :: 0 <= k < |ShowInt(i)| ==> ShowInt(i)[k] == '-' || IsDigit(ShowInt(i)[k]);
  }
}
