/** Decimal printing (%d) and reading (strconv.Atoi, strconv.ParseInt in base 10) of 64-bit integers. */
module Decimal {
  import opened Wrappers

  const MIN_INT64 := -0x8000_0000_0000_0000
  const MAX_INT64 := 0x7FFF_FFFF_FFFF_FFFF

  predicate IsDigit(c: char) {
    '0' <= c <= '9'
  }

  function DigitOf(d: int): char
    requires 0 <= d < 10
  {
    "0123456789"[d]
  }

  function ValueOf(c: char): int
    requires IsDigit(c)
  {
    c as int - '0' as int
  }

  lemma DigitRoundTrip(d: int)
    requires 0 <= d < 10
    ensures IsDigit(DigitOf(d)) && ValueOf(DigitOf(d)) == d
  {
  }

  function PrintNat(n: nat): string {
    if n < 10 then [DigitOf(n)] else PrintNat(n / 10) + [DigitOf(n % 10)]
  }

  function Print(n: int): string {
    if n < 0 then "-" + PrintNat(-n) else PrintNat(n)
  }

  /** Printing appends the digits, most significant first, in base ten. */
  lemma PrintSteps(n: nat, d: nat)
    requires d < 10
    ensures PrintNat(d) == ["0123456789"[d]]
    ensures 0 < n ==> PrintNat(10 * n + d) == PrintNat(n) + ["0123456789"[d]]
  {
    var m := 10 * n + d;
    assert m / 10 == n && m % 10 == d;
    assert 0 < n ==> PrintNat(m) == PrintNat(m / 10) + [DigitOf(m % 10)];
  }

  predicate AllDigits(s: string) {
    forall i :: 0 <= i < |s| ==> IsDigit(s[i])
  }

  function ReadNat(s: string): nat
    requires AllDigits(s)
  {
    if s == "" then 0 else 10 * ReadNat(s[..|s| - 1]) + ValueOf(s[|s| - 1])
  }

  /** An optional sign, at least one digit, nothing else, and in range. */
  function Read(s: string): Option<int> {
    var signed := s != "" && (s[0] == '+' || s[0] == '-');
    var digits := if signed then s[1..] else s;
    if digits == "" || !AllDigits(digits) then None
    else
      var m: int := ReadNat(digits);
      var n := if signed && s[0] == '-' then -m else m;
      if MIN_INT64 <= n <= MAX_INT64 then Some(n) else None
  }

  lemma {:induction false} PrintNatReads(n: nat)
    ensures PrintNat(n) != "" && AllDigits(PrintNat(n)) && ReadNat(PrintNat(n)) == n
  {
    if n < 10 {
      DigitRoundTrip(n);
    } else {
      PrintNatReads(n / 10);
      DigitRoundTrip(n % 10);
      var s := PrintNat(n);
      assert s[..|s| - 1] == PrintNat(n / 10);
    }
  }

  lemma ReadDigits(s: string, m: int)
    requires s != "" && AllDigits(s) && ReadNat(s) == m
    ensures m <= MAX_INT64 ==> Read(s) == Some(m)
    ensures MIN_INT64 <= -m ==> Read("-" + s) == Some(-m)
  {
    assert IsDigit(s[0]);
    assert ("-" + s)[1..] == s;
  }

  /** Reading a printed 64-bit integer gives it back. */
  lemma PrintReads(n: int)
    requires MIN_INT64 <= n <= MAX_INT64
    ensures Read(Print(n)) == Some(n)
  {
    var m: nat := if n < 0 then -n else n;
    PrintNatReads(m);
    ReadDigits(PrintNat(m), m);
  }

  /** A printed integer is digits after an optional minus. */
  lemma PrintedChars(n: int)
    ensures Print(n) != "" && forall i :: 0 <= i < |Print(n)| ==> IsDigit(Print(n)[i]) || Print(n)[i] == '-'
  {
    PrintNatReads(if n < 0 then -n else n);
  }
}
