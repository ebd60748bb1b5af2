/** Decimal notation as written by the source's %d verb and read back by strconv.Atoi. */
module Decimal {
  import opened Basics

  function DigitChar(d: nat): (c: char)
    requires d < 10
    ensures IsDigit(c)
  {
    '0' + d as char
  }

  function DigitValue(c: char): (d: nat)
    requires IsDigit(c)
    ensures d < 10
  {
    (c - '0') as nat
  }

  function PrintNat(n: nat): (s: string)
    ensures s != ""
  {
    if n < 10 then [DigitChar(n)] else PrintNat(n / 10) + [DigitChar(n % 10)]
  }

  function Print(n: int): string {
    if n < 0 then "-" + PrintNat(-n) else PrintNat(n)
  }

  predicate AllDigits(s: string) {
    forall i | 0 <= i < |s| :: IsDigit(s[i])
  }

  function NatValue(s: string): nat
    requires AllDigits(s)
  {
    if s == "" then 0 else 10 * NatValue(s[..|s| - 1]) + DigitValue(s[|s| - 1])
  }

  /** strconv.Atoi with its error result dropped: text that is no decimal number reads as 0. */
  function Atoi(s: string): int {
    var body := if s != "" && (s[0] == '-' || s[0] == '+') then s[1..] else s;
    if body == "" || !AllDigits(body) then 0
    else
      var value: int := NatValue(body);
      if s[0] == '-' then -value else value
  }

  lemma {:induction false} NatRoundTrip(n: nat)
    ensures AllDigits(PrintNat(n)) && NatValue(PrintNat(n)) == n
  {
    if n >= 10 {
      NatRoundTrip(n / 10);
      var s := PrintNat(n);
      assert s[..|s| - 1] == PrintNat(n / 10);
    }
  }

  /** Reading back a printed number gives the number, negative ones included. */
  lemma RoundTrip(n: int)
    ensures Atoi(Print(n)) == n
    ensures forall i | 0 <= i < |Print(n)| :: IsDigit(Print(n)[i]) || Print(n)[i] == '-'
  {
    if n < 0 {
      NatRoundTrip(-n);
      hide PrintNat, NatValue, AllDigits;
      assert Print(n)[1..] == PrintNat(-n);
      DigitsOnly(PrintNat(-n));
    } else {
      NatRoundTrip(n);
      hide PrintNat, NatValue, AllDigits;
      DigitsOnly(PrintNat(n));
    }
  }

  lemma {:induction false} DigitsOnly(s: string)
    requires AllDigits(s)
    ensures forall i | 0 <= i < |s| :: IsDigit(s[i])
  {
  }

  lemma PrintInjective(m: int, n: int)
    requires Print(m) == Print(n)
    ensures m == n
  {
    RoundTrip(m);
    RoundTrip(n);
  }
}
