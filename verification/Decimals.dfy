/** Decimal tokens of machine integers, as the program's runtime parses and prints them. */
module Decimals {
  import opened Prelude

  const MIN_I64 := -0x8000_0000_0000_0000
  const MAX_I64 := 0x7fff_ffff_ffff_ffff

  function DigitChar(d: nat): char
    requires d < 10
  {
    (d + 48) as char
  }

  predicate IsDigit(c: char) {
    '0' <= c <= '9'
  }

  function ShowNat(n: nat): (token: string)
    ensures token != "" && forall c :: c in token ==> IsDigit(c)
  {
    if n < 10 then [DigitChar(n)] else ShowNat(n / 10) + [DigitChar(n % 10)]
  }

  function Show(n: int): string {
    if n < 0 then "-" + ShowNat(-n) else ShowNat(n)
  }

  function DigitOf(c: char): nat
    requires IsDigit(c)
  {
    c as int - 48
  }

  function ReadDigits(token: string): nat
    requires forall c :: c in token ==> IsDigit(c)
  {
    if token == "" then 0
    else 10 * ReadDigits(token[..|token| - 1]) + DigitOf(token[|token| - 1])
  }

  function ParseNat(token: string): Option<nat> {
    if token == "" || exists c :: c in token && !IsDigit(c) then None else Some(ReadDigits(token))
  }

  /** An optional sign, then digits, within the range of the type. */
  function Parse(token: string, low: int, high: int): Option<int> {
    if token != "" && token[0] == '-' then
      var n :- ParseNat(token[1..]);
      if low <= -(n as int) then Some(-(n as int)) else None
    else
      var n :- ParseNat(if token != "" && token[0] == '+' then token[1..] else token);
      if n <= high then Some(n) else None
  }

  lemma {:induction false} ReadShown(n: nat)
    ensures ReadDigits(ShowNat(n)) == n
  {
    if n >= 10 {
      ReadShown(n / 10);
      assert ShowNat(n)[..|ShowNat(n)| - 1] == ShowNat(n / 10);
    } else {
      assert ShowNat(n)[..0] == "";
    }
  }

  /** What is printed parses back to the same number. */
  lemma ParseShown(n: int, low: int, high: int)
    requires low <= n <= high
    ensures Parse(Show(n), low, high) == Some(n)
  {
    var size := if n < 0 then -n else n;
    ReadShown(size);
    var token := ShowNat(size);
    hide ShowNat;
    hide ReadDigits;
    assert token[0] in token;
    if n < 0 {
      assert Show(n)[1..] == token;
    }
  }
}
