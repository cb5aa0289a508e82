/** Decimal numerals: the text of a natural number and its reading. */
module Decimals {
  const DIGITS := "0123456789"

  function Show(n: nat): (s: string)
    ensures s != [] && forall c :: c in s ==> c in DIGITS
  {
    if n < 10 then [DIGITS[n]] else Show(n / 10) + [DIGITS[n % 10]]
  }

  predicate IsDigit(c: char) { '0' <= c <= '9' }

  /** The value of an all-digit numeral; None for any other text. */
  function Read(s: string): (r: int)
    ensures -1 <= r
  {
    if s == [] then -1
    else if !IsDigit(s[|s| - 1]) then -1
    else
      var digit := s[|s| - 1] as int - '0' as int;
      if |s| == 1 then digit
      else
        var front := Read(s[..|s| - 1]);
        if front < 0 then -1 else 10 * front + digit
  }

  lemma {:induction false} ReadShow(n: nat)
    ensures Read(Show(n)) == n
  {
    assert forall d :: 0 <= d < 10 ==> DIGITS[d] as int - '0' as int == d && IsDigit(DIGITS[d]);
    if n >= 10 {
      ReadShow(n / 10);
      assert Show(n)[..|Show(n)| - 1] == Show(n / 10);
    }
  }
}
