/**
  The numeric conversions the core relies on: `Number(s)` applied to a
  Bristol-scale string, and `n.toString()` applied to the Bristol score an AI
  analysis returns, and `Math.round`. Only plain decimal digit strings are modelled as numbers;
  `None` stands for `NaN`.
*/
module Numbers {
  import opened Wrappers

  predicate IsDigit(c: char)
  {
    '0' <= c <= '9'
  }

  predicate AllDigits(s: string)
  {
    forall i :: 0 <= i < |s| ==> IsDigit(s[i])
  }

  function DigitValue(c: char): nat
    requires IsDigit(c)
  {
    (c - '0') as nat
  }

  function DigitChar(d: nat): (c: char)
    requires d < 10
    ensures IsDigit(c) && DigitValue(c) == d
  {
    ('0' as int + d) as char
  }

  /** The value of a string of decimal digits, read from the left. */
  function DecimalValue(s: string): nat
    requires AllDigits(s)
  {
    if |s| == 0 then 0 else DecimalValue(s[..|s| - 1]) * 10 + DigitValue(s[|s| - 1])
  }

  /**
    `Number(s)` on the strings the model reads: the empty string is 0 and a
    digit string is its decimal value. Every other string is NaN here,
    although JavaScript also reads signs, decimal points, exponents and
    surrounding white space.
  */
  function NumberOf(s: string): (r: Option<real>)
    ensures r.Some? <==> AllDigits(s)
    ensures AllDigits(s) ==> r == Some(DecimalValue(s) as real)
    ensures s == "" ==> r == Some(0.0)
  {
    if AllDigits(s) then Some(DecimalValue(s) as real) else None
  }

  /** `n.toString()` for a natural number: its shortest decimal spelling. */
  function NatToString(n: nat): (s: string)
    ensures |s| > 0 && AllDigits(s)
    ensures n > 0 ==> s[0] != '0'
  {
    if n < 10 then [DigitChar(n)] else NatToString(n / 10) + [DigitChar(n % 10)]
  }

  /** Reading back what `toString` wrote gives the number again. */
  lemma {:induction false} NatToStringRoundTrip(n: nat)
    ensures DecimalValue(NatToString(n)) == n
    ensures NumberOf(NatToString(n)) == Some(n as real)
  {
    var s := NatToString(n);
    if n >= 10 {
      NatToStringRoundTrip(n / 10);
      assert s[..|s| - 1] == NatToString(n / 10);
    }
  }

  /** `Math.round(x)`: the nearest integer, halves rounded up. */
  function Round(x: real): (r: int)
    ensures x - 0.5 < r as real <= x + 0.5
  {
    (x + 0.5).Floor
  }

  /** An amount divided over `n > 0` parts gives it back when multiplied by `n`. */
  lemma SpreadEvenly(total: real, n: nat)
    requires n > 0
    ensures (total / n as real) * n as real == total
  {
  }
}
