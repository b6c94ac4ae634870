/** The pieces of C++ arithmetic the widget relies on, written out explicitly:
    integer division truncates toward zero, and assigning a double to an int
    truncates toward zero too. Dafny's own `/` on int is Euclidean. */
module CArith {

  /** C++ `n / 2` on int: the quotient truncated toward zero. */
  function CDiv2(n: int): (r: int)
    ensures n >= 0 ==> 0 <= 2 * r <= n < 2 * r + 2
    ensures n < 0 ==> 2 * r - 2 < n <= 2 * r <= 0
  {
    if n >= 0 then n / 2 else -((-n) / 2)
  }

  /** Truncating division is odd: `(-n) / 2 == -(n / 2)` in C++. */
  lemma CDiv2Odd(n: int)
    ensures CDiv2(-n) == -CDiv2(n)
  {
  }

  /** Conversion of a double to an int in C++: the fractional part is dropped. */
  function TruncateToInt(x: real): (r: int)
    ensures x >= 0.0 ==> 0 <= r && r as real <= x < r as real + 1.0
    ensures x < 0.0 ==> r <= 0 && r as real - 1.0 < x <= r as real
  {
    if x >= 0.0 then x.Floor else -((-x).Floor)
  }

  /** `abs` of an integer. */
  function Abs(n: int): (r: nat)
    ensures r == n || r == -n
  {
    if n < 0 then -n else n
  }

  /** Qt's `qMin` on int. */
  function Min(a: int, b: int): (r: int)
    ensures r <= a && r <= b
    ensures r == a || r == b
  {
    if a < b then a else b
  }
}
