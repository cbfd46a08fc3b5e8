/**
 * The few pieces of C semantics the firmware relies on: the `uint8_t`
 * type and the implicit conversion into it, the `%` operator on `int`,
 * and `toupper` in the "C" locale.
 */
module CLib {

  /** `uint8_t`: the type of every EEPROM byte cell. */
  type byte = x: int | 0 <= x < 256

  /**
   * The implicit conversion that happens when an `int` is passed where a
   * `uint8_t` is expected: the value is reduced modulo 256.
   */
  function ToByte(x: int): (b: byte)
    ensures 0 <= x < 256 ==> b == x
    ensures (x - b) % 256 == 0
  {
    x % 256
  }

  /**
   * C's `%` on `int` for a positive divisor: the quotient is truncated
   * toward zero, so the remainder takes the sign of the dividend (Dafny's
   * own `%` is Euclidean and never negative).
   */
  function Rem(a: int, b: int): (r: int)
    requires b > 0
    ensures a >= 0 ==> 0 <= r < b
    ensures a < 0 ==> -b < r <= 0
  {
    if a >= 0 then a % b else -((-a) % b)
  }

  /** For the divisor 10 that the firmware uses, C's and Dafny's `%` agree on divisibility. */
  lemma RemTenDivides(a: int)
    ensures Rem(a, 10) == 0 <==> a % 10 == 0
  {
    if a < 0 {
      var n := -a;
      assert n == 10 * (n / 10) + n % 10;
      assert a == 10 * (-(n / 10)) - n % 10;
    }
  }

  predicate IsLower(c: int)
  {
    'a' as int <= c <= 'z' as int
  }

  predicate IsUpper(c: int)
  {
    'A' as int <= c <= 'Z' as int
  }

  /** `toupper` in the "C" locale: only the 26 ASCII lower-case letters change. */
  function ToUpper(c: int): (u: int)
    ensures !IsLower(u)
    ensures IsLower(c) <==> u != c
    ensures IsLower(c) ==> IsUpper(u) && c - u == 'a' as int - 'A' as int
  {
    if IsLower(c) then c - ('a' as int - 'A' as int) else c
  }
}
