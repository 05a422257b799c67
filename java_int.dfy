/** Java's 32-bit `int`: wrap-around arithmetic and division that truncates toward zero. */
module JavaInt {

  const INT_MIN: int := -0x8000_0000
  const INT_MAX: int := 0x7FFF_FFFF
  const MODULUS: int := 0x1_0000_0000

  predicate IsInt(x: int) {
    INT_MIN <= x <= INT_MAX
  }

  /** The 32-bit two's-complement value congruent to x, as Java's `+`, `-` and `*` produce it. */
  function Wrap(x: int): (r: int)
    ensures IsInt(r)
    ensures (x - r) % MODULUS == 0
    ensures IsInt(x) ==> r == x
  {
    var m := x % MODULUS;
    if m > INT_MAX then m - MODULUS else m
  }

  /** Mathematical quotient truncated toward zero (Java's `/` before wrapping). */
  function Quot(a: int, b: int): (q: int)
    requires b != 0
    ensures a >= 0 && b > 0 ==> q == a / b
  {
    var x := if a < 0 then -a else a;
    var y := if b < 0 then -b else b;
    if (a < 0) != (b < 0) then -(x / y) else x / y
  }

  /** Java's `a / b` on ints: truncated quotient, wrapped (only INT_MIN / -1 wraps). */
  function Div(a: int, b: int): (r: int)
    requires b != 0
    ensures IsInt(r)
    ensures IsInt(a) && a >= 0 && b > 0 ==> r == a / b
  {
    QuotientBounded(a, b);
    Wrap(Quot(a, b))
  }

  /** A non-negative dividend over a positive divisor gives a quotient between 0 and the dividend. */
  lemma QuotientBounded(a: int, b: int)
    ensures a >= 0 && b > 0 ==> 0 <= a / b <= a
  {
    if a >= 0 && b > 0 {
      var q := a / b;
      assert b * q + a % b == a && 0 <= a % b < b;
      if q < 0 {
        MultiplyAtLeast(b, -q);
      } else {
        MultiplyAtLeast(q, b);
      }
    }
  }

  /** A product with a positive factor is at least the other, non-negative, factor. */
  lemma {:induction false} MultiplyAtLeast(x: int, y: int)
    requires x >= 0 && y >= 1
    ensures x * y >= x
    decreases y
  {
    if y > 1 {
      MultiplyAtLeast(x, y - 1);
      assert x * y == x * (y - 1) + x;
    }
  }

  /** Java's `a % b` on ints: the remainder keeps the sign of the dividend. */
  function Rem(a: int, b: int): (r: int)
    requires b != 0
    ensures a == Quot(a, b) * b + r
    ensures a >= 0 && b > 0 ==> r == a % b
  {
    a - Quot(a, b) * b
  }

  /**
   * The divisors the simulator uses for addressing (block size 16, words and instructions
   * per block 4, cache sizes 8 and 4): the remainder lies strictly between -d and d, is
   * Dafny's remainder on a non-negative dividend and is never positive on a negative one.
   */
  lemma SmallDivisor(a: int, d: int)
    requires d == 4 || d == 8 || d == 16
    ensures -d < Rem(a, d) < d
    ensures a >= 0 ==> Rem(a, d) == a % d && Quot(a, d) == a / d
    ensures a < 0 ==> Rem(a, d) <= 0 && Quot(a, d) <= 0
  {
  }

  /** A multiple of a small divisor leaves no remainder, whatever its sign. */
  lemma RemOfMultiple(a: int, d: int)
    requires (d == 4 || d == 8) && a % 8 == 0
    ensures Rem(a, d) == 0 && a % d == 0
  {
    var k := a / 8;
    assert a == 8 * k;
    if d == 4 {
      assert (if a < 0 then -a else a) / 4 == (if a < 0 then -2 * k else 2 * k);
      assert Quot(a, 4) == 2 * k;
    } else {
      assert (if a < 0 then -a else a) / 8 == (if a < 0 then -k else k);
      assert Quot(a, 8) == k;
    }
  }

  /** The one overflow of integer division. */
  lemma MinOverMinusOne()
    ensures Div(INT_MIN, -1) == INT_MIN
  {
  }
}
