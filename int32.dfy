/** Unchecked 32-bit signed arithmetic of C#. */
module Int32 {

  const TwoTo32: int := 0x1_0000_0000
  const TwoTo31: int := 0x8000_0000

  /** The value a 32-bit signed `int` holds after an unchecked computation yielding `x`. */
  function Wrap32(x: int): (r: int)
    ensures -TwoTo31 <= r < TwoTo31
    ensures -TwoTo31 <= x < TwoTo31 ==> r == x
  {
    (x + TwoTo31) % TwoTo32 - TwoTo31
  }

  /** C#'s `%` on `int`: the remainder takes the sign of the dividend. */
  function TruncRem(a: int, b: int): (r: int)
    requires b > 0
    ensures -b < r < b
    ensures a >= 0 ==> r == a % b
    ensures a < 0 ==> r == -((-a) % b)
  {
    if a >= 0 then a % b else -((-a) % b)
  }

  lemma ModOfMultiple(y: int, q: int)
    ensures (y + TwoTo32 * q) % TwoTo32 == y % TwoTo32
  {
    var r := y % TwoTo32;
    var d := y / TwoTo32;
    assert y == TwoTo32 * d + r;
    assert y + TwoTo32 * q == TwoTo32 * (d + q) + r;
  }

  /** Wrapping each summand changes nothing once the sum is wrapped. */
  lemma WrapAdd(a: int, b: int)
    ensures Wrap32(Wrap32(a) + Wrap32(b)) == Wrap32(a + b)
  {
    var qa := (a + TwoTo31) / TwoTo32;
    var qb := (b + TwoTo31) / TwoTo32;
    assert Wrap32(a) == a - TwoTo32 * qa;
    assert Wrap32(b) == b - TwoTo32 * qb;
    ModOfMultiple(a + b + TwoTo31, -(qa + qb));
    assert Wrap32(a) + Wrap32(b) + TwoTo31 == (a + b + TwoTo31) + TwoTo32 * -(qa + qb);
  }

  /** An unchecked `c += x` where `c` already holds the wrapped value of `a`. */
  lemma WrapAccumulate(a: int, x: int, c: int, sum: int)
    requires c == Wrap32(a) && sum == x + a
    ensures Wrap32(c + Wrap32(x)) == Wrap32(sum)
  {
    WrapAdd(a, x);
  }
}
