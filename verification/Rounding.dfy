/** Python's `round` over exact rationals: ties go to the even neighbour. */
module Rounding {

  function RoundHalfEven(x: real): int {
    var low := x.Floor;
    if x - low as real < 0.5 then low
    else if x - low as real > 0.5 then low + 1
    else if low % 2 == 0 then low else low + 1
  }

  lemma RoundNearest(x: real)
    ensures -0.5 <= RoundHalfEven(x) as real - x <= 0.5
  {
  }

  /** A number halfway between two integers is rounded to the even one. */
  lemma TieEven(x: real)
    ensures RoundHalfEven(x) as real - x == 0.5 || RoundHalfEven(x) as real - x == -0.5 ==> RoundHalfEven(x) % 2 == 0
  {
  }

  lemma RoundMonotone(x: real, y: real)
    requires x <= y
    ensures RoundHalfEven(x) <= RoundHalfEven(y)
  {
    if x.Floor == y.Floor {
    } else {
      assert x.Floor + 1 <= y.Floor;
    }
  }

  lemma RoundInt(n: int)
    ensures RoundHalfEven(n as real) == n
  {
  }

  /** Rounding never leaves an interval with integer ends. */
  lemma RoundBetween(lo: int, x: real, hi: int)
    requires lo as real <= x <= hi as real
    ensures lo <= RoundHalfEven(x) <= hi
  {
    RoundMonotone(lo as real, x);
    RoundMonotone(x, hi as real);
  }

  /** `round(x, 2)` */
  function Round2(x: real): real { RoundHalfEven(x * 100.0) as real / 100.0 }

  /** `round(x, 4)` */
  function Round4(x: real): real { RoundHalfEven(x * 10000.0) as real / 10000.0 }

  /** `max(1, n)` */
  function AtLeastOne(n: int): int { if n < 1 then 1 else n }

  function Clamp(x: real): (r: real)
    ensures 0.0 <= r <= 100.0
    ensures 0.0 <= x <= 100.0 ==> r == x
  {
    if x < 0.0 then 0.0 else if x > 100.0 then 100.0 else x
  }
}
