/** The JavaScript number operations the source applies to integers and quotients,
    over exact integers and rationals. */
module JsMath {
  import opened Wrappers

  /** `Math.round(x)`: halves round up. */
  function Round(x: real): (r: int)
    ensures r as real - 0.5 <= x < r as real + 0.5
  {
    (x + 0.5).Floor
  }

  /** `a % b` for a positive `b`: the remainder keeps the sign of `a`. */
  function Rem(a: int, b: int): (r: int)
    requires b > 0
    ensures a >= 0 ==> 0 <= r < b
    ensures a < 0 ==> -b < r <= 0
    ensures (a - r) % b == 0
  {
    RemIsMultiple(a, b);
    if a >= 0 then a % b else -((-a) % b)
  }

  /** What is taken away from `a` by either sign of remainder is a whole multiple of `b`. */
  lemma RemIsMultiple(a: int, b: int)
    requires b > 0
    ensures a >= 0 ==> (a - a % b) % b == 0
    ensures a < 0 ==> (a + (-a) % b) % b == 0
  {
    if a >= 0 {
      NonNegativeRem(a, b);
    } else {
      NonNegativeRem(-a, b);
      assert a + (-a) % b == -((-a) - (-a) % b);
      NegatedMultiple((-a) - (-a) % b, b);
    }
  }

  lemma NonNegativeRem(n: int, b: int)
    requires b > 0
    ensures (n - n % b) % b == 0
  {
    assert n - n % b == (n / b) * b;
    ModOfMultiple(n / b, b);
  }

  lemma NegatedMultiple(m: int, b: int)
    requires b > 0 && m % b == 0
    ensures (-m) % b == 0
  {
    assert m == (m / b) * b;
    assert -m == (-(m / b)) * b;
    ModOfMultiple(-(m / b), b);
  }

  lemma ModOfMultiple(k: int, b: int)
    requires b > 0
    ensures (k * b) % b == 0
  {
    var m := k * b;
    var d := k - m / b;
    assert m % b == d * b;
    assert 0 <= d * b < b;
    NoMultipleBelow(d, b);
  }

  lemma NoMultipleBelow(d: int, b: int)
    requires b > 0 && 0 <= d * b < b
    ensures d == 0
  {
    if d > 0 {
      MulGrows(d, b);
      assert false;
    } else if d < 0 {
      MulGrows(-d, b);
      assert false;
    }
  }

  lemma MulGrows(d: int, b: int)
    requires d >= 1 && b > 0
    ensures d * b >= b
  {
    assert d * b == (d - 1) * b + b;
    assert (d - 1) * b >= 0;
  }

  /** `Math.floor(a / b)` for a positive `b`. */
  function FloorDiv(a: int, b: int): (r: int)
    requires b > 0
    ensures r * b <= a < (r + 1) * b
  {
    a / b
  }

  /** `x || d` on a nullable number: `null` and `0` both give `d`. */
  function OrDefault(x: Option<int>, d: int): int {
    if x.Some? && x.value != 0 then x.value else d
  }

  /** `x ?? d` on a nullable number: only `null` gives `d`. */
  function NullishOr(x: Option<int>, d: int): int {
    if x.Some? then x.value else d
  }
}
