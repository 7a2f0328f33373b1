/** C++ integer division and the facts about it that the averaging steps need. */
module Arithmetic {
  /** `a / b` for a positive divisor: C++ truncates toward zero. */
  function TruncDiv(a: int, b: int): (q: int)
    requires b > 0
  {
    if a >= 0 then a / b else -(-a / b)
  }

  function Abs(x: int): (magnitude: int) {
    if x < 0 then -x else x
  }

  function Min(x: int, y: int): (lesser: int) {
    if x <= y then x else y
  }

  function Max(x: int, y: int): (greater: int) {
    if x <= y then y else x
  }

  /** What truncation throws away is smaller than the divisor and has the dividend's sign. */
  lemma TruncDivRemainder(a: int, b: int)
    requires b > 0
    ensures Abs(a - TruncDiv(a, b) * b) < b
    ensures a >= 0 ==> 0 <= a - TruncDiv(a, b) * b
    ensures a <= 0 ==> a - TruncDiv(a, b) * b <= 0
  {
  }

  /** A quotient with a remainder inside the divisor is the truncated quotient. */
  lemma TruncDivUnique(a: int, b: int, q: int)
    requires b > 0 && 0 <= a
    requires 0 <= a - q * b < b
    ensures TruncDiv(a, b) == q
  {
    TruncDivRemainder(a, b);
    var d := TruncDiv(a, b) - q;
    assert d * b == (a - q * b) - (a - TruncDiv(a, b) * b);
    assert d >= 1 ==> d * b >= b;
    assert d <= -1 ==> d * b <= -b;
  }

  lemma TruncDivExact(q: int, b: int)
    requires b > 0
    ensures TruncDiv(q * b, b) == q
  {
    if q >= 0 {
      assert q * b >= 0;
      TruncDivUnique(q * b, b, q);
    } else {
      assert q * b <= 0;
      assert -(q * b) == -q * b;
      TruncDivUnique(-q * b, b, -q);
    }
  }

  /** The truncated quotient is exact exactly when the divisor divides. */
  lemma TruncDivExactIff(a: int, b: int)
    requires b > 0
    ensures a == TruncDiv(a, b) * b <==> a % b == 0
  {
    var q := TruncDiv(a, b);
    hide TruncDiv;
    if a == q * b {
      Multiple(a, b, q);
    }
    if a % b == 0 {
      TruncDivExact(a / b, b);
    }
  }

  lemma Multiple(a: int, b: int, q: int)
    requires b > 0 && a == q * b
    ensures a % b == 0
  {
    var d := q - a / b;
    assert d * b == a % b;
    assert d >= 1 ==> d * b >= b;
    assert d <= -1 ==> d * b <= -b;
  }

  /** Truncating a value between two integers stays between them. */
  lemma TruncDivBetween(lo: int, hi: int, a: int, b: int)
    requires b > 0
    requires lo * b <= a <= hi * b
    ensures lo <= TruncDiv(a, b) <= hi
  {
    var q := TruncDiv(a, b);
    TruncDivRemainder(a, b);
    hide TruncDiv;
    Distribute(b, lo, -1);
    Distribute(b, hi, 1);
    if q <= lo - 1 {
      MulMonotone(q, lo - 1, b);
    }
    if hi + 1 <= q {
      MulMonotone(hi + 1, q, b);
    }
  }

  lemma MulMonotone(x: int, y: int, b: int)
    requires x <= y && b >= 0
    ensures x * b <= y * b
  {
  }

  lemma Distribute(x: int, c: int, d: int)
    ensures x * (c + d) == x * c + x * d
    ensures (c + d) * x == c * x + d * x
  {
  }

  lemma Negate(x: int, y: int)
    ensures x * -y == -(x * y)
    ensures -x * y == -(x * y)
  {
  }

  lemma NonNegativeProduct(x: int, y: int)
    requires x >= 0 && y >= 0
    ensures x * y >= 0
  {
  }

  /** A weighted sum of two values lies between the extremes, weight for weight. */
  lemma WeightedBetween(x: int, m: int, y: int, n: int)
    requires m >= 0 && n >= 0
    ensures Min(x, y) * (m + n) <= x * m + y * n <= Max(x, y) * (m + n)
  {
    var lo, hi := Min(x, y), Max(x, y);
    Distribute(lo, m, n);
    Distribute(hi, m, n);
    MulMonotone(lo, x, m);
    MulMonotone(x, hi, m);
    MulMonotone(lo, y, n);
    MulMonotone(y, hi, n);
  }
}
