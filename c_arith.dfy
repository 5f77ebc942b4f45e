/** C++ integer division and remainder, which truncate toward zero. Dafny's
  * own `/` and `%` are Euclidean, so they agree with C++ only on non-negative
  * operands. */
module CArith {
  /** C++ `a / b`: the quotient rounded toward zero. */
  function CDiv(a: int, b: int): int
    requires b != 0
  {
    if a >= 0 then a / b
    else if b > 0 then -((-a) / b)
    else (-a) / (-b)
  }

  /** C++ `a % b`: the remainder that goes with `CDiv`. */
  function CRem(a: int, b: int): (r: int)
    requires b != 0
    ensures a == CDiv(a, b) * b + r
  {
    if a >= 0 then a % b
    else if b > 0 then -((-a) % b)
    else -((-a) % (-b))
  }

  /** The remainder takes the sign of the dividend, stays below the divisor in
    * size, and is the Euclidean one for a non-negative dividend. */
  lemma CRemRange(a: int, b: int)
    requires b != 0
    ensures a >= 0 ==> 0 <= CRem(a, b) < (if b > 0 then b else -b) && CRem(a, b) == a % b
    ensures a < 0 ==> -(if b > 0 then b else -b) < CRem(a, b) <= 0
  {
  }

  /** A multiple of a positive `n` strictly between `-n` and `n` is zero. */
  lemma SmallMultiple(n: int, k: int)
    requires n > 0 && -n < n * k < n
    ensures k == 0
  {
    MulBound(n, k);
  }

  /** A non-zero multiple of a positive `n` is at least `n` away from zero. */
  lemma MulBound(n: int, k: int)
    requires n > 0
    ensures k >= 1 ==> n * k >= n
    ensures k <= -1 ==> n * k <= -n
  {
  }

  /** Euclidean quotient and remainder by a positive divisor are unique. */
  lemma ModUnique(x: int, n: int, q: int, r: int)
    requires n > 0 && 0 <= r < n && x == n * q + r
    ensures x % n == r && x / n == q
  {
    SmallMultiple(n, q - x / n);
  }

  /** The C++ remainder by a positive divisor is zero exactly when the
    * Euclidean one is. */
  lemma CRemZero(a: int, n: int)
    requires n > 0
    ensures CRem(a, n) == 0 <==> a % n == 0
  {
    if a < 0 {
      if (-a) % n == 0 { ModUnique(a, n, -((-a) / n), 0); }
      if a % n == 0 { ModUnique(-a, n, -(a / n), 0); }
    }
  }

  /** An exact C++ division by a positive divisor is the Euclidean one. */
  lemma CDivExact(a: int, n: int)
    requires n > 0 && a % n == 0
    ensures CDiv(a, n) == a / n
  {
    if a < 0 { ModUnique(-a, n, -(a / n), 0); }
  }
}
