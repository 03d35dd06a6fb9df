/** Facts about integer division that the timer and the clock split rest on. */
module Arithmetic {

  lemma {:induction false} MulAtLeast(x: int, n: nat)
    requires x >= 1
    ensures x * n >= n
    decreases x
  {
    if x > 1 {
      MulAtLeast(x - 1, n);
      assert x * n == (x - 1) * n + n;
    }
  }

  /** If `a == k * n + t` with `0 <= t < n`, then `k` and `t` are the quotient and remainder of `a` by `n`. */
  lemma DivModUnique(a: int, n: int, k: int, t: int)
    requires n > 0 && 0 <= t < n && a == k * n + t
    ensures a / n == k && a % n == t
  {
    var q, r := a / n, a % n;
    assert a == q * n + r;
    assert (q - k) * n == t - r by {
      assert (q - k) * n == q * n - k * n;
    }
    if q > k {
      MulAtLeast(q - k, n);
    } else if q < k {
      MulAtLeast(k - q, n);
    }
  }

  lemma DivDiv(a: nat, b: nat, c: nat)
    requires b > 0 && c > 0
    ensures a / b / c == a / (b * c)
  {
    var q, r := a / b, a % b;
    var q1, r1 := q / c, q % c;
    assert a == q * b + r;
    assert q == q1 * c + r1;
    ScaleQuotient(q, q1, r1, b, c);
    RemainderBound(r1, r, b, c);
    DivModUnique(a, b * c, q1, r1 * b + r);
  }

  lemma ScaleQuotient(q: int, q1: int, r1: int, b: int, c: int)
    requires q == q1 * c + r1
    ensures q * b == q1 * (b * c) + r1 * b
  {
    assert q * b == (q1 * c) * b + r1 * b;
    assert (q1 * c) * b == q1 * (b * c);
  }

  lemma RemainderBound(r1: nat, r: nat, b: nat, c: nat)
    requires r1 < c && r < b
    ensures r1 * b + r < b * c
  {
    MulLe(r1, c - 1, b);
    assert (c - 1) * b == c * b - b;
  }

  lemma MulLe(x: nat, y: nat, n: nat)
    requires x <= y
    ensures x * n <= y * n
  {
    if x < y {
      MulAtLeast(y - x, n);
      assert y * n - x * n == (y - x) * n;
    }
  }

  lemma DivMonotone(a: nat, b: nat, n: nat)
    requires a <= b && n > 0
    ensures a / n <= b / n
  {
    assert a == a / n * n + a % n;
    assert b == b / n * n + b % n;
    if a / n > b / n {
      MulAtLeast(a / n - b / n, n);
    }
  }
}
