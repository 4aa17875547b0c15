/** Integer facts shared by the ring buffers, the barriers and the loop schedules. */
module Arith {

  function Min(a: int, b: int): int {
    if a <= b then a else b
  }

  /** 1 for yes, 0 for no: to count with. */
  function One(b: bool): nat {
    if b then 1 else 0
  }

  function Pow2(k: nat): (p: nat)
    ensures p >= 1
  {
    if k == 0 then 1 else 2 * Pow2(k - 1)
  }

  lemma {:induction false} Pow2Monotonic(a: nat, b: nat)
    requires a <= b
    ensures Pow2(a) <= Pow2(b)
    decreases b
  {
    if a >= b {
    } else {
      Pow2Monotonic(a, b - 1);
    }
  }

  lemma {:induction false} MulAtLeast(k: int, n: int)
    requires k >= 1 && n >= 0
    ensures k * n >= n
    decreases k
  {
    if k <= 1 {
    } else {
      MulAtLeast(k - 1, n);
      assert k * n == (k - 1) * n + n;
    }
  }

  /** The only multiple of n strictly between -n and n is zero. */
  lemma SmallMultiple(k: int, n: int)
    requires n > 0 && -n < k * n < n
    ensures k == 0
  {
    if k >= 1 {
      MulAtLeast(k, n);
    } else if k <= -1 {
      assert (-k) * n == -(k * n);
      MulAtLeast(-k, n);
    }
  }

  /** Quotient and remainder are determined by the division equation. */
  lemma DivModUnique(x: int, n: int, q: int, r: int)
    requires n > 0
    requires x == q * n + r && 0 <= r < n
    ensures x / n == q && x % n == r
  {
    var q0, r0 := x / n, x % n;
    assert x == q0 * n + r0;
    assert (q - q0) * n == q * n - q0 * n;
    SmallMultiple(q - q0, n);
  }

  /** Two indices less than one lap apart fall on different slots of a ring. */
  lemma ModDistinct(a: int, b: int, n: int)
    requires n > 0 && a < b < a + n
    ensures a % n != b % n
  {
    if a % n == b % n {
      var qa, qb := a / n, b / n;
      assert a == qa * n + a % n && b == qb * n + b % n;
      assert (qb - qa) * n == qb * n - qa * n;
      SmallMultiple(qb - qa, n);
    }
  }

  /** Reducing before a further shift does not change the slot reached. */
  lemma ModShift(a: int, b: int, n: int)
    requires n > 0
    ensures (a % n + b) % n == (a + b) % n
  {
    var q := a / n;
    var s := a % n + b;
    assert a + b == q * n + s;
    assert a + b == (q + s / n) * n + s % n by {
      assert s == (s / n) * n + s % n;
      assert (q + s / n) * n == q * n + (s / n) * n;
    }
    DivModUnique(a + b, n, q + s / n, s % n);
  }

  lemma ModSmall(i: int, n: int)
    requires 0 <= i < n
    ensures i % n == i
  {
    DivModUnique(i, n, 0, i);
  }

  // ---------- remainders by powers of two ----------

  /** One more bit of x: it is either clear or set. */
  lemma ModPow2Split(x: nat, k: nat)
    ensures x % Pow2(k + 1) == x % Pow2(k) || x % Pow2(k + 1) == x % Pow2(k) + Pow2(k)
  {
    var p: int := Pow2(k);
    var q, r := x / (2 * p), x % (2 * p);
    assert x == q * (2 * p) + r && q * (2 * p) == (2 * q) * p && (2 * q + 1) * p == (2 * q) * p + p;
    if r < p {
      DivModUnique(x, p, 2 * q, r);
    } else {
      DivModUnique(x, p, 2 * q + 1, r - p);
    }
  }

  /** A multiple of a power of two is a multiple of every lower one. */
  lemma {:induction false} ModPow2Lower(x: nat, j: nat, k: nat)
    requires j <= k && x % Pow2(k) == 0
    ensures x % Pow2(j) == 0
    decreases k
  {
    if j >= k {
    } else {
      ModPow2Split(x, k - 1);
      ModPow2Lower(x, j, k - 1);
    }
  }

  /** Adding 2^k to a multiple of 2^(k+1) sets bit k and no other; removing it undoes that. */
  lemma ModPow2Bit(x: nat, k: nat)
    ensures x % Pow2(k + 1) == 0 <==> (x + Pow2(k)) % Pow2(k + 1) == Pow2(k)
  {
    var p: int := Pow2(k);
    var q, r := x / (2 * p), x % (2 * p);
    assert x == q * (2 * p) + r;
    if r < p {
      DivModUnique(x + p, 2 * p, q, r + p);
    } else {
      assert (q + 1) * (2 * p) == q * (2 * p) + 2 * p;
      DivModUnique(x + p, 2 * p, q + 1, r - p);
    }
  }

  lemma ModAtMost(x: nat, n: nat)
    requires n > 0
    ensures x % n <= x
  {
    if x < n {
      ModSmall(x, n);
    }
  }
}
