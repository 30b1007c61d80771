/**
 * Integer facts about quotient and remainder used for row-major index
 * arithmetic (`reshape`, `repeat`, tiling).
 */
module Arith {

  lemma DivStep(a: nat, size: nat)
    requires size > 0
    ensures (a + size) / size == a / size + 1
  {
    DivMod(a + size, size, a / size + 1, a % size);
  }

  /** Moving one block further adds one to the quotient and keeps the remainder. */
  lemma DivShift(q: nat, size: nat)
    requires size > 0
    ensures (q + size) / size == q / size + 1 && (q + size) % size == q % size
  {
    DivMod(q + size, size, q / size + 1, q % size);
  }

  /** Quotient and remainder are determined by any decomposition `x == q * d + r`. */
  lemma DivMod(x: int, d: int, q: int, r: int)
    requires d > 0 && 0 <= r < d && x == q * d + r
    ensures x / d == q && x % d == r
  {
    var q', r' := x / d, x % d;
    assert (q - q') * d == r' - r;
    if q' < q {
      MulAtLeast(q - q', d);
    } else if q < q' {
      MulAtLeast(q' - q, d);
    }
  }

  lemma MulAtLeast(k: int, d: int)
    requires k >= 1 && d > 0
    ensures k * d >= d
  {
    assert k * d == (k - 1) * d + d;
  }

  lemma MulMono(a: nat, b: nat, n: nat)
    requires a <= b
    ensures a * n <= b * n
  {
  }

  /** A flat position below `k * n` splits into a block below `k` and an offset below `n`. */
  lemma ProductBounds(p: int, k: nat, n: nat)
    requires 0 <= p < k * n
    ensures n > 0 && 0 <= p / n < k && 0 <= p % n < n
  {
    if p / n >= k {
      MulMono(k, p / n, n);
    }
  }

  /** Block `j`, offset `t` sits at flat position `j * n + t`. */
  lemma BlockIndex(j: nat, t: nat, n: nat, k: nat)
    requires j < k && t < n
    ensures j * n + t < k * n && (j * n + t) / n == j && (j * n + t) % n == t
  {
    DivMod(j * n + t, n, j, t);
    MulMono(j + 1, k, n);
  }

  /** Position `p` lies in block `j` exactly when it is in `j * n .. (j + 1) * n`. */
  lemma InBlock(p: nat, j: nat, n: nat)
    requires n > 0
    ensures p / n == j <==> j * n <= p < (j + 1) * n
  {
    if j * n <= p < (j + 1) * n {
      DivMod(p, n, j, p - j * n);
    }
    if p / n == j {
      assert p == j * n + p % n;
    }
  }

  lemma MulCancel(a: nat, b: nat, n: nat)
    requires n > 0 && a * n == b * n
    ensures a == b
  {
  }
}
