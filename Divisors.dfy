/** Divisibility, primality and perfect numbers, as mathematical
    definitions against which the trial-division loops are proved. */
module Divisors {

  /** d divides n evenly (d is non-zero). */
  predicate Divides(d: int, n: int)
  {
    d != 0 && n % d == 0
  }

  /** A prime: at least 2, with no divisor strictly between 1 and itself. */
  predicate Prime(n: int)
  {
    2 <= n && forall d :: 2 <= d < n ==> !Divides(d, n)
  }

  /** a * b < a * c for positive a and b < c. */
  lemma MulStrictMono(a: int, b: int, c: int)
    requires 0 < a && b < c
    ensures a * b < a * c
  {
  }

  /** a * b <= a * c for non-negative a and b <= c. */
  lemma MulMono(a: int, b: int, c: int)
    requires 0 <= a && b <= c
    ensures a * b <= a * c
  {
  }

  /** A positive e divides every multiple of itself. */
  lemma DividesMultiple(e: int, d: int)
    requires 0 < e
    ensures Divides(e, e * d)
  {
  }

  /** If n == d * e with 2 <= d, d < n and n < d * d, then the cofactor e
      is at least 2 and below d, so its square is at most n. */
  lemma CofactorBounds(n: int, d: int, e: int)
    requires n == d * e && 2 <= d < n && n < d * d
    ensures 2 <= e < d && e * e <= n
  {
  }

  /** A divisor d of n with d * d > n has a cofactor n / d, at least 2
      and with square at most n, that divides n too. */
  lemma Cofactor(n: int, d: int)
    requires 2 <= d < n && Divides(d, n) && n < d * d
    ensures 2 <= n / d && n / d * (n / d) <= n && Divides(n / d, n)
  {
    var e := n / d;
    assert n == d * e;
    CofactorBounds(n, d, e);
    DividesMultiple(e, d);
    assert e * d == n;
  }

  /** Trial division up to the square root decides primality: for n >= 2,
      n is prime exactly when no i with 2 <= i and i * i <= n divides it. */
  lemma PrimeBySquareRoot(n: int)
    requires 2 <= n
    ensures Prime(n) <==> forall i :: 2 <= i && i * i <= n ==> !Divides(i, n)
  {
    forall i | 2 <= i && i * i <= n
      ensures i < n
    {
      assert i < i * i;
    }
    if !Prime(n) {
      var d :| 2 <= d < n && Divides(d, n);
      if d * d > n {
        Cofactor(n, d);
      }
    }
  }

  /** The sum of the divisors of n that lie in [1, k - 1]. */
  function DivisorSum(n: int, k: nat): int
    decreases k
  {
    if k <= 1 then 0 else DivisorSum(n, k - 1) + (if Divides(k - 1, n) then k - 1 else 0)
  }

  /** A perfect number: positive and equal to the sum of its proper
      divisors (those in [1, n - 1]). */
  predicate Perfect(n: int)
  {
    0 < n && DivisorSum(n, n) == n
  }

  /** The proper divisors of a prime p sum to 1 (1 is the only one). */
  lemma {:induction false} PrimeDivisorSum(p: int, k: nat)
    requires Prime(p) && 2 <= k <= p
    ensures DivisorSum(p, k) == 1
    decreases k
  {
    if k > 2 {
      PrimeDivisorSum(p, k - 1);
      assert !Divides(k - 1, p);
    }
  }

  /** No prime is perfect, so a classification never reports both. */
  lemma PrimeNotPerfect(n: int)
    ensures Prime(n) ==> !Perfect(n)
  {
    if Prime(n) {
      PrimeDivisorSum(n, n);
    }
  }

  /** Worked cases: 2 and 7 are prime; 4, 1, 0 and every negative number
      are not. */
  lemma PrimeExamples(neg: int)
    requires neg < 0
    ensures Prime(2) && Prime(7)
    ensures !Prime(4) && !Prime(1) && !Prime(0) && !Prime(neg)
  {
    assert Divides(2, 4);
    forall d | 2 <= d < 7 ensures !Divides(d, 7) {
      assert d == 2 || d == 3 || d == 4 || d == 5 || d == 6;
    }
  }

  /** Worked cases: 6 and 28 are perfect; 1 (whose proper divisors sum to
      0), 12, 0 and every negative number are not. */
  lemma PerfectExamples(neg: int)
    requires neg < 0
    ensures Perfect(6) && Perfect(28)
    ensures !Perfect(1) && !Perfect(12) && !Perfect(0) && !Perfect(neg)
  {
    assert DivisorSum(6, 6) == 1 + 2 + 3;
    assert DivisorSum(28, 8) == 1 + 2 + 4 + 7;
    assert DivisorSum(28, 15) == DivisorSum(28, 8) + 14;
    assert DivisorSum(28, 22) == DivisorSum(28, 15);
    assert DivisorSum(28, 28) == DivisorSum(28, 22);
    assert DivisorSum(12, 7) == 1 + 2 + 3 + 4 + 6;
    assert DivisorSum(12, 12) == DivisorSum(12, 7);
  }
}
