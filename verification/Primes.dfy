/** The number theory behind the probe sequences of prime-sized tables. */
module Primes {

  ghost predicate Prime(p: nat) {
    p > 1 && forall d: nat :: 1 < d < p ==> p % d != 0
  }

  /** No prime below `root`, which is at most 163, divides `n`. */
  predicate NoDivisor(n: nat, root: nat) {
    (n % 2 != 0 || 2 >= root) && (n % 3 != 0 || 3 >= root) && (n % 5 != 0 || 5 >= root) &&
    (n % 7 != 0 || 7 >= root) && (n % 11 != 0 || 11 >= root) && (n % 13 != 0 || 13 >= root) &&
    (n % 17 != 0 || 17 >= root) && (n % 19 != 0 || 19 >= root) && (n % 23 != 0 || 23 >= root) &&
    (n % 29 != 0 || 29 >= root) && (n % 31 != 0 || 31 >= root) && (n % 37 != 0 || 37 >= root) &&
    (n % 41 != 0 || 41 >= root) && (n % 43 != 0 || 43 >= root) && (n % 47 != 0 || 47 >= root) &&
    (n % 53 != 0 || 53 >= root) && (n % 59 != 0 || 59 >= root) && (n % 61 != 0 || 61 >= root) &&
    (n % 67 != 0 || 67 >= root) && (n % 71 != 0 || 71 >= root) && (n % 73 != 0 || 73 >= root) &&
    (n % 79 != 0 || 79 >= root) && (n % 83 != 0 || 83 >= root) && (n % 89 != 0 || 89 >= root) &&
    (n % 97 != 0 || 97 >= root) && (n % 101 != 0 || 101 >= root) && (n % 103 != 0 || 103 >= root) &&
    (n % 107 != 0 || 107 >= root) && (n % 109 != 0 || 109 >= root) && (n % 113 != 0 || 113 >= root) &&
    (n % 127 != 0 || 127 >= root) && (n % 131 != 0 || 131 >= root) && (n % 137 != 0 || 137 >= root) &&
    (n % 139 != 0 || 139 >= root) && (n % 149 != 0 || 149 >= root) && (n % 151 != 0 || 151 >= root) &&
    (n % 157 != 0 || 157 >= root)
  }

  lemma {:induction false} DividesTrans(a: nat, b: nat, c: nat)
    requires a > 0 && b > 0 && b % a == 0 && c % b == 0
    ensures c % a == 0
  {
    Quotient(b, a);
    Quotient(c, b);
    var x, y := b / a, c / b;
    assert a * x * y == a * (x * y);
    DividesTimes(a, x * y);
  }

  /** Below 163, what 2, 3, 5, 7 and 11 do not divide is prime. */
  predicate Covered(d: nat) {
    || d % 2 == 0 || d % 3 == 0 || d % 5 == 0 || d % 7 == 0 || d % 11 == 0
    || (
      d == 13 || d == 17 || d == 19 || d == 23 || d == 29 || d == 31 || d == 37 || d == 41 || d == 43 ||
      d == 47 || d == 53 || d == 59 || d == 61 || d == 67 || d == 71 || d == 73 || d == 79 || d == 83 ||
      d == 89 || d == 97 || d == 101 || d == 103 || d == 107 || d == 109 || d == 113 || d == 127 || d == 131 ||
      d == 137 || d == 139 || d == 149 || d == 151 || d == 157)
  }

  lemma CoveredBelow60(d: nat)
    requires 1 < d < 60
    ensures Covered(d)
  {
  }

  lemma CoveredBelow110(d: nat)
    requires 60 <= d < 110
    ensures Covered(d)
  {
  }

  lemma CoveredBelow163(d: nat)
    requires 110 <= d < 163
    ensures Covered(d)
  {
  }

  lemma AllCovered(d: nat)
    requires 1 < d < 163
    ensures Covered(d)
  {
    if d < 60 {
      CoveredBelow60(d);
    } else if d < 110 {
      CoveredBelow110(d);
    } else {
      CoveredBelow163(d);
    }
  }

  lemma NoDivisorMeans(n: nat, root: nat, d: nat)
    requires NoDivisor(n, root) && 1 < d < root <= 163
    ensures n % d != 0
  {
    AllCovered(d);
    if n % d == 0 {
      SmallFactor(n, d, 2);
      SmallFactor(n, d, 3);
      SmallFactor(n, d, 5);
      SmallFactor(n, d, 7);
      SmallFactor(n, d, 11);
      assert false;
    }
  }

  lemma SmallFactor(n: nat, d: nat, q: nat)
    requires d > 0 && q > 0 && n % d == 0
    ensures d % q == 0 ==> n % q == 0 && q <= d
  {
    if d % q == 0 {
      DividesTrans(q, d, n);
      Quotient(d, q);
    }
  }

  /** Quotient and remainder are unique. */
  lemma DivisionUnique(n: int, d: nat, q: int, r: int)
    requires 0 <= r < d && n == d * q + r
    ensures n / d == q && n % d == r
  {
    var q', r' := n / d, n % d;
    assert d * (q - q') == r' - r;
    TimesNonzero(d, q - q');
  }

  lemma TimesNonzero(d: int, k: int)
    requires d > 0
    ensures k >= 1 ==> d * k >= d
    ensures k <= -1 ==> d * k <= -d
  {
  }

  lemma DividesTimes(d: nat, k: int)
    requires d > 0
    ensures (d * k) % d == 0 && (k * d) % d == 0
  {
    DivisionUnique(d * k, d, k, 0);
  }

  lemma Quotient(n: int, d: nat)
    requires d > 0 && n % d == 0
    ensures n == d * (n / d)
  {
  }

  lemma Cofactor(p: nat, d: nat, q: int, root: nat)
    requires p == d * q && 1 < d < p && root <= d && root * root > p
    ensures 1 < q < root
  {
    TimesNonzero(d, q);
    if q >= root {
      MulMonotone(root, d, root, q);
      assert false;
    }
  }

  /** Trial division up to the square root decides primality. */
  lemma TrialDivision(p: nat, root: nat)
    requires p > 1 && root * root > p && root <= 163 && NoDivisor(p, root)
    ensures Prime(p)
  {
    hide NoDivisor;
    forall d: nat | 1 < d < p
      ensures p % d != 0
    {
      if p % d == 0 {
        var q := p / d;
        Quotient(p, d);
        if d < root {
          NoDivisorMeans(p, root, d);
        } else {
          Cofactor(p, d, q, root);
          DividesTimes(q, d);
          NoDivisorMeans(p, root, q);
        }
      }
    }
  }

  lemma MulMonotone(a: nat, b: nat, c: nat, d: nat)
    requires a <= b && c <= d
    ensures a * c <= b * d
  {
  }

  /** Euclid's lemma: a prime that divides a product with a smaller factor divides the other factor. */
  lemma {:induction false} Euclid(p: nat, x: nat, y: int)
    requires Prime(p) && 0 < x < p && (x * y) % p == 0
    ensures y % p == 0
    decreases x
  {
    if x > 1 {
      var q, r := p / x, p % x;
      assert p == x * q + r;
      assert r * y == p * y - q * (x * y) by {
        assert p * y == (x * q + r) * y == x * q * y + r * y;
      }
      var z := (x * y) / p;
      Quotient(x * y, p);
      assert r * y == p * (y - q * z) by {
        assert q * (p * z) == p * (q * z);
      }
      DividesTimes(p, y - q * z);
      Euclid(p, r, y);
    }
  }
}
