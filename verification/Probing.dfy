/** The probe sequence of the symbol tables.  Adding `i * step` to the index for i = 0, 1, 2, ... reaches the
    triangular multiples of the step, so a probe never leaves one half of a prime-sized table. */
module Probing {
  import opened Primes

  /** Sum of the naturals below `k`. */
  function Tri(k: nat): (t: nat)
    ensures 2 * t == k * (k - 1)
  {
    if k == 0 then 0 else Tri(k - 1) + (k - 1)
  }

  /** The slot of the `k`-th read, for start `h` and step `s` in a table of `n` slots. */
  function Slot(h: nat, s: nat, n: nat, k: nat): (j: nat)
    requires n > 0
    ensures j < n
  {
    (h + s * Tri(k)) % n
  }

  lemma ModAdd(a: nat, b: nat, n: nat)
    requires n > 0
    ensures (a % n + b) % n == (a + b) % n
  {
    var q, r := (a % n + b) / n, (a % n + b) % n;
    assert a + b == n * (a / n) + n * q + r == n * (a / n + q) + r;
    DivisionUnique(a + b, n, a / n + q, r);
  }

  /** The code's step from one read to the next. */
  lemma NextSlot(h: nat, s: nat, n: nat, k: nat)
    requires n > 0
    ensures (Slot(h, s, n, k) + k * s) % n == Slot(h, s, n, k + 1)
  {
    ModAdd(h + s * Tri(k), k * s, n);
    assert h + s * Tri(k) + k * s == h + s * Tri(k + 1);
  }

  lemma FirstSlot(h: nat, s: nat, n: nat)
    requires h < n
    ensures Slot(h, s, n, 0) == h && Slot(h, s, n, 1) == h
  {
    assert s * Tri(0) == 0 && s * Tri(1) == 0;
    DivisionUnique(h, n, 0, h);
  }

  lemma SameSlot(a: int, b: int, n: nat)
    requires n > 0
    ensures a % n == b % n <==> (a - b) % n == 0
  {
    var q, r, q', r' := a / n, a % n, b / n, b % n;
    assert a - b == n * (q - q') + (r - r');
    if r == r' {
      DivisionUnique(a - b, n, q - q', 0);
    } else if r > r' {
      DivisionUnique(a - b, n, q - q', r - r');
    } else {
      assert n * (q - q') + (r - r') == n * (q - q' - 1) + (n + r - r');
      DivisionUnique(a - b, n, q - q' - 1, n + r - r');
    }
  }

  lemma TriDifference(a: nat, b: nat)
    ensures 2 * (Tri(a) - Tri(b)) == (a - b) * (a + b - 1)
  {
    assert (a - b) * (a + b - 1) == a * (a - 1) - b * (b - 1);
  }

  /** Two reads meet only when the number of reads between them or their sum says so. */
  lemma Meeting(h: nat, s: nat, p: nat, a: nat, b: nat)
    requires Prime(p) && 0 < s < p && Slot(h, s, p, a) == Slot(h, s, p, b)
    ensures ((a - b) * (a + b - 1)) % p == 0
  {
    hide Prime, Tri;
    var d := Tri(a) - Tri(b);
    SameSlot(h + s * Tri(a), h + s * Tri(b), p);
    ScaledDifference(h, s, Tri(a), Tri(b));
    Euclid(p, s, d);
    TriDifference(a, b);
    DividesTwice(d, p);
  }

  lemma ScaledDifference(h: int, s: int, x: int, y: int)
    ensures h + s * x - (h + s * y) == s * (x - y)
  {
  }

  lemma DividesTwice(d: int, p: nat)
    requires p > 0 && d % p == 0
    ensures (2 * d) % p == 0
  {
    Quotient(d, p);
    Doubled(p, d / p, d);
    DividesTimes(p, 2 * (d / p));
  }

  lemma Doubled(p: int, q: int, d: int)
    requires d == p * q
    ensures 2 * d == p * (2 * q)
  {
  }

  lemma SmallIndivisible(x: int, p: nat)
    requires 0 < x < p
    ensures x % p != 0
  {
    DivisionUnique(x, p, 0, x);
  }

  /** The reads 1 to (p + 1) / 2 visit different slots. */
  lemma ReadsDiffer(h: nat, s: nat, p: nat, a: nat, b: nat)
    requires Prime(p) && 0 < s < p && 1 <= b < a <= (p + 1) / 2
    ensures Slot(h, s, p, a) != Slot(h, s, p, b)
  {
    if Slot(h, s, p, a) == Slot(h, s, p, b) {
      Meeting(h, s, p, a, b);
      Euclid(p, a - b, a + b - 1);
      SmallIndivisible(a + b - 1, p);
      assert false;
    }
  }

  lemma Distribute(s: int, x: int, y: int, p: int, c: int)
    requires x - y == p * c
    ensures s * x - s * y == p * (s * c)
  {
    assert s * x - s * y == s * (x - y);
    Swap(s, p, c);
  }

  lemma Swap(s: int, p: int, c: int)
    ensures s * (p * c) == p * (s * c)
  {
  }

  lemma Folded(h: nat, s: nat, p: nat, a: nat, b: nat, c: int)
    requires p > 0 && Tri(a) - Tri(b) == p * c
    ensures Slot(h, s, p, a) == Slot(h, s, p, b)
  {
    Distribute(s, Tri(a), Tri(b), p, c);
    DividesTimes(p, s * c);
    SameSlot(h + s * Tri(a), h + s * Tri(b), p);
  }

  /** The reads k and p + 1 - k, and the reads k and k - p, differ by multiples of p. */
  lemma TriFolds(p: nat, m: nat, k: nat, i: nat)
    requires p == 2 * m - 1 && (i == p + 1 - k || i == k - p)
    ensures Tri(k) - Tri(i) == p * (k - m)
  {
    TriDifference(k, i);
    if i == p + 1 - k {
      Factor(k - i, p, k - m);
    } else {
      Factor(k + i - 1, p, k - m);
    }
  }

  lemma Factor(x: int, p: int, c: int)
    requires x == 2 * c
    ensures x * p == 2 * (p * c) && p * x == 2 * (p * c)
  {
  }

  /** Every read repeats one of the reads 1 to (p + 1) / 2: the sequence is periodic and symmetric. */
  lemma {:induction false} ReadRepeats(h: nat, s: nat, p: nat, k: nat) returns (i: nat)
    requires p > 1 && p % 2 == 1
    ensures 1 <= i <= (p + 1) / 2 && Slot(h, s, p, k) == Slot(h, s, p, i)
    decreases k
  {
    hide Tri, Slot;
    var m := (p + 1) / 2;
    if k == 0 {
      i := 1;
      TriDifference(0, 1);
      Folded(h, s, p, 0, 1, 0);
    } else if k <= m {
      i := k;
    } else if k <= p {
      i := p + 1 - k;
      TriFolds(p, m, k, i);
      Folded(h, s, p, k, i, k - m);
    } else {
      TriFolds(p, m, k, k - p);
      Folded(h, s, p, k, k - p, k - m);
      i := ReadRepeats(h, s, p, k - p);
    }
  }

  /** The slots of the reads 1 to `k`. */
  function Path(h: nat, s: nat, n: nat, k: nat): (path: set<nat>)
    requires n > 0
    ensures forall j :: j in path <==> exists i: nat :: 1 <= i <= k && j == Slot(h, s, n, i)
  {
    if k == 0 then {} else
      var rest := Path(h, s, n, k - 1);
      rest + {Slot(h, s, n, k)}
  }

  lemma {:induction false} PathSize(h: nat, s: nat, p: nat, k: nat)
    requires Prime(p) && 0 < s < p && k <= (p + 1) / 2
    ensures |Path(h, s, p, k)| == k
  {
    if k > 0 {
      PathSize(h, s, p, k - 1);
      forall i: nat | 1 <= i <= k - 1
        ensures Slot(h, s, p, i) != Slot(h, s, p, k)
      {
        ReadsDiffer(h, s, p, k, i);
      }
      assert Slot(h, s, p, k) !in Path(h, s, p, k - 1);
    }
  }

  /** The slots a probe can reach at all. */
  function Reach(h: nat, s: nat, n: nat): set<nat>
    requires n > 0
  {
    Path(h, s, n, (n + 1) / 2)
  }

  /** Probe reach: for a prime size and a legal step, all reads together visit exactly (p + 1) / 2 slots. */
  lemma ProbeReach(h: nat, s: nat, p: nat)
    requires Prime(p) && p > 2 && 0 < s < p
    ensures |Reach(h, s, p)| == (p + 1) / 2
    ensures forall j :: j in Reach(h, s, p) <==> exists k: nat :: j == Slot(h, s, p, k)
  {
    PathSize(h, s, p, (p + 1) / 2);
    OddPrime(p);
    forall k: nat
      ensures Slot(h, s, p, k) in Reach(h, s, p)
    {
      var i := ReadRepeats(h, s, p, k);
    }
  }

  lemma OddPrime(p: nat)
    requires Prime(p) && p > 2
    ensures p % 2 == 1
  {
    assert p % 2 != 0;
  }

  lemma {:induction false} SubsetSize(a: set<nat>, b: set<nat>)
    requires a <= b
    ensures |a| <= |b|
    decreases a
  {
    if a != {} {
      var x :| x in a;
      SubsetSize(a - {x}, b - {x});
    }
  }

  /** Pigeonhole: with fewer than (p + 1) / 2 slots taken, one of the first (p + 3) / 2 reads finds a free one. */
  lemma FreeSlotReached(h: nat, s: nat, p: nat, taken: set<nat>) returns (k: nat)
    requires Prime(p) && p > 2 && 0 < s < p && |taken| < (p + 1) / 2
    ensures k <= (p + 1) / 2 && Slot(h, s, p, k) !in taken
  {
    ProbeReach(h, s, p);
    if Reach(h, s, p) <= taken {
      SubsetSize(Reach(h, s, p), taken);
      assert false;
    }
    var j :| j in Reach(h, s, p) && j !in taken;
    k :| 1 <= k <= (p + 1) / 2 && j == Slot(h, s, p, k);
  }
}
