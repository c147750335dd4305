/**
 * Arithmetic behind the Massey-Omura cipher: powers modulo a prime, the extended Euclidean
 * algorithm, Euclid's lemma and Fermat's little theorem.
 */
module NumberTheory {
  import opened Seqs

  function Pow(b: int, e: nat): int
    decreases e
  {
    if e == 0 then 1 else b * Pow(b, e - 1)
  }

  /** b^e mod m as math/big computes it: a zero modulus means "no reduction". */
  function PowMod(b: nat, e: nat, m: nat): nat {
    if m == 0 then PowNonNegative(b, e); Pow(b, e) else Pow(b, e) % m
  }

  predicate Prime(p: nat) {
    p > 1 && forall d :: 1 < d < p ==> p % d != 0
  }

  function Gcd(a: nat, b: nat): (g: nat)
    decreases b
  {
    if b == 0 then a else Gcd(b, a % b)
  }

  /** Coefficients (x, y) with a*x + b*y == Gcd(a, b). */
  function Bezout(a: nat, b: nat): (int, int)
    decreases b
  {
    if b == 0 then (1, 0)
    else
      var (x, y) := Bezout(b, a % b);
      (y, x - (a / b) * y)
  }

  /** The inverse of g modulo n in 0..n-1, when there is one. */
  function ModInverse(g: nat, n: nat): nat
    requires n > 0
  {
    Bezout(g, n).0 % n
  }

  lemma {:induction false} PowNonNegative(b: nat, e: nat)
    ensures Pow(b, e) >= 0
    decreases e
  {
    if e > 0 {
      PowNonNegative(b, e - 1);
    }
  }

  // ----- congruences

  lemma MulBound(m: int, d: int)
    requires m > 0
    ensures d >= 1 ==> m * d >= m
    ensures d <= -1 ==> m * d <= -m
  {
  }

  lemma ModUnique(x: int, q: int, r: int, m: int)
    requires 0 <= r < m && x == m * q + r
    ensures x % m == r
  {
    var d := q - x / m;
    assert m * d == x % m - r;
    MulBound(m, d);
  }

  lemma ModShift(x: int, k: int, m: int)
    requires m > 0
    ensures (x + m * k) % m == x % m
  {
    assert x + m * k == m * (x / m + k) + x % m;
    ModUnique(x + m * k, x / m + k, x % m, m);
  }

  lemma MultipleModZero(k: int, m: int)
    requires m > 0
    ensures (m * k) % m == 0
  {
    ModUnique(m * k, k, 0, m);
  }

  lemma ModOfMod(x: int, m: int)
    requires m > 0
    ensures (x % m) % m == x % m
  {
  }

  lemma ModMulLeft(a: int, b: int, m: int)
    requires m > 0
    ensures ((a % m) * b) % m == (a * b) % m
  {
    var q := a / m;
    assert a == m * q + a % m;
    assert a * b == (a % m) * b + m * (q * b);
    ModShift((a % m) * b, q * b, m);
  }

  lemma ModMul(a: int, b: int, m: int)
    requires m > 0
    ensures ((a % m) * (b % m)) % m == (a * b) % m
  {
    ModMulLeft(a, b % m, m);
    ModMulLeft(b, a, m);
    assert a * (b % m) == (b % m) * a && a * b == b * a;
  }

  /** m divides a - b exactly when a and b have the same remainder. */
  lemma ModDifference(a: int, b: int, m: int)
    requires m > 0 && (a - b) % m == 0
    ensures a % m == b % m
  {
    var k := (a - b) / m;
    assert a == b + m * k;
    ModShift(b, k, m);
  }

  // ----- powers

  lemma {:induction false} PowAdd(b: int, x: nat, y: nat)
    ensures Pow(b, x + y) == Pow(b, x) * Pow(b, y)
    decreases x
  {
    if x > 0 {
      PowAdd(b, x - 1, y);
      var p, q := Pow(b, x - 1), Pow(b, y);
      assert b * (p * q) == (b * p) * q;
    }
  }

  lemma {:induction false} PowMul(b: int, x: nat, y: nat)
    ensures x * y >= 0
    ensures Pow(Pow(b, x), y) == Pow(b, x * y)
    decreases y
  {
    if y == 0 {
      assert x * y == 0;
    } else {
      PowMul(b, x, y - 1);
      assert x * y == x + x * (y - 1);
      PowAdd(b, x, x * (y - 1));
    }
  }

  lemma {:induction false} PowModBase(b: nat, e: nat, m: nat)
    requires m > 0
    ensures Pow(b % m, e) % m == Pow(b, e) % m
    decreases e
  {
    if e > 0 {
      PowModBase(b, e - 1, m);
      ModMul(b % m, Pow(b % m, e - 1), m);
      ModOfMod(b, m);
      ModMul(b, Pow(b, e - 1), m);
    }
  }

  lemma {:induction false} PowOne(e: nat)
    ensures Pow(1, e) == 1
    decreases e
  {
    if e > 0 {
      PowOne(e - 1);
    }
  }

  /** Raising to x and then to y is raising to x*y. */
  lemma PowModMul(b: nat, x: nat, y: nat, m: nat)
    requires m > 0
    ensures x * y >= 0
    ensures PowMod(PowMod(b, x, m), y, m) == PowMod(b, x * y, m)
  {
    PowMul(b, x, y);
    PowNonNegative(b, x);
    PowModBase(Pow(b, x), y, m);
  }

  // ----- greatest common divisors

  ghost predicate Divides(d: int, a: int) {
    exists k :: a == d * k
  }

  lemma {:induction false} BezoutIdentity(a: nat, b: nat)
    ensures a * Bezout(a, b).0 + b * Bezout(a, b).1 == Gcd(a, b)
    decreases b
  {
    if b > 0 {
      BezoutIdentity(b, a % b);
      var (x, y) := Bezout(b, a % b);
      BezoutStep(a, b, a / b, a % b, x, y);
    }
  }

  lemma BezoutStep(a: int, b: int, q: int, m: int, x: int, y: int)
    requires a == b * q + m
    ensures a * y + b * (x - q * y) == b * x + m * y
  {
    assert a * y == (b * q) * y + m * y;
    assert (b * q) * y == b * (q * y);
    assert b * (x - q * y) == b * x - b * (q * y);
  }

  lemma {:induction false} GcdDivides(a: nat, b: nat)
    ensures Divides(Gcd(a, b), a) && Divides(Gcd(a, b), b)
    decreases b
  {
    var g := Gcd(a, b);
    if b == 0 {
      assert a == g * 1 && b == g * 0;
    } else {
      GcdDivides(b, a % b);
      var x :| b == g * x;
      var y :| a % b == g * y;
      var q := a / b;
      assert a == b * q + a % b;
      assert (g * x) * q == g * (x * q);
      assert a == g * (x * q + y);
    }
  }

  /** A number coprime to n has a two-sided inverse modulo n, and it lies in 1..n-1 for n > 1. */
  lemma ModInverseCorrect(g: nat, n: nat)
    requires n > 1 && Gcd(g, n) == 1
    ensures 0 < ModInverse(g, n) < n
    ensures (g * ModInverse(g, n)) % n == 1
  {
    BezoutIdentity(g, n);
    InverseFromBezout(g, n, Bezout(g, n).0, Bezout(g, n).1);
  }

  lemma InverseFromBezout(g: nat, n: nat, x: int, y: int)
    requires n > 1 && g * x + n * y == 1
    ensures 0 < x % n < n
    ensures (g * (x % n)) % n == 1
  {
    assert g * x == n * (-y) + 1;
    ModUnique(g * x, -y, 1, n);
    ModMulLeft(x, g, n);
    var z := x % n;
    assert z * g == g * z && x * g == g * x;
    assert z == 0 ==> g * z == 0;
  }

  predicate Inverts(g: nat, x: nat, n: nat)
    requires n > 0
  {
    (g * x) % n == 1
  }

  lemma DividesOne(d: nat, a: int, b: int, x: int, k: int)
    requires Divides(d, a) && Divides(d, b) && a * x == b * k + 1
    ensures d == 1
  {
    var u :| a == d * u;
    var v :| b == d * v;
    var ux, vk := u * x, v * k;
    FactorOut(d, u, x);
    FactorOut(d, v, k);
    FactorDifference(d, ux, vk);
    FactorBounds(1, d, ux - vk);
  }

  lemma FactorOut(d: int, u: int, x: int)
    ensures (d * u) * x == d * (u * x)
  {
  }

  lemma FactorDifference(d: int, s: int, t: int)
    ensures d * s - d * t == d * (s - t)
  {
  }

  /** Exactly the numbers with greatest common divisor 1 have an inverse. */
  lemma InvertibleExactly(g: nat, n: nat)
    requires n > 1
    ensures Gcd(g, n) == 1 <==> exists x: nat :: Inverts(g, x, n)
  {
    if Gcd(g, n) == 1 {
      ModInverseCorrect(g, n);
      assert Inverts(g, ModInverse(g, n), n);
    }
    if x: nat :| Inverts(g, x, n) {
      GcdDivides(g, n);
      DividesOne(Gcd(g, n), g, n, x, (g * x) / n);
    }
  }

  // ----- primes

  lemma FactorBounds(p: nat, g: nat, k: int)
    requires p > 0 && p == g * k
    ensures 0 < g <= p && 0 < k
  {
    assert g == 0 ==> g * k == 0;
    assert k <= 0 ==> g * k <= 0;
    assert k >= 1 ==> g * k >= g;
  }

  lemma PrimeCoprime(p: nat, a: nat)
    requires Prime(p) && a % p != 0
    ensures Gcd(a, p) == 1
  {
    GcdDivides(a, p);
    var g := Gcd(a, p);
    var k :| p == g * k;
    var j :| a == g * j;
    FactorBounds(p, g, k);
    MultipleModZero(k, g);
    MultipleModZero(j, g);
  }

  /** Euclid's lemma. */
  lemma EuclidLemma(p: nat, a: nat, b: int)
    requires Prime(p) && a % p != 0 && (a * b) % p == 0
    ensures b % p == 0
  {
    PrimeCoprime(p, a);
    BezoutIdentity(a, p);
    hide Prime;
    CoprimeFactor(p, a, b, Bezout(a, p).0, Bezout(a, p).1);
  }

  lemma CoprimeFactor(p: nat, a: nat, b: int, x: int, y: int)
    requires p > 0 && a * x + p * y == 1 && (a * b) % p == 0
    ensures b % p == 0
  {
    var t := (a * b) / p;
    assert a * b == p * t;
    assert b == (a * x) * b + (p * y) * b by {
      assert (a * x + p * y) * b == (a * x) * b + (p * y) * b;
    }
    assert (a * x) * b == (a * b) * x == p * (t * x);
    assert (p * y) * b == p * (y * b);
    assert b == p * (t * x + y * b);
    MultipleModZero(t * x + y * b, p);
  }

  lemma {:induction false} PowUnit(p: nat, x: nat, e: nat)
    requires Prime(p) && x % p != 0
    ensures Pow(x, e) % p != 0
    decreases e
  {
    if e > 0 {
      PowUnit(p, x, e - 1);
      if (x * Pow(x, e - 1)) % p == 0 {
        EuclidLemma(p, x, Pow(x, e - 1));
      }
    }
  }

  /** A power of a unit is a unit: it stays in 1..p-1. */
  lemma PowModUnit(p: nat, x: nat, e: nat)
    requires Prime(p) && 0 < x < p
    ensures 0 < PowMod(x, e, p) < p
  {
    PowUnit(p, x, e);
  }

  // ----- Fermat's little theorem

  /** The numbers 1..n in order. */
  function UpTo(n: nat): (r: seq<int>)
    ensures |r| == n && forall i :: 0 <= i < n ==> r[i] == i + 1
  {
    seq(n, i => i + 1)
  }

  /** The multiples of a by 1..n, reduced modulo p. */
  function Multiples(a: nat, p: nat, n: nat): (r: seq<int>)
    requires p > 0
    ensures |r| == n && forall i :: 0 <= i < n ==> r[i] == (a * (i + 1)) % p
  {
    seq(n, i requires i >= 0 => (a * (i + 1)) % p)
  }

  /** Injective lists over 1..n of length n are permutations of 1..n. */
  lemma {:induction false} Pigeonhole(s: seq<int>, n: nat)
    requires |s| == n
    requires forall i :: 0 <= i < n ==> 1 <= s[i] <= n
    requires forall i, j :: 0 <= i < j < n ==> s[i] != s[j]
    ensures multiset(s) == multiset(UpTo(n))
  {
    var image, range := set x | x in s, set x | x in UpTo(n);
    forall x | x in image ensures x in range {
      assert UpTo(n)[x - 1] == x;
    }
    DistinctCount(s);
    DistinctCount(UpTo(n));
    SubsetOfSameSize(image, range);
    DistinctMultiset(s);
    DistinctMultiset(UpTo(n));
  }

  lemma {:induction false} DistinctCount(s: seq<int>)
    requires forall i, j :: 0 <= i < j < |s| ==> s[i] != s[j]
    ensures |set x | x in s| == |s|
  {
    if s != [] {
      var t := s[..|s| - 1];
      DistinctCount(t);
      assert (set x | x in s) == (set x | x in t) + {s[|s| - 1]};
    }
  }

  lemma SubsetOfSameSize(a: set<int>, b: set<int>)
    requires a <= b && |a| == |b|
    ensures a == b
  {
    assert b == a + (b - a);
    assert |b| == |a| + |b - a|;
  }

  lemma {:induction false} DistinctMultiset(s: seq<int>)
    requires forall i, j :: 0 <= i < j < |s| ==> s[i] != s[j]
    ensures multiset(s) == multiset(set x | x in s)
  {
    if s != [] {
      var t := s[..|s| - 1];
      DistinctMultiset(t);
      assert s == t + [s[|s| - 1]];
      assert (set x | x in s) == (set x | x in t) + {s[|s| - 1]};
    }
  }

  lemma EqualMod(u: int, v: int, m: int)
    requires m > 0 && u % m == v % m
    ensures (v - u) % m == 0
  {
    assert v - u == m * (v / m - u / m);
    MultipleModZero(v / m - u / m, m);
  }

  lemma MultiplesDistinct(a: nat, p: nat, i: nat, j: nat)
    requires Prime(p) && a % p != 0
    requires i < j < p - 1
    ensures (a * (i + 1)) % p != (a * (j + 1)) % p
  {
    hide Prime;
    if (a * (i + 1)) % p == (a * (j + 1)) % p {
      EqualMod(a * (i + 1), a * (j + 1), p);
      assert a * (j + 1) - a * (i + 1) == a * (j - i);
      EuclidLemma(p, a, j - i);
      SmallMod(j - i, p);
    }
  }

  lemma SmallMod(x: nat, m: nat)
    requires x < m
    ensures x % m == x
  {
  }

  lemma MultiplesInRange(a: nat, p: nat, i: nat)
    requires Prime(p) && a % p != 0
    requires i < p - 1
    ensures 1 <= (a * (i + 1)) % p <= p - 1
  {
    if (a * (i + 1)) % p == 0 {
      EuclidLemma(p, a, i + 1);
      SmallMod(i + 1, p);
    }
  }

  lemma MultiplesPermute(a: nat, p: nat)
    requires Prime(p) && a % p != 0
    ensures multiset(Multiples(a, p, p - 1)) == multiset(UpTo(p - 1))
  {
    var s := Multiples(a, p, p - 1);
    hide Prime;
    forall i | 0 <= i < p - 1 ensures 1 <= s[i] <= p - 1 {
      MultiplesInRange(a, p, i);
    }
    forall i, j | 0 <= i < j < p - 1 ensures s[i] != s[j] {
      MultiplesDistinct(a, p, i, j);
    }
    Pigeonhole(s, p - 1);
  }

  lemma {:induction false} ProductSnoc(s: seq<int>, x: int)
    ensures Product(s + [x]) == Product(s) * x
  {
    ProductWithout(s + [x], |s|);
    assert Without(s + [x], |s|) == s;
  }

  /** The product of the reduced multiples is a^n times n factorial, modulo p. */
  lemma {:induction false} MultiplesProduct(a: nat, p: nat, n: nat)
    requires p > 0
    ensures Product(Multiples(a, p, n)) % p == (Pow(a, n) * Product(UpTo(n))) % p
    decreases n
  {
    if n == 0 {
      assert Multiples(a, p, 0) == [] && UpTo(0) == [];
    } else {
      MultiplesProduct(a, p, n - 1);
      var x, y := (a * n) % p, Product(Multiples(a, p, n - 1));
      assert Multiples(a, p, n) == Multiples(a, p, n - 1) + [x];
      ProductSnoc(Multiples(a, p, n - 1), x);
      assert UpTo(n) == UpTo(n - 1) + [n];
      ProductSnoc(UpTo(n - 1), n);
      MultiplesStep(y, Pow(a, n - 1), Product(UpTo(n - 1)), a, n, p);
    }
  }

  lemma MultiplesStep(y: int, u: int, v: int, a: int, n: int, p: nat)
    requires p > 0 && y % p == (u * v) % p
    ensures (y * ((a * n) % p)) % p == ((a * u) * (v * n)) % p
  {
    ModMul(y, a * n, p);
    ModOfMod(a * n, p);
    ModMul(y, (a * n) % p, p);
    ModMul(u * v, a * n, p);
    assert (u * v) * (a * n) == (a * u) * (v * n);
  }

  lemma {:induction false} FactorialUnit(p: nat, n: nat)
    requires Prime(p) && n < p
    ensures Product(UpTo(n)) > 0
    ensures Product(UpTo(n)) % p != 0
    decreases n
  {
    if n == 0 {
      assert UpTo(0) == [];
    } else {
      FactorialUnit(p, n - 1);
      hide Prime;
      assert UpTo(n) == UpTo(n - 1) + [n];
      var f := Product(UpTo(n - 1));
      ProductSnoc(UpTo(n - 1), n);
      assert f * n == n * f > 0;
      if (n * f) % p == 0 {
        SmallMod(n, p);
        EuclidLemma(p, n, f);
      }
    }
  }

  /** A factor that is a unit cancels from a congruence t*f = f. */
  lemma CancelUnit(p: nat, f: nat, t: int)
    requires Prime(p) && f % p != 0
    requires (t * f) % p == f % p
    ensures t % p == 1
  {
    EqualMod(f, t * f, p);
    assert t * f - f == f * (t - 1);
    EuclidLemma(p, f, t - 1);
    ModDifference(t, 1, p);
    SmallMod(1, p);
  }

  /** Fermat's little theorem. */
  lemma Fermat(p: nat, a: nat)
    requires Prime(p) && a % p != 0
    ensures Pow(a, p - 1) % p == 1
  {
    MultiplesPermute(a, p);
    ProductPermutation(Multiples(a, p, p - 1), UpTo(p - 1));
    MultiplesProduct(a, p, p - 1);
    FactorialUnit(p, p - 1);
    CancelUnit(p, Product(UpTo(p - 1)), Pow(a, p - 1));
  }
}
