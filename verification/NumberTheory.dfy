/** Divisibility facts behind the period of the sender's window pointer. */
module NumberTheory {

  ghost predicate Divides(d: int, n: int) {
    exists c: int :: n == d * c
  }

  lemma Witness(d: int, n: int, c: int)
    requires n == d * c
    ensures Divides(d, n)
  {
  }

  function Gcd(a: nat, b: nat): nat
    decreases b
  {
    if b == 0 then a else Gcd(b, a % b)
  }

  lemma Distribute(a: int, b: int, c: int)
    ensures (a + b) * c == a * c + b * c && c * (a + b) == c * a + c * b
  {
  }

  lemma Associate(a: int, b: int, c: int)
    ensures (a * b) * c == a * (b * c) == b * (a * c)
  {
  }

  lemma MulBound(k: int, d: int)
    requires d > 0
    ensures k >= 1 ==> k * d >= d
    ensures k <= -1 ==> k * d <= -d
  {
    if k >= 1 {
      assert (k - 1) * d >= 0;
    } else if k <= -1 {
      assert (-k - 1) * d >= 0;
    }
  }

  /** A multiple of d smaller than d in size is zero. */
  lemma SmallMultiple(k: int, d: int, v: int)
    requires d > 0 && v == k * d && -d < v < d
    ensures v == 0 && k == 0
  {
    MulBound(k, d);
  }

  /** One step of Euclid's algorithm on the cofactors. */
  lemma CofactorStep(g: int, q: int, b: int, r: int, b': int, r': int)
    requires b == g * b' && r == g * r'
    ensures b * q + r == g * (b' * q + r')
  {
    Associate(g, b', q);
    Distribute(b' * q, r', g);
  }

  /** One step of Euclid's algorithm on the coefficients. */
  lemma CoefficientStep(q: int, b: int, r: int, x: int, y: int)
    ensures y * (b * q + r) + (x - q * y) * b == x * b + y * r
  {
    Distribute(b * q, r, y);
    Distribute(x, -(q * y), b);
    Associate(q, y, b);
    Associate(y, b, q);
    assert -(q * y) * b == -((q * y) * b);
  }

  /** The greatest common divisor divides both numbers and is a combination of them. */
  lemma {:induction false} Bezout(a: nat, b: nat) returns (a': int, b': int, x: int, y: int)
    ensures a == Gcd(a, b) * a' && b == Gcd(a, b) * b'
    ensures x * a + y * b == Gcd(a, b)
    decreases b
  {
    if b == 0 {
      a', b', x, y := 1, 0, 1, 0;
    } else {
      var q, r := a / b, a % b;
      assert a == b * q + r;
      var b1, r1, x1, y1 := Bezout(b, r);
      CofactorStep(Gcd(b, r), q, b, r, b1, r1);
      CoefficientStep(q, b, r, x1, y1);
      a', b', x, y := b1 * q + r1, b1, y1, x1 - q * y1;
    }
  }

  /** The remainder is the only number of its kind below d. */
  lemma ModIs(a: int, d: int, q: int, r: int)
    requires d > 0 && a == q * d + r && 0 <= r < d
    ensures a % d == r && a / d == q
  {
    var q', r' := a / d, a % d;
    assert a == q' * d + r';
    Distribute(q', -q, d);
    assert -q * d == -(q * d);
    SmallMultiple(q' - q, d, r - r');
  }

  /** Equal remainders are the same as a difference that is a multiple. */
  lemma ModEqual(a: int, b: int, d: int)
    requires d > 0
    ensures a % d == b % d <==> Divides(d, a - b)
  {
    var qa, qb := a / d, b / d;
    assert a == d * qa + a % d && b == d * qb + b % d;
    if a % d == b % d {
      Distribute(qa, -qb, d);
      assert d * -qb == -(d * qb);
      Witness(d, a - b, qa - qb);
    }
    if Divides(d, a - b) {
      var c :| a - b == d * c;
      Distribute(qb, c, d);
      ModIs(a, d, qb + c, b % d);
    }
  }

  lemma CancelLeft(g: int, a: int, b: int)
    requires g >= 1 && g * a == g * b
    ensures a == b
  {
    Distribute(a, -b, g);
    assert g * -b == -(g * b);
    MulBound(a - b, g);
  }

  /** A factor coprime to t (s*t + y*m == 1) can be cancelled. */
  lemma Cancel(t: int, m: int, s: int, y: int, n: int)
    requires s * t + y * m == 1
    requires Divides(t, n * m)
    ensures Divides(t, n)
  {
    var c :| n * m == t * c;
    Distribute(s * t, y * m, n);
    Associate(n, s, t);
    Associate(n, y, m);
    Associate(y, t, c);
    Distribute(n * s, y * c, t);
    Witness(t, n, n * s + y * c);
  }

  /** Factors that differ by a multiple of d, once multiplied, leave the same remainder. */
  lemma ModShift(a: int, b: int, m: int, d: int)
    requires d > 0
    ensures (a * m) % d == (b * m) % d <==> Divides(d, (a - b) * m)
  {
    Distribute(a, 0 - b, m);
    assert (0 - b) * m == -(b * m);
    ModEqual(a * m, b * m, d);
  }

  /** A common factor of u and d divides the remainder. */
  lemma Residue(u: int, d: int, g: int, a: int, t: int)
    requires d > 0 && u == g * a && d == g * t
    ensures Divides(g, u % d)
  {
    var q, r := u / d, u % d;
    assert u == d * q + r;
    Associate(g, t, q);
    Distribute(a, 0 - t * q, g);
    assert g * (0 - t * q) == -(g * (t * q));
    Witness(g, r, a - t * q);
  }
}
