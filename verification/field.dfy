/** Arithmetic in the scalar field of the circuit. A field element is represented
    by any integer and read modulo the field order `p`; the operations return the
    canonical representative in [0, p). Nothing is assumed about `p` beyond p > 1,
    so the lemmas hold for the BN256 scalar field and for any other modulus. */
module Field {

  /** `a` and `b` denote the same field element. */
  predicate Cong(p: int, a: int, b: int)
    requires p > 1
  {
    a % p == b % p
  }

  /** Field addition. */
  function Add(p: int, a: int, b: int): (r: int)
    requires p > 1
    ensures 0 <= r < p
  {
    (a + b) % p
  }

  /** Field multiplication. */
  function Mul(p: int, a: int, b: int): (r: int)
    requires p > 1
    ensures 0 <= r < p
  {
    (a * b) % p
  }

  /** The Euclidean remainder is the only remainder in [0, p). */
  lemma ModUnique(p: int, x: int, q: int, r: int)
    requires p > 1
    requires x == q * p + r && 0 <= r < p
    ensures x % p == r
  {
    var d := q - x / p;
    assert d * p == x % p - r;
  }

  /** Adding a multiple of p does not change the element. */
  lemma ModShift(p: int, x: int, k: int)
    requires p > 1
    ensures (x + k * p) % p == x % p
  {
    assert x + k * p == (x / p + k) * p + x % p;
    ModUnique(p, x + k * p, x / p + k, x % p);
  }

  /** A canonical representative is its own remainder. */
  lemma ModCanonical(p: int, x: int)
    requires p > 1 && 0 <= x < p
    ensures x % p == x
  {
    ModUnique(p, x, 0, x);
  }

  /** Reduction commutes with addition. */
  lemma ModAdd(p: int, a: int, b: int)
    requires p > 1
    ensures (a + b) % p == (a % p + b % p) % p
  {
    assert a + b == (a % p + b % p) + (a / p + b / p) * p;
    ModShift(p, a % p + b % p, a / p + b / p);
  }

  /** Reduction commutes with multiplication. */
  lemma ModMul(p: int, a: int, b: int)
    requires p > 1
    ensures (a * b) % p == ((a % p) * (b % p)) % p
  {
    var qa, ra, qb, rb := a / p, a % p, b / p, b % p;
    calc {
      a * b;
    == { assert a == qa * p + ra; }
      (qa * p + ra) * b;
    ==
      qa * p * b + ra * b;
    == { assert b == qb * p + rb; }
      qa * p * b + ra * (qb * p + rb);
    ==
      qa * p * b + ra * qb * p + ra * rb;
    ==
      ra * rb + (qa * b + ra * qb) * p;
    }
    ModShift(p, ra * rb, qa * b + ra * qb);
  }

  lemma CongAdd(p: int, a: int, a': int, b: int, b': int)
    requires p > 1
    requires Cong(p, a, a') && Cong(p, b, b')
    ensures Cong(p, a + b, a' + b')
  {
    ModAdd(p, a, b);
    ModAdd(p, a', b');
  }

  lemma CongMul(p: int, a: int, a': int, b: int, b': int)
    requires p > 1
    requires Cong(p, a, a') && Cong(p, b, b')
    ensures Cong(p, a * b, a' * b')
  {
    ModMul(p, a, b);
    ModMul(p, a', b');
  }

  /** x - y is the zero element exactly when x and y denote the same element. */
  lemma ZeroIffCong(p: int, x: int, y: int)
    requires p > 1
    ensures (x - y) % p == 0 <==> Cong(p, x, y)
  {
    var s, t := (x - y) % p, y % p;
    ModAdd(p, x - y, y);
    assert x % p == (s + t) % p;
    if s == 0 {
      ModCanonical(p, t);
    } else if s + t < p {
      ModCanonical(p, s + t);
    } else {
      ModUnique(p, s + t, 1, s + t - p);
    }
  }
}
