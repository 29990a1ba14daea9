/**
 * Arithmetic modulo the protocol's fixed prime, together with the C
 * remainder operator that the shares are computed with.
 */
module Field {
  /** The prime modulus of every share computation (unixsock.c:10). */
  const P: int := 23

  /** A value the protocol stores or transmits: an integer in [0, P). */
  predicate IsElement(v: int) {
    0 <= v < P
  }

  /**
   * C's `a % P` on a signed `int`. C divides truncating toward zero, so the
   * remainder is smaller than P in magnitude, has the sign of `a`, and differs
   * from `a` by a multiple of P. Dafny's own `%` is Euclidean and never negative.
   */
  function CMod(a: int): (r: int)
    ensures -P < r < P
    ensures a >= 0 ==> r >= 0
    ensures a <= 0 ==> r <= 0
    ensures (a - r) % P == 0
  {
    if a >= 0 then a % P else -((-a) % P)
  }

  /**
   * Adding P to a negative C remainder, as the share generator does, yields
   * exactly the Euclidean remainder. On a non-negative operand no correction
   * happens and the two remainders already agree.
   */
  lemma CorrectedCModIsMod(a: int)
    ensures (if CMod(a) < 0 then CMod(a) + P else CMod(a)) == a % P
    ensures a >= 0 ==> CMod(a) == a % P
  {
    var r := CMod(a);
    var q := (a - r) / P;
    assert a == r + P * q;
    if r < 0 {
      ModShift(r + P, q - 1);
    } else {
      ModShift(r, q);
    }
  }

  /** A field element is its own remainder. */
  lemma ElementModSelf(v: int)
    requires IsElement(v)
    ensures v % P == v
  {
  }

  /** Adding a multiple of P does not change the remainder. */
  lemma ModShift(a: int, t: int)
    ensures (a + P * t) % P == a % P
  {
  }

  /** Sums respect congruence modulo P. */
  lemma AddCongruent(u: int, x: int, v: int, y: int)
    requires u % P == x % P && v % P == y % P
    ensures (u + v) % P == (x + y) % P
  {
    var k := u / P - x / P;
    var m := v / P - y / P;
    assert u == x + P * k;
    assert v == y + P * m;
    ModShift(x + y, k + m);
  }

  /** Products respect congruence modulo P. */
  lemma MulCongruent(u: int, x: int, v: int, y: int)
    requires u % P == x % P && v % P == y % P
    ensures (u * v) % P == (x * y) % P
  {
    var k := u / P - x / P;
    var m := v / P - y / P;
    assert u == x + P * k;
    assert v == y + P * m;
    assert u * v == x * y + P * (x * m + k * y + P * k * m);
    ModShift(x * y, x * m + k * y + P * k * m);
  }
}
