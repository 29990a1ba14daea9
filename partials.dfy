/**
 * The straight-line formulas each party evaluates on the shares it holds:
 * its partial sum in secure addition, its partial product in secure
 * multiplication, and the reconstruction of the result from the three
 * partial sums. Every `%` in them is C's remainder (`CMod`).
 */
module Partials {
  import opened Field
  import opened Shares

  /**
   * Party 1's `share_sum2`: position 1 of its own triple plus the position-1
   * shares that parties 2 and 3 sent it (the first of each received pair).
   */
  function P1PartialSum(own: seq<int>, fromP2: seq<int>, fromP3: seq<int>): (r: int)
    requires |own| == 3 && |fromP2| == 2 && |fromP3| == 2
    ensures own[1] >= 0 && fromP2[0] >= 0 && fromP3[0] >= 0 ==> IsElement(r)
  {
    CMod(own[1] + fromP2[0] + fromP3[0])
  }

  /**
   * Party 2's `share_sum3`: position 2 of its own triple plus the position-2
   * shares that parties 1 and 3 sent it (the second of each received pair).
   */
  function P2PartialSum(own: seq<int>, fromP1: seq<int>, fromP3: seq<int>): (r: int)
    requires |own| == 3 && |fromP1| == 2 && |fromP3| == 2
    ensures own[2] >= 0 && fromP1[1] >= 0 && fromP3[1] >= 0 ==> IsElement(r)
  {
    CMod(own[2] + fromP1[1] + fromP3[1])
  }

  /**
   * Party 3's `share_sum1`: position 0 of its own triple plus the position-0
   * shares that parties 1 and 2 sent it (the first of each received pair).
   */
  function P3PartialSum(own: seq<int>, fromP1: seq<int>, fromP2: seq<int>): (r: int)
    requires |own| == 3 && |fromP1| == 2 && |fromP2| == 2
    ensures own[0] >= 0 && fromP1[0] >= 0 && fromP2[0] >= 0 ==> IsElement(r)
  {
    CMod(own[0] + fromP1[0] + fromP2[0])
  }

  /** `final_sum`: every party reduces the three partial sums it has seen. */
  function FinalSum(shareSum1: int, shareSum2: int, shareSum3: int): (r: int)
    ensures shareSum1 >= 0 && shareSum2 >= 0 && shareSum3 >= 0 ==> IsElement(r)
  {
    CMod(shareSum1 + shareSum2 + shareSum3)
  }

  /**
   * Party 1's `product_part_sum1`, from its own triple of the first factor and
   * the pair of the second factor's shares that party 2 sent it.
   */
  function P1PartialProduct(own: seq<int>, fromP2: seq<int>): (r: int)
    requires |own| == 3 && |fromP2| == 2
    ensures own[1] >= 0 && own[2] >= 0 && fromP2[0] >= 0 && fromP2[1] >= 0 ==> IsElement(r)
  {
    CMod(own[1] * fromP2[0] + own[1] * fromP2[1] + own[2] * fromP2[0])
  }

  /**
   * Party 2's `product_part_sum2`, from its own triple of the second factor and
   * the pair of the first factor's shares that party 1 sent it.
   */
  function P2PartialProduct(own: seq<int>, fromP1: seq<int>): (r: int)
    requires |own| == 3 && |fromP1| == 2
    ensures own[0] >= 0 && own[2] >= 0 && fromP1[0] >= 0 && fromP1[1] >= 0 ==> IsElement(r)
  {
    CMod(fromP1[1] * own[2] + fromP1[0] * own[2] + fromP1[1] * own[0])
  }

  /**
   * Party 3's `product_part_sum3`, from the pairs of both factors' shares that
   * parties 1 and 2 sent it; party 3's own triple (of 0) takes no part.
   */
  function P3PartialProduct(fromP1: seq<int>, fromP2: seq<int>): (r: int)
    requires |fromP1| == 2 && |fromP2| == 2
    ensures fromP1[0] >= 0 && fromP1[1] >= 0 && fromP2[0] >= 0 && fromP2[1] >= 0 ==> IsElement(r)
  {
    CMod(fromP1[0] * fromP2[0] + fromP1[0] * fromP2[1] + fromP1[1] * fromP2[0])
  }

  /** Three C remainders add up, modulo P, to what their operands add up to. */
  lemma CModSum3(u: int, v: int, w: int)
    ensures (CMod(u) + CMod(v) + CMod(w)) % P == (u + v + w) % P
  {
    var ku, kv, kw := (u - CMod(u)) / P, (v - CMod(v)) / P, (w - CMod(w)) / P;
    assert u + v + w == CMod(u) + CMod(v) + CMod(w) + P * (ku + kv + kw);
    ModShift(CMod(u) + CMod(v) + CMod(w), ku + kv + kw);
  }

  /**
   * With the pairs routed as the share round routes them, the three partial
   * sums take each of the nine shares exactly once: together they are
   * congruent to the sum of the three triples.
   */
  lemma PartialSumsCover(a: seq<int>, b: seq<int>, c: seq<int>)
    requires |a| == 3 && |b| == 3 && |c| == 3
    ensures (P3PartialSum(c, Held(a, Party1, Party3), Held(b, Party2, Party3))
             + P1PartialSum(a, Held(b, Party2, Party1), Held(c, Party3, Party1))
             + P2PartialSum(b, Held(a, Party1, Party2), Held(c, Party3, Party2))) % P
            == (a[0] + a[1] + a[2] + b[0] + b[1] + b[2] + c[0] + c[1] + c[2]) % P
  {
    CModSum3(c[0] + a[0] + b[0], a[1] + b[1] + c[1], b[2] + a[2] + c[2]);
  }

  /**
   * Secure addition is correct: when `a`, `b` and `c` share `x`, `y` and `z`,
   * the value every party reconstructs from the three partial sums is
   * `(x + y + z) mod P`, whatever the triples are.
   */
  lemma AddCorrect(x: int, y: int, z: int, a: seq<int>, b: seq<int>, c: seq<int>)
    requires IsSharing(a, x) && IsSharing(b, y) && IsSharing(c, z)
    ensures FinalSum(P3PartialSum(c, Held(a, Party1, Party3), Held(b, Party2, Party3)),
                     P1PartialSum(a, Held(b, Party2, Party1), Held(c, Party3, Party1)),
                     P2PartialSum(b, Held(a, Party1, Party2), Held(c, Party3, Party2)))
            == (x + y + z) % P
  {
    var s1 := P3PartialSum(c, Held(a, Party1, Party3), Held(b, Party2, Party3));
    var s2 := P1PartialSum(a, Held(b, Party2, Party1), Held(c, Party3, Party1));
    var s3 := P2PartialSum(b, Held(a, Party1, Party2), Held(c, Party3, Party2));
    PartialSumsCover(a, b, c);
    AddCongruent(a[0] + a[1] + a[2], x, b[0] + b[1] + b[2], y);
    AddCongruent(a[0] + a[1] + a[2] + b[0] + b[1] + b[2], x + y, c[0] + c[1] + c[2], z);
    CorrectedCModIsMod(s1 + s2 + s3);
  }

  /**
   * With the pairs routed as the share round routes them, the three partial
   * products take each cross-term `a[i] * b[j]` exactly once: together they
   * are congruent to the product of the two triples' sums.
   */
  lemma CrossTermsCover(a: seq<int>, b: seq<int>)
    requires |a| == 3 && |b| == 3
    ensures (P1PartialProduct(a, Held(b, Party2, Party1))
             + P2PartialProduct(b, Held(a, Party1, Party2))
             + P3PartialProduct(Held(a, Party1, Party3), Held(b, Party2, Party3))) % P
            == ((a[0] + a[1] + a[2]) * (b[0] + b[1] + b[2])) % P
  {
    var u1 := a[1] * b[1] + a[1] * b[2] + a[2] * b[1];
    var u2 := a[2] * b[2] + a[0] * b[2] + a[2] * b[0];
    var u3 := a[0] * b[0] + a[0] * b[1] + a[1] * b[0];
    assert P1PartialProduct(a, Held(b, Party2, Party1)) == CMod(u1);
    assert P2PartialProduct(b, Held(a, Party1, Party2)) == CMod(u2);
    assert P3PartialProduct(Held(a, Party1, Party3), Held(b, Party2, Party3)) == CMod(u3);
    assert u1 + u2 + u3 == (a[0] + a[1] + a[2]) * (b[0] + b[1] + b[2]);
    CModSum3(u1, u2, u3);
  }

  /**
   * Local multiplication is correct: when `a` and `b` share `x` and `y`, the
   * three partial products add up, modulo P, to `x * y`. Party 3's own
   * shares do not enter.
   */
  lemma PartialProductsShareProduct(x: int, y: int, a: seq<int>, b: seq<int>)
    requires IsSharing(a, x) && IsSharing(b, y)
    ensures (P1PartialProduct(a, Held(b, Party2, Party1))
             + P2PartialProduct(b, Held(a, Party1, Party2))
             + P3PartialProduct(Held(a, Party1, Party3), Held(b, Party2, Party3))) % P
            == (x * y) % P
  {
    CrossTermsCover(a, b);
    MulCongruent(a[0] + a[1] + a[2], x, b[0] + b[1] + b[2], y);
  }
}
