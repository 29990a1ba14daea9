/**
 * The three parties run together over their six channel directions, in one
 * sequential schedule that respects every blocking receive: party 1 runs
 * until it must wait, then party 2, then party 3 (which never has to wait),
 * then parties 1 and 2 finish. Every receive in it finds its value waiting,
 * and, the directions being FIFO, finds the value the peer sent at that
 * position.
 */
module Protocol {
  import opened Field
  import opened Shares
  import opened Partials
  import opened Channels
  import opened Parties

  /** The two values random() returns to one call of get_secret_shares. */
  datatype Draws = Draws(first: nat, second: nat)

  /**
   * p1_share, p2_share and p3_share together. Afterwards every party holds
   * its own triple and, of each peer's triple, the pair that Route assigns
   * it; all directions are drained again.
   */
  method ShareRound(net: Network, x: int, y: int, z: int, dx: Draws, dy: Draws, dz: Draws)
    returns (a: seq<int>, p1FromP2: seq<int>, p1FromP3: seq<int>,
             b: seq<int>, p2FromP1: seq<int>, p2FromP3: seq<int>,
             c: seq<int>, p3FromP1: seq<int>, p3FromP2: seq<int>)
    requires net.Quiet()
    modifies net.Channels()
    ensures net.Quiet()
    ensures a == Split(x, dx.first, dx.second)
    ensures b == Split(y, dy.first, dy.second)
    ensures c == Split(z, dz.first, dz.second)
    ensures p1FromP2 == Held(b, Party2, Party1) && p1FromP3 == Held(c, Party3, Party1)
    ensures p2FromP1 == Held(a, Party1, Party2) && p2FromP3 == Held(c, Party3, Party2)
    ensures p3FromP1 == Held(a, Party1, Party3) && p3FromP2 == Held(b, Party2, Party3)
  {
    a := P1ShareSend(net, x, dx.first, dx.second);
    b, p2FromP1 := P2ShareFirst(net, y, dy.first, dy.second);
    c, p3FromP1, p3FromP2 := P3Share(net, z, dz.first, dz.second);
    p1FromP2, p1FromP3 := P1ShareRecv(net);
    p2FromP3 := P2ShareLast(net);
  }

  /**
   * The partial-sum round of p1_add, p2_add and p3_add. Each party ends with
   * the reconstruction of the same three partial sums: the one it formed and
   * the two its peers sent.
   */
  method AddRound(net: Network, a: seq<int>, p1FromP2: seq<int>, p1FromP3: seq<int>,
                  b: seq<int>, p2FromP1: seq<int>, p2FromP3: seq<int>,
                  c: seq<int>, p3FromP1: seq<int>, p3FromP2: seq<int>)
    returns (sum1: int, sum2: int, sum3: int)
    requires net.Quiet() && |a| == 3 && |b| == 3 && |c| == 3
    requires |p1FromP2| == 2 && |p1FromP3| == 2 && |p2FromP1| == 2
    requires |p2FromP3| == 2 && |p3FromP1| == 2 && |p3FromP2| == 2
    modifies net.Channels()
    ensures net.Quiet()
    ensures var total := FinalSum(P3PartialSum(c, p3FromP1, p3FromP2),
                                  P1PartialSum(a, p1FromP2, p1FromP3),
                                  P2PartialSum(b, p2FromP1, p2FromP3));
            sum1 == total && sum2 == total && sum3 == total
  {
    var shareSum2 := P1AddSend(net, a, p1FromP2, p1FromP3);
    var p2ShareSum2, p2ShareSum3 := P2AddFirst(net, b, p2FromP1, p2FromP3);
    sum3 := P3AddRun(net, c, p3FromP1, p3FromP2);
    sum1 := P1AddFinish(net, shareSum2);
    sum2 := P2AddFinish(net, p2ShareSum2, p2ShareSum3);
  }

  /**
   * p1_add, p2_add and p3_add run against each other: all three parties
   * return `(x + y + z) mod P`, whatever the draws.
   */
  method SecureAdd(net: Network, x: int, y: int, z: int, dx: Draws, dy: Draws, dz: Draws)
    returns (sum1: int, sum2: int, sum3: int)
    requires net.Quiet()
    modifies net.Channels()
    ensures net.Quiet()
    ensures sum1 == (x + y + z) % P && sum2 == sum1 && sum3 == sum1
  {
    var a, p1FromP2, p1FromP3, b, p2FromP1, p2FromP3, c, p3FromP1, p3FromP2 :=
      ShareRound(net, x, y, z, dx, dy, dz);
    sum1, sum2, sum3 := AddRound(net, a, p1FromP2, p1FromP3, b, p2FromP1, p2FromP3, c, p3FromP1, p3FromP2);
    AddCorrect(x, y, z, a, b, c);
  }

  /**
   * The local part of p1_mult, p2_mult and p3_mult: share the two factors
   * (party 3 shares 0) and form the three partial products, which add up,
   * modulo P, to `x * y`.
   */
  method MultShareRound(net: Network, x: int, y: int, dx: Draws, dy: Draws, dz: Draws)
    returns (productPartSum1: int, productPartSum2: int, productPartSum3: int)
    requires net.Quiet()
    modifies net.Channels()
    ensures net.Quiet()
    ensures (productPartSum1 + productPartSum2 + productPartSum3) % P == (x * y) % P
  {
    var a, p1FromP2, p1FromP3, b, p2FromP1, p2FromP3, c, p3FromP1, p3FromP2 :=
      ShareRound(net, x, y, 0, dx, dy, dz);
    productPartSum1 := P1PartialProduct(a, p1FromP2);
    productPartSum2 := P2PartialProduct(b, p2FromP1);
    productPartSum3 := P3PartialProduct(p3FromP1, p3FromP2);
    PartialProductsShareProduct(x, y, a, b);
  }

  /**
   * p1_mult, p2_mult and p3_mult run against each other: the partial
   * products are re-shared through secure addition, and all three parties
   * return `(x * y) mod P`, whatever the draws.
   */
  method SecureMult(net: Network, x: int, y: int, dx: Draws, dy: Draws, dz: Draws,
                    ex: Draws, ey: Draws, ez: Draws)
    returns (prod1: int, prod2: int, prod3: int)
    requires net.Quiet()
    modifies net.Channels()
    ensures net.Quiet()
    ensures prod1 == (x * y) % P && prod2 == prod1 && prod3 == prod1
  {
    var productPartSum1, productPartSum2, productPartSum3 := MultShareRound(net, x, y, dx, dy, dz);
    prod1, prod2, prod3 := SecureAdd(net, productPartSum1, productPartSum2, productPartSum3, ex, ey, ez);
  }

  /**
   * One session: each party first adds, then multiplies, over the same
   * socket pairs. `rand1`, `rand2` and `rand3` are the successive values
   * random() returns in each party's process; each party calls
   * get_secret_shares three times. Every party reports the sum of the three
   * inputs and the product of the first two, modulo P.
   */
  method RunSession(x: int, y: int, z: int, rand1: seq<nat>, rand2: seq<nat>, rand3: seq<nat>)
    returns (sum1: int, sum2: int, sum3: int, prod1: int, prod2: int, prod3: int)
    requires |rand1| >= 6 && |rand2| >= 6 && |rand3| >= 6
    ensures sum1 == (x + y + z) % P && sum2 == sum1 && sum3 == sum1
    ensures prod1 == (x * y) % P && prod2 == prod1 && prod3 == prod1
  {
    var net := new Network();
    sum1, sum2, sum3 := SecureAdd(net, x, y, z, Draws(rand1[0], rand1[1]), Draws(rand2[0], rand2[1]),
                                  Draws(rand3[0], rand3[1]));
    prod1, prod2, prod3 := SecureMult(net, x, y, Draws(rand1[2], rand1[3]), Draws(rand2[2], rand2[3]),
                                      Draws(rand3[2], rand3[3]), Draws(rand1[4], rand1[5]),
                                      Draws(rand2[4], rand2[5]), Draws(rand3[4], rand3[5]));
  }
}
