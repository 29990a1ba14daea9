/**
 * The code each party runs, cut at the receives that would block in the
 * schedule the protocol is replayed in. Each method is one stretch of a
 * party's C function, in the C function's order. A party's own share triple
 * is written into a three-element array by GetSecretShares; each pair it
 * receives is returned as a two-element sequence. Party k's socket to party
 * j is the pair of directions `net.ckj` (its sends) and `net.cjk` (its
 * receives); a method modifies only the directions it writes to or reads from.
 */
module Parties {
  import opened Field
  import opened Shares
  import opened Partials
  import opened Channels

  // ---- Share round ----

  /** p1_share up to its first receive: split the secret, send the pairs to parties 2 and 3. */
  method P1ShareSend(net: Network, num: int, draw0: nat, draw1: nat) returns (shares: seq<int>)
    requires net.Valid()
    modifies net.c12, net.c13
    ensures shares == Split(num, draw0, draw1)
    ensures net.c12.queue == old(net.c12.queue) + Held(shares, Party1, Party2)
    ensures net.c13.queue == old(net.c13.queue) + Held(shares, Party1, Party3)
  {
    var p1Shares := new int[3];
    GetSecretShares(num, draw0, draw1, p1Shares);
    net.c12.SendPair(p1Shares[0], p1Shares[2]);
    net.c13.SendPair(p1Shares[0], p1Shares[1]);
    shares := p1Shares[..];
  }

  /** The rest of p1_share: receive the pairs of party 2's and party 3's shares. */
  method P1ShareRecv(net: Network) returns (fromP2: seq<int>, fromP3: seq<int>)
    requires net.Valid() && |net.c21.queue| >= 2 && |net.c31.queue| >= 2
    modifies net.c21, net.c31
    ensures fromP2 == old(net.c21.queue)[..2] && net.c21.queue == old(net.c21.queue)[2..]
    ensures fromP3 == old(net.c31.queue)[..2] && net.c31.queue == old(net.c31.queue)[2..]
  {
    fromP2 := net.c21.RecvPair();
    fromP3 := net.c31.RecvPair();
  }

  /** p2_share up to its receive from party 3: split, take party 1's pair, send own pairs. */
  method P2ShareFirst(net: Network, num: int, draw0: nat, draw1: nat) returns (shares: seq<int>, fromP1: seq<int>)
    requires net.Valid() && |net.c12.queue| >= 2
    modifies net.c12, net.c21, net.c23
    ensures shares == Split(num, draw0, draw1)
    ensures fromP1 == old(net.c12.queue)[..2] && net.c12.queue == old(net.c12.queue)[2..]
    ensures net.c21.queue == old(net.c21.queue) + Held(shares, Party2, Party1)
    ensures net.c23.queue == old(net.c23.queue) + Held(shares, Party2, Party3)
  {
    var p2Shares := new int[3];
    GetSecretShares(num, draw0, draw1, p2Shares);
    fromP1 := net.c12.RecvPair();
    net.c21.SendPair(p2Shares[1], p2Shares[2]);
    net.c23.SendPair(p2Shares[0], p2Shares[1]);
    shares := p2Shares[..];
  }

  /** The rest of p2_share: receive the pair of party 3's shares. */
  method P2ShareLast(net: Network) returns (fromP3: seq<int>)
    requires net.Valid() && |net.c32.queue| >= 2
    modifies net.c32
    ensures fromP3 == old(net.c32.queue)[..2] && net.c32.queue == old(net.c32.queue)[2..]
  {
    fromP3 := net.c32.RecvPair();
  }

  /** p3_share, which runs through once both peers have sent: split, receive both pairs, send own pairs. */
  method P3Share(net: Network, num: int, draw0: nat, draw1: nat)
    returns (shares: seq<int>, fromP1: seq<int>, fromP2: seq<int>)
    requires net.Valid() && |net.c13.queue| >= 2 && |net.c23.queue| >= 2
    modifies net.c13, net.c23, net.c31, net.c32
    ensures shares == Split(num, draw0, draw1)
    ensures fromP1 == old(net.c13.queue)[..2] && net.c13.queue == old(net.c13.queue)[2..]
    ensures fromP2 == old(net.c23.queue)[..2] && net.c23.queue == old(net.c23.queue)[2..]
    ensures net.c31.queue == old(net.c31.queue) + Held(shares, Party3, Party1)
    ensures net.c32.queue == old(net.c32.queue) + Held(shares, Party3, Party2)
  {
    var p3Shares := new int[3];
    GetSecretShares(num, draw0, draw1, p3Shares);
    fromP1 := net.c13.RecvPair();
    fromP2 := net.c23.RecvPair();
    net.c31.SendPair(p3Shares[1], p3Shares[2]);
    net.c32.SendPair(p3Shares[0], p3Shares[2]);
    shares := p3Shares[..];
  }

  // ---- Partial-sum round of secure addition ----

  /** p1_add after its shares arrived: form `share_sum2` and send it to both peers. */
  method P1AddSend(net: Network, own: seq<int>, fromP2: seq<int>, fromP3: seq<int>) returns (shareSum2: int)
    requires net.Valid() && |own| == 3 && |fromP2| == 2 && |fromP3| == 2
    modifies net.c12, net.c13
    ensures shareSum2 == P1PartialSum(own, fromP2, fromP3)
    ensures net.c12.queue == old(net.c12.queue) + [shareSum2]
    ensures net.c13.queue == old(net.c13.queue) + [shareSum2]
  {
    shareSum2 := P1PartialSum(own, fromP2, fromP3);
    net.c12.Send(shareSum2);
    net.c13.Send(shareSum2);
  }

  /** The rest of p1_add: receive `share_sum3` from party 2 and `share_sum1` from party 3, reconstruct. */
  method P1AddFinish(net: Network, shareSum2: int) returns (finalSum: int)
    requires net.Valid() && net.c21.queue != [] && net.c31.queue != []
    modifies net.c21, net.c31
    ensures finalSum == FinalSum(old(net.c31.queue)[0], shareSum2, old(net.c21.queue)[0])
    ensures net.c21.queue == old(net.c21.queue)[1..] && net.c31.queue == old(net.c31.queue)[1..]
  {
    var shareSum3 := net.c21.Recv();
    var shareSum1 := net.c31.Recv();
    finalSum := FinalSum(shareSum1, shareSum2, shareSum3);
  }

  /** p2_add after its shares arrived: receive `share_sum2`, form `share_sum3` and send it to both peers. */
  method P2AddFirst(net: Network, own: seq<int>, fromP1: seq<int>, fromP3: seq<int>)
    returns (shareSum2: int, shareSum3: int)
    requires net.Valid() && |own| == 3 && |fromP1| == 2 && |fromP3| == 2 && net.c12.queue != []
    modifies net.c12, net.c21, net.c23
    ensures shareSum2 == old(net.c12.queue)[0] && net.c12.queue == old(net.c12.queue)[1..]
    ensures shareSum3 == P2PartialSum(own, fromP1, fromP3)
    ensures net.c21.queue == old(net.c21.queue) + [shareSum3]
    ensures net.c23.queue == old(net.c23.queue) + [shareSum3]
  {
    shareSum2 := net.c12.Recv();
    shareSum3 := P2PartialSum(own, fromP1, fromP3);
    net.c21.Send(shareSum3);
    net.c23.Send(shareSum3);
  }

  /** The rest of p2_add: receive `share_sum1` from party 3, reconstruct. */
  method P2AddFinish(net: Network, shareSum2: int, shareSum3: int) returns (finalSum: int)
    requires net.Valid() && net.c32.queue != []
    modifies net.c32
    ensures finalSum == FinalSum(old(net.c32.queue)[0], shareSum2, shareSum3)
    ensures net.c32.queue == old(net.c32.queue)[1..]
  {
    var shareSum1 := net.c32.Recv();
    finalSum := FinalSum(shareSum1, shareSum2, shareSum3);
  }

  /**
   * p3_add after its shares arrived, which runs through once both peers have
   * sent: receive `share_sum2` and `share_sum3`, form `share_sum1`, send it
   * to both peers, reconstruct.
   */
  method P3AddRun(net: Network, own: seq<int>, fromP1: seq<int>, fromP2: seq<int>) returns (finalSum: int)
    requires net.Valid() && |own| == 3 && |fromP1| == 2 && |fromP2| == 2
    requires net.c13.queue != [] && net.c23.queue != []
    modifies net.c13, net.c23, net.c31, net.c32
    ensures var shareSum1 := P3PartialSum(own, fromP1, fromP2);
            finalSum == FinalSum(shareSum1, old(net.c13.queue)[0], old(net.c23.queue)[0])
            && net.c31.queue == old(net.c31.queue) + [shareSum1]
            && net.c32.queue == old(net.c32.queue) + [shareSum1]
    ensures net.c13.queue == old(net.c13.queue)[1..] && net.c23.queue == old(net.c23.queue)[1..]
  {
    var shareSum2 := net.c13.Recv();
    var shareSum3 := net.c23.Recv();
    var shareSum1 := P3PartialSum(own, fromP1, fromP2);
    net.c31.Send(shareSum1);
    net.c32.Send(shareSum1);
    finalSum := FinalSum(shareSum1, shareSum2, shareSum3);
  }
}
