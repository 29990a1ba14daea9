/**
 * Splitting a secret into three additive shares, and the fixed table that
 * says which two of its three shares each party hands to each peer.
 */
module Shares {
  import opened Field

  /** The three fixed roles of the protocol. */
  datatype Party = Party1 | Party2 | Party3

  /** Zero-based number of a party: party k is number k - 1. */
  function Ordinal(p: Party): (r: nat)
    ensures r < 3
  {
    match p
    case Party1 => 0
    case Party2 => 1
    case Party3 => 2
  }

  /** `t` is a share triple of `secret`: three field elements whose sum is congruent to it. */
  predicate IsSharing(t: seq<int>, secret: int) {
    |t| == 3 && IsElement(t[0]) && IsElement(t[1]) && IsElement(t[2])
    && (t[0] + t[1] + t[2]) % P == secret % P
  }

  /**
   * The triple that get_secret_shares writes for `num`, when its two calls of
   * random() return `draw0` and `draw1`. The third share is C's remainder of
   * `num - s0 - s1`, moved up by P when that remainder is negative.
   */
  function Split(num: int, draw0: nat, draw1: nat): (t: seq<int>)
    ensures IsSharing(t, num)
  {
    var s0 := draw0 % P;
    var s1 := draw1 % P;
    var s2 := CMod(num - s0 - s1);
    ThirdShareCloses(num, s0, s1);
    [s0, s1, if s2 < 0 then s2 + P else s2]
  }

  /** The corrected third share is a field element that completes the sum to `num`. */
  lemma ThirdShareCloses(num: int, s0: int, s1: int)
    ensures var s2 := CMod(num - s0 - s1);
            var fixed := if s2 < 0 then s2 + P else s2;
            IsElement(fixed) && (s0 + s1 + fixed) % P == num % P
  {
    var d := num - s0 - s1;
    CorrectedCModIsMod(d);
    var q := d / P;
    assert d % P == d - P * q;
    ModShift(num, -q);
  }

  /** get_secret_shares: fills the caller's three-element array with the shares of `num`. */
  method GetSecretShares(num: int, draw0: nat, draw1: nat, shares: array<int>)
    requires shares.Length == 3
    modifies shares
    ensures shares[..] == Split(num, draw0, draw1)
  {
    shares[0] := draw0 % P;
    shares[1] := draw1 % P;
    shares[2] := CMod(num - shares[0] - shares[1]);
    if shares[2] < 0 {
      shares[2] := shares[2] + P;
    }
  }

  /**
   * The positions of `owner`'s triple that `owner` sends to `holder`, in the
   * order they are sent. Whoever the owner is, party k receives every position
   * except k - 1, so each peer lacks exactly one share of each other secret.
   */
  function Route(owner: Party, holder: Party): (r: (nat, nat))
    requires owner != holder
    ensures r.0 < r.1 < 3
    ensures {r.0, r.1} == {0, 1, 2} - {Ordinal(holder)}
  {
    match owner
    case Party1 => if holder == Party2 then (0, 2) else (0, 1)
    case Party2 => if holder == Party1 then (1, 2) else (0, 1)
    case Party3 => if holder == Party1 then (1, 2) else (0, 2)
  }

  /** The pair of `owner`'s shares `t` that `holder` receives, in receiving order. */
  function Held(t: seq<int>, owner: Party, holder: Party): (pair: seq<int>)
    requires |t| == 3 && owner != holder
    ensures |pair| == 2
  {
    [t[Route(owner, holder).0], t[Route(owner, holder).1]]
  }

  /** The multiset of a triple, as the union of its three shares. */
  lemma TripleMultiset(t: seq<int>)
    requires |t| == 3
    ensures multiset(t) == multiset{t[0]} + multiset{t[1]} + multiset{t[2]}
  {
    assert t == [t[0]] + [t[1]] + [t[2]];
  }

  /** The multiset of a pair, as the union of its two shares. */
  lemma PairMultiset(p: seq<int>)
    requires |p| == 2
    ensures multiset(p) == multiset{p[0]} + multiset{p[1]}
  {
    assert p == [p[0]] + [p[1]];
  }

  /**
   * What a holder receives of a triple is all of it but one share: the pair,
   * with the share at the holder's missing position, is the whole triple.
   */
  lemma HeldCompletesTriple(t: seq<int>, owner: Party, holder: Party)
    requires |t| == 3 && owner != holder
    ensures |Held(t, owner, holder)| == 2
    ensures multiset(Held(t, owner, holder)) + multiset{t[Ordinal(holder)]} == multiset(t)
  {
    var h := Held(t, owner, holder);
    TripleMultiset(t);
    PairMultiset(h);
    var r := Route(owner, holder);
    assert {r.0, r.1} == {0, 1, 2} - {Ordinal(holder)};
    assert r.0 != r.1 && r.0 != Ordinal(holder) && r.1 != Ordinal(holder);
  }

  /** Split on draws that are already field elements keeps them, and closes with the Euclidean remainder. */
  lemma SplitOfElements(num: int, s0: int, s1: int)
    requires IsElement(s0) && IsElement(s1)
    ensures Split(num, s0, s1) == [s0, s1, (num - s0 - s1) % P]
  {
    ElementModSelf(s0);
    ElementModSelf(s1);
    CorrectedCModIsMod(num - s0 - s1);
  }

  /**
   * Keeping share `keep` (a field element) and re-drawing the other random
   * share as below makes the third share come out as `third` for any secret.
   */
  lemma RedrawCloses(other: int, keep: int, third: int)
    requires IsElement(keep) && IsElement(third)
    ensures var redraw := (other - keep - third) % P;
            (other - redraw - keep) % P == third
  {
    var w := other - keep - third;
    assert w % P == w - P * (w / P);
    ModShift(third, w / P);
  }

  /**
   * Draws under which the split of `other` agrees with the split `t` of some
   * secret at every position except the one `holder` never receives.
   */
  lemma RedrawFor(t: seq<int>, holder: Party, other: int) returns (e0: nat, e1: nat)
    requires |t| == 3 && IsElement(t[0]) && IsElement(t[1]) && IsElement(t[2])
    ensures e0 < P && e1 < P
    ensures var u := Split(other, e0, e1);
            (holder != Party1 ==> u[0] == t[0]) && (holder != Party2 ==> u[1] == t[1])
            && (holder != Party3 ==> u[2] == t[2])
  {
    match holder
    case Party1 =>
      // Party 1 sees positions 1 and 2: re-draw position 0.
      e0, e1 := (other - t[1] - t[2]) % P, t[1];
      SplitOfElements(other, e0, e1);
      RedrawCloses(other, t[1], t[2]);
    case Party2 =>
      // Party 2 sees positions 0 and 2: re-draw position 1.
      e0, e1 := t[0], (other - t[0] - t[2]) % P;
      SplitOfElements(other, e0, e1);
      RedrawCloses(other, t[0], t[2]);
    case Party3 =>
      // Party 3 sees positions 0 and 1: keep both draws.
      e0, e1 := t[0], t[1];
      SplitOfElements(other, e0, e1);
  }

  /**
   * The two shares a peer holds of a secret fix nothing about it: for every
   * other secret there are draws under which get_secret_shares gives the
   * peer exactly the same pair.
   */
  lemma HeldPairFitsEverySecret(num: int, draw0: nat, draw1: nat, owner: Party, holder: Party, other: int)
    requires owner != holder
    ensures exists e0: nat, e1: nat :: e0 < P && e1 < P
              && Held(Split(other, e0, e1), owner, holder) == Held(Split(num, draw0, draw1), owner, holder)
  {
    var t := Split(num, draw0, draw1);
    var e0, e1 := RedrawFor(t, holder, other);
    var r := Route(owner, holder);
    assert r.0 != Ordinal(holder) && r.1 != Ordinal(holder);
    assert Split(other, e0, e1)[r.0] == t[r.0] && Split(other, e0, e1)[r.1] == t[r.1];
    assert Held(Split(other, e0, e1), owner, holder) == Held(t, owner, holder);
  }
}
