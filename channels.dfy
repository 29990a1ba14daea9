/**
 * The transport between the parties: three Unix stream socket pairs, that is
 * six one-way directions, each carrying `int`s in FIFO order.
 */
module Channels {
  import opened Shares

  /** A direction of a socket pair: it carries `from`'s values to `to`. */
  datatype Link = Link(from: Party, to: Party)

  /** One direction, as the queue of values written and not yet read. */
  class Channel {
    const link: Link
    var queue: seq<int>

    constructor (link: Link)
      ensures this.link == link && queue == []
    {
      this.link, queue := link, [];
    }

    /** send_num: appends `x` behind everything already written. */
    method Send(x: int)
      modifies this
      ensures queue == old(queue) + [x]
    {
      queue := queue + [x];
    }

    /**
     * recv_num: a blocking read, so the model issues it only when a value is
     * waiting; it takes the oldest value written and not yet read.
     */
    method Recv() returns (x: int)
      requires queue != []
      modifies this
      ensures x == old(queue)[0] && queue == old(queue)[1..]
    {
      x := queue[0];
      queue := queue[1..];
    }

    /** Two successive send_num calls on this direction. */
    method SendPair(first: int, second: int)
      modifies this
      ensures queue == old(queue) + [first, second]
    {
      Send(first);
      Send(second);
    }

    /** Two successive recv_num calls on this direction, returned in the order read. */
    method RecvPair() returns (pair: seq<int>)
      requires |queue| >= 2
      modifies this
      ensures pair == old(queue)[..2] && queue == old(queue)[2..]
    {
      var first := Recv();
      var second := Recv();
      pair := [first, second];
    }
  }

  /** The six directions among the three parties; `cIJ` carries party I's values to party J. */
  class Network {
    const c12: Channel
    const c21: Channel
    const c13: Channel
    const c31: Channel
    const c23: Channel
    const c32: Channel

    ghost function Channels(): set<object> {
      {c12, c21, c13, c31, c23, c32}
    }

    /** Each field holds the direction it is named after, so the six are distinct objects. */
    ghost predicate Valid() {
      (c12.link, c21.link, c13.link, c31.link, c23.link, c32.link)
      == (Link(Party1, Party2), Link(Party2, Party1), Link(Party1, Party3),
          Link(Party3, Party1), Link(Party2, Party3), Link(Party3, Party2))
    }

    /** Between protocol rounds: nothing is waiting in any direction. */
    ghost predicate Quiet()
      reads Channels()
    {
      Valid() && (c12.queue, c21.queue, c13.queue, c31.queue, c23.queue, c32.queue) == ([], [], [], [], [], [])
    }

    /** socketpair, three times: six fresh, empty directions. */
    constructor ()
      ensures Quiet() && fresh(Channels())
    {
      c12 := new Channel(Link(Party1, Party2));
      c21 := new Channel(Link(Party2, Party1));
      c13 := new Channel(Link(Party1, Party3));
      c31 := new Channel(Link(Party3, Party1));
      c23 := new Channel(Link(Party2, Party3));
      c32 := new Channel(Link(Party3, Party2));
    }
  }
}
