/**
 What an exchange counts, from what the ranks have sent. Every rank has queued the first hops of its items; packets
 that arrive in a stage may be queued again for the next one; and the count a rank gets back is zero exactly when no
 rank had anything to send.
 */
module ExchangeCounts {
  import opened Network
  import opened Routing
  import opened Exchange
  import opened Mailbox
  import opened ExchangeTotals

  /** One item list for every rank: what it sent since the last exchange. */
  ghost predicate Sending(net: Net, items: seq<seq<Item>>) {
    && net.Valid() && |items| == net.Size()
    && forall r, i | 0 <= r < |items| && 0 <= i < |items[r]| :: Sendable(net, r, items[r][i])
  }

  ghost predicate Sendable(net: Net, r: nat, item: Item) {
    ValidItem(net, item) && item.src == r && (item.Bcast? ==> net.Size() >= 2)
  }

  function Flat(qs: seq<seq<Packet>>): seq<Packet> {
    if qs == [] then [] else Flat(qs[..|qs| - 1]) + qs[|qs| - 1]
  }

  /** What rank r queues again, of all packets under way in a stage. */
  function Onwards(route: Route, net: Net, stage: nat, ps: seq<Packet>, r: nat): seq<Packet>
    requires net.cores > 0
  {
    if ps == [] then []
    else
      var p := ps[|ps| - 1];
      Onwards(route, net, stage, ps[..|ps| - 1], r) + if p.to == r then Forwarded(route, net, stage, p) else []
  }

  // Queues of the three stages when each starts

  function Firsts(route: Route, net: Net, items: seq<seq<Item>>): (qs: seq<seq<Packet>>)
    requires net.cores > 0
    ensures |qs| == |items|
  {
    seq(|items|, (r: nat) requires r < |items| => InjectAll(route, net, items[r]).first)
  }

  function Remotes(route: Route, net: Net, items: seq<seq<Item>>): (qs: seq<seq<Packet>>)
    requires net.cores > 0
    ensures |qs| == |items|
  {
    var first := Flat(Firsts(route, net, items));
    seq(|items|, (r: nat) requires r < |items| =>
      InjectAll(route, net, items[r]).remote + Onwards(route, net, 0, first, r))
  }

  function Seconds(route: Route, net: Net, items: seq<seq<Item>>): (qs: seq<seq<Packet>>)
    requires net.cores > 0
    ensures |qs| == |items|
  {
    var remote := Flat(Remotes(route, net, items));
    seq(|items|, (r: nat) requires r < |items| =>
      InjectAll(route, net, items[r]).second + Onwards(route, net, 1, remote, r))
  }

  function Lengths(qs: seq<seq<Packet>>): (ns: seq<nat>)
    ensures |ns| == |qs| && forall r | 0 <= r < |qs| :: ns[r] == |qs[r]|
  {
    seq(|qs|, (r: nat) requires r < |qs| => |qs[r]|)
  }

  /** The send count of a mailbox when it enters the exchange. */
  function SendCounts(route: Route, net: Net, items: seq<seq<Item>>): (ns: seq<nat>)
    requires net.cores > 0
    ensures |ns| == |items|
    ensures forall r | 0 <= r < |items| ::
              ns[r] == |InjectAll(route, net, items[r]).first + InjectAll(route, net, items[r]).remote| + |InjectAll(route, net, items[r]).second|
  {
    seq(|items|, (r: nat) requires r < |items| =>
      var q := InjectAll(route, net, items[r]);
      |q.first| + |q.remote| + |q.second|)
  }

  function Returns(route: Route, net: Net, items: seq<seq<Item>>): (t: seq<nat>)
    requires net.cores > 0
    ensures |t| == net.Size()
  {
    Totals(route, net, Lengths(Firsts(route, net, items)), Lengths(Remotes(route, net, items)),
           Lengths(Seconds(route, net, items)), SendCounts(route, net, items))
  }

  lemma {:induction false} FlatEmpty(qs: seq<seq<Packet>>)
    requires forall r | 0 <= r < |qs| :: qs[r] == []
    ensures Flat(qs) == []
  {
    if qs != [] {
      FlatEmpty(qs[..|qs| - 1]);
    }
  }

  /** Something was sent iff something is queued. */
  lemma {:induction false} SentIffQueued(route: Route, net: Net, items: seq<seq<Item>>, r: nat)
    requires Sending(net, items) && r < |items|
    ensures SendCounts(route, net, items)[r] == 0 <==> items[r] == []
  {
    hide Inject;
    if items[r] != [] {
      var last := items[r][|items[r]| - 1];
      assert Sendable(net, r, last);
      InjectQueues(route, net, last);
    }
  }

  lemma {:induction false} NothingOnwards(route: Route, net: Net, items: seq<seq<Item>>)
    requires net.cores > 0 && forall r | 0 <= r < |items| :: items[r] == []
    ensures AllZero(Lengths(Firsts(route, net, items))) && AllZero(Lengths(Remotes(route, net, items)))
    ensures AllZero(Lengths(Seconds(route, net, items))) && AllZero(SendCounts(route, net, items))
  {
    hide Inject, Forwarded;
    FlatEmpty(Firsts(route, net, items));
    FlatEmpty(Remotes(route, net, items));
  }

  /** The direct mailbox has one stage. */
  lemma {:induction false} DirectQueues(net: Net, items: seq<Item>)
    requires net.cores > 0
    ensures InjectAll(Noroute, net, items).first == [] && InjectAll(Noroute, net, items).second == []
  {
    if items != [] {
      DirectQueues(net, items[..|items| - 1]);
    }
  }

  lemma {:induction false} DirectCounts(net: Net, items: seq<seq<Item>>)
    requires net.cores > 0
    ensures Lengths(Remotes(Noroute, net, items)) == SendCounts(Noroute, net, items)
  {
    hide InjectAll;
    forall r: nat | r < |items|
      ensures InjectAll(Noroute, net, items[r]).first == [] && InjectAll(Noroute, net, items[r]).second == []
    {
      DirectQueues(net, items[r]);
    }
    FlatEmpty(Firsts(Noroute, net, items));
  }

  /** The count of an exchange is zero, on any one rank, iff no rank had sent anything. */
  lemma {:induction false} ZeroIffNothingSent(route: Route, net: Net, items: seq<seq<Item>>, r: nat)
    requires Sending(net, items) && r < net.Size()
    ensures Returns(route, net, items)[r] == 0 <==> forall x | 0 <= x < |items| :: items[x] == []
  {
    hide Totals, Firsts, Remotes, Seconds, Lengths, SendCounts, Net.Size;
    var first, remote := Lengths(Firsts(route, net, items)), Lengths(Remotes(route, net, items));
    var second, sent := Lengths(Seconds(route, net, items)), SendCounts(route, net, items);
    if forall x | 0 <= x < |items| :: items[x] == [] {
      NothingOnwards(route, net, items);
      EmptyMeansZero(route, net, first, remote, second, sent);
    } else if Returns(route, net, items)[r] == 0 {
      var x: nat :| x < |items| && items[x] != [];
      DirectCounts(net, items);
      ZeroMeansEmpty(route, net, first, remote, second, sent, r, x);
      SentIffQueued(route, net, items, x);
    }
  }
}
