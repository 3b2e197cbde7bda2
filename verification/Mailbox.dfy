/**
 The mailbox of one rank, its queues and counters updated in place. A send from inside the
 application may have to run an exchange; a send from inside a receive handler is set aside
 until the exchange is over.
 */
module Mailbox {
  import opened Arithmetic
  import opened Network
  import opened Routing
  import opened RoutingExactness
  import opened Exchange
  import opened HopGroups

  /** Header of a routed message in 32 bits: 24 for the node, 6 for the core, one for each flag. */
  function Encode(m: Message, interrupt: bool): nat {
    m.node * 256 + m.local * 4 + (if interrupt then 2 else 0) + if m.bcast then 1 else 0
  }

  function Decode(header: nat, data: nat): (Message, bool) {
    (Message(header % 2 == 1, header / 4 % 64, header / 256, data), header / 2 % 2 == 1)
  }

  lemma {:induction false} FieldsBack(node: nat, local: nat, interrupt: nat, bcast: nat)
    requires local < 64 && interrupt < 2 && bcast < 2
    ensures var header := node * 256 + local * 4 + interrupt * 2 + bcast;
            header / 256 == node && header / 4 % 64 == local && header / 2 % 2 == interrupt && header % 2 == bcast
  {
    var header := node * 256 + local * 4 + interrupt * 2 + bcast;
    QuotientIs(header, node, local * 4 + interrupt * 2 + bcast, 256);
    QuotientIs(header, node * 64 + local, interrupt * 2 + bcast, 4);
    QuotientIs(node * 64 + local, node, local, 64);
    QuotientIs(header, node * 128 + local * 2 + interrupt, bcast, 2);
    QuotientIs(node * 128 + local * 2 + interrupt, node * 64 + local, interrupt, 2);
  }

  lemma {:induction false} HeaderRoundTrip(m: Message, interrupt: bool)
    requires m.local < 64 && m.node < 0x100_0000
    ensures Encode(m, interrupt) < 0x1_0000_0000
    ensures Decode(Encode(m, interrupt), m.data) == (m, interrupt)
    ensures var header := Encode(m, interrupt);
      && header % 2 == (if m.bcast then 1 else 0) && header / 2 % 2 == (if interrupt then 1 else 0)
      && header / 4 % 64 == m.local && header / 256 == m.node
  {
    FieldsBack(m.node, m.local, if interrupt then 1 else 0, if m.bcast then 1 else 0);
  }

  function Append(q: Queues, r: Queues): Queues {
    Queues(q.first + r.first, q.remote + r.remote, q.second + r.second)
  }

  lemma {:induction false} InjectOneMore(route: Route, net: Net, items: seq<Item>, k: nat)
    requires net.cores > 0 && k < |items|
    ensures InjectAll(route, net, items[..k + 1]) == Append(InjectAll(route, net, items[..k]), Inject(route, net, items[k]))
  {
    assert items[..k + 1][..k] == items[..k];
  }

  /** A valid send queues something, and so does a broadcast when there is another rank. */
  lemma {:induction false} InjectQueues(route: Route, net: Net, item: Item)
    requires net.Valid() && ValidItem(net, item) && (item.Bcast? ==> net.Size() >= 2)
    ensures var q := Inject(route, net, item); |q.first| + |q.remote| + |q.second| >= 1
  {
    var q := Inject(route, net, item);
    RoutedExactly(route, net, item);
    if q == Queues([], [], []) {
      FlowNone(route, net, 0);
      FlowNone(route, net, 1);
      FlowNone(route, net, 2);
      var other := if item.src == 0 then 1 else 0;
      if item.Bcast? {
        AllButAt(item.src, item.data, net.Size(), Delivery(other, true, item.data));
      }
      assert false;
    }
  }

  lemma {:induction false} NoFraction(a: nat, n: nat)
    ensures n > 0 ==> (0 >= a / n <==> a < n)
  {
    if n > 0 {
      Quotient(a, n);
    }
  }

  class RankMailbox {
    const route: Route
    const net: Net
    const rank: nat
    const batch: nat
    var first: seq<Packet>
    var remote: seq<Packet>
    var second: seq<Packet>
    var sendCount: nat
    var inExchange: bool
    var sendQueue: seq<(nat, nat)>
    var bcastQueue: seq<nat>

    constructor (route: Route, net: Net, rank: nat, batch: nat)
      requires net.cores > 0
      ensures Valid() && Contents() == Queues([], [], []) && !inExchange && SetAside() == []
      ensures this.route == route && this.net == net && this.rank == rank && this.batch == batch
    {
      this.route, this.net, this.rank, this.batch := route, net, rank, batch;
      first, remote, second, sendCount := [], [], [], 0;
      inExchange, sendQueue, bcastQueue := false, [], [];
    }

    function Contents(): Queues
      reads this
    {
      Queues(first, remote, second)
    }

    /** The send count is the number of messages in the queues. */
    ghost predicate Valid()
      reads this
    {
      net.cores > 0 && sendCount == |first| + |remote| + |second|
    }

    function SetAside(): seq<Item>
      reads this
    {
      Items(sendQueue, bcastQueue)
    }

    function Items(sends: seq<(nat, nat)>, bcasts: seq<nat>): (items: seq<Item>)
      ensures |items| == |sends| + |bcasts|
      ensures forall i | 0 <= i < |sends| :: items[i] == Item.Send(rank, sends[i].0, sends[i].1)
      ensures forall i | 0 <= i < |bcasts| :: items[|sends| + i] == Item.Bcast(rank, bcasts[i])
    {
      seq(|sends|, (i: nat) requires i < |sends| => Item.Send(rank, sends[i].0, sends[i].1)) +
      seq(|bcasts|, (i: nat) requires i < |bcasts| => Item.Bcast(rank, bcasts[i]))
    }

    /** What is in the queues goes to other members of the groups in which they are exchanged. */
    ghost predicate InGroups()
      requires net.cores > 0
      reads this
    {
      Within(route, net, rank, Contents())
    }

    lemma {:induction false} StayInGroups(q: Queues, item: Item)
      requires net.Valid() && ValidItem(net, item) && item.src == rank && Within(route, net, rank, q)
      ensures Within(route, net, rank, Append(q, Inject(route, net, item)))
    {
      hide Hop, Inject, ValidItem;
      InjectWithin(route, net, item);
    }

    method DoSend(dest: nat, data: nat)
      requires Valid()
      modifies this`first, this`remote, this`second, this`sendCount
      ensures Valid()
      ensures Contents() == Append(old(Contents()), Inject(route, net, Item.Send(rank, dest, data)))
      ensures old(InGroups()) && net.Valid() && ValidItem(net, Item.Send(rank, dest, data)) ==> InGroups()
    {
      hide NlnrSend, Header, Net.Rank, Net.Size, Net.Core, Net.Node, Net.Layer, Within, ValidItem;
      if net.Valid() && InGroups() && ValidItem(net, Item.Send(rank, dest, data)) {
        StayInGroups(Contents(), Item.Send(rank, dest, data));
      }
      match route {
        case Nlnr => DoSendLayered(dest, data);
        case Nlroute =>
          var local, node := net.Core(dest), net.Node(dest);
          if local == net.Core(rank) {
            remote := remote + [Packet(net.Rank(node, net.Core(rank)), Header(false, local, node, data))];
          } else {
            first := first + [Packet(net.Rank(net.Node(rank), local), Header(false, local, node, data))];
          }
          sendCount := sendCount + 1;
        case Nrroute =>
          var local, node := net.Core(dest), net.Node(dest);
          if node == net.Node(rank) {
            second := second + [Packet(net.Rank(net.Node(rank), local), Header(false, local, node, data))];
          } else {
            remote := remote + [Packet(net.Rank(node, net.Core(rank)), Header(false, local, node, data))];
          }
          sendCount := sendCount + 1;
        case Noroute =>
          remote := remote + [Packet(dest, Message(false, 0, dest % 0x4000_0000, data))];
          sendCount := sendCount + 1;
      }
    }

    /** Within the node directly; else through the rank of this node that is a partner of the other node's layer. */
    method DoSendLayered(dest: nat, data: nat)
      requires Valid() && route == Nlnr
      modifies this`first, this`remote, this`second, this`sendCount
      ensures Valid()
      ensures Contents() == Append(old(Contents()), NlnrSend(net, rank, dest, data))
    {
      hide Group, Header, Net.Rank, Net.Size, Net.Core, Net.Node, Net.Layer;
      var local, node := net.Core(dest), net.Node(dest);
      if node == net.Node(rank) {
        second := second + [Packet(net.Rank(net.Node(rank), local), Header(false, local, node, data))];
        sendCount := sendCount + 1;
      } else {
        var layer, partner := net.Layer(node), net.Row(node);
        if net.Layer(net.Node(rank)) != layer {
          partner := partner * 2;
          if layer > net.Layer(net.Node(rank)) {
            partner := partner + 1;
          }
        }
        var msg := Header(false, local, partner, data);
        if net.Core(rank) == layer {
          QueueRemote(partner, msg);
        } else {
          first := first + [Packet(net.Rank(net.Node(rank), layer), msg)];
          sendCount := sendCount + 1;
        }
      }
    }

    method QueueRemote(partner: nat, msg: Message)
      requires Valid()
      modifies this`remote, this`sendCount
      ensures Valid() && remote == old(remote) + ToPartner(net, rank, partner, msg)
    {
      hide Group;
      var group := Group(net, rank);
      if partner < |group| {
        remote := remote + [Packet(group[partner], msg)];
        sendCount := sendCount + 1;
      }
    }

    method QueueCores(msg: Message) returns (ps: seq<Packet>)
      requires net.cores > 0
      ensures ps == OtherCores(net, rank, msg, net.cores)
    {
      ps := [];
      for j := 0 to net.cores
        invariant ps == OtherCores(net, rank, msg, j)
      {
        if j != net.Core(rank) {
          ps := ps + [Packet(net.Rank(net.Node(rank), j), msg)];
        }
      }
    }

    method QueueNodes(msg: Message) returns (ps: seq<Packet>)
      requires net.cores > 0
      ensures ps == OtherNodes(net, rank, msg, net.nodes)
    {
      ps := [];
      for i := 0 to net.nodes
        invariant ps == OtherNodes(net, rank, msg, i)
      {
        if i != net.Node(rank) {
          ps := ps + [Packet(net.Rank(i, net.Core(rank)), msg)];
        }
      }
    }

    method QueuePartners(msg: Message) returns (ps: seq<Packet>)
      requires net.cores > 0
      ensures ps == Partners(net, rank, msg, |Group(net, rank)|)
    {
      ps := [];
      var group, own := Group(net, rank), OwnIndex(net, rank);
      for i := 0 to |group|
        invariant ps == Partners(net, rank, msg, i)
      {
        if i != own {
          if net.Core(rank) == net.Layer(net.Node(rank)) || own % 2 != i % 2 {
            ps := ps + [Packet(group[i], msg)];
          }
        }
      }
    }

    method DoSendBcast(data: nat)
      requires Valid()
      modifies this`first, this`remote, this`second, this`sendCount
      ensures Valid()
      ensures Contents() == Append(old(Contents()), Inject(route, net, Item.Bcast(rank, data)))
      ensures old(InGroups()) && net.Valid() && rank < net.Size() ==> InGroups()
    {
      hide Within, Header, Net.Size, Net.Core, Net.Node, Group, OtherCores, OtherNodes, Partners, Net.Rank;
      if net.Valid() && InGroups() && rank < net.Size() {
        StayInGroups(Contents(), Item.Bcast(rank, data));
      }
      var msg := Header(true, 0, 0, data);
      var cores, others: seq<Packet> := [], [];
      if route != Noroute {
        cores := QueueCores(msg);
      }
      match route {
        case Nlnr => others := QueuePartners(msg);
        case Noroute =>
          for i := 0 to net.Size()
            invariant others == OtherRanks(rank, data, i)
          {
            if i != rank {
              others := others + [Packet(i, Message(true, 0, i % 0x4000_0000, data))];
            }
          }
        case _ => others := QueueNodes(msg);
      }
      remote := remote + others;
      if route == Nrroute {
        second := second + cores;
      } else {
        first := first + cores;
      }
      sendCount := sendCount + |cores| + |others|;
    }

    /**
     One mailbox also compares a counter per node with a fraction of the batch; nothing increments
     that counter, so this matters only when the fraction is zero.
     */
    predicate MustExchange()
      reads this
    {
      sendCount >= batch || (route == Nrroute && net.nodes > 0 && 0 >= 2 * batch / net.nodes)
    }

    /** exchange: the caller has to run an exchange before going on. */
    method Send(dest: nat, data: nat) returns (delivered: multiset<Delivery>, exchange: bool)
      requires Valid()
      modifies this`first, this`remote, this`second, this`sendCount, this`sendQueue
      ensures Valid()
      ensures delivered == if dest == rank then multiset{Delivery(rank, false, data)} else multiset{}
      ensures sendQueue == old(sendQueue) + if dest != rank && inExchange then [(dest, data)] else []
      ensures Contents() == if dest != rank && !inExchange
                            then Append(old(Contents()), Inject(route, net, Item.Send(rank, dest, data)))
                            else old(Contents())
      ensures exchange <==>
              dest != rank && !inExchange && (sendCount >= batch || (route == Nrroute && 2 * batch < net.nodes))
    {
      delivered, exchange := multiset{}, false;
      if dest == rank {
        delivered := multiset{Delivery(rank, false, data)};
      } else if inExchange {
        sendQueue := sendQueue + [(dest, data)];
      } else {
        DoSend(dest, data);
        exchange := MustExchange();
        NoFraction(2 * batch, net.nodes);
      }
    }

    method SendBcast(data: nat) returns (exchange: bool)
      requires Valid()
      modifies this`first, this`remote, this`second, this`sendCount, this`bcastQueue
      ensures Valid()
      ensures bcastQueue == old(bcastQueue) + if inExchange then [data] else []
      ensures Contents() == if inExchange then old(Contents())
                            else Append(old(Contents()), Inject(route, net, Item.Bcast(rank, data)))
      ensures exchange == (!inExchange && sendCount >= batch)
    {
      exchange := false;
      if inExchange {
        bcastQueue := bcastQueue + [data];
      } else {
        DoSendBcast(data);
        exchange := sendCount >= batch;
      }
    }

    /** Messages set aside are queued in their order, then broadcasts. */
    method PushSends(items: seq<Item>)
      requires Valid() && items == SetAside() && Contents() == Queues([], [], [])
      modifies this`first, this`remote, this`second, this`sendCount
      ensures Valid() && Contents() == InjectAll(route, net, items[..|sendQueue|])
    {
      hide Inject;
      for i := 0 to |sendQueue|
        invariant Valid()
        invariant Contents() == InjectAll(route, net, items[..i])
      {
        assert items[i] == Item.Send(rank, sendQueue[i].0, sendQueue[i].1);
        InjectOneMore(route, net, items, i);
        DoSend(sendQueue[i].0, sendQueue[i].1);
      }
    }

    method PushBcasts(items: seq<Item>)
      requires Valid() && items == SetAside() && Contents() == InjectAll(route, net, items[..|sendQueue|])
      modifies this`first, this`remote, this`second, this`sendCount
      ensures Valid() && Contents() == InjectAll(route, net, items)
    {
      hide Inject, InjectAll;
      for i := 0 to |bcastQueue|
        invariant Valid()
        invariant Contents() == InjectAll(route, net, items[..|sendQueue| + i])
      {
        assert items[|sendQueue| + i] == Item.Bcast(rank, bcastQueue[i]);
        InjectOneMore(route, net, items, |sendQueue| + i);
        DoSendBcast(bcastQueue[i]);
      }
      assert items[..|sendQueue| + |bcastQueue|] == items;
    }

    /** After the three stages: the queues are drained, and what was set aside is sent now. */
    method EndExchange()
      requires Valid()
      modifies this
      ensures Valid() && !inExchange && SetAside() == []
      ensures Contents() == InjectAll(route, net, old(SetAside()))
    {
      var items := SetAside();
      first, remote, second, sendCount := [], [], [], 0;
      PushSends(items);
      PushBcasts(items);
      sendQueue, bcastQueue, inExchange := [], [], false;
    }
  }
}
