/**
 Every hop stays inside a group. A stage exchanges messages only among the members of a group, and a
 message queued for it travels to another member, whichever mailbox, message or broadcast it is.
 */
module HopGroups {
  import opened Network
  import opened Routing
  import opened RoutingExactness
  import opened ExchangeTotals
  import opened ExchangeStages

  /** Which of the three queues the first stage of an exchange drains. */
  function FirstQueue(route: Route): nat {
    match route
    case Nlnr => 0
    case Nlroute => 0
    case Nrroute => 1
    case Noroute => 1
  }

  /** The queue belongs to a stage, and p goes from one member of its group to another. */
  ghost predicate Hop(route: Route, net: Net, queue: nat, from: nat, p: Packet)
    requires net.cores > 0
  {
    && FirstQueue(route) <= queue < FirstQueue(route) + |Stages(route)|
    && p.to in MembersOf(Stages(route)[queue - FirstQueue(route)], net, from)
    && p.to < net.Size() && p.to != from
  }

  function QueueOf(q: Queues, queue: nat): seq<Packet> {
    if queue == 0 then q.first else if queue == 1 then q.remote else q.second
  }

  /** For this item, p is at some time queued by rank from: at its source, or where an earlier hop has led. */
  ghost predicate Queued(route: Route, net: Net, item: Item, queue: nat, from: nat, p: Packet)
    requires net.cores > 0
    decreases queue, 0
  {
    || (from == item.src && queue <= 2 && p in QueueOf(Inject(route, net, item), queue))
    || (queue > 0 && PassedOn(route, net, item, queue - 1, from, p))
  }

  ghost predicate PassedOn(route: Route, net: Net, item: Item, queue: nat, at: nat, p: Packet)
    requires net.cores > 0
    decreases queue, 1
  {
    exists x: nat, q :: Queued(route, net, item, queue, x, q) && q.to == at && p in Forwarded(route, net, queue, q)
  }

  /** A packet of a valid item where it has arrived: its header still leads somewhere. */
  ghost predicate Leads(route: Route, net: Net, queue: nat, p: Packet)
    requires net.cores > 0
  {
    && p.to < net.Size()
    && (p.msg.bcast ||
        match route
        case Nlnr => p.msg.local < net.cores && (queue == 0 ==> LeadsAway(net, p))
        case Nlroute => queue == 0 ==> p.msg.node < net.nodes && p.msg.local == net.Core(p.to)
        case Nrroute => queue == 1 ==> p.msg.local < net.cores && p.msg.node == net.Node(p.to)
        case Noroute => true)
  }

  ghost predicate LeadsAway(net: Net, p: Packet)
    requires net.cores > 0
  {
    exists node: nat :: node < net.nodes && node != net.Node(p.to) && net.Core(p.to) == net.Layer(node)
      && p.msg.node == RemoteOf(net, net.Node(p.to), node)
  }

  // Loops

  lemma {:induction false} CoresHop(net: Net, rank: nat, msg: Message, k: nat, p: Packet)
    requires net.Valid() && rank < net.Size() && k <= net.cores && p in OtherCores(net, rank, msg, k)
    ensures p.to in MembersOf(OverNode, net, rank) && p.to < net.Size() && p.to != rank && p.msg == msg
  {
    if p !in OtherCores(net, rank, msg, k - 1) {
      Parts(net, net.Node(rank), k - 1);
      Whole(net, rank);
      NodeMember(net, rank, p.to);
    } else {
      CoresHop(net, rank, msg, k - 1, p);
    }
  }

  lemma {:induction false} NodesHop(net: Net, rank: nat, msg: Message, k: nat, p: Packet)
    requires net.Valid() && rank < net.Size() && k <= net.nodes && p in OtherNodes(net, rank, msg, k)
    ensures p.to in MembersOf(OverCores, net, rank) && p.to < net.Size() && p.to != rank && p.msg == msg
  {
    if p !in OtherNodes(net, rank, msg, k - 1) {
      Whole(net, rank);
      Parts(net, k - 1, net.Core(rank));
      CoreMember(net, rank, p.to);
    } else {
      NodesHop(net, rank, msg, k - 1, p);
    }
  }

  lemma {:induction false} RanksHop(net: Net, rank: nat, data: nat, k: nat, p: Packet)
    requires net.cores > 0 && k <= net.Size() && p in OtherRanks(rank, data, k)
    ensures p.to in MembersOf(OverWorld, net, rank) && p.to < net.Size() && p.to != rank && p.msg.bcast
  {
    if p !in OtherRanks(rank, data, k - 1) {
      WorldMember(net, rank, p.to);
    } else {
      RanksHop(net, rank, data, k - 1, p);
    }
  }

  lemma {:induction false} PartnersHop(net: Net, rank: nat, msg: Message, k: nat, p: Packet)
    requires net.Valid() && rank < net.Size() && k <= |Group(net, rank)| && p in Partners(net, rank, msg, k)
    ensures p.to in MembersOf(OverPartners, net, rank) && p.to < net.Size() && p.to != rank && p.msg == msg
  {
    if p !in Partners(net, rank, msg, k - 1) {
      MembersAre(net, net.Color(rank), net.Size());
      assert Group(net, rank)[k - 1] in Group(net, rank);
      PartnerIndex(net, rank, k - 1);
      ChosenNodes(net, rank, net.Node(p.to));
    } else {
      PartnersHop(net, rank, msg, k - 1, p);
    }
  }

  // Single messages

  /** To another core of the same node, and to the same core of another node. */
  lemma {:induction false} NodeHop(net: Net, rank: nat, core: nat)
    requires net.Valid() && rank < net.Size() && core < net.cores
    ensures var x := net.Rank(net.Node(rank), core);
      && x in MembersOf(OverNode, net, rank) && x < net.Size()
      && net.Node(x) == net.Node(rank) && net.Core(x) == core && (core != net.Core(rank) ==> x != rank)
  {
    Whole(net, rank);
    Parts(net, net.Node(rank), core);
    NodeMember(net, rank, net.Rank(net.Node(rank), core));
  }

  lemma {:induction false} CoreHop(net: Net, rank: nat, node: nat)
    requires net.Valid() && rank < net.Size() && node < net.nodes
    ensures var x := net.Rank(node, net.Core(rank));
      && x in MembersOf(OverCores, net, rank) && x < net.Size()
      && net.Node(x) == node && net.Core(x) == net.Core(rank) && (node != net.Node(rank) ==> x != rank)
  {
    Whole(net, rank);
    Parts(net, node, net.Core(rank));
    CoreMember(net, rank, net.Rank(node, net.Core(rank)));
  }

  lemma {:induction false} LayerHop(net: Net, rank: nat, node: nat, msg: Message, p: Packet)
    requires net.Valid() && rank < net.Size() && node < net.nodes && node != net.Node(rank)
    requires net.Core(rank) == net.Layer(node) && p in ToPartner(net, rank, RemoteOf(net, net.Node(rank), node), msg)
    ensures p.to in MembersOf(OverPartners, net, rank) && p.to < net.Size() && p.to != rank && p.msg == msg
  {
    PartnerAt(net, rank, node, msg);
    LayerBound(net, net.Node(rank));
    Parts(net, node, net.Layer(net.Node(rank)));
  }

  lemma {:induction false} LayeredHops(net: Net, src: nat, dest: nat, data: nat, queue: nat, p: Packet)
    requires net.Valid() && src < net.Size() && dest < net.Size() && dest != src && queue <= 2
    requires p in QueueOf(NlnrSend(net, src, dest, data), queue)
    ensures Hop(Nlnr, net, queue, src, p) && Leads(Nlnr, net, queue, p)
  {
    var local, node, here := net.Core(dest), net.Node(dest), net.Node(src);
    Whole(net, dest);
    Whole(net, src);
    LayerBound(net, node);
    if node == here {
      NodeHop(net, src, local);
      PlainHeader(net, dest, data);
    } else {
      RemoteHeader(net, here, node, local, data);
      var msg := Message(false, local, RemoteOf(net, here, node), data);
      if net.Core(src) == net.Layer(node) {
        assert NlnrSend(net, src, dest, data) == Queues([], ToPartner(net, src, RemoteOf(net, here, node), msg), []);
        LayerHop(net, src, node, msg, p);
      } else {
        NodeHop(net, src, net.Layer(node));
        assert p == Packet(net.Rank(here, net.Layer(node)), msg);
        assert LeadsAway(net, p);
      }
    }
  }

  lemma {:induction false} SendHops(route: Route, net: Net, src: nat, dest: nat, data: nat, queue: nat, p: Packet)
    requires net.Valid() && src < net.Size() && dest < net.Size() && dest != src && queue <= 2
    requires p in QueueOf(Inject(route, net, Send(src, dest, data)), queue)
    ensures Hop(route, net, queue, src, p) && Leads(route, net, queue, p)
  {
    Whole(net, dest);
    Whole(net, src);
    PlainHeader(net, dest, data);
    NodeHop(net, src, net.Core(dest));
    CoreHop(net, src, net.Node(dest));
    WorldMember(net, src, dest);
    hide MembersOf, NlnrSend, Net.Size, Net.Rank;
    if route.Nlnr? {
      hide Hop, Leads;
      LayeredHops(net, src, dest, data, queue, p);
    }
  }

  lemma {:induction false} BcastHops(route: Route, net: Net, src: nat, data: nat, queue: nat, p: Packet)
    requires net.Valid() && src < net.Size() && queue <= 2
    requires p in QueueOf(Inject(route, net, Bcast(src, data)), queue)
    ensures Hop(route, net, queue, src, p) && Leads(route, net, queue, p)
  {
    hide MembersOf, OtherCores, OtherNodes, OtherRanks, Partners, Group, Net.Size;
    var msg := Header(true, 0, 0, data);
    if p in OtherCores(net, src, msg, net.cores) {
      CoresHop(net, src, msg, net.cores, p);
    }
    if p in OtherNodes(net, src, msg, net.nodes) {
      NodesHop(net, src, msg, net.nodes, p);
    }
    if p in Partners(net, src, msg, |Group(net, src)|) {
      PartnersHop(net, src, msg, |Group(net, src)|, p);
    }
    if p in OtherRanks(src, data, net.Size()) {
      RanksHop(net, src, data, net.Size(), p);
    }
  }

  // Forwarding

  lemma {:induction false} BcastForwards(route: Route, net: Net, queue: nat, p: Packet, q: Packet)
    requires net.Valid() && queue < 2 && p.to < net.Size() && p.msg.bcast && q in Forwarded(route, net, queue, p)
    ensures Hop(route, net, queue + 1, p.to, q) && Leads(route, net, queue + 1, q)
  {
    hide MembersOf, OtherCores, OtherNodes, Partners, Group, Net.Size;
    if q in OtherCores(net, p.to, p.msg, net.cores) {
      CoresHop(net, p.to, p.msg, net.cores, q);
    }
    if q in OtherNodes(net, p.to, p.msg, net.nodes) {
      NodesHop(net, p.to, p.msg, net.nodes, q);
    }
    if q in Partners(net, p.to, p.msg, |Group(net, p.to)|) {
      PartnersHop(net, p.to, p.msg, |Group(net, p.to)|, q);
    }
  }

  lemma {:induction false} SendForwards(route: Route, net: Net, queue: nat, p: Packet, q: Packet)
    requires net.Valid() && queue < 2 && Leads(route, net, queue, p) && !p.msg.bcast && q in Forwarded(route, net, queue, p)
    ensures Hop(route, net, queue + 1, p.to, q) && Leads(route, net, queue + 1, q)
  {
    if p.msg.local < net.cores {
      NodeHop(net, p.to, p.msg.local);
    }
    if p.msg.node < net.nodes {
      CoreHop(net, p.to, p.msg.node);
    }
    hide MembersOf, Net.Size, Net.Rank, ToPartner;
    if route.Nlnr? && queue == 0 {
      var node: nat :| node < net.nodes && node != net.Node(p.to) && net.Core(p.to) == net.Layer(node)
        && p.msg.node == RemoteOf(net, net.Node(p.to), node);
      LayerHop(net, p.to, node, p.msg, q);
    }
  }

  /** Whatever is queued for a stage, at the source or on the way, goes to another member of the group of that stage. */
  lemma {:induction false} HopsInGroup(route: Route, net: Net, item: Item, queue: nat, from: nat, p: Packet)
    requires net.Valid() && ValidItem(net, item) && Queued(route, net, item, queue, from, p) && queue <= 2
    ensures Hop(route, net, queue, from, p) && Leads(route, net, queue, p)
    decreases queue
  {
    hide Hop, Leads, Inject, Forwarded, Net.Size;
    if from == item.src && p in QueueOf(Inject(route, net, item), queue) {
      match item
      case Send(src, dest, data) => SendHops(route, net, src, dest, data, queue, p);
      case Bcast(src, data) => BcastHops(route, net, src, data, queue, p);
    } else {
      assert PassedOn(route, net, item, queue - 1, from, p);
      var x: nat, q :| Queued(route, net, item, queue - 1, x, q) && q.to == from && p in Forwarded(route, net, queue - 1, q);
      HopsInGroup(route, net, item, queue - 1, x, q);
      LeadsInWorld(route, net, queue - 1, q);
      if q.msg.bcast {
        BcastForwards(route, net, queue - 1, q, p);
      } else {
        SendForwards(route, net, queue - 1, q, p);
      }
    }
  }

  /** What a send or broadcast queues at its source, queue by queue. */
  ghost predicate Within(route: Route, net: Net, rank: nat, q: Queues)
    requires net.cores > 0
  {
    && (forall p | p in q.first :: Hop(route, net, 0, rank, p))
    && (forall p | p in q.remote :: Hop(route, net, 1, rank, p))
    && (forall p | p in q.second :: Hop(route, net, 2, rank, p))
  }

  lemma {:induction false} InjectWithin(route: Route, net: Net, item: Item)
    requires net.Valid() && ValidItem(net, item)
    ensures Within(route, net, item.src, Inject(route, net, item))
  {
    hide Hop, Leads, Inject, Net.Size, ValidItem;
    forall k, p | 0 <= k <= 2 && p in QueueOf(Inject(route, net, item), k)
      ensures Hop(route, net, k, item.src, p)
    {
      HopsInGroup(route, net, item, k, item.src, p);
    }
    assert forall p | p in Inject(route, net, item).first :: p in QueueOf(Inject(route, net, item), 0);
    assert forall p | p in Inject(route, net, item).remote :: p in QueueOf(Inject(route, net, item), 1);
    assert forall p | p in Inject(route, net, item).second :: p in QueueOf(Inject(route, net, item), 2);
  }

  lemma {:induction false} LeadsInWorld(route: Route, net: Net, queue: nat, p: Packet)
    requires net.cores > 0 && Leads(route, net, queue, p)
    ensures p.to < net.Size()
  {
  }
}
