/** Every mailbox delivers what direct delivery would: each message once, each broadcast once elsewhere. */
module RoutingExactness {
  import opened Arithmetic
  import opened Network
  import opened Routing

  predicate Carries(msg: Message, d: Delivery) {
    d.bcast == msg.bcast && d.data == msg.data
  }

  lemma {:induction false} FlowOne(route: Route, net: Net, stage: nat, p: Packet)
    requires net.cores > 0 && stage <= 2
    ensures FlowAll(route, net, stage, [p]) == Flow(route, net, stage, p)
  {
    assert [p][..0] == [];
  }

  lemma {:induction false} FlowNone(route: Route, net: Net, stage: nat)
    requires net.cores > 0 && stage <= 2
    ensures FlowAll(route, net, stage, []) == multiset{}
  {
  }

  lemma {:induction false} FlowAdd(route: Route, net: Net, stage: nat, ps: seq<Packet>, p: Packet)
    requires net.cores > 0 && stage <= 2
    ensures FlowAll(route, net, stage, ps + [p]) == FlowAll(route, net, stage, ps) + Flow(route, net, stage, p)
  {
    assert (ps + [p])[..|ps|] == ps;
  }

  lemma {:induction false} FlowLast(route: Route, net: Net, p: Packet)
    requires net.cores > 0
    ensures Flow(route, net, 2, p) == Deliver(p)
  {
  }

  // Loops over cores and nodes

  /** Deliveries to the other cores of a node below core k, counted at d. */
  predicate AmongCores(net: Net, rank: nat, k: nat, d: Delivery)
    requires net.cores > 0
  {
    net.Node(d.at) == net.Node(rank) && net.Core(d.at) < k && net.Core(d.at) != net.Core(rank)
  }

  lemma {:induction false} CoresAt(net: Net, rank: nat, j: nat, x: nat)
    requires j < net.cores
    ensures x == net.Rank(net.Node(rank), j) <==> net.Node(x) == net.Node(rank) && net.Core(x) == j
  {
    Parts(net, net.Node(rank), j);
    Whole(net, x);
  }

  lemma {:induction false} CoresLast(route: Route, net: Net, rank: nat, msg: Message, k: nat, d: Delivery)
    requires net.cores > 0 && k <= net.cores
    ensures FlowAll(route, net, 2, OtherCores(net, rank, msg, k))[d]
      == if Carries(msg, d) && AmongCores(net, rank, k, d) then 1 else 0
  {
    hide Net.Node, Net.Core, Net.Rank, FlowAll, Flow;
    FlowNone(route, net, 2);
    if k > 0 {
      CoresLast(route, net, rank, msg, k - 1, d);
      CoresAt(net, rank, k - 1, d.at);
      var p := Packet(net.Rank(net.Node(rank), k - 1), msg);
      FlowAdd(route, net, 2, OtherCores(net, rank, msg, k - 1), p);
      FlowLast(route, net, p);
      assert OtherCores(net, rank, msg, k - 1) + [] == OtherCores(net, rank, msg, k - 1);
    }
  }

  /** A broadcast that reaches a node is delivered to each of its cores. */
  lemma {:induction false} NodeFlow(route: Route, net: Net, p: Packet, d: Delivery)
    requires net.cores > 0 && p.msg.bcast && (route.Nlnr? || route.Nrroute?)
    ensures Flow(route, net, 1, p)[d] == if Carries(p.msg, d) && net.Node(d.at) == net.Node(p.to) then 1 else 0
  {
    var others := OtherCores(net, p.to, p.msg, net.cores);
    assert Flow(route, net, 1, p) == Deliver(p) + FlowAll(route, net, 2, others);
    CoresLast(route, net, p.to, p.msg, net.cores, d);
    Whole(net, d.at);
    Whole(net, p.to);
    hide FlowAll, Flow, OtherCores, Net.Node, Net.Core;
  }

  // The group of local and remote partners

  lemma {:induction false} PartnerIndex(net: Net, rank: nat, i: nat)
    requires net.Valid() && i < |Group(net, rank)|
    ensures var a, b, m := net.Core(rank), net.Layer(net.Node(rank)), net.Node(Group(net, rank)[i]);
      && m < net.nodes && HasMember(net, a, b, m) && IndexOf(net, a, b, m) == i
      && Group(net, rank)[i] == net.Rank(m, MemberCore(net, a, b, m))
  {
    var a, b, g := net.Core(rank), net.Layer(net.Node(rank)), Group(net, rank);
    var x := g[i];
    var m := net.Node(x);
    ColorIsPair(net, rank);
    MembersAre(net, net.Color(rank), net.Size());
    assert x in g;
    assert net.Color(x) == PairColor(net, a, b) && x < net.Size();
    assert a < net.cores && b < net.cores;
    hide Net.Color, Net.Layer, Net.Node, Net.Core, Members, IndexOf, PairColor, HasMember, MemberCore, Net.Size;
    Whole(net, x);
    MemberAt(net, a, b, m, net.Core(x));
    GroupMember(net, a, b, m);
  }

  lemma {:induction false} OwnIndexIs(net: Net, rank: nat)
    requires net.Valid() && rank < net.Size()
    ensures var a, b, m := net.Core(rank), net.Layer(net.Node(rank)), net.Node(rank);
      OwnIndex(net, rank) == IndexOf(net, a, b, m) && HasMember(net, a, b, m) && m < net.nodes
      && MemberCore(net, a, b, m) == net.Core(rank)
  {
    var a, b, m := net.Core(rank), net.Layer(net.Node(rank)), net.Node(rank);
    ColorIsPair(net, rank);
    Whole(net, rank);
    MemberAt(net, a, b, m, a);
    CountInNode(net, a, b, m, a);
    CountBefore(net, a, b, m);
  }

  lemma {:induction false} IndexParity(net: Net, a: nat, b: nat, node: nat)
    requires net.cores > 0 && a != b && HasMember(net, a, b, node)
    ensures IndexOf(net, a, b, node) % 2 == if net.Layer(node) == (if a < b then b else a) then 1 else 0
  {
  }

  lemma {:induction false} IndexInjective(net: Net, a: nat, b: nat, m: nat, n: nat)
    requires net.Valid() && a < net.cores && b < net.cores && m < net.nodes && n < net.nodes
    requires HasMember(net, a, b, m) && HasMember(net, a, b, n)
    ensures IndexOf(net, a, b, m) == IndexOf(net, a, b, n) ==> m == n
  {
    GroupMember(net, a, b, m);
    GroupMember(net, a, b, n);
    hide IndexOf, HasMember, PairColor, Members, Net.Size;
    MemberCoreBound(net, a, b, m);
    MemberCoreBound(net, a, b, n);
    Parts(net, m, MemberCore(net, a, b, m));
    Parts(net, n, MemberCore(net, a, b, n));
  }

  lemma {:induction false} MemberCoreBound(net: Net, a: nat, b: nat, m: nat)
    requires a < net.cores && b < net.cores
    ensures MemberCore(net, a, b, m) < net.cores
  {
  }

  /** Chosen are the nodes of the own layer, other than the own node. */
  lemma {:induction false} ChosenNodes(net: Net, rank: nat, n: nat)
    requires net.Valid() && rank < net.Size() && n < net.nodes
    requires HasMember(net, net.Core(rank), net.Layer(net.Node(rank)), n)
    ensures Chosen(net, rank, IndexOf(net, net.Core(rank), net.Layer(net.Node(rank)), n)) <==>
      n != net.Node(rank) && net.Layer(n) == net.Core(rank)
  {
    var a, b, m := net.Core(rank), net.Layer(net.Node(rank)), net.Node(rank);
    ColorIsPair(net, rank);
    OwnIndexIs(net, rank);
    IndexInjective(net, a, b, m, n);
    assert net.Layer(n) == a || net.Layer(n) == b;
    if a != b {
      IndexParity(net, a, b, m);
      IndexParity(net, a, b, n);
    }
    assert net.Layer(m) == b;
    hide IndexOf, Net.Layer, Net.Node, Net.Core, OwnIndex, Net.Color;
  }

  predicate AmongPartners(net: Net, rank: nat, k: nat, d: Delivery)
    requires net.cores > 0
  {
    var a, b, n := net.Core(rank), net.Layer(net.Node(rank)), net.Node(d.at);
    && n < net.nodes && n != net.Node(rank) && net.Layer(n) == a
    && IndexOf(net, a, b, n) < k
  }

  lemma {:induction false} PartnerStep(net: Net, rank: nat, k: nat, d: Delivery)
    requires net.Valid() && rank < net.Size() && 0 < k <= |Group(net, rank)|
    ensures AmongPartners(net, rank, k, d) <==>
      AmongPartners(net, rank, k - 1, d) ||
      (Chosen(net, rank, k - 1) && net.Node(d.at) == net.Node(Group(net, rank)[k - 1]))
    ensures AmongPartners(net, rank, k - 1, d) ==> net.Node(d.at) != net.Node(Group(net, rank)[k - 1])
  {
    var a, b, n := net.Core(rank), net.Layer(net.Node(rank)), net.Node(d.at);
    var m := net.Node(Group(net, rank)[k - 1]);
    PartnerIndex(net, rank, k - 1);
    ChosenNodes(net, rank, m);
    ColorIsPair(net, rank);
    if n < net.nodes && net.Layer(n) == a {
      IndexInjective(net, a, b, m, n);
    }
    hide IndexOf, Net.Layer, Net.Node, Net.Core, Chosen, Group;
  }

  /** A broadcast forwarded to the partners reaches every core of the other nodes of the own layer. */
  lemma {:induction false} PartnersFlow(net: Net, rank: nat, msg: Message, k: nat, d: Delivery)
    requires net.Valid() && rank < net.Size() && msg.bcast && k <= |Group(net, rank)|
    ensures FlowAll(Nlnr, net, 1, Partners(net, rank, msg, k))[d]
      == if Carries(msg, d) && AmongPartners(net, rank, k, d) then 1 else 0
  {
    hide Net.Node, Net.Core, Net.Rank, Net.Layer, FlowAll, Flow, Chosen, IndexOf, Group, Members;
    FlowNone(Nlnr, net, 1);
    if k > 0 {
      var before, p := Partners(net, rank, msg, k - 1), Packet(Group(net, rank)[k - 1], msg);
      PartnersFlow(net, rank, msg, k - 1, d);
      PartnerStep(net, rank, k, d);
      FlowAdd(Nlnr, net, 1, before, p);
      NodeFlow(Nlnr, net, p, d);
      hide AmongPartners;
      assert before + [] == before;
    }
  }

  lemma {:induction false} AllPartnersFlow(net: Net, rank: nat, msg: Message, d: Delivery)
    requires net.Valid() && rank < net.Size() && msg.bcast
    ensures var n := net.Node(d.at);
      FlowAll(Nlnr, net, 1, Partners(net, rank, msg, |Group(net, rank)|))[d]
      == if Carries(msg, d) && n < net.nodes && n != net.Node(rank) && net.Layer(n) == net.Core(rank) then 1 else 0
  {
    var a, b, n := net.Core(rank), net.Layer(net.Node(rank)), net.Node(d.at);
    PartnersFlow(net, rank, msg, |Group(net, rank)|, d);
    ColorIsPair(net, rank);
    if n < net.nodes && net.Layer(n) == a {
      GroupMember(net, a, b, n);
    }
    hide FlowAll, Partners, IndexOf, Members, Net.Layer, Net.Node, Net.Core;
  }

  // Broadcasts

  lemma {:induction false} AllButAt(src: nat, data: nat, n: nat, d: Delivery)
    ensures AllBut(src, data, n)[d] == if d.at < n && d.at != src && d.bcast && d.data == data then 1 else 0
  {
    if n > 0 {
      AllButAt(src, data, n - 1, d);
    }
  }

  /** First local step of a broadcast: every other core delivers and serves the nodes of its layer. */
  lemma {:induction false} NlnrFirstFlow(net: Net, src: nat, msg: Message, k: nat, d: Delivery)
    requires net.Valid() && src < net.Size() && msg.bcast && k <= net.cores
    ensures var n, c := net.Node(d.at), net.Core(src);
      FlowAll(Nlnr, net, 0, OtherCores(net, src, msg, k))[d]
      == if Carries(msg, d) && (AmongCores(net, src, k, d) ||
            (n < net.nodes && n != net.Node(src) && net.Layer(n) < k && net.Layer(n) != c))
         then 1 else 0
  {
    hide Net.Node, Net.Core, Net.Rank, Net.Layer, FlowAll, Flow, Group, Partners, Net.Size;
    FlowNone(Nlnr, net, 0);
    if k > 0 {
      NlnrFirstFlow(net, src, msg, k - 1, d);
      var p := Packet(net.Rank(net.Node(src), k - 1), msg);
      var before := OtherCores(net, src, msg, k - 1);
      Whole(net, src);
      Parts(net, net.Node(src), k - 1);
      CoresAt(net, src, k - 1, d.at);
      FlowAdd(Nlnr, net, 0, before, p);
      FirstHop(net, p, d);
      assert before + [] == before;
    }
  }

  lemma {:induction false} FirstHop(net: Net, p: Packet, d: Delivery)
    requires net.Valid() && p.to < net.Size() && p.msg.bcast
    ensures var n := net.Node(d.at);
      Flow(Nlnr, net, 0, p)[d]
      == if Carries(p.msg, d) && (d.at == p.to || (n < net.nodes && n != net.Node(p.to) && net.Layer(n) == net.Core(p.to)))
         then 1 else 0
  {
    var onward := Partners(net, p.to, p.msg, |Group(net, p.to)|);
    assert Flow(Nlnr, net, 0, p) == Deliver(p) + FlowAll(Nlnr, net, 1, onward);
    AllPartnersFlow(net, p.to, p.msg, d);
    hide FlowAll, Flow, Partners, Group, Net.Node, Net.Core, Net.Layer;
  }

  lemma {:induction false} LayerBound(net: Net, n: nat)
    requires net.cores > 0
    ensures net.Layer(n) < net.cores
  {
    Quotient(n, net.cores);
  }

  lemma {:induction false} NlnrBcast(net: Net, src: nat, data: nat, d: Delivery)
    requires net.Valid() && src < net.Size()
    ensures FlowOf(Nlnr, net, Inject(Nlnr, net, Bcast(src, data)))[d] == Expected(net, Bcast(src, data))[d]
  {
    var msg := Header(true, 0, 0, data);
    var n := net.Node(d.at);
    var first, remote := OtherCores(net, src, msg, net.cores), Partners(net, src, msg, |Group(net, src)|);
    assert Inject(Nlnr, net, Bcast(src, data)) == Queues(first, remote, []);
    FlowNone(Nlnr, net, 2);
    assert FlowOf(Nlnr, net, Queues(first, remote, [])) == FlowAll(Nlnr, net, 0, first) + FlowAll(Nlnr, net, 1, remote) + multiset{};
    hide FlowOf, FlowAll, Flow, Inject, OtherCores, Partners, Group, AllBut, Net.Layer, Net.Node, Net.Core, Net.Size;
    NlnrFirstFlow(net, src, msg, net.cores, d);
    AllPartnersFlow(net, src, msg, d);
    AllButAt(src, data, net.Size(), d);
    LayerBound(net, n);
    Whole(net, d.at);
    Whole(net, src);
  }

  predicate AmongNodes(net: Net, rank: nat, k: nat, d: Delivery)
    requires net.cores > 0
  {
    net.Core(d.at) == net.Core(rank) && net.Node(d.at) < k && net.Node(d.at) != net.Node(rank)
  }

  lemma {:induction false} NodesAt(net: Net, rank: nat, m: nat, x: nat)
    requires net.cores > 0
    ensures x == net.Rank(m, net.Core(rank)) <==> net.Node(x) == m && net.Core(x) == net.Core(rank)
    ensures net.Node(net.Rank(m, net.Core(rank))) == m
  {
    Whole(net, rank);
    Parts(net, m, net.Core(rank));
    Whole(net, x);
  }

  /** One rank on every other node, when a remote arrival goes no further. */
  lemma {:induction false} NodesOnly(net: Net, rank: nat, msg: Message, k: nat, d: Delivery)
    requires net.cores > 0
    ensures FlowAll(Nlroute, net, 1, OtherNodes(net, rank, msg, k))[d]
      == if Carries(msg, d) && AmongNodes(net, rank, k, d) then 1 else 0
  {
    hide Net.Node, Net.Core, Net.Rank, FlowAll, Flow;
    FlowNone(Nlroute, net, 1);
    if k > 0 {
      var before, p := OtherNodes(net, rank, msg, k - 1), Packet(net.Rank(k - 1, net.Core(rank)), msg);
      NodesOnly(net, rank, msg, k - 1, d);
      NodesAt(net, rank, k - 1, d.at);
      FlowAdd(Nlroute, net, 1, before, p);
      RemoteLast(net, p);
      assert before + [] == before;
    }
  }

  lemma {:induction false} RemoteLast(net: Net, p: Packet)
    requires net.cores > 0
    ensures Flow(Nlroute, net, 1, p) == Deliver(p) && Flow(Noroute, net, 1, p) == Deliver(p)
  {
    FlowNone(Nlroute, net, 2);
    FlowNone(Noroute, net, 2);
  }

  lemma {:induction false} NlrouteFirstFlow(net: Net, src: nat, msg: Message, k: nat, d: Delivery)
    requires net.cores > 0 && msg.bcast && k <= net.cores
    ensures FlowAll(Nlroute, net, 0, OtherCores(net, src, msg, k))[d]
      == if Carries(msg, d) && net.Core(d.at) < k && net.Core(d.at) != net.Core(src)
            && (net.Node(d.at) < net.nodes || net.Node(d.at) == net.Node(src))
         then 1 else 0
  {
    hide Net.Node, Net.Core, Net.Rank, FlowAll, Flow;
    FlowNone(Nlroute, net, 0);
    if k > 0 {
      NlrouteFirstFlow(net, src, msg, k - 1, d);
      var before, p := OtherCores(net, src, msg, k - 1), Packet(net.Rank(net.Node(src), k - 1), msg);
      Parts(net, net.Node(src), k - 1);
      CoresAt(net, src, k - 1, d.at);
      FlowAdd(Nlroute, net, 0, before, p);
      NlrouteHop(net, p, d);
      assert before + [] == before;
    }
  }

  lemma {:induction false} NlrouteHop(net: Net, p: Packet, d: Delivery)
    requires net.cores > 0 && p.msg.bcast
    ensures Flow(Nlroute, net, 0, p)[d]
      == if Carries(p.msg, d) && net.Core(d.at) == net.Core(p.to) && (net.Node(d.at) < net.nodes || net.Node(d.at) == net.Node(p.to))
         then 1 else 0
  {
    var onward := OtherNodes(net, p.to, p.msg, net.nodes);
    assert Flow(Nlroute, net, 0, p) == Deliver(p) + FlowAll(Nlroute, net, 1, onward);
    NodesOnly(net, p.to, p.msg, net.nodes, d);
    Whole(net, d.at);
    Whole(net, p.to);
    hide FlowAll, Flow, OtherNodes, Net.Node, Net.Core;
  }

  lemma {:induction false} NlrouteBcast(net: Net, src: nat, data: nat, d: Delivery)
    requires net.Valid() && src < net.Size()
    ensures FlowOf(Nlroute, net, Inject(Nlroute, net, Bcast(src, data)))[d] == Expected(net, Bcast(src, data))[d]
  {
    var msg := Header(true, 0, 0, data);
    var first, remote := OtherCores(net, src, msg, net.cores), OtherNodes(net, src, msg, net.nodes);
    assert Inject(Nlroute, net, Bcast(src, data)) == Queues(first, remote, []);
    FlowNone(Nlroute, net, 2);
    assert FlowOf(Nlroute, net, Queues(first, remote, [])) == FlowAll(Nlroute, net, 0, first) + FlowAll(Nlroute, net, 1, remote) + multiset{};
    hide FlowOf, FlowAll, Flow, Inject, OtherCores, OtherNodes, AllBut, Net.Node, Net.Core, Net.Size;
    NlrouteFirstFlow(net, src, msg, net.cores, d);
    NodesOnly(net, src, msg, net.nodes, d);
    AllButAt(src, data, net.Size(), d);
    Whole(net, d.at);
    Whole(net, src);
  }

  /** All cores of every other node, when a remote arrival is passed on locally. */
  lemma {:induction false} NodesWhole(net: Net, rank: nat, msg: Message, k: nat, d: Delivery)
    requires net.cores > 0 && msg.bcast
    ensures FlowAll(Nrroute, net, 1, OtherNodes(net, rank, msg, k))[d]
      == if Carries(msg, d) && net.Node(d.at) < k && net.Node(d.at) != net.Node(rank) then 1 else 0
  {
    hide Net.Node, Net.Core, Net.Rank, FlowAll, Flow;
    FlowNone(Nrroute, net, 1);
    if k > 0 {
      var before, p := OtherNodes(net, rank, msg, k - 1), Packet(net.Rank(k - 1, net.Core(rank)), msg);
      NodesWhole(net, rank, msg, k - 1, d);
      NodesAt(net, rank, k - 1, d.at);
      FlowAdd(Nrroute, net, 1, before, p);
      NodeFlow(Nrroute, net, p, d);
      assert before + [] == before;
    }
  }

  lemma {:induction false} NrrouteBcast(net: Net, src: nat, data: nat, d: Delivery)
    requires net.Valid() && src < net.Size()
    ensures FlowOf(Nrroute, net, Inject(Nrroute, net, Bcast(src, data)))[d] == Expected(net, Bcast(src, data))[d]
  {
    var msg := Header(true, 0, 0, data);
    var remote, second := OtherNodes(net, src, msg, net.nodes), OtherCores(net, src, msg, net.cores);
    assert Inject(Nrroute, net, Bcast(src, data)) == Queues([], remote, second);
    FlowNone(Nrroute, net, 0);
    assert FlowOf(Nrroute, net, Queues([], remote, second)) == multiset{} + FlowAll(Nrroute, net, 1, remote) + FlowAll(Nrroute, net, 2, second);
    hide FlowOf, FlowAll, Flow, Inject, OtherCores, OtherNodes, AllBut, Net.Node, Net.Core, Net.Size;
    NodesWhole(net, src, msg, net.nodes, d);
    CoresLast(Nrroute, net, src, msg, net.cores, d);
    AllButAt(src, data, net.Size(), d);
    Whole(net, d.at);
    Whole(net, src);
  }

  lemma {:induction false} RanksOnly(net: Net, src: nat, data: nat, k: nat, d: Delivery)
    requires net.cores > 0
    ensures FlowAll(Noroute, net, 1, OtherRanks(src, data, k))[d] == AllBut(src, data, k)[d]
  {
    hide FlowAll, Flow;
    FlowNone(Noroute, net, 1);
    if k > 0 {
      var before, p := OtherRanks(src, data, k - 1), Packet(k - 1, Message(true, 0, (k - 1) % 0x4000_0000, data));
      RanksOnly(net, src, data, k - 1, d);
      FlowAdd(Noroute, net, 1, before, p);
      RemoteLast(net, p);
      assert before + [] == before;
    }
  }

  lemma {:induction false} NorouteBcast(net: Net, src: nat, data: nat, d: Delivery)
    requires net.Valid() && src < net.Size()
    ensures FlowOf(Noroute, net, Inject(Noroute, net, Bcast(src, data)))[d] == Expected(net, Bcast(src, data))[d]
  {
    FlowNone(Noroute, net, 0);
    FlowNone(Noroute, net, 2);
    RanksOnly(net, src, data, net.Size(), d);
  }

  // Single messages

  lemma {:induction false} RemoteFits(node: nat, mine: nat, k: nat)
    requires k > 0 && mine < k
    ensures node / k <= node
    ensures node % k > mine ==> 2 * (node / k) + 1 <= node
    ensures node % k != mine ==> 2 * (node / k) <= node
  {
    var q, c := node / k, node % k;
    Quotient(node, k);
    if q > 0 {
      TimesAtLeast(q, k);
    }
  }

  lemma {:induction false} TimesAtLeast(q: nat, k: nat)
    ensures k >= 1 ==> q <= q * k
    ensures k >= 2 ==> 2 * q <= q * k
  {
  }

  /** Group rank at which a message leaves the node for another: as the sender computes it. */
  function RemoteOf(net: Net, here: nat, node: nat): nat
    requires net.cores > 0
  {
    var layer, mine := net.Layer(node), net.Layer(here);
    if mine == layer then net.Row(node) else 2 * net.Row(node) + if layer > mine then 1 else 0
  }

  lemma {:induction false} RemoteHeader(net: Net, here: nat, node: nat, local: nat, data: nat)
    requires net.Valid() && node < net.nodes && local < net.cores
    ensures Header(false, local, RemoteOf(net, here, node), data) == Message(false, local, RemoteOf(net, here, node), data)
  {
    Quotient(here, net.cores);
    RemoteFits(node, net.Layer(here), net.cores);
  }

  /** On the right core of the node, the group rank the sender computed is that of the other node's member. */
  lemma {:induction false} PartnerAt(net: Net, r: nat, node: nat, msg: Message)
    requires net.Valid() && r < net.Size() && node < net.nodes && net.Core(r) == net.Layer(node)
    ensures ToPartner(net, r, RemoteOf(net, net.Node(r), node), msg) == [Packet(net.Rank(node, net.Layer(net.Node(r))), msg)]
    ensures net.Rank(node, net.Layer(net.Node(r))) in Group(net, r)
  {
    var a, b := net.Core(r), net.Layer(net.Node(r));
    ColorIsPair(net, r);
    assert IndexOf(net, a, b, node) == RemoteOf(net, net.Node(r), node);
    GroupMember(net, a, b, node);
    assert MemberCore(net, a, b, node) == b;
  }

  /** From there the message goes to the right node and on to its core. */
  lemma {:induction false} PartnerHop(net: Net, r: nat, node: nat, local: nat, data: nat)
    requires net.Valid() && r < net.Size() && node < net.nodes && local < net.cores
    requires net.Core(r) == net.Layer(node)
    ensures var remote := RemoteOf(net, net.Node(r), node); var msg := Message(false, local, remote, data);
      FlowAll(Nlnr, net, 1, ToPartner(net, r, remote, msg)) == multiset{Delivery(net.Rank(node, local), false, data)}
  {
    var b, msg := net.Layer(net.Node(r)), Message(false, local, RemoteOf(net, net.Node(r), node), data);
    PartnerAt(net, r, node, msg);
    ColorIsPair(net, r);
    hide ToPartner, Group, RemoteOf;
    var p := Packet(net.Rank(node, b), msg);
    FlowOne(Nlnr, net, 1, p);
    Parts(net, node, b);
    hide Net.Layer;
    LastHop(net, p, node, local);
  }

  lemma {:induction false} LastHop(net: Net, p: Packet, node: nat, local: nat)
    requires net.cores > 0 && !p.msg.bcast && p.msg.local == local < net.cores
    requires net.Node(p.to) == node
    ensures Flow(Nlnr, net, 1, p) == multiset{Delivery(net.Rank(node, local), false, p.msg.data)}
  {
    Whole(net, p.to);
    FlowNone(Nlnr, net, 2);
    if local != net.Core(p.to) {
      FlowOne(Nlnr, net, 2, Packet(net.Rank(node, local), p.msg));
    }
  }

  lemma {:induction false} NlnrSendExact(net: Net, src: nat, dest: nat, data: nat)
    requires net.Valid() && src < net.Size() && dest < net.Size()
    ensures FlowOf(Nlnr, net, NlnrSend(net, src, dest, data)) == multiset{Delivery(dest, false, data)}
  {
    var local, node, here := net.Core(dest), net.Node(dest), net.Node(src);
    Whole(net, dest);
    Whole(net, src);
    FlowNone(Nlnr, net, 0);
    FlowNone(Nlnr, net, 1);
    FlowNone(Nlnr, net, 2);
    if node == here {
      FlowOne(Nlnr, net, 2, Packet(dest, Header(false, local, node, data)));
    } else {
      var remote, layer := RemoteOf(net, here, node), net.Layer(node);
      var msg := Message(false, local, remote, data);
      RemoteHeader(net, here, node, local, data);
      LayerBound(net, node);
      if net.Core(src) == layer {
        assert NlnrSend(net, src, dest, data) == Queues([], ToPartner(net, src, remote, msg), []);
        hide NlnrSend, ToPartner, RemoteOf, Flow, FlowAll, Net.Node, Net.Core, Net.Layer;
        PartnerHop(net, src, node, local, data);
      } else {
        var p := Packet(net.Rank(here, layer), msg);
        assert NlnrSend(net, src, dest, data) == Queues([p], [], []);
        Parts(net, here, layer);
        assert Flow(Nlnr, net, 0, p) == FlowAll(Nlnr, net, 1, ToPartner(net, p.to, remote, msg));
        hide NlnrSend, ToPartner, RemoteOf, Flow, FlowAll, Net.Node, Net.Core, Net.Layer;
        FlowOne(Nlnr, net, 0, p);
        PartnerHop(net, p.to, node, local, data);
      }
    }
  }

  lemma {:induction false} PlainHeader(net: Net, dest: nat, data: nat)
    requires net.Valid() && dest < net.Size()
    ensures Header(false, net.Core(dest), net.Node(dest), data) == Message(false, net.Core(dest), net.Node(dest), data)
  {
    Whole(net, dest);
  }

  lemma {:induction false} NlrouteSendExact(net: Net, src: nat, dest: nat, data: nat)
    requires net.Valid() && src < net.Size() && dest < net.Size()
    ensures FlowOf(Nlroute, net, Inject(Nlroute, net, Send(src, dest, data))) == multiset{Delivery(dest, false, data)}
    ensures var q := Inject(Nlroute, net, Send(src, dest, data));
      if net.Core(dest) == net.Core(src) then
        q.first == [] && |q.remote| == 1 && q.remote[0].to == dest && q.second == []
      else
        |q.first| == 1 && q.first[0].to == net.Rank(net.Node(src), net.Core(dest)) && q.remote == [] && q.second == []
  {
    var local, node, here := net.Core(dest), net.Node(dest), net.Node(src);
    var msg := Message(false, local, node, data);
    PlainHeader(net, dest, data);
    Whole(net, dest);
    FlowNone(Nlroute, net, 0);
    FlowNone(Nlroute, net, 1);
    FlowNone(Nlroute, net, 2);
    var last := Packet(dest, msg);
    RemoteLast(net, last);
    FlowOne(Nlroute, net, 1, last);
    if local != net.Core(src) {
      var p := Packet(net.Rank(here, local), msg);
      Parts(net, here, local);
      FlowOne(Nlroute, net, 0, p);
      if here == node {
        assert Flow(Nlroute, net, 0, p) == Deliver(p) + FlowAll(Nlroute, net, 1, []);
      } else {
        assert Flow(Nlroute, net, 0, p) == multiset{} + FlowAll(Nlroute, net, 1, [last]);
      }
    }
  }

  lemma {:induction false} NrrouteSendExact(net: Net, src: nat, dest: nat, data: nat)
    requires net.Valid() && src < net.Size() && dest < net.Size()
    ensures FlowOf(Nrroute, net, Inject(Nrroute, net, Send(src, dest, data))) == multiset{Delivery(dest, false, data)}
    ensures var q := Inject(Nrroute, net, Send(src, dest, data));
      if net.Node(dest) == net.Node(src) then
        q.first == [] && q.remote == [] && |q.second| == 1 && q.second[0].to == dest
      else
        q.first == [] && |q.remote| == 1 && q.remote[0].to == net.Rank(net.Node(dest), net.Core(src)) && q.second == []
  {
    var local, node, here := net.Core(dest), net.Node(dest), net.Node(src);
    var msg := Message(false, local, node, data);
    PlainHeader(net, dest, data);
    Whole(net, dest);
    Whole(net, src);
    FlowNone(Nrroute, net, 0);
    FlowNone(Nrroute, net, 1);
    FlowNone(Nrroute, net, 2);
    var last := Packet(dest, msg);
    FlowLast(Nrroute, net, last);
    FlowOne(Nrroute, net, 2, last);
    if node != here {
      var p := Packet(net.Rank(node, net.Core(src)), msg);
      Parts(net, node, net.Core(src));
      FlowOne(Nrroute, net, 1, p);
      if local == net.Core(src) {
        assert Flow(Nrroute, net, 1, p) == Deliver(p) + FlowAll(Nrroute, net, 2, []);
      } else {
        assert Flow(Nrroute, net, 1, p) == multiset{} + FlowAll(Nrroute, net, 2, [last]);
      }
    }
  }

  lemma {:induction false} NorouteSendExact(net: Net, src: nat, dest: nat, data: nat)
    requires net.Valid() && src < net.Size() && dest < net.Size()
    ensures FlowOf(Noroute, net, Inject(Noroute, net, Send(src, dest, data))) == multiset{Delivery(dest, false, data)}
  {
    FlowNone(Noroute, net, 0);
    FlowNone(Noroute, net, 2);
    var p := Packet(dest, Message(false, 0, dest % 0x4000_0000, data));
    FlowOne(Noroute, net, 1, p);
    RemoteLast(net, p);
  }

  /** Whatever the mailbox: a message is delivered once at its destination, a broadcast once at every other rank. */
  lemma {:induction false} RoutedExactly(route: Route, net: Net, item: Item)
    requires net.Valid() && ValidItem(net, item)
    ensures FlowOf(route, net, Inject(route, net, item)) == Expected(net, item)
  {
    match item
    case Send(src, dest, data) =>
      hide FlowOf, NlnrSend;
      match route {
        case Nlnr => NlnrSendExact(net, src, dest, data);
        case Nlroute => NlrouteSendExact(net, src, dest, data);
        case Nrroute => NrrouteSendExact(net, src, dest, data);
        case Noroute => NorouteSendExact(net, src, dest, data);
      }
    case Bcast(src, data) =>
      hide FlowOf, Inject, Expected;
      forall d: Delivery
        ensures FlowOf(route, net, Inject(route, net, item))[d] == Expected(net, item)[d]
      {
        match route
        case Nlnr => NlnrBcast(net, src, data, d);
        case Nlroute => NlrouteBcast(net, src, data, d);
        case Nrroute => NrrouteBcast(net, src, data, d);
        case Noroute => NorouteBcast(net, src, data, d);
      }
  }
}
