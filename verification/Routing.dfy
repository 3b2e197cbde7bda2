/**
 The four mailboxes. A message passes up to three exchanges: among the cores of a node, between
 nodes, and among the cores of the node it reaches. Each mailbox says where a message is queued
 when it is sent and what a rank does with one that arrives.
 */
module Routing {
  import opened Network

  datatype Route = Nlnr | Nlroute | Nrroute | Noroute

  datatype Message = Message(bcast: bool, local: nat, node: nat, data: nat)

  /** A message queued for a world rank. */
  datatype Packet = Packet(to: nat, msg: Message)

  datatype Delivery = Delivery(at: nat, bcast: bool, data: nat)

  datatype Item = Send(src: nat, dest: nat, data: nat) | Bcast(src: nat, data: nat)

  /** Queues of the first local, the remote and the second local exchange. */
  datatype Queues = Queues(first: seq<Packet>, remote: seq<Packet>, second: seq<Packet>)

  /** The header has 6 bits for a core and 24 for a node or group rank. */
  function Header(bcast: bool, local: nat, node: nat, data: nat): Message {
    Message(bcast, local % 64, node % 0x100_0000, data)
  }

  // Loops that queue one message to many ranks

  function OtherCores(net: Net, rank: nat, msg: Message, k: nat): seq<Packet>
    requires net.cores > 0
  {
    if k == 0 then []
    else OtherCores(net, rank, msg, k - 1) +
         (if k - 1 == net.Core(rank) then [] else [Packet(net.Rank(net.Node(rank), k - 1), msg)])
  }

  function OtherNodes(net: Net, rank: nat, msg: Message, k: nat): seq<Packet>
    requires net.cores > 0
  {
    if k == 0 then []
    else OtherNodes(net, rank, msg, k - 1) +
         (if k - 1 == net.Node(rank) then [] else [Packet(net.Rank(k - 1, net.Core(rank)), msg)])
  }

  function OtherRanks(rank: nat, data: nat, k: nat): seq<Packet> {
    if k == 0 then []
    else OtherRanks(rank, data, k - 1) +
         (if k - 1 == rank then [] else [Packet(k - 1, Message(true, 0, (k - 1) % 0x4000_0000, data))])
  }

  /** Rank of a process in its group of local and remote partners. */
  function OwnIndex(net: Net, rank: nat): nat
    requires net.cores > 0
  {
    |Members(net, net.Color(rank), rank)|
  }

  predicate Chosen(net: Net, rank: nat, i: nat)
    requires net.cores > 0
  {
    var own := OwnIndex(net, rank);
    i != own && (net.Core(rank) == net.Layer(net.Node(rank)) || own % 2 != i % 2)
  }

  /** The loop over the group, skipping itself and, off the layer, those of its own parity. */
  function Partners(net: Net, rank: nat, msg: Message, k: nat): seq<Packet>
    requires net.cores > 0 && k <= |Group(net, rank)|
  {
    if k == 0 then []
    else Partners(net, rank, msg, k - 1) +
         (if Chosen(net, rank, k - 1) then [Packet(Group(net, rank)[k - 1], msg)] else [])
  }

  /** Queueing for a rank of the group; outside it there is nobody. */
  function ToPartner(net: Net, rank: nat, i: nat, msg: Message): seq<Packet>
    requires net.cores > 0
  {
    if i < |Group(net, rank)| then [Packet(Group(net, rank)[i], msg)] else []
  }

  // Sending

  function NlnrSend(net: Net, src: nat, dest: nat, data: nat): Queues
    requires net.cores > 0
  {
    var local, node, here := net.Core(dest), net.Node(dest), net.Node(src);
    if node == here then
      Queues([], [], [Packet(net.Rank(here, local), Header(false, local, node, data))])
    else
      var layer, mine := net.Layer(node), net.Layer(here);
      var remote := if mine == layer then net.Row(node) else 2 * net.Row(node) + if layer > mine then 1 else 0;
      var msg := Header(false, local, remote, data);
      if net.Core(src) == layer then Queues([], ToPartner(net, src, remote, msg), [])
      else Queues([Packet(net.Rank(here, layer), msg)], [], [])
  }

  function Inject(route: Route, net: Net, item: Item): Queues
    requires net.cores > 0
  {
    match item
    case Send(src, dest, data) =>
      var local, node, here := net.Core(dest), net.Node(dest), net.Node(src);
      var msg := Header(false, local, node, data);
      (match route
       case Nlnr => NlnrSend(net, src, dest, data)
       case Nlroute =>
         if local == net.Core(src) then Queues([], [Packet(net.Rank(node, net.Core(src)), msg)], [])
         else Queues([Packet(net.Rank(here, local), msg)], [], [])
       case Nrroute =>
         if node == here then Queues([], [], [Packet(net.Rank(here, local), msg)])
         else Queues([], [Packet(net.Rank(node, net.Core(src)), msg)], [])
       case Noroute => Queues([], [Packet(dest, Message(false, 0, dest % 0x4000_0000, data))], []))
    case Bcast(src, data) =>
      var msg := Header(true, 0, 0, data);
      match route
      case Nlnr =>
        Queues(OtherCores(net, src, msg, net.cores), Partners(net, src, msg, |Group(net, src)|), [])
      case Nlroute =>
        Queues(OtherCores(net, src, msg, net.cores), OtherNodes(net, src, msg, net.nodes), [])
      case Nrroute =>
        Queues([], OtherNodes(net, src, msg, net.nodes), OtherCores(net, src, msg, net.cores))
      case Noroute => Queues([], OtherRanks(src, data, net.Size()), [])
  }

  // Receiving

  function Deliver(p: Packet): multiset<Delivery> {
    multiset{Delivery(p.to, p.msg.bcast, p.msg.data)}
  }

  predicate ForMe(net: Net, p: Packet)
    requires net.cores > 0
  {
    p.msg.local == net.Core(p.to) && p.msg.node == net.Node(p.to)
  }

  /** What the receiver hands to the application in stage 0, 1 or 2. */
  function Received(route: Route, net: Net, stage: nat, p: Packet): multiset<Delivery>
    requires net.cores > 0
  {
    if stage == 0 then
      (match route
       case Nlnr => if p.msg.bcast then Deliver(p) else multiset{}
       case Nlroute => if p.msg.bcast || ForMe(net, p) then Deliver(p) else multiset{}
       case Nrroute => multiset{}
       case Noroute => multiset{})
    else if stage == 1 then
      match route
      case Nlnr => if p.msg.bcast || p.msg.local == net.Core(p.to) then Deliver(p) else multiset{}
      case Nlroute => Deliver(p)
      case Nrroute => if p.msg.bcast || ForMe(net, p) then Deliver(p) else multiset{}
      case Noroute => Deliver(p)
    else Deliver(p)
  }

  /** What the receiver queues for the next stage. */
  function Forwarded(route: Route, net: Net, stage: nat, p: Packet): seq<Packet>
    requires net.cores > 0
  {
    if stage == 0 then
      (match route
       case Nlnr =>
         if p.msg.bcast then Partners(net, p.to, p.msg, |Group(net, p.to)|)
         else ToPartner(net, p.to, p.msg.node, p.msg)
       case Nlroute =>
         if p.msg.bcast then OtherNodes(net, p.to, p.msg, net.nodes)
         else if ForMe(net, p) then []
         else [Packet(net.Rank(p.msg.node, net.Core(p.to)), p.msg)]
       case Nrroute => []
       case Noroute => [])
    else if stage == 1 then
      match route
      case Nlnr =>
        if p.msg.bcast then OtherCores(net, p.to, p.msg, net.cores)
        else if p.msg.local == net.Core(p.to) then []
        else [Packet(net.Rank(net.Node(p.to), p.msg.local), p.msg)]
      case Nlroute => []
      case Nrroute =>
        if p.msg.bcast then OtherCores(net, p.to, p.msg, net.cores)
        else if ForMe(net, p) then []
        else [Packet(net.Rank(net.Node(p.to), p.msg.local), p.msg)]
      case Noroute => []
    else []
  }

  /** Everything a packet leads to in its own and the later stages. */
  function Flow(route: Route, net: Net, stage: nat, p: Packet): multiset<Delivery>
    requires net.cores > 0 && stage <= 2
    decreases 2 - stage, 0, 1
  {
    Received(route, net, stage, p) +
      if stage < 2 then FlowAll(route, net, stage + 1, Forwarded(route, net, stage, p)) else multiset{}
  }

  function FlowAll(route: Route, net: Net, stage: nat, ps: seq<Packet>): multiset<Delivery>
    requires net.cores > 0 && stage <= 2
    decreases 2 - stage, |ps|, 2
  {
    if ps == [] then multiset{}
    else FlowAll(route, net, stage, ps[..|ps| - 1]) + Flow(route, net, stage, ps[|ps| - 1])
  }

  function FlowOf(route: Route, net: Net, q: Queues): multiset<Delivery>
    requires net.cores > 0
  {
    FlowAll(route, net, 0, q.first) + FlowAll(route, net, 1, q.remote) + FlowAll(route, net, 2, q.second)
  }

  // What the application is promised

  function AllBut(src: nat, data: nat, n: nat): multiset<Delivery> {
    if n == 0 then multiset{}
    else AllBut(src, data, n - 1) + if n - 1 == src then multiset{} else multiset{Delivery(n - 1, true, data)}
  }

  /** A message once at its destination; a broadcast once at every other rank. */
  function Expected(net: Net, item: Item): multiset<Delivery> {
    match item
    case Send(_, dest, data) => multiset{Delivery(dest, false, data)}
    case Bcast(src, data) => AllBut(src, data, net.Size())
  }

  ghost predicate ValidItem(net: Net, item: Item) {
    item.src < net.Size() && (item.Send? ==> item.dest < net.Size() && item.dest != item.src)
  }
}
