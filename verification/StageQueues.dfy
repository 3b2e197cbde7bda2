/**
 What the ranks have in their queues when each stage starts, from what they sent and what earlier stages
 forwarded: only packets for other members of the stage's group, and together all that has to be delivered.
 */
module StageQueues {
  import opened Network
  import opened Routing
  import opened RoutingExactness
  import opened Exchange
  import opened ExchangeCounts
  import opened HopGroups

  // Only for members of the group

  /** Packets queued at a rank for a stage stay in its group and have headers that lead on. */
  ghost predicate Local(route: Route, net: Net, queue: nat, r: nat, ps: seq<Packet>)
    requires net.cores > 0
  {
    forall p | p in ps :: Hop(route, net, queue, r, p) && Leads(route, net, queue, p)
  }

  lemma {:induction false} SentLocal(route: Route, net: Net, r: nat, items: seq<Item>, queue: nat)
    requires net.Valid() && queue <= 2 && forall i | 0 <= i < |items| :: Sendable(net, r, items[i])
    ensures Local(route, net, queue, r, QueueOf(InjectAll(route, net, items), queue))
  {
    hide Hop, Leads, Inject, Net.Size;
    if items != [] {
      var k := |items| - 1;
      SentLocal(route, net, r, items[..k], queue);
      assert Sendable(net, r, items[k]);
      forall p | p in QueueOf(Inject(route, net, items[k]), queue)
        ensures Hop(route, net, queue, r, p) && Leads(route, net, queue, p)
      {
        HopsInGroup(route, net, items[k], queue, r, p);
      }
    }
  }

  lemma {:induction false} ForwardLocal(route: Route, net: Net, stage: nat, p: Packet)
    requires net.Valid() && stage < 2 && Leads(route, net, stage, p)
    ensures Local(route, net, stage + 1, p.to, Forwarded(route, net, stage, p))
  {
    hide Hop, Forwarded, Net.Size;
    LeadsInWorld(route, net, stage, p);
    hide Leads;
    forall q | q in Forwarded(route, net, stage, p)
      ensures Hop(route, net, stage + 1, p.to, q) && Leads(route, net, stage + 1, q)
    {
      if p.msg.bcast {
        BcastForwards(route, net, stage, p, q);
      } else {
        SendForwards(route, net, stage, p, q);
      }
    }
  }

  lemma {:induction false} OnwardsLocal(route: Route, net: Net, stage: nat, ps: seq<Packet>, r: nat)
    requires net.Valid() && stage < 2 && forall p | p in ps :: Leads(route, net, stage, p)
    ensures Local(route, net, stage + 1, r, Onwards(route, net, stage, ps, r))
  {
    hide Hop, Leads, Forwarded;
    if ps != [] {
      OnwardsLocal(route, net, stage, ps[..|ps| - 1], r);
      ForwardLocal(route, net, stage, ps[|ps| - 1]);
    }
  }

  lemma {:induction false} FlatMember(qs: seq<seq<Packet>>, p: Packet)
    ensures p in Flat(qs) <==> exists r :: 0 <= r < |qs| && p in qs[r]
  {
    if qs != [] {
      var k := |qs| - 1;
      FlatMember(qs[..k], p);
      if r :| 0 <= r < |qs| && p in qs[r] {
        assert r < k ==> p in qs[..k][r];
      }
    }
  }

  ghost predicate AllLocal(route: Route, net: Net, queue: nat, qs: seq<seq<Packet>>)
    requires net.cores > 0
  {
    forall r | 0 <= r < |qs| :: Local(route, net, queue, r, qs[r])
  }

  lemma {:induction false} FlatLeads(route: Route, net: Net, queue: nat, qs: seq<seq<Packet>>)
    requires net.cores > 0 && AllLocal(route, net, queue, qs)
    ensures forall p | p in Flat(qs) :: Leads(route, net, queue, p) && p.to < net.Size()
  {
    hide Hop, Leads, Flat, Net.Size;
    forall p | p in Flat(qs)
      ensures Leads(route, net, queue, p) && p.to < net.Size()
    {
      FlatMember(qs, p);
      LeadsInWorld(route, net, queue, p);
    }
  }

  /** In every stage, every rank's queue is for other members of its group only. */
  lemma {:induction false} QueuesLocal(route: Route, net: Net, items: seq<seq<Item>>)
    requires Sending(net, items)
    ensures AllLocal(route, net, 0, Firsts(route, net, items))
    ensures AllLocal(route, net, 1, Remotes(route, net, items))
    ensures AllLocal(route, net, 2, Seconds(route, net, items))
  {
    hide Hop, Leads, InjectAll, Onwards, Flat, Sendable, Net.Size;
    var firsts, remotes, seconds := Firsts(route, net, items), Remotes(route, net, items), Seconds(route, net, items);
    forall r | 0 <= r < |items|
      ensures Local(route, net, 0, r, firsts[r])
    {
      SentLocal(route, net, r, items[r], 0);
    }
    FlatLeads(route, net, 0, firsts);
    forall r | 0 <= r < |items|
      ensures Local(route, net, 1, r, remotes[r])
    {
      SentLocal(route, net, r, items[r], 1);
      OnwardsLocal(route, net, 0, Flat(firsts), r);
    }
    FlatLeads(route, net, 1, remotes);
    forall r | 0 <= r < |items|
      ensures Local(route, net, 2, r, seconds[r])
    {
      SentLocal(route, net, r, items[r], 2);
      OnwardsLocal(route, net, 1, Flat(remotes), r);
    }
  }

  // All that has to be delivered

  /** What the application gets when the packets arrive in a stage. */
  function Arriving(route: Route, net: Net, stage: nat, ps: seq<Packet>): multiset<Delivery>
    requires net.cores > 0
  {
    if ps == [] then multiset{}
    else Arriving(route, net, stage, ps[..|ps| - 1]) + Received(route, net, stage, ps[|ps| - 1])
  }

  /** What is forwarded in a stage, all ranks together, as deliveries to come. */
  function ToCome(route: Route, net: Net, stage: nat, ps: seq<Packet>): multiset<Delivery>
    requires net.cores > 0 && stage < 2
  {
    if ps == [] then multiset{}
    else ToCome(route, net, stage, ps[..|ps| - 1]) + FlowAll(route, net, stage + 1, Forwarded(route, net, stage, ps[|ps| - 1]))
  }

  lemma {:induction false} FlowSplit(route: Route, net: Net, stage: nat, ps: seq<Packet>)
    requires net.cores > 0 && stage < 2
    ensures FlowAll(route, net, stage, ps) == Arriving(route, net, stage, ps) + ToCome(route, net, stage, ps)
  {
    hide Flow, FlowAll, Forwarded, Received;
    FlowNone(route, net, stage);
    if ps != [] {
      var k := |ps| - 1;
      FlowSplit(route, net, stage, ps[..k]);
      assert ps == ps[..k] + [ps[k]];
      FlowAdd(route, net, stage, ps[..k], ps[k]);
      FlowParts(route, net, stage, ps[k]);
    }
  }

  lemma {:induction false} LastArriving(route: Route, net: Net, ps: seq<Packet>)
    requires net.cores > 0
    ensures FlowAll(route, net, 2, ps) == Arriving(route, net, 2, ps)
  {
    hide Flow, FlowAll;
    FlowNone(route, net, 2);
    if ps != [] {
      var k := |ps| - 1;
      LastArriving(route, net, ps[..k]);
      assert ps == ps[..k] + [ps[k]];
      FlowAdd(route, net, 2, ps[..k], ps[k]);
      FlowLast(route, net, ps[k]);
    }
  }

  /** Deliveries to come from what the first n ranks forward. */
  function ForwardedBy(route: Route, net: Net, stage: nat, ps: seq<Packet>, n: nat): multiset<Delivery>
    requires net.cores > 0 && stage < 2
  {
    if n == 0 then multiset{}
    else ForwardedBy(route, net, stage, ps, n - 1) + FlowAll(route, net, stage + 1, Onwards(route, net, stage, ps, n - 1))
  }

  lemma {:induction false} ForwardedOne(route: Route, net: Net, stage: nat, ps: seq<Packet>, n: nat)
    requires net.cores > 0 && stage < 2 && ps != []
    ensures var p := ps[|ps| - 1];
      ForwardedBy(route, net, stage, ps, n) == ForwardedBy(route, net, stage, ps[..|ps| - 1], n)
        + if p.to < n then FlowAll(route, net, stage + 1, Forwarded(route, net, stage, p)) else multiset{}
  {
    hide Flow, FlowAll, Forwarded;
    if n > 0 {
      var p, before := ps[|ps| - 1], Onwards(route, net, stage, ps[..|ps| - 1], n - 1);
      ForwardedOne(route, net, stage, ps, n - 1);
      if p.to == n - 1 {
        FlowConcat(route, net, stage + 1, before, Forwarded(route, net, stage, p));
      } else {
        assert before + [] == before;
      }
    }
  }

  lemma {:induction false} ForwardedNone(route: Route, net: Net, stage: nat, n: nat)
    requires net.cores > 0 && stage < 2
    ensures ForwardedBy(route, net, stage, [], n) == multiset{}
  {
    hide Flow, FlowAll;
    FlowNone(route, net, stage + 1);
    if n > 0 {
      ForwardedNone(route, net, stage, n - 1);
    }
  }

  /** All ranks together forward what there is to forward. */
  lemma {:induction false} ForwardedByAll(route: Route, net: Net, stage: nat, ps: seq<Packet>, n: nat)
    requires net.cores > 0 && stage < 2 && forall p | p in ps :: p.to < n
    ensures ForwardedBy(route, net, stage, ps, n) == ToCome(route, net, stage, ps)
  {
    hide Flow, FlowAll, Forwarded, ForwardedBy;
    if ps == [] {
      ForwardedNone(route, net, stage, n);
    } else {
      ForwardedOne(route, net, stage, ps, n);
      ForwardedByAll(route, net, stage, ps[..|ps| - 1], n);
    }
  }

  /** Deliveries that the queues qs of a stage lead to, rank by rank. */
  function FlowUpTo(route: Route, net: Net, stage: nat, qs: seq<seq<Packet>>, n: nat): multiset<Delivery>
    requires net.cores > 0 && stage <= 2 && n <= |qs|
  {
    if n == 0 then multiset{} else FlowUpTo(route, net, stage, qs, n - 1) + FlowAll(route, net, stage, qs[n - 1])
  }

  lemma {:induction false} FlatFlow(route: Route, net: Net, stage: nat, qs: seq<seq<Packet>>, n: nat)
    requires net.cores > 0 && stage <= 2 && n <= |qs|
    ensures FlowAll(route, net, stage, Flat(qs[..n])) == FlowUpTo(route, net, stage, qs, n)
  {
    hide Flow, FlowAll;
    FlowNone(route, net, stage);
    if n > 0 {
      assert qs[..n][..n - 1] == qs[..n - 1];
      FlatFlow(route, net, stage, qs, n - 1);
      FlowConcat(route, net, stage, Flat(qs[..n - 1]), qs[n - 1]);
    }
  }

  /** Queues of a later stage: what was sent to it, and what the stage before has forwarded. */
  lemma {:induction false} LaterFlow(route: Route, net: Net, stage: nat, sent: seq<seq<Packet>>, ps: seq<Packet>, qs: seq<seq<Packet>>, n: nat)
    requires net.cores > 0 && stage < 2 && n <= |sent| == |qs|
    requires forall r | 0 <= r < |qs| :: qs[r] == sent[r] + Onwards(route, net, stage, ps, r)
    ensures FlowUpTo(route, net, stage + 1, qs, n)
      == FlowUpTo(route, net, stage + 1, sent, n) + ForwardedBy(route, net, stage, ps, n)
  {
    hide Flow, FlowAll, Onwards;
    if n > 0 {
      LaterFlow(route, net, stage, sent, ps, qs, n - 1);
      FlowConcat(route, net, stage + 1, sent[n - 1], Onwards(route, net, stage, ps, n - 1));
    }
  }

  function SentTo(route: Route, net: Net, items: seq<seq<Item>>, queue: nat): (qs: seq<seq<Packet>>)
    requires net.cores > 0
    ensures |qs| == |items| && forall r | 0 <= r < |qs| :: qs[r] == QueueOf(InjectAll(route, net, items[r]), queue)
  {
    seq(|items|, (r: nat) requires r < |items| => QueueOf(InjectAll(route, net, items[r]), queue))
  }

  function ExpectedUpTo(net: Net, items: seq<seq<Item>>, n: nat): multiset<Delivery>
    requires n <= |items|
  {
    if n == 0 then multiset{} else ExpectedUpTo(net, items, n - 1) + ExpectedAll(net, items[n - 1])
  }

  lemma {:induction false} ThreeMore<T>(a: multiset<T>, b: multiset<T>, c: multiset<T>, x: multiset<T>, y: multiset<T>, z: multiset<T>)
    ensures (a + x) + (b + y) + (c + z) == (a + b + c) + (x + y + z)
  {
  }

  lemma {:induction false} SentFlow(route: Route, net: Net, items: seq<seq<Item>>, n: nat)
    requires Sending(net, items) && n <= |items|
    ensures FlowUpTo(route, net, 0, SentTo(route, net, items, 0), n) + FlowUpTo(route, net, 1, SentTo(route, net, items, 1), n)
      + FlowUpTo(route, net, 2, SentTo(route, net, items, 2), n) == ExpectedUpTo(net, items, n)
  {
    hide Flow, FlowAll, InjectAll, ExpectedAll, FlowOf, Net.Size;
    if n > 0 {
      SentFlow(route, net, items, n - 1);
      var r := n - 1;
      assert forall i | 0 <= i < |items[r]| :: Sendable(net, r, items[r][i]);
      InjectedFlow(route, net, items[r]);
      FlowOfIs(route, net, InjectAll(route, net, items[r]));
      hide SentTo;
      ThreeMore(FlowUpTo(route, net, 0, SentTo(route, net, items, 0), r), FlowUpTo(route, net, 1, SentTo(route, net, items, 1), r),
                FlowUpTo(route, net, 2, SentTo(route, net, items, 2), r), FlowAll(route, net, 0, SentTo(route, net, items, 0)[r]),
                FlowAll(route, net, 1, SentTo(route, net, items, 1)[r]), FlowAll(route, net, 2, SentTo(route, net, items, 2)[r]));
    }
  }

  lemma {:induction false} Cancel<T>(a: multiset<T>, b: multiset<T>, c: multiset<T>, toCome: multiset<T>, later: multiset<T>,
                                     x: multiset<T>, y: multiset<T>, z: multiset<T>)
    requires a + toCome == x && b + later == y + toCome && c == z + later
    ensures a + b + c == x + y + z
  {
    forall t: T
      ensures (a + b + c)[t] == (x + y + z)[t]
    {
      assert (a + toCome)[t] == x[t] && (b + later)[t] == (y + toCome)[t] && c[t] == (z + later)[t];
    }
  }

  lemma {:induction false} QueuesAre(route: Route, net: Net, items: seq<seq<Item>>)
    requires Sending(net, items)
    ensures |items| == net.Size() && net.cores > 0
    ensures Firsts(route, net, items) == SentTo(route, net, items, 0)
    ensures forall r | 0 <= r < |items| :: Remotes(route, net, items)[r]
              == SentTo(route, net, items, 1)[r] + Onwards(route, net, 0, Flat(Firsts(route, net, items)), r)
    ensures forall r | 0 <= r < |items| :: Seconds(route, net, items)[r]
              == SentTo(route, net, items, 2)[r] + Onwards(route, net, 1, Flat(Remotes(route, net, items)), r)
  {
    hide InjectAll, Onwards, Flat, Net.Size, Sendable;
  }

  lemma {:induction false} WholeFlow(route: Route, net: Net, stage: nat, qs: seq<seq<Packet>>)
    requires net.cores > 0 && stage <= 2
    ensures FlowAll(route, net, stage, Flat(qs)) == FlowUpTo(route, net, stage, qs, |qs|)
  {
    assert qs[..|qs|] == qs;
    FlatFlow(route, net, stage, qs, |qs|);
  }

  /** Arrivals in the three stages, all ranks together, are what was sent: each message and each broadcast as promised. */
  lemma {:induction false} StagesDeliver(route: Route, net: Net, items: seq<seq<Item>>)
    requires Sending(net, items)
    ensures Arriving(route, net, 0, Flat(Firsts(route, net, items))) + Arriving(route, net, 1, Flat(Remotes(route, net, items)))
      + Arriving(route, net, 2, Flat(Seconds(route, net, items))) == ExpectedUpTo(net, items, |items|)
  {
    hide *;
    QueuesAre(route, net, items);
    var n := |items|;
    var firsts, remotes, seconds := Firsts(route, net, items), Remotes(route, net, items), Seconds(route, net, items);
    SentFlow(route, net, items, n);
    QueuesLocal(route, net, items);
    FlatLeads(route, net, 0, firsts);
    FlatLeads(route, net, 1, remotes);
    LaterFlow(route, net, 0, SentTo(route, net, items, 1), Flat(firsts), remotes, n);
    LaterFlow(route, net, 1, SentTo(route, net, items, 2), Flat(remotes), seconds, n);
    ForwardedByAll(route, net, 0, Flat(firsts), n);
    ForwardedByAll(route, net, 1, Flat(remotes), n);
    FlowSplit(route, net, 0, Flat(firsts));
    FlowSplit(route, net, 1, Flat(remotes));
    LastArriving(route, net, Flat(seconds));
    WholeFlow(route, net, 0, firsts);
    WholeFlow(route, net, 1, remotes);
    WholeFlow(route, net, 2, seconds);
    Cancel(Arriving(route, net, 0, Flat(firsts)), Arriving(route, net, 1, Flat(remotes)), Arriving(route, net, 2, Flat(seconds)),
           ToCome(route, net, 0, Flat(firsts)), ToCome(route, net, 1, Flat(remotes)),
           FlowUpTo(route, net, 0, SentTo(route, net, items, 0), n), FlowUpTo(route, net, 1, SentTo(route, net, items, 1), n),
           FlowUpTo(route, net, 2, SentTo(route, net, items, 2), n));
  }
}
