/**
 The exchange itself: queued messages are delivered in any order, stage after stage, and every
 rank gets back a count that is zero only if nothing was queued anywhere.
 */
module Exchange {
  import opened Network
  import opened Routing
  import opened RoutingExactness

  // Delivering what is queued

  function InjectAll(route: Route, net: Net, items: seq<Item>): Queues
    requires net.cores > 0
  {
    if items == [] then Queues([], [], [])
    else
      var q, r := InjectAll(route, net, items[..|items| - 1]), Inject(route, net, items[|items| - 1]);
      Queues(q.first + r.first, q.remote + r.remote, q.second + r.second)
  }

  function ExpectedAll(net: Net, items: seq<Item>): multiset<Delivery> {
    if items == [] then multiset{}
    else ExpectedAll(net, items[..|items| - 1]) + Expected(net, items[|items| - 1])
  }

  lemma {:induction false} FlowConcat(route: Route, net: Net, stage: nat, ps: seq<Packet>, qs: seq<Packet>)
    requires net.cores > 0 && stage <= 2
    ensures FlowAll(route, net, stage, ps + qs) == FlowAll(route, net, stage, ps) + FlowAll(route, net, stage, qs)
    decreases |qs|
  {
    hide Flow, FlowAll;
    FlowNone(route, net, stage);
    if qs == [] {
      assert ps + qs == ps;
    } else {
      var k := |qs| - 1;
      FlowConcat(route, net, stage, ps, qs[..k]);
      FlowAdd(route, net, stage, ps + qs[..k], qs[k]);
      FlowAdd(route, net, stage, qs[..k], qs[k]);
      assert ps + qs[..k] + [qs[k]] == ps + qs && qs[..k] + [qs[k]] == qs;
    }
  }

  lemma {:induction false} FlowRemove(route: Route, net: Net, stage: nat, ps: seq<Packet>, i: nat)
    requires net.cores > 0 && stage <= 2 && i < |ps|
    ensures FlowAll(route, net, stage, ps) == FlowAll(route, net, stage, ps[..i] + ps[i + 1..]) + Flow(route, net, stage, ps[i])
  {
    hide Flow, FlowAll;
    assert ps == ps[..i] + [ps[i]] + ps[i + 1..];
    FlowConcat(route, net, stage, ps[..i] + [ps[i]], ps[i + 1..]);
    FlowAdd(route, net, stage, ps[..i], ps[i]);
    FlowConcat(route, net, stage, ps[..i], ps[i + 1..]);
  }

  lemma {:induction false} Regroup(done: multiset<Delivery>, rest: multiset<Delivery>, one: multiset<Delivery>, next: multiset<Delivery>,
                                   now: multiset<Delivery>, later: multiset<Delivery>)
    requires one == now + later
    ensures done + (rest + one) + next == done + now + rest + (next + later)
  {
  }

  lemma {:induction false} StageStep(route: Route, net: Net, stage: nat, done: multiset<Delivery>, pending: seq<Packet>, next: seq<Packet>, i: nat)
    requires net.cores > 0 && stage < 2 && i < |pending|
    ensures done + FlowAll(route, net, stage, pending) + FlowAll(route, net, stage + 1, next)
      == done + Received(route, net, stage, pending[i]) + FlowAll(route, net, stage, pending[..i] + pending[i + 1..])
         + FlowAll(route, net, stage + 1, next + Forwarded(route, net, stage, pending[i]))
  {
    hide *;
    var p := pending[i];
    FlowRemove(route, net, stage, pending, i);
    FlowParts(route, net, stage, p);
    FlowConcat(route, net, stage + 1, next, Forwarded(route, net, stage, p));
    Regroup(done, FlowAll(route, net, stage, pending[..i] + pending[i + 1..]), Flow(route, net, stage, p),
            FlowAll(route, net, stage + 1, next), Received(route, net, stage, p),
            FlowAll(route, net, stage + 1, Forwarded(route, net, stage, p)));
  }

  /** One stage: every queued packet arrives, in any order; some are delivered, some queued for the next stage. */
  method RunStage(route: Route, net: Net, stage: nat, queued: seq<Packet>, after: seq<Packet>)
    returns (delivered: multiset<Delivery>, next: seq<Packet>)
    requires net.cores > 0 && stage < 2
    ensures delivered + FlowAll(route, net, stage + 1, next)
      == FlowAll(route, net, stage, queued) + FlowAll(route, net, stage + 1, after)
  {
    hide *;
    var pending := queued;
    delivered, next := multiset{}, after;
    FlowNone(route, net, stage);
    ghost var total := FlowAll(route, net, stage, queued) + FlowAll(route, net, stage + 1, after);
    assert delivered + FlowAll(route, net, stage, pending) == FlowAll(route, net, stage, pending);
    while pending != []
      invariant delivered + FlowAll(route, net, stage, pending) + FlowAll(route, net, stage + 1, next) == total
      decreases |pending|
    {
      var i :| 0 <= i < |pending|;
      StageStep(route, net, stage, delivered, pending, next, i);
      delivered := delivered + Received(route, net, stage, pending[i]);
      next := next + Forwarded(route, net, stage, pending[i]);
      pending := pending[..i] + pending[i + 1..];
    }
    assert delivered + multiset{} == delivered;
  }

  lemma {:induction false} FlowParts(route: Route, net: Net, stage: nat, p: Packet)
    requires net.cores > 0 && stage < 2
    ensures Flow(route, net, stage, p)
      == Received(route, net, stage, p) + FlowAll(route, net, stage + 1, Forwarded(route, net, stage, p))
  {
  }

  method RunLastStage(route: Route, net: Net, queued: seq<Packet>) returns (delivered: multiset<Delivery>)
    requires net.cores > 0
    ensures delivered == FlowAll(route, net, 2, queued)
  {
    var pending := queued;
    delivered := multiset{};
    FlowNone(route, net, 2);
    hide Flow, FlowAll;
    while pending != []
      invariant delivered + FlowAll(route, net, 2, pending) == FlowAll(route, net, 2, queued)
      decreases |pending|
    {
      var i :| 0 <= i < |pending|;
      FlowRemove(route, net, 2, pending, i);
      FlowLast(route, net, pending[i]);
      delivered := delivered + Deliver(pending[i]);
      pending := pending[..i] + pending[i + 1..];
    }
  }

  /** The three stages of one exchange, drained in order. */
  method DoExchange(route: Route, net: Net, q: Queues) returns (delivered: multiset<Delivery>)
    requires net.cores > 0
    ensures delivered == FlowOf(route, net, q)
  {
    hide *;
    var d1, remote := RunStage(route, net, 0, q.first, q.remote);
    var d2, second := RunStage(route, net, 1, remote, q.second);
    var d3 := RunLastStage(route, net, second);
    delivered := d1 + d2 + d3;
    AddStages(FlowAll(route, net, 0, q.first), FlowAll(route, net, 1, q.remote), FlowAll(route, net, 2, q.second),
              FlowAll(route, net, 1, remote), d1, d2, d3);
    FlowOfIs(route, net, q);
  }

  lemma {:induction false} FlowOfIs(route: Route, net: Net, q: Queues)
    requires net.cores > 0
    ensures FlowOf(route, net, q)
      == FlowAll(route, net, 0, q.first) + FlowAll(route, net, 1, q.remote) + FlowAll(route, net, 2, q.second)
  {
  }

  lemma {:induction false} AddStages(first: multiset<Delivery>, remote: multiset<Delivery>, second: multiset<Delivery>,
                                     remote': multiset<Delivery>, d1: multiset<Delivery>, d2: multiset<Delivery>, d3: multiset<Delivery>)
    requires d1 + remote' == first + remote && d2 + d3 == remote' + second
    ensures d1 + d2 + d3 == first + remote + second
  {
    assert d1 + d2 + d3 == d1 + (d2 + d3);
    assert d1 + (remote' + second) == (d1 + remote') + second;
  }

  lemma {:induction false} AddQueues(a1: multiset<Delivery>, a2: multiset<Delivery>, a3: multiset<Delivery>,
                                     b1: multiset<Delivery>, b2: multiset<Delivery>, b3: multiset<Delivery>)
    ensures (a1 + b1) + (a2 + b2) + (a3 + b3) == (a1 + a2 + a3) + (b1 + b2 + b3)
  {
  }

  lemma {:induction false} InjectedFlow(route: Route, net: Net, items: seq<Item>)
    requires net.Valid() && forall i | 0 <= i < |items| :: ValidItem(net, items[i])
    ensures FlowOf(route, net, InjectAll(route, net, items)) == ExpectedAll(net, items)
  {
    if items == [] {
      FlowNone(route, net, 0);
      FlowNone(route, net, 1);
      FlowNone(route, net, 2);
    } else {
      var k := |items| - 1;
      var q, r := InjectAll(route, net, items[..k]), Inject(route, net, items[k]);
      var all := Queues(q.first + r.first, q.remote + r.remote, q.second + r.second);
      assert InjectAll(route, net, items) == all;
      assert ExpectedAll(net, items) == ExpectedAll(net, items[..k]) + Expected(net, items[k]);
      hide *;
      InjectedFlow(route, net, items[..k]);
      RoutedExactly(route, net, items[k]);
      FlowOfIs(route, net, all);
      FlowOfIs(route, net, q);
      FlowOfIs(route, net, r);
      FlowConcat(route, net, 0, q.first, r.first);
      FlowConcat(route, net, 1, q.remote, r.remote);
      FlowConcat(route, net, 2, q.second, r.second);
      AddQueues(FlowAll(route, net, 0, q.first), FlowAll(route, net, 1, q.remote), FlowAll(route, net, 2, q.second),
                FlowAll(route, net, 0, r.first), FlowAll(route, net, 1, r.remote), FlowAll(route, net, 2, r.second));
    }
  }

  /** Any mixture of messages and broadcasts from all ranks: routed delivery is direct delivery. */
  method DeliverAll(route: Route, net: Net, items: seq<Item>) returns (delivered: multiset<Delivery>)
    requires net.Valid() && forall i | 0 <= i < |items| :: ValidItem(net, items[i])
    ensures delivered == ExpectedAll(net, items) == FlowOf(Noroute, net, InjectAll(Noroute, net, items))
  {
    hide *;
    NetHasCores(net);
    InjectedFlow(route, net, items);
    InjectedFlow(Noroute, net, items);
    delivered := DoExchange(route, net, InjectAll(route, net, items));
  }

  lemma {:induction false} NetHasCores(net: Net)
    requires net.Valid()
    ensures net.cores > 0
  {
  }
}
