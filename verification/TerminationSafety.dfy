/** Safety of the tree-based termination detector, for every interleaving of its ranks and of the work. */
module TerminationSafety {
  import opened TerminationDetection

  // Work

  lemma {:induction false} WorkCounters(counters: seq<Counts>, h: History, previous: Counts, r: nat, c: Counts, counters': seq<Counts>)
    requires r < |counters| && counters' == counters[r := counters[r].Plus(c)]
    requires Timely(counters, h) && Compared(previous, counters, h) && Worked(counters)
    requires c.queued > 0 ==> Outstanding(counters)
    requires Total(counters).completed + c.completed <= Total(counters).queued + c.queued < MAX_COUNT
    ensures Timely(counters', h) && Compared(previous, counters', h) && Worked(counters')
    ensures !Outstanding(counters) ==> counters' == counters
  {
    TotalUpdate(counters, r, counters[r].Plus(c));
    if !Outstanding(counters) {
      assert counters[r].Plus(c) == counters[r];
    }
  }

  lemma {:induction false} WorkStep(t: Tree, s: System, h: History, r: nat, c: Counts, s': System)
    requires Invariant(t, s, h) && r < t.ranks
    requires c.queued > 0 ==> Outstanding(s.counters)
    requires Total(s.counters).completed + c.completed <= Total(s.counters).queued + c.queued < MAX_COUNT
    requires s' == s.(counters := s.counters[r := s.counters[r].Plus(c)])
    ensures Invariant(t, s', h)
  {
    hide Linkage, Locals, Waiting, Timely, Conserved, Compared, Worked, Total;
    WorkCounters(s.counters, h, s.nodes[0].previous, r, c, s'.counters);
    WorkLocals(t, s, h, s');
  }

  lemma {:induction false} WorkLocals(t: Tree, s: System, h: History, s': System)
    requires Shaped(t, s) && Shaped(t, s') && |h.status| == |h.samples| == t.ranks
    requires Locals(t, s, h.status) && Conserved(s, h.status, h.samples)
    requires s'.nodes == s.nodes && s'.queries == s.queries && s'.replies == s.replies
    ensures Locals(t, s', h.status) && Conserved(s', h.status, h.samples)
  {
    assert Parts(s', h.status) == Parts(s, h.status);
  }

  // Steps that leave the wave as it is

  lemma {:induction false} NodeStep(t: Tree, s: System, h: History, r: nat, n: Node, s': System)
    requires Invariant(t, s, h) && r < t.ranks
    requires s'.nodes == s.nodes[r := n]
    requires s'.counters == s.counters && s'.queries == s.queries && s'.replies == s.replies
    requires Shaped(t, s') && Reported(t, s')
    requires n.waiting == s.nodes[r].waiting && n.previous == s.nodes[r].previous
    requires Local(h.status[r], n, s.queries[r], s.replies[r])
    requires h.status[r].Engaged? ==> n.subtree == s.nodes[r].subtree
    ensures Invariant(t, s', h)
  {
    assert Parts(s', h.status) == Parts(s, h.status);
    hide Linkage, Total, Timely, Compared, Worked, Reported;
  }

  lemma {:induction false} TakeStopStep(t: Tree, s: System, h: History, r: nat, s': System)
    requires Invariant(t, s, h) && Enabled(t, s, TakeStop(r)) && s' == Next(t, s, TakeStop(r))
    ensures Invariant(t, s', Remember(t, s, h, TakeStop(r)))
  {
    assert s.reported[0];
    assert Reported(t, s');
    hide Invariant;
    NodeStep(t, s, h, r, s.nodes[r].Reset(), s');
  }

  // A rank forwards the query

  lemma {:induction false} EngageLinks(t: Tree, status: seq<Status>, r: nat)
    requires t.Valid() && Linkage(t, status) && r < t.ranks
    requires if r == 0 then status[r].Untouched? else status[r].Queried?
    ensures Linkage(t, Engage(t, r, status))
    ensures r > 0 ==> status[t.Parent(r)].Engaged?
    ensures forall c | c in t.Children(r) :: r < c < t.ranks && status[c].Untouched?
  {
    LeafHasNoChildren(t, r);
    var st := Engage(t, r, status);
    forall c | 0 < c < t.ranks
      ensures t.Parent(c) < t.ranks && Linked(st[t.Parent(c)], st[c])
      ensures c in t.Children(r) ==> status[c].Untouched?
    {
      var p := t.Parent(c);
      ParentChild(t, r, c);
      assert Linked(status[p], status[c]);
      if p > 0 {
        ParentChild(t, r, p);
        assert Linked(status[t.Parent(p)], status[p]);
      }
    }
  }

  lemma {:induction false} MissingSame(t: Tree, status: seq<Status>, st: seq<Status>, q: nat)
    requires |status| == |st| && forall c | 0 <= c < |st| :: st[c].Taken? <==> status[c].Taken?
    ensures Missing(t, st, q) == Missing(t, status, q)
  {
  }

  lemma {:induction false} EngageStatus(t: Tree, status: seq<Status>, r: nat)
    requires t.Valid() && r < t.ranks && |status| == t.ranks && !status[r].Engaged? && !status[r].Taken?
    requires forall c | c in t.Children(r) :: r < c < t.ranks && status[c].Untouched?
    ensures var st := Engage(t, r, status);
      && st[r].Engaged? && Missing(t, st, r) == t.Children(r)
      && (forall c | 0 <= c < |st| :: st[c].Taken? <==> status[c].Taken?)
      && (forall c | 0 <= c < |st| && c != r :: st[c].Engaged? <==> status[c].Engaged?)
  {
  }

  lemma {:induction false} EngageWaits(t: Tree, s: System, status: seq<Status>, r: nat, n: Node)
    requires t.Valid() && r < t.ranks && |status| == |s.nodes| == t.ranks
    requires Waiting(t, s.nodes, status) && !status[r].Engaged? && n.waiting == s.nodes[r].waiting
    requires !status[r].Taken? && forall c | c in t.Children(r) :: r < c < t.ranks && status[c].Untouched?
    ensures Waiting(t, s.nodes[r := n], Engage(t, r, status))
  {
    var st := Engage(t, r, status);
    EngageStatus(t, status, r);
    LeafHasNoChildren(t, r);
    hide Engage, Missing;
    forall q | 0 <= q < t.ranks
      ensures s.nodes[r := n][q].waiting == Wait(t, st, q)
    {
      MissingSame(t, status, st, q);
    }
  }

  lemma {:induction false} EngageLocals(t: Tree, s: System, status: seq<Status>, r: nat, queries: seq<nat>, s': System)
    requires t.Valid() && Shaped(t, s) && Shaped(t, s') && |status| == t.ranks && r < t.ranks
    requires Locals(t, s, status) && s.nodes[r].mode.WaitingInit?
    requires if r == 0 then queries == s.queries && status[0].Untouched? else s.queries[r] > 0 && queries == s.queries[r := s.queries[r] - 1]
    requires s'.nodes == s.nodes[r := s.nodes[r].Ask(t.NumChildren(r))] && s'.replies == s.replies
    requires s'.queries == ToChildren(t, r, queries)
    requires forall c | c in t.Children(r) :: r < c < t.ranks && status[c].Untouched?
    ensures Locals(t, s', Engage(t, r, status))
    ensures Parts(s', Engage(t, r, status)) == Parts(s, status)
  {
    var st := Engage(t, r, status);
    assert Local(status[r], s.nodes[r], s.queries[r], s.replies[r]);
    forall c | 0 <= c < t.ranks
      ensures Local(st[c], s'.nodes[c], s'.queries[c], s'.replies[c])
      ensures Part(st[c], s'.nodes[c], s'.replies[c]) == Part(status[c], s.nodes[c], s.replies[c])
    {
      assert Local(status[c], s.nodes[c], s.queries[c], s.replies[c]);
    }
  }

  lemma {:induction false} EngageSamples(t: Tree, h: History, r: nat, counters: seq<Counts>)
    requires t.Valid() && |h.status| == |h.samples| && r < |h.status| && Timely(counters, h)
    requires !h.status[r].Replied? && !h.status[r].Taken?
    requires forall c | c in t.Children(r) :: c < |h.status| && h.status[c].Untouched?
    ensures Samples(Engage(t, r, h.status), h.samples) == Samples(h.status, h.samples)
    ensures Timely(counters, h.(status := Engage(t, r, h.status)))
  {
    var st := Engage(t, r, h.status);
    assert forall c | 0 <= c < |st| && (st[c].Replied? || st[c].Taken?) :: st[c] == h.status[c];
    assert forall c | 0 <= c < |st| :: Sampled(st[c], h.samples[c]) == Sampled(h.status[c], h.samples[c]);
  }

  lemma {:induction false} LocalAt(t: Tree, s: System, h: History, r: nat)
    requires Invariant(t, s, h) && r < t.ranks
    ensures Local(h.status[r], s.nodes[r], s.queries[r], s.replies[r])
    ensures s.nodes[r].waiting == Wait(t, h.status, r)
    ensures r == 0 ==> h.status[0].Untouched? || h.status[0].Engaged?
  {
  }

  lemma {:induction false} EngageStep(t: Tree, s: System, h: History, r: nat, queries: seq<nat>, s': System)
    requires Invariant(t, s, h) && r < t.ranks && s.nodes[r].mode.WaitingInit?
    requires if r == 0 then queries == s.queries else s.queries[r] > 0 && queries == s.queries[r := s.queries[r] - 1]
    requires s' == s.(nodes := s.nodes[r := s.nodes[r].Ask(t.NumChildren(r))], queries := ToChildren(t, r, queries))
    ensures Invariant(t, s', h.(status := Engage(t, r, h.status)))
  {
    var status, st, n := h.status, Engage(t, r, h.status), s.nodes[r].Ask(t.NumChildren(r));
    hide Linkage, Locals, Waiting, Timely, Conserved, Compared, Worked, Engage, Parts, Samples, Total, ToChildren, Missing;
    LocalAt(t, s, h, r);
    EngageLinks(t, status, r);
    EngageWaits(t, s, status, r, n);
    EngageLocals(t, s, status, r, queries, s');
    EngageSamples(t, h, r, s.counters);
    SameSums(s, s', status, st, h.samples);
    SameComparison(s.nodes[0].previous, s.counters, h, h.(status := st));
  }

  lemma {:induction false} SameSums(s: System, s': System, status: seq<Status>, st: seq<Status>, samples: seq<Counts>)
    requires |s.nodes| == |s.replies| == |status| == |samples| == |s'.nodes| == |s'.replies| == |st|
    requires Conserved(s, status, samples)
    requires Parts(s', st) == Parts(s, status) && Samples(st, samples) == Samples(status, samples)
    ensures Conserved(s', st, samples)
  {
  }

  lemma {:induction false} SameComparison(previous: Counts, counters: seq<Counts>, h: History, g: History)
    requires Compared(previous, counters, h) && g.before == h.before && g.mid == h.mid && g.seen == h.seen
    ensures Compared(previous, counters, g)
  {
  }

  // A rank answers

  lemma {:induction false} AllTaken(t: Tree, status: seq<Status>, r: nat, c: nat)
    requires t.Valid() && |status| == t.ranks && Missing(t, status, r) == {} && c in t.Children(r)
    ensures c < t.ranks && status[c].Taken?
  {
    LeafHasNoChildren(t, r);
    assert c !in Missing(t, status, r);
  }

  lemma {:induction false} ReplyLinks(t: Tree, status: seq<Status>, r: nat)
    requires t.Valid() && Linkage(t, status) && 0 < r < t.ranks
    requires status[r].Engaged? && Missing(t, status, r) == {}
    ensures Linkage(t, status[r := Replied])
  {
    var st := status[r := Replied];
    forall c | 0 < c < t.ranks
      ensures t.Parent(c) < t.ranks && Linked(st[t.Parent(c)], st[c])
    {
      ParentChild(t, r, c);
      assert Linked(status[t.Parent(c)], status[c]);
      if t.Parent(c) == r {
        AllTaken(t, status, r, c);
      }
    }
  }

  lemma {:induction false} ReplyWaits(t: Tree, nodes: seq<Node>, status: seq<Status>, r: nat, n: Node)
    requires t.Valid() && r < t.ranks && |status| == |nodes| == t.ranks
    requires Waiting(t, nodes, status) && status[r].Engaged? && n.waiting == t.NumChildren(r)
    ensures Waiting(t, nodes[r := n], status[r := Replied])
  {
    var st := status[r := Replied];
    forall q | 0 <= q < t.ranks
      ensures nodes[r := n][q].waiting == Wait(t, st, q)
    {
      assert Missing(t, st, q) == Missing(t, status, q);
    }
  }

  lemma {:induction false} ReplyConserves(s: System, s': System, status: seq<Status>, samples: seq<Counts>, r: nat, own: Counts)
    requires |s.nodes| == |s.replies| == |status| == |samples| && r < |status|
    requires Conserved(s, status, samples) && status[r].Engaged? && s.replies[r] == []
    requires |s'.nodes| == |s.nodes| && s'.replies == s.replies[r := [s.nodes[r].subtree.Plus(own)]]
    requires s'.nodes == s.nodes[r := s'.nodes[r]]
    ensures Conserved(s', status[r := Replied], samples[r := own])
  {
    var ps, qs := Parts(s, status), Samples(status, samples);
    var held := s.nodes[r].subtree;
    assert Parts(s', status[r := Replied]) == ps[r := held.Plus(own)];
    assert Samples(status[r := Replied], samples[r := own]) == qs[r := own];
    TotalUpdate(ps, r, held.Plus(own));
    TotalUpdate(qs, r, own);
  }

  lemma {:induction false} ReplyLocals(t: Tree, s: System, status: seq<Status>, r: nat, s': System)
    requires t.Valid() && Shaped(t, s) && Shaped(t, s') && |status| == t.ranks && r < t.ranks
    requires Locals(t, s, status) && status[r].Engaged?
    requires s'.nodes == s.nodes[r := s'.nodes[r]] && s'.nodes[r].mode.WaitingIsendParent?
    requires s'.queries == s.queries && s'.replies == s.replies[r := s'.replies[r]] && |s'.replies[r]| == |s.replies[r]| + 1
    ensures Locals(t, s', status[r := Replied])
  {
    forall c | 0 <= c < t.ranks
      ensures Local(status[r := Replied][c], s'.nodes[c], s'.queries[c], s'.replies[c])
    {
      assert Local(status[c], s.nodes[c], s.queries[c], s.replies[c]);
    }
  }

  lemma {:induction false} ReplyTimely(counters: seq<Counts>, h: History, r: nat)
    requires Timely(counters, h) && r < |counters|
    ensures Timely(counters, h.(status := h.status[r := Replied], samples := h.samples[r := counters[r]]))
  {
  }

  lemma {:induction false} ReplyStep(t: Tree, s: System, h: History, r: nat, n: Node, s': System)
    requires Invariant(t, s, h) && 0 < r < t.ranks && s.nodes[r].mode.WaitingRecvChildren?
    requires s.nodes[r].waiting == 0
    requires n == s.nodes[r].Reply(s.counters[r]).(waiting := t.NumChildren(r))
    requires s' == s.(nodes := s.nodes[r := n], replies := s.replies[r := s.replies[r] + [n.subtree]])
    ensures Invariant(t, s', h.(status := h.status[r := Replied], samples := h.samples[r := s.counters[r]]))
  {
    var status, own := h.status, s.counters[r];
    var g := h.(status := h.status[r := Replied], samples := h.samples[r := own]);
    hide Linkage, Locals, Waiting, Timely, Conserved, Compared, Worked, Parts, Samples, Total;
    LocalAt(t, s, h, r);
    assert Missing(t, status, r) == {};
    assert s.replies[r] == [] && s.replies[r] + [n.subtree] == [n.subtree];
    hide Missing;
    ReplyLinks(t, status, r);
    ReplyWaits(t, s.nodes, status, r, n);
    ReplyConserves(s, s', status, h.samples, r, own);
    ReplyLocals(t, s, status, r, s');
    ReplyTimely(s.counters, h, r);
    SameComparison(s.nodes[0].previous, s.counters, h, g);
  }

  // A rank receives an answer

  lemma {:induction false} TakeLinks(t: Tree, status: seq<Status>, c: nat)
    requires t.Valid() && Linkage(t, status) && 0 < c < t.ranks && status[c].Replied?
    requires status[t.Parent(c)].Engaged?
    ensures Linkage(t, status[c := Taken])
  {
    var st := status[c := Taken];
    forall d | 0 < d < t.ranks
      ensures t.Parent(d) < t.ranks && Linked(st[t.Parent(d)], st[d])
    {
      ParentChild(t, c, d);
      assert Linked(status[t.Parent(d)], status[d]);
    }
  }

  lemma {:induction false} MissingLess(t: Tree, status: seq<Status>, c: nat, q: nat)
    requires t.Valid() && |status| == t.ranks && 0 < c < t.ranks && !status[c].Taken?
    ensures if t.Parent(c) == q
            then |Missing(t, status[c := Taken], q)| == |Missing(t, status, q)| - 1
            else Missing(t, status[c := Taken], q) == Missing(t, status, q)
  {
    ParentChild(t, q, c);
    var before, after := Missing(t, status, q), Missing(t, status[c := Taken], q);
    if c in t.Children(q) {
      assert c in before;
      assert after == before - {c};
    } else {
      assert after == before;
    }
  }

  lemma {:induction false} TakeWaits(t: Tree, nodes: seq<Node>, status: seq<Status>, p: nat, c: nat, n: Node)
    requires t.Valid() && |status| == |nodes| == t.ranks && p < t.ranks && 0 < c < t.ranks && t.Parent(c) == p
    requires Waiting(t, nodes, status) && status[p].Engaged? && status[c].Replied?
    requires n.waiting == nodes[p].waiting - 1
    ensures Waiting(t, nodes[p := n], status[c := Taken])
  {
    var st := status[c := Taken];
    forall q | 0 <= q < t.ranks
      ensures nodes[p := n][q].waiting == Wait(t, st, q)
    {
      MissingLess(t, status, c, q);
    }
  }

  lemma {:induction false} TakeConserves(s: System, s': System, status: seq<Status>, samples: seq<Counts>, p: nat, c: nat)
    requires |s.nodes| == |s.replies| == |status| == |samples| && p < |status| && c < |status| && p != c
    requires Conserved(s, status, samples) && status[p].Engaged? && status[c].Replied? && |s.replies[c]| == 1
    requires s'.nodes == s.nodes[p := s.nodes[p].Receive(s.replies[c][0])] && s'.replies == s.replies[c := []]
    ensures Conserved(s', status[c := Taken], samples)
  {
    var ps, st := Parts(s, status), status[c := Taken];
    var sum := s.nodes[p].subtree.Plus(s.replies[c][0]);
    assert Parts(s', st) == ps[c := ZERO][p := sum];
    assert Samples(st, samples) == Samples(status, samples);
    TotalUpdate(ps, c, ZERO);
    TotalUpdate(ps[c := ZERO], p, sum);
  }

  lemma {:induction false} TakeLocals(t: Tree, s: System, status: seq<Status>, p: nat, c: nat, s': System)
    requires t.Valid() && Shaped(t, s) && Shaped(t, s') && |status| == t.ranks && p < t.ranks && c < t.ranks && p != c
    requires Locals(t, s, status) && status[p].Engaged? && status[c].Replied?
    requires s'.nodes == s.nodes[p := s.nodes[p].Receive(s.replies[c][0])] && s'.replies == s.replies[c := []]
    requires s'.queries == s.queries
    ensures Locals(t, s', status[c := Taken])
  {
    forall d | 0 <= d < t.ranks
      ensures Local(status[c := Taken][d], s'.nodes[d], s'.queries[d], s'.replies[d])
    {
      assert Local(status[d], s.nodes[d], s.queries[d], s.replies[d]);
    }
  }

  lemma {:induction false} TakeTimely(counters: seq<Counts>, h: History, c: nat)
    requires Timely(counters, h) && c < |counters| && h.status[c].Replied?
    ensures Timely(counters, h.(status := h.status[c := Taken]))
  {
  }

  lemma {:induction false} ReceiveStep(t: Tree, s: System, h: History, p: nat, c: nat, v: Counts, s': System)
    requires Invariant(t, s, h) && p < t.ranks && 0 < c < t.ranks && t.Parent(c) == p
    requires s.nodes[p].mode.WaitingRecvChildren? && s.replies[c] == [v]
    requires s' == s.(nodes := s.nodes[p := s.nodes[p].Receive(v)], replies := s.replies[c := []])
    ensures Invariant(t, s', h.(status := h.status[c := Taken]))
  {
    var status, n := h.status, s.nodes[p].Receive(v);
    hide Linkage, Locals, Waiting, Timely, Conserved, Compared, Worked, Parts, Samples, Total, Missing, Wait, Reported;
    ParentBelow(t, c);
    LocalAt(t, s, h, p);
    LocalAt(t, s, h, c);
    assert status[p].Engaged? && status[c].Replied?;
    hide Local, Part, Sampled;
    TakeLinks(t, status, c);
    TakeWaits(t, s.nodes, status, p, c, n);
    TakeConserves(s, s', status, h.samples, p, c);
    TakeLocals(t, s, status, p, c, s');
    TakeTimely(s.counters, h, c);
    SameComparison(s.nodes[0].previous, s.counters, h, h.(status := status[c := Taken]));
    SameReport(t, s, s');
  }

  lemma {:induction false} SameReport(t: Tree, s: System, s': System)
    requires t.Valid() && Shaped(t, s) && Shaped(t, s') && Reported(t, s)
    requires s'.counters == s.counters && s'.stops == s.stops && s'.reported == s.reported
    ensures Reported(t, s')
  {
  }

  lemma {:induction false} ParentBelow(t: Tree, c: nat)
    requires t.Valid() && 0 < c < t.ranks
    ensures t.Parent(c) < c
  {
    ParentChild(t, 0, c);
  }

  // The root decides

  lemma {:induction false} RootAllTaken(t: Tree, status: seq<Status>, r: nat)
    requires t.Valid() && Linkage(t, status) && 0 < r < t.ranks
    requires Missing(t, status, 0) == {}
    ensures status[r].Taken?
    decreases r
  {
    var p := t.Parent(r);
    ParentBelow(t, r);
    assert Linked(status[p], status[r]);
    if p == 0 {
      ParentChild(t, 0, r);
      AllTaken(t, status, 0, r);
    } else {
      RootAllTaken(t, status, p);
    }
  }

  /** All but the root taken: what the root holds is the sum of all samples of the wave. */
  lemma {:induction false} RootTotal(s: System, status: seq<Status>, samples: seq<Counts>, own: Counts)
    requires |s.nodes| == |s.replies| == |status| == |samples| && |status| > 0
    requires Conserved(s, status, samples) && status[0].Engaged?
    requires forall r | 0 < r < |status| :: status[r].Taken?
    ensures s.nodes[0].subtree.Plus(own) == Total(samples[0 := own])
  {
    var held := s.nodes[0].subtree;
    var ps, qs := Parts(s, status), Samples(status, samples);
    assert ps[0] == held && forall r | 0 < r < |ps| :: ps[r] == ZERO;
    assert qs == samples[0 := ZERO];
    hide Parts, Samples;
    TotalFirst(ps);
    TotalUpdate(qs, 0, own);
    assert qs[0 := own] == samples[0 := own];
  }

  lemma {:induction false} TotalFirst(ps: seq<Counts>)
    requires |ps| > 0 && forall r | 0 < r < |ps| :: ps[r] == ZERO
    ensures Total(ps) == ps[0]
  {
    TotalZero(ps[1..]);
  }

  lemma {:induction false} SamplesBetween(counters: seq<Counts>, h: History)
    requires Timely(counters, h) && |counters| > 0
    requires forall r | 0 < r < |counters| :: h.status[r].Taken?
    ensures Below(h.mid, h.samples[0 := counters[0]]) && Below(h.samples[0 := counters[0]], counters)
  {
  }

  /** Two equal balanced waves: between them nothing was outstanding, so nothing is now. */
  lemma {:induction false} EqualWavesQuiet(counters: seq<Counts>, h: History, previous: Counts, samples: seq<Counts>)
    requires Compared(previous, counters, h) && Worked(counters)
    requires Below(h.mid, samples) && Below(samples, counters)
    requires Total(samples) == previous
    ensures !Outstanding(counters)
  {
    TotalMonotone(samples, counters);
    assert h.seen;
    TotalMonotone(h.before, h.mid);
    TotalMonotone(h.mid, samples);
    assert Total(h.mid) == Total(h.before);
  }

  lemma {:induction false} DecideLocals(t: Tree, s: System, status: seq<Status>, samples: seq<Counts>, n: Node, s': System)
    requires t.Valid() && Shaped(t, s) && Shaped(t, s') && |status| == |samples| == t.ranks
    requires Locals(t, s, status) && Waiting(t, s.nodes, status) && status[0].Engaged?
    requires forall r | 0 < r < |status| :: status[r].Taken?
    requires s'.nodes == s.nodes[0 := n] && n.mode.WaitingInit? && n.waiting == t.NumChildren(0)
    requires s'.queries == s.queries && s'.replies == s.replies
    ensures Locals(t, s', Fresh(t.ranks)) && Waiting(t, s'.nodes, Fresh(t.ranks))
    ensures Linkage(t, Fresh(t.ranks))
    ensures Conserved(s', Fresh(t.ranks), samples)
  {
    var st := Fresh(t.ranks);
    FreshLinks(t);
    forall r | 0 <= r < t.ranks
      ensures Local(st[r], s'.nodes[r], s'.queries[r], s'.replies[r])
      ensures s'.nodes[r].waiting == Wait(t, st, r)
    {
      hide Linkage, Conserved, Missing;
      assert Local(status[r], s.nodes[r], s.queries[r], s.replies[r]);
      assert s.nodes[r].waiting == Wait(t, status, r);
    }
    hide Linkage, Locals, Waiting, Conserved, Missing;
    FreshConserves(s', samples);
  }

  lemma {:induction false} FreshLinks(t: Tree)
    requires t.Valid()
    ensures Linkage(t, Fresh(t.ranks))
  {
    forall c | 0 < c < t.ranks
      ensures t.Parent(c) < t.ranks
    {
      ParentBelow(t, c);
    }
  }

  lemma {:induction false} FreshConserves(s: System, samples: seq<Counts>)
    requires |s.nodes| == |s.replies| == |samples|
    ensures Conserved(s, Fresh(|s.nodes|), samples)
  {
    TotalZero(Parts(s, Fresh(|s.nodes|)));
    TotalZero(Samples(Fresh(|s.nodes|), samples));
  }

  lemma {:induction false} DecideCompared(counters: seq<Counts>, h: History, n: Node, children: nat, g: History, samples: seq<Counts>)
    requires Timely(counters, h) && |counters| > 0 && Compared(n.previous, counters, h)
    requires samples == h.samples[0 := counters[0]]
    requires Below(h.mid, samples) && Below(samples, counters)
    requires n.subtree.Plus(counters[0]) == Total(samples)
    requires var sum := Total(samples); var g0 := h.(status := Fresh(|h.status|));
      g == if sum.queued == sum.completed && sum != n.previous
           then g0.(before := samples, mid := counters, seen := true) else g0
    ensures Timely(counters, g)
    ensures Compared(n.Decide(children, counters[0]).previous, counters, g)
  {
    hide Total;
  }

  lemma {:induction false} DecideStep(t: Tree, s: System, h: History, s': System)
    requires Invariant(t, s, h) && Enabled(t, s, RootDecide) && s' == Next(t, s, RootDecide)
    ensures Invariant(t, s', Remember(t, s, h, RootDecide))
  {
    var status, own, n := h.status, s.counters[0], s.nodes[0];
    var samples, g := h.samples[0 := own], Remember(t, s, h, RootDecide);
    assert g.status == Fresh(t.ranks) && g.samples == h.samples;
    hide Linkage, Locals, Waiting, Timely, Conserved, Compared, Worked, Parts, Samples, Total, Fresh, Linked, Reported;
    LocalAt(t, s, h, 0);
    assert status[0].Engaged? && Missing(t, status, 0) == {};
    forall r | 0 < r < t.ranks
      ensures status[r].Taken?
    {
      RootAllTaken(t, status, r);
    }
    hide Missing, Local;
    RootTotal(s, status, h.samples, own);
    SamplesBetween(s.counters, h);
    DecideLocals(t, s, status, h.samples, n.Decide(t.NumChildren(0), own), s');
    DecideCompared(s.counters, h, n, t.NumChildren(0), g, samples);
    if n.Decides(own) {
      EqualWavesQuiet(s.counters, h, n.previous, samples);
    }
    DecideReport(t, s, s');
  }

  lemma {:induction false} DecideReport(t: Tree, s: System, s': System)
    requires t.Valid() && Shaped(t, s) && Reported(t, s)
    requires Enabled(t, s, RootDecide) && s' == Next(t, s, RootDecide)
    requires s.nodes[0].Decides(s.counters[0]) ==> !Outstanding(s.counters)
    ensures Shaped(t, s') && Reported(t, s')
  {
    hide Total;
  }

  // Runs

  lemma {:induction false} PollStep(t: Tree, s: System, h: History, e: Event, s': System)
    requires Invariant(t, s, h) && Enabled(t, s, e) && s' == Next(t, s, e)
    requires e.Poll? || e.SendDone? || e.ChildrenAsked? || e.ParentSent?
    ensures Invariant(t, s', Remember(t, s, h, e))
  {
    var r := e.rank;
    assert Shaped(t, s') && s'.stops == s.stops && s'.reported == s.reported && s'.counters == s.counters;
    hide Linkage, Locals, Waiting, Timely, Conserved, Compared, Worked, Reported;
    LocalAt(t, s, h, r);
    SameReport(t, s, s');
    NodeStep(t, s, h, r, s'.nodes[r], s');
  }

  lemma {:induction false} ReplyStepOf(t: Tree, s: System, h: History, r: nat, e: Event, s': System)
    requires Invariant(t, s, h) && Enabled(t, s, e) && s' == Next(t, s, e)
    requires e == LeafReply(r) || e == InnerReply(r)
    ensures Invariant(t, s', Remember(t, s, h, e))
  {
    assert |h.status| == t.ranks;
    hide Linkage, Locals, Waiting, Timely, Conserved, Compared, Worked, Reported;
    LocalAt(t, s, h, r);
    LeafHasNoChildren(t, r);
    RootIsNoLeaf(t);
    LeafWaits(t, h.status, r);
    ReplyStep(t, s, h, r, s.nodes[r].Reply(s.counters[r]).(waiting := t.NumChildren(r)), s');
  }

  lemma {:induction false} RootIsNoLeaf(t: Tree)
    requires t.Valid()
    ensures !t.IsLeaf(0)
  {
  }

  lemma {:induction false} LeafWaits(t: Tree, status: seq<Status>, r: nat)
    requires t.Valid() && r < |status|
    ensures t.IsLeaf(r) ==> Wait(t, status, r) == 0
  {
    LeafHasNoChildren(t, r);
    assert Missing(t, status, r) <= t.Children(r);
    if t.IsLeaf(r) {
      assert t.Children(r) == {};
    }
  }

  lemma {:induction false} StepInvariant(t: Tree, s: System, h: History, e: Event)
    requires Invariant(t, s, h) && Enabled(t, s, e)
    ensures Invariant(t, Next(t, s, e), Remember(t, s, h, e))
  {
    var s' := Next(t, s, e);
    hide *;
    match e
    case Queue(r, n) => WorkEvent(t, s, h, e);
    case Complete(r, n) => WorkEvent(t, s, h, e);
    case Begin => BeginStep(t, s, h, s');
    case TakeQuery(r) => TakeQueryStep(t, s, h, r, s');
    case TakeStop(r) => TakeStopStep(t, s, h, r, s');
    case LeafReply(r) => ReplyStepOf(t, s, h, r, e, s');
    case InnerReply(r) => ReplyStepOf(t, s, h, r, e, s');
    case Receive(r, c) => ReceiveStepOf(t, s, h, r, c, s');
    case RootDecide => DecideStep(t, s, h, s');
    case Poll(_) => PollStep(t, s, h, e, s');
    case SendDone(_) => PollStep(t, s, h, e, s');
    case ChildrenAsked(_) => PollStep(t, s, h, e, s');
    case ParentSent(_) => PollStep(t, s, h, e, s');
  }

  lemma {:induction false} QueryTaken(t: Tree, s: System, h: History, r: nat)
    requires t.Valid() && Shaped(t, s) && |h.status| == |h.samples| == t.ranks && Enabled(t, s, TakeQuery(r))
    ensures r < t.ranks == |s.queries| == |s.nodes| && r != 0 && s.nodes[r].mode.WaitingInit? && s.queries[r] > 0
    ensures var queries := s.queries[r := s.queries[r] - 1];
            Next(t, s, TakeQuery(r))
              == s.(nodes := s.nodes[r := s.nodes[r].Ask(t.NumChildren(r))], queries := ToChildren(t, r, queries))
    ensures Remember(t, s, h, TakeQuery(r)) == h.(status := Engage(t, r, h.status))
  {
    hide ToChildren, Engage, Tree.NumChildren;
  }

  lemma {:induction false} InvariantShape(t: Tree, s: System, h: History)
    requires Invariant(t, s, h)
    ensures t.Valid() && Shaped(t, s) && |h.status| == |h.samples| == t.ranks
  {
    hide Locals, Waiting, Conserved, Compared, Worked, Reported;
  }

  lemma {:induction false} TakeQueryStep(t: Tree, s: System, h: History, r: nat, s': System)
    requires Invariant(t, s, h) && Enabled(t, s, TakeQuery(r)) && s' == Next(t, s, TakeQuery(r))
    ensures Invariant(t, s', Remember(t, s, h, TakeQuery(r)))
  {
    hide *;
    InvariantShape(t, s, h);
    QueryTaken(t, s, h, r);
    EngageStep(t, s, h, r, s.queries[r := s.queries[r] - 1], s');
  }

  lemma {:induction false} WorkEvent(t: Tree, s: System, h: History, e: Event)
    requires Invariant(t, s, h) && Enabled(t, s, e) && (e.Queue? || e.Complete?)
    ensures Invariant(t, Next(t, s, e), Remember(t, s, h, e))
  {
    assert Worked(s.counters);
    hide Invariant, Total;
    var c := if e.Queue? then Counts(e.n, 0) else Counts(0, e.n);
    WorkStep(t, s, h, e.rank, c, Next(t, s, e));
  }

  lemma {:induction false} BeginStep(t: Tree, s: System, h: History, s': System)
    requires Invariant(t, s, h) && Enabled(t, s, Begin) && s' == Next(t, s, Begin)
    ensures Invariant(t, s', Remember(t, s, h, Begin))
  {
    assert t.Valid() && Shaped(t, s);
    hide Invariant;
    EngageStep(t, s, h, 0, s.queries, s');
  }

  lemma {:induction false} ReceiveStepOf(t: Tree, s: System, h: History, p: nat, c: nat, s': System)
    requires Invariant(t, s, h) && Enabled(t, s, Receive(p, c)) && s' == Next(t, s, Receive(p, c))
    ensures Invariant(t, s', Remember(t, s, h, Receive(p, c)))
  {
    hide Linkage, Locals, Waiting, Timely, Conserved, Compared, Worked, Reported;
    LocalAt(t, s, h, c);
    assert s.replies[c] == [s.replies[c][0]] && s.replies[c][1..] == [];
    hide Invariant;
    ReceiveStep(t, s, h, p, c, s.replies[c][0], s');
  }

  /** s' is reached from s by performing the events one after another. */
  ghost predicate Run(t: Tree, s: System, events: seq<Event>, s': System)
    requires t.Valid() && Shaped(t, s)
    decreases |events|
  {
    if events == [] then s' == s
    else Enabled(t, s, events[0]) && Run(t, Next(t, s, events[0]), events[1..], s')
  }

  lemma {:induction false} InitialInvariant(t: Tree, s: System) returns (h: History)
    requires Initial(t, s)
    ensures Invariant(t, s, h)
  {
    var n := t.ranks;
    var zeros := seq(n, _ => ZERO);
    h := History(Fresh(n), zeros, zeros, zeros, false);
    assert Locals(t, s, h.status) && Waiting(t, s.nodes, h.status) && Timely(s.counters, h) && Worked(s.counters);
    assert Compared(s.nodes[0].previous, s.counters, h) && Reported(t, s);
    hide Locals, Waiting, Timely, Worked, Compared, Reported, Conserved, Linkage;
    FreshLinks(t);
    FreshConserves(s, zeros);
  }

  lemma {:induction false} RunKeeps(t: Tree, s: System, h: History, events: seq<Event>, s': System) returns (h': History)
    requires Invariant(t, s, h) && Run(t, s, events, s')
    ensures Invariant(t, s', h')
    decreases |events|
  {
    if events == [] {
      h' := h;
    } else {
      StepInvariant(t, s, h, events[0]);
      h' := RunKeeps(t, Next(t, s, events[0]), Remember(t, s, h, events[0]), events[1..], s');
    }
  }

  /**
   A rank that reports termination is right: at that moment as much work has completed as was ever
   queued, on all ranks together, although every rank was sampled at a time of its own.
   */
  lemma {:induction false} ReportIsSafe(t: Tree, s: System, events: seq<Event>, s': System, r: nat)
    requires Initial(t, s) && Run(t, s, events, s') && r < t.ranks && Shaped(t, s') && s'.reported[r]
    ensures Total(s'.counters).queued == Total(s'.counters).completed
  {
    var h := InitialInvariant(t, s);
    var h' := RunKeeps(t, s, h, events, s');
    assert Reported(t, s') && Worked(s'.counters);
  }

  /** Everything sampled in a wave is held by some rank or in flight, at every moment of every run. */
  lemma {:induction false} SumsAreConserved(t: Tree, s: System, events: seq<Event>, s': System)
    requires Initial(t, s) && Run(t, s, events, s') && Shaped(t, s')
    ensures exists h :: Invariant(t, s', h) && Total(Parts(s', h.status)) == Total(Samples(h.status, h.samples))
  {
    var h := InitialInvariant(t, s);
    var h' := RunKeeps(t, s, h, events, s');
    assert Invariant(t, s', h') && Conserved(s', h'.status, h'.samples);
  }
}
