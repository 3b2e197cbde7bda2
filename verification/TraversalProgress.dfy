/**
 Nothing is forgotten: while some edge of a settled label is not relaxed, or some copy has
 not seen its master's label, there is still a visitor, a visit or a message that will do it.
 */
module TraversalProgress {
  import opened Graphs
  import opened Traversal
  import opened TraversalInvariant
  import opened TraversalOrder

  ghost predicate Ready(cfg: Config, s: System) {
    cfg.g.Valid() && Sized(cfg, s)
  }

  /** Rank q itself keeps a label of w, and l has been offered to it; components skip some offers. */
  ghost predicate Offered(cfg: Config, s: System, q: nat, w: nat, l: nat)
    requires Sized(cfg, s) && q < cfg.g.ranks && w < cfg.g.size
  {
    !cfg.algorithm.Cc? && cfg.g.Hosts(q, w) ==> s.procs[q].level[w] <= l
  }

  ghost predicate EdgesCovered(cfg: Config, s: System, q: nat, v: nat, x: nat, n: nat)
    requires Ready(cfg, s) && q < cfg.g.ranks && v < cfg.g.size && n <= |cfg.g.edges[q][v]|
  {
    forall k | 0 <= k < n ::
      && Covered(cfg, s, cfg.g.edges[q][v][k].target, cfg.Relax(x, cfg.g.edges[q][v][k]))
      && Offered(cfg, s, q, cfg.g.edges[q][v][k].target, cfg.Relax(x, cfg.g.edges[q][v][k]))
  }

  /** Rank q is visiting v with label x and has covered the edges it has passed. */
  ghost predicate Reached(cfg: Config, s: System, q: nat, v: nat, x: nat)
    requires Ready(cfg, s) && q < cfg.g.ranks && v < cfg.g.size
  {
    var a := s.procs[q].activity;
    && a.Busy? && a.visitor.vertex == v && a.visitor.level == x
    && a.next <= |cfg.g.edges[q][v]| && EdgesCovered(cfg, s, q, v, x, a.next)
  }

  predicate Carries(u: Visitor, v: nat, x: nat) {
    u.vertex == v && u.level == x
  }

  /** The master still has to visit v with label x. */
  ghost predicate ForMaster(cfg: Config, s: System, v: nat, x: nat)
    requires Ready(cfg, s) && v < cfg.g.size
  {
    var p := s.procs[cfg.g.master[v]];
    (exists u :: u in p.queue && Carries(u, v, x)) || (v in p.toInit && x == v)
  }

  ghost predicate Posted(cfg: Config, s: System, q: nat, v: nat, x: nat)
    requires Ready(cfg, s) && q < cfg.g.ranks
  {
    || (exists m :: m in s.bcasts && m.dest == q && Carries(m.visitor, v, x))
    || (exists u :: u in s.procs[q].controllers && Carries(u, v, x))
  }

  /** Rank q will hear of label x: its master is announcing it or has announced it. */
  ghost predicate ForCopy(cfg: Config, s: System, q: nat, v: nat, x: nat)
    requires Ready(cfg, s) && q < cfg.g.ranks && v < cfg.g.size
  {
    var a := s.procs[cfg.g.master[v]].activity;
    q != cfg.g.master[v] && ((a.Busy? && a.announce && Carries(a.visitor, v, x)) || Posted(cfg, s, q, v, x))
  }

  ghost predicate Progress(cfg: Config, s: System, q: nat, v: nat)
    requires Ready(cfg, s) && q < cfg.g.ranks && v < cfg.g.size
  {
    var x := Master(cfg, s, v);
    x < cfg.top ==>
      || (x > 0 && Evidence(s, v, x - 1))
      || ForMaster(cfg, s, v, x)
      || ForCopy(cfg, s, q, v, x)
      || Reached(cfg, s, q, v, x)
      || EdgesCovered(cfg, s, q, v, x, |cfg.g.edges[q][v]|)
  }

  ghost predicate ParentOk(cfg: Config, v: nat, x: nat, parent: nat)
    requires cfg.Valid()
  {
    cfg.algorithm.Bfs? ==> ParentFits(cfg, v, x, parent)
  }

  /** A copy not below its master agrees with it, parent included, or will be refreshed. */
  ghost predicate Current(cfg: Config, s: System, q: nat, v: nat)
    requires cfg.Valid() && Ready(cfg, s) && q < cfg.g.ranks && v < cfg.g.size
  {
    var x := Master(cfg, s, v);
    !cfg.algorithm.Sssp? && x < cfg.top && s.procs[q].level[v] >= x ==>
      || ForMaster(cfg, s, v, x)
      || ForCopy(cfg, s, q, v, x)
      || (s.procs[q].level[v] == x && ParentOk(cfg, v, x, s.procs[q].parent[v]))
  }

  lemma {:induction false} OfferedEvolves(cfg: Config, s: System, s': System, q: nat, w: nat, l: nat)
    requires Sized(cfg, s) && Sized(cfg, s') && Falling(cfg, s, s')
    requires q < cfg.g.ranks && w < cfg.g.size && Offered(cfg, s, q, w, l)
    ensures Offered(cfg, s', q, w, l)
  {
    assert Lowered(s.procs[q], s'.procs[q]);
  }

  lemma {:induction false} EdgesEvolve(cfg: Config, s: System, s': System, q: nat, v: nat, x: nat, n: nat)
    requires Ready(cfg, s) && Ready(cfg, s') && Evolves(cfg, s, s')
    requires q < cfg.g.ranks && v < cfg.g.size && n <= |cfg.g.edges[q][v]| && EdgesCovered(cfg, s, q, v, x, n)
    ensures EdgesCovered(cfg, s', q, v, x, n)
  {
    forall k | 0 <= k < n
      ensures Covered(cfg, s', cfg.g.edges[q][v][k].target, cfg.Relax(x, cfg.g.edges[q][v][k]))
      ensures Offered(cfg, s', q, cfg.g.edges[q][v][k].target, cfg.Relax(x, cfg.g.edges[q][v][k]))
    {
      CoveredEvolves(cfg, s, s', cfg.g.edges[q][v][k].target, cfg.Relax(x, cfg.g.edges[q][v][k]));
      OfferedEvolves(cfg, s, s', q, cfg.g.edges[q][v][k].target, cfg.Relax(x, cfg.g.edges[q][v][k]));
    }
  }

  /** Progress survives an event that neither lowers v's master nor uses up what was pending. */
  lemma {:induction false} ProgressFrame(cfg: Config, s: System, s': System, q: nat, v: nat)
    requires Ready(cfg, s) && Ready(cfg, s') && Evolves(cfg, s, s') && q < cfg.g.ranks && v < cfg.g.size
    requires Progress(cfg, s, q, v)
    requires var x := Master(cfg, s, v);
             && Master(cfg, s', v) == x
             && (ForMaster(cfg, s, v, x) ==> ForMaster(cfg, s', v, x))
             && (ForCopy(cfg, s, q, v, x) ==> ForCopy(cfg, s', q, v, x))
             && (Reached(cfg, s, q, v, x) ==> Reached(cfg, s', q, v, x))
    ensures Progress(cfg, s', q, v)
  {
    var x := Master(cfg, s, v);
    if x < cfg.top {
      if x > 0 && Evidence(s, v, x - 1) {
        var m :| m in s.net && m.visitor.vertex == v && m.visitor.level <= x - 1;
        assert m in s'.net;
      } else if EdgesCovered(cfg, s, q, v, x, |cfg.g.edges[q][v]|) {
        EdgesEvolve(cfg, s, s', q, v, x, |cfg.g.edges[q][v]|);
      }
    }
  }

  lemma {:induction false} ReachedEvolves(cfg: Config, s: System, s': System, q: nat, v: nat, x: nat)
    requires Ready(cfg, s) && Ready(cfg, s') && Evolves(cfg, s, s') && q < cfg.g.ranks && v < cfg.g.size
    requires s'.procs[q].activity == s.procs[q].activity && Reached(cfg, s, q, v, x)
    ensures Reached(cfg, s', q, v, x)
  {
    EdgesEvolve(cfg, s, s', q, v, x, s.procs[q].activity.next);
  }

  // --- Events that leave activities alone -----------------------------------------------------

  lemma {:induction false} DeliverProgress(cfg: Config, s: System, m: Message, s': System, q: nat, v: nat)
    requires cfg.Valid() && Ready(cfg, s) && Ready(cfg, s') && Evolves(cfg, s, s')
    requires q < cfg.g.ranks && v < cfg.g.size
    requires Progress(cfg, s, q, v) && Current(cfg, s, q, v)
    requires m in s.net && m.dest == cfg.g.master[m.visitor.vertex]
    requires s' == System(s.procs[m.dest := Accept(s.procs[m.dest], m.visitor)], s.net - multiset{m}, s.bcasts)
    ensures Progress(cfg, s', q, v) && Current(cfg, s', q, v)
  {
    var x := Master(cfg, s', v);
    if Master(cfg, s, v) != x {
      assert m.visitor in s'.procs[m.dest].queue && Carries(m.visitor, v, x);
    } else {
      StillPending(cfg, s, s', q, v, x);
      if Reached(cfg, s, q, v, x) {
        ReachedEvolves(cfg, s, s', q, v, x);
      }
      ProgressFrame(cfg, s, s', q, v);
    }
  }

  /** Queues and posts that only grow keep what was pending. */
  lemma {:induction false} StillPending(cfg: Config, s: System, s': System, q: nat, v: nat, x: nat)
    requires Ready(cfg, s) && Ready(cfg, s') && q < cfg.g.ranks && v < cfg.g.size
    requires s.bcasts <= s'.bcasts && s.procs[q].controllers == s'.procs[q].controllers
    requires var p, p' := s.procs[cfg.g.master[v]], s'.procs[cfg.g.master[v]];
             p.queue <= p'.queue && p.toInit == p'.toInit
             && (p.activity == p'.activity || (p.activity.Busy? && p'.activity.Busy?
                   && p.activity.visitor == p'.activity.visitor && p.activity.announce == p'.activity.announce))
    ensures ForMaster(cfg, s, v, x) ==> ForMaster(cfg, s', v, x)
    ensures ForCopy(cfg, s, q, v, x) ==> ForCopy(cfg, s', q, v, x)
  {
    var p, p' := s.procs[cfg.g.master[v]], s'.procs[cfg.g.master[v]];
    assert forall u | u in p.queue :: u in p'.queue;
    assert forall m | m in s.bcasts :: m in s'.bcasts;
  }

  /** A broadcast that arrives is still posted. */
  lemma {:induction false} PostedDelivered(cfg: Config, s: System, m: Message, s': System, q: nat, v: nat, x: nat)
    requires Ready(cfg, s) && Ready(cfg, s') && q < cfg.g.ranks && m in s.bcasts && m.dest < cfg.g.ranks
    requires var p := s.procs[m.dest];
             s' == System(s.procs[m.dest := p.(controllers := p.controllers + [m.visitor])], s.net,
                          s.bcasts - multiset{m})
    requires Posted(cfg, s, q, v, x)
    ensures Posted(cfg, s', q, v, x)
  {
    hide Carries;
    if b :| b in s.bcasts && b.dest == q && Carries(b.visitor, v, x) {
      if b == m {
        assert s'.procs[q].controllers[|s.procs[q].controllers|] == m.visitor;
      } else {
        assert b in s'.bcasts;
      }
    } else {
      var u :| u in s.procs[q].controllers && Carries(u, v, x);
      assert u in s'.procs[q].controllers;
    }
  }

  lemma {:induction false} DeliverBroadcastProgress(cfg: Config, s: System, m: Message, s': System, q: nat, v: nat)
    requires cfg.Valid() && Ready(cfg, s) && Ready(cfg, s') && Evolves(cfg, s, s')
    requires q < cfg.g.ranks && v < cfg.g.size
    requires Progress(cfg, s, q, v) && Current(cfg, s, q, v)
    requires m in s.bcasts && m.dest < cfg.g.ranks
    requires var p := s.procs[m.dest];
             s' == System(s.procs[m.dest := p.(controllers := p.controllers + [m.visitor])], s.net,
                          s.bcasts - multiset{m})
    ensures Progress(cfg, s', q, v) && Current(cfg, s', q, v)
  {
    hide Covered, Offered, Carries;
    var x := Master(cfg, s, v);
    if Posted(cfg, s, q, v, x) {
      PostedDelivered(cfg, s, m, s', q, v, x);
    }
    if Reached(cfg, s, q, v, x) {
      ReachedEvolves(cfg, s, s', q, v, x);
    }
    ProgressFrame(cfg, s, s', q, v);
  }

  // --- A visit begins ---------------------------------------------------------------------------

  /** p is rank r's idle process once visitor u has left the queue it waited in. */
  ghost predicate Taken(cfg: Config, s: System, r: nat, p: Process, u: Visitor)
    requires Ready(cfg, s) && r < cfg.g.ranks
  {
    var before := s.procs[r];
    && p.level == before.level && p.parent == before.parent
    && before.activity.Idle? && p.activity.Idle?
    && (forall w | w in before.queue :: w in p.queue || w == u)
    && (forall w | w in before.controllers :: w in p.controllers || w == u)
    && (forall t | t in before.toInit :: t in p.toInit || u == Visitor(t, t, t))
    && u.vertex < cfg.g.size && cfg.g.Hosts(r, u.vertex)
  }

  ghost function AfterVisit(cfg: Config, s: System, r: nat, p: Process, u: Visitor): System
    requires Ready(cfg, s) && r < cfg.g.ranks && Taken(cfg, s, r, p, u)
  {
    System(s.procs[r := BeginVisit(cfg, r, p, u)], s.net, s.bcasts)
  }

  /** Beginning a visit moves no master. */
  lemma {:induction false} VisitMaster(cfg: Config, s: System, r: nat, p: Process, u: Visitor, v: nat)
    requires Ready(cfg, s) && r < cfg.g.ranks && Taken(cfg, s, r, p, u) && Token(cfg, s, u)
    requires v < cfg.g.size && Sized(cfg, AfterVisit(cfg, s, r, p, u))
    ensures Master(cfg, AfterVisit(cfg, s, r, p, u), v) == Master(cfg, s, v)
  {
  }

  /** A visit with another label than v's settled one uses up nothing that v waits for. */
  lemma {:induction false} VisitElsewhere(cfg: Config, s: System, r: nat, p: Process, u: Visitor, q: nat, v: nat)
    requires cfg.Valid() && Ready(cfg, s) && r < cfg.g.ranks && Taken(cfg, s, r, p, u) && Token(cfg, s, u)
    requires q < cfg.g.ranks && v < cfg.g.size && !Carries(u, v, Master(cfg, s, v))
    requires Ready(cfg, AfterVisit(cfg, s, r, p, u)) && Evolves(cfg, s, AfterVisit(cfg, s, r, p, u))
    requires Progress(cfg, s, q, v) && Current(cfg, s, q, v)
    ensures Progress(cfg, AfterVisit(cfg, s, r, p, u), q, v) && Current(cfg, AfterVisit(cfg, s, r, p, u), q, v)
  {
    var s' := AfterVisit(cfg, s, r, p, u);
    var x := Master(cfg, s, v);
    VisitMaster(cfg, s, r, p, u, v);
    if ForMaster(cfg, s, v, x) {
      VisitKeepsMaster(cfg, s, r, p, u, v, x);
    }
    if ForCopy(cfg, s, q, v, x) {
      VisitKeepsCopy(cfg, s, r, p, u, q, v, x);
    }
    if Reached(cfg, s, q, v, x) {
      ReachedEvolves(cfg, s, s', q, v, x);
    }
    ProgressFrame(cfg, s, s', q, v);
  }

  lemma {:induction false} VisitKeepsMaster(cfg: Config, s: System, r: nat, p: Process, u: Visitor, v: nat, x: nat)
    requires Ready(cfg, s) && r < cfg.g.ranks && Taken(cfg, s, r, p, u) && v < cfg.g.size
    requires Ready(cfg, AfterVisit(cfg, s, r, p, u))
    requires ForMaster(cfg, s, v, x) && (cfg.g.master[v] == r ==> !Carries(u, v, x))
    ensures ForMaster(cfg, AfterVisit(cfg, s, r, p, u), v, x)
  {
    var m := cfg.g.master[v];
    var s' := AfterVisit(cfg, s, r, p, u);
    if w :| w in s.procs[m].queue && Carries(w, v, x) {
      assert w in s'.procs[m].queue;
    }
  }

  lemma {:induction false} VisitKeepsCopy(cfg: Config, s: System, r: nat, p: Process, u: Visitor, q: nat, v: nat, x: nat)
    requires Ready(cfg, s) && r < cfg.g.ranks && Taken(cfg, s, r, p, u) && q < cfg.g.ranks && v < cfg.g.size
    requires Ready(cfg, AfterVisit(cfg, s, r, p, u))
    requires ForCopy(cfg, s, q, v, x) && (q == r ==> !Carries(u, v, x))
    ensures ForCopy(cfg, AfterVisit(cfg, s, r, p, u), q, v, x)
  {
    var s' := AfterVisit(cfg, s, r, p, u);
    if Posted(cfg, s, q, v, x) {
      if b :| b in s.bcasts && b.dest == q && Carries(b.visitor, v, x) {
        assert b in s'.bcasts;
      } else {
        var w :| w in s.procs[q].controllers && Carries(w, v, x);
        assert w in s'.procs[q].controllers;
      }
    }
  }

  /** The master visits v with its settled label. */
  lemma {:induction false} VisitAtMaster(cfg: Config, s: System, r: nat, p: Process, u: Visitor, q: nat)
    requires cfg.Valid() && Ready(cfg, s) && r < cfg.g.ranks && Taken(cfg, s, r, p, u) && GoodVisitor(cfg, u)
    requires q < cfg.g.ranks && cfg.g.master[u.vertex] == r && cfg.g.Hosts(q, u.vertex)
    requires u.level == Master(cfg, s, u.vertex) && Ready(cfg, AfterVisit(cfg, s, r, p, u))
    ensures Progress(cfg, AfterVisit(cfg, s, r, p, u), q, u.vertex)
    ensures Current(cfg, AfterVisit(cfg, s, r, p, u), q, u.vertex)
  {
    var s' := AfterVisit(cfg, s, r, p, u);
    assert s'.procs[r].activity == Busy(u, 0, u.vertex in cfg.g.delegates);
    if q == r {
      assert Reached(cfg, s', q, u.vertex, u.level);
    } else {
      assert ForCopy(cfg, s', q, u.vertex, u.level);
    }
  }

  /** A copy visits v with its master's settled label, or is already below it. */
  lemma {:induction false} VisitAtCopy(cfg: Config, s: System, r: nat, p: Process, u: Visitor)
    requires cfg.Valid() && Ready(cfg, s) && r < cfg.g.ranks && Taken(cfg, s, r, p, u) && GoodVisitor(cfg, u)
    requires cfg.g.master[u.vertex] != r && CopiesOf(cfg, s, s.procs[r])
    requires u.level == Master(cfg, s, u.vertex) && Ready(cfg, AfterVisit(cfg, s, r, p, u))
    ensures Progress(cfg, AfterVisit(cfg, s, r, p, u), r, u.vertex)
    ensures Current(cfg, AfterVisit(cfg, s, r, p, u), r, u.vertex)
  {
    var s' := AfterVisit(cfg, s, r, p, u);
    if u.level <= p.level[u.vertex] {
      assert s'.procs[r].activity == Busy(u, 0, false);
      assert Reached(cfg, s', r, u.vertex, u.level);
    } else {
      assert Covered(cfg, s, u.vertex, p.level[u.vertex]);
      assert Evidence(s, u.vertex, u.level - 1);
      assert Evidence(s', u.vertex, u.level - 1);
    }
  }

  lemma {:induction false} VisitProgress(cfg: Config, s: System, r: nat, p: Process, u: Visitor, q: nat, v: nat)
    requires cfg.Valid() && Ready(cfg, s) && r < cfg.g.ranks && Taken(cfg, s, r, p, u)
    requires Token(cfg, s, u) && GoodVisitor(cfg, u) && CopiesOf(cfg, s, s.procs[r])
    requires q < cfg.g.ranks && v < cfg.g.size && cfg.g.Hosts(q, v)
    requires Ready(cfg, AfterVisit(cfg, s, r, p, u)) && Evolves(cfg, s, AfterVisit(cfg, s, r, p, u))
    requires Progress(cfg, s, q, v) && Current(cfg, s, q, v)
    ensures Progress(cfg, AfterVisit(cfg, s, r, p, u), q, v) && Current(cfg, AfterVisit(cfg, s, r, p, u), q, v)
  {
    var x := Master(cfg, s, v);
    if !Carries(u, v, x) {
      VisitElsewhere(cfg, s, r, p, u, q, v);
    } else if cfg.g.master[v] == r {
      VisitAtMaster(cfg, s, r, p, u, q);
    } else if q == r {
      VisitAtCopy(cfg, s, r, p, u);
    } else {
      VisitMaster(cfg, s, r, p, u, v);
      if ForMaster(cfg, s, v, x) {
        VisitKeepsMaster(cfg, s, r, p, u, v, x);
      }
      if ForCopy(cfg, s, q, v, x) {
        VisitKeepsCopy(cfg, s, r, p, u, q, v, x);
      }
      if Reached(cfg, s, q, v, x) {
        ReachedEvolves(cfg, s, AfterVisit(cfg, s, r, p, u), q, v, x);
      }
      ProgressFrame(cfg, s, AfterVisit(cfg, s, r, p, u), q, v);
    }
  }

  // --- A visit continues or finishes ------------------------------------------------------------

  /** Rank r goes from p to p' by relaxing an edge: queues grow, a lowered master is queued. */
  ghost predicate Relaxed(cfg: Config, r: nat, p: Process, p': Process) {
    && p.activity.Busy? && Lowered(p, p')
    && p'.parent == p.parent && p'.controllers == p.controllers
    && p'.toInit == p.toInit && p.queue <= p'.queue
    && p'.activity == p.activity.(next := p.activity.next + 1)
    && (forall v | 0 <= v < |p.level| && v < |cfg.g.master| && cfg.g.master[v] == r && p'.level[v] != p.level[v] ::
          exists u :: u in p'.queue && Carries(u, v, p'.level[v]))
  }

  lemma {:induction false} ContinueProgress(cfg: Config, s: System, r: nat, s': System, q: nat, v: nat)
    requires cfg.Valid() && Ready(cfg, s) && Ready(cfg, s') && Evolves(cfg, s, s')
    requires r < cfg.g.ranks && q < cfg.g.ranks && v < cfg.g.size
    requires s'.procs == s.procs[r := s'.procs[r]] && s'.bcasts == s.bcasts
    requires Relaxed(cfg, r, s.procs[r], s'.procs[r])
    requires var a := s.procs[r].activity;
             a.visitor.vertex < cfg.g.size && a.next < |cfg.g.edges[r][a.visitor.vertex]|
             && var e := cfg.g.edges[r][a.visitor.vertex][a.next];
                && Covered(cfg, s', e.target, cfg.Relax(a.visitor.level, e))
                && Offered(cfg, s', r, e.target, cfg.Relax(a.visitor.level, e))
    requires Progress(cfg, s, q, v) && Current(cfg, s, q, v)
    ensures Progress(cfg, s', q, v) && Current(cfg, s', q, v)
  {
    hide Covered, Offered, Evidence, Posted;
    var x := Master(cfg, s', v);
    if Master(cfg, s, v) == x {
      StillPending(cfg, s, s', q, v, x);
      if Reached(cfg, s, q, v, x) {
        EdgesEvolve(cfg, s, s', q, v, x, s.procs[q].activity.next);
      }
      ProgressFrame(cfg, s, s', q, v);
    } else {
      assert cfg.g.master[v] == r && ForMaster(cfg, s', v, x);
    }
  }

  lemma {:induction false} QueueRelaxes(cfg: Config, r: nat, p: Process, w: Visitor)
    requires ShapedProcess(cfg, p) && w.vertex < |p.level| && p.activity.Busy?
    ensures Relaxed(cfg, r, p, QueueVisitor(cfg, r, p.(activity := p.activity.(next := p.activity.next + 1)), w).0)
  {
    var p1 := p.(activity := p.activity.(next := p.activity.next + 1));
    var p' := QueueVisitor(cfg, r, p1, w).0;
    forall v | 0 <= v < |p.level| && cfg.g.master[v] == r && p'.level[v] != p.level[v]
      ensures exists u :: u in p'.queue && Carries(u, v, p'.level[v])
    {
      assert v == w.vertex && w in p'.queue && Carries(w, v, p'.level[v]);
    }
  }

  /** Where the label of the target is kept on this rank, the relaxation lowers it here and now. */
  lemma {:induction false} EdgeOffers(cfg: Config, s: System, r: nat)
    requires cfg.Valid() && Shape(cfg, s) && Enabled(cfg, s, Continue(r)) && Sized(cfg, Next(cfg, s, Continue(r)))
    ensures var v := s.procs[r].activity.visitor;
            var e := cfg.g.edges[r][v.vertex][s.procs[r].activity.next];
            Offered(cfg, Next(cfg, s, Continue(r)), r, e.target, cfg.Relax(v.level, e))
  {
  }

  lemma {:induction false} FinishProgress(cfg: Config, s: System, r: nat, s': System, q: nat, v: nat)
    requires cfg.Valid() && Ready(cfg, s) && Ready(cfg, s') && Evolves(cfg, s, s')
    requires r < cfg.g.ranks && q < cfg.g.ranks && v < cfg.g.size && s.procs[r].activity.Busy?
    requires s'.procs == s.procs[r := s.procs[r].(activity := Idle)] && s.bcasts <= s'.bcasts
    requires var a := s.procs[r].activity;
             && a.visitor.vertex < cfg.g.size
             && a.next == |cfg.g.edges[r][a.visitor.vertex]|
             && (a.announce ==> Broadcast(cfg.g.ranks, r, a.visitor) <= s'.bcasts)
    requires Progress(cfg, s, q, v) && Current(cfg, s, q, v)
    ensures Progress(cfg, s', q, v) && Current(cfg, s', q, v)
  {
    var x := Master(cfg, s, v);
    var a := s.procs[r].activity;
    FinishKeeps(cfg, s, r, s', q, v, x);
    if Reached(cfg, s, q, v, x) {
      if q == r {
        EdgesEvolve(cfg, s, s', q, v, x, a.next);
        assert Progress(cfg, s', q, v);
      } else {
        ReachedEvolves(cfg, s, s', q, v, x);
        ProgressFrame(cfg, s, s', q, v);
      }
    } else {
      ProgressFrame(cfg, s, s', q, v);
    }
  }

  /** What the master was announcing is now posted to every copy. */
  lemma {:induction false} FinishKeeps(cfg: Config, s: System, r: nat, s': System, q: nat, v: nat, x: nat)
    requires Ready(cfg, s) && Ready(cfg, s') && r < cfg.g.ranks && q < cfg.g.ranks && v < cfg.g.size
    requires s.procs[r].activity.Busy? && s.bcasts <= s'.bcasts
    requires s'.procs == s.procs[r := s.procs[r].(activity := Idle)]
    requires var a := s.procs[r].activity; a.announce ==> Broadcast(cfg.g.ranks, r, a.visitor) <= s'.bcasts
    ensures Master(cfg, s', v) == Master(cfg, s, v)
    ensures ForMaster(cfg, s, v, x) ==> ForMaster(cfg, s', v, x)
    ensures ForCopy(cfg, s, q, v, x) ==> ForCopy(cfg, s', q, v, x)
  {
    var a := s.procs[r].activity;
    assert forall m | m in s.bcasts :: m in s'.bcasts;
    if ForCopy(cfg, s, q, v, x) && cfg.g.master[v] == r && a.announce && Carries(a.visitor, v, x) {
      assert Message(q, a.visitor) in Broadcast(cfg.g.ranks, r, a.visitor);
      assert Message(q, a.visitor) in s'.bcasts;
      assert Posted(cfg, s', q, v, x);
    }
  }

  // --- Every event --------------------------------------------------------------------------------

  ghost predicate Attentive(cfg: Config, s: System)
    requires cfg.Valid() && Ready(cfg, s)
  {
    forall q, v | 0 <= q < cfg.g.ranks && 0 <= v < cfg.g.size && cfg.g.Hosts(q, v) ::
      Progress(cfg, s, q, v) && Current(cfg, s, q, v)
  }

  ghost predicate Invariant(cfg: Config, s: System)
    requires cfg.Valid()
  {
    && Shape(cfg, s) && Sized(cfg, s)
    && Sound(cfg, s) && Ordered(cfg, s) && Attentive(cfg, s)
  }

  /** The visitor a visiting event takes up, and its rank's process without it. */
  ghost function Visiting(cfg: Config, s: System, ev: Event): (Process, Visitor)
    requires cfg.Valid() && Shape(cfg, s) && Enabled(cfg, s, ev)
    requires ev.Pop? || ev.PopController? || ev.InitVisit?
  {
    var p := s.procs[Actor(ev)];
    match ev
    case Pop(_, u) => (p.(queue := p.queue - multiset{u}), u)
    case PopController(_) => (p.(controllers := p.controllers[1..]), p.controllers[0])
    case InitVisit(_, t) => (p.(toInit := p.toInit - {t}), Visitor(t, t, t))
  }

  lemma {:induction false} VisitingTaken(cfg: Config, s: System, ev: Event)
    requires cfg.Valid() && Shape(cfg, s) && Sized(cfg, s) && Enabled(cfg, s, ev)
    requires ev.Pop? || ev.PopController? || ev.InitVisit?
    ensures var (p, u) := Visiting(cfg, s, ev);
            Taken(cfg, s, Actor(ev), p, u) && Next(cfg, s, ev) == AfterVisit(cfg, s, Actor(ev), p, u)
  {
    var p := s.procs[Actor(ev)];
    assert ShapedRank(cfg, Actor(ev), p);
    if ev.PopController? {
      assert p.controllers == [p.controllers[0]] + p.controllers[1..];
      assert p.controllers[0] in p.controllers;
    }
  }

  lemma {:induction false} VisitingGood(cfg: Config, s: System, ev: Event)
    requires cfg.Valid() && Shape(cfg, s) && Sized(cfg, s) && Sound(cfg, s) && Ordered(cfg, s) && Enabled(cfg, s, ev)
    requires ev.Pop? || ev.PopController? || ev.InitVisit?
    ensures Token(cfg, s, Visiting(cfg, s, ev).1) && GoodVisitor(cfg, Visiting(cfg, s, ev).1)
  {
    var p := s.procs[Actor(ev)];
    assert TokensOf(cfg, s, p) && Justified(cfg, p);
    if ev.PopController? {
      assert p.controllers[0] in p.controllers;
    } else if ev.InitVisit? {
      assert ShapedRank(cfg, Actor(ev), p);
      WitnessOrigin(cfg, ev.u);
    }
  }

  lemma {:induction false} VisitEventProgress(cfg: Config, s: System, ev: Event, q: nat, v: nat)
    requires cfg.Valid() && Shape(cfg, s) && Sized(cfg, s) && Sound(cfg, s) && Ordered(cfg, s)
    requires Enabled(cfg, s, ev) && (ev.Pop? || ev.PopController? || ev.InitVisit?)
    requires Sized(cfg, Next(cfg, s, ev)) && Evolves(cfg, s, Next(cfg, s, ev))
    requires q < cfg.g.ranks && v < cfg.g.size && cfg.g.Hosts(q, v)
    requires Progress(cfg, s, q, v) && Current(cfg, s, q, v)
    ensures Progress(cfg, Next(cfg, s, ev), q, v) && Current(cfg, Next(cfg, s, ev), q, v)
  {
    var (p, u) := Visiting(cfg, s, ev);
    VisitingTaken(cfg, s, ev);
    VisitingGood(cfg, s, ev);
    assert CopiesOf(cfg, s, s.procs[Actor(ev)]);
    VisitProgress(cfg, s, Actor(ev), p, u, q, v);
  }

  lemma {:induction false} EdgeEventProgress(cfg: Config, s: System, r: nat, q: nat, v: nat)
    requires cfg.Valid() && Shape(cfg, s) && Sized(cfg, s) && Ordered(cfg, s) && Enabled(cfg, s, Continue(r))
    requires q < cfg.g.ranks && v < cfg.g.size && Progress(cfg, s, q, v) && Current(cfg, s, q, v)
    ensures Sized(cfg, Next(cfg, s, Continue(r)))
    ensures Progress(cfg, Next(cfg, s, Continue(r)), q, v) && Current(cfg, Next(cfg, s, Continue(r)), q, v)
  {
    hide Progress, Current, Evolves, Ordered, Covered, QueueVisitor, Accept, Forward, BeginVisit, Broadcast;
    var p := s.procs[r];
    var u := p.activity.visitor;
    var e := cfg.g.edges[r][u.vertex][p.activity.next];
    EdgeEvent(cfg, s, r);
    EdgeOffers(cfg, s, r);
    if cfg.Emits(u.level, e) {
      QueueRelaxes(cfg, r, p, Visitor(e.target, cfg.Relax(u.level, e), u.vertex));
    }
    ContinueProgress(cfg, s, r, Next(cfg, s, Continue(r)), q, v);
  }

  lemma {:induction false} StepAttentive(cfg: Config, s: System, ev: Event)
    requires cfg.Valid() && Invariant(cfg, s) && Enabled(cfg, s, ev)
    requires Sized(cfg, Next(cfg, s, ev)) && Evolves(cfg, s, Next(cfg, s, ev))
    ensures Attentive(cfg, Next(cfg, s, ev))
  {
    hide Progress, Current, Evolves, Sound, Ordered, Covered, QueueVisitor, RelaxEdge, BeginVisit, Broadcast;
    var s' := Next(cfg, s, ev);
    forall q, v | 0 <= q < cfg.g.ranks && 0 <= v < cfg.g.size && cfg.g.Hosts(q, v)
      ensures Progress(cfg, s', q, v) && Current(cfg, s', q, v)
    {
      assert Progress(cfg, s, q, v) && Current(cfg, s, q, v);
      match ev {
        case Deliver(m) => DeliverProgress(cfg, s, m, s', q, v);
        case DeliverBroadcast(m) => DeliverBroadcastProgress(cfg, s, m, s', q, v);
        case Continue(r) => EdgeEventProgress(cfg, s, r, q, v);
        case Finish(r) => FinishProgress(cfg, s, r, s', q, v);
        case _ => VisitEventProgress(cfg, s, ev, q, v);
      }
    }
  }

  lemma {:induction false} StepInvariant(cfg: Config, s: System, ev: Event)
    requires cfg.Valid() && Invariant(cfg, s) && Enabled(cfg, s, ev)
    ensures Invariant(cfg, Next(cfg, s, ev))
  {
    StepSound(cfg, s, ev);
    StepOrdered(cfg, s, ev);
    StepAttentive(cfg, s, ev);
  }
}
