/**
 How labels move: they only fall, a message is never lost before its master is as low,
 and a copy below its master has a message on the way.
 */
module TraversalOrder {
  import opened Graphs
  import opened Traversal

  ghost predicate Sized(cfg: Config, s: System) {
    && cfg.g.Placed()
    && |s.procs| == cfg.g.ranks
    && (forall r | 0 <= r < cfg.g.ranks :: ShapedProcess(cfg, s.procs[r]))
    && (forall m | m in s.net :: m.visitor.vertex < cfg.g.size)
  }

  ghost function Master(cfg: Config, s: System, v: nat): nat
    requires Sized(cfg, s) && v < cfg.g.size
  {
    s.procs[cfg.g.master[v]].level[v]
  }

  /** A message that will bring w's master down to l or lower. */
  ghost predicate Evidence(s: System, w: nat, l: nat) {
    exists m :: m in s.net && m.visitor.vertex == w && m.visitor.level <= l
  }

  ghost predicate Covered(cfg: Config, s: System, w: nat, l: nat)
    requires Sized(cfg, s) && w < cfg.g.size
  {
    Master(cfg, s, w) <= l || Evidence(s, w, l)
  }

  ghost predicate Evolves(cfg: Config, s: System, s': System)
    requires Sized(cfg, s) && Sized(cfg, s')
  {
    && (forall v | 0 <= v < cfg.g.size :: Master(cfg, s', v) <= Master(cfg, s, v))
    && (forall m | m in s.net :: m in s'.net || Master(cfg, s', m.visitor.vertex) <= m.visitor.level)
    && Falling(cfg, s, s')
  }

  /** Labels fall on every rank, copies included. */
  ghost predicate Falling(cfg: Config, s: System, s': System)
    requires Sized(cfg, s) && Sized(cfg, s')
  {
    forall q {:trigger Lowered(s.procs[q], s'.procs[q])} | 0 <= q < cfg.g.ranks :: Lowered(s.procs[q], s'.procs[q])
  }

  lemma {:induction false} CoveredEvolves(cfg: Config, s: System, s': System, w: nat, l: nat)
    requires Sized(cfg, s) && Sized(cfg, s') && Evolves(cfg, s, s')
    requires w < cfg.g.size && Covered(cfg, s, w, l)
    ensures Covered(cfg, s', w, l)
  {
    if Master(cfg, s, w) > l {
      var m :| m in s.net && m.visitor.vertex == w && m.visitor.level <= l;
      assert m in s'.net || Master(cfg, s', w) <= m.visitor.level;
    }
  }

  /** Replacing one process by a lowered one, and the messages by others. */
  lemma {:induction false} EvolvesBy(cfg: Config, s: System, r: nat, p: Process, net: multiset<Message>, bcasts: multiset<Message>)
    requires Sized(cfg, s) && r < cfg.g.ranks && Lowered(s.procs[r], p)
    requires forall m | m in net :: m.visitor.vertex < cfg.g.size
    requires forall m | m in s.net && m !in net ::
               m.visitor.vertex < cfg.g.size && cfg.g.master[m.visitor.vertex] == r
               && p.level[m.visitor.vertex] <= m.visitor.level
    ensures var s' := System(s.procs[r := p], net, bcasts); Sized(cfg, s') && Evolves(cfg, s, s')
  {
  }

  // --- Tokens: a label being spread is never below its master's label ---------------------

  ghost predicate Token(cfg: Config, s: System, v: Visitor)
    requires Sized(cfg, s)
  {
    v.vertex < cfg.g.size && Master(cfg, s, v.vertex) <= v.level
  }

  ghost predicate TokensOf(cfg: Config, s: System, p: Process)
    requires Sized(cfg, s)
  {
    && (forall v | v in p.queue :: Token(cfg, s, v))
    && (forall v | v in p.controllers :: Token(cfg, s, v))
    && (p.activity.Busy? ==> Token(cfg, s, p.activity.visitor))
  }

  ghost predicate BroadcastTokens(cfg: Config, s: System, bcasts: multiset<Message>)
    requires Sized(cfg, s)
  {
    forall m | m in bcasts :: Token(cfg, s, m.visitor)
  }

  /** "A copy below its master implies a message in flight to the master." */
  ghost predicate CopiesOf(cfg: Config, s: System, p: Process)
    requires Sized(cfg, s) && ShapedProcess(cfg, p)
  {
    forall v | 0 <= v < cfg.g.size && v in cfg.g.delegates :: Covered(cfg, s, v, p.level[v])
  }

  ghost predicate Home(cfg: Config, s: System)
    requires Sized(cfg, s) && cfg.source < cfg.g.size
  {
    if cfg.algorithm.Cc? then
      forall v | 0 <= v < cfg.g.size :: Master(cfg, s, v) <= v
    else
      Covered(cfg, s, cfg.source, 0)
  }

  ghost predicate Ordered(cfg: Config, s: System)
    requires Sized(cfg, s) && cfg.source < cfg.g.size
  {
    && (forall r | 0 <= r < cfg.g.ranks :: TokensOf(cfg, s, s.procs[r]) && CopiesOf(cfg, s, s.procs[r]))
    && BroadcastTokens(cfg, s, s.bcasts)
    && Home(cfg, s)
  }

  lemma {:induction false} TokensEvolve(cfg: Config, s: System, s': System, p: Process)
    requires Sized(cfg, s) && Sized(cfg, s') && Evolves(cfg, s, s') && TokensOf(cfg, s, p)
    ensures TokensOf(cfg, s', p)
  {
  }

  lemma {:induction false} CopiesEvolve(cfg: Config, s: System, s': System, p: Process)
    requires Sized(cfg, s) && Sized(cfg, s') && Evolves(cfg, s, s') && ShapedProcess(cfg, p) && CopiesOf(cfg, s, p)
    ensures CopiesOf(cfg, s', p)
  {
    forall v | 0 <= v < cfg.g.size && v in cfg.g.delegates ensures Covered(cfg, s', v, p.level[v]) {
      CoveredEvolves(cfg, s, s', v, p.level[v]);
    }
  }

  lemma {:induction false} HomeEvolves(cfg: Config, s: System, s': System)
    requires Sized(cfg, s) && Sized(cfg, s') && Evolves(cfg, s, s') && cfg.source < cfg.g.size && Home(cfg, s)
    ensures Home(cfg, s')
  {
    if !cfg.algorithm.Cc? {
      CoveredEvolves(cfg, s, s', cfg.source, 0);
    }
  }

  /** Everything but the acting rank and new broadcasts stays ordered. */
  lemma {:induction false} OrderedBy(cfg: Config, s: System, r: nat, s': System, added: multiset<Message>)
    requires Sized(cfg, s) && Sized(cfg, s') && Evolves(cfg, s, s') && cfg.source < cfg.g.size && Ordered(cfg, s)
    requires r < cfg.g.ranks && s'.procs == s.procs[r := s'.procs[r]]
    requires TokensOf(cfg, s', s'.procs[r]) && CopiesOf(cfg, s', s'.procs[r])
    requires s'.bcasts <= s.bcasts + added && BroadcastTokens(cfg, s', added)
    ensures Ordered(cfg, s')
  {
    HomeEvolves(cfg, s, s');
    forall q | 0 <= q < cfg.g.ranks
      ensures TokensOf(cfg, s', s'.procs[q]) && CopiesOf(cfg, s', s'.procs[q])
    {
      if q != r {
        assert s'.procs[q] == s.procs[q];
        TokensEvolve(cfg, s, s', s.procs[q]);
        CopiesEvolve(cfg, s, s', s.procs[q]);
      }
    }
    forall m | m in s'.bcasts ensures Token(cfg, s', m.visitor) {
      assert m in s.bcasts || m in added;
    }
  }

  lemma {:induction false} BeginOrdered(cfg: Config, s: System, r: nat, p: Process, v: Visitor)
    requires Sized(cfg, s) && ShapedProcess(cfg, p) && Token(cfg, s, v)
    requires TokensOf(cfg, s, p) && CopiesOf(cfg, s, p)
    ensures TokensOf(cfg, s, BeginVisit(cfg, r, p, v)) && CopiesOf(cfg, s, BeginVisit(cfg, r, p, v))
  {
    var p' := BeginVisit(cfg, r, p, v);
    forall u | 0 <= u < cfg.g.size && u in cfg.g.delegates ensures Covered(cfg, s, u, p'.level[u]) {
      assert u != v.vertex ==> p'.level[u] == p.level[u];
    }
  }

  lemma {:induction false} AcceptOrdered(cfg: Config, s: System, p: Process, v: Visitor)
    requires Sized(cfg, s) && ShapedProcess(cfg, p) && v.vertex < cfg.g.size
    requires TokensOf(cfg, s, p) && CopiesOf(cfg, s, p) && Covered(cfg, s, v.vertex, v.level)
    ensures CopiesOf(cfg, s, Accept(p, v)) && CopiesOf(cfg, s, Forward(p, v))
    ensures Token(cfg, s, v) ==> TokensOf(cfg, s, Accept(p, v))
    ensures TokensOf(cfg, s, Forward(p, v))
  {
    forall u | 0 <= u < cfg.g.size && u in cfg.g.delegates ensures Covered(cfg, s, u, Forward(p, v).level[u]) {
      assert u != v.vertex ==> Forward(p, v).level[u] == p.level[u];
    }
  }

  // --- One lemma for each kind of event ------------------------------------------------------

  lemma {:induction false} DeliverOrdered(cfg: Config, s: System, m: Message)
    requires Sized(cfg, s) && cfg.source < cfg.g.size && Ordered(cfg, s)
    requires m in s.net && m.dest == cfg.g.master[m.visitor.vertex]
    ensures var s' := System(s.procs[m.dest := Accept(s.procs[m.dest], m.visitor)], s.net - multiset{m}, s.bcasts);
            Sized(cfg, s') && Evolves(cfg, s, s') && Ordered(cfg, s')
  {
    var p := s.procs[m.dest];
    EvolvesBy(cfg, s, m.dest, Accept(p, m.visitor), s.net - multiset{m}, s.bcasts);
    var s' := System(s.procs[m.dest := Accept(p, m.visitor)], s.net - multiset{m}, s.bcasts);
    TokensEvolve(cfg, s, s', p);
    CopiesEvolve(cfg, s, s', p);
    AcceptOrdered(cfg, s', p, m.visitor);
    OrderedBy(cfg, s, m.dest, s', multiset{});
  }

  lemma {:induction false} DeliverBroadcastOrdered(cfg: Config, s: System, m: Message)
    requires Sized(cfg, s) && cfg.source < cfg.g.size && Ordered(cfg, s)
    requires m in s.bcasts && m.dest < cfg.g.ranks
    ensures var p := s.procs[m.dest];
            var s' := System(s.procs[m.dest := p.(controllers := p.controllers + [m.visitor])], s.net,
                             s.bcasts - multiset{m});
            Sized(cfg, s') && Evolves(cfg, s, s') && Ordered(cfg, s')
  {
    var p := s.procs[m.dest];
    var p' := p.(controllers := p.controllers + [m.visitor]);
    var s' := System(s.procs[m.dest := p'], s.net, s.bcasts - multiset{m});
    EvolvesBy(cfg, s, m.dest, p', s.net, s'.bcasts);
    assert TokensOf(cfg, s, p') && CopiesOf(cfg, s, p');
    TokensEvolve(cfg, s, s', p');
    CopiesEvolve(cfg, s, s', p');
    OrderedBy(cfg, s, m.dest, s', multiset{});
  }

  /** p is the acting rank's process once the visitor has left its queue. */
  lemma {:induction false} VisitOrdered(cfg: Config, s: System, r: nat, p: Process, v: Visitor)
    requires Sized(cfg, s) && cfg.source < cfg.g.size && Ordered(cfg, s) && r < cfg.g.ranks
    requires p.level == s.procs[r].level && p.parent == s.procs[r].parent
    requires TokensOf(cfg, s, p) && Token(cfg, s, v)
    ensures var s' := System(s.procs[r := BeginVisit(cfg, r, p, v)], s.net, s.bcasts);
            Sized(cfg, s') && Evolves(cfg, s, s') && Ordered(cfg, s')
  {
    var p' := BeginVisit(cfg, r, p, v);
    var s' := System(s.procs[r := p'], s.net, s.bcasts);
    EvolvesBy(cfg, s, r, p', s.net, s.bcasts);
    BeginOrdered(cfg, s, r, p, v);
    TokensEvolve(cfg, s, s', p');
    CopiesEvolve(cfg, s, s', p');
    OrderedBy(cfg, s, r, s', multiset{});
  }

  /** A visitor handed to queue_visitor covers its vertex, wherever that happens. */
  lemma {:induction false} QueueEvolves(cfg: Config, s: System, r: nat, p: Process, v: Visitor)
    requires Sized(cfg, s) && r < cfg.g.ranks && v.vertex < cfg.g.size
    requires p.level == s.procs[r].level && p.parent == s.procs[r].parent && CopiesOf(cfg, s, p)
    ensures var (p', sent) := QueueVisitor(cfg, r, p, v);
            var s' := System(s.procs[r := p'], s.net + sent, s.bcasts);
            Sized(cfg, s') && Evolves(cfg, s, s') && Covered(cfg, s', v.vertex, v.level)
  {
    var (p', sent) := QueueVisitor(cfg, r, p, v);
    var s' := System(s.procs[r := p'], s.net + sent, s.bcasts);
    EvolvesBy(cfg, s, r, p', s.net + sent, s.bcasts);
    if cfg.g.master[v.vertex] != r {
      if v.vertex !in cfg.g.delegates || PreVisit(p, v) {
        assert Message(cfg.g.master[v.vertex], v) in s'.net;
      } else {
        assert Covered(cfg, s, v.vertex, p.level[v.vertex]);
        CoveredEvolves(cfg, s, s', v.vertex, v.level);
      }
    }
  }

  lemma {:induction false} QueueOrdered(cfg: Config, s: System, r: nat, p: Process, v: Visitor)
    requires Sized(cfg, s) && cfg.source < cfg.g.size && Ordered(cfg, s) && r < cfg.g.ranks && v.vertex < cfg.g.size
    requires p.level == s.procs[r].level && p.parent == s.procs[r].parent && TokensOf(cfg, s, p)
    ensures var (p', sent) := QueueVisitor(cfg, r, p, v);
            var s' := System(s.procs[r := p'], s.net + sent, s.bcasts);
            Sized(cfg, s') && Evolves(cfg, s, s') && Ordered(cfg, s') && Covered(cfg, s', v.vertex, v.level)
  {
    var (p', sent) := QueueVisitor(cfg, r, p, v);
    var s' := System(s.procs[r := p'], s.net + sent, s.bcasts);
    QueueEvolves(cfg, s, r, p, v);
    TokensEvolve(cfg, s, s', p);
    CopiesEvolve(cfg, s, s', p);
    AcceptOrdered(cfg, s', p, v);
    OrderedBy(cfg, s, r, s', multiset{});
  }

  lemma {:induction false} FinishOrdered(cfg: Config, s: System, r: nat)
    requires Sized(cfg, s) && cfg.source < cfg.g.size && Ordered(cfg, s) && r < cfg.g.ranks
    requires s.procs[r].activity.Busy?
    ensures var sent := Broadcast(cfg.g.ranks, r, s.procs[r].activity.visitor);
            var s1 := System(s.procs[r := s.procs[r].(activity := Idle)], s.net, s.bcasts + sent);
            var s2 := System(s.procs[r := s.procs[r].(activity := Idle)], s.net, s.bcasts);
            && Sized(cfg, s1) && Evolves(cfg, s, s1) && Ordered(cfg, s1)
            && Sized(cfg, s2) && Evolves(cfg, s, s2) && Ordered(cfg, s2)
  {
    var sent := Broadcast(cfg.g.ranks, r, s.procs[r].activity.visitor);
    var p := s.procs[r].(activity := Idle);
    var s1 := System(s.procs[r := p], s.net, s.bcasts + sent);
    var s2 := System(s.procs[r := p], s.net, s.bcasts);
    EvolvesBy(cfg, s, r, p, s.net, s1.bcasts);
    EvolvesBy(cfg, s, r, p, s.net, s2.bcasts);
    assert TokensOf(cfg, s, p) && CopiesOf(cfg, s, p);
    TokensEvolve(cfg, s, s1, p);
    CopiesEvolve(cfg, s, s1, p);
    TokensEvolve(cfg, s, s2, p);
    CopiesEvolve(cfg, s, s2, p);
    OrderedBy(cfg, s, r, s1, sent);
    OrderedBy(cfg, s, r, s2, multiset{});
  }

  /** A rank's process once a visitor has left the place it waited in. */
  lemma {:induction false} TakenTokens(cfg: Config, s: System, p: Process, v: Visitor, u: nat)
    requires Sized(cfg, s) && TokensOf(cfg, s, p)
    ensures v in p.queue ==> Token(cfg, s, v) && TokensOf(cfg, s, p.(queue := p.queue - multiset{v}))
    ensures p.controllers != [] ==>
              Token(cfg, s, p.controllers[0]) && TokensOf(cfg, s, p.(controllers := p.controllers[1..]))
    ensures TokensOf(cfg, s, p.(toInit := p.toInit - {u}))
  {
    hide Token;
    if p.controllers != [] {
      assert p.controllers[0] in p.controllers;
      assert forall w | w in p.controllers[1..] :: w in p.controllers;
    }
  }

  /** A component's own visitor is never below its master's label. */
  lemma {:induction false} OwnToken(cfg: Config, s: System, r: nat, u: nat)
    requires cfg.Valid() && Shape(cfg, s) && Sized(cfg, s) && Home(cfg, s) && r < cfg.g.ranks && u in s.procs[r].toInit
    ensures Token(cfg, s, Visitor(u, u, u))
  {
    assert ShapedRank(cfg, r, s.procs[r]);
  }

  lemma {:induction false} VisitEvent(cfg: Config, s: System, ev: Event)
    requires cfg.Valid() && Shape(cfg, s) && Enabled(cfg, s, ev) && Sized(cfg, s) && Ordered(cfg, s)
    requires ev.Pop? || ev.PopController? || ev.InitVisit?
    ensures var s' := Next(cfg, s, ev); Sized(cfg, s') && Evolves(cfg, s, s') && Ordered(cfg, s')
  {
    hide TokensOf, CopiesOf, Token, BeginVisit, Home, Evolves, BroadcastTokens, ShapedRank;
    var p := s.procs[Actor(ev)];
    assert TokensOf(cfg, s, p);
    match ev {
      case Pop(r, v) =>
        TakenTokens(cfg, s, p, v, 0);
        VisitOrdered(cfg, s, r, p.(queue := p.queue - multiset{v}), v);
      case PopController(r) =>
        TakenTokens(cfg, s, p, p.controllers[0], 0);
        VisitOrdered(cfg, s, r, p.(controllers := p.controllers[1..]), p.controllers[0]);
      case InitVisit(r, u) =>
        TakenTokens(cfg, s, p, Visitor(u, u, u), u);
        OwnToken(cfg, s, r, u);
        VisitOrdered(cfg, s, r, p.(toInit := p.toInit - {u}), Visitor(u, u, u));
    }
  }

  /** Moving on to the next edge changes no label and no token. */
  lemma {:induction false} Advanced(cfg: Config, s: System, r: nat)
    requires Sized(cfg, s) && cfg.source < cfg.g.size && Ordered(cfg, s) && r < cfg.g.ranks && s.procs[r].activity.Busy?
    ensures var p := s.procs[r].(activity := s.procs[r].activity.(next := s.procs[r].activity.next + 1));
            TokensOf(cfg, s, p) && CopiesOf(cfg, s, p)
  {
    hide Covered, Token, Home, BroadcastTokens;
    assert TokensOf(cfg, s, s.procs[r]);
  }

  lemma {:induction false} SkipOrdered(cfg: Config, s: System, r: nat, p: Process)
    requires Sized(cfg, s) && cfg.source < cfg.g.size && Ordered(cfg, s) && r < cfg.g.ranks
    requires p.level == s.procs[r].level && p.parent == s.procs[r].parent && TokensOf(cfg, s, p) && CopiesOf(cfg, s, p)
    ensures var s' := System(s.procs[r := p], s.net + multiset{}, s.bcasts);
            Sized(cfg, s') && Evolves(cfg, s, s') && Ordered(cfg, s')
  {
    var s' := System(s.procs[r := p], s.net + multiset{}, s.bcasts);
    assert s.net + multiset{} == s.net;
    EvolvesBy(cfg, s, r, p, s.net, s.bcasts);
    hide TokensOf, CopiesOf, Evolves, BroadcastTokens, Ordered;
    TokensEvolve(cfg, s, s', p);
    CopiesEvolve(cfg, s, s', p);
    OrderedBy(cfg, s, r, s', multiset{});
  }

  lemma {:induction false} EdgeEvent(cfg: Config, s: System, r: nat)
    requires cfg.Valid() && Shape(cfg, s) && Enabled(cfg, s, Continue(r)) && Sized(cfg, s) && Ordered(cfg, s)
    ensures var s' := Next(cfg, s, Continue(r));
            var v := s.procs[r].activity.visitor;
            var e := cfg.g.edges[r][v.vertex][s.procs[r].activity.next];
            && Sized(cfg, s') && Evolves(cfg, s, s') && Ordered(cfg, s')
            && Covered(cfg, s', e.target, cfg.Relax(v.level, e))
  {
    hide TokensOf, CopiesOf, Evolves, Ordered, QueueVisitor, Covered;
    var p := s.procs[r];
    var v := p.activity.visitor;
    var e := cfg.g.edges[r][v.vertex][p.activity.next];
    var p1 := p.(activity := p.activity.(next := p.activity.next + 1));
    Advanced(cfg, s, r);
    if cfg.Emits(v.level, e) {
      QueueOrdered(cfg, s, r, p1, Visitor(e.target, cfg.Relax(v.level, e), v.vertex));
    } else {
      SkipOrdered(cfg, s, r, p1);
      FilterCovers(cfg, System(s.procs[r := p1], s.net + multiset{}, s.bcasts), e.target, v.level);
    }
  }

  /** A neighbour the components filter skips has a label as small already. */
  lemma {:induction false} FilterCovers(cfg: Config, s: System, w: nat, l: nat)
    requires Sized(cfg, s) && cfg.source < cfg.g.size && Ordered(cfg, s) && cfg.algorithm.Cc? && w < cfg.g.size && w <= l
    ensures Covered(cfg, s, w, l)
  {
    hide TokensOf, CopiesOf, BroadcastTokens;
    assert Home(cfg, s);
  }

  lemma {:induction false} StepOrdered(cfg: Config, s: System, ev: Event)
    requires cfg.Valid() && Shape(cfg, s) && Enabled(cfg, s, ev) && Sized(cfg, s) && Ordered(cfg, s)
    ensures var s' := Next(cfg, s, ev); Sized(cfg, s') && Evolves(cfg, s, s') && Ordered(cfg, s')
  {
    match ev {
      case Deliver(m) => DeliverOrdered(cfg, s, m);
      case DeliverBroadcast(m) => DeliverBroadcastOrdered(cfg, s, m);
      case Continue(r) => EdgeEvent(cfg, s, r);
      case Finish(r) =>
        FinishOrdered(cfg, s, r);
        assert s.bcasts + multiset{} == s.bcasts;
      case _ => VisitEvent(cfg, s, ev);
    }
  }
}
