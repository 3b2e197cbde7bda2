/** What every event of a traversal keeps, whatever the order of events and messages. */
module TraversalInvariant {
  import opened Graphs
  import opened Traversal

  // --- Labels are justified by walks ---------------------------------------------------

  ghost predicate Origin(cfg: Config, s0: nat) {
    cfg.algorithm.Cc? || s0 == cfg.source
  }

  /** The label a walk from s0 stands for: hops, weights, or the component's name. */
  function PathLevel(cfg: Config, s0: nat, p: seq<Arc>): nat {
    match cfg.algorithm
    case Bfs => |p|
    case Sssp => Length(p)
    case Cc => s0
  }

  ghost predicate Derives(cfg: Config, s0: nat, p: seq<Arc>, v: nat, l: nat)
    requires cfg.Valid()
  {
    Origin(cfg, s0) && Walk(cfg.g, s0, p, v) && PathLevel(cfg, s0, p) == l
  }

  ghost predicate Witness(cfg: Config, v: nat, l: nat)
    requires cfg.Valid()
  {
    exists s0: nat, p: seq<Arc> :: Derives(cfg, s0, p, v, l)
  }

  /** The parent is one hop closer to the source, or the vertex is the source itself. */
  ghost predicate ParentFits(cfg: Config, v: nat, l: nat, parent: nat)
    requires cfg.Valid()
  {
    || (l == 0 && v == cfg.source && parent == cfg.source)
    || (l > 0 && Witness(cfg, parent, l - 1) && Adjacent(cfg, parent, v))
  }

  ghost predicate Adjacent(cfg: Config, u: nat, v: nat)
    requires cfg.Valid()
  {
    exists w: nat :: cfg.g.HasArc(Arc(u, v, w))
  }

  ghost predicate GoodVisitor(cfg: Config, v: Visitor)
    requires cfg.Valid()
  {
    && v.vertex < cfg.g.size
    && Witness(cfg, v.vertex, v.level)
    && (cfg.algorithm.Bfs? ==> ParentFits(cfg, v.vertex, v.level, v.parent))
  }

  ghost predicate Justified(cfg: Config, p: Process)
    requires cfg.Valid() && ShapedProcess(cfg, p)
  {
    && (forall v | 0 <= v < cfg.g.size :: JustifiedLevel(cfg, v, p.level[v]))
    && (forall v | v in p.queue :: GoodVisitor(cfg, v) && v.level < cfg.top)
    && (forall v | v in p.controllers :: GoodVisitor(cfg, v) && v.level < cfg.top)
    && (p.activity.Busy? ==> GoodVisitor(cfg, p.activity.visitor) && p.activity.visitor.level < cfg.top)
  }

  ghost predicate JustifiedLevel(cfg: Config, v: nat, l: nat)
    requires cfg.Valid()
  {
    l <= cfg.top && (l < cfg.top ==> Witness(cfg, v, l))
  }

  ghost predicate Sound(cfg: Config, s: System)
    requires cfg.Valid() && Shape(cfg, s)
  {
    && (forall r | 0 <= r < cfg.g.ranks :: Justified(cfg, s.procs[r]))
    && (forall m | m in s.net :: GoodVisitor(cfg, m.visitor))
    && (forall m | m in s.bcasts :: GoodVisitor(cfg, m.visitor) && m.visitor.level < cfg.top)
  }

  lemma {:induction false} WitnessStep(cfg: Config, u: nat, l: nat, a: Arc)
    requires cfg.Valid() && Witness(cfg, u, l) && cfg.g.HasArc(a) && a.src == u
    ensures Witness(cfg, a.dst, match cfg.algorithm case Bfs => l + 1 case Sssp => l + a.weight case Cc => l)
  {
    var s0: nat, p: seq<Arc> :| Derives(cfg, s0, p, u, l);
    WalkExtend(cfg.g, s0, p, a);
    assert Derives(cfg, s0, p + [a], a.dst, PathLevel(cfg, s0, p + [a]));
  }

  lemma {:induction false} WitnessOrigin(cfg: Config, v: nat)
    requires cfg.Valid() && v < cfg.g.size && Origin(cfg, v)
    ensures Witness(cfg, v, if cfg.algorithm.Cc? then v else 0)
  {
    assert Derives(cfg, v, [], v, PathLevel(cfg, v, []));
  }

  /** The visitor sent along an edge is justified; in particular its level never wraps. */
  lemma {:induction false} EmittedVisitor(cfg: Config, r: nat, p: Process)
    requires cfg.Valid() && r < cfg.g.ranks && ShapedRank(cfg, r, p) && Justified(cfg, p)
    requires p.activity.Busy? && p.activity.next < |cfg.g.edges[r][p.activity.visitor.vertex]|
    ensures var v := p.activity.visitor; var e := cfg.g.edges[r][v.vertex][p.activity.next];
            && GoodVisitor(cfg, Visitor(e.target, cfg.Relax(v.level, e), v.vertex))
            && (cfg.algorithm.Bfs? ==> cfg.Relax(v.level, e) == v.level + 1)
  {
    var v := p.activity.visitor;
    var e := cfg.g.edges[r][v.vertex][p.activity.next];
    var a := Arc(v.vertex, e.target, e.weight);
    assert cfg.g.ArcAt(a, r, p.activity.next);
    WitnessStep(cfg, v.vertex, v.level, a);
  }

  lemma {:induction false} AcceptKeeps(cfg: Config, r: nat, p: Process, v: Visitor)
    requires cfg.Valid() && r < cfg.g.ranks && ShapedRank(cfg, r, p) && Justified(cfg, p) && GoodVisitor(cfg, v)
    ensures cfg.g.master[v.vertex] == r ==> ShapedRank(cfg, r, Accept(p, v)) && Justified(cfg, Accept(p, v))
    ensures ShapedRank(cfg, r, Forward(p, v)) && Justified(cfg, Forward(p, v))
  {
  }

  lemma {:induction false} BeginKeeps(cfg: Config, r: nat, p: Process, v: Visitor)
    requires cfg.Valid() && r < cfg.g.ranks && ShapedRank(cfg, r, p) && Justified(cfg, p)
    requires GoodVisitor(cfg, v) && v.level < cfg.top && cfg.g.Hosts(r, v.vertex)
    ensures ShapedRank(cfg, r, BeginVisit(cfg, r, p, v)) && Justified(cfg, BeginVisit(cfg, r, p, v))
  {
  }

  lemma {:induction false} QueueKeeps(cfg: Config, r: nat, p: Process, v: Visitor)
    requires cfg.Valid() && r < cfg.g.ranks && ShapedRank(cfg, r, p) && Justified(cfg, p) && GoodVisitor(cfg, v)
    ensures var (p', sent) := QueueVisitor(cfg, r, p, v);
            ShapedRank(cfg, r, p') && Justified(cfg, p') && GoodMessages(cfg, sent)
  {
    AcceptKeeps(cfg, r, p, v);
  }

  lemma {:induction false} AdvanceKeeps(cfg: Config, r: nat, p: Process)
    requires cfg.Valid() && r < cfg.g.ranks && ShapedRank(cfg, r, p) && Justified(cfg, p)
    requires p.activity.Busy? && p.activity.next < |cfg.g.edges[r][p.activity.visitor.vertex]|
    ensures var p' := p.(activity := p.activity.(next := p.activity.next + 1));
            ShapedRank(cfg, r, p') && Justified(cfg, p')
  {
  }

  lemma {:induction false} RelaxKeeps(cfg: Config, r: nat, p: Process)
    requires cfg.Valid() && r < cfg.g.ranks && ShapedRank(cfg, r, p) && Justified(cfg, p)
    requires p.activity.Busy? && p.activity.next < |cfg.g.edges[r][p.activity.visitor.vertex]|
    ensures var (p', sent) := RelaxEdge(cfg, r, p);
            ShapedRank(cfg, r, p') && Justified(cfg, p') && GoodMessages(cfg, sent)
  {
    EmittedVisitor(cfg, r, p);
    AdvanceKeeps(cfg, r, p);
    var v := p.activity.visitor;
    var e := cfg.g.edges[r][v.vertex][p.activity.next];
    var p1 := p.(activity := p.activity.(next := p.activity.next + 1));
    QueueKeeps(cfg, r, p1, Visitor(e.target, cfg.Relax(v.level, e), v.vertex));
  }

  ghost predicate GoodMessages(cfg: Config, ms: multiset<Message>)
    requires cfg.Valid()
  {
    forall m | m in ms :: GoodVisitor(cfg, m.visitor) && m.dest == cfg.g.master[m.visitor.vertex]
  }

  ghost predicate GoodBroadcasts(cfg: Config, ms: multiset<Message>)
    requires cfg.Valid()
  {
    forall m | m in ms ::
      CopyOf(cfg, m.dest, m.visitor.vertex) && GoodVisitor(cfg, m.visitor) && m.visitor.level < cfg.top
  }

  /** A system differing in one rank and in its messages is sound when these are. */
  lemma {:induction false} Replace(cfg: Config, s: System, r: nat, p: Process, net: multiset<Message>, bcasts: multiset<Message>)
    requires cfg.Valid() && Shape(cfg, s) && Sound(cfg, s) && r < cfg.g.ranks
    requires ShapedRank(cfg, r, p) && Justified(cfg, p) && GoodMessages(cfg, net) && GoodBroadcasts(cfg, bcasts)
    ensures Shape(cfg, System(s.procs[r := p], net, bcasts)) && Sound(cfg, System(s.procs[r := p], net, bcasts))
  {
  }

  lemma {:induction false} OwnVisitor(cfg: Config, u: nat)
    requires cfg.Valid() && cfg.algorithm.Cc? && u < cfg.g.size
    ensures GoodVisitor(cfg, Visitor(u, u, u))
  {
    WitnessOrigin(cfg, u);
  }

  /** The visit-starting events, split off. */
  lemma {:induction false} VisitSound(cfg: Config, s: System, ev: Event)
    requires cfg.Valid() && Shape(cfg, s) && Enabled(cfg, s, ev) && Sound(cfg, s)
    requires ev.Pop? || ev.PopController? || ev.InitVisit?
    ensures ShapedRank(cfg, Actor(ev), NextProcess(cfg, s, ev)) && Justified(cfg, NextProcess(cfg, s, ev))
  {
    hide GoodVisitor, JustifiedLevel, BeginVisit;
    var p := s.procs[Actor(ev)];
    assert ShapedRank(cfg, Actor(ev), p) && Justified(cfg, p);
    match ev {
      case Pop(r, v) =>
        BeginKeeps(cfg, r, p.(queue := p.queue - multiset{v}), v);
      case PopController(r) =>
        ControllerKeeps(cfg, r, p);
      case InitVisit(r, u) =>
        OwnVisitor(cfg, u);
        BeginKeeps(cfg, r, p.(toInit := p.toInit - {u}), Visitor(u, u, u));
    }
  }

  lemma {:induction false} ProcessSound(cfg: Config, s: System, ev: Event)
    requires cfg.Valid() && Shape(cfg, s) && Enabled(cfg, s, ev) && Sound(cfg, s)
    ensures ShapedRank(cfg, Actor(ev), NextProcess(cfg, s, ev)) && Justified(cfg, NextProcess(cfg, s, ev))
  {
    hide GoodVisitor, JustifiedLevel, BeginVisit, RelaxEdge, Accept;
    var p := s.procs[Actor(ev)];
    assert ShapedRank(cfg, Actor(ev), p) && Justified(cfg, p);
    match ev {
      case Deliver(m) =>
        AcceptKeeps(cfg, m.dest, p, m.visitor);
      case DeliverBroadcast(m) =>
      case Continue(r) =>
        RelaxKeeps(cfg, r, p);
      case Finish(r) =>
      case _ =>
        VisitSound(cfg, s, ev);
    }
  }

  lemma {:induction false} MessagesSound(cfg: Config, s: System, ev: Event)
    requires cfg.Valid() && Shape(cfg, s) && Enabled(cfg, s, ev) && Sound(cfg, s)
    ensures GoodMessages(cfg, NextNet(cfg, s, ev)) && GoodBroadcasts(cfg, NextBroadcasts(cfg, s, ev))
  {
    assert GoodMessages(cfg, s.net) && GoodBroadcasts(cfg, s.bcasts);
    if ev.Continue? {
      RelaxKeeps(cfg, ev.r, s.procs[ev.r]);
    }
  }

  lemma {:induction false} StepSound(cfg: Config, s: System, ev: Event)
    requires cfg.Valid() && Shape(cfg, s) && Enabled(cfg, s, ev) && Sound(cfg, s)
    ensures Shape(cfg, Next(cfg, s, ev)) && Sound(cfg, Next(cfg, s, ev))
  {
    ProcessSound(cfg, s, ev);
    MessagesSound(cfg, s, ev);
    Replace(cfg, s, Actor(ev), NextProcess(cfg, s, ev), NextNet(cfg, s, ev), NextBroadcasts(cfg, s, ev));
  }

  lemma {:induction false} ControllerKeeps(cfg: Config, r: nat, p: Process)
    requires cfg.Valid() && r < cfg.g.ranks && ShapedRank(cfg, r, p) && Justified(cfg, p) && p.controllers != []
    ensures CopyOf(cfg, r, p.controllers[0].vertex)
    ensures var p' := BeginVisit(cfg, r, p.(controllers := p.controllers[1..]), p.controllers[0]);
            ShapedRank(cfg, r, p') && Justified(cfg, p')
  {
    assert p.controllers[0] in p.controllers;
    assert forall v | v in p.controllers[1..] :: v in p.controllers;
    BeginKeeps(cfg, r, p.(controllers := p.controllers[1..]), p.controllers[0]);
  }
}
