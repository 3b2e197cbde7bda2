/**
 Every traversal ends. A measure that weighs the labels of all copies against queued
 visitors, visits in progress, messages and broadcasts falls with every event.
 */
module TraversalTermination {
  import opened Arithmetic
  import opened Sums
  import opened Graphs
  import opened Traversal
  import opened TraversalExactness

  ghost function EdgeCounts(g: Graph, r: nat): seq<nat>
    requires g.Valid() && r < g.ranks
  {
    seq(g.size, v requires 0 <= v < g.size => |g.edges[r][v]|)
  }

  ghost function EdgeCount(g: Graph): nat
    requires g.Valid()
  {
    Sum(seq(g.ranks, r requires 0 <= r < g.ranks => Sum(EdgeCounts(g, r))))
  }

  lemma {:induction false} EdgeCountBounds(g: Graph, r: nat, v: nat)
    requires g.Valid() && r < g.ranks && v < g.size
    ensures |g.edges[r][v]| <= EdgeCount(g)
  {
    SumAtLeast(EdgeCounts(g, r), v);
    SumAtLeast(seq(g.ranks, q requires 0 <= q < g.ranks => Sum(EdgeCounts(g, q))), r);
  }

  /** Weights: d bounds the edges of a visit, n the ranks a broadcast goes to. */
  function ControllerWeight(d: nat): nat { 2 * d + 2 }

  function BroadcastWeight(d: nat): nat { ControllerWeight(d) + 1 }

  function QueueWeight(d: nat, n: nat): nat { 2 * d + 2 + n * BroadcastWeight(d) }

  function LevelWeight(d: nat, n: nat): nat { QueueWeight(d, n) + 1 }

  ghost function ActivityWeight(cfg: Config, r: nat, a: Activity, d: nat): nat
    requires cfg.Valid() && r < cfg.g.ranks
  {
    if a.Idle? || a.visitor.vertex >= cfg.g.size || a.next > |cfg.g.edges[r][a.visitor.vertex]| then 0
    else
      2 * (|cfg.g.edges[r][a.visitor.vertex]| - a.next) + 1
      + if a.announce then cfg.g.ranks * BroadcastWeight(d) else 0
  }

  ghost function Work(cfg: Config, r: nat, p: Process, d: nat): nat
    requires cfg.Valid() && r < cfg.g.ranks
  {
    |p.queue| * QueueWeight(d, cfg.g.ranks)
    + |p.controllers| * ControllerWeight(d)
    + |p.toInit| * QueueWeight(d, cfg.g.ranks)
    + ActivityWeight(cfg, r, p.activity, d)
  }

  ghost function Potential(cfg: Config, r: nat, p: Process, d: nat): nat
    requires cfg.Valid() && r < cfg.g.ranks
  {
    Sum(p.level) * LevelWeight(d, cfg.g.ranks) + Work(cfg, r, p, d)
  }

  ghost function Potentials(cfg: Config, s: System, d: nat): seq<nat>
    requires cfg.Valid() && |s.procs| == cfg.g.ranks
  {
    seq(cfg.g.ranks, r requires 0 <= r < cfg.g.ranks => Potential(cfg, r, s.procs[r], d))
  }

  ghost function Measure(cfg: Config, s: System): nat
    requires cfg.Valid() && |s.procs| == cfg.g.ranks
  {
    var d := EdgeCount(cfg.g);
    Sum(Potentials(cfg, s, d)) + |s.net| + |s.bcasts| * BroadcastWeight(d)
  }

  lemma {:induction false} LevelFalls(levels: seq<nat>, v: nat, l: nat, weight: nat)
    requires v < |levels| && l < levels[v]
    ensures Sum(levels[v := l]) * weight + weight <= Sum(levels) * weight
  {
    SumUpdate(levels, v, l);
    SumAtLeast(levels, v);
    TimesLess(Sum(levels[v := l]), Sum(levels), weight);
  }

  lemma {:induction false} AcceptPotential(cfg: Config, r: nat, p: Process, v: Visitor, d: nat)
    requires cfg.Valid() && r < cfg.g.ranks && v.vertex < |p.level|
    ensures Potential(cfg, r, Accept(p, v), d) <= Potential(cfg, r, p, d)
    ensures PreVisit(p, v) ==> Potential(cfg, r, Forward(p, v), d) + 2 <= Potential(cfg, r, p, d)
  {
    var w := LevelWeight(d, cfg.g.ranks);
    if PreVisit(p, v) {
      LevelFalls(p.level, v.vertex, v.level, w);
      var q := QueueWeight(d, cfg.g.ranks);
      assert |Accept(p, v).queue| == |p.queue| + 1;
      assert (|p.queue| + 1) * q == |p.queue| * q + q;
    }
  }

  lemma {:induction false} QueuePotential(cfg: Config, r: nat, p: Process, v: Visitor, d: nat)
    requires cfg.Valid() && r < cfg.g.ranks && v.vertex < |p.level| == |cfg.g.master|
    ensures var (p', sent) := QueueVisitor(cfg, r, p, v);
            |sent| <= 1 && Potential(cfg, r, p', d) + |sent| <= Potential(cfg, r, p, d) + 1
  {
    AcceptPotential(cfg, r, p, v, d);
  }

  lemma {:induction false} BegunLevels(cfg: Config, r: nat, p: Process, v: Visitor, weight: nat)
    requires ShapedProcess(cfg, p) && v.vertex < |p.level|
    ensures Sum(BeginVisit(cfg, r, p, v).level) * weight <= Sum(p.level) * weight
  {
    if v.level < p.level[v.vertex] {
      LevelFalls(p.level, v.vertex, v.level, weight);
    } else {
      assert BeginVisit(cfg, r, p, v).level == p.level;
    }
  }

  lemma {:induction false} BegunWork(cfg: Config, r: nat, p: Process, v: Visitor, d: nat)
    requires cfg.Valid() && r < cfg.g.ranks && ShapedProcess(cfg, p) && v.vertex < cfg.g.size
    requires p.activity.Idle? && |cfg.g.edges[r][v.vertex]| <= d
    ensures var a := BeginVisit(cfg, r, p, v).activity;
            && ActivityWeight(cfg, r, a, d) < QueueWeight(d, cfg.g.ranks)
            && (!(v.vertex in cfg.g.delegates && cfg.g.master[v.vertex] == r) ==>
                  ActivityWeight(cfg, r, a, d) < ControllerWeight(d))
  {
  }

  /** Beginning a visit turns the weight of the visitor taken up into at most that weight less one. */
  lemma {:induction false} BeginPotential(cfg: Config, r: nat, p: Process, v: Visitor, d: nat)
    requires cfg.Valid() && r < cfg.g.ranks && ShapedProcess(cfg, p) && v.vertex < cfg.g.size
    requires p.activity.Idle? && d == EdgeCount(cfg.g)
    ensures Potential(cfg, r, BeginVisit(cfg, r, p, v), d) < Potential(cfg, r, p, d) + QueueWeight(d, cfg.g.ranks)
    ensures !(v.vertex in cfg.g.delegates && cfg.g.master[v.vertex] == r) ==>
              Potential(cfg, r, BeginVisit(cfg, r, p, v), d) < Potential(cfg, r, p, d) + ControllerWeight(d)
  {
    hide ActivityWeight, QueueWeight, ControllerWeight, LevelWeight, EdgeCount, Sum;
    EdgeCountBounds(cfg.g, r, v.vertex);
    BegunLevels(cfg, r, p, v, LevelWeight(d, cfg.g.ranks));
    BegunWork(cfg, r, p, v, d);
  }

  /** Taking a visitor up sets its weight free. */
  lemma {:induction false} TakenPotential(cfg: Config, r: nat, p: Process, v: Visitor, u: nat, d: nat)
    requires cfg.Valid() && r < cfg.g.ranks
    ensures v in p.queue ==>
      Potential(cfg, r, p.(queue := p.queue - multiset{v}), d) + QueueWeight(d, cfg.g.ranks) == Potential(cfg, r, p, d)
    ensures u in p.toInit ==>
      Potential(cfg, r, p.(toInit := p.toInit - {u}), d) + QueueWeight(d, cfg.g.ranks) == Potential(cfg, r, p, d)
    ensures p.controllers != [] ==>
      Potential(cfg, r, p.(controllers := p.controllers[1..]), d) + ControllerWeight(d) == Potential(cfg, r, p, d)
  {
    var q, c := QueueWeight(d, cfg.g.ranks), ControllerWeight(d);
    hide QueueWeight, ControllerWeight, LevelWeight, ActivityWeight;
    if v in p.queue {
      OneLess(|p.queue|, |p.queue - multiset{v}|, q);
    }
    if u in p.toInit {
      OneLess(|p.toInit|, |p.toInit - {u}|, q);
    }
    if p.controllers != [] {
      OneLess(|p.controllers|, |p.controllers[1..]|, c);
    }
  }

  lemma {:induction false} OneLess(n: nat, m: nat, w: nat)
    requires m + 1 == n
    ensures m * w + w == n * w
  {
  }

  lemma {:induction false} VisitPotential(cfg: Config, s: System, ev: Event, d: nat)
    requires cfg.Valid() && Shape(cfg, s) && Enabled(cfg, s, ev) && d == EdgeCount(cfg.g)
    requires ev.Pop? || ev.PopController? || ev.InitVisit?
    ensures Potential(cfg, Actor(ev), NextProcess(cfg, s, ev), d) < Potential(cfg, Actor(ev), s.procs[Actor(ev)], d)
  {
    hide Potential, QueueWeight, ControllerWeight, BeginVisit, EdgeCount;
    var r := Actor(ev);
    var p := s.procs[r];
    assert ShapedRank(cfg, r, p);
    match ev {
      case Pop(_, v) =>
        TakenPotential(cfg, r, p, v, 0, d);
        BeginPotential(cfg, r, p.(queue := p.queue - multiset{v}), v, d);
      case PopController(_) =>
        assert p.controllers[0] in p.controllers;
        TakenPotential(cfg, r, p, p.controllers[0], 0, d);
        BeginPotential(cfg, r, p.(controllers := p.controllers[1..]), p.controllers[0], d);
      case InitVisit(_, u) =>
        TakenPotential(cfg, r, p, Visitor(u, u, u), u, d);
        BeginPotential(cfg, r, p.(toInit := p.toInit - {u}), Visitor(u, u, u), d);
    }
  }

  lemma {:induction false} AdvancePotential(cfg: Config, r: nat, p: Process, d: nat)
    requires cfg.Valid() && r < cfg.g.ranks && p.activity.Busy? && p.activity.visitor.vertex < cfg.g.size
    requires p.activity.next < |cfg.g.edges[r][p.activity.visitor.vertex]|
    ensures Potential(cfg, r, p.(activity := p.activity.(next := p.activity.next + 1)), d) + 2 == Potential(cfg, r, p, d)
  {
    hide QueueWeight, ControllerWeight, LevelWeight, Sum;
  }

  /** Relaxing an edge uses up at least what it sends. */
  lemma {:induction false} EdgePotential(cfg: Config, r: nat, p: Process, d: nat)
    requires cfg.Valid() && r < cfg.g.ranks && ShapedRank(cfg, r, p) && p.activity.Busy?
    requires p.activity.next < |cfg.g.edges[r][p.activity.visitor.vertex]|
    ensures var (p', sent) := RelaxEdge(cfg, r, p);
            Potential(cfg, r, p', d) + |sent| < Potential(cfg, r, p, d)
  {
    var v := p.activity.visitor;
    var e := cfg.g.edges[r][v.vertex][p.activity.next];
    var p1 := p.(activity := p.activity.(next := p.activity.next + 1));
    AdvancePotential(cfg, r, p, d);
    hide Potential, QueueVisitor, Config.Relax;
    if cfg.Emits(v.level, e) {
      QueuePotential(cfg, r, p1, Visitor(e.target, cfg.Relax(v.level, e), v.vertex), d);
    }
  }

  lemma {:induction false} ContinuePotential(cfg: Config, s: System, r: nat, d: nat)
    requires cfg.Valid() && Shape(cfg, s) && Enabled(cfg, s, Continue(r))
    ensures Potential(cfg, r, NextProcess(cfg, s, Continue(r)), d) + |NextNet(cfg, s, Continue(r))|
            < Potential(cfg, r, s.procs[r], d) + |s.net|
  {
    hide Potential, RelaxEdge;
    EdgePotential(cfg, r, s.procs[r], d);
  }

  lemma {:induction false} Scaled(b: nat, sent: nat, n: nat, w: nat)
    requires sent <= n
    ensures (b + sent) * w <= b * w + n * w
  {
  }

  lemma {:induction false} FinishPotential(cfg: Config, s: System, r: nat, d: nat)
    requires cfg.Valid() && Shape(cfg, s) && Enabled(cfg, s, Finish(r))
    ensures Potential(cfg, r, NextProcess(cfg, s, Finish(r)), d)
              + |NextBroadcasts(cfg, s, Finish(r))| * BroadcastWeight(d)
            < Potential(cfg, r, s.procs[r], d) + |s.bcasts| * BroadcastWeight(d)
  {
    var p := s.procs[r];
    assert ShapedRank(cfg, r, p);
    FinishWork(cfg, r, p, d);
    if p.activity.announce {
      var sent := Broadcast(cfg.g.ranks, r, p.activity.visitor);
      Scaled(|s.bcasts|, |sent|, cfg.g.ranks, BroadcastWeight(d));
    }
  }

  lemma {:induction false} FinishWork(cfg: Config, r: nat, p: Process, d: nat)
    requires cfg.Valid() && r < cfg.g.ranks && ShapedRank(cfg, r, p) && p.activity.Busy?
    ensures Potential(cfg, r, p.(activity := Idle), d)
              + (if p.activity.announce then cfg.g.ranks * BroadcastWeight(d) else 0) < Potential(cfg, r, p, d)
  {
  }

  lemma {:induction false} BroadcastPotential(cfg: Config, r: nat, p: Process, v: Visitor, d: nat)
    requires cfg.Valid() && r < cfg.g.ranks
    ensures Potential(cfg, r, p.(controllers := p.controllers + [v]), d) < Potential(cfg, r, p, d) + BroadcastWeight(d)
  {
    var q := p.(controllers := p.controllers + [v]);
    OneLess(|q.controllers|, |p.controllers|, ControllerWeight(d));
  }

  lemma {:induction false} EventPotential(cfg: Config, s: System, ev: Event, d: nat)
    requires cfg.Valid() && Shape(cfg, s) && Enabled(cfg, s, ev) && d == EdgeCount(cfg.g)
    ensures Potential(cfg, Actor(ev), NextProcess(cfg, s, ev), d)
              + |NextNet(cfg, s, ev)| + |NextBroadcasts(cfg, s, ev)| * BroadcastWeight(d)
            < Potential(cfg, Actor(ev), s.procs[Actor(ev)], d) + |s.net| + |s.bcasts| * BroadcastWeight(d)
  {
    hide Potential, BroadcastWeight, EdgeCount, BeginVisit, RelaxEdge, Accept, Broadcast;
    var p := s.procs[Actor(ev)];
    match ev {
      case Deliver(m) =>
        AcceptPotential(cfg, m.dest, p, m.visitor, d);
      case DeliverBroadcast(m) =>
        BroadcastPotential(cfg, m.dest, p, m.visitor, d);
        OneLess(|s.bcasts|, |s.bcasts - multiset{m}|, BroadcastWeight(d));
      case Continue(r) => ContinuePotential(cfg, s, r, d);
      case Finish(r) => FinishPotential(cfg, s, r, d);
      case _ => VisitPotential(cfg, s, ev, d);
    }
  }

  lemma {:induction false} PotentialsUpdate(cfg: Config, s: System, s': System, r: nat, p: Process, d: nat)
    requires cfg.Valid() && |s.procs| == cfg.g.ranks && r < cfg.g.ranks && s'.procs == s.procs[r := p]
    ensures Sum(Potentials(cfg, s', d)) ==
            Sum(Potentials(cfg, s, d)) - Potential(cfg, r, s.procs[r], d) + Potential(cfg, r, p, d)
  {
    var before := Potentials(cfg, s, d);
    SumUpdate(before, r, Potential(cfg, r, p, d));
    assert Potentials(cfg, s', d) == before[r := Potential(cfg, r, p, d)];
  }

  lemma {:induction false} StepDecreases(cfg: Config, s: System, ev: Event)
    requires cfg.Valid() && Shape(cfg, s) && Enabled(cfg, s, ev)
    ensures Measure(cfg, Next(cfg, s, ev)) < Measure(cfg, s)
  {
    var d := EdgeCount(cfg.g);
    EventPotential(cfg, s, ev, d);
    PotentialsUpdate(cfg, s, Next(cfg, s, ev), Actor(ev), NextProcess(cfg, s, ev), d);
  }

  /** No run is longer than the measure of its start: every run is finite. */
  lemma {:induction false} RunsEnd(cfg: Config, s: System, events: seq<Event>, s': System)
    requires cfg.Valid() && Shape(cfg, s) && Run(cfg, s, events, s')
    ensures |s'.procs| == cfg.g.ranks && |events| + Measure(cfg, s') <= Measure(cfg, s)
    decreases |events|
  {
    if events != [] {
      StepDecreases(cfg, s, events[0]);
      if |events| == 1 {
        assert events[1..] == [];
      } else {
        assert Shape(cfg, Next(cfg, s, events[0])) by {
          assert events[1..][0] == events[1];
        }
        RunsEnd(cfg, Next(cfg, s, events[0]), events[1..], s');
      }
    }
  }

  /** A run that cannot go on has come to rest, so every traversal ends in quiescence. */
  lemma {:induction false} StuckIsQuiescent(cfg: Config, s: System)
    requires cfg.Valid() && Shape(cfg, s)
    ensures Quiescent(s) <==> forall ev :: !Enabled(cfg, s, ev)
  {
    if Quiescent(s) {
      forall ev ensures !Enabled(cfg, s, ev) {
        assert Actor(ev) < cfg.g.ranks ==> IdleProcess(s.procs[Actor(ev)]);
      }
    } else if s.net != multiset{} {
      var m :| m in s.net;
      assert Enabled(cfg, s, Deliver(m));
    } else if s.bcasts != multiset{} {
      var m :| m in s.bcasts;
      assert Enabled(cfg, s, DeliverBroadcast(m));
    } else {
      var r :| 0 <= r < |s.procs| && !IdleProcess(s.procs[r]);
      BusyRankMoves(cfg, s, r);
    }
  }

  lemma {:induction false} BusyRankMoves(cfg: Config, s: System, r: nat)
    requires cfg.Valid() && Shape(cfg, s) && r < cfg.g.ranks && !IdleProcess(s.procs[r])
    ensures exists ev :: Enabled(cfg, s, ev)
  {
    var p := s.procs[r];
    assert ShapedRank(cfg, r, p);
    if p.activity.Busy? {
      assert Enabled(cfg, s, Continue(r)) || Enabled(cfg, s, Finish(r));
    } else if p.queue != multiset{} {
      var v :| v in p.queue;
      assert Enabled(cfg, s, Pop(r, v));
    } else if p.controllers != [] {
      assert Enabled(cfg, s, PopController(r));
    } else {
      var u :| u in p.toInit;
      assert Enabled(cfg, s, InitVisit(r, u));
    }
  }
}
