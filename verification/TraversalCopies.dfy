/**
 Copies of delegates in shortest paths. Visits there never write a label, so a copy that is not the
 master only hears of what its own rank relaxes; this module says exactly what such a copy ends with.
 */
module TraversalCopies {
  import opened Graphs
  import opened Traversal
  import opened TraversalInvariant
  import opened TraversalOrder
  import opened TraversalProgress
  import opened TraversalExactness
  import opened TraversalSteps

  /** Edge k of u on rank q leads to v and, from label x, offers it l. */
  predicate Along(cfg: Config, q: nat, v: nat, u: nat, k: nat, x: nat, l: nat) {
    && q < |cfg.g.edges| && u < |cfg.g.edges[q]| && k < |cfg.g.edges[q][u]|
    && cfg.g.edges[q][u][k].target == v && x < cfg.top && l == x + cfg.g.edges[q][u][k].weight
  }

  /** Rank 0 queues the source. */
  predicate AtStart(cfg: Config, q: nat, v: nat) {
    q == 0 && v == cfg.source
  }

  /** A label of v that rank q can know of by itself. */
  ghost predicate Told(cfg: Config, q: nat, v: nat, l: nat)
    requires cfg.Valid()
  {
    || l == cfg.top
    || (AtStart(cfg, q, v) && l == 0)
    || exists u: nat, k: nat, x: nat :: Along(cfg, q, v, u, k, x, l) && Witness(cfg, u, x)
  }

  ghost predicate CopiesTold(cfg: Config, q: nat, p: Process)
    requires cfg.Valid() && ShapedProcess(cfg, p)
  {
    && (forall v: nat | CopyOf(cfg, q, v) :: Told(cfg, q, v, p.level[v]))
    && (AtStart(cfg, q, cfg.source) ==> p.level[cfg.source] == 0 || cfg.source !in cfg.g.delegates)
  }

  ghost predicate AllTold(cfg: Config, s: System)
    requires cfg.Valid() && Shape(cfg, s)
  {
    forall q | 0 <= q < cfg.g.ranks :: CopiesTold(cfg, q, s.procs[q])
  }

  lemma {:induction false} QueueTold(cfg: Config, q: nat, p: Process, w: Visitor)
    requires cfg.Valid() && q < cfg.g.ranks && ShapedProcess(cfg, p) && CopiesTold(cfg, q, p)
    requires w.vertex < cfg.g.size && Told(cfg, q, w.vertex, w.level)
    ensures CopiesTold(cfg, q, QueueVisitor(cfg, q, p, w).0)
  {
    var p' := QueueVisitor(cfg, q, p, w).0;
    forall v: nat | CopyOf(cfg, q, v)
      ensures Told(cfg, q, v, p'.level[v])
    {
      assert p'.level[v] == p.level[v] || (v == w.vertex && p'.level[v] == w.level);
    }
  }

  lemma {:induction false} EdgeTold(cfg: Config, s: System, r: nat)
    requires cfg.Valid() && cfg.algorithm.Sssp? && Shape(cfg, s) && Sound(cfg, s) && Enabled(cfg, s, Continue(r))
    requires CopiesTold(cfg, r, s.procs[r])
    ensures CopiesTold(cfg, r, RelaxEdge(cfg, r, s.procs[r]).0)
  {
    hide Told, QueueVisitor, GoodVisitor;
    var p := s.procs[r];
    var v := p.activity.visitor;
    var e := cfg.g.edges[r][v.vertex][p.activity.next];
    assert Justified(cfg, p) && ShapedRank(cfg, r, p);
    TellsAlong(cfg, r, e.target, v, p.activity.next, cfg.Relax(v.level, e));
    QueueTold(cfg, r, p.(activity := p.activity.(next := p.activity.next + 1)),
              Visitor(e.target, cfg.Relax(v.level, e), v.vertex));
  }

  lemma {:induction false} TellsAlong(cfg: Config, q: nat, v: nat, u: Visitor, k: nat, l: nat)
    requires cfg.Valid() && GoodVisitor(cfg, u) && Along(cfg, q, v, u.vertex, k, u.level, l)
    ensures Told(cfg, q, v, l)
  {
  }

  lemma {:induction false} AcceptTold(cfg: Config, q: nat, p: Process, w: Visitor)
    requires cfg.Valid() && q < cfg.g.ranks && ShapedProcess(cfg, p) && CopiesTold(cfg, q, p)
    requires w.vertex < cfg.g.size && cfg.g.master[w.vertex] == q
    ensures CopiesTold(cfg, q, Accept(p, w))
  {
    hide Told;
  }

  lemma {:induction false} SameTold(cfg: Config, q: nat, p: Process, p': Process)
    requires cfg.Valid() && ShapedProcess(cfg, p) && CopiesTold(cfg, q, p) && p'.level == p.level
    requires p'.parent == p.parent
    ensures ShapedProcess(cfg, p') && CopiesTold(cfg, q, p')
  {
    hide Told;
  }

  lemma {:induction false} StepTold(cfg: Config, s: System, ev: Event)
    requires cfg.Valid() && cfg.algorithm.Sssp? && Shape(cfg, s) && Sound(cfg, s) && Enabled(cfg, s, ev)
    requires AllTold(cfg, s) && Shape(cfg, Next(cfg, s, ev))
    ensures AllTold(cfg, Next(cfg, s, ev))
  {
    hide Told, CopiesTold, RelaxEdge, Accept, Sound, Broadcast, NextNet, NextBroadcasts;
    var r := Actor(ev);
    assert CopiesTold(cfg, r, s.procs[r]);
    if ev.Deliver? {
      AcceptTold(cfg, r, s.procs[r], ev.m.visitor);
    } else if ev.Continue? {
      EdgeTold(cfg, s, r);
    } else {
      SameTold(cfg, r, s.procs[r], NextProcess(cfg, s, ev));
    }
  }

  lemma {:induction false} StartTold(cfg: Config)
    requires cfg.Valid() && cfg.algorithm.Sssp? && Shape(cfg, InitialSystem(cfg))
    ensures AllTold(cfg, InitialSystem(cfg))
  {
    hide QueueVisitor, InitialProcess, Told, CopiesTold;
    forall q | 0 <= q < cfg.g.ranks
      ensures CopiesTold(cfg, q, InitialSystem(cfg).procs[q])
    {
      if q == 0 {
        SourceTold(cfg);
      } else {
        BlankTold(cfg, q);
      }
    }
  }

  lemma {:induction false} BlankTold(cfg: Config, q: nat)
    requires cfg.Valid() && cfg.algorithm.Sssp? && 0 < q < cfg.g.ranks
    ensures CopiesTold(cfg, q, InitialProcess(cfg, q))
  {
  }

  lemma {:induction false} SourceTold(cfg: Config)
    requires cfg.Valid() && cfg.algorithm.Sssp?
    ensures CopiesTold(cfg, 0, QueueVisitor(cfg, 0, InitialProcess(cfg, 0), Visitor(cfg.source, 0, cfg.source)).0)
  {
    var p' := QueueVisitor(cfg, 0, InitialProcess(cfg, 0), Visitor(cfg.source, 0, cfg.source)).0;
    forall v: nat | CopyOf(cfg, 0, v)
      ensures Told(cfg, 0, v, p'.level[v])
    {
      assert p'.level[v] == cfg.top || v == cfg.source;
    }
  }

  lemma {:induction false} RunTold(cfg: Config, s: System, events: seq<Event>, s': System)
    requires cfg.Valid() && cfg.algorithm.Sssp? && Invariant(cfg, s) && AllTold(cfg, s) && Run(cfg, s, events, s')
    ensures Invariant(cfg, s') && AllTold(cfg, s')
    decreases |events|
  {
    hide AllTold, Sound, Ordered, Attentive, Shape, Next, Enabled;
    if events != [] {
      StepInvariant(cfg, s, events[0]);
      StepTold(cfg, s, events[0]);
      RunTold(cfg, Next(cfg, s, events[0]), events[1..], s');
    }
  }

  // --- At rest -----------------------------------------------------------------------------------

  /** Labels that the distances offer v on rank q: the starting value, the source's, one along a local arc. */
  ghost predicate Local(cfg: Config, dist: seq<nat>, q: nat, v: nat, l: nat) {
    || l == cfg.top
    || (AtStart(cfg, q, v) && l == 0)
    || LocalArc(cfg, dist, q, v, l)
  }

  ghost predicate LocalArc(cfg: Config, dist: seq<nat>, q: nat, v: nat, l: nat) {
    exists u: nat, k: nat :: u < |dist| && Along(cfg, q, v, u, k, dist[u], l)
  }

  ghost predicate AreDistances(cfg: Config, dist: seq<nat>)
    requires cfg.Valid()
  {
    |dist| == cfg.g.size && forall u | 0 <= u < cfg.g.size :: IsDistance(cfg, u, dist[u])
  }

  lemma {:induction false} DistanceUnique(cfg: Config, v: nat, l: nat, l': nat)
    requires cfg.Valid() && IsDistance(cfg, v, l) && IsDistance(cfg, v, l')
    ensures l == l'
  {
    if l < cfg.top {
      var p: seq<Arc> :| Walk(cfg.g, cfg.source, p, v) && Length(p) == l;
    }
    if l' < cfg.top {
      var p: seq<Arc> :| Walk(cfg.g, cfg.source, p, v) && Length(p) == l';
    }
  }

  lemma {:induction false} DistancesAreFinal(cfg: Config, events: seq<Event>, s: System, dist: seq<nat>)
    requires cfg.Valid() && cfg.algorithm.Sssp? && AreDistances(cfg, dist)
    requires Run(cfg, InitialSystem(cfg), events, s) && Quiescent(s)
    ensures Sized(cfg, s) && Final(cfg, s) == dist
  {
    hide Run, Quiescent, IsDistance;
    RunSettled(cfg, events, s);
    forall v | 0 <= v < cfg.g.size
      ensures Final(cfg, s)[v] == dist[v]
    {
      SettledIsDistance(cfg, Final(cfg, s), v);
      DistanceUnique(cfg, v, Final(cfg, s)[v], dist[v]);
    }
  }

  /** At rest a copy is at most what any local arc offers. */
  lemma {:induction false} CopyAtMost(cfg: Config, s: System, q: nat, v: nat, u: nat, k: nat, l: nat)
    requires cfg.Valid() && Invariant(cfg, s) && Quiescent(s) && cfg.algorithm.Sssp? && CopyOf(cfg, q, v)
    requires u < cfg.g.size
    requires Along(cfg, q, v, u, k, Master(cfg, s, u), l)
    ensures s.procs[q].level[v] <= l
  {
    hide Sound, Ordered, Current, Covered, Sized;
    assert cfg.g.Hosts(q, u) && Progress(cfg, s, q, u);
    assert IdleProcess(s.procs[q]) && IdleProcess(s.procs[cfg.g.master[u]]);
    assert EdgesCovered(cfg, s, q, u, Master(cfg, s, u), |cfg.g.edges[q][u]|);
    assert Offered(cfg, s, q, cfg.g.edges[q][u][k].target, cfg.Relax(Master(cfg, s, u), cfg.g.edges[q][u][k]));
  }

  /** Some local offer is no more than a label the rank was told. */
  lemma {:induction false} ToldAtLeast(cfg: Config, dist: seq<nat>, q: nat, v: nat, l: nat) returns (offer: nat)
    requires cfg.Valid() && cfg.algorithm.Sssp? && AreDistances(cfg, dist) && Told(cfg, q, v, l)
    ensures Local(cfg, dist, q, v, offer) && offer <= l
  {
    offer := l;
    if l != cfg.top && !(AtStart(cfg, q, v) && l == 0) {
      var u: nat, k: nat, x: nat :| Along(cfg, q, v, u, k, x, l) && Witness(cfg, u, x);
      var s0: nat, p: seq<Arc> :| Derives(cfg, s0, p, u, x);
      assert IsDistance(cfg, u, dist[u]) && dist[u] <= x;
      offer := l - x + dist[u];
      assert Along(cfg, q, v, u, k, dist[u], offer);
    }
  }

  /** Every copy ends with the least label its own rank can know of. */
  lemma {:induction false} SsspCopies(cfg: Config, events: seq<Event>, s: System, dist: seq<nat>, q: nat, v: nat)
    requires cfg.Valid() && cfg.algorithm.Sssp? && AreDistances(cfg, dist)
    requires Run(cfg, InitialSystem(cfg), events, s) && Quiescent(s) && CopyOf(cfg, q, v)
    ensures Sized(cfg, s) && Local(cfg, dist, q, v, s.procs[q].level[v])
    ensures forall l: nat | Local(cfg, dist, q, v, l) :: s.procs[q].level[v] <= l
  {
    hide Run, IsDistance, Told, Sound, Ordered, Attentive, Quiescent, Along;
    InitialInvariant(cfg);
    StartTold(cfg);
    RunTold(cfg, InitialSystem(cfg), events, s);
    DistancesAreFinal(cfg, events, s, dist);
    CopyBounds(cfg, s, q, v);
    var offer := ToldAtLeast(cfg, dist, q, v, s.procs[q].level[v]);
    forall l: nat | Local(cfg, dist, q, v, l)
      ensures s.procs[q].level[v] <= l
    {
      if LocalArc(cfg, dist, q, v, l) {
        var u: nat, k: nat :| u < |dist| && Along(cfg, q, v, u, k, dist[u], l);
        assert Master(cfg, s, u) == Final(cfg, s)[u];
        CopyAtMost(cfg, s, q, v, u, k, l);
      }
    }
  }

  lemma {:induction false} CopyBounds(cfg: Config, s: System, q: nat, v: nat)
    requires cfg.Valid() && Invariant(cfg, s) && AllTold(cfg, s) && CopyOf(cfg, q, v)
    ensures s.procs[q].level[v] <= cfg.top && Told(cfg, q, v, s.procs[q].level[v])
    ensures AtStart(cfg, q, v) ==> s.procs[q].level[v] == 0
  {
    hide Told, Ordered, Attentive;
    assert Justified(cfg, s.procs[q]) && CopiesTold(cfg, q, s.procs[q]);
    assert JustifiedLevel(cfg, v, s.procs[q].level[v]);
  }

  /**
   When a copy ends equal to its master: v is not reached below the starting value, or rank q queued it
   as the source, or a shortest walk to v enters it by an arc stored on q.
   */
  lemma {:induction false} SsspCopyAgreesIff(cfg: Config, events: seq<Event>, s: System, dist: seq<nat>, q: nat, v: nat)
    requires cfg.Valid() && cfg.algorithm.Sssp? && AreDistances(cfg, dist)
    requires Run(cfg, InitialSystem(cfg), events, s) && Quiescent(s) && CopyOf(cfg, q, v)
    ensures Sized(cfg, s) && s.procs[q].level[v] >= Master(cfg, s, v)
    ensures s.procs[q].level[v] == Master(cfg, s, v) <==>
              dist[v] == cfg.top || AtStart(cfg, q, v) || LocalArc(cfg, dist, q, v, dist[v])
  {
    hide Run, Told, Sound, Ordered, Attentive, Quiescent, Along;
    SsspCopies(cfg, events, s, dist, q, v);
    DistancesAreFinal(cfg, events, s, dist);
    assert Master(cfg, s, v) == Final(cfg, s)[v];
    assert IsDistance(cfg, v, dist[v]);
    var l := s.procs[q].level[v];
    OfferAtLeast(cfg, dist, q, v, l);
    assert Local(cfg, dist, q, v, cfg.top);
    assert LocalArc(cfg, dist, q, v, dist[v]) ==> Local(cfg, dist, q, v, dist[v]);
    if AtStart(cfg, q, v) {
      assert Walk(cfg.g, cfg.source, [], v) && Length([]) == 0;
      assert Local(cfg, dist, q, v, 0);
    }
  }

  /** No local offer is below the distance. */
  lemma {:induction false} OfferAtLeast(cfg: Config, dist: seq<nat>, q: nat, v: nat, l: nat)
    requires cfg.Valid() && cfg.algorithm.Sssp? && AreDistances(cfg, dist) && v < cfg.g.size
    requires q < cfg.g.ranks && Local(cfg, dist, q, v, l)
    ensures l >= dist[v]
  {
    assert IsDistance(cfg, v, dist[v]);
    if l != cfg.top {
      if AtStart(cfg, q, v) && l == 0 {
        assert Walk(cfg.g, cfg.source, [], v) && Length([]) == 0;
      } else {
        var u: nat, k: nat :| u < |dist| && Along(cfg, q, v, u, k, dist[u], l);
        assert IsDistance(cfg, u, dist[u]);
        var p: seq<Arc> :| Walk(cfg.g, cfg.source, p, u) && Length(p) == dist[u];
        var a := Arc(u, v, cfg.g.edges[q][u][k].weight);
        assert cfg.g.ArcAt(a, q, k);
        WalkExtend(cfg.g, cfg.source, p, a);
      }
    }
  }

  // --- A run that leaves a copy behind --------------------------------------------------------------

  /** Vertex 0, on rank 0, has one arc to the delegate 1, whose master is rank 0 as well. */
  const STALE: Config := Config(Graph(2, 2, {1}, [0, 0], [[[Edge(1, 1)], []], [[], []]]), Sssp, 0, 100)

  const V: Visitor := Visitor(0, 0, 0)

  const W: Visitor := Visitor(1, 1, 0)

  ghost function Stage(level: seq<nat>, queue: multiset<Visitor>, a: Activity, bcasts: multiset<Message>,
                       controllers: seq<Visitor>, b: Activity): System {
    System([Process(level, [0, 0], queue, [], a, {}), Process([100, 100], [0, 0], multiset{}, controllers, b, {})],
           multiset{}, bcasts)
  }

  /** Rank 0 visits the source and then the delegate, announces it, and the visit on rank 1 writes nothing. */
  ghost function StaleStages(): seq<System> {
    [Stage([0, 100], multiset{V}, Idle, multiset{}, [], Idle),
     Stage([0, 100], multiset{}, Busy(V, 0, false), multiset{}, [], Idle),
     Stage([0, 1], multiset{W}, Busy(V, 1, false), multiset{}, [], Idle),
     Stage([0, 1], multiset{W}, Idle, multiset{}, [], Idle),
     Stage([0, 1], multiset{}, Busy(W, 0, true), multiset{}, [], Idle),
     Stage([0, 1], multiset{}, Idle, multiset{Message(1, W)}, [], Idle),
     Stage([0, 1], multiset{}, Idle, multiset{}, [W], Idle),
     Stage([0, 1], multiset{}, Idle, multiset{}, [], Busy(W, 0, false)),
     Stage([0, 1], multiset{}, Idle, multiset{}, [], Idle)]
  }

  const STALE_EVENTS: seq<Event> :=
    [Pop(0, V), Continue(0), Finish(0), Pop(0, W), Finish(0),
     DeliverBroadcast(Message(1, W)), PopController(1), Finish(1)]

  ghost predicate StaleLeads(i: nat)
    requires STALE.Valid() && i < 8
  {
    Leads(STALE, StaleStages()[i], STALE_EVENTS[i], StaleStages()[i + 1])
  }

  lemma {:induction false} StaleStart()
    ensures STALE.Valid() && InitialSystem(STALE) == StaleStages()[0]
  {
    var p := InitialProcess(STALE, 0);
    assert p.level == [100, 100] && p.parent == [0, 0];
    var s := InitialSystem(STALE);
    assert |s.procs| == 2 && s.procs[1] == InitialProcess(STALE, 1) == p;
    assert s.procs[0].level == [0, 100] && s.procs[0].queue == multiset{V};
    assert s.procs == [s.procs[0], s.procs[1]];
  }

  lemma {:induction false} SourceTaken()
    requires STALE.Valid() && Invariant(STALE, StaleStages()[0])
    ensures StaleLeads(0)
  {
    hide Invariant, Takes;
    var s, s' := StaleStages()[0], StaleStages()[1];
    PopLeads(STALE, s, 0, V, s'.procs[0]);
    assert Put(s, 0, s'.procs[0], s.net, s.bcasts) == s';
  }

  lemma {:induction false} DelegateQueued()
    requires STALE.Valid() && Invariant(STALE, StaleStages()[1])
    ensures StaleLeads(1)
  {
    hide Invariant, Takes;
    var s, s' := StaleStages()[1], StaleStages()[2];
    assert s'.procs[0].level == s.procs[0].level[1 := 1] && s'.procs[0].queue == s.procs[0].queue + multiset{W};
    ContinueLeads(STALE, s, 0, V, 0, false, s'.procs[0], multiset{});
    assert Put(s, 0, s'.procs[0], s.net + multiset{}, s.bcasts) == s';
  }

  lemma {:induction false} VisitEnds(i: nat, r: nat, v: Visitor, k: nat)
    requires (i == 2 && r == 0 && v == V && k == 1) || (i == 7 && r == 1 && v == W && k == 0)
    requires STALE.Valid() && Invariant(STALE, StaleStages()[i])
    ensures StaleLeads(i)
  {
    hide Invariant, Takes;
    var s, s' := StaleStages()[i], StaleStages()[i + 1];
    FinishLeads(STALE, s, r, v, k, false, multiset{});
    assert Put(s, r, s'.procs[r], s.net, s.bcasts + multiset{}) == s';
  }

  lemma {:induction false} DelegateTaken()
    requires STALE.Valid() && Invariant(STALE, StaleStages()[3])
    ensures StaleLeads(3)
  {
    hide Invariant, Takes;
    var s, s' := StaleStages()[3], StaleStages()[4];
    PopLeads(STALE, s, 0, W, s'.procs[0]);
    assert Put(s, 0, s'.procs[0], s.net, s.bcasts) == s';
  }

  lemma {:induction false} DelegateAnnounced()
    requires STALE.Valid() && Invariant(STALE, StaleStages()[4])
    ensures StaleLeads(4)
  {
    hide Invariant, Takes;
    var s, s' := StaleStages()[4], StaleStages()[5];
    assert Broadcast(2, 0, W) == Broadcast(1, 0, W) + multiset{Message(1, W)} == multiset{Message(1, W)};
    FinishLeads(STALE, s, 0, W, 0, true, multiset{Message(1, W)});
    assert Put(s, 0, s'.procs[0], s.net, s.bcasts + multiset{Message(1, W)}) == s';
  }

  lemma {:induction false} AnnouncementArrives()
    requires STALE.Valid() && Invariant(STALE, StaleStages()[5])
    ensures StaleLeads(5)
  {
    hide Invariant, Takes;
    var s, s' := StaleStages()[5], StaleStages()[6];
    assert s'.procs[1].controllers == s.procs[1].controllers + [W];
    DeliverBroadcastLeads(STALE, s, Message(1, W));
    assert Put(s, 1, s'.procs[1], s.net, s.bcasts - multiset{Message(1, W)}) == s';
  }

  lemma {:induction false} CopyVisited()
    requires STALE.Valid() && Invariant(STALE, StaleStages()[6])
    ensures StaleLeads(6)
  {
    hide Invariant, Takes;
    var s, s' := StaleStages()[6], StaleStages()[7];
    PopControllerLeads(STALE, s, 1, s'.procs[1]);
    assert Put(s, 1, s'.procs[1], s.net, s.bcasts) == s';
  }

  lemma {:induction false} StaleReachable(i: nat)
    requires STALE.Valid() && Invariant(STALE, StaleStages()[0]) && i <= 8
    ensures Invariant(STALE, StaleStages()[i]) && (i < 8 ==> StaleLeads(i))
  {
    hide Invariant, Takes, StaleStages, STALE, STALE_EVENTS;
    if i > 0 {
      StaleReachable(i - 1);
    }
    match i {
      case 0 => SourceTaken();
      case 1 => DelegateQueued();
      case 2 => VisitEnds(2, 0, V, 1);
      case 3 => DelegateTaken();
      case 4 => DelegateAnnounced();
      case 5 => AnnouncementArrives();
      case 6 => CopyVisited();
      case 7 => VisitEnds(7, 1, W, 0);
      case _ =>
    }
  }

  /** A run that has come to rest with the copy on rank 1 at the starting value, above its master. */
  lemma {:induction false} StaleCopy() returns (s: System)
    ensures STALE.Valid() && STALE.algorithm.Sssp? && CopyOf(STALE, 1, 1)
    ensures Run(STALE, InitialSystem(STALE), STALE_EVENTS, s) && Quiescent(s)
    ensures Sized(STALE, s) && Master(STALE, s, 1) < s.procs[1].level[1] == STALE.top
  {
    hide Invariant, Run, Leads;
    StaleStart();
    InitialInvariant(STALE);
    forall i | 0 <= i < 8
      ensures Leads(STALE, StaleStages()[i], STALE_EVENTS[i], StaleStages()[i + 1])
    {
      StaleReachable(i);
    }
    ChainRuns(STALE, StaleStages(), STALE_EVENTS, 0);
    assert STALE_EVENTS[0..] == STALE_EVENTS;
    s := StaleStages()[8];
  }
}
