/**
 The inner loop of a traversal tests both queues, visits the controllers, and then takes up a visitor
 without testing again. This module says when there is one.
 */
module TraversalPops {
  import opened Graphs
  import opened Traversal
  import opened TraversalInvariant
  import opened TraversalOrder
  import opened TraversalProgress
  import opened TraversalSchedule

  // --- A drain that nothing disturbs -------------------------------------------------------------------

  /** The activity refers to existing edges of this rank. */
  ghost predicate Relaxable(cfg: Config, r: nat, p: Process)
    requires cfg.Valid() && r < cfg.g.ranks
  {
    && ShapedProcess(cfg, p) && p.activity.Busy?
    && p.activity.visitor.vertex < cfg.g.size
    && p.activity.next <= |cfg.g.edges[r][p.activity.visitor.vertex]|
  }

  /** The rest of the loop over edges, when nothing arrives in between. */
  ghost function RelaxAll(cfg: Config, r: nat, p: Process): (p': Process)
    requires cfg.Valid() && r < cfg.g.ranks && Relaxable(cfg, r, p)
    ensures ShapedProcess(cfg, p') && p'.controllers == p.controllers
    ensures p'.activity == p.activity.(next := |cfg.g.edges[r][p.activity.visitor.vertex]|)
    decreases |cfg.g.edges[r][p.activity.visitor.vertex]| - p.activity.next
  {
    if p.activity.next == |cfg.g.edges[r][p.activity.visitor.vertex]| then p
    else RelaxAll(cfg, r, RelaxEdge(cfg, r, p).0)
  }

  /** A whole visit. */
  ghost function Visited(cfg: Config, r: nat, p: Process, v: Visitor): (p': Process)
    requires cfg.Valid() && r < cfg.g.ranks && ShapedProcess(cfg, p) && p.activity.Idle? && v.vertex < cfg.g.size
    ensures ShapedProcess(cfg, p') && p'.activity.Idle? && p'.controllers == p.controllers
  {
    var p1 := BeginVisit(cfg, r, p, v);
    if p1.activity.Idle? then p1 else RelaxAll(cfg, r, p1).(activity := Idle)
  }

  /** Visiting every queued controller in turn. */
  ghost function ControllersVisited(cfg: Config, r: nat, p: Process): (p': Process)
    requires cfg.Valid() && r < cfg.g.ranks && ShapedProcess(cfg, p) && p.activity.Idle?
    requires forall v | v in p.controllers :: CopyOf(cfg, r, v.vertex)
    ensures ShapedProcess(cfg, p') && p'.activity.Idle? && p'.controllers == []
    decreases |p.controllers|
  {
    if p.controllers == [] then p
    else
      assert p.controllers[0] in p.controllers && CopyOf(cfg, r, p.controllers[0].vertex);
      ControllersVisited(cfg, r, Visited(cfg, r, p.(controllers := p.controllers[1..]), p.controllers[0]))
  }

  // --- What a drain does to labels, told from the labels before it -----------------------------------

  /** Along its k-th edge on rank r, a visit of u takes w below l. */
  predicate EdgeLowers(cfg: Config, r: nat, u: Visitor, k: nat, w: nat, l: nat) {
    && r < |cfg.g.edges| && u.vertex < |cfg.g.edges[r]| && k < |cfg.g.edges[r][u.vertex]|
    && var e := cfg.g.edges[r][u.vertex][k];
       && e.target == w
       && match cfg.algorithm
          case Bfs => (u.level + 1) % (MAX_LEVEL + 1) < l
          case Sssp => u.level + e.weight < l
          case Cc => u.level < w && u.level < l
  }

  /** So does the whole visit, by writing its own label or along some edge. */
  ghost predicate Lowers(cfg: Config, r: nat, u: Visitor, w: nat, l: nat) {
    || (!cfg.algorithm.Sssp? && u.vertex == w && u.level < l)
    || exists k: nat :: EdgeLowers(cfg, r, u, k, w, l)
  }

  /** The i-th controller will be visited: its label holds now, and no earlier visit lowers its vertex below it. */
  ghost predicate Entered(cfg: Config, r: nat, level: seq<nat>, cs: seq<Visitor>, i: nat)
    requires i < |cs| && forall j | 0 <= j < |cs| :: cs[j].vertex < |level|
    decreases i
  {
    && cs[i].level <= level[cs[i].vertex]
    && forall j | 0 <= j < i && Entered(cfg, r, level, cs, j) :: !Lowers(cfg, r, cs[j], cs[i].vertex, cs[i].level)
  }

  lemma {:induction false} EdgeVisited(cfg: Config, r: nat, p: Process, w: nat, l: nat)
    requires cfg.Valid() && r < cfg.g.ranks && Relaxable(cfg, r, p) && w < cfg.g.size && cfg.g.Hosts(r, w)
    requires p.activity.next < |cfg.g.edges[r][p.activity.visitor.vertex]|
    ensures var p' := RelaxEdge(cfg, r, p).0;
            && Relaxable(cfg, r, p')
            && (p'.level[w] < l <==>
                  p.level[w] < l || EdgeLowers(cfg, r, p.activity.visitor, p.activity.next, w, l))
  {
  }

  lemma {:induction false} EdgesVisited(cfg: Config, r: nat, p: Process, w: nat, l: nat)
    requires cfg.Valid() && r < cfg.g.ranks && Relaxable(cfg, r, p) && w < cfg.g.size && cfg.g.Hosts(r, w)
    ensures RelaxAll(cfg, r, p).level[w] < l <==>
              p.level[w] < l || exists k: nat :: p.activity.next <= k && EdgeLowers(cfg, r, p.activity.visitor, k, w, l)
    decreases |cfg.g.edges[r][p.activity.visitor.vertex]| - p.activity.next
  {
    hide RelaxEdge, Config.Relax, Config.Emits;
    if p.activity.next < |cfg.g.edges[r][p.activity.visitor.vertex]| {
      EdgeVisited(cfg, r, p, w, l);
      EdgesVisited(cfg, r, RelaxEdge(cfg, r, p).0, w, l);
    }
  }

  lemma {:induction false} VisitLowers(cfg: Config, r: nat, p: Process, v: Visitor, w: nat, l: nat)
    requires cfg.Valid() && r < cfg.g.ranks && ShapedProcess(cfg, p) && p.activity.Idle?
    requires v.vertex < cfg.g.size && w < cfg.g.size && cfg.g.Hosts(r, w)
    ensures Visited(cfg, r, p, v).level[w] < l <==>
              p.level[w] < l || (v.level <= p.level[v.vertex] && Lowers(cfg, r, v, w, l))
  {
    hide RelaxAll, EdgeLowers;
    var p1 := BeginVisit(cfg, r, p, v);
    if p1.activity.Busy? {
      EdgesVisited(cfg, r, p1, w, l);
    }
  }

  ghost predicate AllCopies(cfg: Config, r: nat, p: Process) {
    && ShapedProcess(cfg, p) && p.activity.Idle?
    && forall i | 0 <= i < |p.controllers| :: CopyOf(cfg, r, p.controllers[i].vertex)
  }

  /** The process after its first controller has been visited. */
  ghost function FirstVisited(cfg: Config, r: nat, p: Process): (p': Process)
    requires cfg.Valid() && r < cfg.g.ranks && AllCopies(cfg, r, p) && p.controllers != []
    ensures AllCopies(cfg, r, p') && p'.controllers == p.controllers[1..]
  {
    assert forall i | 0 <= i < |p.controllers[1..]| :: p.controllers[1..][i] == p.controllers[i + 1];
    Visited(cfg, r, p.(controllers := p.controllers[1..]), p.controllers[0])
  }

  lemma {:induction false} DrainOnce(cfg: Config, r: nat, p: Process)
    requires cfg.Valid() && r < cfg.g.ranks && AllCopies(cfg, r, p)
    ensures forall v | v in p.controllers :: CopyOf(cfg, r, v.vertex)
    ensures p.controllers == [] ==> ControllersVisited(cfg, r, p) == p
    ensures p.controllers != [] ==>
              (forall v | v in FirstVisited(cfg, r, p).controllers :: CopyOf(cfg, r, v.vertex))
              && ControllersVisited(cfg, r, p) == ControllersVisited(cfg, r, FirstVisited(cfg, r, p))
  {
    hide Visited, CopyOf;
  }

  /** Whether a later controller will be visited can be told before or after the first one. */
  lemma {:induction false} EnteredLater(cfg: Config, r: nat, p: Process, i: nat)
    requires cfg.Valid() && r < cfg.g.ranks && AllCopies(cfg, r, p) && i + 1 < |p.controllers|
    ensures var p' := FirstVisited(cfg, r, p);
            Entered(cfg, r, p.level, p.controllers, i + 1) <==> Entered(cfg, r, p'.level, p'.controllers, i)
    decreases i
  {
    hide Lowers, Visited;
    var p', cs := FirstVisited(cfg, r, p), p.controllers;
    var c := cs[i + 1];
    assert CopyOf(cfg, r, c.vertex) && CopyOf(cfg, r, cs[0].vertex);
    VisitLowers(cfg, r, p.(controllers := cs[1..]), cs[0], c.vertex, c.level);
    assert Entered(cfg, r, p.level, cs, 0) <==> cs[0].level <= p.level[cs[0].vertex];
    forall j | 0 <= j < i
      ensures Entered(cfg, r, p.level, cs, j + 1) <==> Entered(cfg, r, p'.level, cs[1..], j)
    {
      EnteredLater(cfg, r, p, j);
    }
    if Entered(cfg, r, p'.level, cs[1..], i) {
      forall j | 0 <= j < i + 1 && Entered(cfg, r, p.level, cs, j)
        ensures !Lowers(cfg, r, cs[j], c.vertex, c.level)
      {
        if j > 0 {
          assert Entered(cfg, r, p'.level, cs[1..], j - 1) && cs[1..][j - 1] == cs[j];
        }
      }
    }
    if Entered(cfg, r, p.level, cs, i + 1) {
      forall j | 0 <= j < i && Entered(cfg, r, p'.level, cs[1..], j)
        ensures !Lowers(cfg, r, cs[1..][j], c.vertex, c.level)
      {
        assert Entered(cfg, r, p.level, cs, j + 1) && cs[1..][j] == cs[j + 1];
      }
    }
  }

  /** Draining takes w below l iff it was there already or a controller that will be visited takes it there. */
  lemma {:induction false} DrainLowers(cfg: Config, r: nat, p: Process, w: nat, l: nat)
    requires cfg.Valid() && r < cfg.g.ranks && AllCopies(cfg, r, p) && w < cfg.g.size && cfg.g.Hosts(r, w)
    requires forall v | v in p.controllers :: CopyOf(cfg, r, v.vertex)
    ensures ControllersVisited(cfg, r, p).level[w] < l <==>
              p.level[w] < l || exists i | 0 <= i < |p.controllers| ::
                Entered(cfg, r, p.level, p.controllers, i) && Lowers(cfg, r, p.controllers[i], w, l)
    decreases |p.controllers|
  {
    hide Lowers, Visited, ControllersVisited;
    DrainOnce(cfg, r, p);
    var cs := p.controllers;
    if cs != [] {
      var p' := FirstVisited(cfg, r, p);
      DrainLowers(cfg, r, p', w, l);
      FirstLowers(cfg, r, p, w, l);
      if i :| 0 <= i < |p'.controllers| && Entered(cfg, r, p'.level, p'.controllers, i) && Lowers(cfg, r, p'.controllers[i], w, l) {
        EnteredLater(cfg, r, p, i);
        assert Entered(cfg, r, p.level, cs, i + 1) && Lowers(cfg, r, cs[i + 1], w, l);
      }
      if i :| 0 <= i < |cs| && Entered(cfg, r, p.level, cs, i) && Lowers(cfg, r, cs[i], w, l) {
        if i > 0 {
          EnteredLater(cfg, r, p, i - 1);
          assert Entered(cfg, r, p'.level, p'.controllers, i - 1) && Lowers(cfg, r, p'.controllers[i - 1], w, l);
        }
      }
    }
  }

  lemma {:induction false} FirstLowers(cfg: Config, r: nat, p: Process, w: nat, l: nat)
    requires cfg.Valid() && r < cfg.g.ranks && AllCopies(cfg, r, p) && p.controllers != []
    requires w < cfg.g.size && cfg.g.Hosts(r, w)
    ensures FirstVisited(cfg, r, p).level[w] < l <==>
              p.level[w] < l || (Entered(cfg, r, p.level, p.controllers, 0) && Lowers(cfg, r, p.controllers[0], w, l))
  {
    hide Lowers, Visited;
    assert CopyOf(cfg, r, p.controllers[0].vertex);
    VisitLowers(cfg, r, p.(controllers := p.controllers[1..]), p.controllers[0], w, l);
  }

  // --- What lands in the visitor queue ----------------------------------------------------------------

  /** A label this rank is the master of has fallen. */
  ghost predicate OwnFell(cfg: Config, r: nat, p: Process, p': Process) {
    exists w: nat :: w < |cfg.g.master| && w < |p.level| && w < |p'.level| && cfg.g.master[w] == r && p'.level[w] < p.level[w]
  }

  /** Labels only fall, and the queue is filled exactly when one of this rank's own labels falls. */
  ghost predicate Noticed(cfg: Config, r: nat, p: Process, p': Process) {
    && ShapedProcess(cfg, p) && ShapedProcess(cfg, p') && Lowered(p, p')
    && (p'.queue != multiset{} <==> p.queue != multiset{} || OwnFell(cfg, r, p, p'))
  }

  lemma {:induction false} NoticedTwice(cfg: Config, r: nat, p: Process, p1: Process, p2: Process)
    requires Noticed(cfg, r, p, p1) && Noticed(cfg, r, p1, p2)
    ensures Noticed(cfg, r, p, p2)
  {
  }

  lemma {:induction false} AcceptNoticed(cfg: Config, r: nat, p: Process, v: Visitor)
    requires ShapedProcess(cfg, p) && v.vertex < |cfg.g.master| && cfg.g.master[v.vertex] == r
    ensures Noticed(cfg, r, p, Accept(p, v))
  {
    if PreVisit(p, v) {
      assert v in Accept(p, v).queue && Accept(p, v).level[v.vertex] < p.level[v.vertex];
    }
  }

  lemma {:induction false} ForwardNoticed(cfg: Config, r: nat, p: Process, v: Visitor)
    requires ShapedProcess(cfg, p) && v.vertex < |cfg.g.master| && cfg.g.master[v.vertex] != r
    ensures Noticed(cfg, r, p, Forward(p, v)) && Noticed(cfg, r, p, p)
  {
  }

  lemma {:induction false} EdgeNoticed(cfg: Config, r: nat, p: Process)
    requires cfg.Valid() && r < cfg.g.ranks && Relaxable(cfg, r, p)
    requires p.activity.next < |cfg.g.edges[r][p.activity.visitor.vertex]|
    ensures Noticed(cfg, r, p, RelaxEdge(cfg, r, p).0)
  {
    hide Noticed, Accept, Forward, PreVisit;
    var v := p.activity.visitor;
    var e := cfg.g.edges[r][v.vertex][p.activity.next];
    var p' := p.(activity := p.activity.(next := p.activity.next + 1));
    var u := Visitor(e.target, cfg.Relax(v.level, e), v.vertex);
    SameNoticed(cfg, r, p, p');
    if cfg.g.master[e.target] == r {
      AcceptNoticed(cfg, r, p', u);
      NoticedTwice(cfg, r, p, p', Accept(p', u));
    } else {
      ForwardNoticed(cfg, r, p', u);
      NoticedTwice(cfg, r, p, p', Forward(p', u));
    }
  }

  lemma {:induction false} SameNoticed(cfg: Config, r: nat, p: Process, p': Process)
    requires ShapedProcess(cfg, p) && p'.level == p.level && p'.parent == p.parent && p'.queue == p.queue
    ensures Noticed(cfg, r, p, p')
  {
  }

  /** A controller's visit writes at most its own label, which is not this rank's. */
  lemma {:induction false} BeginNoticed(cfg: Config, r: nat, p: Process, v: Visitor)
    requires ShapedProcess(cfg, p) && CopyOf(cfg, r, v.vertex)
    ensures Noticed(cfg, r, p, BeginVisit(cfg, r, p, v))
  {
  }

  lemma {:induction false} EdgeRelaxable(cfg: Config, r: nat, p: Process)
    requires cfg.Valid() && r < cfg.g.ranks && Relaxable(cfg, r, p)
    requires p.activity.next < |cfg.g.edges[r][p.activity.visitor.vertex]|
    ensures Relaxable(cfg, r, RelaxEdge(cfg, r, p).0)
  {
  }

  lemma {:induction false} EdgesNoticed(cfg: Config, r: nat, p: Process)
    requires cfg.Valid() && r < cfg.g.ranks && Relaxable(cfg, r, p)
    ensures Noticed(cfg, r, p, RelaxAll(cfg, r, p))
    decreases |cfg.g.edges[r][p.activity.visitor.vertex]| - p.activity.next
  {
    hide Noticed, RelaxEdge;
    if p.activity.next < |cfg.g.edges[r][p.activity.visitor.vertex]| {
      var p' := RelaxEdge(cfg, r, p).0;
      EdgeNoticed(cfg, r, p);
      EdgeRelaxable(cfg, r, p);
      EdgesNoticed(cfg, r, p');
      NoticedTwice(cfg, r, p, p', RelaxAll(cfg, r, p'));
    } else {
      SameNoticed(cfg, r, p, p);
    }
  }

  lemma {:induction false} FirstNoticed(cfg: Config, r: nat, p: Process)
    requires cfg.Valid() && r < cfg.g.ranks && AllCopies(cfg, r, p) && p.controllers != []
    ensures Noticed(cfg, r, p, FirstVisited(cfg, r, p))
  {
    hide Noticed, RelaxAll;
    var p0, v := p.(controllers := p.controllers[1..]), p.controllers[0];
    var p1 := BeginVisit(cfg, r, p0, v);
    assert CopyOf(cfg, r, v.vertex);
    SameNoticed(cfg, r, p, p0);
    BeginNoticed(cfg, r, p0, v);
    NoticedTwice(cfg, r, p, p0, p1);
    if p1.activity.Busy? {
      var p2 := RelaxAll(cfg, r, p1);
      EdgesNoticed(cfg, r, p1);
      NoticedTwice(cfg, r, p, p1, p2);
      SameNoticed(cfg, r, p2, p2.(activity := Idle));
      NoticedTwice(cfg, r, p, p2, p2.(activity := Idle));
    }
  }

  lemma {:induction false} DrainNoticed(cfg: Config, r: nat, p: Process)
    requires cfg.Valid() && r < cfg.g.ranks && AllCopies(cfg, r, p)
    requires forall v | v in p.controllers :: CopyOf(cfg, r, v.vertex)
    ensures Noticed(cfg, r, p, ControllersVisited(cfg, r, p))
    decreases |p.controllers|
  {
    hide Noticed, ControllersVisited, Visited;
    DrainOnce(cfg, r, p);
    if p.controllers == [] {
      SameNoticed(cfg, r, p, p);
    } else {
      var p' := FirstVisited(cfg, r, p);
      FirstNoticed(cfg, r, p);
      DrainNoticed(cfg, r, p');
      NoticedTwice(cfg, r, p, p', ControllersVisited(cfg, r, p'));
    }
  }

  /** Controller i will be visited, and its edge k takes a label this rank is the master of below its value now. */
  ghost predicate WillQueue(cfg: Config, r: nat, p: Process, i: nat, k: nat)
    requires i < |p.controllers| && forall j | 0 <= j < |p.controllers| :: p.controllers[j].vertex < |p.level|
  {
    && Entered(cfg, r, p.level, p.controllers, i)
    && exists w: nat :: w < |p.level| && w < |cfg.g.master| && cfg.g.master[w] == r
                        && EdgeLowers(cfg, r, p.controllers[i], k, w, p.level[w])
  }

  /** When draining the controllers leaves a visitor to take up: all in terms of labels, edges and queues before. */
  lemma {:induction false} DrainLeavesVisitor(cfg: Config, r: nat, p: Process)
    requires cfg.Valid() && r < cfg.g.ranks && AllCopies(cfg, r, p)
    requires forall v | v in p.controllers :: CopyOf(cfg, r, v.vertex)
    ensures ControllersVisited(cfg, r, p).queue != multiset{} <==>
              p.queue != multiset{} || exists i: nat, k: nat :: i < |p.controllers| && WillQueue(cfg, r, p, i, k)
  {
    hide ControllersVisited, Entered, EdgeLowers;
    var p' := ControllersVisited(cfg, r, p);
    DrainNoticed(cfg, r, p);
    if OwnFell(cfg, r, p, p') {
      var w: nat :| w < cfg.g.size && w < |p.level| && cfg.g.master[w] == r && p'.level[w] < p.level[w];
      DrainLowers(cfg, r, p, w, p.level[w]);
      var i :| 0 <= i < |p.controllers| && Entered(cfg, r, p.level, p.controllers, i)
               && Lowers(cfg, r, p.controllers[i], w, p.level[w]);
      assert CopyOf(cfg, r, p.controllers[i].vertex);
      var k: nat :| EdgeLowers(cfg, r, p.controllers[i], k, w, p.level[w]);
      assert WillQueue(cfg, r, p, i, k);
    }
    if i: nat, k: nat :| i < |p.controllers| && WillQueue(cfg, r, p, i, k) {
      var w: nat :| w < |p.level| && cfg.g.master[w] == r && EdgeLowers(cfg, r, p.controllers[i], k, w, p.level[w]);
      assert Lowers(cfg, r, p.controllers[i], w, p.level[w]);
      DrainLowers(cfg, r, p, w, p.level[w]);
    }
  }

  // --- The drain inside a scheduled run ------------------------------------------------------------------

  /** Rank r stays in its inner drain until the moves are over; anything may arrive, the others do what they like. */
  ghost predicate Draining(cfg: Config, t: Schedule, moves: seq<Move>, t': Schedule, r: nat)
    requires cfg.Valid() && |t.at| == cfg.g.ranks && r < cfg.g.ranks
    decreases |moves|
  {
    if moves == [] then
      t == t'
    else
      t.at[r].InnerDrain? && Can(cfg, t, moves[0]) && Draining(cfg, Moved(cfg, t, moves[0]), moves[1..], t', r)
  }

  /** No message reaches rank r in these moves. */
  predicate Undisturbed(moves: seq<Move>, r: nat) {
    forall i | 0 <= i < |moves| :: moves[i].Act? && Delivery(moves[i].ev) ==> Actor(moves[i].ev) != r
  }

  ghost function Proc(t: Schedule, r: nat): Process
    requires r < |t.system.procs|
  {
    t.system.procs[r]
  }

  lemma {:induction false} OtherMoves(cfg: Config, t: Schedule, mv: Move, r: nat)
    requires cfg.Valid() && |t.at| == |t.system.procs| == cfg.g.ranks && Can(cfg, t, mv) && r < cfg.g.ranks
    requires !(mv.Act? && Actor(mv.ev) == r)
    ensures |Moved(cfg, t, mv).system.procs| == cfg.g.ranks && Proc(Moved(cfg, t, mv), r) == Proc(t, r)
  {
    hide Shape, Enabled, InPlace, NextNet, NextBroadcasts, NextProcess, Queued, CanProceed, CanLeave;
  }

  /** An event of a rank in its inner drain: an arrival, a controller taken up, an edge, the end of a visit. */
  lemma {:induction false} DrainEvent(cfg: Config, t: Schedule, ev: Event, exchange: bool)
    requires cfg.Valid() && |t.at| == |t.system.procs| == cfg.g.ranks && CanAct(cfg, t, ev, exchange)
    requires t.at[Actor(ev)].InnerDrain?
    ensures Delivery(ev) || ev.PopController? || ev.Continue? || ev.Finish?
    ensures Proc(Acted(cfg, t, ev, exchange), Actor(ev)) == NextProcess(cfg, t.system, ev)
    ensures |Acted(cfg, t, ev, exchange).system.procs| == cfg.g.ranks
  {
    hide Shape, Enabled, NextNet, NextBroadcasts, NextProcess, Queued;
  }

  lemma {:induction false} EventNoticed(cfg: Config, s: System, ev: Event)
    requires cfg.Valid() && Shape(cfg, s) && Enabled(cfg, s, ev) && Actor(ev) < |s.procs|
    requires Delivery(ev) || ev.PopController? || ev.Continue? || ev.Finish?
    ensures Noticed(cfg, Actor(ev), s.procs[Actor(ev)], NextProcess(cfg, s, ev))
  {
    hide Noticed, RelaxEdge, Accept, BeginVisit, NextNet, NextBroadcasts;
    var r := Actor(ev);
    var p := s.procs[r];
    assert ShapedRank(cfg, r, p);
    match ev {
      case Deliver(m) => AcceptNoticed(cfg, r, p, m.visitor);
      case DeliverBroadcast(m) => SameNoticed(cfg, r, p, p.(controllers := p.controllers + [m.visitor]));
      case PopController(_) =>
        assert p.controllers[0] in p.controllers;
        var p0 := p.(controllers := p.controllers[1..]);
        SameNoticed(cfg, r, p, p0);
        BeginNoticed(cfg, r, p0, p.controllers[0]);
        NoticedTwice(cfg, r, p, p0, BeginVisit(cfg, r, p0, p.controllers[0]));
      case Continue(_) => EdgeNoticed(cfg, r, p);
      case Finish(_) => SameNoticed(cfg, r, p, p.(activity := Idle));
      case _ =>
    }
  }

  lemma {:induction false} MoveNoticed(cfg: Config, t: Schedule, mv: Move, r: nat)
    requires cfg.Valid() && Kept(cfg, t) && r < cfg.g.ranks && t.at[r].InnerDrain? && Can(cfg, t, mv)
    ensures Kept(cfg, Moved(cfg, t, mv)) && Noticed(cfg, r, Proc(t, r), Proc(Moved(cfg, t, mv), r))
  {
    hide Noticed, Invariant, MailOk, Sealed, RankOk, Done, CanProceed, CanLeave, InPlace, Queued, Acted,
         Proceeded, Left;
    MoveKept(cfg, t, mv);
    KeptShape(cfg, t, r);
    if mv.Act? && Actor(mv.ev) == r {
      DrainEvent(cfg, t, mv.ev, mv.exchange);
      EventNoticed(cfg, t.system, mv.ev);
    } else {
      OtherMoves(cfg, t, mv, r);
      SameNoticed(cfg, r, Proc(t, r), Proc(t, r));
    }
  }

  lemma {:induction false} KeptShape(cfg: Config, t: Schedule, r: nat)
    requires cfg.Valid() && Kept(cfg, t) && r < cfg.g.ranks
    ensures Shape(cfg, t.system) && ShapedRank(cfg, r, t.system.procs[r]) && ShapedProcess(cfg, Proc(t, r))
    ensures forall v | v in Proc(t, r).controllers :: CopyOf(cfg, r, v.vertex)
    ensures Proc(t, r).activity.Busy? ==> Relaxable(cfg, r, Proc(t, r))
  {
    hide Sound, Ordered, Attentive, MailOk, Sealed, RankOk, Done;
  }

  lemma {:induction false} DrainingNoticed(cfg: Config, t: Schedule, moves: seq<Move>, t': Schedule, r: nat)
    requires cfg.Valid() && Kept(cfg, t) && r < cfg.g.ranks && Draining(cfg, t, moves, t', r)
    ensures Kept(cfg, t') && Noticed(cfg, r, Proc(t, r), Proc(t', r))
    decreases |moves|
  {
    hide Noticed, Proc, Can, Moved, Invariant, MailOk, Sealed, RankOk, Done;
    if moves == [] {
      KeptShape(cfg, t, r);
      SameNoticed(cfg, r, Proc(t, r), Proc(t, r));
    } else {
      var t1 := Moved(cfg, t, moves[0]);
      MoveNoticed(cfg, t, moves[0], r);
      DrainingNoticed(cfg, t1, moves[1..], t', r);
      NoticedTwice(cfg, r, Proc(t, r), Proc(t1, r), Proc(t', r));
    }
  }

  /** What the drain would come to from here if nothing arrived: the visit in progress, then the controllers. */
  ghost function Outcome(cfg: Config, r: nat, p: Process): Process
    requires cfg.Valid() && r < cfg.g.ranks && ShapedProcess(cfg, p)
    requires p.activity.Idle? || Relaxable(cfg, r, p)
    requires forall v | v in p.controllers :: CopyOf(cfg, r, v.vertex)
  {
    var p1 := if p.activity.Idle? then p else RelaxAll(cfg, r, p).(activity := Idle);
    ControllersVisited(cfg, r, p1)
  }

  lemma {:induction false} EventOutcome(cfg: Config, s: System, ev: Event, r: nat)
    requires cfg.Valid() && Shape(cfg, s) && Enabled(cfg, s, ev) && r == Actor(ev) && r < cfg.g.ranks
    requires ev.PopController? || ev.Continue? || ev.Finish?
    requires ShapedRank(cfg, r, s.procs[r]) && ShapedRank(cfg, r, NextProcess(cfg, s, ev))
    ensures Outcome(cfg, r, NextProcess(cfg, s, ev)) == Outcome(cfg, r, s.procs[r])
  {
    hide RelaxEdge, BeginVisit, NextNet, NextBroadcasts, Shape;
  }

  /** The drain's outcome is settled while nothing arrives. */
  lemma {:induction false} MoveOutcome(cfg: Config, t: Schedule, mv: Move, r: nat)
    requires cfg.Valid() && Kept(cfg, t) && r < cfg.g.ranks && t.at[r].InnerDrain? && Can(cfg, t, mv)
    requires mv.Act? && Delivery(mv.ev) ==> Actor(mv.ev) != r
    ensures var t' := Moved(cfg, t, mv);
            Kept(cfg, t') && OutcomeAt(cfg, t', r) == OutcomeAt(cfg, t, r)
  {
    hide Invariant, MailOk, Sealed, RankOk, Done, CanProceed, CanLeave, InPlace, Queued, Acted, Proceeded,
         Left, Outcome;
    MoveKept(cfg, t, mv);
    KeptShape(cfg, t, r);
    KeptShape(cfg, Moved(cfg, t, mv), r);
    if mv.Act? && Actor(mv.ev) == r {
      DrainEvent(cfg, t, mv.ev, mv.exchange);
      EventOutcome(cfg, t.system, mv.ev, r);
    } else {
      OtherMoves(cfg, t, mv, r);
    }
  }

  ghost function OutcomeAt(cfg: Config, t: Schedule, r: nat): Process
    requires cfg.Valid() && Kept(cfg, t) && r < cfg.g.ranks
  {
    KeptShape(cfg, t, r);
    Outcome(cfg, r, Proc(t, r))
  }

  lemma {:induction false} DrainingOutcome(cfg: Config, t: Schedule, moves: seq<Move>, t': Schedule, r: nat)
    requires cfg.Valid() && Kept(cfg, t) && r < cfg.g.ranks && Draining(cfg, t, moves, t', r) && Undisturbed(moves, r)
    ensures Kept(cfg, t') && OutcomeAt(cfg, t', r) == OutcomeAt(cfg, t, r)
    decreases |moves|
  {
    hide OutcomeAt, Can, Moved, Invariant, MailOk, Sealed, RankOk, Done;
    if moves != [] {
      MoveOutcome(cfg, t, moves[0], r);
      assert Undisturbed(moves[1..], r) by {
        assert forall i | 0 <= i < |moves[1..]| :: moves[1..][i] == moves[i + 1];
      }
      DrainingOutcome(cfg, Moved(cfg, t, moves[0]), moves[1..], t', r);
    }
  }

  // --- The pop ---------------------------------------------------------------------------------------------

  /** Rank r can take up a visitor. */
  ghost predicate Pops(cfg: Config, t: Schedule, r: nat)
    requires cfg.Valid() && |t.at| == cfg.g.ranks
  {
    exists v :: Can(cfg, t, Act(Pop(r, v), false))
  }

  /** The rank has left its drain and is about to take up a visitor. */
  ghost predicate Popping(t: Schedule, r: nat)
    requires r < |t.at| == |t.system.procs|
  {
    t.at[r].AtPop? && r !in t.inside && Proc(t, r).activity.Idle?
  }

  lemma {:induction false} CanPopIff(cfg: Config, t: Schedule, r: nat, v: Visitor)
    requires cfg.Valid() && |t.at| == |t.system.procs| == cfg.g.ranks && Shape(cfg, t.system)
    requires r < cfg.g.ranks && Popping(t, r)
    ensures Can(cfg, t, Act(Pop(r, v), false)) <==> v in Proc(t, r).queue
  {
    hide Shape;
  }

  lemma {:induction false} PopsIff(cfg: Config, t: Schedule, r: nat)
    requires cfg.Valid() && |t.at| == |t.system.procs| == cfg.g.ranks && Shape(cfg, t.system)
    requires r < cfg.g.ranks && Popping(t, r)
    ensures Pops(cfg, t, r) <==> Proc(t, r).queue != multiset{}
  {
    hide Shape, Can;
    forall v ensures Can(cfg, t, Act(Pop(r, v), false)) <==> v in Proc(t, r).queue {
      CanPopIff(cfg, t, r, v);
    }
    if v :| v in Proc(t, r).queue {
      assert Can(cfg, t, Act(Pop(r, v), false));
    }
  }

  lemma {:induction false} FailsIff(cfg: Config, t: Schedule, r: nat)
    requires cfg.Valid() && |t.at| == |t.system.procs| == cfg.g.ranks && r < cfg.g.ranks && Popping(t, r)
    ensures Can(cfg, t, Proceed(r)) <==> Proc(t, r).queue == multiset{}
    ensures Can(cfg, t, Proceed(r)) ==> Moved(cfg, t, Proceed(r)).at[r].Failed?
  {
  }

  /** About to pop, a rank pops or fails, by whether its visitor queue is empty. */
  lemma {:induction false} PopOrFail(cfg: Config, t: Schedule, r: nat)
    requires cfg.Valid() && Kept(cfg, t) && r < cfg.g.ranks && Popping(t, r)
    ensures |t.at| == cfg.g.ranks && (Pops(cfg, t, r) <==> Proc(t, r).queue != multiset{})
    ensures Can(cfg, t, Proceed(r)) <==> Proc(t, r).queue == multiset{}
    ensures Can(cfg, t, Proceed(r)) ==> Moved(cfg, t, Proceed(r)).at[r].Failed?
  {
    hide *;
    KeptSize(cfg, t);
    KeptShape(cfg, t, r);
    PopsIff(cfg, t, r);
    FailsIff(cfg, t, r);
  }

  /** The one move that ends a drain: the controllers are all visited. */
  lemma {:induction false} DrainEnds(cfg: Config, t: Schedule, mv: Move, r: nat)
    requires cfg.Valid() && |t.at| == |t.system.procs| == cfg.g.ranks && r < cfg.g.ranks && t.at[r].InnerDrain?
    requires Can(cfg, t, mv) && Moved(cfg, t, mv).at[r].AtPop?
    ensures var t' := Moved(cfg, t, mv);
            |t'.at| == |t'.system.procs| == cfg.g.ranks && Popping(t', r) && Proc(t', r).controllers == []
  {
    hide Shape, Enabled, NextNet, NextBroadcasts, NextProcess, Queued, Handed;
  }

  lemma {:induction false} DrainingEnds(cfg: Config, t: Schedule, moves: seq<Move>, t': Schedule, r: nat)
    requires cfg.Valid() && Kept(cfg, t) && r < cfg.g.ranks && t.at[r].InnerDrain? && Draining(cfg, t, moves, t', r)
    requires r < |t'.at| && t'.at[r].AtPop?
    ensures |t'.at| == |t'.system.procs| == cfg.g.ranks && Popping(t', r) && Proc(t', r).controllers == []
    decreases |moves|
  {
    hide Can, Moved, Kept, Popping;
    KeptSize(cfg, t);
    if moves != [] {
      var t1 := Moved(cfg, t, moves[0]);
      MoveKept(cfg, t, moves[0]);
      KeptSize(cfg, t1);
      if |moves| == 1 {
        assert moves[1..] == [];
        DrainEnds(cfg, t, moves[0], r);
      } else {
        assert t1.at[r].InnerDrain?;
        DrainingEnds(cfg, t1, moves[1..], t', r);
      }
    }
  }

  /** From the test that finds something the loop goes on to its drain. */
  lemma {:induction false} TestPassed(cfg: Config, t: Schedule, r: nat)
    requires cfg.Valid() && |t.at| == |t.system.procs| == cfg.g.ranks && r < cfg.g.ranks
    requires t.at[r].Test? && Can(cfg, t, Proceed(r)) && !NoneLeft(Proc(t, r))
    ensures Moved(cfg, t, Proceed(r)).at[r].InnerDrain? && Proc(t, r).activity.Idle?
  {
  }

  /**
   From the inner test to the pop, whatever arrives on the way: the pop succeeds iff the visitor queue was not
   empty at the test or a label of this rank has fallen since. If it does not succeed, the rank fails.
   */
  lemma {:induction false} PopAfterTest(cfg: Config, t: Schedule, moves: seq<Move>, t': Schedule, r: nat)
    requires cfg.Valid() && Kept(cfg, t) && r < cfg.g.ranks && t.at[r].Test? && Can(cfg, t, Proceed(r))
    requires !NoneLeft(Proc(t, r))
    requires Draining(cfg, Moved(cfg, t, Proceed(r)), moves, t', r) && r < |t'.at| && t'.at[r].AtPop?
    ensures |t'.at| == |t'.system.procs| == cfg.g.ranks
    ensures Pops(cfg, t', r) <==> Proc(t, r).queue != multiset{} || OwnFell(cfg, r, Proc(t, r), Proc(t', r))
    ensures !Pops(cfg, t', r) ==> Can(cfg, t', Proceed(r)) && Moved(cfg, t', Proceed(r)).at[r].Failed?
  {
    hide *;
    KeptSize(cfg, t);
    var t1 := Moved(cfg, t, Proceed(r));
    MoveKept(cfg, t, Proceed(r));
    TestPassed(cfg, t, r);
    OtherMoves(cfg, t, Proceed(r), r);
    DrainingEnds(cfg, t1, moves, t', r);
    DrainingNoticed(cfg, t1, moves, t', r);
    NoticedMeans(cfg, r, Proc(t1, r), Proc(t', r));
    PopOrFail(cfg, t', r);
  }

  lemma {:induction false} KeptSize(cfg: Config, t: Schedule)
    requires cfg.Valid() && Kept(cfg, t)
    ensures |t.at| == |t.system.procs| == cfg.g.ranks
  {
    hide Invariant, MailOk, Sealed, RankOk, Done;
  }

  lemma {:induction false} NoticedMeans(cfg: Config, r: nat, p: Process, p': Process)
    requires Noticed(cfg, r, p, p')
    ensures p'.queue != multiset{} <==> p.queue != multiset{} || OwnFell(cfg, r, p, p')
  {
  }

  lemma {:induction false} OutcomeStarts(cfg: Config, t: Schedule, r: nat)
    requires cfg.Valid() && Kept(cfg, t) && r < cfg.g.ranks && Proc(t, r).activity.Idle?
    ensures AllCopies(cfg, r, Proc(t, r)) && forall v | v in Proc(t, r).controllers :: CopyOf(cfg, r, v.vertex)
    ensures OutcomeAt(cfg, t, r) == ControllersVisited(cfg, r, Proc(t, r))
    ensures Proc(t, r).controllers == [] ==> OutcomeAt(cfg, t, r) == Proc(t, r)
  {
    hide Visited, Invariant, MailOk, Sealed, RankOk, Done;
    KeptShape(cfg, t, r);
    forall i | 0 <= i < |Proc(t, r).controllers|
      ensures CopyOf(cfg, r, Proc(t, r).controllers[i].vertex)
    {
      assert Proc(t, r).controllers[i] in Proc(t, r).controllers;
    }
  }

  /**
   When no message reaches the rank between the inner test and the pop, as none does unless one of its sends on the
   way exchanges: the pop succeeds iff the visitor queue was not empty at the test or some pending controller, one
   that no earlier controller undercuts, has an edge that takes a label of this rank below its value at the test.
   */
  lemma {:induction false} UndisturbedPop(cfg: Config, t: Schedule, moves: seq<Move>, t': Schedule, r: nat)
    requires cfg.Valid() && Kept(cfg, t) && r < cfg.g.ranks && t.at[r].Test? && Can(cfg, t, Proceed(r))
    requires !NoneLeft(Proc(t, r))
    requires Draining(cfg, Moved(cfg, t, Proceed(r)), moves, t', r) && r < |t'.at| && t'.at[r].AtPop?
    requires Undisturbed(moves, r)
    ensures AllCopies(cfg, r, Proc(t, r)) && |t'.at| == |t'.system.procs| == cfg.g.ranks
    ensures Pops(cfg, t', r) <==>
              Proc(t, r).queue != multiset{} ||
              exists i: nat, k: nat :: i < |Proc(t, r).controllers| && WillQueue(cfg, r, Proc(t, r), i, k)
    ensures !Pops(cfg, t', r) ==> Can(cfg, t', Proceed(r)) && Moved(cfg, t', Proceed(r)).at[r].Failed?
  {
    hide *;
    KeptSize(cfg, t);
    var t1 := Moved(cfg, t, Proceed(r));
    MoveKept(cfg, t, Proceed(r));
    OtherMoves(cfg, t, Proceed(r), r);
    TestPassed(cfg, t, r);
    DrainingOutcome(cfg, t1, moves, t', r);
    OutcomeStarts(cfg, t1, r);
    DrainingEnds(cfg, t1, moves, t', r);
    IdlePopping(t', r);
    OutcomeStarts(cfg, t', r);
    DrainLeavesVisitor(cfg, r, Proc(t, r));
    PopOrFail(cfg, t', r);
  }

  lemma {:induction false} IdlePopping(t: Schedule, r: nat)
    requires r < |t.at| == |t.system.procs| && Popping(t, r)
    ensures Proc(t, r).activity.Idle?
  {
  }

  // --- Where every pop succeeds ---------------------------------------------------------------------------

  /** With one rank, or without delegates, nobody ever has to visit a controller. */
  predicate NoCopies(cfg: Config) {
    cfg.g.ranks == 1 || cfg.g.delegates == {}
  }

  ghost predicate SafeAt(t: Schedule, r: nat)
    requires r < |t.at| == |t.system.procs|
  {
    && !t.at[r].Failed?
    && (t.at[r].InnerDrain? || t.at[r].AtPop? ==> t.system.procs[r].queue != multiset{} && t.system.procs[r].activity.Idle?)
  }

  ghost predicate Safe(t: Schedule) {
    |t.at| == |t.system.procs| && forall r | 0 <= r < |t.at| :: SafeAt(t, r)
  }

  lemma {:induction false} FirstIn(cs: seq<Visitor>)
    ensures cs != [] ==> cs[0] in cs
  {
  }

  lemma {:induction false} NobodyCopies(cfg: Config, r: nat, cs: seq<Visitor>)
    requires cfg.Valid() && NoCopies(cfg) && r < cfg.g.ranks && forall v | v in cs :: CopyOf(cfg, r, v.vertex)
    ensures cs == []
  {
    FirstIn(cs);
  }

  lemma {:induction false} NoControllers(cfg: Config, t: Schedule, r: nat)
    requires cfg.Valid() && NoCopies(cfg) && Kept(cfg, t) && r < cfg.g.ranks
    ensures Proc(t, r).controllers == []
  {
    hide Kept, CopyOf;
    KeptShape(cfg, t, r);
    NobodyCopies(cfg, r, Proc(t, r).controllers);
  }

  /** Between its inner test and its pop, a rank without controllers can only receive messages or pop. */
  lemma {:induction false} WaitsToPop(cfg: Config, t: Schedule, ev: Event, exchange: bool)
    requires cfg.Valid() && |t.at| == |t.system.procs| == cfg.g.ranks && CanAct(cfg, t, ev, exchange)
    requires t.at[Actor(ev)].InnerDrain? || t.at[Actor(ev)].AtPop?
    requires t.system.procs[Actor(ev)].activity.Idle? && t.system.procs[Actor(ev)].controllers == []
    ensures Delivery(ev) || ev.Pop?
  {
    hide Shape, Queued;
  }

  lemma {:induction false} DeliveryKeepsQueue(cfg: Config, s: System, ev: Event)
    requires cfg.Valid() && Shape(cfg, s) && Enabled(cfg, s, ev) && Delivery(ev) && Actor(ev) < |s.procs|
    ensures var p, p' := s.procs[Actor(ev)], NextProcess(cfg, s, ev);
            p'.activity == p.activity && (p.queue != multiset{} ==> p'.queue != multiset{})
  {
    hide ShapedRank;
  }

  lemma {:induction false} ActedProcs(cfg: Config, t: Schedule, ev: Event, exchange: bool)
    requires cfg.Valid() && |t.at| == |t.system.procs| == cfg.g.ranks && CanAct(cfg, t, ev, exchange)
    ensures var t' := Acted(cfg, t, ev, exchange);
            && t'.system.procs == t.system.procs[Actor(ev) := NextProcess(cfg, t.system, ev)]
            && t'.at == t.at[Actor(ev) := PlaceAfter(t.at[Actor(ev)], ev)]
  {
    hide Shape, Enabled, InPlace, Queued, NextNet, NextBroadcasts, NextProcess, Handed, PlaceAfter;
  }

  lemma {:induction false} ActorSafe(cfg: Config, t: Schedule, ev: Event, exchange: bool)
    requires cfg.Valid() && NoCopies(cfg) && Kept(cfg, t) && Safe(t) && CanAct(cfg, t, ev, exchange)
    ensures var at := PlaceAfter(t.at[Actor(ev)], ev); var p := NextProcess(cfg, t.system, ev);
            !at.Failed? && (at.InnerDrain? || at.AtPop? ==> p.queue != multiset{} && p.activity.Idle?)
  {
    hide Kept, Shape, Enabled, InPlace, Queued, NextProcess;
    var r := Actor(ev);
    KeptSize(cfg, t);
    NoControllers(cfg, t, r);
    assert SafeAt(t, r);
    if t.at[r].InnerDrain? || t.at[r].AtPop? {
      WaitsToPop(cfg, t, ev, exchange);
      if Delivery(ev) {
        DeliveryKeepsQueue(cfg, t.system, ev);
      }
    }
  }

  lemma {:induction false} ActSafe(cfg: Config, t: Schedule, ev: Event, exchange: bool)
    requires cfg.Valid() && NoCopies(cfg) && Kept(cfg, t) && Safe(t) && CanAct(cfg, t, ev, exchange)
    ensures Safe(Acted(cfg, t, ev, exchange))
  {
    hide Kept, Shape, Enabled, InPlace, Queued, Acted, NextProcess, PlaceAfter;
    KeptSize(cfg, t);
    ActedProcs(cfg, t, ev, exchange);
    ActorSafe(cfg, t, ev, exchange);
    var t' := Acted(cfg, t, ev, exchange);
    forall x | 0 <= x < |t'.at|
      ensures SafeAt(t', x)
    {
      assert SafeAt(t, x);
    }
  }

  lemma {:induction false} ProceedSafe(cfg: Config, t: Schedule, r: nat)
    requires cfg.Valid() && NoCopies(cfg) && Kept(cfg, t) && Safe(t) && |t.at| == cfg.g.ranks && CanProceed(cfg, t, r)
    ensures Safe(Proceeded(cfg, t, r))
  {
    hide Kept;
    NoControllers(cfg, t, r);
    assert SafeAt(t, r);
    var t' := Proceeded(cfg, t, r);
    forall x | 0 <= x < |t'.at|
      ensures SafeAt(t', x)
    {
      assert SafeAt(t, x);
    }
  }

  lemma {:induction false} LeaveSafe(cfg: Config, t: Schedule, r: nat)
    requires Safe(t) && |t.at| == cfg.g.ranks && CanLeave(cfg, t, r)
    ensures Safe(Left(cfg, t, r))
  {
    var t' := Left(cfg, t, r);
    forall x | 0 <= x < |t'.at|
      ensures SafeAt(t', x)
    {
      assert SafeAt(t, x);
    }
  }

  lemma {:induction false} ScheduledSafe(cfg: Config, t: Schedule, moves: seq<Move>, t': Schedule)
    requires cfg.Valid() && NoCopies(cfg) && Kept(cfg, t) && Safe(t) && |t.at| == cfg.g.ranks
    requires Scheduled(cfg, t, moves, t')
    ensures Safe(t')
    decreases |moves|
  {
    hide Kept, Safe, CanAct, CanProceed, CanLeave, Acted, Proceeded, Left;
    if moves != [] {
      MoveKept(cfg, t, moves[0]);
      match moves[0] {
        case Act(ev, exchange) => ActSafe(cfg, t, ev, exchange);
        case Proceed(r) => ProceedSafe(cfg, t, r);
        case Leave(r) => LeaveSafe(cfg, t, r);
      }
      ScheduledSafe(cfg, Moved(cfg, t, moves[0]), moves[1..], t');
    }
  }

  /** With one rank, or without delegates, no traversal ever takes a visitor from an empty queue. */
  lemma {:induction false} NeverFails(cfg: Config, t: Schedule, moves: seq<Move>, t': Schedule, r: nat)
    requires cfg.Valid() && NoCopies(cfg) && Starts(cfg, t) && |t.at| == cfg.g.ranks && Scheduled(cfg, t, moves, t')
    requires r < |t'.at|
    ensures !t'.at[r].Failed?
  {
    hide Kept, Scheduled;
    StartKept(cfg, t);
    KeptSize(cfg, t);
    ScheduledSafe(cfg, t, moves, t');
    assert SafeAt(t', r);
  }
}
