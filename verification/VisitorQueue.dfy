/**
 One rank's visitor queue, updated in place. A send may run an exchange before it returns, and what the exchange hands
 out is handled there and then, in the middle of a visit. The methods keep a history of events, and whatever arrives
 wherever it arrives, the history is a run of the events of Traversal on this rank.
 */
module VisitorQueues {
  import opened Graphs
  import opened Traversal
  import opened TraversalInvariant
  import opened TraversalOrder
  import opened TraversalProgress
  import opened TraversalExactness
  import opened TraversalTermination

  // --- One rank by itself -------------------------------------------------------------------------------

  /** A rank's process and what it has given to its mailbox. */
  datatype Local = Local(proc: Process, sent: multiset<Message>, announced: multiset<Message>)

  /** A message as the mailbox hands it to the receive handler. */
  datatype Arrival = Arrival(visitor: Visitor, bcast: bool)

  predicate Arrives(cfg: Config, r: nat, a: Arrival) {
    if a.bcast then CopyOf(cfg, r, a.visitor.vertex)
    else a.visitor.vertex < |cfg.g.master| && cfg.g.master[a.visitor.vertex] == r
  }

  ghost predicate AllArrive(cfg: Config, r: nat, arrivals: seq<Arrival>) {
    forall i | 0 <= i < |arrivals| :: Arrives(cfg, r, arrivals[i])
  }

  function Handled(r: nat, a: Arrival): Event {
    var m := Message(r, a.visitor);
    if a.bcast then DeliverBroadcast(m) else Deliver(m)
  }

  /** What rank r itself demands of an event; that a message is in flight concerns the rest of the system. */
  ghost predicate LocallyEnabled(cfg: Config, r: nat, p: Process, ev: Event)
    requires cfg.Valid() && r < cfg.g.ranks
  {
    && ShapedRank(cfg, r, p) && Actor(ev) == r
    && match ev
       case Deliver(m) => Arrives(cfg, r, Arrival(m.visitor, false))
       case DeliverBroadcast(m) => Arrives(cfg, r, Arrival(m.visitor, true))
       case Pop(_, v) => p.activity.Idle? && v in p.queue
       case PopController(_) => p.activity.Idle? && p.controllers != []
       case InitVisit(_, u) => p.activity.Idle? && u in p.toInit
       case Continue(_) => p.activity.Busy? && p.activity.next < |cfg.g.edges[r][p.activity.visitor.vertex]|
       case Finish(_) => p.activity.Busy? && p.activity.next == |cfg.g.edges[r][p.activity.visitor.vertex]|
  }

  ghost function LocalNext(cfg: Config, r: nat, p: Process, ev: Event): Process
    requires cfg.Valid() && r < cfg.g.ranks && LocallyEnabled(cfg, r, p, ev)
  {
    match ev
    case Deliver(m) => Accept(p, m.visitor)
    case DeliverBroadcast(m) => p.(controllers := p.controllers + [m.visitor])
    case Pop(_, v) => BeginVisit(cfg, r, p.(queue := p.queue - multiset{v}), v)
    case PopController(_) =>
      assert p.controllers[0] in p.controllers;
      BeginVisit(cfg, r, p.(controllers := p.controllers[1..]), p.controllers[0])
    case InitVisit(_, u) => BeginVisit(cfg, r, p.(toInit := p.toInit - {u}), Visitor(u, u, u))
    case Continue(_) => RelaxEdge(cfg, r, p).0
    case Finish(_) => p.(activity := Idle)
  }

  ghost function LocalStep(cfg: Config, r: nat, l: Local, ev: Event): Local
    requires cfg.Valid() && r < cfg.g.ranks && LocallyEnabled(cfg, r, l.proc, ev)
  {
    var a := l.proc.activity;
    Local(LocalNext(cfg, r, l.proc, ev),
          if ev.Continue? then l.sent + RelaxEdge(cfg, r, l.proc).1 else l.sent,
          if ev.Finish? && a.announce then l.announced + Broadcast(cfg.g.ranks, r, a.visitor) else l.announced)
  }

  /** now is reached from start by the events, each enabled when it happens. */
  ghost predicate Replays(cfg: Config, r: nat, start: Local, events: seq<Event>, now: Local)
    requires cfg.Valid() && r < cfg.g.ranks
    decreases |events|
  {
    if events == [] then start == now
    else
      exists before ::
        && Replays(cfg, r, start, events[..|events| - 1], before)
        && LocallyEnabled(cfg, r, before.proc, events[|events| - 1])
        && now == LocalStep(cfg, r, before, events[|events| - 1])
  }

  /** An event of the system is, on its rank, the same event locally. */
  lemma {:induction false} SystemIsLocal(cfg: Config, s: System, ev: Event)
    requires cfg.Valid() && Shape(cfg, s) && Enabled(cfg, s, ev)
    ensures Actor(ev) < cfg.g.ranks && LocallyEnabled(cfg, Actor(ev), s.procs[Actor(ev)], ev)
    ensures LocalNext(cfg, Actor(ev), s.procs[Actor(ev)], ev) == NextProcess(cfg, s, ev)
  {
    hide BeginVisit, RelaxEdge, Accept;
    assert ev.Deliver? ==> ev.m.visitor.vertex < cfg.g.size && cfg.g.master[ev.m.visitor.vertex] == ev.m.dest;
    assert Actor(ev) < cfg.g.ranks ==> ShapedRank(cfg, Actor(ev), s.procs[Actor(ev)]);
  }

  lemma {:induction false} LocalEnables(cfg: Config, s: System, r: nat, ev: Event)
    requires cfg.Valid() && Shape(cfg, s) && r < cfg.g.ranks && LocallyEnabled(cfg, r, s.procs[r], ev)
    requires (ev.Deliver? ==> ev.m in s.net) && (ev.DeliverBroadcast? ==> ev.m in s.bcasts)
    ensures Enabled(cfg, s, ev)
  {
    hide ShapedRank;
  }

  /** And an event that is enabled locally, whose message is in flight if it is a delivery, is one of the system. */
  lemma {:induction false} LocalIsSystem(cfg: Config, s: System, r: nat, ev: Event)
    requires cfg.Valid() && Shape(cfg, s) && r < cfg.g.ranks && LocallyEnabled(cfg, r, s.procs[r], ev)
    requires (ev.Deliver? ==> ev.m in s.net) && (ev.DeliverBroadcast? ==> ev.m in s.bcasts)
    ensures Enabled(cfg, s, ev)
    ensures var l' := LocalStep(cfg, r, Local(s.procs[r], s.net, s.bcasts), ev);
            Next(cfg, s, ev) == System(s.procs[r := l'.proc],
                                       if ev.Deliver? then s.net - multiset{ev.m} else l'.sent,
                                       if ev.DeliverBroadcast? then s.bcasts - multiset{ev.m} else l'.announced)
  {
    LocalEnables(cfg, s, r, ev);
    SystemIsLocal(cfg, s, ev);
    hide LocalNext, NextProcess, RelaxEdge, Broadcast, Shape, LocallyEnabled, Enabled;
    assert s.bcasts + multiset{} == s.bcasts;
  }

  lemma {:induction false} BeginShaped(cfg: Config, r: nat, p: Process, v: Visitor)
    requires cfg.Valid() && r < cfg.g.ranks && ShapedRank(cfg, r, p) && p.activity.Idle?
    requires v.vertex < cfg.g.size && cfg.g.Hosts(r, v.vertex)
    ensures ShapedRank(cfg, r, BeginVisit(cfg, r, p, v))
  {
  }

  lemma {:induction false} EdgeShaped(cfg: Config, r: nat, p: Process)
    requires cfg.Valid() && r < cfg.g.ranks && LocallyEnabled(cfg, r, p, Continue(r))
    ensures ShapedRank(cfg, r, RelaxEdge(cfg, r, p).0)
  {
  }

  /** A rank's process once the visitor it takes up has left the place it waited in. */
  lemma {:induction false} TakenShaped(cfg: Config, r: nat, p: Process, v: Visitor, u: nat)
    requires cfg.Valid() && r < cfg.g.ranks && ShapedRank(cfg, r, p)
    ensures ShapedRank(cfg, r, p.(queue := p.queue - multiset{v})) && ShapedRank(cfg, r, p.(toInit := p.toInit - {u}))
    ensures p.controllers != [] ==> ShapedRank(cfg, r, p.(controllers := p.controllers[1..]))
    ensures v in p.queue || (p.controllers != [] && v == p.controllers[0]) || (u in p.toInit && v.vertex == u) ==>
              v.vertex < cfg.g.size && cfg.g.Hosts(r, v.vertex)
  {
    hide CopyOf;
    if p.controllers != [] {
      assert p.controllers[0] in p.controllers && CopyOf(cfg, r, p.controllers[0].vertex) by {
        assert ShapedRank(cfg, r, p);
      }
      assert forall w | w in p.controllers[1..] :: w in p.controllers;
      CopyHosted(cfg, r, p.controllers[0].vertex);
    }
  }

  lemma {:induction false} CopyHosted(cfg: Config, r: nat, v: nat)
    requires cfg.Valid() && CopyOf(cfg, r, v)
    ensures v < cfg.g.size && cfg.g.Hosts(r, v)
  {
  }

  lemma {:induction false} ArrivalShaped(cfg: Config, r: nat, p: Process, v: Visitor)
    requires cfg.Valid() && r < cfg.g.ranks && ShapedRank(cfg, r, p)
    ensures Arrives(cfg, r, Arrival(v, false)) ==> ShapedRank(cfg, r, Accept(p, v))
    ensures Arrives(cfg, r, Arrival(v, true)) ==> ShapedRank(cfg, r, p.(controllers := p.controllers + [v]))
  {
  }

  /** The shape of a rank's process survives every local event. */
  lemma {:induction false} LocalShaped(cfg: Config, r: nat, p: Process, ev: Event)
    requires cfg.Valid() && r < cfg.g.ranks && LocallyEnabled(cfg, r, p, ev)
    ensures ShapedRank(cfg, r, LocalNext(cfg, r, p, ev))
  {
    hide BeginVisit, RelaxEdge, Accept, CopyOf, Arrives;
    match ev {
      case Deliver(m) => ArrivalShaped(cfg, r, p, m.visitor);
      case DeliverBroadcast(m) => ArrivalShaped(cfg, r, p, m.visitor);
      case Pop(_, v) =>
        TakenShaped(cfg, r, p, v, 0);
        BeginShaped(cfg, r, p.(queue := p.queue - multiset{v}), v);
      case PopController(_) =>
        TakenShaped(cfg, r, p, p.controllers[0], 0);
        BeginShaped(cfg, r, p.(controllers := p.controllers[1..]), p.controllers[0]);
      case InitVisit(_, u) =>
        TakenShaped(cfg, r, p, Visitor(u, u, u), u);
        BeginShaped(cfg, r, p.(toInit := p.toInit - {u}), Visitor(u, u, u));
      case Continue(_) => EdgeShaped(cfg, r, p);
      case Finish(_) =>
    }
  }

  lemma {:induction false} ReplaysMore(cfg: Config, r: nat, start: Local, events: seq<Event>, l: Local, ev: Event)
    requires cfg.Valid() && r < cfg.g.ranks && Replays(cfg, r, start, events, l) && LocallyEnabled(cfg, r, l.proc, ev)
    ensures Replays(cfg, r, start, events + [ev], LocalStep(cfg, r, l, ev))
  {
    hide LocallyEnabled, LocalStep;
    assert (events + [ev])[..|events|] == events;
  }

  // --- What is still to come -------------------------------------------------------------------------------

  function Flat(batches: seq<seq<Arrival>>): seq<Arrival> {
    if batches == [] then [] else batches[0] + Flat(batches[1..])
  }

  function Head(batches: seq<seq<Arrival>>): seq<Arrival> {
    if batches == [] then [] else batches[0]
  }

  function Tail(batches: seq<seq<Arrival>>): seq<seq<Arrival>> {
    if batches == [] then [] else batches[1..]
  }

  lemma {:induction false} HeadAndTail(batches: seq<seq<Arrival>>)
    ensures Flat(batches) == Head(batches) + Flat(Tail(batches))
  {
  }

  function Received(ev: Event): multiset<Arrival> {
    match ev
    case Deliver(m) => multiset{Arrival(m.visitor, false)}
    case DeliverBroadcast(m) => multiset{Arrival(m.visitor, true)}
    case _ => multiset{}
  }

  /** The arrivals among the events. */
  function AllReceived(events: seq<Event>): multiset<Arrival> {
    if events == [] then multiset{}
    else AllReceived(events[..|events| - 1]) + Received(events[|events| - 1])
  }

  // --- Work left ----------------------------------------------------------------------------------------------

  /** The potential of this rank and of what is still to arrive; every local event lowers it. */
  ghost function WorkLeft(cfg: Config, r: nat, p: Process, toCome: nat): nat
    requires cfg.Valid() && r < cfg.g.ranks
  {
    var d := EdgeCount(cfg.g);
    Potential(cfg, r, p, d) + toCome * BroadcastWeight(d)
  }

  lemma {:induction false} LocalVisitWork(cfg: Config, r: nat, p: Process, ev: Event, d: nat)
    requires cfg.Valid() && r < cfg.g.ranks && LocallyEnabled(cfg, r, p, ev) && d == EdgeCount(cfg.g)
    requires ev.Pop? || ev.PopController? || ev.InitVisit?
    ensures Potential(cfg, r, LocalNext(cfg, r, p, ev), d) < Potential(cfg, r, p, d)
  {
    hide Potential, QueueWeight, ControllerWeight, BeginVisit, EdgeCount;
    match ev {
      case Pop(_, v) =>
        TakenPotential(cfg, r, p, v, 0, d);
        BeginPotential(cfg, r, p.(queue := p.queue - multiset{v}), v, d);
      case PopController(_) =>
        assert p.controllers[0] in p.controllers;
        TakenPotential(cfg, r, p, p.controllers[0], 0, d);
        BeginPotential(cfg, r, p.(controllers := p.controllers[1..]), p.controllers[0], d);
      case InitVisit(_, u) =>
        TakenPotential(cfg, r, p, Visitor(u, u, u), u, d);
        BeginPotential(cfg, r, p.(toInit := p.toInit - {u}), Visitor(u, u, u), d);
    }
  }

  /** What local events do to the work left: all but arrivals lower it, and these are paid for by having been due. */
  lemma {:induction false} LocalWork(cfg: Config, r: nat, p: Process, ev: Event, toCome: nat)
    requires cfg.Valid() && r < cfg.g.ranks && LocallyEnabled(cfg, r, p, ev)
    ensures WorkLeft(cfg, r, LocalNext(cfg, r, p, ev), toCome)
              < WorkLeft(cfg, r, p, toCome + if ev.Deliver? || ev.DeliverBroadcast? then 1 else 0)
  {
    var d := EdgeCount(cfg.g);
    OneLess(toCome + 1, toCome, BroadcastWeight(d));
    hide Potential, EdgeCount, BeginVisit, RelaxEdge, Accept;
    match ev {
      case Deliver(m) => AcceptPotential(cfg, r, p, m.visitor, d);
      case DeliverBroadcast(m) => BroadcastPotential(cfg, r, p, m.visitor, d);
      case Continue(_) => EdgePotential(cfg, r, p, d);
      case Finish(_) => FinishWork(cfg, r, p, d);
      case _ => LocalVisitWork(cfg, r, p, ev, d);
    }
  }

  // --- The queue ------------------------------------------------------------------------------------------------

  predicate Delivered(ev: Event) { ev.Deliver? || ev.DeliverBroadcast? }

  /** The events that are not arrivals. */
  function Own(events: seq<Event>): seq<Event> {
    if events == [] then []
    else
      var ev := events[|events| - 1];
      Own(events[..|events| - 1]) + if Delivered(ev) then [] else [ev]
  }

  lemma {:induction false} OneMore(events: seq<Event>, ev: Event)
    ensures Own(events + [ev]) == Own(events) + if Delivered(ev) then [] else [ev]
    ensures AllReceived(events + [ev]) == AllReceived(events) + Received(ev)
  {
    assert (events + [ev])[..|events|] == events;
  }

  /** The visitor a visit takes up, and the process without it. */
  ghost function TakenUp(cfg: Config, r: nat, p: Process, ev: Event): (Process, Visitor)
    requires cfg.Valid() && r < cfg.g.ranks && LocallyEnabled(cfg, r, p, ev) && (ev.Pop? || ev.PopController? || ev.InitVisit?)
  {
    match ev
    case Pop(_, v) => (p.(queue := p.queue - multiset{v}), v)
    case PopController(_) => (p.(controllers := p.controllers[1..]), p.controllers[0])
    case InitVisit(_, u) => (p.(toInit := p.toInit - {u}), Visitor(u, u, u))
  }

  lemma {:induction false} TakenUpBegins(cfg: Config, r: nat, l: Local, ev: Event)
    requires cfg.Valid() && r < cfg.g.ranks && LocallyEnabled(cfg, r, l.proc, ev)
    requires ev.Pop? || ev.PopController? || ev.InitVisit?
    ensures Received(ev) == multiset{} && !Delivered(ev)
    ensures var (p, v) := TakenUp(cfg, r, l.proc, ev);
            && p.level == l.proc.level && ShapedProcess(cfg, p) && v.vertex < cfg.g.size && p.activity.Idle?
            && LocalStep(cfg, r, l, ev) == Local(BeginVisit(cfg, r, p, v), l.sent, l.announced)
  {
    hide BeginVisit;
    if ev.PopController? {
      assert l.proc.controllers[0] in l.proc.controllers;
    }
  }

  lemma {:induction false} InitialAt(cfg: Config, r: nat)
    requires cfg.Valid() && r < cfg.g.ranks
    ensures |InitialSystem(cfg).procs| == cfg.g.ranks && ShapedRank(cfg, r, InitialSystem(cfg).procs[r])
    ensures var v := Visitor(cfg.source, 0, cfg.source); var p := InitialProcess(cfg, r);
            if !cfg.algorithm.Cc? && r == 0 then
              (InitialSystem(cfg).procs[0], InitialSystem(cfg).net) == Traversal.QueueVisitor(cfg, 0, p, v)
            else
              InitialSystem(cfg).procs[r] == p && (r == 0 ==> InitialSystem(cfg).net == multiset{})
  {
    hide ShapedRank;
    InitialShaped(cfg);
  }

  lemma {:induction false} InitialShaped(cfg: Config)
    requires cfg.Valid()
    ensures Shape(cfg, InitialSystem(cfg))
  {
    hide InitialSystem, Sound, Ordered, Attentive;
    InitialInvariant(cfg);
  }

  class VisitorQueue {
    const cfg: Config
    const rank: nat
    const level: array<nat>
    const parent: array<nat>
    var localQueue: multiset<Visitor>
    var controllerQueue: seq<Visitor>
    var toInit: set<nat>
    var sent: multiset<Message>
    var announced: multiset<Message>
    var arrivals: seq<seq<Arrival>>
    var rounds: seq<seq<Arrival>>
    var inbox: seq<Arrival>
    ghost var activity: Activity
    ghost var history: seq<Event>
    ghost var start: Local
    ghost const due: multiset<Arrival>

    ghost predicate Fits() {
      && cfg.Valid() && rank < cfg.g.ranks
      && level.Length == parent.Length == cfg.g.size
      && level != parent
    }

    ghost function State(): (p: Process)
      reads this, level, parent
      requires Fits()
      ensures ShapedProcess(cfg, p) && p.level == level[..] && p.parent == parent[..]
      ensures p.queue == localQueue && p.controllers == controllerQueue && p.activity == activity
      ensures p.toInit == toInit
    {
      Process(level[..], parent[..], localQueue, controllerQueue, activity, toInit)
    }

    ghost function Here(): Local
      reads this, level, parent
      requires Fits()
    {
      Local(State(), sent, announced)
    }

    /** Everything the mailbox will hand out belongs here; what was due has arrived, is arriving or is still to come. */
    ghost predicate Accounts(arriving: multiset<Arrival>)
      reads this`history, this`inbox, this`arrivals, this`rounds
    {
      && AllArrive(cfg, rank, inbox) && AllArrive(cfg, rank, Flat(arrivals)) && AllArrive(cfg, rank, Flat(rounds))
      && AllReceived(history) + arriving + multiset(inbox) + multiset(Flat(arrivals)) + multiset(Flat(rounds)) == due
    }

    /** The history leads from the start to this state. */
    ghost predicate Valid()
      reads this, level, parent
      ensures Valid() ==> Fits()
    {
      Fits() && ShapedRank(cfg, rank, State()) && Replays(cfg, rank, start, history, Here()) && Accounts(multiset{})
    }

    ghost function ToCome(): nat
      reads this`inbox, this`arrivals, this`rounds
    {
      |inbox| + |Flat(arrivals)| + |Flat(rounds)|
    }

    ghost function Left(): nat
      reads this, level, parent
      requires Fits()
    {
      WorkLeft(cfg, rank, State(), ToCome())
    }

    /**
     A queue whose mailbox is going to hand out the given batches: one for each send, empty when the send does not exchange,
     and one for each time the last test does not find everything empty.
     */
    constructor (cfg: Config, rank: nat, arrivals: seq<seq<Arrival>>, rounds: seq<seq<Arrival>>)
      requires cfg.Valid() && rank < cfg.g.ranks
      requires AllArrive(cfg, rank, Flat(arrivals)) && AllArrive(cfg, rank, Flat(rounds))
      ensures Fresh() && this.cfg == cfg && this.rank == rank && this.arrivals == arrivals && this.rounds == rounds
      ensures due == multiset(Flat(arrivals)) + multiset(Flat(rounds))
    {
      hide Flat, Arrives;
      this.cfg, this.rank, this.arrivals, this.rounds := cfg, rank, arrivals, rounds;
      level := new nat[cfg.g.size](v requires 0 <= v < cfg.g.size => cfg.InitialLevel(rank, v));
      parent := new nat[cfg.g.size](v => 0);
      localQueue, controllerQueue, inbox := multiset{}, [], [];
      toInit := if cfg.algorithm.Cc? then set v | 0 <= v < cfg.g.size && cfg.g.master[v] == rank else {};
      sent, announced := multiset{}, multiset{};
      activity, history := Idle, [];
      due := multiset(Flat(arrivals)) + multiset(Flat(rounds));
    }

    /** Nothing has been done yet. */
    ghost predicate Fresh()
      reads this, level, parent
      ensures Fresh() ==> Fits()
    {
      && Fits() && State() == InitialProcess(cfg, rank) && sent == announced == multiset{}
      && history == [] && inbox == [] && Accounts(multiset{})
    }

    /** Rank 0 queues the source, which may already have to be sent, and exchange. */
    method QueueSource()
      requires Fresh()
      modifies this`localQueue, this`controllerQueue, this`sent, this`arrivals, this`inbox, this`history,
               this`start, level
      ensures Valid() && inbox == [] && activity.Idle?
      ensures start == Local(InitialSystem(cfg).procs[rank], if rank == 0 then InitialSystem(cfg).net else multiset{}, multiset{})
    {
      hide InitialSystem, Traversal.QueueVisitor, ShapedRank, Flat, AllArrive, AllReceived, Accounts;
      InitialAt(cfg, rank);
      var posted := false;
      if !cfg.algorithm.Cc? && rank == 0 {
        posted := QueueVisitor(Visitor(cfg.source, 0, cfg.source));
      }
      start := Here();
      if posted {
        Exchange();
      }
    }

    ghost method Note(ev: Event)
      requires Accounts(Received(ev))
      modifies this`history
      ensures Accounts(multiset{}) && history == old(history) + [ev]
      ensures Own(history) == Own(old(history)) + if Delivered(ev) then [] else [ev]
    {
      hide Received, AllReceived, AllArrive, Flat;
      OneMore(history, ev);
      history := history + [ev];
      assert AllReceived(history) + multiset{} == AllReceived(history);
    }

    /** An event has happened: it joins the history. */
    ghost method Record(before: Local, ev: Event)
      requires Fits() && Accounts(Received(ev)) && Replays(cfg, rank, start, history, before)
      requires LocallyEnabled(cfg, rank, before.proc, ev) && Here() == LocalStep(cfg, rank, before, ev)
      modifies this`history
      ensures Valid() && history == old(history) + [ev]
      ensures Own(history) == Own(old(history)) + if Delivered(ev) then [] else [ev]
      ensures Left() < WorkLeft(cfg, rank, before.proc, ToCome() + if Delivered(ev) then 1 else 0)
    {
      hide Replays, LocallyEnabled, LocalNext, Received, AllReceived, WorkLeft, Accounts, ShapedRank, Own;
      ReplaysMore(cfg, rank, start, history, before, ev);
      LocalShaped(cfg, rank, before.proc, ev);
      LocalWork(cfg, rank, before.proc, ev, ToCome());
      Note(ev);
    }

    /** pre_visit: compare, and lower in place. */
    method PreVisit(v: Visitor) returns (accepted: bool)
      requires Fits() && v.vertex < cfg.g.size
      modifies level
      ensures accepted == Traversal.PreVisit(old(State()), v)
      ensures State() == Forward(old(State()), v)
    {
      accepted := v.level < level[v.vertex];
      if accepted {
        level[v.vertex] := v.level;
      }
    }

    /** posted: a message has been given to the mailbox, whose send may exchange before it returns. */
    method QueueVisitor(v: Visitor) returns (posted: bool)
      requires Fits() && v.vertex < cfg.g.size
      modifies this`localQueue, this`sent, level
      ensures State() == Traversal.QueueVisitor(cfg, rank, old(State()), v).0
      ensures sent == old(sent) + Traversal.QueueVisitor(cfg, rank, old(State()), v).1
      ensures posted == (Traversal.QueueVisitor(cfg, rank, old(State()), v).1 != multiset{})
    {
      var master := cfg.g.master[v.vertex];
      posted := false;
      if v.vertex in cfg.g.delegates {
        var accepted := PreVisit(v);
        if accepted {
          if master == rank {
            localQueue := localQueue + multiset{v};
          } else {
            sent := sent + multiset{Message(master, v)};
            posted := true;
          }
        }
      } else if master == rank {
        var accepted := PreVisit(v);
        if accepted {
          localQueue := localQueue + multiset{v};
        }
      } else {
        sent := sent + multiset{Message(master, v)};
        posted := true;
      }
    }

    method HandleMailboxReceive(v: Visitor, bcast: bool)
      requires Fits() && Arrives(cfg, rank, Arrival(v, bcast))
      modifies this`localQueue, this`controllerQueue, level
      ensures !bcast ==> State() == Accept(old(State()), v)
      ensures bcast ==> State() == old(State()).(controllers := old(State()).controllers + [v])
    {
      if bcast {
        controllerQueue := controllerQueue + [v];
      } else {
        var accepted := PreVisit(v);
        if accepted {
          localQueue := localQueue + multiset{v};
        }
      }
    }

    /** The next message of an exchange is handled. */
    method ReceiveNext()
      requires Valid() && inbox != []
      modifies this`localQueue, this`controllerQueue, this`inbox, this`history, level
      ensures Valid() && inbox == old(inbox)[1..] && history == old(history) + [Handled(rank, old(inbox)[0])]
      ensures activity == old(activity) && Own(history) == Own(old(history)) && Left() < old(Left())
    {
      hide Replays, ShapedRank, Own, AllReceived, Received, WorkLeft, Accept, Flat, Arrives, LocallyEnabled,
           LocalStep, Accounts;
      var a := inbox[0];
      ghost var before := Here();
      NextArrives();
      ArrivalEvent(cfg, rank, before, a);
      TakeNext();
      HandleMailboxReceive(a.visitor, a.bcast);
      Record(before, Handled(rank, a));
    }

    lemma {:induction false} NextArrives()
      requires Accounts(multiset{}) && inbox != []
      ensures Arrives(cfg, rank, inbox[0])
    {
    }

    /** The first message of the exchange is taken out of it. */
    method TakeNext()
      requires Accounts(multiset{}) && inbox != []
      modifies this`inbox
      ensures inbox == old(inbox)[1..] && Accounts(Received(Handled(rank, old(inbox)[0])))
    {
      hide Arrives, AllReceived, Flat;
      FirstTaken(inbox);
      inbox := inbox[1..];
    }

    /** All messages of an exchange are handled, in order, whatever the rank is in the middle of. */
    method ReceiveAll()
      requires Valid()
      modifies this`localQueue, this`controllerQueue, this`inbox, this`history, level
      ensures Valid() && inbox == [] && activity == old(activity) && Own(history) == Own(old(history))
      ensures old(history) <= history && Left() <= old(Left())
    {
      hide *;
      while inbox != []
        invariant Valid() && activity == old(activity) && Own(history) == Own(old(history))
        invariant old(history) <= history && Left() <= old(Left())
        decreases |inbox|
      {
        ReceiveNext();
      }
    }

    /** An exchange begins: its batch is what the mailbox hands out next. */
    method TakeBatch()
      requires Accounts(multiset{}) && inbox == []
      modifies this`inbox, this`arrivals
      ensures Accounts(multiset{}) && ToCome() == old(ToCome()) && arrivals == Tail(old(arrivals))
    {
      hide Arrives, AllReceived, Flat;
      HeadAndTail(arrivals);
      ArriveParts(cfg, rank, Head(arrivals), Flat(Tail(arrivals)));
      inbox := Head(arrivals);
      arrivals := Tail(arrivals);
    }

    /** A send: it may exchange, and then hands out the next batch. */
    method Exchange()
      requires Valid() && inbox == []
      modifies this`localQueue, this`controllerQueue, this`inbox, this`arrivals, this`history, level
      ensures Valid() && inbox == [] && activity == old(activity) && Own(history) == Own(old(history))
      ensures old(history) <= history && Left() <= old(Left()) && arrivals == Tail(old(arrivals))
    {
      hide Replays, ShapedRank, AllReceived, WorkLeft, Flat, Head, Tail, Accounts;
      TakeBatch();
      ReceiveAll();
    }

    /** The test and the writes of visit, up to the loop over edges. */
    method EnterVisit(v: Visitor) returns (entered: bool)
      requires Fits() && v.vertex < cfg.g.size && activity.Idle?
      modifies this`activity, level, parent
      ensures State() == BeginVisit(cfg, rank, old(State()), v)
      ensures entered == State().activity.Busy?
    {
      entered := v.level <= level[v.vertex];
      if entered {
        if !cfg.algorithm.Sssp? {
          level[v.vertex] := v.level;
        }
        if cfg.algorithm.Bfs? {
          parent[v.vertex] := v.parent;
        }
        activity := Busy(v, 0, v.vertex in cfg.g.delegates && cfg.g.master[v.vertex] == rank);
      }
    }

    /** One iteration of the loop over edges; a message it sends may bring others in. */
    method RelaxOne(v: Visitor, i: nat)
      requires Valid() && inbox == [] && activity.Busy? && activity.visitor == v && activity.next == i
      requires v.vertex < cfg.g.size && i < |cfg.g.edges[rank][v.vertex]|
      modifies this`localQueue, this`controllerQueue, this`sent, this`arrivals, this`inbox, this`activity,
               this`history, level
      ensures Valid() && inbox == [] && activity == old(activity).(next := i + 1)
      ensures old(history) <= history && Own(history) == Own(old(history)) + [Continue(rank)] && Left() < old(Left())
    {
      hide Replays, ShapedRank, Own, AllReceived, Received, WorkLeft, Flat, Accounts, LocallyEnabled,
           LocalStep, Traversal.QueueVisitor;
      ghost var before := Here();
      EdgeEnabled(cfg, rank, before, v, i);
      var e := cfg.g.edges[rank][v.vertex][i];
      activity := activity.(next := i + 1);
      var posted := false;
      if cfg.Emits(v.level, e) {
        posted := QueueVisitor(Visitor(e.target, cfg.Relax(v.level, e), v.vertex));
      }
      Record(before, Continue(rank));
      if posted {
        Exchange();
      }
    }

    /** The loop over this rank's edges of the visited vertex. */
    method RelaxEdges(v: Visitor)
      requires Valid() && inbox == [] && activity.Busy? && activity.visitor == v && activity.next == 0
      requires v.vertex < cfg.g.size
      modifies this`localQueue, this`controllerQueue, this`sent, this`arrivals, this`inbox, this`activity,
               this`history, level
      ensures Valid() && inbox == [] && activity == old(activity).(next := |cfg.g.edges[rank][v.vertex]|)
      ensures old(history) <= history && Left() <= old(Left())
      ensures Own(history) == Own(old(history)) + Continues(rank, |cfg.g.edges[rank][v.vertex]|)
    {
      hide Replays, ShapedRank, Own, WorkLeft, Accounts;
      var n := |cfg.g.edges[rank][v.vertex]|;
      var i := 0;
      assert Own(history) == Own(history) + Continues(rank, 0);
      while i < n
        invariant i <= n && Valid() && inbox == [] && activity == old(activity).(next := i)
        invariant old(history) <= history && Left() <= old(Left())
        invariant Own(history) == Own(old(history)) + Continues(rank, i)
      {
        RelaxOne(v, i);
        i := i + 1;
      }
    }

    /** v has been taken out of the place it waited in; ev is the event that takes it up. */
    ghost predicate TakesUp(before: Local, ev: Event, v: Visitor)
      reads this, level, parent
      requires Fits()
    {
      && Accounts(multiset{}) && inbox == [] && Replays(cfg, rank, start, history, before)
      && LocallyEnabled(cfg, rank, before.proc, ev) && (ev.Pop? || ev.PopController? || ev.InitVisit?)
      && TakenUp(cfg, rank, before.proc, ev) == (State(), v) && sent == before.sent && announced == before.announced
    }

    method StartVisit(v: Visitor, ghost before: Local, ghost ev: Event) returns (entered: bool)
      requires Fits() && TakesUp(before, ev, v)
      modifies this`activity, this`history, level, parent
      ensures Valid() && inbox == [] && history == old(history) + [ev] && Own(history) == Own(old(history)) + [ev]
      ensures v.vertex < cfg.g.size && entered == (v.level <= before.proc.level[v.vertex])
      ensures if entered then activity == Busy(v, 0, v.vertex in cfg.g.delegates && cfg.g.master[v.vertex] == rank)
              else activity.Idle?
      ensures Left() < WorkLeft(cfg, rank, before.proc, ToCome())
    {
      hide Replays, ShapedRank, Own, AllReceived, Received, WorkLeft, Accounts, LocallyEnabled, LocalStep, TakenUp;
      TakenUpBegins(cfg, rank, before, ev);
      entered := EnterVisit(v);
      Record(before, ev);
    }

    /** The end of the edges; a master has something to announce. */
    method FinishEdges(v: Visitor) returns (master: bool)
      requires Valid() && inbox == [] && v.vertex < cfg.g.size
      requires activity == Busy(v, |cfg.g.edges[rank][v.vertex]|, v.vertex in cfg.g.delegates && cfg.g.master[v.vertex] == rank)
      modifies this`announced, this`activity, this`history
      ensures Valid() && inbox == [] && activity.Idle? && history == old(history) + [Finish(rank)]
      ensures Own(history) == Own(old(history)) + [Finish(rank)] && Left() < old(Left())
      ensures announced == old(announced) + if master then Broadcast(cfg.g.ranks, rank, v) else multiset{}
      ensures master == (v.vertex in cfg.g.delegates && cfg.g.master[v.vertex] == rank)
    {
      hide Replays, ShapedRank, Own, AllReceived, Received, WorkLeft, Accounts, LocallyEnabled, LocalStep, Broadcast;
      ghost var before := Here();
      FinishEnabled(cfg, rank, before, v);
      master := v.vertex in cfg.g.delegates && cfg.g.master[v.vertex] == rank;
      activity := Idle;
      if master {
        announced := announced + Broadcast(cfg.g.ranks, rank, v);
      }
      Record(before, Finish(rank));
    }

    method EndVisit(v: Visitor)
      requires Valid() && inbox == [] && v.vertex < cfg.g.size
      requires activity == Busy(v, |cfg.g.edges[rank][v.vertex]|, v.vertex in cfg.g.delegates && cfg.g.master[v.vertex] == rank)
      modifies this`localQueue, this`controllerQueue, this`announced, this`arrivals, this`inbox, this`activity,
               this`history, level
      ensures Valid() && inbox == [] && activity.Idle? && old(history) <= history
      ensures Own(history) == Own(old(history)) + [Finish(rank)] && Left() < old(Left())
    {
      hide *;
      var master := FinishEdges(v);
      if master {
        Exchange();
      }
    }

    /**
     A visit with whatever arrives on the way: the event that takes it up, and if its label still holds, its edges
     in turn, its end, and at a master the announcement to the other ranks.
     */
    method DoVisit(v: Visitor, ghost before: Local, ghost ev: Event)
      requires Fits() && TakesUp(before, ev, v)
      modifies this`localQueue, this`controllerQueue, this`sent, this`announced, this`arrivals, this`inbox,
               this`activity,
               this`history, level, parent
      ensures Valid() && inbox == [] && activity.Idle? && old(history) + [ev] <= history && v.vertex < cfg.g.size
      ensures Own(history) == Own(old(history)) + [ev] + VisitEvents(cfg, rank, before.proc, v)
      ensures Left() < WorkLeft(cfg, rank, before.proc, old(ToCome()))
    {
      hide Replays, ShapedRank, Own, WorkLeft, Accounts, TakesUp;
      var entered := StartVisit(v, before, ev);
      if entered {
        RelaxEdges(v);
        EndVisit(v);
        assert Own(history) == Own(old(history)) + [ev] + (Continues(rank, |cfg.g.edges[rank][v.vertex]|) + [Finish(rank)]);
      } else {
        assert Own(history) == Own(old(history)) + [ev] + [];
      }
    }

    /** Controllers visit whatever their masters announced, first come first served, until none is left. */
    method ProcessPendingControllers() returns (ghost more: seq<Event>)
      requires Valid() && inbox == [] && activity.Idle?
      modifies this`localQueue, this`controllerQueue, this`sent, this`announced, this`arrivals, this`inbox,
               this`activity,
               this`history, level, parent
      ensures Valid() && inbox == [] && activity.Idle? && controllerQueue == [] && old(history) <= history
      ensures Own(history) == Own(old(history)) + more && DrainEvents(more)
      ensures Left() <= old(Left()) && (old(controllerQueue) != [] ==> Left() < old(Left()))
      ensures old(controllerQueue) == [] ==> history == old(history) && localQueue == old(localQueue)
    {
      hide Replays, ShapedRank, Own, WorkLeft, Accounts, TakenUp, LocallyEnabled, VisitEvents;
      more := [];
      while controllerQueue != []
        invariant Valid() && inbox == [] && activity.Idle? && old(history) <= history
        invariant Own(history) == Own(old(history)) + more && DrainEvents(more)
        invariant Left() <= old(Left()) && (history != old(history) ==> Left() < old(Left()))
        invariant history == old(history) ==> localQueue == old(localQueue) && controllerQueue == old(controllerQueue)
        invariant old(controllerQueue) == [] ==> controllerQueue == [] && history == old(history)
        decreases Left()
      {
        ghost var now := VisitController();
        more := more + now;
      }
    }

    /** The first of the announced visitors. */
    method VisitController() returns (ghost now: seq<Event>)
      requires Valid() && inbox == [] && activity.Idle? && controllerQueue != []
      modifies this`localQueue, this`controllerQueue, this`sent, this`announced, this`arrivals, this`inbox,
               this`activity,
               this`history, level, parent
      ensures Valid() && inbox == [] && activity.Idle? && old(history) < history && Left() < old(Left())
      ensures Own(history) == Own(old(history)) + now && DrainEvents(now)
    {
      hide Replays, ShapedRank, Own, WorkLeft, Accounts, VisitEvents;
      ghost var before := Here();
      ControllerEnabled(cfg, rank, before.proc);
      var v := controllerQueue[0];
      controllerQueue := controllerQueue[1..];
      DoVisit(v, before, PopController(rank));
      now := [PopController(rank)] + VisitEvents(cfg, rank, before.proc, v);
      VisitDrains(cfg, rank, before.proc, v);
      assert Own(old(history)) + [PopController(rank)] + VisitEvents(cfg, rank, before.proc, v) == Own(old(history)) + now;
    }

    /** A vertex of the initial sweep is visited with its own label. */
    method DoInitVisit(u: nat)
      requires Valid() && inbox == [] && activity.Idle? && u in toInit
      modifies this`localQueue, this`controllerQueue, this`toInit, this`sent, this`announced, this`arrivals,
               this`inbox,
               this`activity, this`history, level, parent
      ensures Valid() && inbox == [] && activity.Idle? && old(history) <= history && Left() < old(Left())
      ensures u < cfg.g.size && toInit == old(toInit) - {u}
      ensures Own(history)
              == Own(old(history)) + [InitVisit(rank, u)] + VisitEvents(cfg, rank, old(State()), Visitor(u, u, u))
    {
      hide Replays, Own, WorkLeft, Accounts, VisitEvents;
      ghost var before := Here();
      toInit := toInit - {u};
      DoVisit(Visitor(u, u, u), before, InitVisit(rank, u));
    }

    /** pop_top, of a queue that is not empty, and the visit. */
    method PopAndVisit()
      requires Valid() && inbox == [] && activity.Idle? && localQueue != multiset{}
      modifies this`localQueue, this`controllerQueue, this`sent, this`announced, this`arrivals, this`inbox,
               this`activity,
               this`history, level, parent
      ensures Valid() && inbox == [] && activity.Idle? && old(history) <= history && Left() < old(Left())
    {
      hide Replays, Own, WorkLeft, Accounts, VisitEvents;
      var v :| v in localQueue;
      ghost var before := Here();
      localQueue := localQueue - multiset{v};
      DoVisit(v, before, Pop(rank, v));
    }

    /**
     The inner loop: test both queues, visit the controllers, take up a visitor. It ends with both queues empty, or fails
     because there is no visitor to take up; then the queues were not both empty at the test, and everything since
     has been a controller's visit or an arrival.
     */
    method VisitQueued() returns (failed: bool, ghost earlier: seq<Event>, ghost seen: Local, ghost since: seq<Event>)
      requires Valid() && inbox == [] && activity.Idle?
      modifies this`localQueue, this`controllerQueue, this`sent, this`announced, this`arrivals, this`inbox,
               this`activity,
               this`history, level, parent
      ensures Valid() && inbox == [] && activity.Idle? && old(history) <= history && Left() <= old(Left())
      ensures localQueue == multiset{} && controllerQueue == []
      ensures failed ==> earlier <= history && Replays(cfg, rank, start, earlier, seen)
                         && (seen.proc.queue != multiset{} || seen.proc.controllers != [])
                         && Own(history) == Own(earlier) + since && DrainEvents(since)
    {
      hide Replays, ShapedRank, Own, WorkLeft, Accounts;
      failed, earlier, seen, since := false, history, Here(), [];
      while localQueue != multiset{} || controllerQueue != []
        invariant Valid() && inbox == [] && activity.Idle? && old(history) <= history && Left() <= old(Left())
        decreases Left()
      {
        earlier, seen := history, Here();
        since := ProcessPendingControllers();
        if localQueue == multiset{} {
          failed := true;
          return;
        }
        PopAndVisit();
      }
    }

    /** The mailbox's answer to the last test: it exchanges, and says whether nothing was queued anywhere. */
    method GlobalEmpty() returns (zero: bool)
      requires Valid() && inbox == [] && activity.Idle?
      modifies this`localQueue, this`controllerQueue, this`inbox, this`rounds, this`history, level
      ensures Valid() && inbox == [] && activity.Idle? && old(history) <= history && Left() <= old(Left())
      ensures zero == (old(rounds) == []) && rounds == if zero then [] else old(rounds)[1..]
      ensures zero ==> history == old(history) && localQueue == old(localQueue) && controllerQueue == old(controllerQueue)
    {
      hide Replays, ShapedRank, Own, WorkLeft, Accounts;
      zero := rounds == [];
      if !zero {
        TakeRound();
        ReceiveAll();
      }
    }

    method TakeRound()
      requires Accounts(multiset{}) && inbox == [] && rounds != []
      modifies this`inbox, this`rounds
      ensures Accounts(multiset{}) && ToCome() == old(ToCome()) && rounds == old(rounds)[1..]
    {
      hide Arrives, AllReceived;
      HeadAndTail(rounds);
      ArriveParts(cfg, rank, rounds[0], Flat(rounds[1..]));
      inbox := rounds[0];
      rounds := rounds[1..];
      assert Flat(old(rounds)) == inbox + Flat(rounds);
    }

    /** One turn of the initial sweep: a delegate this rank is the master of, and a vertex of its own. */
    method Sweep()
      requires Valid() && inbox == [] && activity.Idle?
      modifies this`localQueue, this`controllerQueue, this`toInit, this`sent, this`announced, this`arrivals,
               this`inbox,
               this`activity, this`history, level, parent
      ensures Valid() && inbox == [] && activity.Idle? && old(history) <= history
      ensures Left() <= old(Left()) && (old(toInit) != {} ==> Left() < old(Left()))
      ensures toInit <= old(toInit) && TurnOf(cfg, old(toInit), old(toInit) - toInit)
    {
      hide Replays, ShapedRank, Own, WorkLeft, Accounts, VisitEvents;
      if u :| u in toInit && u in cfg.g.delegates {
        DoInitVisit(u);
      }
      if u :| u in toInit && u !in cfg.g.delegates {
        DoInitVisit(u);
      }
    }

    /**
     The whole loop of a traversal on this rank: initial visits of one delegate and one vertex of its own at a time, then
     whatever is queued, until nothing is left to start and the mailbox has nothing for anybody.
     */
    method InitVisitorTraversal() returns (failed: bool, ghost earlier: seq<Event>, ghost seen: Local, ghost since: seq<Event>)
      requires Fresh()
      modifies this`localQueue, this`controllerQueue, this`toInit, this`sent, this`announced, this`arrivals,
               this`rounds,
               this`inbox, this`activity, this`history, this`start, level, parent
      ensures Valid() && inbox == [] && activity.Idle?
      ensures start == Local(InitialSystem(cfg).procs[rank], if rank == 0 then InitialSystem(cfg).net else multiset{}, multiset{})
      ensures localQueue == multiset{} && controllerQueue == []
      ensures !failed ==> toInit == {} && rounds == []
      ensures failed ==> earlier <= history && Replays(cfg, rank, start, earlier, seen)
                         && (seen.proc.queue != multiset{} || seen.proc.controllers != [])
                         && Own(history) == Own(earlier) + since && DrainEvents(since)
    {
      hide *;
      QueueSource();
      failed, earlier, seen, since := false, history, Here(), [];
      ghost var begun := start;
      while true
        invariant Valid() && inbox == [] && activity.Idle? && start == begun
        decreases Left(), |rounds|
      {
        Sweep();
        ghost var more := ProcessPendingControllers();
        failed, earlier, seen, since := VisitQueued();
        if failed {
          return;
        }
        if toInit == {} {
          var zero := GlobalEmpty();
          if zero {
            return;
          }
        }
      }
    }
  }

  /** One turn of the sweep takes one delegate and one other vertex, as long as there are any. */
  ghost predicate TurnOf(cfg: Config, toInit: set<nat>, taken: set<nat>) {
    && ((exists u :: u in toInit && u in cfg.g.delegates) ==> exists u :: u in taken && u in cfg.g.delegates)
    && ((exists u :: u in toInit && u !in cfg.g.delegates) ==> exists u :: u in taken && u !in cfg.g.delegates)
    && forall u, w | u in taken && w in taken && (u in cfg.g.delegates <==> w in cfg.g.delegates) :: u == w
  }

  /** Events of a drain: controllers' visits. */
  predicate DrainEvents(events: seq<Event>) {
    forall i | 0 <= i < |events| :: events[i].PopController? || events[i].Continue? || events[i].Finish?
  }

  lemma {:induction false} VisitDrains(cfg: Config, r: nat, p: Process, v: Visitor)
    requires cfg.Valid() && r < cfg.g.ranks && ShapedProcess(cfg, p) && v.vertex < cfg.g.size
    ensures DrainEvents([PopController(r)] + VisitEvents(cfg, r, p, v))
  {
  }

  lemma {:induction false} ControllerEnabled(cfg: Config, r: nat, p: Process)
    requires cfg.Valid() && r < cfg.g.ranks && ShapedRank(cfg, r, p) && p.activity.Idle? && p.controllers != []
    ensures LocallyEnabled(cfg, r, p, PopController(r)) && p.controllers[0].vertex < cfg.g.size
    ensures TakenUp(cfg, r, p, PopController(r)) == (p.(controllers := p.controllers[1..]), p.controllers[0])
  {
    assert p.controllers[0] in p.controllers;
  }

  /** One event for each of the first n edges. */
  function Continues(r: nat, n: nat): seq<Event> {
    seq(n, _ => Continue(r))
  }

  lemma {:induction false} FinishEnabled(cfg: Config, r: nat, l: Local, v: Visitor)
    requires cfg.Valid() && r < cfg.g.ranks && ShapedRank(cfg, r, l.proc) && v.vertex < cfg.g.size
    requires l.proc.activity.Busy? && l.proc.activity.visitor == v
    requires l.proc.activity.next == |cfg.g.edges[r][v.vertex]|
    ensures LocallyEnabled(cfg, r, l.proc, Finish(r)) && Received(Finish(r)) == multiset{} && !Delivered(Finish(r))
    ensures LocalStep(cfg, r, l, Finish(r))
              == Local(l.proc.(activity := Idle), l.sent,
                       if l.proc.activity.announce then l.announced + Broadcast(cfg.g.ranks, r, v) else l.announced)
  {
    hide Broadcast;
  }

  /** What follows the event that takes up v. */
  ghost function VisitEvents(cfg: Config, r: nat, p: Process, v: Visitor): seq<Event>
    requires cfg.Valid() && r < cfg.g.ranks && ShapedProcess(cfg, p) && v.vertex < cfg.g.size
  {
    if v.level <= p.level[v.vertex] then Continues(r, |cfg.g.edges[r][v.vertex]|) + [Finish(r)] else []
  }

  lemma {:induction false} EdgeEnabled(cfg: Config, r: nat, l: Local, v: Visitor, i: nat)
    requires cfg.Valid() && r < cfg.g.ranks && ShapedRank(cfg, r, l.proc) && l.proc.activity.Busy?
    requires l.proc.activity.visitor == v && l.proc.activity.next == i && v.vertex < cfg.g.size
    requires i < |cfg.g.edges[r][v.vertex]|
    ensures LocallyEnabled(cfg, r, l.proc, Continue(r)) && cfg.g.edges[r][v.vertex][i].target < cfg.g.size
    ensures Received(Continue(r)) == multiset{} && !Delivered(Continue(r))
    ensures var e := cfg.g.edges[r][v.vertex][i];
            var p1 := l.proc.(activity := l.proc.activity.(next := i + 1));
            LocalStep(cfg, r, l, Continue(r)) ==
              if cfg.Emits(v.level, e) then
                var (p', m) := Traversal.QueueVisitor(cfg, r, p1, Visitor(e.target, cfg.Relax(v.level, e), v.vertex));
                Local(p', l.sent + m, l.announced)
              else
                Local(p1, l.sent, l.announced)
  {
    hide Traversal.QueueVisitor;
    assert l.sent + multiset{} == l.sent;
  }

  lemma {:induction false} ArriveParts(cfg: Config, r: nat, xs: seq<Arrival>, ys: seq<Arrival>)
    requires AllArrive(cfg, r, xs + ys)
    ensures AllArrive(cfg, r, xs) && AllArrive(cfg, r, ys)
  {
    hide Arrives;
    forall i | 0 <= i < |xs|
      ensures Arrives(cfg, r, xs[i])
    {
      assert (xs + ys)[i] == xs[i];
    }
    forall i | 0 <= i < |ys|
      ensures Arrives(cfg, r, ys[i])
    {
      assert (xs + ys)[|xs| + i] == ys[i];
    }
  }

  lemma {:induction false} ArrivalEvent(cfg: Config, r: nat, l: Local, a: Arrival)
    requires cfg.Valid() && r < cfg.g.ranks && ShapedRank(cfg, r, l.proc) && Arrives(cfg, r, a)
    ensures a.visitor.vertex < |l.proc.level| && Delivered(Handled(r, a)) && Received(Handled(r, a)) == multiset{a}
    ensures LocallyEnabled(cfg, r, l.proc, Handled(r, a))
    ensures LocalStep(cfg, r, l, Handled(r, a)).sent == l.sent
    ensures LocalStep(cfg, r, l, Handled(r, a)).announced == l.announced
    ensures LocalStep(cfg, r, l, Handled(r, a)).proc
              == if a.bcast then l.proc.(controllers := l.proc.controllers + [a.visitor]) else Accept(l.proc, a.visitor)
  {
    hide Accept;
  }

  lemma {:induction false} FirstTaken(inbox: seq<Arrival>)
    requires inbox != []
    ensures multiset(inbox) == multiset{inbox[0]} + multiset(inbox[1..])
  {
    assert inbox == [inbox[0]] + inbox[1..];
  }
}
