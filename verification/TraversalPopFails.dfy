/**
 A traversal in which a rank takes a visitor from an empty queue. Rank 1 is in its last local visit when a send
 exchanges; what arrives is the announcement of a delegate that has no edges there. The inner test sees the
 announced visitor, the drain visits it without effect, and the pop finds nothing.
 */
module TraversalPopFails {
  import opened Graphs
  import opened Traversal
  import opened TraversalProgress
  import opened TraversalExactness
  import opened TraversalSteps
  import opened TraversalSchedule

  // --- Moves spelled out ---------------------------------------------------------------------------------

  /** From a reachable state the move leads to t', which is reachable again. */
  ghost predicate Goes(cfg: Config, t: Schedule, mv: Move, t': Schedule)
    requires cfg.Valid()
  {
    |t.at| == cfg.g.ranks && Can(cfg, t, mv) && Moved(cfg, t, mv) == t' && Kept(cfg, t')
  }

  lemma {:induction false} KeptSystem(cfg: Config, t: Schedule)
    requires cfg.Valid() && Kept(cfg, t)
    ensures Invariant(cfg, t.system)
  {
  }

  lemma {:induction false} ActedQuietly(cfg: Config, t: Schedule, ev: Event)
    requires cfg.Valid() && |t.at| == cfg.g.ranks && CanAct(cfg, t, ev, false)
    requires Queued(cfg, t.system, ev) == NO_MAIL && !Delivery(ev)
    ensures Acted(cfg, t, ev, false)
              == t.(system := Next(cfg, t.system, ev), at := t.at[Actor(ev) := PlaceAfter(t.at[Actor(ev)], ev)])
  {
    hide InPlace, Shape, Enabled, Next, Queued, PlaceAfter, Handed;
    assert Handed(ev) == NO_MAIL by {
      NextMail(cfg, t.system, ev);
    }
    NoMail(t.now.net, multiset{}, multiset{});
    NoMail(t.now.bcasts, multiset{}, multiset{});
    NoMail(t.next.net, multiset{}, multiset{});
    NoMail(t.next.bcasts, multiset{}, multiset{});
  }

  /** An event that neither queues nor hands out a message. */
  lemma {:induction false} QuietGoes(cfg: Config, t: Schedule, ev: Event, s': System)
    requires cfg.Valid() && Kept(cfg, t) && Leads(cfg, t.system, ev, s')
    requires Queued(cfg, t.system, ev) == NO_MAIL && !Delivery(ev)
    requires |t.at| == cfg.g.ranks && Actor(ev) < cfg.g.ranks && InPlace(cfg, t, ev)
    ensures Goes(cfg, t, Act(ev, false), t.(system := s', at := t.at[Actor(ev) := PlaceAfter(t.at[Actor(ev)], ev)]))
  {
    hide Kept, Invariant, Shape, Enabled, Next, InPlace, Queued, PlaceAfter, Acted;
    ActKept(cfg, t, ev, false);
    ActedQuietly(cfg, t, ev);
  }

  /** A send that exchanges. */
  lemma {:induction false} SendGoes(cfg: Config, t: Schedule, ev: Event, s': System, now: Mail)
    requires cfg.Valid() && Kept(cfg, t) && Leads(cfg, t.system, ev, s') && (ev.Continue? || ev.Finish?)
    requires Queued(cfg, t.system, ev) != NO_MAIL && now == Plus(t.now, Queued(cfg, t.system, ev))
    requires |t.at| == cfg.g.ranks && Actor(ev) < cfg.g.ranks && Actor(ev) !in t.inside && Actor(ev) !in t.ahead
    ensures Goes(cfg, t, Act(ev, true), t.(system := s', inside := t.inside + {Actor(ev)}, now := now, carried := true))
  {
    hide Kept, Invariant, Shape, Enabled, Next, Queued;
    ActKept(cfg, t, ev, true);
    assert t.now.net - multiset{} == t.now.net && t.now.bcasts - multiset{} == t.now.bcasts;
    assert t.at[Actor(ev) := t.at[Actor(ev)]] == t.at;
  }

  lemma {:induction false} AnnouncedGoes(cfg: Config, t: Schedule, m: Message, s': System)
    requires cfg.Valid() && Kept(cfg, t) && Leads(cfg, t.system, DeliverBroadcast(m), s')
    requires |t.at| == cfg.g.ranks && m.dest < cfg.g.ranks && m in t.now.bcasts
    requires m.dest in t.inside && m.dest !in t.ahead
    ensures Goes(cfg, t, Act(DeliverBroadcast(m), false),
                 t.(system := s', now := Mail(t.now.net, t.now.bcasts - multiset{m})))
  {
    hide Kept, Invariant, Shape, Enabled, Next;
    ActKept(cfg, t, DeliverBroadcast(m), false);
    assert t.now.net - multiset{} + multiset{} == t.now.net;
    assert t.now.bcasts - multiset{m} + multiset{} == t.now.bcasts - multiset{m};
    assert t.at[m.dest := t.at[m.dest]] == t.at;
  }

  lemma {:induction false} ProceedGoes(cfg: Config, t: Schedule, r: nat, at: Position)
    requires cfg.Valid() && Kept(cfg, t) && |t.at| == cfg.g.ranks && CanProceed(cfg, t, r)
    requires !t.at[r].Outer? && PlaceNext(t, r) == at
    ensures Goes(cfg, t, Proceed(r), t.(at := t.at[r := at]))
  {
    hide Kept;
    ProceedKept(cfg, t, r);
  }

  /** One rank leaves, another is still inside. */
  lemma {:induction false} LeaveGoes(cfg: Config, t: Schedule, r: nat, x: nat)
    requires cfg.Valid() && Kept(cfg, t) && |t.at| == cfg.g.ranks && CanLeave(cfg, t, r) && !t.at[r].Outer?
    requires x < cfg.g.ranks && x != r && x !in t.ahead
    ensures Goes(cfg, t, Leave(r), t.(inside := t.inside - {r}, ahead := t.ahead + {r}))
  {
    hide Kept;
    LeaveKept(cfg, t, r);
    assert t.at[r := t.at[r]] == t.at;
    assert x !in t.ahead + {r};
  }

  ghost predicate Trace(cfg: Config, ts: seq<Schedule>, moves: seq<Move>)
    requires cfg.Valid()
  {
    |ts| == |moves| + 1 && forall i | 0 <= i < |moves| :: Goes(cfg, ts[i], moves[i], ts[i + 1])
  }

  lemma {:induction false} TraceAt(cfg: Config, ts: seq<Schedule>, moves: seq<Move>, k: nat)
    requires cfg.Valid() && Trace(cfg, ts, moves) && k <= |moves|
    ensures |ts| == |moves| + 1 && (k < |moves| ==> Goes(cfg, ts[k], moves[k], ts[k + 1]))
  {
    hide Goes;
  }

  lemma {:induction false} GoesScheduled(cfg: Config, t: Schedule, mv: Move, t1: Schedule, rest: seq<Move>, t': Schedule)
    requires cfg.Valid() && Goes(cfg, t, mv, t1) && |t1.at| == cfg.g.ranks && Scheduled(cfg, t1, rest, t')
    ensures |t.at| == cfg.g.ranks && Scheduled(cfg, t, [mv] + rest, t')
  {
    hide Can, Moved, Kept;
    assert ([mv] + rest)[1..] == rest;
  }

  lemma {:induction false} TraceScheduled(cfg: Config, ts: seq<Schedule>, moves: seq<Move>, k: nat)
    requires cfg.Valid() && Trace(cfg, ts, moves) && k <= |moves| && |ts[|moves|].at| == cfg.g.ranks
    ensures |ts| == |moves| + 1 && |ts[k].at| == cfg.g.ranks && Scheduled(cfg, ts[k], moves[k..], ts[|moves|])
    decreases |moves| - k
  {
    hide *;
    TraceAt(cfg, ts, moves, k);
    if k < |moves| {
      TraceScheduled(cfg, ts, moves, k + 1);
      GoesScheduled(cfg, ts[k], moves[k], ts[k + 1], moves[k + 1..], ts[|moves|]);
      assert [moves[k]] + moves[k + 1..] == moves[k..];
    } else {
      assert moves[k..] == [];
      NoMoves(cfg, ts[k]);
    }
  }

  lemma {:induction false} NoMoves(cfg: Config, t: Schedule)
    requires cfg.Valid() && |t.at| == cfg.g.ranks
    ensures Scheduled(cfg, t, [], t)
  {
  }

  // --- The input ---------------------------------------------------------------------------------------------

  const TOP: nat := 100

  /**
   Connected components on two ranks, each vertex owned by the rank that is its label modulo two. Vertex 0 has the
   highest degree and is a delegate, its edges 0-2, 0-4 and 0-6 all on rank 0; the other edges are 1-3 and 2-3.
   */
  const CFG: Config :=
    Config(Graph(2, 7, {0}, [0, 1, 0, 1, 0, 1, 0],
                 [[[Edge(2, 1), Edge(4, 1), Edge(6, 1)], [], [Edge(0, 1), Edge(3, 1)], [], [Edge(0, 1)], [], [Edge(0, 1)]],
                  [[], [Edge(3, 1)], [], [Edge(1, 1), Edge(2, 1)], [], [], []]]), Cc, 0, TOP)

  const A: Visitor := Visitor(0, 0, 0)
  const B2: Visitor := Visitor(2, 0, 0)
  const B4: Visitor := Visitor(4, 0, 0)
  const B6: Visitor := Visitor(6, 0, 0)
  const C: Visitor := Visitor(1, 1, 1)
  const D: Visitor := Visitor(3, 1, 1)
  const E: Visitor := Visitor(2, 1, 3)

  ghost function Rank(level: seq<nat>, queue: multiset<Visitor>, controllers: seq<Visitor>, a: Activity,
                      toInit: set<nat>): Process {
    Process(level, [0, 0, 0, 0, 0, 0, 0], queue, controllers, a, toInit)
  }

  /** Rank 0 visits its delegate and announces it. */
  ghost function Zero(k: nat): Process {
    match k
    case 0 => Rank([0, TOP, 2, TOP, 4, TOP, 6], multiset{}, [], Idle, {0, 2, 4, 6})
    case 1 => Rank([0, TOP, 2, TOP, 4, TOP, 6], multiset{}, [], Busy(A, 0, true), {2, 4, 6})
    case 2 => Rank([0, TOP, 0, TOP, 4, TOP, 6], multiset{B2}, [], Busy(A, 1, true), {2, 4, 6})
    case 3 => Rank([0, TOP, 0, TOP, 0, TOP, 6], multiset{B2, B4}, [], Busy(A, 2, true), {2, 4, 6})
    case 4 => Rank([0, TOP, 0, TOP, 0, TOP, 0], multiset{B2, B4, B6}, [], Busy(A, 3, true), {2, 4, 6})
    case _ => Rank([0, TOP, 0, TOP, 0, TOP, 0], multiset{B2, B4, B6}, [], Idle, {2, 4, 6})
  }

  /** Rank 1 visits vertex 1, then vertex 3, and then the announced delegate. */
  ghost function One(k: nat): Process {
    match k
    case 0 => Rank([TOP, 1, TOP, 3, TOP, 5, TOP], multiset{}, [], Idle, {1, 3, 5})
    case 1 => Rank([TOP, 1, TOP, 3, TOP, 5, TOP], multiset{}, [], Busy(C, 0, false), {3, 5})
    case 2 => Rank([TOP, 1, TOP, 1, TOP, 5, TOP], multiset{D}, [], Busy(C, 1, false), {3, 5})
    case 3 => Rank([TOP, 1, TOP, 1, TOP, 5, TOP], multiset{D}, [], Idle, {3, 5})
    case 4 => Rank([TOP, 1, TOP, 1, TOP, 5, TOP], multiset{}, [], Busy(D, 0, false), {3, 5})
    case 5 => Rank([TOP, 1, TOP, 1, TOP, 5, TOP], multiset{}, [], Busy(D, 1, false), {3, 5})
    case 6 => Rank([TOP, 1, TOP, 1, TOP, 5, TOP], multiset{}, [], Busy(D, 2, false), {3, 5})
    case 7 => Rank([TOP, 1, TOP, 1, TOP, 5, TOP], multiset{}, [A], Busy(D, 2, false), {3, 5})
    case 8 => Rank([TOP, 1, TOP, 1, TOP, 5, TOP], multiset{}, [A], Idle, {3, 5})
    case 9 => Rank([0, 1, TOP, 1, TOP, 5, TOP], multiset{}, [], Busy(A, 0, false), {3, 5})
    case _ => Rank([0, 1, TOP, 1, TOP, 5, TOP], multiset{}, [], Idle, {3, 5})
  }

  ghost function Sys(p0: nat, p1: nat, mail: Mail): System {
    System([Zero(p0), One(p1)], mail.net, mail.bcasts)
  }

  ghost function At(p0: nat, p1: nat, at0: Position, at1: Position, inside: set<nat>, ahead: set<nat>,
                    now: Mail): Schedule {
    Schedule(Sys(p0, p1, now), [at0, at1], inside, ahead, now, NO_MAIL, p0 >= 5, false)
  }

  const QUIET: Mail := NO_MAIL
  const CALL: Mail := Mail(multiset{}, multiset{Message(1, A)})
  const BOTH: Mail := Mail(multiset{Message(0, E)}, multiset{Message(1, A)})
  const REST: Mail := Mail(multiset{Message(0, E)}, multiset{})

  ghost function Stage(i: nat): Schedule {
    match i
    case 0 => At(0, 0, Controllers, Controllers, {}, {}, QUIET)
    case 1 => At(1, 0, Vertices, Controllers, {}, {}, QUIET)
    case 2 => At(2, 0, Vertices, Controllers, {}, {}, QUIET)
    case 3 => At(3, 0, Vertices, Controllers, {}, {}, QUIET)
    case 4 => At(4, 0, Vertices, Controllers, {}, {}, QUIET)
    case 5 => At(5, 0, Vertices, Controllers, {0}, {}, CALL)
    case 6 => At(5, 0, Vertices, Vertices, {0}, {}, CALL)
    case 7 => At(5, 1, Vertices, OuterDrain, {0}, {}, CALL)
    case 8 => At(5, 2, Vertices, OuterDrain, {0}, {}, CALL)
    case 9 => At(5, 3, Vertices, OuterDrain, {0}, {}, CALL)
    case 10 => At(5, 3, Vertices, Test, {0}, {}, CALL)
    case 11 => At(5, 3, Vertices, InnerDrain, {0}, {}, CALL)
    case 12 => At(5, 3, Vertices, AtPop, {0}, {}, CALL)
    case 13 => At(5, 4, Vertices, Test, {0}, {}, CALL)
    case 14 => At(5, 5, Vertices, Test, {0}, {}, CALL)
    case 15 => At(5, 6, Vertices, Test, {0, 1}, {}, BOTH)
    case 16 => At(5, 7, Vertices, Test, {0, 1}, {}, REST)
    case 17 => At(5, 7, Vertices, Test, {0}, {1}, REST)
    case 18 => At(5, 8, Vertices, Test, {0}, {1}, REST)
    case 19 => At(5, 8, Vertices, InnerDrain, {0}, {1}, REST)
    case 20 => At(5, 9, Vertices, InnerDrain, {0}, {1}, REST)
    case 21 => At(5, 10, Vertices, InnerDrain, {0}, {1}, REST)
    case 22 => At(5, 10, Vertices, AtPop, {0}, {1}, REST)
    case _ => At(5, 10, Vertices, Failed, {0}, {1}, REST)
  }

  function Chosen(i: nat): Move {
    match i
    case 0 => Act(InitVisit(0, 0), false)
    case 1 => Act(Continue(0), false)
    case 2 => Act(Continue(0), false)
    case 3 => Act(Continue(0), false)
    case 4 => Act(Finish(0), true)
    case 5 => Proceed(1)
    case 6 => Act(InitVisit(1, 1), false)
    case 7 => Act(Continue(1), false)
    case 8 => Act(Finish(1), false)
    case 9 => Proceed(1)
    case 10 => Proceed(1)
    case 11 => Proceed(1)
    case 12 => Act(Pop(1, D), false)
    case 13 => Act(Continue(1), false)
    case 14 => Act(Continue(1), true)
    case 15 => Act(DeliverBroadcast(Message(1, A)), false)
    case 16 => Leave(1)
    case 17 => Act(Finish(1), false)
    case 18 => Proceed(1)
    case 19 => Act(PopController(1), false)
    case 20 => Act(Finish(1), false)
    case 21 => Proceed(1)
    case _ => Proceed(1)
  }

  ghost predicate Step(i: nat)
    requires CFG.Valid() && i < 23
  {
    Goes(CFG, Stage(i), Chosen(i), Stage(i + 1))
  }

  lemma {:induction false} Valid()
    ensures CFG.Valid()
  {
  }

  lemma {:induction false} ProcessesBegin()
    ensures CFG.Valid() && InitialProcess(CFG, 0) == Zero(0) && InitialProcess(CFG, 1) == One(0)
  {
    Valid();
    hide Config.Valid;
    var p, q := InitialProcess(CFG, 0), InitialProcess(CFG, 1);
    assert p.level == Zero(0).level && p.parent == Zero(0).parent && p.toInit == {0, 2, 4, 6};
    assert q.level == One(0).level && q.parent == One(0).parent && q.toInit == {1, 3, 5};
  }

  lemma {:induction false} Begins()
    ensures CFG.Valid() && Starts(CFG, Stage(0))
  {
    hide Config.Valid, InitialProcess, Zero, One;
    ProcessesBegin();
    assert InitialSystem(CFG).procs == [InitialProcess(CFG, 0), InitialProcess(CFG, 1)];
  }

  lemma {:induction false} DelegateStartsLeads()
    requires CFG.Valid() && Invariant(CFG, Sys(0, 0, QUIET))
    ensures Leads(CFG, Sys(0, 0, QUIET), InitVisit(0, 0), Sys(1, 0, QUIET))
    ensures Queued(CFG, Sys(0, 0, QUIET), InitVisit(0, 0)) == NO_MAIL
  {
    hide Invariant, Takes;
    var s, s' := Sys(0, 0, QUIET), Sys(1, 0, QUIET);
    assert s'.procs[0].toInit == s.procs[0].toInit - {0};
    assert s'.procs[0].level == s.procs[0].level[0 := 0];
    InitVisitLeads(CFG, s, 0, 0, s'.procs[0]);
    assert Put(s, 0, s'.procs[0], s.net, s.bcasts) == s';
  }

  lemma {:induction false} FirstLoweredLeads()
    requires CFG.Valid() && Invariant(CFG, Sys(1, 0, QUIET))
    ensures Leads(CFG, Sys(1, 0, QUIET), Continue(0), Sys(2, 0, QUIET))
    ensures Queued(CFG, Sys(1, 0, QUIET), Continue(0)) == NO_MAIL
  {
    hide Invariant, Takes;
    var s, s' := Sys(1, 0, QUIET), Sys(2, 0, QUIET);
    assert s'.procs[0].level == s.procs[0].level[2 := 0] && s'.procs[0].queue == s.procs[0].queue + multiset{B2};
    ContinueLeads(CFG, s, 0, A, 0, true, s'.procs[0], multiset{});
    assert Put(s, 0, s'.procs[0], s.net + multiset{}, s.bcasts) == s';
  }

  lemma {:induction false} SecondLoweredLeads()
    requires CFG.Valid() && Invariant(CFG, Sys(2, 0, QUIET))
    ensures Leads(CFG, Sys(2, 0, QUIET), Continue(0), Sys(3, 0, QUIET))
    ensures Queued(CFG, Sys(2, 0, QUIET), Continue(0)) == NO_MAIL
  {
    hide Invariant, Takes;
    var s, s' := Sys(2, 0, QUIET), Sys(3, 0, QUIET);
    assert s'.procs[0].level == s.procs[0].level[4 := 0] && s'.procs[0].queue == s.procs[0].queue + multiset{B4};
    ContinueLeads(CFG, s, 0, A, 1, true, s'.procs[0], multiset{});
    assert Put(s, 0, s'.procs[0], s.net + multiset{}, s.bcasts) == s';
  }

  lemma {:induction false} ThirdLoweredLeads()
    requires CFG.Valid() && Invariant(CFG, Sys(3, 0, QUIET))
    ensures Leads(CFG, Sys(3, 0, QUIET), Continue(0), Sys(4, 0, QUIET))
    ensures Queued(CFG, Sys(3, 0, QUIET), Continue(0)) == NO_MAIL
  {
    hide Invariant, Takes;
    var s, s' := Sys(3, 0, QUIET), Sys(4, 0, QUIET);
    assert s'.procs[0].level == s.procs[0].level[6 := 0] && s'.procs[0].queue == s.procs[0].queue + multiset{B6};
    ContinueLeads(CFG, s, 0, A, 2, true, s'.procs[0], multiset{});
    assert Put(s, 0, s'.procs[0], s.net + multiset{}, s.bcasts) == s';
  }

  lemma {:induction false} DelegateAnnouncedLeads()
    requires CFG.Valid() && Invariant(CFG, Sys(4, 0, QUIET))
    ensures Leads(CFG, Sys(4, 0, QUIET), Finish(0), Sys(5, 0, CALL))
    ensures Queued(CFG, Sys(4, 0, QUIET), Finish(0)) == CALL
  {
    hide Invariant, Takes;
    var s, s' := Sys(4, 0, QUIET), Sys(5, 0, CALL);
    assert Broadcast(2, 0, A) == Broadcast(1, 0, A) + multiset{Message(1, A)} == multiset{Message(1, A)};
    FinishLeads(CFG, s, 0, A, 3, true, multiset{Message(1, A)});
    assert Put(s, 0, s'.procs[0], s.net, s.bcasts + multiset{Message(1, A)}) == s';
  }

  lemma {:induction false} VertexStartsLeads()
    requires CFG.Valid() && Invariant(CFG, Sys(5, 0, CALL))
    ensures Leads(CFG, Sys(5, 0, CALL), InitVisit(1, 1), Sys(5, 1, CALL))
    ensures Queued(CFG, Sys(5, 0, CALL), InitVisit(1, 1)) == NO_MAIL
  {
    hide Invariant, Takes;
    var s, s' := Sys(5, 0, CALL), Sys(5, 1, CALL);
    assert s'.procs[1].toInit == s.procs[1].toInit - {1};
    assert s'.procs[1].level == s.procs[1].level[1 := 1];
    InitVisitLeads(CFG, s, 1, 1, s'.procs[1]);
    assert Put(s, 1, s'.procs[1], s.net, s.bcasts) == s';
  }

  lemma {:induction false} NextLoweredLeads()
    requires CFG.Valid() && Invariant(CFG, Sys(5, 1, CALL))
    ensures Leads(CFG, Sys(5, 1, CALL), Continue(1), Sys(5, 2, CALL))
    ensures Queued(CFG, Sys(5, 1, CALL), Continue(1)) == NO_MAIL
  {
    hide Invariant, Takes;
    var s, s' := Sys(5, 1, CALL), Sys(5, 2, CALL);
    assert s'.procs[1].level == s.procs[1].level[3 := 1] && s'.procs[1].queue == s.procs[1].queue + multiset{D};
    ContinueLeads(CFG, s, 1, C, 0, false, s'.procs[1], multiset{});
    assert Put(s, 1, s'.procs[1], s.net + multiset{}, s.bcasts) == s';
  }

  lemma {:induction false} VertexDoneLeads()
    requires CFG.Valid() && Invariant(CFG, Sys(5, 2, CALL))
    ensures Leads(CFG, Sys(5, 2, CALL), Finish(1), Sys(5, 3, CALL))
    ensures Queued(CFG, Sys(5, 2, CALL), Finish(1)) == NO_MAIL
  {
    hide Invariant, Takes;
    var s, s' := Sys(5, 2, CALL), Sys(5, 3, CALL);
    FinishLeads(CFG, s, 1, C, 1, false, multiset{});
    assert Put(s, 1, s'.procs[1], s.net, s.bcasts + multiset{}) == s';
  }

  lemma {:induction false} LastVisitLeads()
    requires CFG.Valid() && Invariant(CFG, Sys(5, 3, CALL))
    ensures Leads(CFG, Sys(5, 3, CALL), Pop(1, D), Sys(5, 4, CALL))
    ensures Queued(CFG, Sys(5, 3, CALL), Pop(1, D)) == NO_MAIL
  {
    hide Invariant, Takes;
    var s, s' := Sys(5, 3, CALL), Sys(5, 4, CALL);
    assert s'.procs[1].level == s.procs[1].level[3 := 1];
    PopLeads(CFG, s, 1, D, s'.procs[1]);
    assert Put(s, 1, s'.procs[1], s.net, s.bcasts) == s';
  }

  lemma {:induction false} NothingBackLeads()
    requires CFG.Valid() && Invariant(CFG, Sys(5, 4, CALL))
    ensures Leads(CFG, Sys(5, 4, CALL), Continue(1), Sys(5, 5, CALL))
    ensures Queued(CFG, Sys(5, 4, CALL), Continue(1)) == NO_MAIL
  {
    hide Invariant, Takes;
    var s, s' := Sys(5, 4, CALL), Sys(5, 5, CALL);
    ContinueLeads(CFG, s, 1, D, 0, false, s'.procs[1], multiset{});
    assert Put(s, 1, s'.procs[1], s.net + multiset{}, s.bcasts) == s';
  }

  lemma {:induction false} LastSendLeads()
    requires CFG.Valid() && Invariant(CFG, Sys(5, 5, CALL))
    ensures Leads(CFG, Sys(5, 5, CALL), Continue(1), Sys(5, 6, BOTH))
    ensures Queued(CFG, Sys(5, 5, CALL), Continue(1)) == REST
  {
    hide Invariant, Takes;
    var s, s' := Sys(5, 5, CALL), Sys(5, 6, BOTH);
    ContinueLeads(CFG, s, 1, D, 1, false, s'.procs[1], multiset{Message(0, E)});
    assert Put(s, 1, s'.procs[1], s.net + multiset{Message(0, E)}, s.bcasts) == s';
  }

  lemma {:induction false} AnnouncementArrivesLeads()
    requires CFG.Valid() && Invariant(CFG, Sys(5, 6, BOTH))
    ensures Leads(CFG, Sys(5, 6, BOTH), DeliverBroadcast(Message(1, A)), Sys(5, 7, REST))
    ensures Queued(CFG, Sys(5, 6, BOTH), DeliverBroadcast(Message(1, A))) == NO_MAIL
  {
    hide Invariant, Takes;
    var s, s' := Sys(5, 6, BOTH), Sys(5, 7, REST);
    assert s'.procs[1].controllers == s.procs[1].controllers + [A];
    DeliverBroadcastLeads(CFG, s, Message(1, A));
    assert Put(s, 1, s'.procs[1], s.net, s.bcasts - multiset{Message(1, A)}) == s';
  }

  lemma {:induction false} LastVisitDoneLeads()
    requires CFG.Valid() && Invariant(CFG, Sys(5, 7, REST))
    ensures Leads(CFG, Sys(5, 7, REST), Finish(1), Sys(5, 8, REST))
    ensures Queued(CFG, Sys(5, 7, REST), Finish(1)) == NO_MAIL
  {
    hide Invariant, Takes;
    var s, s' := Sys(5, 7, REST), Sys(5, 8, REST);
    FinishLeads(CFG, s, 1, D, 2, false, multiset{});
    assert Put(s, 1, s'.procs[1], s.net, s.bcasts + multiset{}) == s';
  }

  lemma {:induction false} ControllerStartsLeads()
    requires CFG.Valid() && Invariant(CFG, Sys(5, 8, REST))
    ensures Leads(CFG, Sys(5, 8, REST), PopController(1), Sys(5, 9, REST))
    ensures Queued(CFG, Sys(5, 8, REST), PopController(1)) == NO_MAIL
  {
    hide Invariant, Takes;
    var s, s' := Sys(5, 8, REST), Sys(5, 9, REST);
    assert s'.procs[1].level == s.procs[1].level[0 := 0];
    PopControllerLeads(CFG, s, 1, s'.procs[1]);
    assert Put(s, 1, s'.procs[1], s.net, s.bcasts) == s';
  }

  lemma {:induction false} ControllerDoneLeads()
    requires CFG.Valid() && Invariant(CFG, Sys(5, 9, REST))
    ensures Leads(CFG, Sys(5, 9, REST), Finish(1), Sys(5, 10, REST))
    ensures Queued(CFG, Sys(5, 9, REST), Finish(1)) == NO_MAIL
  {
    hide Invariant, Takes;
    var s, s' := Sys(5, 9, REST), Sys(5, 10, REST);
    FinishLeads(CFG, s, 1, A, 0, false, multiset{});
    assert Put(s, 1, s'.procs[1], s.net, s.bcasts + multiset{}) == s';
  }

  lemma {:induction false} Sizes()
    ensures CFG.g.ranks == 2 && CFG.g.delegates == {0}
  {
  }

  lemma {:induction false} DelegateStarts()
    requires CFG.Valid() && Kept(CFG, Stage(0))
    ensures Step(0)
  {
    hide Kept, Invariant, Leads, Goes, Zero, One, CFG, Queued;
    KeptSystem(CFG, Stage(0));
    Sizes();
    var t, t' := Stage(0), Stage(1);
    DelegateStartsLeads();
    QuietGoes(CFG, t, InitVisit(0, 0), t'.system);
    assert t.at[0 := PlaceAfter(t.at[0], InitVisit(0, 0))] == t'.at;
  }

  lemma {:induction false} FirstLowered()
    requires CFG.Valid() && Kept(CFG, Stage(1))
    ensures Step(1)
  {
    hide Kept, Invariant, Leads, Goes, Zero, One, CFG, Queued;
    KeptSystem(CFG, Stage(1));
    Sizes();
    var t, t' := Stage(1), Stage(2);
    FirstLoweredLeads();
    QuietGoes(CFG, t, Continue(0), t'.system);
    assert t.at[0 := PlaceAfter(t.at[0], Continue(0))] == t'.at;
  }

  lemma {:induction false} SecondLowered()
    requires CFG.Valid() && Kept(CFG, Stage(2))
    ensures Step(2)
  {
    hide Kept, Invariant, Leads, Goes, Zero, One, CFG, Queued;
    KeptSystem(CFG, Stage(2));
    Sizes();
    var t, t' := Stage(2), Stage(3);
    SecondLoweredLeads();
    QuietGoes(CFG, t, Continue(0), t'.system);
    assert t.at[0 := PlaceAfter(t.at[0], Continue(0))] == t'.at;
  }

  lemma {:induction false} ThirdLowered()
    requires CFG.Valid() && Kept(CFG, Stage(3))
    ensures Step(3)
  {
    hide Kept, Invariant, Leads, Goes, Zero, One, CFG, Queued;
    KeptSystem(CFG, Stage(3));
    Sizes();
    var t, t' := Stage(3), Stage(4);
    ThirdLoweredLeads();
    QuietGoes(CFG, t, Continue(0), t'.system);
    assert t.at[0 := PlaceAfter(t.at[0], Continue(0))] == t'.at;
  }

  lemma {:induction false} DelegateAnnounced()
    requires CFG.Valid() && Kept(CFG, Stage(4))
    ensures Step(4)
  {
    hide Kept, Invariant, Leads, Goes, Zero, One, CFG, Queued;
    KeptSystem(CFG, Stage(4));
    Sizes();
    var t, t' := Stage(4), Stage(5);
    DelegateAnnouncedLeads();
    assert Plus(t.now, CALL) == CALL;
    SendGoes(CFG, t, Finish(0), t'.system, CALL);
    assert t.inside + {0} == t'.inside;
  }

  lemma {:induction false} NoController()
    requires CFG.Valid() && Kept(CFG, Stage(5))
    ensures Step(5)
  {
    hide Kept, Invariant, Leads, Goes, CFG, Queued;
    KeptSystem(CFG, Stage(5));
    Sizes();
    var t, t' := Stage(5), Stage(6);
    ProceedGoes(CFG, t, 1, Vertices);
    assert t.at[1 := Vertices] == t'.at;
  }

  lemma {:induction false} VertexStarts()
    requires CFG.Valid() && Kept(CFG, Stage(6))
    ensures Step(6)
  {
    hide Kept, Invariant, Leads, Goes, Zero, One, CFG, Queued;
    KeptSystem(CFG, Stage(6));
    Sizes();
    var t, t' := Stage(6), Stage(7);
    VertexStartsLeads();
    QuietGoes(CFG, t, InitVisit(1, 1), t'.system);
    assert t.at[1 := PlaceAfter(t.at[1], InitVisit(1, 1))] == t'.at;
  }

  lemma {:induction false} NextLowered()
    requires CFG.Valid() && Kept(CFG, Stage(7))
    ensures Step(7)
  {
    hide Kept, Invariant, Leads, Goes, Zero, One, CFG, Queued;
    KeptSystem(CFG, Stage(7));
    Sizes();
    var t, t' := Stage(7), Stage(8);
    NextLoweredLeads();
    QuietGoes(CFG, t, Continue(1), t'.system);
    assert t.at[1 := PlaceAfter(t.at[1], Continue(1))] == t'.at;
  }

  lemma {:induction false} VertexDone()
    requires CFG.Valid() && Kept(CFG, Stage(8))
    ensures Step(8)
  {
    hide Kept, Invariant, Leads, Goes, Zero, One, CFG, Queued;
    KeptSystem(CFG, Stage(8));
    Sizes();
    var t, t' := Stage(8), Stage(9);
    VertexDoneLeads();
    QuietGoes(CFG, t, Finish(1), t'.system);
    assert t.at[1 := PlaceAfter(t.at[1], Finish(1))] == t'.at;
  }

  lemma {:induction false} Drained()
    requires CFG.Valid() && Kept(CFG, Stage(9))
    ensures Step(9)
  {
    hide Kept, Invariant, Leads, Goes, CFG, Queued;
    KeptSystem(CFG, Stage(9));
    Sizes();
    var t, t' := Stage(9), Stage(10);
    ProceedGoes(CFG, t, 1, Test);
    assert t.at[1 := Test] == t'.at;
  }

  lemma {:induction false} FirstTest()
    requires CFG.Valid() && Kept(CFG, Stage(10))
    ensures Step(10)
  {
    hide Kept, Invariant, Leads, Goes, CFG, Queued;
    KeptSystem(CFG, Stage(10));
    Sizes();
    var t, t' := Stage(10), Stage(11);
    ProceedGoes(CFG, t, 1, InnerDrain);
    assert t.at[1 := InnerDrain] == t'.at;
  }

  lemma {:induction false} FirstDrain()
    requires CFG.Valid() && Kept(CFG, Stage(11))
    ensures Step(11)
  {
    hide Kept, Invariant, Leads, Goes, Zero, CFG, Queued;
    KeptSystem(CFG, Stage(11));
    Sizes();
    var t, t' := Stage(11), Stage(12);
    ProceedGoes(CFG, t, 1, AtPop);
    assert t.at[1 := AtPop] == t'.at;
  }

  lemma {:induction false} LastVisit()
    requires CFG.Valid() && Kept(CFG, Stage(12))
    ensures Step(12)
  {
    hide Kept, Invariant, Leads, Goes, Zero, One, CFG, Queued;
    KeptSystem(CFG, Stage(12));
    Sizes();
    var t, t' := Stage(12), Stage(13);
    LastVisitLeads();
    QuietGoes(CFG, t, Pop(1, D), t'.system);
    assert t.at[1 := PlaceAfter(t.at[1], Pop(1, D))] == t'.at;
  }

  lemma {:induction false} NothingBack()
    requires CFG.Valid() && Kept(CFG, Stage(13))
    ensures Step(13)
  {
    hide Kept, Invariant, Leads, Goes, Zero, One, CFG, Queued;
    KeptSystem(CFG, Stage(13));
    Sizes();
    var t, t' := Stage(13), Stage(14);
    NothingBackLeads();
    QuietGoes(CFG, t, Continue(1), t'.system);
    assert t.at[1 := PlaceAfter(t.at[1], Continue(1))] == t'.at;
  }

  lemma {:induction false} LastSend()
    requires CFG.Valid() && Kept(CFG, Stage(14))
    ensures Step(14)
  {
    hide Kept, Invariant, Leads, Goes, Zero, One, CFG, Queued;
    KeptSystem(CFG, Stage(14));
    Sizes();
    var t, t' := Stage(14), Stage(15);
    LastSendLeads();
    assert Plus(t.now, REST) == BOTH;
    SendGoes(CFG, t, Continue(1), t'.system, BOTH);
    assert t.inside + {1} == t'.inside;
  }

  lemma {:induction false} AnnouncementArrives()
    requires CFG.Valid() && Kept(CFG, Stage(15))
    ensures Step(15)
  {
    hide Kept, Invariant, Leads, Goes, Zero, One, CFG, Queued;
    KeptSystem(CFG, Stage(15));
    Sizes();
    var t, t' := Stage(15), Stage(16);
    AnnouncementArrivesLeads();
    assert t.now.bcasts - multiset{Message(1, A)} == multiset{};
    AnnouncedGoes(CFG, t, Message(1, A), t'.system);
  }

  lemma {:induction false} LeavesExchange()
    requires CFG.Valid() && Kept(CFG, Stage(16))
    ensures Step(16)
  {
    hide Kept, Invariant, Leads, Goes, Zero, One, CFG, Queued;
    KeptSystem(CFG, Stage(16));
    Sizes();
    var t, t' := Stage(16), Stage(17);
    LeaveGoes(CFG, t, 1, 0);
    assert t.inside - {1} == t'.inside && t.ahead + {1} == t'.ahead;
  }

  lemma {:induction false} LastVisitDone()
    requires CFG.Valid() && Kept(CFG, Stage(17))
    ensures Step(17)
  {
    hide Kept, Invariant, Leads, Goes, Zero, One, CFG, Queued;
    KeptSystem(CFG, Stage(17));
    Sizes();
    var t, t' := Stage(17), Stage(18);
    LastVisitDoneLeads();
    QuietGoes(CFG, t, Finish(1), t'.system);
    assert t.at[1 := PlaceAfter(t.at[1], Finish(1))] == t'.at;
  }

  lemma {:induction false} SecondTest()
    requires CFG.Valid() && Kept(CFG, Stage(18))
    ensures Step(18)
  {
    hide Kept, Invariant, Leads, Goes, CFG, Queued;
    KeptSystem(CFG, Stage(18));
    Sizes();
    var t, t' := Stage(18), Stage(19);
    ProceedGoes(CFG, t, 1, InnerDrain);
    assert t.at[1 := InnerDrain] == t'.at;
  }

  lemma {:induction false} ControllerStarts()
    requires CFG.Valid() && Kept(CFG, Stage(19))
    ensures Step(19)
  {
    hide Kept, Invariant, Leads, Goes, Zero, One, CFG, Queued;
    KeptSystem(CFG, Stage(19));
    Sizes();
    var t, t' := Stage(19), Stage(20);
    ControllerStartsLeads();
    QuietGoes(CFG, t, PopController(1), t'.system);
    assert t.at[1 := PlaceAfter(t.at[1], PopController(1))] == t'.at;
  }

  lemma {:induction false} ControllerDone()
    requires CFG.Valid() && Kept(CFG, Stage(20))
    ensures Step(20)
  {
    hide Kept, Invariant, Leads, Goes, Zero, One, CFG, Queued;
    KeptSystem(CFG, Stage(20));
    Sizes();
    var t, t' := Stage(20), Stage(21);
    ControllerDoneLeads();
    QuietGoes(CFG, t, Finish(1), t'.system);
    assert t.at[1 := PlaceAfter(t.at[1], Finish(1))] == t'.at;
  }

  lemma {:induction false} NothingLeft()
    requires CFG.Valid() && Kept(CFG, Stage(21))
    ensures Step(21)
  {
    hide Kept, Invariant, Leads, Goes, CFG, Queued;
    KeptSystem(CFG, Stage(21));
    Sizes();
    var t, t' := Stage(21), Stage(22);
    ProceedGoes(CFG, t, 1, AtPop);
    assert t.at[1 := AtPop] == t'.at;
  }

  lemma {:induction false} PopsNothing()
    requires CFG.Valid() && Kept(CFG, Stage(22))
    ensures Step(22)
  {
    hide Kept, Invariant, Leads, Goes, CFG, Queued;
    KeptSystem(CFG, Stage(22));
    Sizes();
    var t, t' := Stage(22), Stage(23);
    ProceedGoes(CFG, t, 1, Failed);
    assert t.at[1 := Failed] == t'.at;
  }

  lemma {:induction false} Reachable(i: nat)
    requires CFG.Valid() && Kept(CFG, Stage(0)) && i <= 23
    ensures Kept(CFG, Stage(i)) && (i < 23 ==> Step(i))
  {
    hide Kept, Stage, Chosen, CFG;
    if i > 0 {
      Reachable(i - 1);
    }
    match i {
      case 0 => DelegateStarts();
      case 1 => FirstLowered();
      case 2 => SecondLowered();
      case 3 => ThirdLowered();
      case 4 => DelegateAnnounced();
      case 5 => NoController();
      case 6 => VertexStarts();
      case 7 => NextLowered();
      case 8 => VertexDone();
      case 9 => Drained();
      case 10 => FirstTest();
      case 11 => FirstDrain();
      case 12 => LastVisit();
      case 13 => NothingBack();
      case 14 => LastSend();
      case 15 => AnnouncementArrives();
      case 16 => LeavesExchange();
      case 17 => LastVisitDone();
      case 18 => SecondTest();
      case 19 => ControllerStarts();
      case 20 => ControllerDone();
      case 21 => NothingLeft();
      case 22 => PopsNothing();
      case _ =>
    }
  }

  /** From the start of a traversal, a run that ends with rank 1 failing in its pop. */
  lemma {:induction false} PopFails() returns (t: Schedule, moves: seq<Move>, t': Schedule)
    ensures CFG.Valid() && Starts(CFG, t) && |t.at| == CFG.g.ranks && Scheduled(CFG, t, moves, t')
    ensures 1 < |t'.at| && t'.at[1].Failed?
  {
    hide Kept, Goes, Scheduled, Starts;
    Begins();
    t, moves, t' := Stage(0), seq(23, (i: nat) => Chosen(i)), Stage(23);
    StartKept(CFG, t);
    forall i | 0 <= i < 23
      ensures Goes(CFG, Stage(i), Chosen(i), Stage(i + 1))
    {
      Reachable(i);
    }
    var ts := seq(24, (i: nat) => Stage(i));
    TraceScheduled(CFG, ts, moves, 0);
    assert moves[0..] == moves;
  }
}
