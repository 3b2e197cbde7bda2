/**
 The schedule of a traversal with its exchanges spelled out. A rank in an exchange goes through the
 stages of a mailbox, over groups that are not the whole world, and comes out with the count the stages
 added up. That all ranks have entered, and what the count says, is not given here but proved: what
 happens is a schedule in which both are given.
 */
module StagedSchedule {
  import opened Network
  import opened Traversal
  import opened TraversalSchedule
  import opened ExchangeStages
  import opened ExchangeCounts
  import ExchangeTotals
  import Routing

  /** ended: exchanges all ranks have left; now, next: what every rank sent for this exchange and the one after. */
  datatype Staged = Staged(
    t: Schedule,
    places: seq<Place>,
    ended: nat,
    now: seq<seq<Routing.Item>>,
    next: seq<seq<Routing.Item>>)

  datatype Step = Do(mv: Move) | Begin(r: nat) | Finish(r: nat)

  /** What an event gives to the mailbox; a broadcast to nobody is nothing. */
  ghost function Items(cfg: Config, s: System, ev: Event): seq<Routing.Item>
    requires cfg.Valid() && Shape(cfg, s) && Enabled(cfg, s, ev)
  {
    match ev
    case Continue(r) =>
      var a := s.procs[r].activity;
      var u := cfg.g.edges[r][a.visitor.vertex][a.next].target;
      if RelaxEdge(cfg, r, s.procs[r]).1 == multiset{} then [] else [Routing.Send(r, cfg.g.master[u], u)]
    case Finish(r) =>
      var a := s.procs[r].activity;
      if a.announce && cfg.g.ranks >= 2 then [Routing.Bcast(r, a.visitor.vertex)] else []
    case _ => []
  }

  function Entered(places: seq<Place>, r: nat, enters: bool): (ps: seq<Place>)
    requires r < |places|
  {
    if enters then places[r := places[r].Begin()] else places
  }

  function Joined(ledger: seq<seq<Routing.Item>>, r: nat, items: seq<Routing.Item>): (joined: seq<seq<Routing.Item>>)
    requires r < |ledger|
    ensures |joined| == |ledger|
  {
    ledger[r := ledger[r] + items]
  }

  function Blank(n: nat): (ledger: seq<seq<Routing.Item>>)
    ensures |ledger| == n && forall r | 0 <= r < n :: ledger[r] == []
  {
    seq(n, _ => [])
  }

  ghost predicate Fits(cfg: Config, net: Net, st: Staged) {
    cfg.Valid() && net.Valid() && net.Size() == cfg.g.ranks == |st.t.at| == |st.places| == |st.now| == |st.next|
  }

  // Steps

  ghost predicate CanStep(cfg: Config, route: Routing.Route, net: Net, st: Staged, step: Step)
    requires Fits(cfg, net, st)
  {
    match step
    case Do(Act(ev, exchange)) => CanAct(cfg, st.t, ev, exchange)
    case Do(Proceed(r)) => CanProceed(cfg, st.t, r)
    case Do(Leave(r)) =>
      r < cfg.g.ranks && r in st.t.inside && Through(route, st.places, r) && NoneFor(st.t.now, r)
    case Begin(r) => r in st.t.inside && CanBegin(route, st.places, r)
    case Finish(r) => CanFinish(route, net, st.places, r)
  }

  ghost function ActedStaged(cfg: Config, st: Staged, ev: Event, exchange: bool): Staged
    requires |st.t.at| == |st.places| == |st.now| == |st.next| == cfg.g.ranks
    requires cfg.Valid() && CanAct(cfg, st.t, ev, exchange)
  {
    var r, items := Actor(ev), Items(cfg, st.t.system, ev);
    Staged(
      Acted(cfg, st.t, ev, exchange),
      Entered(st.places, r, exchange),
      st.ended,
      if r in st.t.ahead then st.now else Joined(st.now, r, items),
      if r in st.t.ahead then Joined(st.next, r, items) else st.next)
  }

  /** The last test goes by the count. */
  ghost function PlaceCounted(at: Position, count: nat): Position {
    if at.Outer? then if count != 0 then Controllers else Gone else at
  }

  ghost function LeftStaged(cfg: Config, route: Routing.Route, net: Net, st: Staged, r: nat): Staged
    requires Fits(cfg, net, st) && r < cfg.g.ranks
  {
    var t := st.t;
    var t' := t.(at := t.at[r := PlaceCounted(t.at[r], Returns(route, net, st.now)[r])],
                 inside := t.inside - {r},
                 ahead := t.ahead + {r});
    var places := st.places[r := st.places[r].Leave()];
    if forall x: nat | x < cfg.g.ranks :: x in t'.ahead then
      Staged(Turned(cfg, t'), places, st.ended + 1, st.next, Blank(cfg.g.ranks))
    else
      Staged(t', places, st.ended, st.now, st.next)
  }

  ghost function Stepped(cfg: Config, route: Routing.Route, net: Net, st: Staged, step: Step): (st': Staged)
    requires Fits(cfg, net, st) && CanStep(cfg, route, net, st, step)
    ensures Fits(cfg, net, st')
  {
    match step
    case Do(Act(ev, exchange)) => ActedStaged(cfg, st, ev, exchange)
    case Do(Proceed(r)) =>
      st.(t := Proceeded(cfg, st.t, r), places := Entered(st.places, r, Asks(st.t, r)))
    case Do(Leave(r)) => LeftStaged(cfg, route, net, st, r)
    case Begin(r) => st.(places := st.places[r := st.places[r].Begin()])
    case Finish(r) => st.(places := st.places[r := st.places[r].Finish()])
  }

  ghost predicate StagedRun(cfg: Config, route: Routing.Route, net: Net, st: Staged, steps: seq<Step>, st': Staged)
    requires Fits(cfg, net, st)
    decreases |steps|
  {
    if steps == [] then st == st'
    else
      && CanStep(cfg, route, net, st, steps[0])
      && StagedRun(cfg, route, net, Stepped(cfg, route, net, st, steps[0]), steps[1..], st')
  }

  // What every step keeps

  /** Exactly when something was sent, the schedule says so. */
  ghost predicate Ledger(net: Net, items: seq<seq<Routing.Item>>, some: bool) {
    Sending(net, items) && (some <==> exists r :: 0 <= r < |items| && items[r] != [])
  }

  ghost predicate Placed(st: Staged, r: nat)
    requires r < |st.places|
  {
    && st.places[r].exchange == (if r in st.t.ahead then st.ended + 1 else st.ended)
    && (r in st.t.inside <==> st.places[r].Inside())
  }

  ghost predicate InStep(cfg: Config, route: Routing.Route, net: Net, st: Staged) {
    && Fits(cfg, net, st)
    && Orderly(route, net, st.places)
    && (forall r | 0 <= r < |st.places| :: Placed(st, r))
    && (exists x: nat :: x < cfg.g.ranks && x !in st.t.ahead)
    && Ledger(net, st.now, st.t.carried) && Ledger(net, st.next, st.t.promised)
  }

  // Events

  lemma {:induction false} EdgeSent(cfg: Config, net: Net, s: System, r: nat)
    requires cfg.Valid() && Shape(cfg, s) && Enabled(cfg, s, Continue(r)) && net.Size() == cfg.g.ranks
    ensures forall i | 0 <= i < |Items(cfg, s, Continue(r))| :: Sendable(net, r, Items(cfg, s, Continue(r))[i])
    ensures Items(cfg, s, Continue(r)) == [] <==> Queued(cfg, s, Continue(r)) == NO_MAIL
  {
    hide Net.Size, Accept, Forward, PreVisit, Config.Relax, Config.Emits;
    assert ShapedRank(cfg, r, s.procs[r]);
  }

  lemma {:induction false} AnnouncementSent(cfg: Config, net: Net, s: System, r: nat)
    requires cfg.Valid() && Shape(cfg, s) && Enabled(cfg, s, Event.Finish(r)) && net.Size() == cfg.g.ranks
    ensures forall i | 0 <= i < |Items(cfg, s, Event.Finish(r))| :: Sendable(net, r, Items(cfg, s, Event.Finish(r))[i])
    ensures Items(cfg, s, Event.Finish(r)) == [] <==> Queued(cfg, s, Event.Finish(r)) == NO_MAIL
  {
    hide Net.Size, Broadcast, RelaxEdge, ShapedRank;
    BroadcastReaches(cfg.g.ranks, r, s.procs[r].activity.visitor);
  }

  lemma {:induction false} NothingSent(cfg: Config, s: System, ev: Event)
    requires cfg.Valid() && Shape(cfg, s) && Enabled(cfg, s, ev) && !ev.Continue? && !ev.Finish?
    ensures Items(cfg, s, ev) == [] && Queued(cfg, s, ev) == NO_MAIL
  {
    hide Broadcast, RelaxEdge, ShapedRank;
  }

  lemma {:induction false} ItemsSendable(cfg: Config, net: Net, s: System, ev: Event)
    requires cfg.Valid() && Shape(cfg, s) && Enabled(cfg, s, ev) && net.Size() == cfg.g.ranks
    ensures forall i | 0 <= i < |Items(cfg, s, ev)| :: Sendable(net, Actor(ev), Items(cfg, s, ev)[i])
    ensures Items(cfg, s, ev) == [] <==> Queued(cfg, s, ev) == NO_MAIL
  {
    hide Net.Size, Shape, Enabled, Items, Queued, Sendable;
    match ev
    case Continue(r) => EdgeSent(cfg, net, s, r);
    case Finish(r) => AnnouncementSent(cfg, net, s, r);
    case _ => NothingSent(cfg, s, ev);
  }

  lemma {:induction false} BroadcastReaches(n: nat, r: nat, v: Visitor)
    requires r < n
    ensures Broadcast(n, r, v) == multiset{} <==> n < 2
  {
    if n >= 2 {
      assert Message(if r == 0 then 1 else 0, v) in Broadcast(n, r, v);
    } else {
      assert Broadcast(1, 0, v) == Broadcast(0, 0, v);
    }
  }

  lemma {:induction false} JoinedLedger(net: Net, ledger: seq<seq<Routing.Item>>, some: bool, r: nat, items: seq<Routing.Item>)
    requires Ledger(net, ledger, some) && r < |ledger|
    requires forall i | 0 <= i < |items| :: Sendable(net, r, items[i])
    ensures Ledger(net, Joined(ledger, r, items), some || items != [])
  {
    hide Sendable, Net.Size;
    var joined := Joined(ledger, r, items);
    if x :| 0 <= x < |ledger| && ledger[x] != [] {
      assert joined[x] != [];
    } else if items != [] {
      assert joined[r] != [];
    }
  }

  lemma {:induction false} EnteredPlaced(route: Routing.Route, net: Net, places: seq<Place>, r: nat, enters: bool)
    requires net.cores > 0 && Orderly(route, net, places) && r < |places| && (enters ==> !places[r].Inside())
    ensures Orderly(route, net, Entered(places, r, enters))
  {
    hide Orderly, Stages;
    if enters {
      MoveOrderly(route, net, places, r, places[r].Begin());
    }
  }

  lemma {:induction false} ActLedgers(cfg: Config, route: Routing.Route, net: Net, st: Staged, ev: Event, exchange: bool)
    requires InStep(cfg, route, net, st) && CanAct(cfg, st.t, ev, exchange)
    ensures var st' := ActedStaged(cfg, st, ev, exchange);
      Ledger(net, st'.now, st'.t.carried) && Ledger(net, st'.next, st'.t.promised)
  {
    hide Orderly, Ledger, Placed, Shape, Enabled, Items, Next, PlaceAfter, Net.Size, Joined, InPlace, Handed, Queued, Entered;
    var r, items := Actor(ev), Items(cfg, st.t.system, ev);
    ItemsSendable(cfg, net, st.t.system, ev);
    if r in st.t.ahead {
      JoinedLedger(net, st.next, st.t.promised, r, items);
    } else {
      JoinedLedger(net, st.now, st.t.carried, r, items);
    }
  }

  lemma {:induction false} ActInStep(cfg: Config, route: Routing.Route, net: Net, st: Staged, ev: Event, exchange: bool)
    requires InStep(cfg, route, net, st) && CanAct(cfg, st.t, ev, exchange)
    ensures InStep(cfg, route, net, ActedStaged(cfg, st, ev, exchange))
  {
    hide Orderly, Ledger, Shape, Enabled, Items, Next, PlaceAfter, Net.Size, Joined, NoneFor, Queued, Handed;
    var r, st' := Actor(ev), ActedStaged(cfg, st, ev, exchange);
    ActLedgers(cfg, route, net, st, ev, exchange);
    NextMail(cfg, st.t.system, ev);
    assert Placed(st, r);
    forall x | 0 <= x < |st.places|
      ensures Placed(st', x)
    {
      assert Placed(st, x);
    }
    EnteredPlaced(route, net, st.places, r, exchange);
  }

  lemma {:induction false} ProceedInStep(cfg: Config, route: Routing.Route, net: Net, st: Staged, r: nat)
    requires InStep(cfg, route, net, st) && CanProceed(cfg, st.t, r)
    ensures InStep(cfg, route, net, st.(t := Proceeded(cfg, st.t, r), places := Entered(st.places, r, Asks(st.t, r))))
  {
    hide Orderly, Ledger, Net.Size, Due, PlaceNext;
    var st' := st.(t := Proceeded(cfg, st.t, r), places := Entered(st.places, r, Asks(st.t, r)));
    assert Placed(st, r);
    forall x | 0 <= x < |st.places|
      ensures Placed(st', x)
    {
      assert Placed(st, x);
    }
    EnteredPlaced(route, net, st.places, r, Asks(st.t, r));
  }

  // Stages

  lemma {:induction false} StageInStep(cfg: Config, route: Routing.Route, net: Net, st: Staged, step: Step)
    requires InStep(cfg, route, net, st) && CanStep(cfg, route, net, st, step) && !step.Do?
    ensures InStep(cfg, route, net, Stepped(cfg, route, net, st, step))
  {
    hide Orderly, Ledger, Net.Size, ExchangeTotals.MembersOf, Stages;
    var st', r := Stepped(cfg, route, net, st, step), step.r;
    MoveOrderly(route, net, st.places, r, st'.places[r]);
    forall x | 0 <= x < |st.places|
      ensures Placed(st', x)
    {
      assert Placed(st, x);
    }
  }

  // The end of an exchange

  /** A rank at the end of its exchange is at the end of the one all others have entered. */
  lemma {:induction false} LeavesLast(cfg: Config, route: Routing.Route, net: Net, st: Staged, r: nat)
    requires InStep(cfg, route, net, st) && CanStep(cfg, route, net, st, Do(Leave(r)))
    ensures CanLeave(cfg, st.t, r)
  {
    hide Orderly, Ledger, Net.Size, NoneFor, Stages;
    assert Placed(st, r);
    forall z: nat | z < cfg.g.ranks
      ensures z in st.t.inside || z in st.t.ahead
      ensures r in st.t.ahead ==> z in st.t.ahead
    {
      AllHaveEntered(route, net, st.places, r, st.places[r].exchange, z);
      assert Placed(st, z);
    }
  }

  /** The count of any rank says what the schedule says. */
  lemma {:induction false} CountSays(route: Routing.Route, net: Net, ledger: seq<seq<Routing.Item>>, some: bool, r: nat)
    requires Ledger(net, ledger, some) && r < |ledger|
    ensures Returns(route, net, ledger)[r] == 0 <==> !some
  {
    hide Returns;
    ZeroIffNothingSent(route, net, ledger, r);
  }

  lemma {:induction false} BlankLedger(net: Net, n: nat)
    requires net.Valid() && n == net.Size()
    ensures Ledger(net, Blank(n), false)
  {
  }

  lemma {:induction false} LeaveRefines(cfg: Config, route: Routing.Route, net: Net, st: Staged, r: nat)
    requires InStep(cfg, route, net, st) && CanStep(cfg, route, net, st, Do(Leave(r)))
    ensures CanLeave(cfg, st.t, r)
    ensures LeftStaged(cfg, route, net, st, r).t == Left(cfg, st.t, r)
  {
    LeavesLast(cfg, route, net, st, r);
    CountSays(route, net, st.now, st.t.carried, r);
    hide Orderly, Ledger, Net.Size, NoneFor, Stages, Returns, CanLeave, Through;
  }

  lemma {:induction false} LeaveInStep(cfg: Config, route: Routing.Route, net: Net, st: Staged, r: nat)
    requires InStep(cfg, route, net, st) && CanStep(cfg, route, net, st, Do(Leave(r)))
    ensures InStep(cfg, route, net, LeftStaged(cfg, route, net, st, r))
  {
    hide Orderly, Ledger, Net.Size, NoneFor, Stages, Returns;
    LeavesLast(cfg, route, net, st, r);
    var st' := LeftStaged(cfg, route, net, st, r);
    MoveOrderly(route, net, st.places, r, st.places[r].Leave());
    BlankLedger(net, cfg.g.ranks);
    assert 0 < cfg.g.ranks && (st'.t.ahead == {} ==> 0 !in st'.t.ahead);
    forall x | 0 <= x < |st.places|
      ensures Placed(st', x)
    {
      assert Placed(st, x);
    }
  }

  // Runs

  /** Every step keeps this, and is a move of the schedule or leaves the schedule where it is. */
  lemma {:induction false} StepRefines(cfg: Config, route: Routing.Route, net: Net, st: Staged, step: Step)
    requires InStep(cfg, route, net, st) && CanStep(cfg, route, net, st, step)
    ensures InStep(cfg, route, net, Stepped(cfg, route, net, st, step))
    ensures step.Do? ==> Can(cfg, st.t, step.mv) && Stepped(cfg, route, net, st, step).t == Moved(cfg, st.t, step.mv)
    ensures !step.Do? ==> Stepped(cfg, route, net, st, step).t == st.t
  {
    hide InStep, CanAct, CanProceed, Acted, Proceeded, LeftStaged, Left, CanLeave, NoneFor;
    if step.Do? {
      match step.mv
      case Act(ev, exchange) => ActInStep(cfg, route, net, st, ev, exchange);
      case Proceed(r) => ProceedInStep(cfg, route, net, st, r);
      case Leave(r) =>
        LeaveRefines(cfg, route, net, st, r);
        LeaveInStep(cfg, route, net, st, r);
    } else {
      StageInStep(cfg, route, net, st, step);
    }
  }

  function MovesOf(steps: seq<Step>): seq<Move> {
    if steps == [] then [] else (if steps[0].Do? then [steps[0].mv] else []) + MovesOf(steps[1..])
  }

  lemma {:induction false} InStepFits(cfg: Config, route: Routing.Route, net: Net, st: Staged)
    requires InStep(cfg, route, net, st)
    ensures Fits(cfg, net, st)
  {
  }

  /** What happens with staged exchanges is a schedule. */
  lemma {:induction false} StagedRunScheduled(
    cfg: Config, route: Routing.Route, net: Net, st: Staged, steps: seq<Step>, st': Staged)
    requires InStep(cfg, route, net, st) && StagedRun(cfg, route, net, st, steps, st')
    ensures InStep(cfg, route, net, st') && Scheduled(cfg, st.t, MovesOf(steps), st'.t)
    decreases |steps|
  {
    hide InStep, CanStep, Stepped, Can, Moved;
    InStepFits(cfg, route, net, st);
    if steps != [] {
      StepRefines(cfg, route, net, st, steps[0]);
      StagedRunScheduled(cfg, route, net, Stepped(cfg, route, net, st, steps[0]), steps[1..], st');
      var rest := MovesOf(steps[1..]);
      assert [] + rest == rest;
      assert steps[0].Do? ==> ([steps[0].mv] + rest)[1..] == rest;
    }
  }

  // From the start

  /** What rank 0 has sent before any rank enters its loop. */
  function SourceItems(cfg: Config): seq<Routing.Item>
    requires cfg.source < |cfg.g.master|
  {
    if cfg.algorithm.Cc? || cfg.g.master[cfg.source] == 0 then []
    else [Routing.Send(0, cfg.g.master[cfg.source], cfg.source)]
  }

  ghost predicate StagedStart(cfg: Config, net: Net, st: Staged) {
    && Fits(cfg, net, st) && Starts(cfg, st.t) && st.ended == 0
    && (forall r | 0 <= r < |st.places| :: st.places[r] == Place(0, 0, r in st.t.inside))
    && st.now == Blank(cfg.g.ranks)[0 := SourceItems(cfg)] && st.next == Blank(cfg.g.ranks)
  }

  lemma {:induction false} SourceSent(cfg: Config)
    requires cfg.Valid()
    ensures SourceItems(cfg) == [] <==> InitialSystem(cfg).net == multiset{}
  {
    if !cfg.algorithm.Cc? {
      assert InitialProcess(cfg, 0).level[cfg.source] == cfg.top;
    }
  }

  lemma {:induction false} SourceSendable(cfg: Config, net: Net)
    requires cfg.Valid() && net.Size() == cfg.g.ranks
    ensures forall i | 0 <= i < |SourceItems(cfg)| :: Sendable(net, 0, SourceItems(cfg)[i])
  {
    hide Net.Size;
    assert cfg.g.master[cfg.source] < cfg.g.ranks;
  }

  lemma {:induction false} StartInStep(cfg: Config, route: Routing.Route, net: Net, st: Staged)
    requires StagedStart(cfg, net, st)
    ensures InStep(cfg, route, net, st)
  {
    hide Orderly, InitialSystem, Net.Size;
    StartOrderly(route, net, st.places);
    SourceSent(cfg);
    BlankLedger(net, cfg.g.ranks);
    SourceSendable(cfg, net);
    JoinedLedger(net, Blank(cfg.g.ranks), false, 0, SourceItems(cfg));
    assert [] + SourceItems(cfg) == SourceItems(cfg);
    assert 0 !in st.t.ahead;
  }

  /**
   With stages over groups and with counts: when one rank has returned, because its count was zero in its last
   test, nothing is left anywhere and every other rank has returned or is in its last test.
   */
  lemma {:induction false} LeaveTogether(
    cfg: Config, route: Routing.Route, net: Net, st: Staged, steps: seq<Step>, st': Staged, r: nat)
    requires StagedStart(cfg, net, st) && StagedRun(cfg, route, net, st, steps, st')
    requires r < |st'.t.at| && st'.t.at[r].Gone?
    ensures Starts(cfg, st.t) && Scheduled(cfg, st.t, MovesOf(steps), st'.t)
    ensures Quiescent(st'.t.system)
    ensures forall x | 0 <= x < |st'.t.at| :: st'.t.at[x].Gone? || (st'.t.at[x].Outer? && x in st'.t.inside)
  {
    hide InStep, Starts, Scheduled, StagedRun, Quiescent, Net.Size;
    StartInStep(cfg, route, net, st);
    StagedRunScheduled(cfg, route, net, st, steps, st');
    ReturnedAtRest(cfg, st.t, MovesOf(steps), st'.t, r);
  }
}
