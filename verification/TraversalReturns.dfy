/**
 Every scheduled traversal ends: with all ranks returned and every label exact, or with a rank that has
 failed in its pop.
 */
module TraversalReturns {
  import opened Arithmetic
  import opened Sums
  import opened Traversal
  import opened TraversalInvariant
  import opened TraversalOrder
  import opened TraversalProgress
  import opened TraversalExactness
  import opened TraversalTermination
  import opened TraversalSchedule

  // --- Somebody can always move ------------------------------------------------------------------------

  /** An exchange that all have left is over. */
  ghost predicate Open(cfg: Config, t: Schedule) {
    exists x: nat :: x < cfg.g.ranks && x !in t.ahead
  }

  lemma {:induction false} MoveOpen(cfg: Config, t: Schedule, mv: Move)
    requires cfg.Valid() && |t.at| == cfg.g.ranks && Open(cfg, t) && Can(cfg, t, mv)
    ensures Open(cfg, Moved(cfg, t, mv))
  {
    hide CanAct, CanProceed, CanLeave;
    assert 0 in Moved(cfg, t, mv).ahead ==> Open(cfg, Moved(cfg, t, mv));
  }

  /** A rank outside of exchanges, neither returned nor failed, has a move of its own. */
  lemma {:induction false} FreeRankMoves(cfg: Config, t: Schedule, r: nat) returns (mv: Move)
    requires cfg.Valid() && |t.at| == |t.system.procs| == cfg.g.ranks && Shape(cfg, t.system)
    requires r < cfg.g.ranks && r !in t.inside && !t.at[r].Gone? && !t.at[r].Failed?
    ensures Can(cfg, t, mv)
  {
    var p := t.system.procs[r];
    assert ShapedRank(cfg, r, p);
    hide Shape, ShapedRank;
    if p.activity.Busy? {
      mv := BusyRankContinues(cfg, t, r);
    } else if Due(cfg, p, t.at[r]) {
      var u :| u in p.toInit && (u in cfg.g.delegates <==> t.at[r].Controllers?);
      mv := Act(InitVisit(r, u), false);
    } else if (t.at[r].OuterDrain? || t.at[r].InnerDrain?) && p.controllers != [] {
      mv := Act(PopController(r), false);
    } else if t.at[r].AtPop? && p.queue != multiset{} {
      var v :| v in p.queue;
      mv := Act(Pop(r, v), false);
    } else {
      mv := Proceed(r);
    }
  }

  lemma {:induction false} BusyRankContinues(cfg: Config, t: Schedule, r: nat) returns (mv: Move)
    requires cfg.Valid() && |t.at| == |t.system.procs| == cfg.g.ranks && Shape(cfg, t.system)
    requires r < cfg.g.ranks && r !in t.inside && t.system.procs[r].activity.Busy?
    ensures Can(cfg, t, mv)
  {
    var a := t.system.procs[r].activity;
    assert ShapedRank(cfg, r, t.system.procs[r]);
    hide Shape, ShapedRank;
    mv := Act(if a.next < |cfg.g.edges[r][a.visitor.vertex]| then Continue(r) else Finish(r), false);
  }

  lemma {:induction false} CanArrive(cfg: Config, t: Schedule, m: Message)
    requires cfg.Valid() && Kept(cfg, t) && m.dest < cfg.g.ranks && m.dest in t.inside && m.dest !in t.ahead
    ensures |t.at| == cfg.g.ranks
    ensures m in t.now.net ==> Can(cfg, t, Act(Deliver(m), false))
    ensures m in t.now.bcasts ==> Can(cfg, t, Act(DeliverBroadcast(m), false))
  {
    hide Sound, Ordered, Attentive, ShapedRank, RankOk, Done, Sealed;
    assert m in t.now.net ==> m in t.system.net;
    assert m in t.now.bcasts ==> m in t.system.bcasts;
  }

  /** With all ranks inside an exchange, a message arrives or a rank leaves. */
  lemma {:induction false} ExchangeMoves(cfg: Config, t: Schedule, r: nat) returns (mv: Move)
    requires cfg.Valid() && Kept(cfg, t) && r < cfg.g.ranks && r in t.inside && r !in t.ahead
    requires forall x: nat | x < cfg.g.ranks :: x in t.inside || x in t.ahead
    ensures |t.at| == cfg.g.ranks && Can(cfg, t, mv)
  {
    hide Kept, CanAct;
    if m :| m in t.now.net && m.dest == r {
      CanArrive(cfg, t, m);
      mv := Act(Deliver(m), false);
    } else if m :| m in t.now.bcasts && m.dest == r {
      CanArrive(cfg, t, m);
      mv := Act(DeliverBroadcast(m), false);
    } else {
      KeptParts(cfg, t, r);
      mv := Leave(r);
    }
  }

  lemma {:induction false} KeptParts(cfg: Config, t: Schedule, r: nat)
    requires cfg.Valid() && Kept(cfg, t) && r < cfg.g.ranks
    ensures |t.at| == |t.system.procs| == cfg.g.ranks && Shape(cfg, t.system) && RankOk(t, r)
    ensures t.at[r].Gone? ==> Done(t) && (r in t.ahead || AllGone(t))
    ensures t.ahead != {} ==> forall x: nat | x < cfg.g.ranks :: x in t.inside || x in t.ahead
  {
    hide Sound, Ordered, Attentive, Shape, RankOk, Done, MailOk;
  }

  lemma {:induction false} ReturnedStay(cfg: Config, t: Schedule, mv: Move)
    requires cfg.Valid() && Kept(cfg, t) && |t.at| == cfg.g.ranks && AllGone(t)
    ensures !Can(cfg, t, mv)
  {
    hide Kept, CanAct;
    KeptParts(cfg, t, 0);
    match mv {
      case Act(ev, exchange) =>
        if CanAct(cfg, t, ev, exchange) {
          DoneIsStill(cfg, t, ev, exchange);
        }
      case Proceed(r) =>
      case Leave(r) => assert r < cfg.g.ranks ==> RankDone(t, r);
    }
  }

  lemma {:induction false} UnreturnedMove(cfg: Config, t: Schedule) returns (mv: Move)
    requires cfg.Valid() && Kept(cfg, t) && Open(cfg, t) && |t.at| == cfg.g.ranks && !AllGone(t)
    requires forall r | 0 <= r < |t.at| :: !t.at[r].Failed?
    ensures Can(cfg, t, mv)
  {
    hide Kept, Can, RankOk, Shape;
    if r: nat :| r < cfg.g.ranks && r !in t.inside && !t.at[r].Gone? {
      KeptParts(cfg, t, r);
      mv := FreeRankMoves(cfg, t, r);
    } else {
      var x: nat :| x < cfg.g.ranks && x !in t.ahead;
      KeptParts(cfg, t, x);
      if r: nat :| r < cfg.g.ranks && t.at[r].Gone? {
        KeptParts(cfg, t, r);
      }
      mv := ExchangeMoves(cfg, t, x);
    }
  }

  /** While no rank has failed, the traversal can go on iff some rank has not returned. */
  lemma {:induction false} StuckIsReturned(cfg: Config, t: Schedule)
    requires cfg.Valid() && Kept(cfg, t) && Open(cfg, t) && forall r | 0 <= r < |t.at| :: !t.at[r].Failed?
    ensures |t.at| == cfg.g.ranks && (AllGone(t) <==> forall mv :: !Can(cfg, t, mv))
  {
    hide Kept, Can, Open;
    KeptParts(cfg, t, 0);
    if AllGone(t) {
      forall mv ensures !Can(cfg, t, mv) {
        ReturnedStay(cfg, t, mv);
      }
    } else {
      var mv := UnreturnedMove(cfg, t);
    }
  }

  // --- And not for ever -----------------------------------------------------------------------------------

  /** Steps a rank can take through its loops before the next event or exchange. */
  ghost function Steps(cfg: Config, p: Process, at: Position, inside: bool): (n: nat)
    ensures n <= 8
  {
    match at
    case Controllers => if p.toInit == {} then 8 else 3
    case Vertices => if exists u :: u in p.toInit && u !in cfg.g.delegates then 2 else 7
    case OuterDrain => 6
    case Test => 5
    case Outer => if inside then 1 else 4
    case InnerDrain => 3
    case AtPop => 2
    case Gone => 0
    case Failed => 0
  }

  /** Exchanges after which a rank will have to go round again. */
  function Rounds(t: Schedule, r: nat): (n: nat)
    ensures n <= 2
  {
    (if r !in t.ahead && t.carried then 1 else 0) + if t.promised then 1 else 0
  }

  ghost function Turns(cfg: Config, t: Schedule, r: nat): (n: nat)
    requires r < |t.at| == |t.system.procs|
    ensures n <= 26
  {
    Steps(cfg, t.system.procs[r], t.at[r], r in t.inside) + 9 * Rounds(t, r)
  }

  ghost function AllTurns(cfg: Config, t: Schedule): (ns: seq<nat>)
    requires |t.at| == |t.system.procs|
    ensures |ns| == |t.at|
  {
    seq(|t.at|, r requires 0 <= r < |t.at| => Turns(cfg, t, r))
  }

  function Scaled(m: nat, most: nat): nat { m * (most + 1) }

  /** What is left to do: the measure of the system, and for equal measures the steps through the loops. */
  ghost function Remaining(cfg: Config, t: Schedule): nat
    requires cfg.Valid() && |t.at| == |t.system.procs| == cfg.g.ranks
  {
    Scaled(Measure(cfg, t.system), 26 * cfg.g.ranks) + Sum(AllTurns(cfg, t))
  }

  lemma {:induction false} FewerLeft(m: nat, m': nat, most: nat)
    requires m' < m
    ensures Scaled(m', most) + most < Scaled(m, most)
  {
    TimesLess(m', m, most + 1);
  }

  lemma {:induction false} ActRemaining(cfg: Config, t: Schedule, ev: Event, exchange: bool)
    requires cfg.Valid() && Kept(cfg, t) && CanAct(cfg, t, ev, exchange)
    requires Kept(cfg, Acted(cfg, t, ev, exchange))
    ensures Remaining(cfg, Acted(cfg, t, ev, exchange)) < Remaining(cfg, t)
  {
    hide Invariant, MailOk, Sealed, RankOk, Done, Measure, Sum, Scaled, Turns, InPlace, Queued, Next, Shape,
         Enabled, Handed, PlaceAfter;
    var t' := Acted(cfg, t, ev, exchange);
    StepDecreases(cfg, t.system, ev);
    SumAtMost(AllTurns(cfg, t'), 26);
    FewerLeft(Measure(cfg, t.system), Measure(cfg, t'.system), 26 * cfg.g.ranks);
  }

  lemma {:induction false} ProceedRemaining(cfg: Config, t: Schedule, r: nat)
    requires cfg.Valid() && Kept(cfg, t) && CanProceed(cfg, t, r)
    ensures |Proceeded(cfg, t, r).system.procs| == cfg.g.ranks
    ensures Remaining(cfg, Proceeded(cfg, t, r)) < Remaining(cfg, t)
  {
    hide Invariant, MailOk, Sealed, Done, Measure, Sum, Scaled;
    assert RankOk(t, r);
    OneFewer(AllTurns(cfg, t), AllTurns(cfg, Proceeded(cfg, t, r)), r);
  }

  lemma {:induction false} LeaveRemaining(cfg: Config, t: Schedule, r: nat)
    requires cfg.Valid() && Kept(cfg, t) && CanLeave(cfg, t, r)
    ensures |Left(cfg, t, r).system.procs| == cfg.g.ranks && Remaining(cfg, Left(cfg, t, r)) < Remaining(cfg, t)
  {
    hide Invariant, MailOk, Sealed, Done, Measure, NoneFor, NoneLeft, IdleProcess, Sum, Scaled;
    assert RankOk(t, r);
    var t1 := Released(t, r);
    OneFewer(AllTurns(cfg, t), AllTurns(cfg, t1), r);
    assert AllTurns(cfg, Turned(cfg, t1)) == AllTurns(cfg, t1);
  }

  lemma {:induction false} MoveRemaining(cfg: Config, t: Schedule, mv: Move)
    requires cfg.Valid() && Kept(cfg, t) && |t.at| == cfg.g.ranks && Can(cfg, t, mv)
    ensures Kept(cfg, Moved(cfg, t, mv)) && Remaining(cfg, Moved(cfg, t, mv)) < Remaining(cfg, t)
  {
    hide Invariant, MailOk, Sealed, RankOk, Done, CanAct, CanProceed, CanLeave, Acted, Proceeded, Left, Remaining;
    MoveKept(cfg, t, mv);
    match mv {
      case Act(ev, exchange) => ActRemaining(cfg, t, ev, exchange);
      case Proceed(r) => ProceedRemaining(cfg, t, r);
      case Leave(r) => LeaveRemaining(cfg, t, r);
    }
  }

  /** No scheduled run is longer than what is left to do at its start. */
  lemma {:induction false} ScheduleEnds(cfg: Config, t: Schedule, moves: seq<Move>, t': Schedule)
    requires cfg.Valid() && Kept(cfg, t) && Open(cfg, t) && |t.at| == cfg.g.ranks && Scheduled(cfg, t, moves, t')
    ensures Kept(cfg, t') && Open(cfg, t') && |moves| + Remaining(cfg, t') <= Remaining(cfg, t)
    decreases |moves|
  {
    hide Invariant, MailOk, Sealed, RankOk, Done, Can, Moved, Remaining, Open;
    if moves != [] {
      MoveRemaining(cfg, t, moves[0]);
      MoveOpen(cfg, t, moves[0]);
      ScheduleEnds(cfg, Moved(cfg, t, moves[0]), moves[1..], t');
    }
  }

  /**
   A traversal that has gone as far as it can, from any start and in any order of moves, and in which no rank has
   failed in its pop: every rank has returned and every label is exact.
   */
  lemma {:induction false} TraversalReturns(cfg: Config, t: Schedule, moves: seq<Move>, t': Schedule, v: nat)
    requires cfg.Valid() && Starts(cfg, t) && |t.at| == cfg.g.ranks && Scheduled(cfg, t, moves, t') && v < cfg.g.size
    requires forall r | 0 <= r < |t'.at| :: !t'.at[r].Failed?
    ensures |moves| <= Remaining(cfg, t) && |t'.at| == cfg.g.ranks
    ensures AllGone(t') <==> forall mv :: !Can(cfg, t', mv)
    ensures AllGone(t') ==> Sized(cfg, t'.system) && match cfg.algorithm
              case Bfs => IsLevel(cfg.g, cfg.source, v, Master(cfg, t'.system, v))
              case Sssp => IsDistance(cfg, v, Master(cfg, t'.system, v))
              case Cc => IsComponentLabel(cfg.g, v, Master(cfg, t'.system, v))
  {
    hide Kept, Can, Starts, Scheduled, Remaining, IsLevel, IsDistance, IsComponentLabel, Open, Master, Sized;
    StartKept(cfg, t);
    assert Open(cfg, t) by {
      StartOpen(cfg, t);
    }
    ScheduleEnds(cfg, t, moves, t');
    StuckIsReturned(cfg, t');
    if AllGone(t') {
      ReturnedLevels(cfg, t, moves, t', 0, v);
    }
  }

  lemma {:induction false} StartOpen(cfg: Config, t: Schedule)
    requires cfg.Valid() && Starts(cfg, t)
    ensures Open(cfg, t)
  {
    assert 0 !in t.ahead;
  }
}
