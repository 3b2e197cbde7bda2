/**
 Traversals with staged exchanges come to an end: the stages add no deadlock and no endless run to the
 schedule they refine.
 */
module StagedReturns {
  import opened Network
  import opened Traversal
  import opened TraversalOrder
  import opened TraversalProgress
  import opened TraversalExactness
  import opened TraversalSchedule
  import opened TraversalReturns
  import opened ExchangeStages
  import opened StagedSchedule
  import opened Sums
  import ExchangeTotals
  import Routing

  // Going on

  /** Whatever move the schedule has, with stages some rank has a step. */
  lemma {:induction false} StagedGoesOn(cfg: Config, route: Routing.Route, net: Net, st: Staged, mv: Move) returns (step: Step)
    requires InStep(cfg, route, net, st) && Can(cfg, st.t, mv)
    ensures CanStep(cfg, route, net, st, step)
  {
    hide Orderly, Ledger, CanAct, CanProceed, Stages, ExchangeTotals.MembersOf, Net.Size, NoneFor;
    step := Do(mv);
    if mv.Leave? {
      forall y | 0 <= y < |st.places|
        ensures Placed(st, y) && st.places[y].exchange >= st.places[mv.r].exchange
      {
        assert Placed(st, y) && Placed(st, mv.r);
      }
      var x := StagesGoOn(route, net, st.places, mv.r);
      assert Placed(st, x);
      if !Through(route, st.places, mv.r) {
        step := if CanBegin(route, st.places, x) then Begin(x) else Step.Finish(x);
      }
    }
  }

  /** Once all have returned the stages are still. */
  lemma {:induction false} ReturnedStaged(cfg: Config, route: Routing.Route, net: Net, st: Staged, step: Step)
    requires InStep(cfg, route, net, st) && Kept(cfg, st.t) && AllGone(st.t)
    ensures !CanStep(cfg, route, net, st, step)
  {
    hide Invariant, MailOk, Sealed, RankOk, Orderly, Ledger, Can, Moved, Stepped, IdleProcess, Net.Size;
    match step
    case Do(mv) =>
      ReturnedStay(cfg, st.t, mv);
      if CanStep(cfg, route, net, st, step) {
        StepRefines(cfg, route, net, st, step);
      }
    case Begin(r) =>
      assert r < |st.places| ==> Placed(st, r) && RankDone(st.t, r);
    case Finish(r) =>
      assert r < |st.places| ==> Placed(st, r) && RankDone(st.t, r);
  }

  // Coming to an end

  ghost function StagedRemaining(cfg: Config, st: Staged): nat
    requires cfg.Valid() && |st.t.at| == |st.t.system.procs| == cfg.g.ranks
  {
    Scaled(Remaining(cfg, st.t), 6 * cfg.g.ranks) + Sum(AllStepsLeft(st.places))
  }

  lemma {:induction false} StepRemaining(cfg: Config, route: Routing.Route, net: Net, st: Staged, step: Step)
    requires InStep(cfg, route, net, st) && Kept(cfg, st.t) && CanStep(cfg, route, net, st, step)
    ensures InStep(cfg, route, net, Stepped(cfg, route, net, st, step)) && Kept(cfg, Stepped(cfg, route, net, st, step).t)
    ensures |st.t.at| == |st.t.system.procs| == cfg.g.ranks == |Stepped(cfg, route, net, st, step).t.system.procs|
    ensures StagedRemaining(cfg, Stepped(cfg, route, net, st, step)) < StagedRemaining(cfg, st)
  {
    hide Invariant, MailOk, Sealed, RankOk, Orderly, Ledger, Can, Moved, Remaining, Sum, Scaled, AllGone, Net.Size;
    var st' := Stepped(cfg, route, net, st, step);
    StepRefines(cfg, route, net, st, step);
    if step.Do? {
      MoveRemaining(cfg, st.t, step.mv);
      SumAtMost(AllStepsLeft(st'.places), 6);
      FewerLeft(Remaining(cfg, st.t), Remaining(cfg, st'.t), 6 * cfg.g.ranks);
    } else {
      StageDecreases(route, st.places, step.r, st'.places[step.r]);
    }
  }

  /** No run with staged exchanges is longer than an explicit measure of its first state. */
  lemma {:induction false} StagedEnds(
    cfg: Config, route: Routing.Route, net: Net, st: Staged, steps: seq<Step>, st': Staged)
    requires InStep(cfg, route, net, st) && Kept(cfg, st.t) && StagedRun(cfg, route, net, st, steps, st')
    ensures InStep(cfg, route, net, st') && Kept(cfg, st'.t)
    ensures |st.t.at| == |st.t.system.procs| == cfg.g.ranks == |st'.t.at| == |st'.t.system.procs|
    ensures |steps| + StagedRemaining(cfg, st') <= StagedRemaining(cfg, st)
    decreases |steps|
  {
    hide InStep, Kept, CanStep, Stepped, StagedRemaining;
    InStepFits(cfg, route, net, st);
    KeptSizes(cfg, st.t);
    if steps != [] {
      StepRemaining(cfg, route, net, st, steps[0]);
      StagedEnds(cfg, route, net, Stepped(cfg, route, net, st, steps[0]), steps[1..], st');
    }
  }

  lemma {:induction false} KeptSizes(cfg: Config, t: Schedule)
    requires cfg.Valid() && Kept(cfg, t)
    ensures |t.at| == |t.system.procs| == cfg.g.ranks
  {
  }

  /**
   A traversal with staged exchanges that has gone as far as it can, and in which no pop has failed: every rank
   has returned and every label is exact.
   */
  lemma {:induction false} StagedTraversalReturns(
    cfg: Config, route: Routing.Route, net: Net, st: Staged, steps: seq<Step>, st': Staged, v: nat)
    requires StagedStart(cfg, net, st) && StagedRun(cfg, route, net, st, steps, st') && v < cfg.g.size
    requires |st'.t.at| == cfg.g.ranks && forall r | 0 <= r < |st'.t.at| :: !st'.t.at[r].Failed?
    ensures |st.t.system.procs| == cfg.g.ranks && |steps| <= StagedRemaining(cfg, st) && Fits(cfg, net, st')
    ensures AllGone(st'.t) <==> forall step :: !CanStep(cfg, route, net, st', step)
    ensures AllGone(st'.t) ==> Sized(cfg, st'.t.system) && match cfg.algorithm
              case Bfs => IsLevel(cfg.g, cfg.source, v, Master(cfg, st'.t.system, v))
              case Sssp => IsDistance(cfg, v, Master(cfg, st'.t.system, v))
              case Cc => IsComponentLabel(cfg.g, v, Master(cfg, st'.t.system, v))
  {
    hide Kept, InStep, Can, CanStep, Starts, Scheduled, StagedRun, StagedRemaining, Remaining, IsLevel, IsDistance,
         IsComponentLabel, Master, Sized, AllGone;
    StartInStep(cfg, route, net, st);
    StartKept(cfg, st.t);
    StagedEnds(cfg, route, net, st, steps, st');
    InStepFits(cfg, route, net, st');
    StagedRunScheduled(cfg, route, net, st, steps, st');
    TraversalReturns.TraversalReturns(cfg, st.t, MovesOf(steps), st'.t, v);
    if AllGone(st'.t) {
      forall step
        ensures !CanStep(cfg, route, net, st', step)
      {
        ReturnedStaged(cfg, route, net, st', step);
      }
    } else {
      var mv :| Can(cfg, st'.t, mv);
      var step := StagedGoesOn(cfg, route, net, st', mv);
    }
  }
}
