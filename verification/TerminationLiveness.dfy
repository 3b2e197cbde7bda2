/**
 Termination is reported once there is something to report: with the counters balanced, and so unchanging, the wave
 under way and two more make the root report, and until it has reported some rank can always go on.
 */
module TerminationLiveness {
  import opened TerminationDetection
  import opened TerminationSafety
  import Arithmetic
  import Sums

  // Nothing is outstanding any more

  lemma {:induction false} CountersStay(t: Tree, s: System, e: Event)
    requires t.Valid() && Shaped(t, s) && Enabled(t, s, e) && Worked(s.counters) && !Outstanding(s.counters)
    ensures Next(t, s, e).counters == s.counters
  {
    hide Total, ToChildren;
    if e.Complete? {
      assert s.counters[e.rank].Plus(Counts(0, e.n)) == s.counters[e.rank];
    }
  }

  /** Every sample of the wave under way is the rank's counter now. */
  ghost predicate UpToDate(counters: seq<Counts>, h: History) {
    && |h.status| == |h.samples| == |counters|
    && forall r | 0 <= r < |counters| && (h.status[r].Replied? || h.status[r].Taken?) :: h.samples[r] == counters[r]
  }

  lemma {:induction false} StaysUpToDate(t: Tree, s: System, h: History, e: Event)
    requires Invariant(t, s, h) && Enabled(t, s, e)
    requires UpToDate(s.counters, h) || e.RootDecide?
    ensures UpToDate(s.counters, Remember(t, s, h, e))
  {
    hide Linkage, Waiting, Conserved, Compared, Worked, Reported, Total;
    InvariantShape(t, s, h);
    if e.Receive? {
      LocalAt(t, s, h, e.child);
    }
  }

  /** Between waves nothing has been sampled. */
  lemma {:induction false} NoneTouched(t: Tree, status: seq<Status>, r: nat)
    requires t.Valid() && Linkage(t, status) && r < t.ranks && status[0].Untouched?
    ensures status[r].Untouched?
    decreases r
  {
    if r > 0 {
      ParentBelow(t, r);
      NoneTouched(t, status, t.Parent(r));
      assert Linked(status[t.Parent(r)], status[r]);
    }
  }

  lemma {:induction false} IdleUpToDate(t: Tree, s: System, h: History)
    requires Invariant(t, s, h) && s.nodes[0].mode.WaitingInit?
    ensures UpToDate(s.counters, h)
  {
    hide Waiting, Conserved, Compared, Worked, Reported, Timely;
    InvariantShape(t, s, h);
    LocalAt(t, s, h, 0);
    forall r | 0 <= r < t.ranks
      ensures h.status[r].Untouched?
    {
      NoneTouched(t, h.status, r);
    }
  }

  /** A wave sampled entirely from these counters adds up to them. */
  lemma {:induction false} WaveTotal(t: Tree, s: System, h: History)
    requires Invariant(t, s, h) && Enabled(t, s, RootDecide) && UpToDate(s.counters, h)
    ensures s.nodes[0].subtree.Plus(s.counters[0]) == Total(s.counters)
  {
    hide Linkage, Locals, Waiting, Timely, Conserved, Compared, Worked, Parts, Samples, Total, Linked, Reported;
    InvariantShape(t, s, h);
    LocalAt(t, s, h, 0);
    RootIsNoLeaf(t);
    assert h.status[0].Engaged? && Missing(t, h.status, 0) == {};
    forall r | 0 < r < t.ranks
      ensures h.status[r].Taken?
    {
      RootAllTaken(t, h.status, r);
    }
    RootTotal(s, h.status, h.samples, s.counters[0]);
    assert h.samples[0 := s.counters[0]] == s.counters;
  }

  /** Waves that still have to end before the root reports. */
  ghost function WavesLeft(s: System, h: History): nat
    requires |s.nodes| > 0 && |s.reported| > 0
  {
    if s.reported[0] then 0
    else if !UpToDate(s.counters, h) then 3
    else if s.nodes[0].previous != Total(s.counters) then 2
    else 1
  }

  lemma {:induction false} RootStays(t: Tree, s: System, e: Event)
    requires t.Valid() && Shaped(t, s) && Enabled(t, s, e) && !e.RootDecide?
    ensures Next(t, s, e).nodes[0].previous == s.nodes[0].previous
    ensures Next(t, s, e).reported[0] == s.reported[0]
  {
    hide Outstanding, Total, ToChildren;
  }

  lemma {:induction false} DecisionStep(t: Tree, s: System, h: History)
    requires Invariant(t, s, h) && Enabled(t, s, RootDecide) && !Outstanding(s.counters)
    ensures var s', h' := Next(t, s, RootDecide), Remember(t, s, h, RootDecide);
      && s'.counters == s.counters && UpToDate(s'.counters, h')
      && (s.reported[0] ==> s'.reported[0])
      && (UpToDate(s.counters, h) ==> s'.reported[0] || s'.nodes[0].previous == Total(s.counters))
      && (UpToDate(s.counters, h) && s.nodes[0].previous == Total(s.counters) ==> s'.reported[0])
  {
    hide Linkage, Locals, Waiting, Timely, Conserved, Compared, Parts, Samples, Total, Linked, Reported, ToChildren;
    InvariantShape(t, s, h);
    if UpToDate(s.counters, h) {
      WaveTotal(t, s, h);
    }
  }

  lemma {:induction false} WaveStep(t: Tree, s: System, h: History, e: Event)
    requires Invariant(t, s, h) && Enabled(t, s, e) && !Outstanding(s.counters)
    ensures Next(t, s, e).counters == s.counters
    ensures WavesLeft(Next(t, s, e), Remember(t, s, h, e)) <= WavesLeft(s, h)
    ensures e.RootDecide? && WavesLeft(s, h) > 0 ==> WavesLeft(Next(t, s, e), Remember(t, s, h, e)) < WavesLeft(s, h)
  {
    hide Linkage, Locals, Waiting, Timely, Conserved, Compared, Total, Reported, UpToDate, Outstanding, Next, Remember, Enabled;
    InvariantShape(t, s, h);
    CountersStay(t, s, e);
    if e.RootDecide? {
      DecisionStep(t, s, h);
    } else {
      RootStays(t, s, e);
      if UpToDate(s.counters, h) {
        StaysUpToDate(t, s, h, e);
      }
    }
  }

  /** Whatever is outstanding can be completed, and then nothing is. */
  lemma {:induction false} WorkCanFinish(t: Tree, s: System, h: History, r: nat)
    requires Invariant(t, s, h) && r < t.ranks
    ensures var e := Complete(r, Total(s.counters).queued - Total(s.counters).completed);
      Enabled(t, s, e) && !Outstanding(Next(t, s, e).counters)
  {
    hide Linkage, Locals, Waiting, Timely, Conserved, Compared, Reported, Total;
    var n := Total(s.counters).queued - Total(s.counters).completed;
    TotalUpdate(s.counters, r, s.counters[r].Plus(Counts(0, n)));
  }

  // What keeps going

  /** What happens to the protocol, as opposed to the work. */
  predicate Move(e: Event) { !e.Queue? && !e.Complete? && !e.Poll? }

  /** Sends are pending only while children are asked; a report is passed down the tree once. */
  ghost predicate Flow(t: Tree, s: System, h: History) {
    && t.Valid() && Shaped(t, s) && |h.status| == |h.samples| == t.ranks
    && (forall r | 0 <= r < t.ranks :: Sending(t, s.nodes[r]))
    && (s.reported[0] ==> h.status[0].Untouched?)
    && (forall r | 0 < r < t.ranks :: Passing(t, s, r))
  }

  predicate Sending(t: Tree, n: Node) {
    n.sends <= t.fanout && (n.mode.WaitingIsendChildren? || n.sends == 0)
  }

  ghost predicate Passing(t: Tree, s: System, r: nat)
    requires t.Valid() && Shaped(t, s) && 0 < r < t.ranks
  {
    var p := t.Parent(r);
    && p < r
    && (s.reported[r] ==> s.reported[p])
    && s.stops[r] == if s.reported[p] && !s.reported[r] then 1 else 0
  }

  lemma {:induction false} InitialFlow(t: Tree, s: System, h: History)
    requires Initial(t, s) && Invariant(t, s, h)
    ensures Flow(t, s, h)
  {
    hide Linkage, Locals, Waiting, Timely, Conserved, Compared, Worked, Reported, Total;
    InvariantShape(t, s, h);
    forall r | 0 < r < t.ranks
      ensures Passing(t, s, r)
    {
      ParentBelow(t, r);
    }
  }

  lemma {:induction false} SendingStep(t: Tree, s: System, h: History, e: Event, r: nat)
    requires Flow(t, s, h) && Enabled(t, s, e) && r < t.ranks
    ensures Sending(t, Next(t, s, e).nodes[r])
  {
    hide Outstanding, Total, ToChildren, Passing;
    assert Sending(t, s.nodes[r]);
  }

  lemma {:induction false} PassingStep(t: Tree, s: System, h: History, e: Event, r: nat)
    requires Flow(t, s, h) && Enabled(t, s, e) && 0 < r < t.ranks && (e.RootDecide? ==> !s.reported[0])
    ensures Passing(t, Next(t, s, e), r)
  {
    hide Outstanding, Total, Sending, Tree.Children, Tree.Parent;
    assert Passing(t, s, r);
    if e.TakeStop? {
      assert Passing(t, s, e.rank);
      ParentChild(t, e.rank, r);
    } else if e.RootDecide? {
      ParentChild(t, 0, r);
    }
  }

  lemma {:induction false} FlowStep(t: Tree, s: System, h: History, e: Event)
    requires Invariant(t, s, h) && Flow(t, s, h) && Enabled(t, s, e)
    ensures Flow(t, Next(t, s, e), Remember(t, s, h, e))
  {
    RootUntouched(t, s, h, e);
    hide Invariant, Next, Remember, Enabled, Passing, Sending;
    var s', h' := Next(t, s, e), Remember(t, s, h, e);
    forall r | 0 <= r < t.ranks
      ensures Sending(t, s'.nodes[r])
    {
      SendingStep(t, s, h, e, r);
    }
    forall r | 0 < r < t.ranks
      ensures Passing(t, s', r)
    {
      PassingStep(t, s, h, e, r);
    }
  }

  /** Only Begin engages the root, and only a decision makes it report. */
  lemma {:induction false} RootUntouched(t: Tree, s: System, h: History, e: Event)
    requires Invariant(t, s, h) && Flow(t, s, h) && Enabled(t, s, e)
    ensures var s', h' := Next(t, s, e), Remember(t, s, h, e);
      && (e.RootDecide? ==> !s.reported[0])
      && |h'.status| == |h'.samples| == t.ranks
      && (s'.reported[0] ==> h'.status[0].Untouched?)
  {
    hide Invariant, Outstanding, Total, Passing, Sending, ToChildren, Engage, Tree.Children, Tree.NumChildren, Tree.IsLeaf;
    InvariantShape(t, s, h);
    LocalAt(t, s, h, 0);
    RootIsNoLeaf(t);
    if e.TakeQuery? {
      NoParent(t, e.rank);
    }
  }

  lemma {:induction false} NoParent(t: Tree, r: nat)
    ensures 0 !in t.Children(r)
  {
  }

  // How long it can go on

  /** Moves a rank has left in the wave under way and towards its own report. */
  function Left(t: Tree, n: Node, status: Status, reported: bool): nat {
    (if reported then 0 else 1) + (if n.mode.WaitingIsendParent? then 1 else 0)
    + match status
      case Untouched => 6 + t.fanout
      case Queried => 6 + t.fanout
      case Engaged => if n.mode.WaitingIsendChildren? then 5 + n.sends else 4
      case Replied => 2
      case Taken => 1
  }

  function Lefts(t: Tree, s: System, h: History): (ls: seq<nat>)
    requires t.Valid() && Shaped(t, s) && |h.status| == t.ranks
    ensures |ls| == t.ranks
    ensures forall r | 0 <= r < t.ranks :: ls[r] == Left(t, s.nodes[r], h.status[r], s.reported[r])
  {
    seq(t.ranks, (r: nat) requires r < t.ranks => Left(t, s.nodes[r], h.status[r], s.reported[r]))
  }

  /** Most moves of a wave. */
  function Wave(t: Tree): nat { (t.fanout + 8) * t.ranks }

  lemma {:induction false} LeftsAtMost(t: Tree, s: System, h: History)
    requires Flow(t, s, h)
    ensures Sums.Sum(Lefts(t, s, h)) <= Wave(t)
  {
    hide Passing, Sums.Sum;
    var ls := Lefts(t, s, h);
    forall r | 0 <= r < t.ranks
      ensures ls[r] <= t.fanout + 8
    {
      assert Sending(t, s.nodes[r]);
    }
    Sums.SumAtMost(ls, t.fanout + 8);
  }

  /** The rank whose turn it is. */
  function Mover(e: Event): nat {
    match e
    case Queue(r, _) => r
    case Complete(r, _) => r
    case Poll(r) => r
    case Begin => 0
    case TakeQuery(r) => r
    case TakeStop(r) => r
    case SendDone(r) => r
    case ChildrenAsked(r) => r
    case LeafReply(r) => r
    case Receive(_, c) => c
    case InnerReply(r) => r
    case RootDecide => 0
    case ParentSent(r) => r
  }

  /** Children have nothing else to do when they are asked. */
  lemma {:induction false} AskedUntouched(t: Tree, s: System, h: History, e: Event)
    requires Invariant(t, s, h) && Enabled(t, s, e) && (e.Begin? || e.TakeQuery?)
    ensures |h.status| == t.ranks && Mover(e) < t.ranks
    ensures h.status[Mover(e)].Untouched? || h.status[Mover(e)].Queried?
    ensures Remember(t, s, h, e).status == Engage(t, Mover(e), h.status)
    ensures forall c | 0 <= c < t.ranks && c in t.Children(Mover(e)) :: c != Mover(e) && h.status[c].Untouched?
  {
    hide Linkage, Waiting, Timely, Conserved, Compared, Worked, Reported, Total, Outstanding;
    InvariantShape(t, s, h);
    LocalAt(t, s, h, Mover(e));
    EngageLinks(t, h.status, Mover(e));
  }

  lemma {:induction false} LeftStep(t: Tree, s: System, h: History, e: Event, r: nat)
    requires Invariant(t, s, h) && Flow(t, s, h) && Enabled(t, s, e) && !e.RootDecide? && r < t.ranks
    ensures var s', h' := Next(t, s, e), Remember(t, s, h, e);
      && |h'.status| == t.ranks
      && var before, after := Left(t, s.nodes[r], h.status[r], s.reported[r]), Left(t, s'.nodes[r], h'.status[r], s'.reported[r]);
      if Move(e) && r == Mover(e) then after < before else after == before
  {
    hide Invariant, Total, ToChildren, Outstanding, Tree.Children, Tree.NumChildren, Tree.IsLeaf, Tree.Parent, Engage;
    InvariantShape(t, s, h);
    LocalAt(t, s, h, r);
    if e.Begin? || e.TakeQuery? {
      AskedUntouched(t, s, h, e);
      AtMostFanout(t, r);
    } else if e.Receive? {
      LocalAt(t, s, h, e.child);
    }
    assert Sending(t, s.nodes[r]) && (r > 0 ==> Passing(t, s, r));
  }

  lemma {:induction false} AtMostFanout(t: Tree, r: nat)
    ensures t.NumChildren(r) <= t.fanout
  {
  }

  lemma {:induction false} LeftsStep(t: Tree, s: System, h: History, e: Event)
    requires Invariant(t, s, h) && Flow(t, s, h) && Enabled(t, s, e) && !e.RootDecide?
    ensures Flow(t, Next(t, s, e), Remember(t, s, h, e))
    ensures Sums.Sum(Lefts(t, Next(t, s, e), Remember(t, s, h, e))) + (if Move(e) then 1 else 0) <= Sums.Sum(Lefts(t, s, h))
  {
    hide Invariant, Remember, Next, Passing, Sending, Left, Sums.Sum, ToChildren, Outstanding, Total, Tree.Parent;
    FlowStep(t, s, h, e);
    var ls, ls', m := Lefts(t, s, h), Lefts(t, Next(t, s, e), Remember(t, s, h, e)), Mover(e);
    assert m < t.ranks;
    hide Enabled, Flow;
    forall r | 0 <= r < t.ranks
      ensures if Move(e) && r == m then ls'[r] < ls[r] else ls'[r] == ls[r]
    {
      LeftStep(t, s, h, e, r);
    }
    assert ls' == ls[m := ls'[m]];
    Sums.SumUpdate(ls, m, ls'[m]);
  }

  /** Moves left at most, all waves together. */
  ghost function Potential(t: Tree, s: System, h: History): nat
    requires Flow(t, s, h)
  {
    WavesLeft(s, h) * Wave(t) + Sums.Sum(Lefts(t, s, h))
  }

  lemma {:induction false} WavesTimes(a: nat, b: nat, k: nat, x: nat, y: nat)
    requires if a == b then x <= y else a < b && x <= k
    ensures a * k + x <= b * k + y
    ensures a < b && 0 < y ==> a * k + x < b * k + y
    ensures a == b && x < y ==> a * k + x < b * k + y
  {
    if a < b {
      Arithmetic.TimesLess(a, b, k);
    }
  }

  lemma {:induction false} RootHasLeft(t: Tree, s: System, h: History)
    requires Invariant(t, s, h) && Flow(t, s, h) && Enabled(t, s, RootDecide)
    ensures WavesLeft(s, h) > 0 && Sums.Sum(Lefts(t, s, h)) > 0
  {
    hide Linkage, Waiting, Timely, Conserved, Compared, Worked, Reported, Total, Outstanding, Passing, Sending, UpToDate;
    LocalAt(t, s, h, 0);
    Sums.SumAtLeast(Lefts(t, s, h), 0);
  }

  lemma {:induction false} PotentialStep(t: Tree, s: System, h: History, e: Event)
    requires Invariant(t, s, h) && Flow(t, s, h) && Enabled(t, s, e) && !Outstanding(s.counters)
    ensures Flow(t, Next(t, s, e), Remember(t, s, h, e))
    ensures Potential(t, Next(t, s, e), Remember(t, s, h, e)) + (if Move(e) then 1 else 0) <= Potential(t, s, h)
  {
    hide Invariant, Remember, Next, Enabled, WavesLeft, Outstanding, Lefts, Wave, Sums.Sum;
    FlowStep(t, s, h, e);
    WaveStep(t, s, h, e);
    var s', h' := Next(t, s, e), Remember(t, s, h, e);
    LeftsAtMost(t, s', h');
    if e.RootDecide? {
      RootHasLeft(t, s, h);
    } else {
      LeftsStep(t, s, h, e);
    }
    hide Flow;
    WavesTimes(WavesLeft(s', h'), WavesLeft(s, h), Wave(t), Sums.Sum(Lefts(t, s', h')), Sums.Sum(Lefts(t, s, h)));
  }

  lemma {:induction false} AtMostFourWaves(t: Tree, s: System, h: History)
    requires Flow(t, s, h)
    ensures Potential(t, s, h) <= 4 * Wave(t)
  {
    hide UpToDate, Passing, Sending, Total, Lefts, Sums.Sum, Wave;
    LeftsAtMost(t, s, h);
    WavesTimes(WavesLeft(s, h), 4, Wave(t), Sums.Sum(Lefts(t, s, h)), 0);
  }

  // It does go on

  lemma {:induction false} Answer(t: Tree, s: System, h: History, r: nat) returns (e: Event)
    requires t.Valid() && Shaped(t, s) && |h.status| == t.ranks && r < t.ranks && (r == 0 ==> !t.IsLeaf(r))
    requires h.status[r].Engaged? && s.nodes[r].mode.WaitingRecvChildren?
    requires s.nodes[r].waiting == Wait(t, h.status, r) && Missing(t, h.status, r) == {}
    ensures Enabled(t, s, e) && Move(e)
  {
    hide Missing, Outstanding, Total;
    e := if t.IsLeaf(r) then LeafReply(r) else if r == 0 then RootDecide else InnerReply(r);
  }

  /** Some move in the part of the wave below r, which is engaged. */
  lemma {:induction false} WaveGoesOn(t: Tree, s: System, h: History, r: nat) returns (e: Event)
    requires Invariant(t, s, h) && r < t.ranks && h.status[r].Engaged?
    ensures Enabled(t, s, e) && Move(e)
    decreases t.ranks - r
  {
    hide Invariant, Total, Outstanding, Missing, Tree.NumChildren, Tree.Children, Tree.IsLeaf;
    InvariantShape(t, s, h);
    LocalAt(t, s, h, r);
    if s.nodes[r].mode.WaitingIsendChildren? {
      e := if s.nodes[r].sends > 0 then SendDone(r) else ChildrenAsked(r);
    } else if Missing(t, h.status, r) == {} {
      RootIsNoLeaf(t);
      e := Answer(t, s, h, r);
    } else {
      var c :| c in Missing(t, h.status, r);
      e := ChildGoesOn(t, s, h, r, c);
    }
  }

  lemma {:induction false} ChildGoesOn(t: Tree, s: System, h: History, r: nat, c: nat) returns (e: Event)
    requires Invariant(t, s, h) && r < t.ranks && h.status[r].Engaged? && s.nodes[r].mode.WaitingRecvChildren?
    requires c in Missing(t, h.status, r)
    ensures Enabled(t, s, e) && Move(e)
    decreases t.ranks - r, 0
  {
    hide Timely, Conserved, Compared, Worked, Reported, Total, Outstanding, Waiting, Locals;
    InvariantShape(t, s, h);
    LeafHasNoChildren(t, r);
    ParentChild(t, r, c);
    LocalAt(t, s, h, c);
    assert Linked(h.status[t.Parent(c)], h.status[c]);
    if h.status[c].Engaged? {
      e := WaveGoesOn(t, s, h, c);
    } else if h.status[c].Replied? {
      e := Receive(r, c);
    } else {
      e := if s.nodes[c].mode.WaitingIsendParent? then ParentSent(c) else TakeQuery(c);
    }
  }

  /** With nothing sampled and the root's report made, it is on its way to a rank that has not reported. */
  lemma {:induction false} ReportGoesOn(t: Tree, s: System, h: History, r: nat) returns (e: Event)
    requires Invariant(t, s, h) && Flow(t, s, h) && s.reported[0] && r < t.ranks && !s.reported[r]
    ensures Enabled(t, s, e) && Move(e)
    decreases r
  {
    hide Timely, Conserved, Compared, Worked, Reported, Total, Outstanding, Waiting, Locals, Sending;
    InvariantShape(t, s, h);
    assert Passing(t, s, r);
    if s.reported[t.Parent(r)] {
      NoneTouched(t, h.status, r);
      LocalAt(t, s, h, r);
      e := if s.nodes[r].mode.WaitingIsendParent? then ParentSent(r) else TakeStop(r);
    } else {
      e := ReportGoesOn(t, s, h, t.Parent(r));
    }
  }

  /** Until every rank has reported some rank can go on. */
  lemma {:induction false} GoesOn(t: Tree, s: System, h: History) returns (e: Event)
    requires Invariant(t, s, h) && Flow(t, s, h) && exists r :: 0 <= r < t.ranks && !s.reported[r]
    ensures Enabled(t, s, e) && Move(e)
  {
    hide Linkage, Timely, Conserved, Compared, Worked, Reported, Total, Outstanding, Waiting, Locals, Sending, Passing;
    LocalAt(t, s, h, 0);
    if h.status[0].Engaged? {
      e := WaveGoesOn(t, s, h, 0);
    } else if !s.reported[0] {
      e := if s.nodes[0].mode.WaitingIsendParent? then ParentSent(0) else Begin;
    } else {
      var r :| 0 <= r < t.ranks && !s.reported[r];
      e := ReportGoesOn(t, s, h, r);
    }
  }

  // Runs

  function Moves(events: seq<Event>): nat {
    if events == [] then 0 else (if Move(events[0]) then 1 else 0) + Moves(events[1..])
  }

  function Decisions(events: seq<Event>): nat {
    if events == [] then 0 else (if events[0].RootDecide? then 1 else 0) + Decisions(events[1..])
  }

  lemma {:induction false} Reaches(t: Tree, s: System, h: History, events: seq<Event>, s': System) returns (h': History)
    requires Invariant(t, s, h) && Flow(t, s, h) && Run(t, s, events, s')
    ensures Invariant(t, s', h') && Flow(t, s', h')
    decreases |events|
  {
    hide Invariant, Flow, Next, Remember, Enabled;
    if events == [] {
      h' := h;
    } else {
      InvariantShape(t, s, h);
      var e := events[0];
      StepInvariant(t, s, h, e);
      FlowStep(t, s, h, e);
      h' := Reaches(t, Next(t, s, e), Remember(t, s, h, e), events[1..], s');
    }
  }

  lemma {:induction false} Quiet(t: Tree, s: System, h: History, events: seq<Event>, s': System) returns (h': History)
    requires Invariant(t, s, h) && Flow(t, s, h) && Run(t, s, events, s') && !Outstanding(s.counters)
    ensures Invariant(t, s', h') && Flow(t, s', h') && s'.counters == s.counters
    ensures Moves(events) + Potential(t, s', h') <= Potential(t, s, h)
    ensures WavesLeft(s', h') == 0 || WavesLeft(s', h') + Decisions(events) <= WavesLeft(s, h)
    decreases |events|
  {
    hide Invariant, Flow, Next, Remember, Enabled, Potential, WavesLeft, Outstanding, Move;
    if events == [] {
      h' := h;
    } else {
      InvariantShape(t, s, h);
      var e := events[0];
      StepInvariant(t, s, h, e);
      PotentialStep(t, s, h, e);
      WaveStep(t, s, h, e);
      h' := Quiet(t, Next(t, s, e), Remember(t, s, h, e), events[1..], s');
    }
  }

  /**
   Once nothing is outstanding, the wave under way and two more make the root report; two waves do when none is
   under way.
   */
  lemma {:induction false} ThreeWaves(t: Tree, s0: System, events0: seq<Event>, s: System, events: seq<Event>, s': System)
    requires Initial(t, s0) && Run(t, s0, events0, s) && Shaped(t, s) && !Outstanding(s.counters)
    requires Run(t, s, events, s') && Shaped(t, s')
    requires Decisions(events) >= if s.nodes[0].mode.WaitingInit? then 2 else 3
    ensures s'.reported[0]
  {
    hide Invariant, Flow, Outstanding, Total, Run, UpToDate, Potential;
    var h0 := InitialInvariant(t, s0);
    InitialFlow(t, s0, h0);
    var h := Reaches(t, s0, h0, events0, s);
    if s.nodes[0].mode.WaitingInit? {
      IdleUpToDate(t, s, h);
    }
    var h' := Quiet(t, s, h, events, s');
  }

  /**
   Once nothing is outstanding, the detector makes at most 4 * (fanout + 8) * ranks moves, whatever their
   order, and comes to a stop only when every rank has reported.
   */
  lemma {:induction false} AllReport(t: Tree, s0: System, events0: seq<Event>, s: System, events: seq<Event>, s': System)
    requires Initial(t, s0) && Run(t, s0, events0, s) && Shaped(t, s) && !Outstanding(s.counters)
    requires Run(t, s, events, s') && Shaped(t, s')
    ensures Moves(events) <= 4 * ((t.fanout + 8) * t.ranks)
    ensures (forall e | Move(e) :: !Enabled(t, s', e)) ==> forall r | 0 <= r < t.ranks :: s'.reported[r]
  {
    hide Invariant, Flow, Outstanding, Total, Run, UpToDate, Next, Enabled, Potential, Move, Moves;
    var h0 := InitialInvariant(t, s0);
    InitialFlow(t, s0, h0);
    var h := Reaches(t, s0, h0, events0, s);
    AtMostFourWaves(t, s, h);
    var h' := Quiet(t, s, h, events, s');
    if exists r :: 0 <= r < t.ranks && !s'.reported[r] {
      var e := GoesOn(t, s', h');
    }
  }
}
