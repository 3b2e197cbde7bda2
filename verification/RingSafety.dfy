/**
 The ring over whole runs: with at most 101 senders active at any moment no claimed slot is ever
 occupied and bundles are received in ticket order; with 102 or more senders a run reaches the
 failure.
 */
module RingSafety {
  import opened Collections
  import opened Ring

  ghost predicate Run(s: State, events: seq<Event>, s': State)
    decreases |events|
  {
    if events == [] then s' == s
    else Enabled(s, events[0]) && Run(Next(s, events[0]), events[1..], s')
  }

  /** At no moment of the run are more senders active than the bound. */
  ghost predicate Uncrowded(s: State, events: seq<Event>)
    decreases |events|
  {
    && |Active(s.senders)| <= MAX_SENDERS
    && (events != [] && Enabled(s, events[0]) ==> Uncrowded(Next(s, events[0]), events[1..]))
  }

  lemma {:induction false} UncrowdedStep(s: State, events: seq<Event>)
    requires events != [] && Enabled(s, events[0]) && Uncrowded(s, events)
    ensures Uncrowded(Next(s, events[0]), events[1..]) && |Active(Next(s, events[0]).senders)| <= MAX_SENDERS
  {
  }

  /** So few senders cannot crowd the ring. */
  lemma {:induction false} FewAreUncrowded(s: State, events: seq<Event>)
    requires |s.senders| <= MAX_SENDERS
    ensures Uncrowded(s, events)
    decreases |events|
  {
    IndicesSize(|s.senders|);
    SubsetSize(Active(s.senders), Indices(|s.senders|));
    if events != [] && Enabled(s, events[0]) {
      FewAreUncrowded(Next(s, events[0]), events[1..]);
    }
  }

  /** Bundles in the order in which their tickets were claimed. */
  ghost function Claims(s: State, events: seq<Event>): seq<Bundle>
    decreases |events|
  {
    if events == [] || !Enabled(s, events[0]) then []
    else
      (if events[0].Claim? then [s.senders[events[0].i].bundle] else []) + Claims(Next(s, events[0]), events[1..])
  }

  /** The ghost bundles grow by the claimed bundle, and only then. */
  lemma {:induction false} RememberBundle(s: State, h: Tickets, ev: Event)
    requires Enabled(s, ev)
    ensures Remember(s, h, ev).bundle == h.bundle + if ev.Claim? then [s.senders[ev.i].bundle] else []
  {
  }

  lemma {:induction false} ClaimsStep(s: State, events: seq<Event>)
    requires events != [] && Enabled(s, events[0])
    ensures Claims(s, events)
      == (if events[0].Claim? then [s.senders[events[0].i].bundle] else []) + Claims(Next(s, events[0]), events[1..])
  {
  }

  lemma {:induction false} RunStep(s: State, events: seq<Event>, s': State)
    requires events != [] && Run(s, events, s')
    ensures Enabled(s, events[0]) && Run(Next(s, events[0]), events[1..], s')
  {
  }

  lemma {:induction false} RunKeeps(s: State, h: Tickets, events: seq<Event>, s': State) returns (h': Tickets)
    requires Invariant(s, h) && Run(s, events, s') && Uncrowded(s, events)
    ensures Invariant(s', h') && h'.bundle == h.bundle + Claims(s, events)
    decreases |events|
  {
    if events == [] {
      h' := h;
    } else {
      hide *;
      var ev := events[0];
      RunStep(s, events, s');
      UncrowdedStep(s, events);
      StepInvariant(s, h, ev);
      RememberBundle(s, h, ev);
      ClaimsStep(s, events);
      h' := RunKeeps(Next(s, ev), Remember(s, h, ev), events[1..], s');
      Regroup(h.bundle, if ev.Claim? then [s.senders[ev.i].bundle] else [], Claims(Next(s, ev), events[1..]));
    }
  }

  lemma {:induction false} Regroup(a: seq<Bundle>, b: seq<Bundle>, c: seq<Bundle>)
    ensures (a + b) + c == a + (b + c)
  {
  }

  /**
   For every number of senders and every interleaving in which at most 101 are active at a time: no sender finds
   its claimed slot occupied, what is received is the bundles in ticket order, each once, and when the ring is
   drained it is all of them.
   */
  lemma {:induction false} RingExact(n: nat, events: seq<Event>, s': State)
    requires Run(Empty(n), events, s') && Uncrowded(Empty(n), events)
    ensures forall i | 0 <= i < |s'.senders| :: !s'.senders[i].Failed?
    ensures s'.end == |Claims(Empty(n), events)| <= s'.beg + CAPACITY
    ensures s'.received <= Claims(Empty(n), events)
    ensures s'.receiver.Waiting? ==> |s'.received| == s'.beg
    ensures s'.receiver.Waiting? && s'.beg == s'.end ==> s'.received == Claims(Empty(n), events)
  {
    EmptyInvariant(n);
    var h := RunKeeps(Empty(n), Tickets([], [], [], 0), events, s');
    AtMostCapacity(s', h);
    forall i | 0 <= i < |s'.senders|
      ensures !s'.senders[i].Failed?
    {
      assert SenderOk(i, s'.senders[i], s'.beg, h);
    }
    assert h.bundle == Claims(Empty(n), events);
  }

  // Too many senders

  lemma {:induction false} RunAppend(s: State, xs: seq<Event>, t: State, ys: seq<Event>, u: State)
    requires Run(s, xs, t) && Run(t, ys, u)
    ensures Run(s, xs + ys, u)
    decreases |xs|
  {
    if xs == [] {
      assert xs + ys == ys;
    } else {
      RunAppend(Next(s, xs[0]), xs[1..], t, ys, u);
      assert (xs + ys)[1..] == xs[1..] + ys;
    }
  }

  lemma {:induction false} RunOne(s: State, ev: Event)
    requires Enabled(s, ev)
    ensures Run(s, [ev], Next(s, ev))
  {
    assert [ev][1..] == [];
    assert Run(Next(s, ev), [], Next(s, ev));
  }

  // The receiver keeps up

  /** Once no sender holds the oldest ticket any more, the receiver that looks takes its bundle. */
  lemma {:induction false} TakesStored(s: State, h: Tickets)
    requires Invariant(s, h) && Enabled(s, Take) && forall i | 0 <= i < |s.senders| :: !Holds(s.senders[i], s.beg)
    ensures s.beg < |h.bundle| && Next(s, Take).receiver.Taken?
    ensures Next(s, Take).received == s.received + [h.bundle[s.beg]]
  {
    hide Window;
    assert h.stored[s.beg];
    assert s.slots[s.beg % CAPACITY] == SlotOf(h, s.beg, s.receiver, s.beg);
  }

  /** Nobody is sending. */
  ghost predicate Quiet(s: State) { forall i | 0 <= i < |s.senders| :: s.senders[i].Idle? }

  lemma {:induction false} ReceiverStep(s: State, h: Tickets, ev: Event)
    requires Invariant(s, h) && Quiet(s) && Enabled(s, ev) && (ev.Probe? || ev.Take? || ev.Clear? || ev.Advance?)
    ensures Invariant(Next(s, ev), h) && Next(s, ev).senders == s.senders && Next(s, ev).end == s.end
  {
    var none: set<nat> := {};
    assert Active(s.senders) == none;
    hide Invariant;
    StepInvariant(s, h, ev);
  }

  /** Four steps of the receiver, nobody sending: the next bundle. */
  lemma {:induction false} ReceiveNext(s: State, h: Tickets) returns (events: seq<Event>, s': State)
    requires Invariant(s, h) && Quiet(s) && s.receiver.Waiting? && s.beg < s.end
    ensures events == [Probe, Take, Clear, Advance] && Run(s, events, s') && Invariant(s', h)
    ensures s' == State(s.end, s.beg + 1, s'.slots, s.senders, Waiting, s.received + [h.bundle[s.beg]])
  {
    hide Invariant, Active, Run;
    SlotCount(s, h);
    var s1 := Next(s, Probe);
    ReceiverStep(s, h, Probe);
    SlotCount(s1, h);
    TakesStored(s1, h);
    ReceiverStep(s1, h, Take);
    var s2 := Next(s1, Take);
    SlotCount(s2, h);
    ReceiverStep(s2, h, Clear);
    var s3 := Next(s2, Clear);
    ReceiverStep(s3, h, Advance);
    s' := Next(s3, Advance);
    events := [Probe, Take, Clear, Advance];
    FourSteps(s, s1, s2, s3, s');
  }

  lemma {:induction false} FourSteps(s: State, s1: State, s2: State, s3: State, s': State)
    requires Enabled(s, Probe) && s1 == Next(s, Probe) && Enabled(s1, Take) && s2 == Next(s1, Take)
    requires Enabled(s2, Clear) && s3 == Next(s2, Clear) && Enabled(s3, Advance) && s' == Next(s3, Advance)
    ensures Run(s, [Probe, Take, Clear, Advance], s')
  {
    hide *;
    RunOne(s, Probe);
    RunOne(s1, Take);
    RunOne(s2, Clear);
    RunOne(s3, Advance);
    RunAppend(s, [Probe], s1, [Take], s2);
    RunAppend(s, [Probe] + [Take], s2, [Clear], s3);
    RunAppend(s, [Probe] + [Take] + [Clear], s3, [Advance], s');
    assert [Probe, Take, Clear, Advance] == [Probe] + [Take] + [Clear] + [Advance];
  }

  lemma {:induction false} SlotCount(s: State, h: Tickets)
    requires Invariant(s, h)
    ensures |s.slots| == CAPACITY && s.beg <= |h.bundle| == s.end
    ensures s.receiver.Waiting? ==> s.received == h.bundle[..s.beg]
  {
  }

  lemma {:induction false} ReceiveAll(s: State, h: Tickets) returns (events: seq<Event>, s': State)
    requires Invariant(s, h) && Quiet(s) && s.receiver.Waiting?
    ensures Run(s, events, s') && |events| == 4 * (s.end - s.beg) && s'.received == h.bundle && s'.beg == s.end
    decreases s.end - s.beg
  {
    SlotCount(s, h);
    hide Invariant, Run;
    if s.beg == s.end {
      events, s' := [], s;
      RunNone(s);
    } else {
      var first, s1 := ReceiveNext(s, h);
      var rest;
      rest, s' := ReceiveAll(s1, h);
      RunAppend(s, first, s1, rest, s');
      events := first + rest;
    }
  }

  lemma {:induction false} RunNone(s: State)
    ensures Run(s, [], s)
  {
  }

  /** When sending stops, the receiver can go on to the end: four steps a bundle, and everything sent is received. */
  lemma {:induction false} RingDrains(n: nat, events: seq<Event>, s: State) returns (more: seq<Event>, s': State)
    requires Run(Empty(n), events, s) && Uncrowded(Empty(n), events) && Quiet(s) && s.receiver.Waiting?
    ensures Run(s, more, s') && |more| == 4 * (s.end - s.beg) && s'.received == Claims(Empty(n), events)
  {
    hide Run, Invariant, Uncrowded, Claims;
    EmptyInvariant(n);
    var h := RunKeeps(Empty(n), Tickets([], [], [], 0), events, s);
    assert [] + Claims(Empty(n), events) == Claims(Empty(n), events);
    SlotCount(s, h);
    more, s' := ReceiveAll(s, h);
  }

  /** The first k slots are taken, no one is sending and nothing has been received. */
  function Filled(n: nat, k: nat): State {
    State(k, 0, seq(CAPACITY, (p: nat) => if p < k then Some(0) else None), seq(n, _ => Idle), Waiting, [])
  }

  /** An undisturbed send is seven steps. */
  lemma {:induction false} FillOne(n: nat, k: nat) returns (events: seq<Event>)
    requires n > 0 && k < CAPACITY - SLACK
    ensures Run(Filled(n, k), events, Filled(n, k + 1))
  {
    var s0 := Filled(n, k);
    var s1 := Next(s0, Start(0, 0));
    var s2 := Next(s1, ReadEnd(0));
    var s3 := Next(s2, ReadBeg(0));
    var s4 := Next(s3, Check(0));
    assert s4.senders[0] == Passed(0, k, 0);
    var s5 := Next(s4, Claim(0));
    var s6 := Next(s5, Test(0));
    var s7 := Next(s6, Store(0));
    RunOne(s0, Start(0, 0));
    RunOne(s1, ReadEnd(0));
    RunOne(s2, ReadBeg(0));
    RunOne(s3, Check(0));
    RunOne(s4, Claim(0));
    RunOne(s5, Test(0));
    RunOne(s6, Store(0));
    assert s7 == Filled(n, k + 1);
    hide *;
    RunAppend(s0, [Start(0, 0)], s1, [ReadEnd(0)], s2);
    RunAppend(s0, [Start(0, 0)] + [ReadEnd(0)], s2, [ReadBeg(0)], s3);
    events := [Start(0, 0)] + [ReadEnd(0)] + [ReadBeg(0)];
    RunAppend(s0, events, s3, [Check(0)], s4);
    RunAppend(s0, events + [Check(0)], s4, [Claim(0)], s5);
    events := events + [Check(0)] + [Claim(0)];
    RunAppend(s0, events, s5, [Test(0)], s6);
    RunAppend(s0, events + [Test(0)], s6, [Store(0)], s7);
    events := events + [Test(0)] + [Store(0)];
  }

  lemma {:induction false} Fill(n: nat, k: nat) returns (events: seq<Event>)
    requires n > 0 && k <= CAPACITY - SLACK - 1
    ensures Run(Empty(n), events, Filled(n, k))
  {
    if k == 0 {
      events := [];
      assert Filled(n, 0) == Empty(n);
    } else {
      var before := Fill(n, k - 1);
      var more := FillOne(n, k - 1);
      RunAppend(Empty(n), before, Filled(n, k - 1), more, Filled(n, k));
      events := before + more;
    }
  }

  const NEARLY: nat := CAPACITY - SLACK - 1

  /** One more than the bound. */
  const CROWD: nat := MAX_SENDERS + 1

  /** The first j senders have passed the check, none has claimed yet. */
  function Poised(n: nat, j: nat): State {
    Filled(n, NEARLY).(senders := seq(n, (i: nat) => if i < j then Passed(0, NEARLY, 0) else Idle))
  }

  lemma {:induction false} PoiseOne(n: nat, j: nat)
    requires j < n
    ensures Run(Poised(n, j), [Start(j, 0)] + [ReadEnd(j)] + [ReadBeg(j)] + [Check(j)], Poised(n, j + 1))
  {
    var s0 := Poised(n, j);
    var s1 := Next(s0, Start(j, 0));
    var s2 := Next(s1, ReadEnd(j));
    var s3 := Next(s2, ReadBeg(j));
    var s4 := Next(s3, Check(j));
    assert s4 == Poised(n, j + 1);
    RunOne(s0, Start(j, 0));
    RunOne(s1, ReadEnd(j));
    RunOne(s2, ReadBeg(j));
    RunOne(s3, Check(j));
    hide *;
    RunAppend(s0, [Start(j, 0)], s1, [ReadEnd(j)], s2);
    RunAppend(s0, [Start(j, 0)] + [ReadEnd(j)], s2, [ReadBeg(j)], s3);
    RunAppend(s0, [Start(j, 0)] + [ReadEnd(j)] + [ReadBeg(j)], s3, [Check(j)], s4);
  }

  lemma {:induction false} Poise(n: nat, j: nat) returns (events: seq<Event>)
    requires 0 < n && j <= n
    ensures Run(Empty(n), events, Poised(n, j))
  {
    if j == 0 {
      events := Fill(n, NEARLY);
      assert Poised(n, 0) == Filled(n, NEARLY);
    } else {
      var before := Poise(n, j - 1);
      PoiseOne(n, j - 1);
      var more := [Start(j - 1, 0)] + [ReadEnd(j - 1)] + [ReadBeg(j - 1)] + [Check(j - 1)];
      RunAppend(Empty(n), before, Poised(n, j - 1), more, Poised(n, j));
      events := before + more;
    }
  }

  /** The first 102 senders have passed the check, the first j of them have claimed their tickets. */
  function Claimed(n: nat, j: nat): State {
    Poised(n, CROWD).(
      end := NEARLY + j,
      senders := seq(n, (i: nat) =>
        if i < j then Sender.Claimed(0, NEARLY + i) else if i < CROWD then Passed(0, NEARLY, 0) else Idle))
  }

  lemma {:induction false} ClaimAll(n: nat, j: nat) returns (events: seq<Event>)
    requires j <= CROWD <= n
    ensures Run(Empty(n), events, Claimed(n, j))
  {
    if j == 0 {
      events := Poise(n, CROWD);
      assert Claimed(n, 0) == Poised(n, CROWD);
    } else {
      var before := ClaimAll(n, j - 1);
      var s := Claimed(n, j - 1);
      assert Next(s, Claim(j - 1)) == Claimed(n, j);
      RunOne(s, Claim(j - 1));
      RunAppend(Empty(n), before, s, [Claim(j - 1)], Claimed(n, j));
      events := before + [Claim(j - 1)];
    }
  }

  /** With more senders than the bound, the last claimed ticket comes round to a taken slot. */
  lemma {:induction false} MoreFail(n: nat) returns (events: seq<Event>, s': State)
    requires n > MAX_SENDERS
    ensures Run(Empty(n), events, s') && MAX_SENDERS < |s'.senders| && s'.senders[MAX_SENDERS].Failed?
  {
    var before := ClaimAll(n, CROWD);
    var s := Claimed(n, CROWD);
    s' := Next(s, Test(MAX_SENDERS));
    RunOne(s, Test(MAX_SENDERS));
    RunAppend(Empty(n), before, s, [Test(MAX_SENDERS)], s');
    events := before + [Test(MAX_SENDERS)];
  }

  /** A run in which some sender finds its slot taken. */
  ghost predicate Fails(n: nat, events: seq<Event>, s': State) {
    Run(Empty(n), events, s') && exists i | 0 <= i < |s'.senders| :: s'.senders[i].Failed?
  }

  /** Some run fails exactly when there are more senders than the slack carries. */
  lemma {:induction false} FailsIffCrowded(n: nat)
    ensures (exists events: seq<Event>, s': State :: Fails(n, events, s')) <==> n > MAX_SENDERS
  {
    hide Run;
    if n > MAX_SENDERS {
      var events, s' := MoreFail(n);
      assert Fails(n, events, s');
    } else {
      forall events: seq<Event>, s': State | Fails(n, events, s')
        ensures false
      {
        FewAreUncrowded(Empty(n), events);
        RingExact(n, events, s');
      }
    }
  }
}
