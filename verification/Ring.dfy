/**
 The ring through which the processes of a node hand bundles to one receiver without locks.
 Senders read the two counters separately and in either order, claim a slot by fetch-and-add, test
 it and store into it; the receiver takes a slot, clears it and moves on. Every read, write and
 fetch-and-add is a step of its own.
 */
module Ring {
  import opened Collections

  const CAPACITY: nat := 2048
  const SLACK: nat := 100
  const MAX_SENDERS: nat := 101

  /** Counters are 64 bits wide and stay below half of that. */
  const WORD: nat := 0x1_0000_0000_0000_0000
  const COUNTER_LIMIT: nat := 0x8000_0000_0000_0000

  type Bundle = nat

  datatype Sender =
    | Idle
    | Reading(bundle: Bundle, end: Option<nat>, beg: Option<nat>)
    | Passed(bundle: Bundle, e: nat, b: nat)
    | Claimed(bundle: Bundle, ticket: nat)
    | Tested(bundle: Bundle, ticket: nat)
    | Failed

  datatype Receiver = Waiting | Ready | Taken | Cleared

  datatype State = State(
    end: nat,
    beg: nat,
    slots: seq<Option<Bundle>>,
    senders: seq<Sender>,
    receiver: Receiver,
    received: seq<Bundle>)

  datatype Event =
    | Start(i: nat, bundle: Bundle)
    | ReadEnd(i: nat)
    | ReadBeg(i: nat)
    | Check(i: nat)
    | Claim(i: nat)
    | Test(i: nat)
    | Store(i: nat)
    | Probe
    | Take
    | Clear
    | Advance

  /** The difference of two unsigned words, against the capacity less the slack. */
  predicate Full(e: nat, b: nat) {
    (e - b) % WORD >= CAPACITY - SLACK
  }

  ghost predicate Enabled(s: State, ev: Event) {
    match ev
    case Start(i, _) => i < |s.senders| && s.senders[i].Idle?
    case ReadEnd(i) => i < |s.senders| && s.senders[i].Reading? && s.senders[i].end.None?
    case ReadBeg(i) => i < |s.senders| && s.senders[i].Reading? && s.senders[i].beg.None?
    case Check(i) => i < |s.senders| && s.senders[i].Reading? && s.senders[i].end.Some? && s.senders[i].beg.Some?
    case Claim(i) => i < |s.senders| && s.senders[i].Passed? && s.end + 1 < COUNTER_LIMIT
    case Test(i) => i < |s.senders| && s.senders[i].Claimed? && |s.slots| == CAPACITY
    case Store(i) => i < |s.senders| && s.senders[i].Tested? && |s.slots| == CAPACITY
    case Probe => s.receiver.Waiting? && s.end > s.beg
    case Take => s.receiver.Ready? && |s.slots| == CAPACITY
    case Clear => s.receiver.Taken? && |s.slots| == CAPACITY
    case Advance => s.receiver.Cleared?
  }

  function Next(s: State, ev: Event): State
    requires Enabled(s, ev)
  {
    match ev
    case Start(i, bundle) => s.(senders := s.senders[i := Reading(bundle, None, None)])
    case ReadEnd(i) => s.(senders := s.senders[i := s.senders[i].(end := Some(s.end))])
    case ReadBeg(i) => s.(senders := s.senders[i := s.senders[i].(beg := Some(s.beg))])
    case Check(i) =>
      var e, b := s.senders[i].end.value, s.senders[i].beg.value;
      s.(senders := s.senders[i := if Full(e, b) then Idle else Passed(s.senders[i].bundle, e, b)])
    case Claim(i) =>
      s.(end := s.end + 1, senders := s.senders[i := Claimed(s.senders[i].bundle, s.end)])
    case Test(i) =>
      var c := s.senders[i];
      s.(senders := s.senders[i :=
        if s.slots[c.ticket % CAPACITY].None? then Tested(c.bundle, c.ticket) else Failed])
    case Store(i) =>
      var c := s.senders[i];
      s.(slots := s.slots[c.ticket % CAPACITY := Some(c.bundle)], senders := s.senders[i := Idle])
    case Probe => s.(receiver := Ready)
    case Take =>
      var slot := s.slots[s.beg % CAPACITY];
      if slot.Some? then s.(receiver := Taken, received := s.received + [slot.value])
      else s.(receiver := Waiting)
    case Clear => s.(receiver := Cleared, slots := s.slots[s.beg % CAPACITY := None])
    case Advance => s.(receiver := Waiting, beg := s.beg + 1)
  }

  function Empty(n: nat): State {
    State(0, 0, seq(CAPACITY, _ => None), seq(n, _ => Idle), Waiting, [])
  }

  // What the proof remembers about every ticket

  datatype Tickets = Tickets(owner: seq<nat>, bundle: seq<Bundle>, stored: seq<bool>, high: nat)

  function Remember(s: State, h: Tickets, ev: Event): Tickets
    requires Enabled(s, ev)
  {
    match ev
    case Claim(i) =>
      var e := s.senders[i].e;
      Tickets(h.owner + [i], h.bundle + [s.senders[i].bundle], h.stored + [false], if e > h.high then e else h.high)
    case Store(i) =>
      var t := s.senders[i].ticket;
      if t < |h.stored| then h.(stored := h.stored[t := true]) else h
    case _ => h
  }

  ghost predicate SenderOk(i: nat, c: Sender, beg: nat, h: Tickets) {
    match c
    case Idle => true
    case Reading(_, e, b) => (e.Some? ==> e.value <= |h.owner|) && (b.Some? ==> b.value <= beg)
    case Passed(_, e, b) => e <= |h.owner| && b <= beg && b <= e < b + CAPACITY - SLACK
    case Claimed(bundle, t) =>
      t < |h.owner| == |h.bundle| == |h.stored| && h.owner[t] == i && h.bundle[t] == bundle && !h.stored[t]
    case Tested(bundle, t) =>
      t < |h.owner| == |h.bundle| == |h.stored| && h.owner[t] == i && h.bundle[t] == bundle && !h.stored[t]
    case Failed => false
  }

  predicate Holds(c: Sender, t: nat) { (c.Claimed? || c.Tested?) && c.ticket == t }

  ghost predicate SendersOk(senders: seq<Sender>, beg: nat, h: Tickets) {
    && (forall i | 0 <= i < |senders| :: SenderOk(i, senders[i], beg, h))
    && (forall u | 0 <= u < |h.owner| :: h.owner[u] < |senders|)
    && |h.owner| == |h.bundle| == |h.stored|
    && (forall u | 0 <= u < |h.owner| && !h.stored[u] :: Holds(senders[h.owner[u]], u))
  }

  /** The senders between the start of a send and its end. */
  function Active(senders: seq<Sender>): (active: set<nat>)
    ensures forall i: nat :: i in active <==> i < |senders| && !senders[i].Idle? && !senders[i].Failed?
  {
    set i | i in Indices(|senders|) && !senders[i].Idle? && !senders[i].Failed?
  }

  /** c has read an end of at most u and not claimed yet. */
  predicate HasRead(c: Sender, u: nat) {
    (c.Reading? && c.end.Some? && c.end.value <= u) || (c.Passed? && c.e <= u)
  }

  function Readers(senders: seq<Sender>, u: nat): set<nat> {
    set i | i in Indices(|senders|) && HasRead(senders[i], u)
  }

  /**
   From the highest successful check on: the tickets from u on, together with the senders that read
   an end of at most u and may still claim one, are no more than the senders active when the end was u.
   */
  ghost predicate Window(senders: seq<Sender>, beg: nat, end: nat, h: Tickets) {
    && |h.owner| == end && beg <= end && h.high <= end && h.high <= beg + CAPACITY - SLACK - 1
    && (forall u | h.high <= u <= end :: Bounded(senders, end, u))
  }

  ghost predicate Bounded(senders: seq<Sender>, end: nat, u: nat) {
    end - u + |Readers(senders, u)| <= MAX_SENDERS
  }

  function SlotOf(h: Tickets, beg: nat, receiver: Receiver, u: nat): Option<Bundle> {
    if u < |h.stored| && u < |h.bundle| && h.stored[u] && !(receiver.Cleared? && u == beg) then Some(h.bundle[u]) else None
  }

  ghost predicate SlotsOk(slots: seq<Option<Bundle>>, beg: nat, receiver: Receiver, h: Tickets) {
    && |slots| == CAPACITY
    && forall u | beg <= u < beg + CAPACITY :: slots[u % CAPACITY] == SlotOf(h, beg, receiver, u)
  }

  /** What was received is the bundles of the first tickets, in order. */
  ghost predicate ReceivedOk(beg: nat, receiver: Receiver, received: seq<Bundle>, h: Tickets) {
    && beg <= |h.bundle| == |h.stored|
    && (forall u | 0 <= u < beg :: h.stored[u])
    && (!receiver.Waiting? ==> beg < |h.bundle|)
    && (receiver.Taken? || receiver.Cleared? ==> h.stored[beg])
    && received == if receiver.Taken? || receiver.Cleared? then h.bundle[..beg + 1] else h.bundle[..beg]
  }

  ghost predicate Invariant(s: State, h: Tickets) {
    && s.end < COUNTER_LIMIT
    && Window(s.senders, s.beg, s.end, h)
    && SendersOk(s.senders, s.beg, h)
    && SlotsOk(s.slots, s.beg, s.receiver, h)
    && ReceivedOk(s.beg, s.receiver, s.received, h)
  }

  /** Never more tickets out than slots. */
  lemma {:induction false} AtMostCapacity(s: State, h: Tickets)
    requires Invariant(s, h)
    ensures s.end <= h.high + MAX_SENDERS && s.end <= s.beg + CAPACITY
  {
    assert Bounded(s.senders, s.end, h.high);
  }

  lemma {:induction false} SameSlot(u: nat, v: nat)
    requires u % CAPACITY == v % CAPACITY && u <= v < u + CAPACITY
    ensures u == v
  {
  }

  lemma {:induction false} EmptyInvariant(n: nat)
    ensures Invariant(Empty(n), Tickets([], [], [], 0))
  {
    assert Readers(Empty(n).senders, 0) == {};
  }

  // How a sender's step changes the window

  lemma {:induction false} ReadersActive(senders: seq<Sender>, u: nat)
    ensures |Readers(senders, u)| <= |Active(senders)|
  {
    SubsetSize(Readers(senders, u), Active(senders));
  }

  lemma {:induction false} ReadersShrink(senders: seq<Sender>, i: nat, c: Sender, u: nat)
    requires i < |senders| && (HasRead(c, u) ==> HasRead(senders[i], u))
    ensures |Readers(senders[i := c], u)| <= |Readers(senders, u)|
  {
    SubsetSize(Readers(senders[i := c], u), Readers(senders, u));
  }

  /** A step that reads no end and claims no ticket. */
  lemma {:induction false} WindowKept(senders: seq<Sender>, beg: nat, end: nat, h: Tickets, i: nat, c: Sender)
    requires Window(senders, beg, end, h) && i < |senders|
    requires forall u: nat :: HasRead(c, u) ==> HasRead(senders[i], u)
    ensures Window(senders[i := c], beg, end, h)
  {
    hide Readers;
    var next := senders[i := c];
    forall u: nat | h.high <= u <= end
      ensures Bounded(next, end, u)
    {
      assert Bounded(senders, end, u);
      ReadersShrink(senders, i, c, u);
    }
  }

  lemma {:induction false} ReadWindow(senders: seq<Sender>, beg: nat, end: nat, h: Tickets, i: nat, c: Sender)
    requires Window(senders, beg, end, h) && i < |senders| && |Active(senders[i := c])| <= MAX_SENDERS
    requires forall u | 0 <= u < end :: !HasRead(c, u)
    ensures Window(senders[i := c], beg, end, h)
  {
    hide Readers, HasRead;
    var next := senders[i := c];
    forall u: nat | h.high <= u <= end
      ensures Bounded(next, end, u)
    {
      assert Bounded(senders, end, u);
      if u < end {
        ReadersShrink(senders, i, c, u);
      } else {
        ReadersActive(senders[i := c], u);
      }
    }
  }

  // Steps of a sender

  lemma {:induction false} SenderMoves(senders: seq<Sender>, beg: nat, h: Tickets, i: nat, c: Sender)
    requires SendersOk(senders, beg, h) && i < |senders| && SenderOk(i, c, beg, h)
    requires forall u | 0 <= u < |h.owner| && h.owner[u] == i && !h.stored[u] :: Holds(c, u)
    ensures SendersOk(senders[i := c], beg, h)
  {
  }

  /** A sender that holds no ticket has stored all of its own. */
  lemma {:induction false} NothingHeld(senders: seq<Sender>, beg: nat, h: Tickets, i: nat)
    requires SendersOk(senders, beg, h) && i < |senders| && !senders[i].Claimed? && !senders[i].Tested?
    ensures forall u | 0 <= u < |h.owner| && h.owner[u] == i :: h.stored[u]
  {
  }

  lemma {:induction false} QuietStep(s: State, h: Tickets, ev: Event)
    requires Invariant(s, h) && Enabled(s, ev) && |Active(Next(s, ev).senders)| <= MAX_SENDERS
    requires ev.Start? || ev.ReadEnd? || ev.ReadBeg? || ev.Check?
    ensures Invariant(Next(s, ev), h)
  {
    hide Window, SlotsOk, ReceivedOk, Active;
    var i, s' := ev.i, Next(s, ev);
    assert s'.slots == s.slots && s'.receiver == s.receiver && s'.received == s.received;
    assert s'.beg == s.beg && s'.end == s.end && s'.senders == s.senders[i := s'.senders[i]];
    NothingHeld(s.senders, s.beg, h, i);
    assert SenderOk(i, s.senders[i], s.beg, h);
    CheckPasses(s, ev);
    WindowEnd(s.senders, s.beg, s.end, h);
    assert SenderOk(i, s'.senders[i], s.beg, h);
    SenderMoves(s.senders, s.beg, h, i, s'.senders[i]);
    hide SendersOk;
    if ev.ReadEnd? {
      ReadWindow(s.senders, s.beg, s.end, h, i, s'.senders[i]);
    } else {
      WindowKept(s.senders, s.beg, s.end, h, i, s'.senders[i]);
    }
  }

  lemma {:induction false} WindowEnd(senders: seq<Sender>, beg: nat, end: nat, h: Tickets)
    requires Window(senders, beg, end, h)
    ensures |h.owner| == end && beg <= end
  {
  }

  lemma {:induction false} CheckPasses(s: State, ev: Event)
    requires Enabled(s, ev)
    ensures ev.Check? ==>
      var e, b := s.senders[ev.i].end.value, s.senders[ev.i].beg.value;
      b < COUNTER_LIMIT && e < COUNTER_LIMIT ==> (Full(e, b) <==> !(b <= e < b + CAPACITY - SLACK))
  {
  }

  lemma {:induction false} ClaimWindow(senders: seq<Sender>, beg: nat, end: nat, h: Tickets, g: Tickets, i: nat, c: Sender)
    requires Window(senders, beg, end, h) && i < |senders| && senders[i].Passed? && SenderOk(i, senders[i], beg, h)
    requires c.Claimed? && |Active(senders[i := c])| <= MAX_SENDERS
    requires g.owner == h.owner + [i] && g.high == if senders[i].e > h.high then senders[i].e else h.high
    ensures Window(senders[i := c], beg, end + 1, g)
  {
    hide Active;
    var next, end' := senders[i := c], end + 1;
    forall u: nat | g.high <= u <= end'
      ensures Bounded(next, end', u)
    {
      if u <= end {
        assert Bounded(senders, end, u);
        assert i in Readers(senders, u);
        assert Readers(senders[i := c], u) == Readers(senders, u) - {i};
      } else {
        ReadersActive(senders[i := c], u);
      }
    }
  }

  lemma {:induction false} ClaimSenders(senders: seq<Sender>, beg: nat, h: Tickets, i: nat, bundle: Bundle, e: nat, b: nat, high: nat)
    requires SendersOk(senders, beg, h) && i < |senders| && senders[i] == Passed(bundle, e, b)
    ensures SendersOk(senders[i := Claimed(bundle, |h.owner|)], beg, Tickets(h.owner + [i], h.bundle + [bundle], h.stored + [false], high))
  {
    var g := Tickets(h.owner + [i], h.bundle + [bundle], h.stored + [false], high);
    NothingHeld(senders, beg, h, i);
    forall j | 0 <= j < |senders| && j != i
      ensures SenderOk(j, senders[j], beg, g)
    {
      assert SenderOk(j, senders[j], beg, h);
    }
  }

  lemma {:induction false} ClaimStep(s: State, h: Tickets, i: nat)
    requires Invariant(s, h) && Enabled(s, Claim(i)) && |Active(Next(s, Claim(i)).senders)| <= MAX_SENDERS
    ensures Invariant(Next(s, Claim(i)), Remember(s, h, Claim(i)))
  {
    hide Active;
    var c := s.senders[i];
    var g := Remember(s, h, Claim(i));
    assert SenderOk(i, c, s.beg, h);
    WindowEnd(s.senders, s.beg, s.end, h);
    ClaimWindow(s.senders, s.beg, s.end, h, g, i, Claimed(c.bundle, s.end));
    ClaimSenders(s.senders, s.beg, h, i, c.bundle, c.e, c.b, g.high);
    ClaimReceived(s.beg, s.receiver, s.received, h, g, i, c.bundle);
    ClaimSlots(s.slots, s.beg, s.receiver, h, g, i, c.bundle);
    hide SendersOk, Window, SlotsOk, ReceivedOk;
  }

  lemma {:induction false} ClaimReceived(beg: nat, receiver: Receiver, received: seq<Bundle>, h: Tickets, g: Tickets, i: nat, bundle: Bundle)
    requires ReceivedOk(beg, receiver, received, h)
    requires g.bundle == h.bundle + [bundle] && g.stored == h.stored + [false]
    ensures ReceivedOk(beg, receiver, received, g)
  {
    if beg < |h.bundle| {
      assert g.bundle[..beg + 1] == h.bundle[..beg + 1];
    }
    assert g.bundle[..beg] == h.bundle[..beg];
  }

  lemma {:induction false} ClaimSlots(slots: seq<Option<Bundle>>, beg: nat, receiver: Receiver, h: Tickets, g: Tickets, i: nat, bundle: Bundle)
    requires SlotsOk(slots, beg, receiver, h) && |h.bundle| == |h.stored|
    requires g.bundle == h.bundle + [bundle] && g.stored == h.stored + [false]
    ensures SlotsOk(slots, beg, receiver, g)
  {
    forall u | beg <= u < beg + CAPACITY
      ensures slots[u % CAPACITY] == SlotOf(g, beg, receiver, u)
    {
      assert slots[u % CAPACITY] == SlotOf(h, beg, receiver, u);
    }
  }

  /** A claimed slot is always empty when it is tested and when it is stored to. */
  lemma {:induction false} ClaimedSlotEmpty(s: State, h: Tickets, i: nat)
    requires Invariant(s, h) && i < |s.senders| && (s.senders[i].Claimed? || s.senders[i].Tested?)
    ensures var t := s.senders[i].ticket;
      s.beg <= t < s.beg + CAPACITY && t < s.end && s.slots[t % CAPACITY] == None
  {
    var t := s.senders[i].ticket;
    assert SenderOk(i, s.senders[i], s.beg, h);
    AtMostCapacity(s, h);
    assert s.slots[t % CAPACITY] == SlotOf(h, s.beg, s.receiver, t);
  }

  lemma {:induction false} TestStep(s: State, h: Tickets, i: nat)
    requires Invariant(s, h) && Enabled(s, Test(i))
    ensures Invariant(Next(s, Test(i)), h)
    ensures Next(s, Test(i)).senders[i].Tested?
  {
    var c := s.senders[i];
    ClaimedSlotEmpty(s, h, i);
    assert SenderOk(i, c, s.beg, h);
    SenderMoves(s.senders, s.beg, h, i, Tested(c.bundle, c.ticket));
    WindowKept(s.senders, s.beg, s.end, h, i, Tested(c.bundle, c.ticket));
    hide SendersOk, Window, SlotsOk, ReceivedOk;
  }

  lemma {:induction false} StoreSenders(senders: seq<Sender>, beg: nat, h: Tickets, i: nat, bundle: Bundle, t: nat)
    requires SendersOk(senders, beg, h) && i < |senders| && senders[i] == Tested(bundle, t)
    ensures t < |h.stored| && SendersOk(senders[i := Idle], beg, h.(stored := h.stored[t := true]))
  {
    var g := h.(stored := h.stored[t := true]);
    assert SenderOk(i, senders[i], beg, h);
    forall j | 0 <= j < |senders| && j != i
      ensures SenderOk(j, senders[j], beg, g)
    {
      assert SenderOk(j, senders[j], beg, h);
    }
  }

  lemma {:induction false} StoreSlots(slots: seq<Option<Bundle>>, beg: nat, receiver: Receiver, h: Tickets, t: nat)
    requires SlotsOk(slots, beg, receiver, h) && beg <= t < beg + CAPACITY && t < |h.stored| == |h.bundle|
    requires receiver.Cleared? ==> t != beg
    ensures SlotsOk(slots[t % CAPACITY := Some(h.bundle[t])], beg, receiver, h.(stored := h.stored[t := true]))
  {
    var g := h.(stored := h.stored[t := true]);
    forall u | beg <= u < beg + CAPACITY
      ensures slots[t % CAPACITY := Some(h.bundle[t])][u % CAPACITY] == SlotOf(g, beg, receiver, u)
    {
      assert slots[u % CAPACITY] == SlotOf(h, beg, receiver, u);
      if u % CAPACITY == t % CAPACITY {
        if u <= t { SameSlot(u, t); } else { SameSlot(t, u); }
      }
    }
  }

  lemma {:induction false} StoreStep(s: State, h: Tickets, i: nat)
    requires Invariant(s, h) && Enabled(s, Store(i))
    ensures Invariant(Next(s, Store(i)), Remember(s, h, Store(i)))
  {
    var t := s.senders[i].ticket;
    ClaimedSlotEmpty(s, h, i);
    assert SenderOk(i, s.senders[i], s.beg, h);
    StoreSenders(s.senders, s.beg, h, i, s.senders[i].bundle, t);
    StoreSlots(s.slots, s.beg, s.receiver, h, t);
    WindowKept(s.senders, s.beg, s.end, h, i, Idle);
    hide SendersOk, SlotsOk, Active;
  }

  // Steps of the receiver

  lemma {:induction false} ProbeStep(s: State, h: Tickets)
    requires Invariant(s, h) && Enabled(s, Probe)
    ensures Invariant(Next(s, Probe), h)
  {
    forall u | s.beg <= u < s.beg + CAPACITY
      ensures s.slots[u % CAPACITY] == SlotOf(h, s.beg, Ready, u)
    {
      assert s.slots[u % CAPACITY] == SlotOf(h, s.beg, s.receiver, u);
    }
    hide SendersOk, Window;
  }

  lemma {:induction false} TakeStep(s: State, h: Tickets)
    requires Invariant(s, h) && Enabled(s, Take)
    ensures Invariant(Next(s, Take), h)
  {
    var s' := Next(s, Take);
    assert s.slots[s.beg % CAPACITY] == SlotOf(h, s.beg, Ready, s.beg);
    assert h.bundle[..s.beg + 1] == h.bundle[..s.beg] + [h.bundle[s.beg]];
    forall u | s.beg <= u < s.beg + CAPACITY
      ensures s.slots[u % CAPACITY] == SlotOf(h, s.beg, s'.receiver, u)
    {
      assert s.slots[u % CAPACITY] == SlotOf(h, s.beg, s.receiver, u);
    }
    hide SendersOk, Window;
  }

  lemma {:induction false} ClearStep(s: State, h: Tickets)
    requires Invariant(s, h) && Enabled(s, Clear)
    ensures Invariant(Next(s, Clear), h)
  {
    var s' := Next(s, Clear);
    forall u | s.beg <= u < s.beg + CAPACITY
      ensures s'.slots[u % CAPACITY] == SlotOf(h, s.beg, Cleared, u)
    {
      assert s.slots[u % CAPACITY] == SlotOf(h, s.beg, s.receiver, u);
      if u % CAPACITY == s.beg % CAPACITY {
        SameSlot(s.beg, u);
      }
    }
    hide SendersOk, Window;
  }

  lemma {:induction false} AdvanceSenders(senders: seq<Sender>, beg: nat, h: Tickets)
    requires SendersOk(senders, beg, h)
    ensures SendersOk(senders, beg + 1, h)
  {
    forall j | 0 <= j < |senders|
      ensures SenderOk(j, senders[j], beg + 1, h)
    {
      assert SenderOk(j, senders[j], beg, h);
    }
  }

  lemma {:induction false} AdvanceSlots(slots: seq<Option<Bundle>>, beg: nat, h: Tickets)
    requires SlotsOk(slots, beg, Cleared, h) && |h.stored| == |h.bundle| <= beg + CAPACITY
    ensures SlotsOk(slots, beg + 1, Waiting, h)
  {
    assert slots[beg % CAPACITY] == SlotOf(h, beg, Cleared, beg);
    assert (beg + CAPACITY) % CAPACITY == beg % CAPACITY;
    forall u | beg + 1 <= u < beg + 1 + CAPACITY
      ensures slots[u % CAPACITY] == SlotOf(h, beg + 1, Waiting, u)
    {
      if u < beg + CAPACITY {
        assert slots[u % CAPACITY] == SlotOf(h, beg, Cleared, u);
      }
    }
  }

  lemma {:induction false} AdvanceStep(s: State, h: Tickets)
    requires Invariant(s, h) && Enabled(s, Advance)
    ensures Invariant(Next(s, Advance), h)
  {
    AtMostCapacity(s, h);
    AdvanceSenders(s.senders, s.beg, h);
    AdvanceSlots(s.slots, s.beg, h);
    hide SendersOk, SlotsOk, Readers;
  }

  lemma {:induction false} StepInvariant(s: State, h: Tickets, ev: Event)
    requires Invariant(s, h) && Enabled(s, ev) && |Active(Next(s, ev).senders)| <= MAX_SENDERS
    ensures Invariant(Next(s, ev), Remember(s, h, ev))
  {
    hide Invariant;
    match ev
    case Claim(i) => ClaimStep(s, h, i);
    case Test(i) => TestStep(s, h, i);
    case Store(i) => StoreStep(s, h, i);
    case Probe => ProbeStep(s, h);
    case Take => TakeStep(s, h);
    case Clear => ClearStep(s, h);
    case Advance => AdvanceStep(s, h);
    case Start(_, _) => QuietStep(s, h, ev);
    case ReadEnd(_) => QuietStep(s, h, ev);
    case ReadBeg(_) => QuietStep(s, h, ev);
    case Check(_) => QuietStep(s, h, ev);
  }
}
