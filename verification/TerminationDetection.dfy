/**
 Tree-based termination detection. Every rank counts work queued and completed; waves of queries
 run down a tree and sums run back up, each rank being sampled when its subtree has answered. The
 root reports when two waves give the same balanced sums.
 */
module TerminationDetection {
  import opened Arithmetic

  datatype Counts = Counts(queued: nat, completed: nat) {
    function Plus(c: Counts): Counts { Counts(queued + c.queued, completed + c.completed) }

    predicate AtMost(c: Counts) { queued <= c.queued && completed <= c.completed }
  }

  const ZERO := Counts(0, 0)

  /** Largest value of a counter; sums of counters stay below it. */
  const MAX_COUNT: nat := 0xFFFF_FFFF_FFFF_FFFF

  function Total(xs: seq<Counts>): Counts {
    if xs == [] then ZERO else xs[0].Plus(Total(xs[1..]))
  }

  lemma {:induction false} TotalUpdate(xs: seq<Counts>, i: nat, y: Counts)
    requires i < |xs|
    ensures Total(xs[i := y]).queued == Total(xs).queued - xs[i].queued + y.queued
    ensures Total(xs[i := y]).completed == Total(xs).completed - xs[i].completed + y.completed
  {
    if i == 0 {
      assert xs[0 := y][1..] == xs[1..];
    } else {
      assert xs[i := y][1..] == xs[1..][i - 1 := y];
      TotalUpdate(xs[1..], i - 1, y);
    }
  }

  lemma {:induction false} TotalMonotone(xs: seq<Counts>, ys: seq<Counts>)
    requires |xs| == |ys| && forall i | 0 <= i < |xs| :: xs[i].AtMost(ys[i])
    ensures Total(xs).AtMost(Total(ys))
    ensures Total(xs) == Total(ys) ==> xs == ys
  {
    if xs != [] {
      TotalMonotone(xs[1..], ys[1..]);
      if Total(xs) == Total(ys) {
        assert xs == [xs[0]] + xs[1..] && ys == [ys[0]] + ys[1..];
      }
    }
  }

  lemma {:induction false} TotalZero(xs: seq<Counts>)
    requires forall x | x in xs :: x == ZERO
    ensures Total(xs) == ZERO
  {
    if xs != [] {
      assert xs[0] in xs;
      assert forall x | x in xs[1..] :: x in xs;
      TotalZero(xs[1..]);
    }
  }

  // The tree

  datatype Tree = Tree(ranks: nat, fanout: nat) {
    ghost predicate Valid() { ranks >= 2 && fanout >= 1 }

    function Parent(r: nat): nat
      requires r > 0 && fanout >= 1
    {
      (r - 1) / fanout
    }

    function BeginChild(r: nat): nat { r * fanout + 1 }

    predicate IsLeaf(r: nat) { BeginChild(r) >= ranks }

    function NumChildren(r: nat): nat {
      var least := if fanout <= ranks - BeginChild(r) then fanout else ranks - BeginChild(r);
      if least < 0 then 0 else least
    }

    function Children(r: nat): set<nat> { Range(BeginChild(r), BeginChild(r) + NumChildren(r)) }
  }

  function Range(lo: nat, hi: nat): (r: set<nat>)
    requires lo <= hi
    ensures forall c: nat :: c in r <==> lo <= c < hi
    ensures |r| == hi - lo
    decreases hi
  {
    if lo == hi then {} else Range(lo, hi - 1) + {hi - 1}
  }

  lemma {:induction false} QuotientBounds(x: nat, k: nat)
    requires k >= 1
    ensures x / k * k <= x < x / k * k + k
    ensures x / k <= x
  {
    assert x == k * (x / k) + x % k;
  }

  lemma {:induction false} SameQuotient(x: nat, k: nat, p: nat, q: nat)
    requires q * k <= x < q * k + k
    ensures p * k <= x < p * k + k <==> q == p
  {
    if p < q {
      TimesLess(p, q, k);
    } else if q < p {
      TimesLess(q, p, k);
    }
  }

  /** The parent arithmetic and the child arithmetic describe the same tree. */
  lemma {:induction false} ParentChild(t: Tree, p: nat, c: nat)
    requires t.Valid() && 0 < c < t.ranks
    ensures c in t.Children(p) <==> t.Parent(c) == p
    ensures t.Parent(c) < c
  {
    QuotientBounds(c - 1, t.fanout);
    SameQuotient(c - 1, t.fanout, p, t.Parent(c));
  }

  lemma {:induction false} LeafHasNoChildren(t: Tree, r: nat)
    requires t.Valid()
    ensures t.IsLeaf(r) <==> t.NumChildren(r) == 0
    ensures |t.Children(r)| == t.NumChildren(r)
    ensures forall c | c in t.Children(r) :: r < c < t.ranks
  {
    assert r <= r * t.fanout;
  }

  // One rank

  datatype Mode = WaitingInit | WaitingIsendChildren | WaitingRecvChildren | WaitingIsendParent

  /** Fields of the detector: pending sends to children, children still to answer, sums of the subtree. */
  datatype Node = Node(mode: Mode, sends: nat, waiting: int, subtree: Counts, previous: Counts) {
    function Reset(): Node { this.(subtree := ZERO) }

    /** Forward the query to all children. */
    function Ask(children: nat): Node {
      this.(subtree := ZERO, sends := sends + children, mode := WaitingIsendChildren)
    }

    function SendDone(): Node
      requires sends > 0
    {
      this.(sends := sends - 1)
    }

    function Asked(): Node { this.(mode := WaitingRecvChildren) }

    function Receive(c: Counts): Node { this.(waiting := waiting - 1, subtree := subtree.Plus(c)) }

    /** A leaf adds its own counters and answers; so does an inner rank once all children answered. */
    function Reply(own: Counts): Node { this.(subtree := subtree.Plus(own), mode := WaitingIsendParent) }

    function ReplyInner(children: nat, own: Counts): Node { Reply(own).(waiting := children) }

    /** The root compares balanced sums with the last balanced sums. */
    predicate Decides(own: Counts) {
      var sum := subtree.Plus(own);
      sum.queued == sum.completed && sum == previous
    }

    function Decide(children: nat, own: Counts): Node {
      var sum := subtree.Plus(own);
      var n := this.(waiting := children, subtree := sum, mode := WaitingInit);
      if sum.queued == sum.completed && sum != previous then n.(previous := sum) else n
    }
  }

  // All ranks

  /** Messages are counted or listed at the rank at the lower end of the tree edge they travel on. */
  datatype System = System(
    nodes: seq<Node>,
    counters: seq<Counts>,
    queries: seq<nat>,
    replies: seq<seq<Counts>>,
    stops: seq<nat>,
    reported: seq<bool>)

  datatype Event =
    | Queue(rank: nat, n: nat)
    | Complete(rank: nat, n: nat)
    | Poll(rank: nat)
    | Begin
    | TakeQuery(rank: nat)
    | TakeStop(rank: nat)
    | SendDone(rank: nat)
    | ChildrenAsked(rank: nat)
    | LeafReply(rank: nat)
    | Receive(rank: nat, child: nat)
    | InnerReply(rank: nat)
    | RootDecide
    | ParentSent(rank: nat)

  ghost predicate Shaped(t: Tree, s: System) {
    && |s.nodes| == |s.counters| == |s.queries| == |s.replies| == |s.stops| == |s.reported| == t.ranks
  }

  predicate Outstanding(counters: seq<Counts>) {
    Total(counters).completed < Total(counters).queued
  }

  ghost predicate Enabled(t: Tree, s: System, e: Event)
    requires t.Valid() && Shaped(t, s)
  {
    match e
    // New work comes from unfinished work, and only queued work is completed.
    case Queue(r, n) =>
      r < t.ranks && Outstanding(s.counters) && Total(s.counters).queued + n < MAX_COUNT
    case Complete(r, n) =>
      r < t.ranks && Total(s.counters).completed + n <= Total(s.counters).queued
    case Poll(r) => r < t.ranks && r > 0 && s.nodes[r].mode == WaitingInit
    case Begin => s.nodes[0].mode == WaitingInit && !s.reported[0]
    case TakeQuery(r) => 0 < r < t.ranks && s.nodes[r].mode == WaitingInit && s.queries[r] > 0
    case TakeStop(r) => 0 < r < t.ranks && s.nodes[r].mode == WaitingInit && s.stops[r] > 0
    case SendDone(r) => r < t.ranks && s.nodes[r].mode == WaitingIsendChildren && s.nodes[r].sends > 0
    case ChildrenAsked(r) => r < t.ranks && s.nodes[r].mode == WaitingIsendChildren && s.nodes[r].sends == 0
    case LeafReply(r) => r < t.ranks && s.nodes[r].mode == WaitingRecvChildren && t.IsLeaf(r)
    case Receive(r, c) =>
      && r < t.ranks && 0 < c < t.ranks && s.nodes[r].mode == WaitingRecvChildren && !t.IsLeaf(r)
      && t.Parent(c) == r && s.replies[c] != []
    case InnerReply(r) =>
      0 < r < t.ranks && s.nodes[r].mode == WaitingRecvChildren && !t.IsLeaf(r) && s.nodes[r].waiting == 0
    case RootDecide => s.nodes[0].mode == WaitingRecvChildren && !t.IsLeaf(0) && s.nodes[0].waiting == 0
    case ParentSent(r) => r < t.ranks && s.nodes[r].mode == WaitingIsendParent
  }

  /** One more message to each child of r. */
  function ToChildren(t: Tree, r: nat, messages: seq<nat>): (m: seq<nat>)
    ensures |m| == |messages|
    ensures forall c | 0 <= c < |m| :: m[c] == messages[c] + if c in t.Children(r) then 1 else 0
  {
    seq(|messages|, (c: nat) requires c < |messages| =>
      messages[c] + if c in t.Children(r) then 1 else 0)
  }

  function Next(t: Tree, s: System, e: Event): (s': System)
    requires t.Valid() && Shaped(t, s) && Enabled(t, s, e)
    ensures Shaped(t, s')
  {
    match e
    case Queue(r, n) => s.(counters := s.counters[r := s.counters[r].Plus(Counts(n, 0))])
    case Complete(r, n) => s.(counters := s.counters[r := s.counters[r].Plus(Counts(0, n))])
    case Poll(r) => s.(nodes := s.nodes[r := s.nodes[r].Reset()])
    case Begin =>
      s.(nodes := s.nodes[0 := s.nodes[0].Ask(t.NumChildren(0))], queries := ToChildren(t, 0, s.queries))
    case TakeQuery(r) =>
      s.(nodes := s.nodes[r := s.nodes[r].Ask(t.NumChildren(r))],
         queries := ToChildren(t, r, s.queries[r := s.queries[r] - 1]))
    case TakeStop(r) =>
      s.(nodes := s.nodes[r := s.nodes[r].Reset()],
         stops := ToChildren(t, r, s.stops[r := s.stops[r] - 1]),
         reported := s.reported[r := true])
    case SendDone(r) => s.(nodes := s.nodes[r := s.nodes[r].SendDone()])
    case ChildrenAsked(r) => s.(nodes := s.nodes[r := s.nodes[r].Asked()])
    case LeafReply(r) =>
      var n := s.nodes[r].Reply(s.counters[r]);
      s.(nodes := s.nodes[r := n], replies := s.replies[r := s.replies[r] + [n.subtree]])
    case Receive(r, c) =>
      s.(nodes := s.nodes[r := s.nodes[r].Receive(s.replies[c][0])], replies := s.replies[c := s.replies[c][1..]])
    case InnerReply(r) =>
      var n := s.nodes[r].ReplyInner(t.NumChildren(r), s.counters[r]);
      s.(nodes := s.nodes[r := n], replies := s.replies[r := s.replies[r] + [n.subtree]])
    case RootDecide =>
      var ends := s.nodes[0].Decides(s.counters[0]);
      s.(nodes := s.nodes[0 := s.nodes[0].Decide(t.NumChildren(0), s.counters[0])],
         stops := if ends then ToChildren(t, 0, s.stops) else s.stops,
         reported := if ends then s.reported[0 := true] else s.reported)
    case ParentSent(r) => s.(nodes := s.nodes[r := s.nodes[r].(mode := WaitingInit)])
  }

  ghost predicate Initial(t: Tree, s: System) {
    && t.Valid() && Shaped(t, s)
    && (forall r | 0 <= r < t.ranks ::
          && s.nodes[r] == Node(WaitingInit, 0, t.NumChildren(r), ZERO, Counts(MAX_COUNT, MAX_COUNT))
          && s.queries[r] == 0 && s.replies[r] == [] && s.stops[r] == 0 && !s.reported[r])
    && Total(s.counters).completed <= Total(s.counters).queued < MAX_COUNT
  }

  // What the proof remembers

  datatype Status = Untouched | Queried | Engaged | Replied | Taken

  /**
   status: how far each rank is in the current wave; samples: what it was sampled at in the wave;
   before: the samples of the last balanced wave; mid: all counters when that wave ended.
   */
  datatype History = History(
    status: seq<Status>, samples: seq<Counts>, before: seq<Counts>, mid: seq<Counts>, seen: bool)

  predicate Linked(parent: Status, child: Status) {
    match parent
    case Untouched => child.Untouched?
    case Queried => child.Untouched?
    case Engaged => !child.Untouched?
    case Replied => child.Taken?
    case Taken => child.Taken?
  }

  ghost predicate Linkage(t: Tree, status: seq<Status>)
    requires t.Valid()
  {
    && |status| == t.ranks
    && (status[0].Untouched? || status[0].Engaged?)
    && forall c | 0 < c < t.ranks :: t.Parent(c) < t.ranks && Linked(status[t.Parent(c)], status[c])
  }

  predicate Local(status: Status, node: Node, queries: nat, replies: seq<Counts>) {
    && (status.Engaged? <==> node.mode.WaitingIsendChildren? || node.mode.WaitingRecvChildren?)
    && queries == (if status.Queried? then 1 else 0)
    && |replies| == (if status.Replied? then 1 else 0)
  }

  ghost predicate Locals(t: Tree, s: System, status: seq<Status>)
    requires Shaped(t, s) && |status| == t.ranks
  {
    forall r | 0 <= r < t.ranks :: Local(status[r], s.nodes[r], s.queries[r], s.replies[r])
  }

  function Missing(t: Tree, status: seq<Status>, r: nat): set<nat> {
    set c | c in t.Children(r) && c < |status| && !status[c].Taken?
  }

  function Wait(t: Tree, status: seq<Status>, r: nat): nat
    requires r < |status|
  {
    if status[r].Engaged? then |Missing(t, status, r)| else t.NumChildren(r)
  }

  ghost predicate Waiting(t: Tree, nodes: seq<Node>, status: seq<Status>)
    requires |nodes| == |status|
  {
    forall r | 0 <= r < |nodes| :: nodes[r].waiting == Wait(t, status, r)
  }

  /** Sums a rank holds, or has in flight, for the current wave. */
  function Part(status: Status, node: Node, replies: seq<Counts>): Counts {
    if status.Engaged? then node.subtree
    else if status.Replied? && replies != [] then replies[0]
    else ZERO
  }

  function Sampled(status: Status, sample: Counts): Counts {
    if status.Replied? || status.Taken? then sample else ZERO
  }

  function Parts(s: System, status: seq<Status>): (ps: seq<Counts>)
    requires |s.nodes| == |s.replies| == |status|
    ensures |ps| == |status|
    ensures forall r | 0 <= r < |ps| :: ps[r] == Part(status[r], s.nodes[r], s.replies[r])
  {
    seq(|status|, (r: nat) requires r < |status| => Part(status[r], s.nodes[r], s.replies[r]))
  }

  function Samples(status: seq<Status>, samples: seq<Counts>): (ps: seq<Counts>)
    requires |samples| == |status|
    ensures |ps| == |status|
    ensures forall r | 0 <= r < |ps| :: ps[r] == Sampled(status[r], samples[r])
  {
    seq(|status|, (r: nat) requires r < |status| => Sampled(status[r], samples[r]))
  }

  /** Conservation: held plus in flight is what was sampled. */
  ghost predicate Conserved(s: System, status: seq<Status>, samples: seq<Counts>)
    requires |s.nodes| == |s.replies| == |status| == |samples|
  {
    Total(Parts(s, status)) == Total(Samples(status, samples))
  }

  ghost predicate Below(xs: seq<Counts>, ys: seq<Counts>) {
    |xs| == |ys| && forall r | 0 <= r < |xs| :: xs[r].AtMost(ys[r])
  }

  /** Samples of this wave lie between the counters at the end of the last balanced wave and now. */
  ghost predicate Timely(counters: seq<Counts>, h: History) {
    && |h.status| == |h.samples| == |counters|
    && Below(h.mid, counters)
    && (forall r | 0 <= r < |counters| && (h.status[r].Replied? || h.status[r].Taken?) ::
          h.mid[r].AtMost(h.samples[r]) && h.samples[r].AtMost(counters[r]))
  }

  ghost predicate Compared(previous: Counts, counters: seq<Counts>, h: History) {
    if h.seen then
      && Below(h.before, h.mid)
      && previous == Total(h.before) && previous.queued == previous.completed
      && (!Outstanding(h.mid) ==> counters == h.mid)
    else
      previous == Counts(MAX_COUNT, MAX_COUNT)
  }

  ghost predicate Worked(counters: seq<Counts>) {
    Total(counters).completed <= Total(counters).queued < MAX_COUNT
  }

  /** Whoever has reported, or is about to, does so when nothing is outstanding. */
  ghost predicate Reported(t: Tree, s: System)
    requires t.Valid() && Shaped(t, s)
  {
    && (s.reported[0] ==> !Outstanding(s.counters))
    && (forall r | 0 <= r < t.ranks && (s.stops[r] > 0 || s.reported[r]) :: s.reported[0])
  }

  ghost predicate Invariant(t: Tree, s: System, h: History) {
    && t.Valid() && Shaped(t, s)
    && Linkage(t, h.status)
    && Locals(t, s, h.status)
    && Waiting(t, s.nodes, h.status)
    && Timely(s.counters, h)
    && Conserved(s, h.status, h.samples)
    && Compared(s.nodes[0].previous, s.counters, h)
    && Worked(s.counters)
    && Reported(t, s)
  }

  function Engage(t: Tree, r: nat, status: seq<Status>): (st: seq<Status>)
    ensures |st| == |status|
    ensures forall c | 0 <= c < |st| ::
      st[c] == if c == r then Engaged else if c in t.Children(r) then Queried else status[c]
  {
    seq(|status|, (c: nat) requires c < |status| =>
      if c == r then Engaged else if c in t.Children(r) then Queried else status[c])
  }

  function Fresh(n: nat): (st: seq<Status>)
    ensures |st| == n && forall c | 0 <= c < n :: st[c] == Untouched
  {
    seq(n, _ => Untouched)
  }

  function Remember(t: Tree, s: System, h: History, e: Event): History
    requires t.Valid() && Shaped(t, s) && Enabled(t, s, e)
    requires |h.status| == |h.samples| == t.ranks
  {
    match e
    case Begin => h.(status := Engage(t, 0, h.status))
    case TakeQuery(r) => h.(status := Engage(t, r, h.status))
    case LeafReply(r) => h.(status := h.status[r := Replied], samples := h.samples[r := s.counters[r]])
    case InnerReply(r) => h.(status := h.status[r := Replied], samples := h.samples[r := s.counters[r]])
    case Receive(r, c) => h.(status := h.status[c := Taken])
    case RootDecide =>
      var sum := s.nodes[0].subtree.Plus(s.counters[0]);
      var g := h.(status := Fresh(|h.status|));
      if sum.queued == sum.completed && sum != s.nodes[0].previous then
        g.(before := h.samples[0 := s.counters[0]], mid := s.counters, seen := true)
      else g
    case _ => h
  }
}
