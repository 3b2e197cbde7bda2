/**
 The visitor queue running a label-correcting visitor: breadth-first search,
 single-source shortest path or connected components. A rank is a value of type
 Process; a run is a sequence of events, each of which one rank performs while
 messages travel in any order. A mailbox send may run an exchange, so a message may
 arrive between any two edges of a visit in progress.
 */
module Traversal {
  import opened Graphs

  datatype Algorithm = Bfs | Sssp | Cc

  const MAX_LEVEL: nat := 65535

  /** `top` is the value vertices start with; for breadth-first search the 16-bit maximum. */
  datatype Config = Config(g: Graph, algorithm: Algorithm, source: nat, top: nat) {
    ghost predicate Valid() {
      && g.Valid()
      && source < g.size
      && (algorithm.Bfs? ==> top == MAX_LEVEL)
      && (algorithm.Cc? ==> g.size <= top)
      && 0 < top
    }

    /** Label of the visitor sent along an edge; the level field has 16 bits. */
    function Relax(level: nat, e: Edge): nat {
      match algorithm
      case Bfs => (level + 1) % (MAX_LEVEL + 1)
      case Sssp => level + e.weight
      case Cc => level
    }

    /** Components skip a neighbour whose own label is already as small. */
    predicate Emits(level: nat, e: Edge) {
      algorithm.Cc? ==> level < e.target
    }

    /** Components start every master at its own label; all else starts at `top`. */
    function InitialLevel(r: nat, v: nat): nat
      requires v < |g.master|
    {
      if algorithm.Cc? && g.master[v] == r then v else top
    }
  }

  datatype Visitor = Visitor(vertex: nat, level: nat, parent: nat)

  /** A visit in progress has relaxed the edges before `next`. */
  datatype Activity = Idle | Busy(visitor: Visitor, next: nat, announce: bool)

  datatype Message = Message(dest: nat, visitor: Visitor)

  datatype Process = Process(
    level: seq<nat>,
    parent: seq<nat>,
    queue: multiset<Visitor>,
    controllers: seq<Visitor>,
    activity: Activity,
    toInit: set<nat>)

  predicate PreVisit(p: Process, v: Visitor)
    requires v.vertex < |p.level|
  {
    v.level < p.level[v.vertex]
  }

  /** Labels only fall. */
  ghost predicate Lowered(p: Process, p': Process) {
    && |p'.level| == |p.level|
    && |p'.parent| == |p.parent|
    && forall v | 0 <= v < |p.level| :: p'.level[v] <= p.level[v]
  }

  /** pre_visit followed by a push when it accepts. */
  function Accept(p: Process, v: Visitor): (p': Process)
    requires v.vertex < |p.level|
    ensures Lowered(p, p') && p'.level[v.vertex] <= v.level
  {
    if PreVisit(p, v) then
      p.(level := p.level[v.vertex := v.level], queue := p.queue + multiset{v})
    else
      p
  }

  /** A delegate copy away from its master keeps the label and forwards the visitor. */
  function Forward(p: Process, v: Visitor): (p': Process)
    requires v.vertex < |p.level|
    ensures Lowered(p, p') && p'.level[v.vertex] <= v.level
  {
    if PreVisit(p, v) then p.(level := p.level[v.vertex := v.level]) else p
  }

  function QueueVisitor(cfg: Config, r: nat, p: Process, v: Visitor): (res: (Process, multiset<Message>))
    requires v.vertex < |p.level| == |cfg.g.master|
    ensures Lowered(p, res.0) && res.0.activity == p.activity
  {
    var master := cfg.g.master[v.vertex];
    if master == r then
      (Accept(p, v), multiset{})
    else if v.vertex in cfg.g.delegates then
      (Forward(p, v), if PreVisit(p, v) then multiset{Message(master, v)} else multiset{})
    else
      (p, multiset{Message(master, v)})
  }

  /** First part of visit: the test, the writes, and entering the loop over edges. */
  function BeginVisit(cfg: Config, r: nat, p: Process, v: Visitor): (p': Process)
    requires v.vertex < |p.level| == |p.parent| == |cfg.g.master|
    ensures Lowered(p, p')
  {
    if v.level <= p.level[v.vertex] then
      p.(level := if cfg.algorithm.Sssp? then p.level else p.level[v.vertex := v.level],
         parent := if cfg.algorithm.Bfs? then p.parent[v.vertex := v.parent] else p.parent,
         activity := Busy(v, 0, v.vertex in cfg.g.delegates && cfg.g.master[v.vertex] == r))
    else
      p
  }

  /** One iteration of the loop over edges. */
  function RelaxEdge(cfg: Config, r: nat, p: Process): (res: (Process, multiset<Message>))
    requires p.activity.Busy? && r < |cfg.g.edges|
    requires p.activity.visitor.vertex < |cfg.g.edges[r]|
    requires p.activity.next < |cfg.g.edges[r][p.activity.visitor.vertex]|
    requires cfg.g.edges[r][p.activity.visitor.vertex][p.activity.next].target < |p.level| == |cfg.g.master|
    ensures Lowered(p, res.0) && res.0.activity == p.activity.(next := p.activity.next + 1)
  {
    var v := p.activity.visitor;
    var e := cfg.g.edges[r][v.vertex][p.activity.next];
    var p' := p.(activity := p.activity.(next := p.activity.next + 1));
    if cfg.Emits(v.level, e) then
      QueueVisitor(cfg, r, p', Visitor(e.target, cfg.Relax(v.level, e), v.vertex))
    else
      (p', multiset{})
  }

  /** The broadcast of a visited master: one copy for every other rank below n. */
  function Broadcast(n: nat, master: nat, v: Visitor): (ms: multiset<Message>)
    ensures forall m | m in ms :: m.dest < n && m.dest != master && m.visitor == v
    ensures forall q | 0 <= q < n && q != master :: Message(q, v) in ms
    ensures |ms| <= n
  {
    if n == 0 then multiset{}
    else Broadcast(n - 1, master, v) + (if n - 1 == master then multiset{} else multiset{Message(n - 1, v)})
  }

  datatype System = System(procs: seq<Process>, net: multiset<Message>, bcasts: multiset<Message>)

  datatype Event =
    | Deliver(m: Message)
    | DeliverBroadcast(m: Message)
    | Pop(r: nat, v: Visitor)
    | PopController(r: nat)
    | InitVisit(r: nat, u: nat)
    | Continue(r: nat)
    | Finish(r: nat)

  predicate ShapedProcess(cfg: Config, p: Process) {
    |p.level| == |p.parent| == |cfg.g.master|
  }

  /** Everything a rank or a message refers to exists and sits on the right rank. */
  ghost predicate Shape(cfg: Config, s: System)
    requires cfg.Valid()
  {
    && |s.procs| == cfg.g.ranks
    && (forall r | 0 <= r < cfg.g.ranks :: ShapedRank(cfg, r, s.procs[r]))
    && (forall m | m in s.net :: m.visitor.vertex < cfg.g.size && m.dest == cfg.g.master[m.visitor.vertex])
    && (forall m | m in s.bcasts :: CopyOf(cfg, m.dest, m.visitor.vertex))
  }

  predicate CopyOf(cfg: Config, r: nat, v: nat) {
    r < cfg.g.ranks && v < |cfg.g.master| && v in cfg.g.delegates && cfg.g.master[v] != r
  }

  ghost predicate ShapedRank(cfg: Config, r: nat, p: Process)
    requires cfg.Valid() && r < cfg.g.ranks
  {
    && ShapedProcess(cfg, p)
    && (forall v | v in p.queue :: v.vertex < cfg.g.size && cfg.g.master[v.vertex] == r)
    && (forall v | v in p.controllers :: CopyOf(cfg, r, v.vertex))
    && (forall u | u in p.toInit :: cfg.algorithm.Cc? && u < cfg.g.size && cfg.g.master[u] == r)
    && (p.activity.Busy? ==>
          var v := p.activity.visitor;
          && v.vertex < cfg.g.size
          && cfg.g.Hosts(r, v.vertex)
          && p.activity.next <= |cfg.g.edges[r][v.vertex]|
          && p.activity.announce == (v.vertex in cfg.g.delegates && cfg.g.master[v.vertex] == r))
  }

  ghost predicate Enabled(cfg: Config, s: System, ev: Event)
    requires cfg.Valid() && Shape(cfg, s)
  {
    match ev
    case Deliver(m) => m in s.net
    case DeliverBroadcast(m) => m in s.bcasts
    case Pop(r, v) => r < cfg.g.ranks && s.procs[r].activity.Idle? && v in s.procs[r].queue
    case PopController(r) => r < cfg.g.ranks && s.procs[r].activity.Idle? && s.procs[r].controllers != []
    case InitVisit(r, u) => r < cfg.g.ranks && s.procs[r].activity.Idle? && u in s.procs[r].toInit
    case Continue(r) =>
      && r < cfg.g.ranks && s.procs[r].activity.Busy?
      && s.procs[r].activity.next < |cfg.g.edges[r][s.procs[r].activity.visitor.vertex]|
    case Finish(r) =>
      && r < cfg.g.ranks && s.procs[r].activity.Busy?
      && s.procs[r].activity.next == |cfg.g.edges[r][s.procs[r].activity.visitor.vertex]|
  }

  function Actor(ev: Event): nat {
    match ev
    case Deliver(m) => m.dest
    case DeliverBroadcast(m) => m.dest
    case Pop(r, _) => r
    case PopController(r) => r
    case InitVisit(r, _) => r
    case Continue(r) => r
    case Finish(r) => r
  }

  /** The acting rank: broadcasts join its controller queue, other messages are pre-visited. */
  ghost function NextProcess(cfg: Config, s: System, ev: Event): (p: Process)
    requires cfg.Valid() && Shape(cfg, s) && Enabled(cfg, s, ev)
    ensures ShapedProcess(cfg, p) && Lowered(s.procs[Actor(ev)], p)
  {
    var r := Actor(ev);
    var p := s.procs[r];
    match ev
    case Deliver(m) => Accept(p, m.visitor)
    case DeliverBroadcast(m) => p.(controllers := p.controllers + [m.visitor])
    case Pop(_, v) => BeginVisit(cfg, r, p.(queue := p.queue - multiset{v}), v)
    case PopController(_) => BeginVisit(cfg, r, p.(controllers := p.controllers[1..]), p.controllers[0])
    case InitVisit(_, u) => BeginVisit(cfg, r, p.(toInit := p.toInit - {u}), Visitor(u, u, u))
    case Continue(_) => RelaxEdge(cfg, r, p).0
    case Finish(_) => p.(activity := Idle)
  }

  ghost function NextNet(cfg: Config, s: System, ev: Event): multiset<Message>
    requires cfg.Valid() && Shape(cfg, s) && Enabled(cfg, s, ev)
  {
    match ev
    case Deliver(m) => s.net - multiset{m}
    case Continue(r) => s.net + RelaxEdge(cfg, r, s.procs[r]).1
    case _ => s.net
  }

  ghost function NextBroadcasts(cfg: Config, s: System, ev: Event): multiset<Message>
    requires cfg.Valid() && Shape(cfg, s) && Enabled(cfg, s, ev)
  {
    match ev
    case DeliverBroadcast(m) => s.bcasts - multiset{m}
    case Finish(r) =>
      var a := s.procs[r].activity;
      s.bcasts + if a.announce then Broadcast(cfg.g.ranks, r, a.visitor) else multiset{}
    case _ => s.bcasts
  }

  ghost function Next(cfg: Config, s: System, ev: Event): System
    requires cfg.Valid() && Shape(cfg, s) && Enabled(cfg, s, ev)
  {
    System(s.procs[Actor(ev) := NextProcess(cfg, s, ev)], NextNet(cfg, s, ev), NextBroadcasts(cfg, s, ev))
  }

  ghost function InitialProcess(cfg: Config, r: nat): Process
    requires cfg.Valid()
  {
    Process(
      seq(cfg.g.size, v requires 0 <= v < cfg.g.size => cfg.InitialLevel(r, v)),
      seq(cfg.g.size, v => 0),
      multiset{}, [], Idle,
      if cfg.algorithm.Cc? then set v | 0 <= v < cfg.g.size && cfg.g.master[v] == r else {})
  }

  /** Rank 0 queues the source before any rank enters its loop; components have no source. */
  ghost function InitialSystem(cfg: Config): System
    requires cfg.Valid()
  {
    var procs := seq(cfg.g.ranks, r requires 0 <= r < cfg.g.ranks => InitialProcess(cfg, r));
    if cfg.algorithm.Cc? then
      System(procs, multiset{}, multiset{})
    else
      var (p, sent) := QueueVisitor(cfg, 0, procs[0], Visitor(cfg.source, 0, cfg.source));
      System(procs[0 := p], sent, multiset{})
  }

  /** Nothing is queued, in progress or in flight anywhere. */
  ghost predicate Quiescent(s: System) {
    && s.net == multiset{}
    && s.bcasts == multiset{}
    && (forall r | 0 <= r < |s.procs| :: IdleProcess(s.procs[r]))
  }

  ghost predicate IdleProcess(p: Process) {
    p.queue == multiset{} && p.controllers == [] && p.activity.Idle? && p.toInit == {}
  }
}
