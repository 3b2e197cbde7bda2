/** What a traversal has computed once nothing is queued, in progress or in flight. */
module TraversalExactness {
  import opened Graphs
  import opened Traversal
  import opened TraversalInvariant
  import opened TraversalOrder
  import opened TraversalProgress

  /** s' is reached from s by the given events, each enabled when it happens. */
  ghost predicate Run(cfg: Config, s: System, events: seq<Event>, s': System)
    requires cfg.Valid()
    decreases |events|
  {
    if events == [] then
      s == s'
    else
      Shape(cfg, s) && Enabled(cfg, s, events[0]) && Run(cfg, Next(cfg, s, events[0]), events[1..], s')
  }

  /** One event leads from s to s'. */
  ghost predicate Takes(cfg: Config, s: System, ev: Event, s': System)
    requires cfg.Valid()
  {
    Shape(cfg, s) && Enabled(cfg, s, ev) && Next(cfg, s, ev) == s'
  }

  lemma {:induction false} RunCons(cfg: Config, s: System, ev: Event, rest: seq<Event>, s': System)
    requires cfg.Valid() && Shape(cfg, s) && Enabled(cfg, s, ev) && Run(cfg, Next(cfg, s, ev), rest, s')
    ensures Run(cfg, s, [ev] + rest, s')
  {
    assert ([ev] + rest)[1..] == rest;
  }

  lemma {:induction false} NoEvents(cfg: Config, s: System)
    requires cfg.Valid()
    ensures Run(cfg, s, [], s)
  {
  }

  lemma {:induction false} RunAppend(cfg: Config, s: System, es: seq<Event>, s1: System, fs: seq<Event>, s2: System)
    requires cfg.Valid() && Run(cfg, s, es, s1) && Run(cfg, s1, fs, s2)
    ensures Run(cfg, s, es + fs, s2)
    decreases |es|
  {
    hide Next, Shape, Enabled;
    if es == [] {
      assert es + fs == fs;
    } else {
      RunAppend(cfg, Next(cfg, s, es[0]), es[1..], s1, fs, s2);
      assert (es + fs)[1..] == es[1..] + fs;
    }
  }

  // --- The start -----------------------------------------------------------------------------------

  /** The state before any rank has done anything. */
  ghost function Blank(cfg: Config): System
    requires cfg.Valid()
  {
    System(seq(cfg.g.ranks, r requires 0 <= r < cfg.g.ranks => InitialProcess(cfg, r)), multiset{}, multiset{})
  }

  lemma {:induction false} BlankRank(cfg: Config, r: nat)
    requires cfg.Valid() && r < cfg.g.ranks
    ensures ShapedRank(cfg, r, InitialProcess(cfg, r)) && Justified(cfg, InitialProcess(cfg, r))
  {
    var p := InitialProcess(cfg, r);
    forall v | 0 <= v < cfg.g.size ensures JustifiedLevel(cfg, v, p.level[v]) {
      if cfg.algorithm.Cc? {
        WitnessOrigin(cfg, v);
      }
    }
  }

  lemma {:induction false} BlankSound(cfg: Config)
    requires cfg.Valid()
    ensures Shape(cfg, Blank(cfg)) && Sized(cfg, Blank(cfg)) && Sound(cfg, Blank(cfg))
  {
    forall r | 0 <= r < cfg.g.ranks
      ensures ShapedRank(cfg, r, Blank(cfg).procs[r]) && Justified(cfg, Blank(cfg).procs[r])
    {
      BlankRank(cfg, r);
    }
  }

  lemma {:induction false} BlankOrdered(cfg: Config)
    requires cfg.Valid() && Sized(cfg, Blank(cfg))
    ensures forall r | 0 <= r < cfg.g.ranks ::
              TokensOf(cfg, Blank(cfg), Blank(cfg).procs[r]) && CopiesOf(cfg, Blank(cfg), Blank(cfg).procs[r])
    ensures cfg.algorithm.Cc? ==> Home(cfg, Blank(cfg))
  {
    var s := Blank(cfg);
    forall r, v | 0 <= r < cfg.g.ranks && 0 <= v < cfg.g.size ensures Covered(cfg, s, v, s.procs[r].level[v]) {
    }
  }

  lemma {:induction false} BlankAttentive(cfg: Config)
    requires cfg.Valid() && Sized(cfg, Blank(cfg)) && cfg.algorithm.Cc?
    ensures Attentive(cfg, Blank(cfg))
  {
    var s := Blank(cfg);
    forall q, v | 0 <= q < cfg.g.ranks && 0 <= v < cfg.g.size && cfg.g.Hosts(q, v)
      ensures Progress(cfg, s, q, v) && Current(cfg, s, q, v)
    {
      assert v in s.procs[cfg.g.master[v]].toInit && Master(cfg, s, v) == v;
      assert ForMaster(cfg, s, v, v);
    }
  }

  lemma {:induction false} SourceQueued(cfg: Config, q: nat, v: nat)
    requires cfg.Valid() && !cfg.algorithm.Cc? && q < cfg.g.ranks && v < cfg.g.size
    requires Sized(cfg, InitialSystem(cfg))
    ensures Progress(cfg, InitialSystem(cfg), q, v) && Current(cfg, InitialSystem(cfg), q, v)
    ensures Covered(cfg, InitialSystem(cfg), cfg.source, 0)
  {
    var s := InitialSystem(cfg);
    var u := Visitor(cfg.source, 0, cfg.source);
    if cfg.g.master[cfg.source] == 0 {
      assert u in s.procs[0].queue && Carries(u, cfg.source, 0);
    } else {
      assert Message(cfg.g.master[cfg.source], u) in s.net;
    }
  }

  lemma {:induction false} SourceSound(cfg: Config)
    requires cfg.Valid() && !cfg.algorithm.Cc?
    ensures Shape(cfg, InitialSystem(cfg)) && Sound(cfg, InitialSystem(cfg))
  {
    var u := Visitor(cfg.source, 0, cfg.source);
    var s := InitialSystem(cfg);
    BlankSound(cfg);
    BlankRank(cfg, 0);
    WitnessOrigin(cfg, cfg.source);
    QueueKeeps(cfg, 0, Blank(cfg).procs[0], u);
    Replace(cfg, Blank(cfg), 0, s.procs[0], s.net, multiset{});
  }

  lemma {:induction false} SourceOrdered(cfg: Config)
    requires cfg.Valid() && !cfg.algorithm.Cc? && Sized(cfg, Blank(cfg))
    ensures Sized(cfg, InitialSystem(cfg)) && Ordered(cfg, InitialSystem(cfg))
  {
    var s := InitialSystem(cfg);
    var blank := Blank(cfg);
    var u := Visitor(cfg.source, 0, cfg.source);
    BlankOrdered(cfg);
    QueueEvolves(cfg, blank, 0, blank.procs[0], u);
    assert blank.net + s.net == s.net;
    forall r | 0 <= r < cfg.g.ranks ensures TokensOf(cfg, s, s.procs[r]) && CopiesOf(cfg, s, s.procs[r]) {
      TokensEvolve(cfg, blank, s, blank.procs[r]);
      CopiesEvolve(cfg, blank, s, blank.procs[r]);
      AcceptOrdered(cfg, s, blank.procs[r], u);
    }
  }

  lemma {:induction false} InitialInvariant(cfg: Config)
    requires cfg.Valid()
    ensures Invariant(cfg, InitialSystem(cfg))
  {
    BlankSound(cfg);
    if cfg.algorithm.Cc? {
      BlankOrdered(cfg);
      BlankAttentive(cfg);
      assert InitialSystem(cfg) == Blank(cfg);
    } else {
      SourceSound(cfg);
      SourceOrdered(cfg);
      forall q, v | 0 <= q < cfg.g.ranks && 0 <= v < cfg.g.size && cfg.g.Hosts(q, v)
        ensures Progress(cfg, InitialSystem(cfg), q, v) && Current(cfg, InitialSystem(cfg), q, v)
      {
        SourceQueued(cfg, q, v);
      }
    }
  }

  lemma {:induction false} RunInvariant(cfg: Config, s: System, events: seq<Event>, s': System)
    requires cfg.Valid() && Invariant(cfg, s) && Run(cfg, s, events, s')
    ensures Invariant(cfg, s')
    decreases |events|
  {
    if events != [] {
      StepInvariant(cfg, s, events[0]);
      RunInvariant(cfg, Next(cfg, s, events[0]), events[1..], s');
    }
  }

  // --- The end ---------------------------------------------------------------------------------------

  /** The labels of all masters. */
  ghost function Final(cfg: Config, s: System): (f: seq<nat>)
    requires Sized(cfg, s)
    ensures |f| == cfg.g.size
  {
    seq(cfg.g.size, v requires 0 <= v < cfg.g.size => Master(cfg, s, v))
  }

  /** No arc can lower a label any more, and every label is justified. */
  ghost predicate Settled(cfg: Config, f: seq<nat>)
    requires cfg.Valid()
  {
    && |f| == cfg.g.size
    && (forall v | 0 <= v < cfg.g.size :: JustifiedLevel(cfg, v, f[v]))
    && (forall v | 0 <= v < cfg.g.size && Origin(cfg, v) :: f[v] <= if cfg.algorithm.Cc? then v else 0)
    && (forall a: Arc | cfg.g.HasArc(a) && f[a.src] < cfg.top :: RelaxedArc(cfg, f, a))
  }

  ghost predicate RelaxedArc(cfg: Config, f: seq<nat>, a: Arc)
    requires a.src < |f|
  {
    a.dst < |f| && f[a.dst] <= cfg.Relax(f[a.src], Edge(a.dst, a.weight))
  }

  lemma {:induction false} QuiescentArc(cfg: Config, s: System, q: nat, v: nat, k: nat)
    requires cfg.Valid() && Ready(cfg, s) && Quiescent(s) && q < cfg.g.ranks && v < cfg.g.size
    requires k < |cfg.g.edges[q][v]| && Progress(cfg, s, q, v) && Master(cfg, s, v) < cfg.top
    ensures var e := cfg.g.edges[q][v][k]; Master(cfg, s, e.target) <= cfg.Relax(Master(cfg, s, v), e)
  {
    assert IdleProcess(s.procs[q]) && IdleProcess(s.procs[cfg.g.master[v]]);
    assert EdgesCovered(cfg, s, q, v, Master(cfg, s, v), |cfg.g.edges[q][v]|);
    var e := cfg.g.edges[q][v][k];
    assert Covered(cfg, s, e.target, cfg.Relax(Master(cfg, s, v), e));
  }

  lemma {:induction false} QuiescentArcs(cfg: Config, s: System, a: Arc)
    requires cfg.Valid() && Ready(cfg, s) && Attentive(cfg, s) && Quiescent(s)
    requires cfg.g.HasArc(a) && Master(cfg, s, a.src) < cfg.top
    ensures RelaxedArc(cfg, Final(cfg, s), a)
  {
    var q: nat, k: nat :| cfg.g.ArcAt(a, q, k);
    assert cfg.g.Hosts(q, a.src) && cfg.g.edges[q][a.src][k].target < cfg.g.size;
    QuiescentArc(cfg, s, q, a.src, k);
  }

  lemma {:induction false} QuiescentSettled(cfg: Config, s: System)
    requires cfg.Valid() && Shape(cfg, s) && Sized(cfg, s) && Sound(cfg, s) && Ordered(cfg, s)
    requires Attentive(cfg, s) && Quiescent(s)
    ensures Settled(cfg, Final(cfg, s))
  {
    var f := Final(cfg, s);
    forall v | 0 <= v < cfg.g.size ensures JustifiedLevel(cfg, v, f[v]) {
      assert Justified(cfg, s.procs[cfg.g.master[v]]);
    }
    forall a: Arc | cfg.g.HasArc(a) && f[a.src] < cfg.top ensures RelaxedArc(cfg, f, a) {
      QuiescentArcs(cfg, s, a);
    }
    assert Home(cfg, s);
  }

  /** Every run from the start that has come to rest has settled labels. */
  lemma {:induction false} RunSettled(cfg: Config, events: seq<Event>, s: System)
    requires cfg.Valid() && Run(cfg, InitialSystem(cfg), events, s) && Quiescent(s)
    ensures Invariant(cfg, s) && Settled(cfg, Final(cfg, s))
  {
    InitialInvariant(cfg);
    RunInvariant(cfg, InitialSystem(cfg), events, s);
    QuiescentSettled(cfg, s);
  }

  lemma {:induction false} NoShorterWalk(cfg: Config, f: seq<nat>, s0: nat, p: seq<Arc>, v: nat)
    requires cfg.Valid() && Settled(cfg, f) && Origin(cfg, s0) && Walk(cfg.g, s0, p, v)
    ensures v < cfg.g.size && f[v] <= PathLevel(cfg, s0, p)
    decreases |p|
  {
    hide Witness, Graph.Valid, Graph.HasArc;
    WalkEnds(cfg.g, s0, p, v);
    assert JustifiedLevel(cfg, v, f[v]);
    if p != [] {
      var a := p[|p| - 1];
      NoShorterWalk(cfg, f, s0, p[..|p| - 1], a.src);
      assert JustifiedLevel(cfg, a.src, f[a.src]);
      if f[a.src] < cfg.top {
        assert RelaxedArc(cfg, f, a);
      }
    }
  }

  /** l is the least label any walk gives v, or the starting value if none is below it. */
  ghost predicate Exact(cfg: Config, v: nat, l: nat)
    requires cfg.Valid()
  {
    && l <= cfg.top
    && (l < cfg.top ==> Witness(cfg, v, l))
    && (forall s0: nat, p: seq<Arc>, l': nat | Derives(cfg, s0, p, v, l') :: l <= l')
  }

  lemma {:induction false} SettledExact(cfg: Config, f: seq<nat>, v: nat)
    requires cfg.Valid() && Settled(cfg, f) && v < cfg.g.size
    ensures Exact(cfg, v, f[v])
  {
    assert JustifiedLevel(cfg, v, f[v]);
    forall s0: nat, p: seq<Arc>, l: nat | Derives(cfg, s0, p, v, l) ensures f[v] <= l {
      NoShorterWalk(cfg, f, s0, p, v);
    }
  }

  /** Hop distance capped at the 16-bit maximum, which also marks unreached vertices. */
  ghost predicate IsLevel(g: Graph, source: nat, v: nat, l: nat)
    requires g.Valid()
  {
    && (forall p: seq<Arc> | Walk(g, source, p, v) :: l <= |p|)
    && (l == MAX_LEVEL || exists p: seq<Arc> :: Walk(g, source, p, v) && |p| == l)
    && l <= MAX_LEVEL
  }

  /** Breadth-first levels on every owner and master, for every run. */
  lemma {:induction false} BfsLevels(cfg: Config, events: seq<Event>, s: System, v: nat)
    requires cfg.Valid() && cfg.algorithm.Bfs?
    requires Run(cfg, InitialSystem(cfg), events, s) && Quiescent(s) && v < cfg.g.size
    ensures Sized(cfg, s) && IsLevel(cfg.g, cfg.source, v, Master(cfg, s, v))
  {
    RunSettled(cfg, events, s);
    SettledIsLevel(cfg, Final(cfg, s), v);
  }

  lemma {:induction false} SettledIsLevel(cfg: Config, f: seq<nat>, v: nat)
    requires cfg.Valid() && cfg.algorithm.Bfs? && Settled(cfg, f) && v < cfg.g.size
    ensures IsLevel(cfg.g, cfg.source, v, f[v])
  {
    SettledExact(cfg, f, v);
    forall p: seq<Arc> | Walk(cfg.g, cfg.source, p, v) ensures f[v] <= |p| {
      assert Derives(cfg, cfg.source, p, v, |p|);
    }
  }

  /** Least total weight, or the starting value when no walk is lighter than it. */
  ghost predicate IsDistance(cfg: Config, v: nat, l: nat)
    requires cfg.Valid()
  {
    && (forall p: seq<Arc> | Walk(cfg.g, cfg.source, p, v) :: l <= Length(p))
    && (l == cfg.top || exists p: seq<Arc> :: Walk(cfg.g, cfg.source, p, v) && Length(p) == l)
    && l <= cfg.top
  }

  /** Shortest path lengths, although no broadcast refreshes a copy that is not the master. */
  lemma {:induction false} SsspDistances(cfg: Config, events: seq<Event>, s: System, v: nat)
    requires cfg.Valid() && cfg.algorithm.Sssp?
    requires Run(cfg, InitialSystem(cfg), events, s) && Quiescent(s) && v < cfg.g.size
    ensures Sized(cfg, s) && IsDistance(cfg, v, Master(cfg, s, v))
  {
    RunSettled(cfg, events, s);
    SettledIsDistance(cfg, Final(cfg, s), v);
  }

  lemma {:induction false} SettledIsDistance(cfg: Config, f: seq<nat>, v: nat)
    requires cfg.Valid() && cfg.algorithm.Sssp? && Settled(cfg, f) && v < cfg.g.size
    ensures IsDistance(cfg, v, f[v])
  {
    SettledExact(cfg, f, v);
    forall p: seq<Arc> | Walk(cfg.g, cfg.source, p, v) ensures f[v] <= Length(p) {
      assert Derives(cfg, cfg.source, p, v, Length(p));
    }
  }

  ghost predicate IsComponentLabel(g: Graph, v: nat, l: nat)
    requires g.Valid()
  {
    && (exists p: seq<Arc> :: Walk(g, l, p, v))
    && (forall u: nat, p: seq<Arc> | Walk(g, u, p, v) :: l <= u)
  }

  /** The smallest vertex from which v can be reached: on an undirected graph, its component's. */
  lemma {:induction false} ComponentLabels(cfg: Config, events: seq<Event>, s: System, v: nat)
    requires cfg.Valid() && cfg.algorithm.Cc?
    requires Run(cfg, InitialSystem(cfg), events, s) && Quiescent(s) && v < cfg.g.size
    ensures Sized(cfg, s) && IsComponentLabel(cfg.g, v, Master(cfg, s, v))
  {
    RunSettled(cfg, events, s);
    SettledIsComponent(cfg, Final(cfg, s), v);
  }

  lemma {:induction false} SettledIsComponent(cfg: Config, f: seq<nat>, v: nat)
    requires cfg.Valid() && cfg.algorithm.Cc? && Settled(cfg, f) && v < cfg.g.size
    ensures IsComponentLabel(cfg.g, v, f[v])
  {
    SettledExact(cfg, f, v);
    assert f[v] <= v;
    forall u: nat, p: seq<Arc> | Walk(cfg.g, u, p, v) ensures f[v] <= u {
      assert Derives(cfg, u, p, v, u);
    }
  }

  lemma {:induction false} CopyAgrees(cfg: Config, s: System, q: nat, v: nat)
    requires cfg.Valid() && Ready(cfg, s) && Quiescent(s) && !cfg.algorithm.Sssp?
    requires q < cfg.g.ranks && v < cfg.g.size && cfg.g.Hosts(q, v)
    requires s.procs[q].level[v] <= cfg.top && Current(cfg, s, q, v) && CopiesOf(cfg, s, s.procs[q])
    ensures s.procs[q].level[v] == Master(cfg, s, v) || Master(cfg, s, v) > cfg.top
    ensures Master(cfg, s, v) < cfg.top ==> ParentOk(cfg, v, Master(cfg, s, v), s.procs[q].parent[v])
  {
    assert IdleProcess(s.procs[q]) && IdleProcess(s.procs[cfg.g.master[v]]);
    if v in cfg.g.delegates {
      assert Covered(cfg, s, v, s.procs[q].level[v]);
    }
  }

  /** Every copy of a delegate agrees with its master when the algorithm refreshes copies. */
  lemma {:induction false} CopiesAgree(cfg: Config, events: seq<Event>, s: System, q: nat, v: nat)
    requires cfg.Valid() && !cfg.algorithm.Sssp?
    requires Run(cfg, InitialSystem(cfg), events, s) && Quiescent(s)
    requires q < cfg.g.ranks && v < cfg.g.size && cfg.g.Hosts(q, v)
    ensures Sized(cfg, s) && s.procs[q].level[v] == Master(cfg, s, v)
    ensures Master(cfg, s, v) < cfg.top ==> ParentOk(cfg, v, Master(cfg, s, v), s.procs[q].parent[v])
  {
    RunSettled(cfg, events, s);
    assert Justified(cfg, s.procs[q]) && JustifiedLevel(cfg, v, s.procs[q].level[v]);
    assert JustifiedLevel(cfg, v, Final(cfg, s)[v]);
    CopyAgrees(cfg, s, q, v);
  }

  // --- The tree of parents -----------------------------------------------------------------------------

  /** The parents recorded on owners and masters. */
  ghost function Parents(cfg: Config, s: System): (ps: seq<nat>)
    requires Sized(cfg, s)
    ensures |ps| == cfg.g.size
  {
    seq(cfg.g.size, v requires 0 <= v < cfg.g.size => s.procs[cfg.g.master[v]].parent[v])
  }

  /** Every arc of the walk goes from the recorded parent of its target. */
  ghost predicate ByParents(parents: seq<nat>, p: seq<Arc>) {
    forall i | 0 <= i < |p| :: p[i].dst < |parents| && p[i].src == parents[p[i].dst]
  }

  /** v is the source at level zero, or an arc from its recorded parent is one level up. */
  ghost predicate Descends(cfg: Config, f: seq<nat>, parents: seq<nat>, v: nat)
    requires cfg.Valid() && |f| == |parents| == cfg.g.size && v < cfg.g.size
  {
    if f[v] == 0 then v == cfg.source
    else exists a: Arc :: cfg.g.HasArc(a) && a.src == parents[v] && a.dst == v && f[a.src] == f[v] - 1
  }

  lemma {:induction false} AtMostWitness(cfg: Config, f: seq<nat>, u: nat, l: nat)
    requires cfg.Valid() && Settled(cfg, f) && Witness(cfg, u, l)
    ensures u < cfg.g.size == |f| && f[u] <= l
  {
    var s0: nat, walk: seq<Arc> :| Derives(cfg, s0, walk, u, l);
    NoShorterWalk(cfg, f, s0, walk, u);
  }

  lemma {:induction false} RelaxedByOne(cfg: Config, f: seq<nat>, a: Arc)
    requires cfg.Valid() && cfg.algorithm.Bfs? && Settled(cfg, f) && cfg.g.HasArc(a) && f[a.src] < cfg.top
    ensures a.dst < |f| && f[a.dst] <= f[a.src] + 1
  {
    hide Walk;
    assert RelaxedArc(cfg, f, a);
  }

  /** A recorded parent is exactly one hop closer to the source. */
  lemma {:induction false} ParentCloser(cfg: Config, f: seq<nat>, v: nat, u: nat) returns (a: Arc)
    requires cfg.Valid() && cfg.algorithm.Bfs? && Settled(cfg, f)
    requires v < cfg.g.size && 0 < f[v] < cfg.top && ParentFits(cfg, v, f[v], u)
    ensures cfg.g.HasArc(a) && a.src == u && a.dst == v && f[u] == f[v] - 1
  {
    hide Walk, Graph.HasArc, RelaxedArc, JustifiedLevel, Origin;
    var w: nat :| cfg.g.HasArc(Arc(u, v, w));
    a := Arc(u, v, w);
    AtMostWitness(cfg, f, u, f[v] - 1);
    RelaxedByOne(cfg, f, a);
  }

  /** Following parents from any reached vertex retraces a shortest walk from the source. */
  lemma {:induction false} ParentWalk(cfg: Config, f: seq<nat>, parents: seq<nat>, v: nat) returns (p: seq<Arc>)
    requires cfg.Valid() && |f| == |parents| == cfg.g.size && v < cfg.g.size && f[v] < cfg.top
    requires forall u | 0 <= u < cfg.g.size && f[u] < cfg.top :: Descends(cfg, f, parents, u)
    ensures Walk(cfg.g, cfg.source, p, v) && |p| == f[v] && ByParents(parents, p)
    decreases f[v]
  {
    assert Descends(cfg, f, parents, v);
    if f[v] == 0 {
      p := [];
    } else {
      var a :| cfg.g.HasArc(a) && a.src == parents[v] && a.dst == v && f[a.src] == f[v] - 1;
      var head := ParentWalk(cfg, f, parents, a.src);
      p := head + [a];
      WalkExtend(cfg.g, cfg.source, head, a);
    }
  }

  /** Recorded parents form a shortest-path tree, for every run. */
  lemma {:induction false} BfsParents(cfg: Config, events: seq<Event>, s: System, v: nat) returns (p: seq<Arc>)
    requires cfg.Valid() && cfg.algorithm.Bfs?
    requires Run(cfg, InitialSystem(cfg), events, s) && Quiescent(s) && v < cfg.g.size
    requires Sized(cfg, s) && Master(cfg, s, v) < MAX_LEVEL
    ensures Walk(cfg.g, cfg.source, p, v) && |p| == Master(cfg, s, v) && ByParents(Parents(cfg, s), p)
  {
    RunSettled(cfg, events, s);
    var f := Final(cfg, s);
    forall u | 0 <= u < cfg.g.size && f[u] < cfg.top ensures Descends(cfg, f, Parents(cfg, s), u) {
      CopiesAgree(cfg, events, s, cfg.g.master[u], u);
      if f[u] > 0 {
        var a := ParentCloser(cfg, f, u, Parents(cfg, s)[u]);
      }
    }
    p := ParentWalk(cfg, f, Parents(cfg, s), v);
  }
}
