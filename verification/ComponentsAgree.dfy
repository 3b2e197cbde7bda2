/** The distributed components and the sequential search label every vertex alike. */
module ComponentsAgree {
  import opened Graphs
  import opened Traversal
  import opened TraversalOrder
  import opened TraversalExactness
  import opened SequentialComponents

  /** The partitioned graph has the arcs of the adjacency lists, whatever the weights. */
  ghost predicate SameArcs(g: Graph, graph: Adjacency)
    requires g.Valid()
  {
    && (forall a: Arc | g.HasArc(a) :: Adjacent(graph, a.src, a.dst))
    && (forall u: nat, v: nat | Adjacent(graph, u, v) :: Linked(g, u, v))
  }

  ghost predicate Linked(g: Graph, u: nat, v: nat)
    requires g.Valid()
  {
    exists w: nat :: g.HasArc(Arc(u, v, w))
  }

  lemma {:induction false} WalkIsChain(g: Graph, graph: Adjacency, u: nat, p: seq<Arc>, v: nat)
    requires g.Valid() && SameArcs(g, graph) && Walk(g, u, p, v)
    ensures Connected(graph, u, v)
    decreases |p|
  {
    hide Connected, Adjacent;
    if p == [] {
      Reflexive(graph, v);
    } else {
      var a := p[|p| - 1];
      WalkIsChain(g, graph, u, p[..|p| - 1], a.src);
      Extend(graph, u, a.src, v);
    }
  }

  lemma {:induction false} ChainIsWalk(g: Graph, graph: Adjacency, u: nat, p: seq<nat>, v: nat) returns (q: seq<Arc>)
    requires g.Valid() && SameArcs(g, graph) && Chain(graph, u, p, v) && v < g.size
    ensures Walk(g, u, q, v)
    decreases |p|
  {
    hide Adjacent;
    if p == [] {
      q := [];
    } else {
      var x := p[|p| - 1];
      assert Linked(g, x, v);
      var w: nat :| g.HasArc(Arc(x, v, w));
      q := ChainIsWalk(g, graph, u, p[..|p| - 1], x);
      WalkExtend(g, u, q, Arc(x, v, w));
      q := q + [Arc(x, v, w)];
    }
  }

  /** After any run, the label of a vertex is the one the sequential search writes. */
  lemma {:induction false} AgreesWithSearch(cfg: Config, events: seq<Event>, s: System, graph: Adjacency, v: nat, l: nat)
    requires cfg.Valid() && cfg.algorithm.Cc? && SameArcs(cfg.g, graph)
    requires Run(cfg, InitialSystem(cfg), events, s) && Quiescent(s) && v < cfg.g.size
    requires IsLabel(graph, v, l)
    ensures Sized(cfg, s) && Master(cfg, s, v) == l
  {
    ComponentLabels(cfg, events, s, v);
    SameLabels(cfg.g, graph, v, l, Master(cfg, s, v));
  }

  lemma {:induction false} SameLabels(g: Graph, graph: Adjacency, v: nat, l: nat, m: nat)
    requires g.Valid() && SameArcs(g, graph) && v < g.size && IsLabel(graph, v, l) && IsComponentLabel(g, v, m)
    ensures l == m
  {
    hide Walk, Chain, SameArcs;
    var p: seq<Arc> :| Walk(g, m, p, v);
    WalkIsChain(g, graph, m, p, v);
    var q: seq<nat> :| Chain(graph, l, q, v);
    var r := ChainIsWalk(g, graph, l, q, v);
  }
}
