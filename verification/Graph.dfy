/**
 A graph partitioned over ranks. Every vertex has a master rank (the owner of an
 ordinary vertex); a delegate is replicated on all ranks and its edges are split
 among them, while an ordinary vertex keeps all its edges on its owner.
 */
module Graphs {
  datatype Edge = Edge(target: nat, weight: nat)

  datatype Arc = Arc(src: nat, dst: nat, weight: nat)

  datatype Graph = Graph(
    ranks: nat,
    size: nat,
    delegates: set<nat>,
    master: seq<nat>,
    edges: seq<seq<seq<Edge>>>)
  {
    ghost predicate Placed() {
      ranks > 0 && |master| == size && forall v | 0 <= v < size :: master[v] < ranks
    }

    ghost predicate Valid() {
      && Placed()
      && |edges| == ranks
      && (forall r | 0 <= r < ranks :: |edges[r]| == size)
      && (forall r, v | 0 <= r < ranks && 0 <= v < size && !Hosts(r, v) :: edges[r][v] == [])
      && (forall r, v, k | 0 <= r < ranks && 0 <= v < size && 0 <= k < |edges[r][v]| ::
            edges[r][v][k].target < size)
    }

    predicate Hosts(r: nat, v: nat)
      requires v < |master|
    {
      v in delegates || master[v] == r
    }

    ghost predicate HasArc(a: Arc)
      requires Valid()
    {
      && a.src < size
      && exists r: nat, k: nat :: ArcAt(a, r, k)
    }

    ghost predicate ArcAt(a: Arc, r: nat, k: nat)
      requires Valid() && a.src < size
    {
      r < ranks && k < |edges[r][a.src]| && edges[r][a.src][k] == Edge(a.dst, a.weight)
    }
  }

  /** p is a walk from s to t along arcs of g. */
  ghost predicate Walk(g: Graph, s: nat, p: seq<Arc>, t: nat)
    requires g.Valid()
    decreases |p|
  {
    if p == [] then
      s == t && s < g.size
    else
      var a := p[|p| - 1];
      a.dst == t && g.HasArc(a) && Walk(g, s, p[..|p| - 1], a.src)
  }

  function Length(p: seq<Arc>): nat {
    if p == [] then 0 else Length(p[..|p| - 1]) + p[|p| - 1].weight
  }

  lemma {:induction false} WalkExtend(g: Graph, s: nat, p: seq<Arc>, a: Arc)
    requires g.Valid() && g.HasArc(a) && Walk(g, s, p, a.src)
    ensures Walk(g, s, p + [a], a.dst)
    ensures Length(p + [a]) == Length(p) + a.weight
  {
    assert (p + [a])[..|p|] == p;
  }

  lemma {:induction false} WalkEnds(g: Graph, s: nat, p: seq<Arc>, t: nat)
    requires g.Valid() && Walk(g, s, p, t)
    ensures s < g.size && t < g.size
    decreases |p|
  {
    if p != [] {
      var a := p[|p| - 1];
      WalkEnds(g, s, p[..|p| - 1], a.src);
      var r: nat, k: nat :| g.ArcAt(a, r, k);
      assert g.edges[r][a.src][k].target < g.size;
    }
  }
}
