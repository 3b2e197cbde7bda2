/**
 What the directed triangles mean for the undirected graph: each triangle is one wedge, at its
 least vertex, and the support of an edge is the number of common neighbours of its ends.
 */
module TriangleExactness {
  import opened Collections
  import opened Triangles
  import opened TriangleCount

  predicate Adjacent(adj: Adjacency, u: nat, v: nat) {
    u < |adj| && v < |adj| && u != v && v in adj[u]
  }

  function CommonNeighbours(adj: Adjacency, u: nat, v: nat): set<nat> {
    set z | z in Indices(|adj|) && Adjacent(adj, u, z) && Adjacent(adj, v, z)
  }

  /** All directed edges of the graph, and no others. */
  ghost predicate Directs(adj: Adjacency, core: bool, live: set<Edge>) {
    forall e :: e in live <==> IsDirected(adj, core, e)
  }

  function Corners(t: Wedge): set<nat> { {t.apex, t.near, t.far} }

  /** u comes before v. */
  predicate Before(adj: Adjacency, u: nat, v: nat) {
    OrderGt(Degree(adj)(v), Degree(adj)(u), v, u)
  }

  lemma {:induction false} TwoNeighbours(s: seq<nat>, x: nat, y: nat)
    requires x in s && y in s && x != y
    ensures |s| >= 2
  {
    var i :| 0 <= i < |s| && s[i] == x;
    var j :| 0 <= j < |s| && s[j] == y;
  }

  /** In a triangle both ends of a side have degree two or more, so the side is stored. */
  lemma {:induction false} SideStored(adj: Adjacency, core: bool, live: set<Edge>, x: nat, y: nat, z: nat)
    requires Undirected(adj) && Directs(adj, core, live)
    requires Adjacent(adj, x, y) && Adjacent(adj, x, z) && Adjacent(adj, y, z)
    ensures Before(adj, x, y) || Before(adj, y, x)
    ensures if Before(adj, x, y) then Edge(x, y) in live else Edge(y, x) in live
  {
    TwoNeighbours(adj[x], y, z);
    TwoNeighbours(adj[y], x, z);
    OrderIsStrictAndTotal(Degree(adj), x, y, z);
    if Before(adj, x, y) {
      assert IsDirected(adj, core, Edge(x, y));
    } else {
      assert IsDirected(adj, core, Edge(y, x));
    }
  }

  function Sorted(adj: Adjacency, x: nat, y: nat, z: nat): Wedge {
    if Before(adj, x, y) then
      if Before(adj, y, z) then Wedge(x, y, z)
      else if Before(adj, x, z) then Wedge(x, z, y) else Wedge(z, x, y)
    else
      if Before(adj, x, z) then Wedge(y, x, z)
      else if Before(adj, y, z) then Wedge(y, z, x) else Wedge(z, y, x)
  }

  /** Three mutually adjacent vertices are found, in their order; nothing else with those corners is. */
  lemma {:induction false} FoundOnce(adj: Adjacency, core: bool, live: set<Edge>, x: nat, y: nat, z: nat)
    requires Undirected(adj) && Directs(adj, core, live)
    requires Adjacent(adj, x, y) && Adjacent(adj, x, z) && Adjacent(adj, y, z)
    ensures Sorted(adj, x, y, z) in TrianglesOf(live)
    ensures forall t | t in TrianglesOf(live) :: Corners(t) == {x, y, z} <==> t == Sorted(adj, x, y, z)
    ensures var t := Sorted(adj, x, y, z);
      && t.apex < |adj| && t.near < |adj| && t.far < |adj|
      && Below(adj, t.apex, t.near) && Below(adj, t.apex, t.far) && Below(adj, t.near, t.far)
  {
    SideStored(adj, core, live, x, y, z);
    SideStored(adj, core, live, x, z, y);
    SideStored(adj, core, live, y, z, x);
    OrderIsStrictAndTotal(Degree(adj), x, y, z);
    OrderIsStrictAndTotal(Degree(adj), x, z, y);
    OrderIsStrictAndTotal(Degree(adj), y, x, z);
    OrderIsStrictAndTotal(Degree(adj), y, z, x);
    OrderIsStrictAndTotal(Degree(adj), z, x, y);
    OrderIsStrictAndTotal(Degree(adj), z, y, x);
    var s := Sorted(adj, x, y, z);
    assert s.In(live);
    forall t | t in TrianglesOf(live) && Corners(t) == {x, y, z}
      ensures t == s
    {
      SortedCorners(adj, core, live, t, x, y, z);
    }
  }

  lemma {:induction false} TriangleOrder(adj: Adjacency, core: bool, live: set<Edge>, t: Wedge)
    requires Undirected(adj) && Directs(adj, core, live) && t in TrianglesOf(live)
    ensures Before(adj, t.apex, t.near) && Before(adj, t.near, t.far) && Before(adj, t.apex, t.far)
    ensures Adjacent(adj, t.apex, t.near) && Adjacent(adj, t.apex, t.far) && Adjacent(adj, t.near, t.far)
  {
    assert t.In(live);
    assert IsDirected(adj, core, t.Left()) && IsDirected(adj, core, t.Right()) && IsDirected(adj, core, t.Closing());
  }

  lemma {:induction false} SortedCorners(adj: Adjacency, core: bool, live: set<Edge>, t: Wedge, x: nat, y: nat, z: nat)
    requires Undirected(adj) && Directs(adj, core, live) && t in TrianglesOf(live)
    requires Corners(t) == {x, y, z} && x != y && x != z && y != z
    ensures t == Sorted(adj, x, y, z)
  {
    TriangleOrder(adj, core, live, t);
    assert t.apex in {x, y, z} && t.near in {x, y, z} && t.far in {x, y, z};
    assert x in Corners(t) && y in Corners(t) && z in Corners(t);
    hide Corners, TrianglesOf, Directs;
  }

  function Third(t: Wedge, e: Edge): nat {
    if e == t.Left() then t.far else if e == t.Right() then t.near else t.apex
  }

  lemma {:induction false} SameSize<A, B>(s: set<A>, t: set<B>, f: A -> B)
    requires forall x | x in s :: f(x) in t
    requires forall x, y | x in s && y in s && f(x) == f(y) :: x == y
    requires forall b | b in t :: exists x :: x in s && f(x) == b
    ensures |s| == |t|
    decreases |s|
  {
    if s == {} {
      assert forall b :: b !in t;
    } else {
      var x :| x in s;
      forall b | b in t - {f(x)}
        ensures exists y :: y in s - {x} && f(y) == b
      {
        var y :| y in s && f(y) == b;
      }
      SameSize(s - {x}, t - {f(x)}, f);
    }
  }

  lemma {:induction false} ThirdIsCommon(adj: Adjacency, core: bool, live: set<Edge>, e: Edge, t: Wedge)
    requires Undirected(adj) && Directs(adj, core, live)
    requires t in TrianglesOf(live) && t.Has(e)
    ensures Adjacent(adj, e.lo, Third(t, e)) && Adjacent(adj, e.hi, Third(t, e)) && Adjacent(adj, e.lo, e.hi)
    ensures t == Sorted(adj, e.lo, e.hi, Third(t, e))
    ensures Third(t, e) in CommonNeighbours(adj, e.lo, e.hi)
  {
    TriangleOrder(adj, core, live, t);
    var z := Third(t, e);
    assert Corners(t) == {e.lo, e.hi, z};
    SortedCorners(adj, core, live, t, e.lo, e.hi, z);
  }

  /** The sorted triangle of an edge and a third vertex has both, with the third at the corner off the edge. */
  lemma {:induction false} SortedHas(adj: Adjacency, x: nat, y: nat, z: nat)
    requires Before(adj, x, y) && x != y && x != z && y != z
    requires Before(adj, x, z) <==> !Before(adj, z, x)
    ensures var t := Sorted(adj, x, y, z); t.Has(Edge(x, y)) && Third(t, Edge(x, y)) == z
  {
    hide Before;
    assert Sorted(adj, x, y, z) in {Wedge(x, y, z), Wedge(x, z, y), Wedge(z, x, y)};
  }

  lemma {:induction false} CommonIsThird(adj: Adjacency, core: bool, live: set<Edge>, e: Edge, z: nat)
    requires Undirected(adj) && Directs(adj, core, live) && e in live
    requires z in CommonNeighbours(adj, e.lo, e.hi)
    ensures Sorted(adj, e.lo, e.hi, z) in Through(TrianglesOf(live), e)
    ensures Third(Sorted(adj, e.lo, e.hi, z), e) == z
  {
    assert IsDirected(adj, core, e);
    assert Before(adj, e.lo, e.hi) && Edge(e.lo, e.hi) == e;
    hide TrianglesOf, Undirected, IsDirected, Below, Before, Sorted;
    FoundOnce(adj, core, live, e.lo, e.hi, z);
    OneWay(adj, e.lo, z);
    SortedHas(adj, e.lo, e.hi, z);
  }

  lemma {:induction false} OneWay(adj: Adjacency, x: nat, z: nat)
    requires x != z
    ensures Before(adj, x, z) <==> !Before(adj, z, x)
  {
  }

  /** The support of a directed edge counts the undirected triangles through it. */
  lemma {:induction false} SupportIsCommonNeighbours(adj: Adjacency, core: bool, live: set<Edge>, e: Edge)
    requires Undirected(adj) && Directs(adj, core, live) && e in live
    ensures Support(live, e) == |CommonNeighbours(adj, e.lo, e.hi)|
  {
    var s, t := Through(TrianglesOf(live), e), CommonNeighbours(adj, e.lo, e.hi);
    var f := (w: Wedge) => Third(w, e);
    assert Support(live, e) == |s|;
    assert forall w | w in s :: w in TrianglesOf(live) && w.Has(e);
    hide *;
    forall w | w in s
      ensures f(w) in t && w == Sorted(adj, e.lo, e.hi, f(w))
    {
      ThirdIsCommon(adj, core, live, e, w);
    }
    forall z | z in t
      ensures exists w :: w in s && f(w) == z
    {
      CommonIsThird(adj, core, live, e, z);
      var w := Sorted(adj, e.lo, e.hi, z);
      assert w in s && f(w) == z;
    }
    SameSize(s, t, f);
  }

  // Subgraphs

  /** The undirected subgraph of the edges s joins u and v. */
  predicate JoinedBy(s: set<Edge>, u: nat, v: nat) { Edge(u, v) in s || Edge(v, u) in s }

  function CommonIn(adj: Adjacency, s: set<Edge>, u: nat, v: nat): set<nat> {
    set z | z in Indices(|adj|) && JoinedBy(s, u, z) && JoinedBy(s, v, z)
  }

  lemma {:induction false} JoinedIs(adj: Adjacency, core: bool, s: set<Edge>, u: nat, v: nat)
    requires Undirected(adj) && (forall e | e in s :: IsDirected(adj, core, e)) && JoinedBy(s, u, v)
    ensures Adjacent(adj, u, v) && Adjacent(adj, v, u) && (Before(adj, u, v) <==> !Before(adj, v, u))
    ensures if Before(adj, u, v) then Edge(u, v) in s else Edge(v, u) in s
  {
    OrderIsStrictAndTotal(Degree(adj), u, v, u);
    OrderIsStrictAndTotal(Degree(adj), v, u, v);
    hide OrderGt;
    assert Edge(u, v) in s ==> IsDirected(adj, core, Edge(u, v));
    assert Edge(v, u) in s ==> IsDirected(adj, core, Edge(v, u));
  }

  lemma {:induction false} JoinedTriangle(adj: Adjacency, core: bool, s: set<Edge>, x: nat, y: nat, z: nat)
    requires Undirected(adj) && forall e | e in s :: IsDirected(adj, core, e)
    requires JoinedBy(s, x, y) && JoinedBy(s, x, z) && JoinedBy(s, y, z)
    ensures Sorted(adj, x, y, z) in TrianglesOf(s)
  {
    JoinedIs(adj, core, s, x, y);
    JoinedIs(adj, core, s, x, z);
    JoinedIs(adj, core, s, y, z);
    assert Sorted(adj, x, y, z).In(s) by {
      hide Undirected, IsDirected, Adjacent;
      BeforeChains(adj, x, y, z);
    }
  }

  lemma {:induction false} BeforeChains(adj: Adjacency, x: nat, y: nat, z: nat)
    ensures Before(adj, x, y) && Before(adj, y, z) ==> Before(adj, x, z)
    ensures Before(adj, x, z) && Before(adj, z, y) ==> Before(adj, x, y)
    ensures Before(adj, y, x) && Before(adj, x, z) ==> Before(adj, y, z)
    ensures Before(adj, y, z) && Before(adj, z, x) ==> Before(adj, y, x)
    ensures Before(adj, z, x) && Before(adj, x, y) ==> Before(adj, z, y)
    ensures Before(adj, z, y) && Before(adj, y, x) ==> Before(adj, z, x)
  {
  }

  /** A triangle of a subgraph is the sorted triangle of either end's third corner, which it joins to both. */
  lemma {:induction false} ThirdIsJoined(adj: Adjacency, core: bool, s: set<Edge>, e: Edge, t: Wedge)
    requires Undirected(adj) && (forall f | f in s :: IsDirected(adj, core, f))
    requires t in TrianglesOf(s) && t.Has(e)
    ensures Third(t, e) in CommonIn(adj, s, e.lo, e.hi)
    ensures t == Sorted(adj, e.lo, e.hi, Third(t, e))
  {
    var z := Third(t, e);
    assert t.In(s);
    assert IsDirected(adj, core, t.Left()) && IsDirected(adj, core, t.Right()) && IsDirected(adj, core, t.Closing());
    JoinedIs(adj, core, s, t.apex, t.near);
    JoinedIs(adj, core, s, t.apex, t.far);
    JoinedIs(adj, core, s, t.near, t.far);
    assert Before(adj, t.apex, t.near) && Before(adj, t.near, t.far) && Before(adj, t.apex, t.far);
    hide TrianglesOf, IsDirected, Before;
  }

  /** In every subgraph, the support of an edge counts the undirected triangles of the subgraph through it. */
  lemma {:induction false} SupportWithin(adj: Adjacency, core: bool, s: set<Edge>, e: Edge)
    requires Undirected(adj) && (forall f | f in s :: IsDirected(adj, core, f)) && e in s
    ensures Support(s, e) == |CommonIn(adj, s, e.lo, e.hi)|
  {
    var ts, zs := Through(TrianglesOf(s), e), CommonIn(adj, s, e.lo, e.hi);
    var f := (w: Wedge) => Third(w, e);
    assert Support(s, e) == |ts|;
    assert forall w :: w in ts <==> w in TrianglesOf(s) && w.Has(e);
    forall z | z in zs
      ensures Sorted(adj, e.lo, e.hi, z) in ts && Third(Sorted(adj, e.lo, e.hi, z), e) == z
    {
      CommonInThrough(adj, core, s, e, z);
    }
    hide *;
    forall w | w in ts
      ensures f(w) in zs && w == Sorted(adj, e.lo, e.hi, f(w))
    {
      ThirdIsJoined(adj, core, s, e, w);
    }
    forall z | z in zs
      ensures exists w :: w in ts && f(w) == z
    {
      var w := Sorted(adj, e.lo, e.hi, z);
      assert w in ts && f(w) == z;
    }
    SameSize(ts, zs, f);
  }

  lemma {:induction false} CommonInThrough(adj: Adjacency, core: bool, s: set<Edge>, e: Edge, z: nat)
    requires Undirected(adj) && (forall f | f in s :: IsDirected(adj, core, f)) && e in s
    requires z in CommonIn(adj, s, e.lo, e.hi)
    ensures Sorted(adj, e.lo, e.hi, z) in Through(TrianglesOf(s), e)
    ensures Third(Sorted(adj, e.lo, e.hi, z), e) == z
  {
    JoinedTriangle(adj, core, s, e.lo, e.hi, z);
    JoinedIs(adj, core, s, e.lo, e.hi);
    JoinedIs(adj, core, s, e.lo, z);
    JoinedIs(adj, core, s, e.hi, z);
    assert IsDirected(adj, core, e);
    assert Before(adj, e.lo, e.hi);
    hide TrianglesOf, IsDirected, Before, Undirected;
  }

  /**
   The whole count on an undirected graph, delegates included: each directed edge ends with the number of common
   neighbours of its ends, and the number of triangles found counts each triangle once.
   */
  method TriangleCountPerEdge(g: Shares, core: bool) returns (edges: EdgeMap, found: nat)
    requires g.Valid() && Undirected(g.Adj())
    ensures forall e :: e in edges <==> Kept(g.Adj(), core, e.lo, e.hi)
    ensures forall e | e in edges :: edges[e].count == |CommonNeighbours(g.Adj(), e.lo, e.hi)|
    ensures found == |TrianglesOf(edges.Keys)|
    ensures SumOver(edges.Keys, CountOf(edges)) == 3 * found
  {
    hide *;
    var adj := g.Adj();
    var edges0 := ConstructDirected(g, core);
    var inbound;
    ConstructedLive(adj, core, edges0);
    edges, inbound, found := CountAllTriangles(Degree(adj), Indices(|adj|), edges0);
    CountsAre(adj, core, edges0, edges, inbound);
    KeptIsDirected(adj, core);
  }

  lemma {:induction false} ConstructedLive(adj: Adjacency, core: bool, edges: EdgeMap)
    requires Stored(adj, core, edges) && forall e :: e in edges <==> IsDirected(adj, core, e)
    ensures Live(edges) == edges.Keys && forall e | e in edges :: e.lo in Indices(|adj|)
  {
    hide OrderGt;
  }

  lemma {:induction false} CountsAre(adj: Adjacency, core: bool, edges0: EdgeMap, edges: EdgeMap, inbound: map<Edge, nat>)
    requires Undirected(adj) && (forall e :: e in edges0 <==> IsDirected(adj, core, e)) && Live(edges0) == edges0.Keys
    requires SameShape(Reset(edges0), edges) && Exact(Live(edges0), edges, inbound)
    ensures edges.Keys == edges0.Keys
    ensures forall e | e in edges :: edges[e].count == |CommonNeighbours(adj, e.lo, e.hi)|
  {
    hide SumOver, TrianglesOf, CommonNeighbours, Support, Undirected, IsDirected;
    assert edges.Keys == edges0.Keys;
    forall e | e in edges
      ensures edges[e].count == |CommonNeighbours(adj, e.lo, e.hi)|
    {
      SupportIsCommonNeighbours(adj, core, edges0.Keys, e);
      assert CountOf(edges)(e) == Support(edges0.Keys, e);
    }
  }

  // The count-only variant

  ghost function Index(out: seq<Edge>, e: Edge): (k: nat)
    requires e in out
    ensures k < |out| && out[k] == e
  {
    var k: nat :| k < |out| && out[k] == e;
    k
  }

  /** The iterators have passed the pair of spokes of w. */
  ghost predicate Reached(out: seq<Edge>, a: nat, b: nat, w: Wedge)
    requires w.Left() in out && w.Right() in out
  {
    var l, r := Index(out, w.Left()), Index(out, w.Right());
    if l < r then l < a || (l == a && r < b) else r < a || (r == a && l < b)
  }

  ghost predicate Queued(edges: EdgeMap, i: nat, out: seq<Edge>, a: nat, b: nat, w: Wedge)
    requires forall e :: e in out <==> e in edges && e.lo == i
  {
    IsWedgeAt(edges, i, edges.Keys, w) && Reached(out, a, b, w)
  }

  /** Every unordered pair of out-edges once, the lower end asked about the higher. */
  method QueuePairs(edges: EdgeMap, i: nat, out: seq<Edge>, checks: multiset<Wedge>) returns (sent: multiset<Wedge>)
    requires forall e :: e in out <==> e in edges && e.lo == i
    requires forall x, y | 0 <= x < y < |out| :: out[x] != out[y]
    requires forall e | e in edges :: !edges[e].deleted
    ensures sent == checks + multiset(WedgesAt(edges, i, edges.Keys))
  {
    sent := checks;
    for a := 0 to |out|
      invariant forall w :: sent[w] == checks[w] + (if Queued(edges, i, out, a, a, w) then 1 else 0)
    {
      for b := a to |out|
        invariant forall w :: sent[w] == checks[w] + (if Queued(edges, i, out, a, b, w) then 1 else 0)
      {
        var ea, eb := out[a], out[b];
        assert ea in out && eb in out;
        assert Index(out, ea) == a && Index(out, eb) == b;
        if ea != eb {
          if OrderGt(edges[eb].targetDegree, edges[ea].targetDegree, eb.hi, ea.hi) {
            sent := sent + multiset{Wedge(i, ea.hi, eb.hi)};
          } else {
            sent := sent + multiset{Wedge(i, eb.hi, ea.hi)};
          }
        }
      }
    }
  }
}
