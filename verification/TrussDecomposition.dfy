/**
 The rounds of a truss decomposition, and the whole sequence of decompositions for k = 3, 4, ...
 until no edge is left.
 */
module TrussDecomposition {
  import opened Collections
  import opened Triangles
  import opened TriangleCount
  import opened Trusses
  import opened KTruss
  import opened TriangleExactness

  datatype Report = Report(k: int, edges: nat, vertices: nat, triangles: nat)

  function Sources(live: set<Edge>): set<nat> {
    set e | e in live :: e.lo
  }

  ghost function ReportOf(k: int, all: set<Edge>): Report {
    var truss := Truss(k, all);
    Report(k, |truss|, |Sources(truss)|, |TrianglesOf(truss)|)
  }

  // Removing marked edges

  function Swept(d: EdgeData): EdgeData {
    if !d.deleted && d.marked then d.(deleted := true) else d
  }

  function GoneOf(edges: EdgeMap): set<Edge> {
    set e | e in edges && !edges[e].deleted && edges[e].marked
  }

  function KeptOf(edges: EdgeMap): set<Edge> {
    set e | e in edges && !edges[e].deleted && !edges[e].marked
  }

  function OutOf(s: set<Edge>, v: nat): set<Edge> {
    set e | e in s && e.lo == v
  }

  /** The out-edges of v that are not in out have been swept. */
  ghost predicate SweptAt(edges0: EdgeMap, edges: EdgeMap, v: nat, out: set<Edge>) {
    && edges.Keys == edges0.Keys
    && forall e | e in edges0 :: edges[e] == if e.lo == v && e !in out then Swept(edges0[e]) else edges0[e]
  }

  /** And counted. */
  ghost predicate CountedAt(edges0: EdgeMap, v: nat, out: set<Edge>, removed: nat, alive: nat, triangles: nat) {
    var gone, kept := OutOf(GoneOf(edges0), v) - out, OutOf(KeptOf(edges0), v) - out;
    removed == |gone| && alive == |kept| && triangles == SumOver(kept, CountOf(edges0))
  }

  lemma {:induction false} SweepNone(edges: EdgeMap, v: nat)
    ensures SweptAt(edges, edges, v, OutOf(edges.Keys, v))
    ensures CountedAt(edges, v, OutOf(edges.Keys, v), 0, 0, 0)
  {
    var out := OutOf(edges.Keys, v);
    assert OutOf(GoneOf(edges), v) - out == {} && OutOf(KeptOf(edges), v) - out == {};
  }

  lemma {:induction false} SweepShape(edges0: EdgeMap, edges: EdgeMap, v: nat, out: set<Edge>, e: Edge)
    requires SweptAt(edges0, edges, v, out)
    requires e in out && e in edges0 && e.lo == v
    ensures e in edges && edges[e] == edges0[e]
    ensures SweptAt(edges0, edges[e := Swept(edges0[e])], v, out - {e})
    ensures Swept(edges0[e]) == edges0[e] ==> SweptAt(edges0, edges, v, out - {e})
  {
  }

  /** What remains of s outside out once e leaves out. */
  lemma {:induction false} OneMore(s: set<Edge>, out: set<Edge>, e: Edge)
    requires e in out
    ensures s - (out - {e}) == if e in s then (s - out) + {e} else s - out
  {
  }

  lemma {:induction false} OneSwept(s: set<Edge>, out: set<Edge>, e: Edge, f: Edge -> nat)
    requires e in out
    ensures |s - (out - {e})| == |s - out| + if e in s then 1 else 0
    ensures SumOver(s - (out - {e}), f) == SumOver(s - out, f) + if e in s then f(e) else 0
  {
    hide SumOver;
    OneMore(s, out, e);
    if e in s {
      SumOverAdd(s - out, e, f);
    }
  }

  lemma {:induction false} SweepTally(edges0: EdgeMap, v: nat, out: set<Edge>, e: Edge, removed: nat, alive: nat, triangles: nat)
    requires CountedAt(edges0, v, out, removed, alive, triangles)
    requires e in out && e in edges0 && e.lo == v
    ensures edges0[e].deleted ==> CountedAt(edges0, v, out - {e}, removed, alive, triangles)
    ensures e in GoneOf(edges0) ==> CountedAt(edges0, v, out - {e}, removed + 1, alive, triangles)
    ensures e in KeptOf(edges0) ==> CountedAt(edges0, v, out - {e}, removed, alive + 1, triangles + edges0[e].count)
  {
    var gone, kept := OutOf(GoneOf(edges0), v), OutOf(KeptOf(edges0), v);
    assert e in gone <==> e in GoneOf(edges0);
    assert e in kept <==> e in KeptOf(edges0);
    assert !(e in gone && e in kept) && (edges0[e].deleted <==> e !in gone && e !in kept);
    assert CountOf(edges0)(e) == edges0[e].count;
    hide GoneOf, KeptOf, OutOf, SumOver, CountOf;
    OneSwept(gone, out, e, CountOf(edges0));
    OneSwept(kept, out, e, CountOf(edges0));
  }

  lemma {:induction false} SweepOne(edges0: EdgeMap, edges: EdgeMap, v: nat, out: set<Edge>, e: Edge,
                 removed: nat, alive: nat, triangles: nat)
    requires SweptAt(edges0, edges, v, out) && CountedAt(edges0, v, out, removed, alive, triangles)
    requires e in out && e in edges0 && e.lo == v
    ensures e in edges && edges[e] == edges0[e] && |out - {e}| < |out|
    ensures edges0[e].deleted ==>
      SweptAt(edges0, edges, v, out - {e}) && CountedAt(edges0, v, out - {e}, removed, alive, triangles)
    ensures !edges0[e].deleted && edges0[e].marked ==>
      SweptAt(edges0, edges[e := edges0[e].(deleted := true)], v, out - {e}) &&
      CountedAt(edges0, v, out - {e}, removed + 1, alive, triangles)
    ensures !edges0[e].deleted && !edges0[e].marked ==>
      SweptAt(edges0, edges, v, out - {e}) &&
      CountedAt(edges0, v, out - {e}, removed, alive + 1, triangles + edges0[e].count)
  {
    assert e in GoneOf(edges0) <==> !edges0[e].deleted && edges0[e].marked;
    assert e in KeptOf(edges0) <==> !edges0[e].deleted && !edges0[e].marked;
    hide SweptAt, CountedAt, GoneOf, KeptOf;
    SweepShape(edges0, edges, v, out, e);
    SweepTally(edges0, v, out, e, removed, alive, triangles);
  }

  /** The loop over the out-edges of one vertex: delete the marked ones and count those that stay. */
  method SweepEdges(edges0: EdgeMap, v: nat) returns (edges: EdgeMap, removed: nat, alive: nat, triangles: nat)
    ensures SweptAt(edges0, edges, v, {})
    ensures CountedAt(edges0, v, {}, removed, alive, triangles)
  {
    edges, removed, alive, triangles := edges0, 0, 0, 0;
    SweepNone(edges0, v);
    var out := OutOf(edges0.Keys, v);
    assert forall e | e in out :: e in edges0 && e.lo == v;
    hide *;
    while out != {}
      invariant SweptAt(edges0, edges, v, out)
      invariant CountedAt(edges0, v, out, removed, alive, triangles)
      invariant forall e | e in out :: e in edges0 && e.lo == v
    {
      var e :| e in out;
      SweepOne(edges0, edges, v, out, e, removed, alive, triangles);
      if !edges[e].deleted {
        if edges[e].marked {
          removed := removed + 1;
          edges := edges[e := edges[e].(deleted := true)];
        } else {
          alive := alive + 1;
          triangles := triangles + edges[e].count;
        }
      }
      out := out - {e};
    }
  }

  function Within(s: set<Edge>, vertices: set<nat>): set<Edge> {
    set e | e in s && e.lo in vertices
  }

  /** Vertices in swept are done: their marked edges are deleted, and one with no edge left is cleared. */
  ghost predicate Sweeping(edges0: EdgeMap, edges: EdgeMap, swept: set<nat>) {
    && (forall e | e in edges :: e in edges0 && edges[e] == if e.lo in swept then Swept(edges0[e]) else edges0[e])
    && (forall e | e in edges0 && (e.lo !in swept || e in KeptOf(edges0)) :: e in edges)
    && (forall e | e in edges && e.lo in swept :: e.lo in Sources(KeptOf(edges0)))
  }

  ghost predicate SweepCounts(edges0: EdgeMap, swept: set<nat>, removed: nat, remaining: nat, vertices: nat, triangles: nat) {
    var gone, kept := Within(GoneOf(edges0), swept), Within(KeptOf(edges0), swept);
    && removed == |gone| && remaining == |kept| && vertices == |Sources(kept)|
    && triangles == SumOver(kept, CountOf(edges0))
  }

  lemma {:induction false} SumOverUnion(s: set<Edge>, t: set<Edge>, f: Edge -> nat)
    requires s !! t
    ensures SumOver(s + t, f) == SumOver(s, f) + SumOver(t, f)
    decreases |t|
  {
    if t == {} {
      assert s + t == s;
    } else {
      hide SumOver;
      var e :| e in t;
      var rest := t - {e};
      UnionParts(s, t, e, rest);
      SumOverRemove(t, e, f);
      SumOverUnion(s, rest, f);
      SumOverAdd(s + rest, e, f);
    }
  }

  lemma {:induction false} UnionParts(s: set<Edge>, t: set<Edge>, e: Edge, rest: set<Edge>)
    requires s !! t && e in t && rest == t - {e}
    ensures s !! rest && e !in s + rest && s + rest + {e} == s + t && |rest| < |t|
  {
  }

  lemma {:induction false} WithinAdd(s: set<Edge>, swept: set<nat>, v: nat)
    requires v !in swept
    ensures Within(s, swept + {v}) == Within(s, swept) + OutOf(s, v)
    ensures Within(s, swept) !! OutOf(s, v)
    ensures |Within(s, swept + {v})| == |Within(s, swept)| + |OutOf(s, v)|
  {
    assert Within(s, swept + {v}) == Within(s, swept) + OutOf(s, v);
  }

  lemma {:induction false} SourcesAdd(s: set<Edge>, swept: set<nat>, v: nat)
    requires v !in swept
    ensures |Sources(Within(s, swept + {v}))| == |Sources(Within(s, swept))| + if OutOf(s, v) == {} then 0 else 1
  {
    var a, b := Sources(Within(s, swept)), Sources(Within(s, swept + {v}));
    if OutOf(s, v) == {} {
      WithinAdd(s, swept, v);
      assert Within(s, swept) + {} == Within(s, swept);
    } else {
      var e :| e in OutOf(s, v);
      assert e in Within(s, swept + {v});
      assert b == a + {v};
      assert v !in a;
    }
  }

  lemma {:induction false} SweepCountsStep(edges0: EdgeMap, swept: set<nat>, v: nat, removed: nat, remaining: nat, vertices: nat,
                        triangles: nat, r: nat, alive: nat, t: nat)
    requires SweepCounts(edges0, swept, removed, remaining, vertices, triangles) && v !in swept
    requires CountedAt(edges0, v, {}, r, alive, t)
    ensures SweepCounts(edges0, swept + {v}, removed + r, remaining + alive,
                        if alive == 0 then vertices else vertices + 1, triangles + t)
  {
    var gone, kept := GoneOf(edges0), KeptOf(edges0);
    assert OutOf(gone, v) - {} == OutOf(gone, v) && OutOf(kept, v) - {} == OutOf(kept, v);
    WithinAdd(gone, swept, v);
    WithinAdd(kept, swept, v);
    SourcesAdd(kept, swept, v);
    SumOverUnion(Within(kept, swept), OutOf(kept, v), CountOf(edges0));
  }

  /** edges after the loop over one vertex, and after clearing it if nothing is alive there. */
  lemma {:induction false} SweepStep(edges0: EdgeMap, swept: set<nat>, before: EdgeMap, after: EdgeMap, v: nat, alive: nat, edges: EdgeMap)
    requires Sweeping(edges0, before, swept) && v !in swept
    requires SweptAt(before, after, v, {})
    requires alive == |OutOf(KeptOf(edges0), v)|
    requires edges == if alive == 0 then after - (set e | e in after && e.lo == v) else after
    ensures Sweeping(edges0, edges, swept + {v})
  {
    forall e | e in edges && e.lo in swept + {v}
      ensures e.lo in Sources(KeptOf(edges0))
    {
      if e.lo == v {
        assert OutOf(KeptOf(edges0), v) != {};
        var x :| x in OutOf(KeptOf(edges0), v);
        assert x in KeptOf(edges0) && x.lo == v;
      }
    }
    assert forall e | e in KeptOf(edges0) && e.lo == v :: e in OutOf(KeptOf(edges0), v);
  }

  lemma {:induction false} SameAtVertex(edges0: EdgeMap, edges: EdgeMap, swept: set<nat>, v: nat, removed: nat, alive: nat, triangles: nat)
    requires Sweeping(edges0, edges, swept) && v !in swept
    requires CountedAt(edges, v, {}, removed, alive, triangles)
    ensures CountedAt(edges0, v, {}, removed, alive, triangles)
    ensures alive == |OutOf(KeptOf(edges0), v)|
  {
    var gone, kept := OutOf(GoneOf(edges0), v), OutOf(KeptOf(edges0), v);
    assert OutOf(GoneOf(edges), v) == gone && OutOf(KeptOf(edges), v) == kept;
    assert forall e | e in kept :: CountOf(edges)(e) == CountOf(edges0)(e);
    hide GoneOf, KeptOf, OutOf, Sweeping, SumOver, CountOf;
    assert gone - {} == gone && kept - {} == kept;
    SumOverSame(kept, CountOf(edges), CountOf(edges0));
  }

  lemma {:induction false} SweepBegin(edges: EdgeMap)
    ensures Sweeping(edges, edges, {}) && SweepCounts(edges, {}, 0, 0, 0, 0)
  {
    assert Within(GoneOf(edges), {}) == {} && Within(KeptOf(edges), {}) == {};
  }

  lemma {:induction false} Remove(vertices: set<nat>, todo: set<nat>, v: nat)
    requires v in todo && todo <= vertices
    ensures vertices - (todo - {v}) == (vertices - todo) + {v} && |todo - {v}| < |todo|
  {
  }

  /** One vertex of the removal loop. */
  method RemoveAt(ghost edges0: EdgeMap, ghost swept: set<nat>, edges: EdgeMap, v: nat,
                  removed: nat, remaining: nat, sources: nat, triangles: nat)
    returns (edges': EdgeMap, removed': nat, remaining': nat, sources': nat, triangles': nat)
    requires Sweeping(edges0, edges, swept) && v !in swept
    requires SweepCounts(edges0, swept, removed, remaining, sources, triangles)
    ensures Sweeping(edges0, edges', swept + {v})
    ensures SweepCounts(edges0, swept + {v}, removed', remaining', sources', triangles')
  {
    hide *;
    var after, r, alive, t := SweepEdges(edges, v);
    SameAtVertex(edges0, edges, swept, v, r, alive, t);
    SweepCountsStep(edges0, swept, v, removed, remaining, sources, triangles, r, alive, t);
    removed', remaining', triangles' := removed + r, remaining + alive, triangles + t;
    if alive == 0 {
      edges', sources' := after - (set e | e in after && e.lo == v), sources;
    } else {
      edges', sources' := after, sources + 1;
    }
    SweepStep(edges0, swept, edges, after, v, alive, edges');
  }

  /** Delete marked edges, clear exhausted vertices and count what remains. */
  method RemoveMarked(vertices: set<nat>, edges0: EdgeMap)
    returns (edges: EdgeMap, removed: nat, remaining: nat, sources: nat, triangles: nat)
    ensures Sweeping(edges0, edges, vertices)
    ensures SweepCounts(edges0, vertices, removed, remaining, sources, triangles)
  {
    hide *;
    edges, removed, remaining, sources, triangles := edges0, 0, 0, 0, 0;
    var todo := vertices;
    SweepBegin(edges0);
    assert vertices - todo == {};
    while todo != {}
      invariant todo <= vertices
      invariant Sweeping(edges0, edges, vertices - todo)
      invariant SweepCounts(edges0, vertices - todo, removed, remaining, sources, triangles)
    {
      var v :| v in todo;
      edges, removed, remaining, sources, triangles :=
        RemoveAt(edges0, vertices - todo, edges, v, removed, remaining, sources, triangles);
      Remove(vertices, todo, v);
      todo := todo - {v};
    }
    assert vertices - todo == vertices;
  }

  // One round

  lemma {:induction false} SweepResult(degree: nat -> nat, vertices: set<nat>, edges0: EdgeMap, edges: EdgeMap)
    requires Oriented(degree, edges0) && Sweeping(edges0, edges, vertices)
    requires forall e | e in edges0 :: e.lo in vertices
    ensures Live(edges) == Live(edges0) - Marked(edges0) == KeptOf(edges0)
    ensures Marked(edges) == {} && Oriented(degree, edges) && edges.Keys <= edges0.Keys
    ensures forall e | e in Live(edges) :: CountOf(edges)(e) == CountOf(edges0)(e)
    ensures Within(GoneOf(edges0), vertices) == Marked(edges0)
    ensures Within(KeptOf(edges0), vertices) == KeptOf(edges0)
  {
    forall e
      ensures e in Live(edges) <==> e in KeptOf(edges0)
      ensures e in Live(edges0) - Marked(edges0) <==> e in KeptOf(edges0)
      ensures e !in Marked(edges)
      ensures e in edges ==> e in edges0 && edges[e].targetDegree == edges0[e].targetDegree
    {
    }
  }

  /** A round that stops at exact counts again: nothing to keep was lost, and nothing weak is left if it removed nothing. */
  ghost predicate Peeled(degree: nat -> nat, k: int, live: set<Edge>, keep: set<Edge>, vertices: set<nat>,
                         edges: EdgeMap, inbound: map<Edge, nat>, removed: nat, report: Report) {
    var rest := Live(edges);
    && Settled(degree, rest, edges, inbound)
    && (forall e | e in edges :: e.lo in vertices)
    && keep <= rest <= live && removed == |live| - |rest|
    && (removed == 0 ==> rest == live && Cohesive(k, rest))
    && report == Report(k, |rest|, |Sources(rest)|, |TrianglesOf(rest)|)
  }

  lemma {:induction false} RoundSettled(degree: nat -> nat, rest: set<Edge>, edges0: EdgeMap, edges: EdgeMap, inbound: map<Edge, nat>)
    requires Live(edges) == rest && Marked(edges) == {} && Oriented(degree, edges)
    requires forall e | e in Live(edges) :: CountOf(edges)(e) == CountOf(edges0)(e)
    requires forall e | e in rest :: CountOf(edges0)(e) == Support(rest, e)
    requires Remembers(inbound, TrianglesOf(rest))
    ensures Settled(degree, rest, edges, inbound)
  {
  }

  lemma {:induction false} PruningFacts(degree: nat -> nat, k: int, live: set<Edge>, keep: set<Edge>, edges: EdgeMap)
    requires Pruning(degree, k, live, keep, edges, {})
    ensures Live(edges) == live && Oriented(degree, edges) && Upwards(degree, live) && Marked(edges) <= live
    ensures keep <= live - Marked(edges)
    ensures Marked(edges) == {} ==> Cohesive(k, live)
  {
    assert Marked(edges) <= Live(edges);
  }

  lemma {:induction false} RoundNumbers(degree: nat -> nat, live: set<Edge>, marked: set<Edge>, rest: set<Edge>, f: Edge -> nat)
    requires Upwards(degree, live) && marked <= live && rest == live - marked
    requires forall e | e in rest :: f(e) == Support(rest, e)
    ensures |marked| == |live| - |rest| && rest <= live
    ensures |marked| == 0 ==> marked == {} && rest == live
    ensures SumOver(rest, f) == 3 * |TrianglesOf(rest)|
  {
    RoundTriangles(degree, rest, f);
    assert marked + rest == live;
  }

  lemma {:induction false} SweepNumbers(edges0: EdgeMap, vertices: set<nat>, removed: nat, remaining: nat, sources: nat, triangles: nat)
    requires SweepCounts(edges0, vertices, removed, remaining, sources, triangles)
    requires Within(GoneOf(edges0), vertices) == Marked(edges0) && Within(KeptOf(edges0), vertices) == KeptOf(edges0)
    ensures removed == |Marked(edges0)| && remaining == |KeptOf(edges0)| && sources == |Sources(KeptOf(edges0))|
    ensures triangles == SumOver(KeptOf(edges0), CountOf(edges0))
  {
    hide Within, GoneOf, KeptOf, Marked, Sources, SumOver, CountOf;
  }

  lemma {:induction false} RoundResult(degree: nat -> nat, k: int, live: set<Edge>, keep: set<Edge>, vertices: set<nat>,
                    edges0: EdgeMap, edges: EdgeMap, inbound: map<Edge, nat>,
                    removed: nat, remaining: nat, sources: nat, triangles: nat)
    requires Pruning(degree, k, live, keep, edges0, {})
    requires forall e | e in live - Marked(edges0) :: CountOf(edges0)(e) == Support(live - Marked(edges0), e)
    requires Remembers(inbound, TrianglesOf(live - Marked(edges0)))
    requires forall e | e in edges0 :: e.lo in vertices
    requires Sweeping(edges0, edges, vertices)
    requires SweepCounts(edges0, vertices, removed, remaining, sources, triangles)
    ensures Peeled(degree, k, live, keep, vertices, edges, inbound, removed,
                   Report(k, remaining, sources, triangles / 3))
  {
    hide Pruning, Sweeping, Oriented, Live, Marked, CountOf, KeptOf, GoneOf, Within, SumOver, TrianglesOf, Through,
      Remembers, Support, Upwards, Sources, Settled, Cohesive, SweepCounts;
    var marked := Marked(edges0);
    PruningFacts(degree, k, live, keep, edges0);
    SweepResult(degree, vertices, edges0, edges);
    SweepNumbers(edges0, vertices, removed, remaining, sources, triangles);
    var rest := Live(edges);
    RoundSettled(degree, rest, edges0, edges, inbound);
    RoundNumbers(degree, live, marked, rest, CountOf(edges0));
  }

  lemma {:induction false} RoundTriangles(degree: nat -> nat, rest: set<Edge>, f: Edge -> nat)
    requires Upwards(degree, rest)
    requires forall e | e in rest :: f(e) == Support(rest, e)
    ensures SumOver(rest, f) == 3 * |TrianglesOf(rest)|
  {
    ThreeSides(degree, rest, TrianglesOf(rest));
    SumOverSame(rest, f, Tally(TrianglesOf(rest)));
  }

  method Round(ghost degree: nat -> nat, k: int, ghost live: set<Edge>, ghost keep: set<Edge>, vertices: set<nat>,
               edges0: EdgeMap, inbound0: map<Edge, nat>)
    returns (edges: EdgeMap, inbound: map<Edge, nat>, removed: nat, report: Report)
    requires Settled(degree, live, edges0, inbound0) && keep <= live && Cohesive(k, keep)
    requires forall e | e in edges0 :: e.lo in vertices
    ensures Peeled(degree, k, live, keep, vertices, edges, inbound, removed, report)
  {
    hide *;
    var edges1;
    edges1, inbound := WedgePass(degree, k, live, keep, vertices, edges0, inbound0);
    var edges2 := UnrollPass(degree, k, live, keep, vertices, edges1, inbound);
    var remaining, sources, triangles;
    edges, removed, remaining, sources, triangles := RemoveMarked(vertices, edges2);
    report := Report(k, remaining, sources, triangles / 3);
    RoundResult(degree, k, live, keep, vertices, edges2, edges, inbound, removed, remaining, sources, triangles);
  }

  /**
   Rounds until nothing is removed. What is left is the largest set of edges of which each lies
   on k - 2 triangles of the set, with exact counts, ready for the next k.
   */
  method DecomposeTruss(ghost degree: nat -> nat, k: int, ghost live: set<Edge>, vertices: set<nat>,
                        edges0: EdgeMap, inbound0: map<Edge, nat>)
    returns (edges: EdgeMap, inbound: map<Edge, nat>, report: Report)
    requires k >= 2 && Settled(degree, live, edges0, inbound0)
    requires forall e | e in edges0 :: e.lo in vertices
    ensures Live(edges) == Truss(k, live) && Settled(degree, Truss(k, live), edges, inbound)
    ensures forall e | e in edges :: e.lo in vertices
    ensures report == ReportOf(k, live)
  {
    edges, inbound, report := edges0, inbound0, Report(k, 0, 0, 0);
    var removed := 1;
    ghost var keep, rest := Truss(k, live), live;
    TrussCohesive(k, live);
    while removed > 0
      invariant Settled(degree, rest, edges, inbound)
      invariant forall e | e in edges :: e.lo in vertices
      invariant keep <= rest <= live
      invariant removed == 0 ==>
        Cohesive(k, rest) && report == Report(k, |rest|, |Sources(rest)|, |TrianglesOf(rest)|)
      decreases |rest|, removed
    {
      edges, inbound, removed, report := Round(degree, k, rest, keep, vertices, edges, inbound);
      hide Settled, Cohesive, Sources, TrianglesOf, Truss;
      rest := Live(edges);
    }
    TrussUnique(k, live, rest);
  }

  lemma {:induction false} ReportSame(k: int, live: set<Edge>, all: set<Edge>)
    requires Truss(k, live) == Truss(k, all)
    ensures ReportOf(k, live) == ReportOf(k, all) && ReportOf(k, live).edges == |Truss(k, all)|
  {
  }

  // All trusses of a graph

  ghost function AllDirected(adj: Adjacency): (live: set<Edge>)
    ensures forall e :: e in live <==> IsDirected(adj, true, e)
  {
    var live := set u, v | u in Indices(|adj|) && v in Indices(|adj|) && IsDirected(adj, true, Edge(u, v))
                  :: Edge(u, v);
    assert forall e: Edge | IsDirected(adj, true, e) :: e == Edge(e.lo, e.hi);
    live
  }

  /** Cohesion said of the undirected subgraph: the ends of every edge have k - 2 common neighbours in it. */
  lemma {:induction false} CohesiveMeans(adj: Adjacency, k: int, s: set<Edge>)
    requires Undirected(adj) && s <= AllDirected(adj)
    ensures Cohesive(k, s) <==> forall e | e in s :: |CommonIn(adj, s, e.lo, e.hi)| >= k - 2
  {
    hide CommonIn, Support, Undirected;
    assert forall e | e in s :: IsDirected(adj, true, e);
    forall e | e in s
      ensures Support(s, e) == |CommonIn(adj, s, e.lo, e.hi)|
    {
      SupportWithin(adj, true, s, e);
    }
  }

  /** The k-truss of an undirected graph: the largest set of its edges in which both ends of each have k - 2 common neighbours. */
  ghost predicate IsTruss(adj: Adjacency, k: int, s: set<Edge>) {
    && WithCommon(adj, k, s)
    && forall t: set<Edge> | WithCommon(adj, k, t) :: t <= s
  }

  ghost predicate WithCommon(adj: Adjacency, k: int, s: set<Edge>) {
    && (forall e | e in s :: Kept(adj, true, e.lo, e.hi))
    && forall e | e in s :: |CommonIn(adj, s, e.lo, e.hi)| >= k - 2
  }

  lemma {:induction false} CohesiveIsCommon(adj: Adjacency, k: int, s: set<Edge>)
    requires Undirected(adj)
    ensures WithCommon(adj, k, s) <==> s <= AllDirected(adj) && Cohesive(k, s)
  {
    hide CommonIn, Support, Undirected, Kept, IsDirected;
    KeptIsDirected(adj, true);
    if s <= AllDirected(adj) {
      CohesiveMeans(adj, k, s);
    }
  }

  /** Every graph has one k-truss, and it is what the report is about. */
  lemma {:induction false} TrussOfGraph(adj: Adjacency, k: int)
    requires Undirected(adj)
    ensures forall s :: IsTruss(adj, k, s) <==> s == Truss(k, AllDirected(adj))
  {
    hide WithCommon, Cohesive, Undirected;
    var all := AllDirected(adj);
    TrussCohesive(k, all);
    CohesiveIsCommon(adj, k, Truss(k, all));
    forall s: set<Edge> | WithCommon(adj, k, s)
      ensures s <= Truss(k, all)
    {
      CohesiveIsCommon(adj, k, s);
      TrussLargest(k, all, s);
    }
  }

  lemma {:induction false} ExactSettles(degree: nat -> nat, live: set<Edge>, edges: EdgeMap, inbound: map<Edge, nat>)
    requires Exact(live, edges, inbound) && Oriented(degree, edges) && Marked(edges) == {}
    ensures Settled(degree, live, edges, inbound)
  {
  }

  /** An edge of a k-truss lies on k - 2 triangles, so k is bounded. */
  lemma {:induction false} TrussBound(k: int, all: set<Edge>)
    requires |Truss(k, all)| > 0
    ensures k - 2 <= |TrianglesOf(all)|
  {
    var e :| e in Truss(k, all);
    TrussCohesive(k, all);
    SupportMonotone(Truss(k, all), all, e);
    SubsetSize(Through(TrianglesOf(all), e), TrianglesOf(all));
  }

  method StartTruss(g: Shares, adj: Adjacency, vertices: set<nat>) returns (edges: EdgeMap, inbound: map<Edge, nat>)
    requires g.Valid() && adj == g.Adj() && Undirected(adj) && vertices == Indices(|adj|)
    ensures Settled(Degree(adj), AllDirected(adj), edges, inbound)
    ensures forall e | e in edges :: e.lo in vertices
  {
    hide *;
    var edges0 := ConstructDirected(g, true);
    var found;
    DirectedLive(adj, edges0);
    edges, inbound, found := CountAllTriangles(Degree(adj), vertices, edges0);
    SameShapeKeys(edges0, edges);
    ExactSettles(Degree(adj), AllDirected(adj), edges, inbound);
  }

  lemma {:induction false} DirectedLive(adj: Adjacency, edges: EdgeMap)
    requires Stored(adj, true, edges) && forall e :: e in edges <==> IsDirected(adj, true, e)
    ensures Live(edges) == AllDirected(adj) && forall e | e in edges :: e.lo in Indices(|adj|)
  {
    assert Live(edges) == edges.Keys;
  }

  lemma {:induction false} SameShapeKeys(edges0: EdgeMap, edges: EdgeMap)
    requires SameShape(Reset(edges0), edges)
    ensures edges.Keys == edges0.Keys
  {
  }

  lemma {:induction false} ReportIsOfTruss(adj: Adjacency, k: int)
    requires Undirected(adj)
    ensures forall s | IsTruss(adj, k, s) ::
      ReportOf(k, AllDirected(adj)) == Report(k, |s|, |set e: Edge | e in s :: e.lo|, |TrianglesOf(s)|)
  {
    hide IsTruss;
    TrussOfGraph(adj, k);
  }

  /**
   The driver: one report for each k from 3 on, each computed from what the previous left, until
   no edge remains; each report describes the k-truss of the whole graph.
   */
  method KTrussUnroll(g: Shares) returns (reports: seq<Report>)
    requires g.Valid() && g.delegates == {} && Undirected(g.Adj())
    ensures forall i | 0 <= i < |reports| :: reports[i] == ReportOf(i + 3, AllDirected(g.Adj()))
    ensures forall i, s | 0 <= i < |reports| && IsTruss(g.Adj(), i + 3, s) ::
              reports[i] == Report(i + 3, |s|, |set e: Edge | e in s :: e.lo|, |TrianglesOf(s)|)
    ensures |reports| > 0 && forall i | 0 <= i < |reports| :: reports[i].edges == 0 <==> i == |reports| - 1
  {
    hide *;
    var adj := g.Adj();
    var vertices := Indices(|adj|);
    ghost var degree, all := Degree(adj), AllDirected(adj);
    var edges, inbound := StartTruss(g, adj, vertices);
    var k := 3;
    reports := [];
    var remaining: nat := 1;
    ghost var live := all;
    while remaining > 0
      invariant k == |reports| + 3
      invariant Settled(degree, live, edges, inbound)
      invariant forall e | e in edges :: e.lo in vertices
      invariant Truss(k, live) == Truss(k, all)
      invariant forall i | 0 <= i < |reports| :: reports[i] == ReportOf(i + 3, all)
      invariant forall i | 0 <= i < |reports| :: reports[i].edges == 0 <==> i == |reports| - 1 && remaining == 0
      invariant remaining == 0 ==> |reports| > 0
      invariant remaining > 0 && k > 3 ==> k - 3 <= |TrianglesOf(all)|
      decreases |TrianglesOf(all)| + 4 - k, remaining
    {
      var report;
      edges, inbound, report := DecomposeTruss(degree, k, live, vertices, edges, inbound);
      ReportSame(k, live, all);
      live := Truss(k, live);
      reports := reports + [report];
      remaining := report.edges;
      if remaining > 0 {
        TrussBound(k, all);
      }
      TrussChain(k, all);
      k := k + 1;
    }
    forall i | 0 <= i < |reports|
      ensures forall s | IsTruss(adj, i + 3, s) ::
        reports[i] == Report(i + 3, |s|, |set e: Edge | e in s :: e.lo|, |TrianglesOf(s)|)
    {
      ReportIsOfTruss(adj, i + 3);
    }
  }
}
