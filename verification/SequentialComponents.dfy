/**
 Connected components by depth-first search with an explicit stack, the sequential program the
 distributed algorithm is compared with. Vertices are taken as roots in increasing order.
 */
module SequentialComponents {
  type Adjacency = map<nat, seq<nat>>

  /** Every edge is listed at both of its ends. */
  ghost predicate Undirected(graph: Adjacency) {
    forall u: nat, v: nat | Adjacent(graph, u, v) :: Adjacent(graph, v, u)
  }

  ghost predicate Adjacent(graph: Adjacency, u: nat, v: nat) { u in graph && v in graph[u] }

  /** p leads from u to v. */
  ghost predicate Chain(graph: Adjacency, u: nat, p: seq<nat>, v: nat)
    decreases |p|
  {
    if p == [] then u == v
    else Adjacent(graph, p[|p| - 1], v) && Chain(graph, u, p[..|p| - 1], p[|p| - 1])
  }

  ghost predicate Connected(graph: Adjacency, u: nat, v: nat) { exists p: seq<nat> :: Chain(graph, u, p, v) }

  /** l is the smallest vertex of the component of v. */
  ghost predicate IsLabel(graph: Adjacency, v: nat, l: nat) {
    Connected(graph, l, v) && forall u: nat | Connected(graph, u, v) :: l <= u
  }

  lemma {:induction false} Reflexive(graph: Adjacency, v: nat)
    ensures Connected(graph, v, v)
  {
    assert Chain(graph, v, [], v);
  }

  lemma {:induction false} Extend(graph: Adjacency, u: nat, v: nat, w: nat)
    requires Connected(graph, u, v) && Adjacent(graph, v, w)
    ensures Connected(graph, u, w)
  {
    var p: seq<nat> :| Chain(graph, u, p, v);
    assert (p + [v])[..|p|] == p;
    assert Chain(graph, u, p + [v], w);
  }

  // Reading the edges

  /** u and v are the ends of one of the edges. */
  ghost predicate Listed(edges: seq<(nat, nat)>, u: nat, v: nat) { (u, v) in edges || (v, u) in edges }

  ghost predicate Ingested(graph: Adjacency, edges: seq<(nat, nat)>) {
    && (forall u: nat, v: nat :: Adjacent(graph, u, v) <==> Listed(edges, u, v))
    && (forall u: nat | u in graph :: graph[u] != [])
  }

  function Appended(graph: Adjacency, u: nat, v: nat): Adjacency {
    graph[u := (if u in graph then graph[u] else []) + [v]]
  }

  lemma {:induction false} AppendedAdjacent(graph: Adjacency, u: nat, v: nat, a: nat, b: nat)
    ensures Adjacent(Appended(graph, u, v), a, b) <==> Adjacent(graph, a, b) || (a == u && b == v)
  {
  }

  method IngestEdges(edges: seq<(nat, nat)>) returns (graph: Adjacency)
    ensures Ingested(graph, edges) && Undirected(graph)
    ensures graph == map[] ==> edges == []
  {
    hide Adjacent;
    graph := map[];
    EmptyIngested();
    var i := 0;
    while i < |edges|
      invariant 0 <= i <= |edges| && Ingested(graph, edges[..i])
      invariant i > 0 ==> graph != map[]
    {
      var (src, dst) := edges[i];
      ghost var before := graph;
      graph := Appended(graph, src, dst);
      ghost var between := graph;
      graph := Appended(graph, dst, src);
      assert edges[..i + 1] == edges[..i] + [edges[i]];
      forall u: nat, v: nat
        ensures Adjacent(graph, u, v) <==> Listed(edges[..i + 1], u, v)
      {
        AppendedAdjacent(before, src, dst, u, v);
        AppendedAdjacent(between, dst, src, u, v);
      }
      assert dst in graph;
      i := i + 1;
    }
    assert edges[..|edges|] == edges;
  }

  lemma {:induction false} EmptyIngested()
    ensures Ingested(map[], [])
  {
  }

  // The search

  /** The neighbours of v have the label of v. */
  ghost predicate Complete(graph: Adjacency, cc: map<nat, nat>, v: nat)
    requires v in cc
  {
    forall d: nat | Adjacent(graph, v, d) :: d in cc && cc[d] == cc[v]
  }

  /** Labels come from vertices that can reach, and are no larger than what they label. */
  ghost predicate Sound(graph: Adjacency, cc: map<nat, nat>) {
    && cc.Keys <= graph.Keys
    && forall v: nat | v in cc :: Connected(graph, cc[v], v) && cc[v] <= v
  }

  ghost predicate AllComplete(graph: Adjacency, cc: map<nat, nat>) {
    forall v: nat | v in cc :: Complete(graph, cc, v)
  }

  /** During the search from root: other components are complete, and so is what has left the stack. */
  ghost predicate Searching(graph: Adjacency, cc: map<nat, nat>, root: nat, st: seq<nat>) {
    && (forall v: nat | v in st :: v in cc && cc[v] == root)
    && (forall v: nat | v in cc && cc[v] != root :: Complete(graph, cc, v))
    && (forall v: nat | v in cc && cc[v] == root :: v in st || forall d: nat | Adjacent(graph, v, d) :: d in cc)
  }

  /** Every vertex not labelled yet is at least root. */
  ghost predicate Above(graph: Adjacency, cc: map<nat, nat>, root: nat) {
    forall v: nat | v in graph && v !in cc :: root <= v
  }

  lemma {:induction false} SearchEnds(graph: Adjacency, cc: map<nat, nat>, root: nat)
    requires Undirected(graph) && Searching(graph, cc, root, [])
    ensures AllComplete(graph, cc)
  {
    forall v: nat | v in cc
      ensures Complete(graph, cc, v)
    {
      if cc[v] == root {
        forall d: nat | Adjacent(graph, v, d)
          ensures d in cc && cc[d] == cc[v]
        {
          assert Adjacent(graph, d, v);
        }
      }
    }
  }

  /** In a complete labelling, connected vertices have the same label. */
  lemma {:induction false} SameLabel(graph: Adjacency, cc: map<nat, nat>, u: nat, p: seq<nat>, v: nat)
    requires AllComplete(graph, cc) && u in cc && Chain(graph, u, p, v)
    ensures v in cc && cc[v] == cc[u]
    decreases |p|
  {
    if p != [] {
      SameLabel(graph, cc, u, p[..|p| - 1], p[|p| - 1]);
      assert Complete(graph, cc, p[|p| - 1]);
    }
  }

  lemma {:induction false} LabelsExact(graph: Adjacency, cc: map<nat, nat>, v: nat)
    requires Undirected(graph) && AllComplete(graph, cc) && Sound(graph, cc) && cc.Keys == graph.Keys && v in graph
    ensures IsLabel(graph, v, cc[v])
  {
    forall u: nat | Connected(graph, u, v)
      ensures cc[v] <= u
    {
      var p: seq<nat> :| Chain(graph, u, p, v);
      StartInGraph(graph, u, p, v);
      SameLabel(graph, cc, u, p, v);
    }
  }

  lemma {:induction false} StartInGraph(graph: Adjacency, u: nat, p: seq<nat>, v: nat)
    requires Chain(graph, u, p, v) && v in graph
    ensures u in graph
    decreases |p|
  {
    if p != [] {
      StartInGraph(graph, u, p[..|p| - 1], p[|p| - 1]);
    }
  }

  /** Push the neighbours of src that have no label. */
  method PushNeighbours(graph: Adjacency, cc0: map<nat, nat>, root: nat, src: nat, st0: seq<nat>)
    returns (cc: map<nat, nat>, st: seq<nat>)
    requires Undirected(graph) && src in cc0 && src in graph && cc0[src] == root
    requires Sound(graph, cc0) && Above(graph, cc0, root) && Searching(graph, cc0, root, st0 + [src])
    ensures Sound(graph, cc) && Above(graph, cc, root) && Searching(graph, cc, root, st)
    ensures cc0.Keys <= cc.Keys && (cc.Keys == cc0.Keys ==> st == st0)
  {
    hide *;
    cc, st := cc0, st0;
    var j := 0;
    while j < |graph[src]|
      invariant 0 <= j <= |graph[src]| && cc0.Keys <= cc.Keys && (cc.Keys == cc0.Keys ==> st == st0)
      invariant src in cc && cc[src] == root
      invariant Sound(graph, cc) && Above(graph, cc, root) && Searching(graph, cc, root, st + [src])
      invariant forall k | 0 <= k < j :: graph[src][k] in cc
    {
      var dst := graph[src][j];
      if dst !in cc {
        AdjacentAt(graph, src, j);
        PushKeeps(graph, cc, root, src, st, dst);
        st := st + [dst];
        cc := cc[dst := root];
      }
      j := j + 1;
    }
    PopKeeps(graph, cc, root, src, st);
  }

  lemma {:induction false} AdjacentAt(graph: Adjacency, u: nat, j: nat)
    requires u in graph && j < |graph[u]|
    ensures Adjacent(graph, u, graph[u][j])
  {
  }

  lemma {:induction false} PushKeeps(graph: Adjacency, cc: map<nat, nat>, root: nat, src: nat, st: seq<nat>, dst: nat)
    requires Undirected(graph) && Adjacent(graph, src, dst) && dst !in cc && src in cc && cc[src] == root
    requires Sound(graph, cc) && Above(graph, cc, root) && Searching(graph, cc, root, st + [src])
    ensures Sound(graph, cc[dst := root]) && Above(graph, cc[dst := root], root)
    ensures Searching(graph, cc[dst := root], root, st + [dst] + [src])
  {
    hide Connected, Adjacent;
    var cc' := cc[dst := root];
    Extend(graph, root, src, dst);
    AdjacentInGraph(graph, src, dst);
    forall v: nat | v in cc' && cc'[v] != root
      ensures Complete(graph, cc', v)
    {
      assert Complete(graph, cc, v);
    }
  }

  lemma {:induction false} AdjacentInGraph(graph: Adjacency, u: nat, v: nat)
    requires Undirected(graph) && Adjacent(graph, u, v)
    ensures v in graph
  {
    assert Adjacent(graph, v, u);
  }

  lemma {:induction false} PopKeeps(graph: Adjacency, cc: map<nat, nat>, root: nat, src: nat, st: seq<nat>)
    requires src in graph && (forall k | 0 <= k < |graph[src]| :: graph[src][k] in cc)
    requires Searching(graph, cc, root, st + [src])
    ensures Searching(graph, cc, root, st)
  {
    hide Complete;
  }

  method Search(graph: Adjacency, cc0: map<nat, nat>, root: nat) returns (cc: map<nat, nat>)
    requires Undirected(graph) && root in graph && root !in cc0
    requires Sound(graph, cc0) && AllComplete(graph, cc0) && Above(graph, cc0, root)
    ensures Sound(graph, cc) && AllComplete(graph, cc) && Above(graph, cc, root)
    ensures cc0.Keys <= cc.Keys && root in cc
  {
    hide *;
    var st := [root];
    cc := cc0[root := root];
    RootKeeps(graph, cc0, root);
    while st != []
      invariant Sound(graph, cc) && Above(graph, cc, root) && Searching(graph, cc, root, st)
      invariant cc0.Keys <= cc.Keys <= graph.Keys && root in cc
      decreases graph.Keys - cc.Keys, |st|
    {
      var src := st[|st| - 1];
      TopOf(graph, cc, root, st);
      ghost var keys := cc.Keys;
      cc, st := PushNeighbours(graph, cc, root, src, st[..|st| - 1]);
      KeysOf(graph, cc);
      assert cc.Keys != keys ==> graph.Keys - cc.Keys < graph.Keys - keys;
    }
    SearchEnds(graph, cc, root);
  }

  lemma {:induction false} RootKeeps(graph: Adjacency, cc: map<nat, nat>, root: nat)
    requires Undirected(graph) && root in graph && root !in cc
    requires Sound(graph, cc) && AllComplete(graph, cc) && Above(graph, cc, root)
    ensures Sound(graph, cc[root := root]) && Above(graph, cc[root := root], root)
    ensures Searching(graph, cc[root := root], root, [root]) && cc.Keys <= cc[root := root].Keys <= graph.Keys
  {
    hide Adjacent, Connected;
    Reflexive(graph, root);
    var cc' := cc[root := root];
    forall v: nat | v in cc
      ensures cc[v] != root && Complete(graph, cc', v)
    {
      assert Complete(graph, cc, v);
      if cc[v] == root {
        RootIsNew(graph, cc, root, v);
      }
    }
  }

  /** No label so far is the new root: its search would have labelled the root. */
  lemma {:induction false} RootIsNew(graph: Adjacency, cc: map<nat, nat>, root: nat, v: nat)
    requires Undirected(graph) && Sound(graph, cc) && AllComplete(graph, cc) && v in cc && cc[v] == root
    ensures root in cc
  {
    var p: seq<nat> :| Chain(graph, root, p, v);
    Backwards(graph, cc, root, p, v);
  }

  lemma {:induction false} Backwards(graph: Adjacency, cc: map<nat, nat>, u: nat, p: seq<nat>, v: nat)
    requires Undirected(graph) && AllComplete(graph, cc) && v in cc && Chain(graph, u, p, v)
    ensures u in cc
    decreases |p|
  {
    if p != [] {
      var w := p[|p| - 1];
      assert Adjacent(graph, v, w) && Complete(graph, cc, v);
      Backwards(graph, cc, u, p[..|p| - 1], w);
    }
  }

  lemma {:induction false} TopOf(graph: Adjacency, cc: map<nat, nat>, root: nat, st: seq<nat>)
    requires Searching(graph, cc, root, st) && Sound(graph, cc) && st != []
    ensures st[..|st| - 1] + [st[|st| - 1]] == st
    ensures st[|st| - 1] in cc && st[|st| - 1] in graph && cc[st[|st| - 1]] == root
  {
    hide Complete, Connected;
  }

  lemma {:induction false} KeysOf(graph: Adjacency, cc: map<nat, nat>)
    requires Sound(graph, cc)
    ensures cc.Keys <= graph.Keys
  {
    hide Connected;
  }

  lemma {:induction false} SmallestOf(s: set<nat>) returns (m: nat)
    requires s != {}
    ensures m in s && forall x | x in s :: m <= x
    decreases s
  {
    m :| m in s;
    if exists x :: x in s && x < m {
      var rest := set x | x in s && x < m;
      var x :| x in s && x < m;
      assert x in rest && m !in rest;
      m := SmallestOf(rest);
      forall x | x in s
        ensures m <= x
      {
        assert x in rest || x >= m;
      }
    }
  }

  /** Every vertex with the smallest vertex of its component. */
  method Label(graph: Adjacency) returns (cc: map<nat, nat>)
    requires Undirected(graph)
    ensures cc.Keys == graph.Keys
    ensures forall v | v in graph :: IsLabel(graph, v, cc[v])
  {
    hide Connected, Adjacent, IsLabel, Complete, Undirected;
    cc := map[];
    var rest := graph.Keys;
    while rest != {}
      invariant rest <= graph.Keys && Sound(graph, cc) && AllComplete(graph, cc)
      invariant forall v | v in graph && v !in rest :: v in cc
      decreases rest
    {
      ghost var smallest := SmallestOf(rest);
      var root: nat :| root in rest && forall x | x in rest :: root <= x;
      if root !in cc {
        cc := Search(graph, cc, root);
      }
      rest := rest - {root};
    }
    forall v | v in graph
      ensures IsLabel(graph, v, cc[v])
    {
      LabelsExact(graph, cc, v);
    }
  }

  /** What is written for a vertex: its label, or the vertex itself when no edge mentions it. */
  function Written(cc: map<nat, nat>, v: nat): nat { if v in cc then cc[v] else v }

  lemma {:induction false} IsolatedLabel(graph: Adjacency, v: nat)
    requires Undirected(graph) && v !in graph
    ensures IsLabel(graph, v, v)
  {
    Reflexive(graph, v);
    forall u: nat | Connected(graph, u, v)
      ensures v <= u
    {
      var p: seq<nat> :| Chain(graph, u, p, v);
      assert forall x: nat :: !Adjacent(graph, x, v);
    }
  }

  /** The whole program: a line for every vertex up to the largest one. */
  method Components(edges: seq<(nat, nat)>) returns (graph: Adjacency, labels: seq<nat>)
    requires edges != []
    ensures Ingested(graph, edges) && Undirected(graph)
    ensures forall v | v in graph :: v < |labels|
    ensures forall v | 0 <= v < |labels| :: IsLabel(graph, v, labels[v])
  {
    hide IsLabel, Connected, Adjacent, Undirected;
    graph := IngestEdges(edges);
    var cc := Label(graph);
    assert cc.Keys != {};
    ghost var largest := LargestOf(cc.Keys);
    var maxVid: nat :| maxVid in cc && forall v | v in cc :: v <= maxVid;
    labels := [];
    for vid := 0 to maxVid + 1
      invariant |labels| == vid && forall v | 0 <= v < vid :: labels[v] == Written(cc, v)
    {
      labels := labels + [if vid !in cc then vid else cc[vid]];
    }
    forall v | 0 <= v < |labels|
      ensures IsLabel(graph, v, labels[v])
    {
      if v !in graph {
        IsolatedLabel(graph, v);
      }
    }
  }

  lemma {:induction false} LargestOf(s: set<nat>) returns (m: nat)
    requires s != {}
    ensures m in s && forall x | x in s :: x <= m
    decreases s
  {
    m :| m in s;
    if exists x :: x in s && x > m {
      var rest := set x | x in s && x > m;
      var x :| x in s && x > m;
      assert x in rest && m !in rest;
      m := LargestOf(rest);
      forall x | x in s
        ensures x <= m
      {
        assert x in rest || x <= m;
      }
    }
  }
}
