/**
 Triangle counting. Edges are first oriented towards the vertex with the larger (degree,
 locator); then every vertex asks, for each pair of its out-edges, whether the pair is
 closed, and a closed pair is acknowledged back so that all three edges count it. Handlers
 are functions on the state of the pass; the traversals are loops that perform any enabled
 step, so they cover every order of initialisation and delivery.
 */
module TriangleCount {
  import opened Collections
  import opened Triangles

  // The directed graph

  type Adjacency = seq<seq<nat>>

  ghost predicate Undirected(adj: Adjacency) {
    && (forall v, k | 0 <= v < |adj| && 0 <= k < |adj[v]| :: adj[v][k] < |adj|)
    && (forall u, v | 0 <= u < |adj| && 0 <= v < |adj| && u in adj[v] :: v in adj[u])
  }

  function Degree(adj: Adjacency): nat -> nat {
    (v: nat) => if v < |adj| then |adj[v]| else 0
  }

  /** The variant used by truss decomposition (core) also asks two edges of the lower end. */
  predicate IsDirected(adj: Adjacency, core: bool, e: Edge) {
    var deg := Degree(adj);
    && e.lo < |adj| && e.hi < |adj| && e.lo != e.hi && e.hi in adj[e.lo]
    && OrderGt(deg(e.hi), deg(e.lo), e.hi, e.lo)
    && deg(e.hi) >= 2 && (core ==> deg(e.lo) >= 2)
  }

  /** u has fewer neighbours than v, or as many and the smaller locator. */
  ghost predicate Below(adj: Adjacency, u: nat, v: nat)
    requires u < |adj| && v < |adj|
  {
    |adj[u]| < |adj[v]| || (|adj[u]| == |adj[v]| && u < v)
  }

  /** The edges to be kept, told on the adjacency lists alone. */
  ghost predicate Kept(adj: Adjacency, core: bool, u: nat, v: nat) {
    && u < |adj| && v < |adj| && u != v && v in adj[u] && Below(adj, u, v)
    && |adj[v]| >= 2 && (core ==> |adj[u]| >= 2)
  }

  lemma {:induction false} KeptIsDirected(adj: Adjacency, core: bool)
    ensures forall e :: IsDirected(adj, core, e) <==> Kept(adj, core, e.lo, e.hi)
  {
  }

  /** The neighbours of every vertex as the ranks hold them; only a delegate's are split. */
  datatype Shares = Shares(master: seq<nat>, delegates: set<nat>, share: seq<seq<seq<nat>>>) {
    ghost predicate Valid() {
      && (forall r | 0 <= r < |share| :: |share[r]| == |master|)
      && (forall v | 0 <= v < |master| :: master[v] < |share|)
      && (forall r, v | 0 <= r < |share| && 0 <= v < |master| && v !in delegates && r != master[v] :: share[r][v] == [])
    }

    function Home(v: nat): nat { if v < |master| then master[v] else 0 }

    /** The rank holds a copy of v whose master is elsewhere. */
    predicate IsCopy(r: nat, v: nat) { v in delegates && Home(v) != r }

    function Gathered(v: nat, n: nat): seq<nat>
      requires Valid() && v < |master| && n <= |share|
    {
      if n == 0 then [] else Gathered(v, n - 1) + share[n - 1][v]
    }

    function Adj(): (adj: Adjacency)
      requires Valid()
      ensures |adj| == |master| && forall v | 0 <= v < |adj| :: adj[v] == Gathered(v, |share|)
    {
      seq(|master|, v requires 0 <= v < |master| => Gathered(v, |share|))
    }
  }

  lemma {:induction false} GatheredFrom(g: Shares, v: nat, n: nat, w: nat)
    requires g.Valid() && v < |g.master| && n <= |g.share|
    ensures w in g.Gathered(v, n) <==> exists r: nat | r < n :: w in g.share[r][v]
  {
    if n > 0 {
      GatheredFrom(g, v, n - 1, w);
      if r: nat :| r < n && w in g.share[r][v] {
        assert r < n - 1 || w in g.share[n - 1][v];
      }
    }
  }

  datatype Hello = Hello(vertex: nat, from: nat)

  /** A message that some neighbour `from` of degree two or more sends. */
  predicate Greets(adj: Adjacency, h: Hello) {
    && h.from < |adj| && h.vertex < |adj| && h.vertex in adj[h.from] && h.vertex != h.from
    && |adj[h.from]| >= 2
  }

  /** What every rank tests, whether it holds the vertex itself or a copy of it. */
  predicate Passes(adj: Adjacency, h: Hello) {
    Degree(adj)(h.from) >= Degree(adj)(h.vertex)
  }

  /** Whether the handler of a neighbour's degree stores the edge to that neighbour. */
  predicate Stores(adj: Adjacency, core: bool, h: Hello) {
    var fromDegree, degree := Degree(adj)(h.from), Degree(adj)(h.vertex);
    if !Passes(adj, h) then false
    else if core && degree < 2 then false
    else OrderGt(fromDegree, degree, h.from, h.vertex)
  }

  /** What rank r sends along its share of v's edges: a copy drops what does not pass and forwards the rest. */
  predicate SentBy(g: Shares, r: nat, v: nat, h: Hello)
    requires g.Valid() && r < |g.share| && v < |g.master|
  {
    && h.from == v && h.vertex != v && h.vertex in g.share[r][v] && |g.Adj()[v]| >= 2
    && (h.vertex in g.delegates && h.vertex < |g.master| && g.master[h.vertex] != r ==> |g.Adj()[v]| >= |g.Adj()[h.vertex]|)
  }

  method SendDegrees(g: Shares, adj: Adjacency, r: nat, v: nat, hellos: multiset<Hello>) returns (sent: multiset<Hello>)
    requires g.Valid() && adj == g.Adj() && r < |g.share| && v < |adj|
    ensures forall h :: h in sent <==> h in hellos || SentBy(g, r, v, h)
  {
    sent := hellos;
    if |adj[v]| >= 2 {
      var local := g.share[r][v];
      for k := 0 to |local|
        invariant forall h :: h in sent <==> h in hellos || (SentBy(g, r, v, h) && h.vertex in local[..k])
      {
        assert local[..k + 1] == local[..k] + [local[k]];
        var h := Hello(local[k], v);
        if local[k] != v {
          if !g.IsCopy(r, local[k]) || Passes(adj, h) {
            sent := sent + multiset{h};
          }
        }
      }
      assert local[..|local|] == local;
    }
  }

  lemma {:induction false} StoresDirected(adj: Adjacency, core: bool, h: Hello)
    requires Undirected(adj) && Greets(adj, h)
    ensures Stores(adj, core, h) <==> IsDirected(adj, core, Edge(h.vertex, h.from))
  {
  }

  lemma {:induction false} DirectedGreets(adj: Adjacency, core: bool, e: Edge)
    requires Undirected(adj) && IsDirected(adj, core, e)
    ensures Greets(adj, Hello(e.lo, e.hi)) && e.lo in adj[e.hi]
  {
  }

  ghost predicate Stored(adj: Adjacency, core: bool, edges: EdgeMap) {
    forall e | e in edges ::
      IsDirected(adj, core, e) && edges[e] == EdgeData(Degree(adj)(e.hi), 0, false, false)
  }

  /** A rank has yet to greet for e along its share of a delegate's edges. */
  ghost predicate Announced(g: Shares, bcasts: set<(nat, nat)>, e: Edge) {
    exists r: nat :: (r, e.hi) in bcasts && r < |g.share| && e.hi < |g.share[r]| && e.lo in g.share[r][e.hi]
  }

  ghost predicate Awaits(g: Shares, edges: EdgeMap, todo: set<nat>, bcasts: set<(nat, nat)>, hellos: multiset<Hello>, e: Edge) {
    e.hi in todo || Announced(g, bcasts, e) || Hello(e.lo, e.hi) in hellos || e in edges
  }

  ghost predicate Awaited(g: Shares, core: bool, edges: EdgeMap, todo: set<nat>, bcasts: set<(nat, nat)>, hellos: multiset<Hello>)
    requires g.Valid()
  {
    forall e | IsDirected(g.Adj(), core, e) :: Awaits(g, edges, todo, bcasts, hellos, e)
  }

  /** The copies of v that its broadcast reaches. */
  function Copies(g: Shares, v: nat, n: nat): (cs: set<(nat, nat)>)
    ensures forall c :: c in cs <==> c.1 == v && c.0 < n && g.IsCopy(c.0, v)
  {
    if n == 0 then {} else Copies(g, v, n - 1) + if g.IsCopy(n - 1, v) then {(n - 1, v)} else {}
  }

  lemma {:induction false} StartAwaits(g: Shares, core: bool, edges: EdgeMap, todo: set<nat>, bcasts: set<(nat, nat)>,
                                       before: multiset<Hello>, v: nat, hellos: multiset<Hello>, bcasts': set<(nat, nat)>)
    requires g.Valid() && Undirected(g.Adj()) && v < |g.master| && Awaited(g, core, edges, todo, bcasts, before)
    requires forall h :: h in hellos <==> h in before || SentBy(g, g.master[v], v, h)
    requires bcasts' == bcasts + if |g.Adj()[v]| >= 2 then Copies(g, v, |g.share|) else {}
    ensures Awaited(g, core, edges, todo - {v}, bcasts', hellos)
  {
    var adj := g.Adj();
    forall e | IsDirected(adj, core, e)
      ensures Awaits(g, edges, todo - {v}, bcasts', hellos, e)
    {
      assert Awaits(g, edges, todo, bcasts, before, e);
      if e.hi == v {
        DirectedGreets(adj, core, e);
        GatheredFrom(g, v, |g.share|, e.lo);
        var r: nat :| r < |g.share| && e.lo in g.share[r][v];
        if r == g.master[v] {
          assert SentBy(g, r, v, Hello(e.lo, e.hi));
        } else {
          assert (r, v) in bcasts';
        }
      } else if Announced(g, bcasts, e) {
        var r: nat :| (r, e.hi) in bcasts && r < |g.share| && e.hi < |g.share[r]| && e.lo in g.share[r][e.hi];
        assert (r, e.hi) in bcasts';
      }
    }
  }

  lemma {:induction false} CopyAwaits(g: Shares, core: bool, edges: EdgeMap, todo: set<nat>, bcasts: set<(nat, nat)>,
                                      before: multiset<Hello>, r: nat, v: nat, hellos: multiset<Hello>)
    requires g.Valid() && Undirected(g.Adj()) && r < |g.share| && v < |g.master|
    requires Awaited(g, core, edges, todo, bcasts, before)
    requires forall h :: h in hellos <==> h in before || SentBy(g, r, v, h)
    ensures Awaited(g, core, edges, todo, bcasts - {(r, v)}, hellos)
  {
    var adj := g.Adj();
    forall e | IsDirected(adj, core, e)
      ensures Awaits(g, edges, todo, bcasts - {(r, v)}, hellos, e)
    {
      assert Awaits(g, edges, todo, bcasts, before, e);
      if Announced(g, bcasts, e) {
        var q: nat :| (q, e.hi) in bcasts && q < |g.share| && e.hi < |g.share[q]| && e.lo in g.share[q][e.hi];
        if q == r && e.hi == v {
          DirectedGreets(adj, core, e);
          assert SentBy(g, r, v, Hello(e.lo, e.hi));
        } else {
          assert (q, e.hi) in bcasts - {(r, v)};
        }
      }
    }
  }

  lemma {:induction false} SentGreets(g: Shares, r: nat, v: nat, h: Hello)
    requires g.Valid() && Undirected(g.Adj()) && r < |g.share| && v < |g.master| && SentBy(g, r, v, h)
    ensures Greets(g.Adj(), h)
  {
    GatheredFrom(g, v, |g.share|, h.vertex);
    var adj := g.Adj();
    var k :| 0 <= k < |adj[v]| && adj[v][k] == h.vertex;
  }

  lemma {:induction false} StoreKeeps(g: Shares, core: bool, edges: EdgeMap, todo: set<nat>, bcasts: set<(nat, nat)>,
                                      hellos: multiset<Hello>, h: Hello, edges': EdgeMap)
    requires g.Valid() && Undirected(g.Adj()) && Greets(g.Adj(), h) && h in hellos
    requires Stored(g.Adj(), core, edges) && Awaited(g, core, edges, todo, bcasts, hellos)
    requires edges' == if Stores(g.Adj(), core, h)
                       then edges[Edge(h.vertex, h.from) := EdgeData(|g.Adj()[h.from]|, 0, false, false)]
                       else edges
    ensures Stored(g.Adj(), core, edges') && Awaited(g, core, edges', todo, bcasts, hellos - multiset{h})
  {
    hide Announced, Undirected, OrderGt;
    StoresDirected(g.Adj(), core, h);
    forall e | IsDirected(g.Adj(), core, e)
      ensures Awaits(g, edges', todo, bcasts, hellos - multiset{h}, e)
    {
      assert Awaits(g, edges, todo, bcasts, hellos, e);
      if Hello(e.lo, e.hi) == h {
        assert e == Edge(h.vertex, h.from);
      }
    }
  }

  /** A master starts: it greets along its share and, when it is a delegate's, announces it to the copies. */
  method StartGreeting(g: Shares, adj: Adjacency, core: bool, ghost edges: EdgeMap, ghost todo: set<nat>,
                       bcasts: set<(nat, nat)>, hellos: multiset<Hello>, v: nat)
    returns (hellos': multiset<Hello>, bcasts': set<(nat, nat)>)
    requires g.Valid() && adj == g.Adj() && Undirected(adj) && v < |adj|
    requires Awaited(g, core, edges, todo, bcasts, hellos) && forall h | h in hellos :: Greets(adj, h)
    requires forall c | c in bcasts :: c.0 < |g.share| && c.1 < |adj|
    ensures Awaited(g, core, edges, todo - {v}, bcasts', hellos') && forall h | h in hellos' :: Greets(adj, h)
    ensures forall c | c in bcasts' :: c.0 < |g.share| && c.1 < |adj|
  {
    hide Awaited, Undirected, Greets;
    hellos' := SendDegrees(g, adj, g.master[v], v, hellos);
    bcasts' := bcasts;
    if |adj[v]| >= 2 && v in g.delegates {
      bcasts' := bcasts + Copies(g, v, |g.share|);
    }
    assert v !in g.delegates ==> Copies(g, v, |g.share|) == {};
    StartAwaits(g, core, edges, todo, bcasts, hellos, v, hellos', bcasts');
    hide SentBy;
    forall h | h in hellos'
      ensures Greets(adj, h)
    {
      if h !in hellos {
        SentGreets(g, g.master[v], v, h);
      }
    }
  }

  /** A copy is visited: its rank greets along its own share. */
  method GreetAtCopy(g: Shares, adj: Adjacency, core: bool, ghost edges: EdgeMap, ghost todo: set<nat>,
                     ghost bcasts: set<(nat, nat)>, hellos: multiset<Hello>, r: nat, v: nat)
    returns (hellos': multiset<Hello>)
    requires g.Valid() && adj == g.Adj() && Undirected(adj) && r < |g.share| && v < |adj| && (r, v) in bcasts
    requires Awaited(g, core, edges, todo, bcasts, hellos) && forall h | h in hellos :: Greets(adj, h)
    ensures Awaited(g, core, edges, todo, bcasts - {(r, v)}, hellos') && forall h | h in hellos' :: Greets(adj, h)
    ensures |bcasts - {(r, v)}| < |bcasts|
  {
    hide Awaited, Undirected, Greets;
    hellos' := SendDegrees(g, adj, r, v, hellos);
    CopyAwaits(g, core, edges, todo, bcasts, hellos, r, v, hellos');
    hide SentBy;
    forall h | h in hellos'
      ensures Greets(adj, h)
    {
      if h !in hellos {
        SentGreets(g, r, v, h);
      }
    }
  }

  /** A greeting reaches the master, which keeps the edge if it points to it. */
  method StoreEdge(ghost g: Shares, adj: Adjacency, core: bool, edges: EdgeMap, ghost todo: set<nat>,
                   ghost bcasts: set<(nat, nat)>, ghost hellos: multiset<Hello>, h: Hello)
    returns (edges': EdgeMap)
    requires g.Valid() && adj == g.Adj() && Undirected(adj) && Greets(adj, h) && h in hellos
    requires Stored(adj, core, edges) && Awaited(g, core, edges, todo, bcasts, hellos)
    ensures Stored(adj, core, edges') && Awaited(g, core, edges', todo, bcasts, hellos - multiset{h})
    ensures |hellos - multiset{h}| < |hellos|
  {
    hide Awaited, Undirected, OrderGt;
    edges' := edges;
    if Stores(adj, core, h) {
      var e := Edge(h.vertex, h.from);
      StoresDirected(adj, core, h);
      if e in edges {
        edges' := edges[e := edges[e].(targetDegree := |adj[h.from]|)];
      } else {
        edges' := edges[e := EdgeData(|adj[h.from]|, 0, false, false)];
      }
    }
    StoreKeeps(g, core, edges, todo, bcasts, hellos, h, edges');
  }

  lemma {:induction false} AllStored(g: Shares, core: bool, edges: EdgeMap)
    requires g.Valid() && Stored(g.Adj(), core, edges) && Awaited(g, core, edges, {}, {}, multiset{})
    ensures forall e :: e in edges <==> IsDirected(g.Adj(), core, e)
    ensures Oriented(Degree(g.Adj()), edges)
  {
    forall e | IsDirected(g.Adj(), core, e)
      ensures e in edges
    {
      assert Awaits(g, edges, {}, {}, multiset{}, e);
    }
  }

  /**
   Whatever the order of starts, broadcasts and messages, exactly the directed edges are stored. A
   master greets along its own share and is broadcast; the other ranks greet along theirs.
   */
  method ConstructDirected(g: Shares, core: bool) returns (edges: EdgeMap)
    requires g.Valid() && Undirected(g.Adj())
    ensures forall e :: e in edges <==> IsDirected(g.Adj(), core, e)
    ensures forall e :: e in edges <==> Kept(g.Adj(), core, e.lo, e.hi)
    ensures Stored(g.Adj(), core, edges) && Oriented(Degree(g.Adj()), edges)
  {
    hide Announced, Shares.Gathered;
    edges := map[];
    var adj := g.Adj();
    var todo, bcasts: set<(nat, nat)> := Indices(|adj|), {};
    var hellos: multiset<Hello> := multiset{};
    while
      invariant todo <= Indices(|adj|)
      invariant forall c | c in bcasts :: c.0 < |g.share| && c.1 < |adj|
      invariant Stored(adj, core, edges)
      invariant forall h | h in hellos :: Greets(adj, h)
      invariant Awaited(g, core, edges, todo, bcasts, hellos)
      decreases |todo|, |bcasts|, |hellos|
    {
      case todo != {} =>
        var v :| v in todo;
        hellos, bcasts := StartGreeting(g, adj, core, edges, todo, bcasts, hellos, v);
        todo := todo - {v};
      case bcasts != {} =>
        var c :| c in bcasts;
        hellos := GreetAtCopy(g, adj, core, edges, todo, bcasts, hellos, c.0, c.1);
        bcasts := bcasts - {c};
      case |hellos| > 0 =>
        var h :| h in hellos;
        edges := StoreEdge(g, adj, core, edges, todo, bcasts, hellos, h);
        hellos := hellos - multiset{h};
    }
    AllStored(g, core, edges);
    KeptIsDirected(adj, core);
  }

  // The counting pass

  predicate IsWedgeAt(edges: EdgeMap, i: nat, chosen: set<Edge>, w: Wedge) {
    && w.apex == i
    && w.Left() in edges && !edges[w.Left()].deleted
    && w.Right() in edges && !edges[w.Right()].deleted
    && w.near != w.far
    && OrderGt(edges[w.Right()].targetDegree, edges[w.Left()].targetDegree, w.far, w.near)
    && (w.Left() in chosen || w.Right() in chosen)
  }

  /** The pairs of live out-edges of i, lower end first, of which at least one is chosen. */
  function WedgesAt(edges: EdgeMap, i: nat, chosen: set<Edge>): (ws: set<Wedge>)
    ensures forall w :: w in ws <==> IsWedgeAt(edges, i, chosen, w)
  {
    var ws := set e, f | e in edges && f in edges && IsWedgeAt(edges, i, chosen, Wedge(i, e.hi, f.hi))
                :: Wedge(i, e.hi, f.hi);
    assert forall w: Wedge | IsWedgeAt(edges, i, chosen, w) :: w == Wedge(i, w.Left().hi, w.Right().hi);
    ws
  }

  /**
   The two nested loops over the out-edges of a vertex, on the rank that keeps them. A check or acknowledgement for
   a delegate is first handed to the local copy, whose handler accepts every one, so that all go on to the masters.
   */
  method QueueWedges(edges: EdgeMap, i: nat, chosen: set<Edge>, checks: multiset<Wedge>)
    returns (sent: multiset<Wedge>)
    ensures sent == checks + multiset(WedgesAt(edges, i, chosen))
  {
    sent := checks;
    var outer := set e | e in edges && e.lo == i;
    var all := outer;
    while outer != {}
      invariant outer <= all
      invariant forall w ::
        sent[w] == checks[w] + (if IsWedgeAt(edges, i, chosen, w) && w.Left() !in outer then 1 else 0)
    {
      var a :| a in outer;
      var inner := all;
      while inner != {}
        invariant inner <= all
        invariant forall w ::
          sent[w] == checks[w] + (if IsWedgeAt(edges, i, chosen, w) && Done(w, outer, a, inner) then 1 else 0)
      {
        var b :| b in inner;
        inner := inner - {b};
        if IsWedgeAt(edges, i, chosen, Wedge(i, a.hi, b.hi)) {
          sent := sent + multiset{Wedge(i, a.hi, b.hi)};
        }
      }
      outer := outer - {a};
    }
  }

  /** Reached by the loops when a is paired with all but inner and outer is still to come. */
  predicate Done(w: Wedge, outer: set<Edge>, a: Edge, inner: set<Edge>) {
    w.Left() !in outer || (w.Left() == a && w.Right() !in inner)
  }

  predicate Closes(edges: EdgeMap, w: Wedge) {
    w.Closing() in edges && !edges[w.Closing()].deleted
  }

  function Bump(edges: EdgeMap, e: Edge): EdgeMap
    requires e in edges
  {
    edges[e := edges[e].Increment()]
  }

  // What is in flight, for this pass and for the deleting pass

  predicate Sent(live: set<Edge>, chosen: set<Edge>, todo: set<nat>, w: Wedge) {
    && w.apex !in todo && w.Left() in live && w.Right() in live
    && (w.Left() in chosen || w.Right() in chosen)
  }

  ghost predicate Once(ws: multiset<Wedge>) {
    forall w :: ws[w] <= 1
  }

  /** struck holds the wedges found closed so far; chosen the edges whose wedges are sent. */
  ghost predicate Mail(live: set<Edge>, chosen: set<Edge>, todo: set<nat>,
                       checks: multiset<Wedge>, acks: multiset<Wedge>, struck: set<Wedge>) {
    && Once(checks) && Once(acks)
    && (forall w | w in checks :: w !in struck && Sent(live, chosen, todo, w))
    && (forall w | w in acks :: w in struck)
    && (forall t | t in struck :: t.Closing() in live && Sent(live, chosen, todo, t))
    && (forall t | Sent(live, chosen, todo, t) && t.Closing() in live :: t in checks || t in struck)
  }

  /** What a vertex sends when it starts is new, and is all that its chosen edges owe. */
  lemma {:induction false} WedgesFresh(degree: nat -> nat, live: set<Edge>, chosen: set<Edge>, chosen': set<Edge>, edges: EdgeMap, i: nat,
                    todo: set<nat>, w: Wedge)
    requires Live(edges) == live && Oriented(degree, edges) && i in todo
    requires forall e: Edge | e.lo != i :: e in chosen <==> e in chosen'
    ensures w.apex != i ==>
      (Sent(live, chosen', todo - {i}, w) <==> Sent(live, chosen, todo, w)) && !IsWedgeAt(edges, i, chosen', w)
    ensures w.apex == i ==> !Sent(live, chosen, todo, w)
    ensures IsWedgeAt(edges, i, chosen', w) ==> Sent(live, chosen', todo - {i}, w)
    ensures w.apex == i && Sent(live, chosen', todo - {i}, w) && w.Closing() in live ==> IsWedgeAt(edges, i, chosen', w)
  {
    if w.apex == i && Sent(live, chosen', todo - {i}, w) && w.Closing() in live {
      assert w.Left() in edges && w.Right() in edges && w.Closing() in edges;
    }
  }

  lemma {:induction false} StartMail(degree: nat -> nat, live: set<Edge>, chosen: set<Edge>, chosen': set<Edge>, edges: EdgeMap, i: nat,
                  todo: set<nat>, checks: multiset<Wedge>, acks: multiset<Wedge>, struck: set<Wedge>)
    requires Mail(live, chosen, todo, checks, acks, struck) && i in todo
    requires Live(edges) == live && Oriented(degree, edges)
    requires forall e: Edge | e.lo != i :: e in chosen <==> e in chosen'
    ensures Mail(live, chosen', todo - {i}, checks + multiset(WedgesAt(edges, i, chosen')), acks, struck)
    ensures |todo - {i}| < |todo|
  {
    var ws := WedgesAt(edges, i, chosen');
    forall w: Wedge
      ensures w.apex != i ==> (Sent(live, chosen', todo - {i}, w) <==> Sent(live, chosen, todo, w)) && w !in ws
      ensures w.apex == i ==> !Sent(live, chosen, todo, w)
      ensures w in ws ==> Sent(live, chosen', todo - {i}, w)
      ensures w.apex == i && Sent(live, chosen', todo - {i}, w) && w.Closing() in live ==> w in ws
    {
      WedgesFresh(degree, live, chosen, chosen', edges, i, todo, w);
    }
    AddMail(live, chosen, chosen', todo, todo - {i}, checks, acks, struck, ws);
  }

  lemma {:induction false} AddMail(live: set<Edge>, chosen: set<Edge>, chosen': set<Edge>, todo: set<nat>, todo': set<nat>,
                checks: multiset<Wedge>, acks: multiset<Wedge>, struck: set<Wedge>, ws: set<Wedge>)
    requires Mail(live, chosen, todo, checks, acks, struck)
    requires forall w | w in ws :: !Sent(live, chosen, todo, w) && Sent(live, chosen', todo', w)
    requires forall w | Sent(live, chosen, todo, w) :: Sent(live, chosen', todo', w)
    requires forall w | Sent(live, chosen', todo', w) && w.Closing() in live :: Sent(live, chosen, todo, w) || w in ws
    ensures Mail(live, chosen', todo', checks + multiset(ws), acks, struck)
  {
    hide Sent;
  }

  lemma {:induction false} CheckMail(live: set<Edge>, chosen: set<Edge>, todo: set<nat>,
                  checks: multiset<Wedge>, acks: multiset<Wedge>, struck: set<Wedge>, w: Wedge)
    requires Mail(live, chosen, todo, checks, acks, struck) && w in checks
    ensures w.Closing() in live ==>
      Mail(live, chosen, todo, checks - multiset{w}, acks + multiset{w}, struck + {w})
    ensures w.Closing() !in live ==> Mail(live, chosen, todo, checks - multiset{w}, acks, struck)
    ensures |checks - multiset{w}| < |checks| && |struck + {w}| == |struck| + 1
  {
  }

  lemma {:induction false} AckMail(live: set<Edge>, chosen: set<Edge>, todo: set<nat>,
                checks: multiset<Wedge>, acks: multiset<Wedge>, struck: set<Wedge>, w: Wedge)
    requires Mail(live, chosen, todo, checks, acks, struck) && w in acks
    ensures Mail(live, chosen, todo, checks, acks - multiset{w}, struck)
    ensures |acks - multiset{w}| < |acks|
  {
  }

  /** The closed wedges already accounted for at e: its own closings, and what was acknowledged. */
  ghost function Owned(struck: set<Wedge>, acks: multiset<Wedge>, e: Edge): set<Wedge> {
    set t | t in struck && t.Has(e) && (t.Closing() == e || t !in acks)
  }

  lemma {:induction false} OwnedCheck(struck: set<Wedge>, acks: multiset<Wedge>, w: Wedge, e: Edge)
    requires w !in struck && forall t | t in acks :: t in struck
    requires w.Left() != w.Closing() && w.Right() != w.Closing()
    ensures |Owned(struck + {w}, acks + multiset{w}, e)| ==
      |Owned(struck, acks, e)| + if e == w.Closing() then 1 else 0
  {
    var o, o' := Owned(struck, acks, e), Owned(struck + {w}, acks + multiset{w}, e);
    if e == w.Closing() {
      assert o' == o + {w};
    } else {
      assert o' == o;
    }
  }

  lemma {:induction false} OwnedAck(struck: set<Wedge>, acks: multiset<Wedge>, w: Wedge, e: Edge)
    requires w in struck && acks[w] == 1
    requires w.Left() != w.Closing() && w.Right() != w.Closing()
    ensures |Owned(struck, acks - multiset{w}, e)| ==
      |Owned(struck, acks, e)| + if e == w.Left() || e == w.Right() then 1 else 0
  {
    var o, o' := Owned(struck, acks, e), Owned(struck, acks - multiset{w}, e);
    if e == w.Left() || e == w.Right() {
      assert o' == o + {w};
    } else {
      assert o' == o;
    }
  }

  lemma {:induction false} LeaningAdd(ts: set<Wedge>, w: Wedge, e: Edge)
    requires w !in ts
    ensures |Leaning(ts + {w}, e)| == |Leaning(ts, e)| + if e == w.Left() then 1 else 0
  {
    if e == w.Left() {
      assert Leaning(ts + {w}, e) == Leaning(ts, e) + {w};
    } else {
      assert Leaning(ts + {w}, e) == Leaning(ts, e);
    }
  }

  /** Nothing left to send or deliver: exactly the triangles with a chosen spoke were struck. */
  lemma {:induction false} MailDone(live: set<Edge>, chosen: set<Edge>, struck: set<Wedge>, e: Edge)
    requires Mail(live, chosen, {}, multiset{}, multiset{}, struck)
    ensures struck == set t | t in TrianglesOf(live) && (t.Left() in chosen || t.Right() in chosen)
    ensures Owned(struck, multiset{}, e) == Through(struck, e)
  {
    forall t
      ensures t in struck <==> t in TrianglesOf(live) && (t.Left() in chosen || t.Right() in chosen)
    {
      assert t in struck ==> Sent(live, chosen, {}, t);
      assert t in TrianglesOf(live) && (t.Left() in chosen || t.Right() in chosen) ==> Sent(live, chosen, {}, t);
    }
  }

  // Exactness of the counting pass

  function CountOf(edges: EdgeMap): Edge -> nat {
    e => if e in edges then edges[e].count else 0
  }

  /** Only counters differ. */
  ghost predicate SameShape(a: EdgeMap, b: EdgeMap) {
    a.Keys == b.Keys && forall e | e in a :: a[e].(count := 0) == b[e].(count := 0)
  }

  lemma {:induction false} ShapeKeeps(degree: nat -> nat, a: EdgeMap, b: EdgeMap)
    requires SameShape(a, b)
    ensures Live(a) == Live(b) && Marked(a) == Marked(b)
    ensures Oriented(degree, a) ==> Oriented(degree, b)
  {
    forall e
      ensures e in Live(a) <==> e in Live(b)
      ensures e in Marked(a) <==> e in Marked(b)
      ensures e in a ==> e in b && a[e].targetDegree == b[e].targetDegree
    {
      if e in a {
        assert a[e].(count := 0) == b[e].(count := 0);
      }
    }
  }

  lemma {:induction false} BumpEffect(degree: nat -> nat, live: set<Edge>, edges: EdgeMap, e: Edge)
    requires Live(edges) == live && Oriented(degree, edges) && e in live
    ensures e in edges
    ensures SameShape(edges, Bump(edges, e))
    ensures Live(Bump(edges, e)) == live && Oriented(degree, Bump(edges, e))
    ensures forall x :: CountOf(Bump(edges, e))(x) == CountOf(edges)(x) + if x == e then 1 else 0
    ensures SumOver(live, CountOf(Bump(edges, e))) == SumOver(live, CountOf(edges)) + 1
  {
    ShapeKeeps(degree, edges, Bump(edges, e));
    SumOverBump(live, e, CountOf(edges), CountOf(Bump(edges, e)));
  }

  ghost predicate Counted(live: set<Edge>, edges: EdgeMap, inbound: map<Edge, nat>,
                          acks: multiset<Wedge>, struck: set<Wedge>) {
    && (forall e | e in live :: CountOf(edges)(e) == |Owned(struck, acks, e)|)
    && (forall e :: Inbound(inbound, e) == |Leaning(struck, e)|)
  }

  /** Counts plus twice the pending acknowledgements are three times the triangles found. */
  ghost predicate Balanced(live: set<Edge>, edges: EdgeMap, acks: multiset<Wedge>, struck: set<Wedge>) {
    SumOver(live, CountOf(edges)) + 2 * |acks| == 3 * |struck|
  }

  ghost predicate Tallied(degree: nat -> nat, live: set<Edge>, edges: EdgeMap, inbound: map<Edge, nat>,
                          acks: multiset<Wedge>, struck: set<Wedge>) {
    && Live(edges) == live
    && Oriented(degree, edges)
    && Counted(live, edges, inbound, acks, struck)
    && Balanced(live, edges, acks, struck)
  }

  lemma {:induction false} SpokesDiffer(degree: nat -> nat, live: set<Edge>, chosen: set<Edge>, todo: set<nat>,
                     checks: multiset<Wedge>, acks: multiset<Wedge>, struck: set<Wedge>, w: Wedge)
    requires Upwards(degree, live) && Mail(live, chosen, todo, checks, acks, struck)
    requires (w.Closing() in live && w in checks) || w in acks
    ensures w.In(live)
    ensures if w in checks then w !in struck else w in struck && acks[w] == 1
    ensures forall t | t in acks :: t in struck
    ensures w.Left() != w.Closing() && w.Right() != w.Closing() && w.Left() != w.Right()
  {
    SidesDiffer(degree, live, w);
  }

  lemma {:induction false} CheckCounted(live: set<Edge>, edges: EdgeMap, edges': EdgeMap, inbound: map<Edge, nat>,
                     acks: multiset<Wedge>, struck: set<Wedge>, w: Wedge)
    requires Counted(live, edges, inbound, acks, struck)
    requires forall x :: CountOf(edges')(x) == CountOf(edges)(x) + if x == w.Closing() then 1 else 0
    requires w !in struck && w.Left() != w.Closing() && w.Right() != w.Closing()
    requires forall t | t in acks :: t in struck
    ensures Counted(live, edges', inbound[w.Left() := Inbound(inbound, w.Left()) + 1],
                    acks + multiset{w}, struck + {w})
  {
    forall e
      ensures e in live ==> CountOf(edges')(e) == |Owned(struck + {w}, acks + multiset{w}, e)|
      ensures Inbound(inbound[w.Left() := Inbound(inbound, w.Left()) + 1], e) == |Leaning(struck + {w}, e)|
    {
      OwnedCheck(struck, acks, w, e);
      LeaningAdd(struck, w, e);
    }
  }

  lemma {:induction false} AckCounted(live: set<Edge>, edges: EdgeMap, edges': EdgeMap, inbound: map<Edge, nat>,
                   acks: multiset<Wedge>, struck: set<Wedge>, w: Wedge)
    requires Counted(live, edges, inbound, acks, struck)
    requires forall x ::
      CountOf(edges')(x) == CountOf(edges)(x) + if x == w.Right() || x == w.Left() then 1 else 0
    requires w in struck && acks[w] == 1 && w.Left() != w.Closing() && w.Right() != w.Closing()
    ensures Counted(live, edges', inbound, acks - multiset{w}, struck)
  {
    forall e
      ensures e in live ==> CountOf(edges')(e) == |Owned(struck, acks - multiset{w}, e)|
    {
      OwnedAck(struck, acks, w, e);
    }
  }

  /** Counting a found closing edge and owing its acknowledgement keeps the tally. */
  lemma {:induction false} CheckTallied(degree: nat -> nat, live: set<Edge>, edges: EdgeMap, inbound: map<Edge, nat>,
                     acks: multiset<Wedge>, struck: set<Wedge>, w: Wedge)
    requires Tallied(degree, live, edges, inbound, acks, struck)
    requires w.In(live) && w !in struck && w.Left() != w.Closing() && w.Right() != w.Closing()
    requires forall t | t in acks :: t in struck
    ensures w.Closing() in edges
    ensures Tallied(degree, live, Bump(edges, w.Closing()),
                    inbound[w.Left() := Inbound(inbound, w.Left()) + 1], acks + multiset{w}, struck + {w})
    ensures SameShape(edges, Bump(edges, w.Closing()))
  {
    BumpEffect(degree, live, edges, w.Closing());
    CheckCounted(live, edges, Bump(edges, w.Closing()), inbound, acks, struck, w);
  }

  /** The acknowledgement counts the two spokes. */
  lemma {:induction false} AckTallied(degree: nat -> nat, live: set<Edge>, edges: EdgeMap, inbound: map<Edge, nat>,
                   acks: multiset<Wedge>, struck: set<Wedge>, w: Wedge)
    requires Tallied(degree, live, edges, inbound, acks, struck)
    requires w.In(live) && w in struck && acks[w] == 1
    requires w.Left() != w.Closing() && w.Right() != w.Closing() && w.Left() != w.Right()
    ensures w.Right() in edges && w.Left() in Bump(edges, w.Right())
    ensures Tallied(degree, live, Bump(Bump(edges, w.Right()), w.Left()), inbound, acks - multiset{w}, struck)
    ensures SameShape(edges, Bump(Bump(edges, w.Right()), w.Left()))
  {
    BumpEffect(degree, live, edges, w.Right());
    var half := Bump(edges, w.Right());
    BumpEffect(degree, live, half, w.Left());
    AckCounted(live, edges, Bump(half, w.Left()), inbound, acks, struck, w);
  }

  // The traversals

  /** The same edges, nothing counted and nothing marked. */
  ghost function Reset(edges: EdgeMap): (r: EdgeMap)
    ensures r.Keys == edges.Keys && forall e | e in edges :: r[e] == edges[e].(count := 0, marked := false)
  {
    ResetAmong(edges, edges.Keys)
  }

  ghost function ResetAmong(edges: EdgeMap, among: set<Edge>): (r: EdgeMap)
    requires among <= edges.Keys
    ensures r.Keys == edges.Keys
    ensures forall e | e in edges :: r[e] == if e in among then edges[e].(count := 0, marked := false) else edges[e]
    decreases |among|
  {
    if among == {} then edges
    else
      var e :| e in among;
      ResetAmong(edges, among - {e})[e := edges[e].(count := 0, marked := false)]
  }

  method ResetAll(edges: EdgeMap) returns (r: EdgeMap)
    ensures r == Reset(edges)
  {
    r := edges;
    var rest := edges.Keys;
    while rest != {}
      invariant rest <= edges.Keys == r.Keys
      invariant forall e | e in edges :: r[e] == if e in rest then edges[e] else edges[e].(count := 0, marked := false)
    {
      var e :| e in rest;
      r := r[e := edges[e].(count := 0, marked := false)];
      rest := rest - {e};
    }
  }

  lemma {:induction false} TallyStart(degree: nat -> nat, edges: EdgeMap)
    requires Oriented(degree, edges)
    ensures Live(Reset(edges)) == Live(edges) && Marked(Reset(edges)) == {}
    ensures Tallied(degree, Live(edges), Reset(edges), map[], multiset{}, {})
    ensures Oriented(degree, Reset(edges)) && SameShape(Reset(edges), Reset(edges))
  {
    SumOverZero(Live(edges), CountOf(Reset(edges)));
  }

  /** The counts of the live edges are exact, and so is what the inbound map knows of each spoke. */
  ghost predicate Exact(live: set<Edge>, edges: EdgeMap, inbound: map<Edge, nat>) {
    && Live(edges) == live
    && (forall e | e in live :: CountOf(edges)(e) == Support(live, e))
    && (forall e :: Inbound(inbound, e) == |Leaning(TrianglesOf(live), e)|)
  }

  lemma {:induction false} MailEmpty(edges: EdgeMap, live: set<Edge>, vertices: set<nat>)
    requires live == Live(edges) && forall e | e in edges :: e.lo in vertices
    ensures Mail(live, live, vertices, multiset{}, multiset{}, {})
  {
    forall t | Sent(live, live, vertices, t) && t.Closing() in live
      ensures false
    {
      var e := t.Left();
      if e.lo !in vertices {
        assert false;
      }
    }
  }

  lemma {:induction false} TallyLive(degree: nat -> nat, live: set<Edge>, edges: EdgeMap, inbound: map<Edge, nat>,
                  acks: multiset<Wedge>, struck: set<Wedge>)
    requires Tallied(degree, live, edges, inbound, acks, struck)
    ensures Live(edges) == live && Upwards(degree, live) && Oriented(degree, edges)
    ensures forall w :: Closes(edges, w) <==> w.Closing() in live
  {
    assert forall w :: Closes(edges, w) <==> w.Closing() in Live(edges);
  }

  lemma {:induction false} SameShapeTransitive(a: EdgeMap, b: EdgeMap, c: EdgeMap)
    requires SameShape(a, b) && SameShape(b, c)
    ensures SameShape(a, c)
  {
    forall e | e in a
      ensures e in b && e in c && a[e].(count := 0) == b[e].(count := 0) == c[e].(count := 0)
    {
      assert e in b.Keys;
    }
  }

  lemma {:induction false} CountingDone(degree: nat -> nat, live: set<Edge>, edges: EdgeMap, inbound: map<Edge, nat>, struck: set<Wedge>)
    requires Mail(live, live, {}, multiset{}, multiset{}, struck)
    requires Tallied(degree, live, edges, inbound, multiset{}, struck)
    ensures struck == TrianglesOf(live)
    ensures Exact(live, edges, inbound)
    ensures SumOver(live, CountOf(edges)) == 3 * |struck|
  {
    MailDone(live, live, struck, Edge(0, 0));
    assert struck == TrianglesOf(live);
    forall e | e in live
      ensures CountOf(edges)(e) == Support(live, e)
    {
      MailDone(live, live, struck, e);
    }
  }

  /** A vertex starts: it asks about every pair of its out-edges. */
  method StartVertex(ghost degree: nat -> nat, ghost live: set<Edge>, ghost todo: set<nat>,
                     edges: EdgeMap, ghost inbound: map<Edge, nat>, checks: multiset<Wedge>,
                     ghost acks: multiset<Wedge>, ghost struck: set<Wedge>, i: nat)
    returns (checks': multiset<Wedge>)
    requires Mail(live, live, todo, checks, acks, struck) && i in todo
    requires Tallied(degree, live, edges, inbound, acks, struck)
    ensures Mail(live, live, todo - {i}, checks', acks, struck)
    ensures |todo - {i}| < |todo|
  {
    hide *;
    TallyLive(degree, live, edges, inbound, acks, struck);
    StartMail(degree, live, live, live, edges, i, todo, checks, acks, struck);
    checks' := QueueWedges(edges, i, Live(edges), checks);
  }

  /** Handler of a wedge check: count the closing edge, remember the apex, owe an acknowledgement. */
  method ReceiveCheck(ghost degree: nat -> nat, ghost live: set<Edge>, ghost todo: set<nat>,
                      edges: EdgeMap, inbound: map<Edge, nat>, ghost checks: multiset<Wedge>,
                      acks: multiset<Wedge>, ghost struck: set<Wedge>, w: Wedge)
    returns (edges': EdgeMap, inbound': map<Edge, nat>, acks': multiset<Wedge>, hit: bool, ghost struck': set<Wedge>)
    requires Mail(live, live, todo, checks, acks, struck) && w in checks
    requires Tallied(degree, live, edges, inbound, acks, struck)
    ensures hit <==> Closes(edges, w)
    ensures struck' == (if hit then struck + {w} else struck) && |struck'| == |struck| + if hit then 1 else 0
    ensures Mail(live, live, todo, checks - multiset{w}, acks', struck')
    ensures |checks - multiset{w}| < |checks|
    ensures Tallied(degree, live, edges', inbound', acks', struck')
    ensures SameShape(edges, edges')
  {
    edges', inbound', acks', hit, struck' := edges, inbound, acks, Closes(edges, w), struck;
    assert SameShape(edges, edges);
    hide *;
    TallyLive(degree, live, edges, inbound, acks, struck);
    CheckMail(live, live, todo, checks, acks, struck, w);
    if hit {
      SpokesDiffer(degree, live, live, todo, checks, acks, struck, w);
      CheckTallied(degree, live, edges, inbound, acks, struck, w);
      edges' := Bump(edges, w.Closing());
      inbound' := inbound[w.Left() := Inbound(inbound, w.Left()) + 1];
      acks' := acks + multiset{w};
      struck' := struck + {w};
    }
  }

  /** Handler of an acknowledgement: count both spokes. */
  method ReceiveAck(ghost degree: nat -> nat, ghost live: set<Edge>, ghost todo: set<nat>,
                    edges: EdgeMap, ghost inbound: map<Edge, nat>, ghost checks: multiset<Wedge>,
                    ghost acks: multiset<Wedge>, ghost struck: set<Wedge>, w: Wedge)
    returns (edges': EdgeMap)
    requires Mail(live, live, todo, checks, acks, struck) && w in acks
    requires Tallied(degree, live, edges, inbound, acks, struck)
    ensures Mail(live, live, todo, checks, acks - multiset{w}, struck)
    ensures |acks - multiset{w}| < |acks|
    ensures Tallied(degree, live, edges', inbound, acks - multiset{w}, struck)
    ensures SameShape(edges, edges')
  {
    hide *;
    TallyLive(degree, live, edges, inbound, acks, struck);
    AckMail(live, live, todo, checks, acks, struck, w);
    SpokesDiffer(degree, live, live, todo, checks, acks, struck, w);
    AckTallied(degree, live, edges, inbound, acks, struck, w);
    edges' := Bump(Bump(edges, w.Right()), w.Left());
  }

  /**
   One wedge check per pair of out-edges, in any order of starts and deliveries: the triangles
   found are all triangles, every edge ends with its exact support, and all through the pass
   counts plus twice the pending acknowledgements are three times the triangles found.
   */
  method CountAllTriangles(ghost degree: nat -> nat, vertices: set<nat>, edges0: EdgeMap)
    returns (edges: EdgeMap, inbound: map<Edge, nat>, found: nat)
    requires Oriented(degree, edges0) && forall e | e in edges0 :: e.lo in vertices
    ensures SameShape(Reset(edges0), edges) && Oriented(degree, edges) && Marked(edges) == {}
    ensures Exact(Live(edges0), edges, inbound)
    ensures found == |TrianglesOf(Live(edges0))|
    ensures SumOver(Live(edges0), CountOf(edges)) == 3 * found
  {
    edges := ResetAll(edges0);
    inbound, found := map[], 0;
    var todo, checks, acks := vertices, multiset{}, multiset{};
    ghost var live, struck := Live(edges0), {};
    hide *;
    TallyStart(degree, edges0);
    MailEmpty(edges0, live, vertices);
    while todo != {} || |checks| > 0 || |acks| > 0
      invariant Mail(live, live, todo, checks, acks, struck)
      invariant Tallied(degree, live, edges, inbound, acks, struck)
      invariant SameShape(Reset(edges0), edges)
      invariant found == |struck|
      decreases |todo|, |checks|, |acks|
    {
      ghost var before := edges;
      if
      case todo != {} =>
        var i :| i in todo;
        checks := StartVertex(degree, live, todo, edges, inbound, checks, acks, struck, i);
        todo := todo - {i};
      case |checks| > 0 =>
        var w :| w in checks;
        var hit;
        edges, inbound, acks, hit, struck :=
          ReceiveCheck(degree, live, todo, edges, inbound, checks, acks, struck, w);
        found := if hit then found + 1 else found;
        checks := checks - multiset{w};
        SameShapeTransitive(Reset(edges0), before, edges);
      case |acks| > 0 =>
        var w :| w in acks;
        edges := ReceiveAck(degree, live, todo, edges, inbound, checks, acks, struck, w);
        acks := acks - multiset{w};
        SameShapeTransitive(Reset(edges0), before, edges);
    }
    CountingDone(degree, live, edges, inbound, struck);
    ShapeKeeps(degree, Reset(edges0), edges);
  }
}
