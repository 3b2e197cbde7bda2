/**
 The definition of a truss, independent of how it is computed: the largest set of edges in
 which every edge lies on k - 2 triangles of the set.
 */
module Trusses {
  import opened Triangles

  ghost predicate Cohesive(k: int, s: set<Edge>) {
    forall e | e in s :: Support(s, e) >= k - 2
  }

  ghost predicate Holds(k: int, live: set<Edge>, s: set<Edge>, e: Edge) {
    s <= live && e in s && Cohesive(k, s)
  }

  ghost function Truss(k: int, live: set<Edge>): set<Edge> {
    set e | e in live && exists s :: Holds(k, live, s, e)
  }

  lemma {:induction false} TrussCohesive(k: int, live: set<Edge>)
    ensures Truss(k, live) <= live && Cohesive(k, Truss(k, live))
  {
    forall e | e in Truss(k, live)
      ensures Support(Truss(k, live), e) >= k - 2
    {
      var s :| Holds(k, live, s, e);
      TrussLargest(k, live, s);
      SupportMonotone(s, Truss(k, live), e);
    }
  }

  lemma {:induction false} TrussLargest(k: int, live: set<Edge>, s: set<Edge>)
    requires s <= live && Cohesive(k, s)
    ensures s <= Truss(k, live)
  {
    forall e | e in s
      ensures e in Truss(k, live)
    {
      assert Holds(k, live, s, e);
    }
  }

  /** A truss is the only set that is cohesive and contains every cohesive subset. */
  lemma {:induction false} TrussUnique(k: int, live: set<Edge>, s: set<Edge>)
    requires s <= live && Cohesive(k, s) && Truss(k, live) <= s
    ensures s == Truss(k, live)
  {
    TrussLargest(k, live, s);
  }

  /** Peeling a truss further gives the same as peeling the graph. */
  lemma {:induction false} TrussChain(k: int, live: set<Edge>)
    ensures Truss(k + 1, Truss(k, live)) == Truss(k + 1, live)
  {
    var big, small := Truss(k, live), Truss(k + 1, live);
    TrussCohesive(k, live);
    TrussCohesive(k + 1, live);
    TrussCohesive(k + 1, big);
    TrussLargest(k, live, small);
    TrussLargest(k + 1, big, small);
    TrussLargest(k + 1, live, Truss(k + 1, big));
  }
}

/**
 Iterated truss decomposition. A round deletes the edges on too few triangles: a wedge pass
 subtracts each triangle with a deleted spoke, asking at the closing edge and acknowledging
 back; an unrolling pass subtracts each remaining triangle with a deleted closing edge, telling
 the apexes remembered at its lower end; then the marked edges are removed. Between rounds the
 count of every live edge is its support.
 */
module KTruss {
  import opened Collections
  import opened Triangles
  import opened TriangleCount
  import opened Trusses

  // Changing counters

  function Drop(edges: EdgeMap, e: Edge): (r: EdgeMap)
    requires e in edges
    ensures r.Keys == edges.Keys
  {
    edges[e := edges[e].Decrement()]
  }

  const MAX_COUNT: nat := 0xFFFF_FFFF

  /** Decrement an entry and erase it at zero; an absent entry would start at zero and wrap. */
  function DropInbound(inbound: map<Edge, nat>, e: Edge): (r: map<Edge, nat>)
    ensures Inbound(inbound, e) == 1 ==> e !in r
  {
    var c := Inbound(inbound, e);
    if c == 1 then inbound - {e}
    else inbound[e := if c == 0 then MAX_COUNT else c - 1]
  }

  lemma {:induction false} DropEffect(degree: nat -> nat, edges: EdgeMap, e: Edge)
    requires e in edges && Oriented(degree, edges) && CountOf(edges)(e) >= 1
    ensures SameShape(edges, Drop(edges, e))
    ensures Live(Drop(edges, e)) == Live(edges) && Oriented(degree, Drop(edges, e))
    ensures Marked(Drop(edges, e)) == Marked(edges)
    ensures forall x :: CountOf(Drop(edges, e))(x) + (if x == e then 1 else 0) == CountOf(edges)(x)
  {
    ShapeKeeps(degree, edges, Drop(edges, e));
  }

  // Between rounds

  /** Nothing is marked, counts are exact, and every live triangle is remembered at its near vertex. */
  ghost predicate Settled(degree: nat -> nat, live: set<Edge>, edges: EdgeMap, inbound: map<Edge, nat>) {
    && Live(edges) == live && Marked(edges) == {} && Oriented(degree, edges)
    && (forall e | e in live :: CountOf(edges)(e) == Support(live, e))
    && Remembers(inbound, TrianglesOf(live))
  }

  ghost predicate Remembers(inbound: map<Edge, nat>, ts: set<Wedge>) {
    forall e :: Inbound(inbound, e) >= |Leaning(ts, e)|
  }

  // The wedge pass

  /** Counts and memory with the struck triangles subtracted, spokes only after acknowledgement. */
  ghost predicate Deducted(live: set<Edge>, edges: EdgeMap, inbound: map<Edge, nat>,
                           acks: multiset<Wedge>, struck: set<Wedge>) {
    && (forall e | e in live :: CountOf(edges)(e) + |Owned(struck, acks, e)| == Support(live, e))
    && (forall e :: Inbound(inbound, e) + |Leaning(struck, e)| >= |Leaning(TrianglesOf(live), e)|)
  }

  /** Marks are only on started vertices and never on an edge to keep; what is not marked is supported. */
  ghost predicate Pruning(degree: nat -> nat, k: int, live: set<Edge>, keep: set<Edge>, edges: EdgeMap, todo: set<nat>) {
    && Live(edges) == live && Oriented(degree, edges)
    && keep <= live && Cohesive(k, keep) && keep !! Marked(edges)
    && (forall e | e in Marked(edges) :: e.lo !in todo)
    && (forall e | e in live && e.lo !in todo && e !in Marked(edges) :: Support(live, e) >= k - 2)
  }

  predicate IsWeak(k: int, edges: EdgeMap, e: Edge) {
    e in edges && !edges[e].deleted && !edges[e].marked && edges[e].count < k - 2
  }

  /** edges' marks the weak out-edges of i. */
  ghost predicate Marks(k: int, edges: EdgeMap, i: nat, edges': EdgeMap) {
    && edges'.Keys == edges.Keys
    && forall e | e in edges ::
         edges'[e] == if e.lo == i && IsWeak(k, edges, e) then edges[e].(marked := true) else edges[e]
  }

  method MarkWeak(k: int, edges: EdgeMap, i: nat) returns (edges': EdgeMap, toDelete: set<Edge>)
    ensures Marks(k, edges, i, edges')
    ensures forall e :: e in toDelete <==> e.lo == i && IsWeak(k, edges, e)
  {
    edges', toDelete := edges, {};
    var out := set e | e in edges && e.lo == i;
    while out != {}
      invariant out <= set e | e in edges && e.lo == i
      invariant edges'.Keys == edges.Keys
      invariant forall e :: e in toDelete <==> e.lo == i && e !in out && IsWeak(k, edges, e)
      invariant forall e | e in edges ::
        edges'[e] == if e in toDelete then edges[e].(marked := true) else edges[e]
    {
      var e :| e in out;
      out := out - {e};
      if IsWeak(k, edges', e) {
        edges' := edges'[e := edges'[e].(marked := true)];
        toDelete := toDelete + {e};
      }
    }
  }

  lemma {:induction false} MarksEffect(degree: nat -> nat, k: int, edges: EdgeMap, i: nat, edges': EdgeMap)
    requires Marks(k, edges, i, edges') && Oriented(degree, edges)
    ensures Live(edges') == Live(edges) && Oriented(degree, edges')
    ensures forall e :: CountOf(edges')(e) == CountOf(edges)(e)
    ensures forall e :: e in Marked(edges') <==> e in Marked(edges) || (e.lo == i && IsWeak(k, edges, e))
  {
    forall e
      ensures e in Live(edges') <==> e in Live(edges)
      ensures e in edges ==> e in edges' && edges'[e].targetDegree == edges[e].targetDegree
    {
      assert e in edges' <==> e in edges'.Keys;
    }
  }

  /** An edge to keep has not lost a triangle of the kept set, so it is not weak. */
  lemma {:induction false} KeptIsNotWeak(k: int, live: set<Edge>, keep: set<Edge>, edges: EdgeMap, todo: set<nat>,
                      checks: multiset<Wedge>, acks: multiset<Wedge>, struck: set<Wedge>, e: Edge)
    requires Mail(live, Marked(edges), todo, checks, acks, struck)
    requires CountOf(edges)(e) + |Owned(struck, acks, e)| == Support(live, e)
    requires keep <= live && Cohesive(k, keep) && keep !! Marked(edges) && e in keep
    ensures !IsWeak(k, edges, e)
  {
    var kept, lost, all := Through(TrianglesOf(keep), e), Owned(struck, acks, e), Through(TrianglesOf(live), e);
    assert |kept| >= k - 2;
    assert forall t | t in struck :: t.In(live) && Sent(live, Marked(edges), todo, t);
    hide Mail, Cohesive, Live;
    assert kept <= all && lost <= all && kept !! lost;
    assert CountOf(edges)(e) + |lost| == |all|;
    hide Through, Owned, TrianglesOf, Support, Marked;
    DisjointSizes(kept, lost, all);
  }

  lemma {:induction false} StartPruning(degree: nat -> nat, k: int, live: set<Edge>, keep: set<Edge>, edges: EdgeMap, edges': EdgeMap,
                     i: nat, todo: set<nat>, checks: multiset<Wedge>, acks: multiset<Wedge>, struck: set<Wedge>)
    requires Pruning(degree, k, live, keep, edges, todo)
    requires Mail(live, Marked(edges), todo, checks, acks, struck) && i in todo
    requires forall e | e in live :: CountOf(edges)(e) + |Owned(struck, acks, e)| == Support(live, e)
    requires Marks(k, edges, i, edges')
    ensures Pruning(degree, k, live, keep, edges', todo - {i})
  {
    MarksEffect(degree, k, edges, i, edges');
    forall e | e in keep
      ensures e !in Marked(edges')
    {
      KeptIsNotWeak(k, live, keep, edges, todo, checks, acks, struck, e);
    }
    forall e | e in live && e.lo !in todo - {i} && e !in Marked(edges')
      ensures Support(live, e) >= k - 2
    {
      if e.lo == i {
        assert e !in Marked(edges) && !IsWeak(k, edges, e);
        assert CountOf(edges)(e) >= k - 2;
      }
    }
  }

  lemma {:induction false} StruckFits(live: set<Edge>, chosen: set<Edge>, todo: set<nat>,
                   checks: multiset<Wedge>, acks: multiset<Wedge>, struck: set<Wedge>, e: Edge)
    requires Mail(live, chosen, todo, checks, acks, struck)
    ensures |Owned(struck, acks, e)| <= Support(live, e)
    ensures |Leaning(struck, e)| <= |Leaning(TrianglesOf(live), e)|
  {
    forall t | t in struck
      ensures t in TrianglesOf(live)
    {
      assert Sent(live, chosen, todo, t);
    }
    SubsetSize(Owned(struck, acks, e), Through(TrianglesOf(live), e));
    SubsetSize(Leaning(struck, e), Leaning(TrianglesOf(live), e));
  }

  lemma {:induction false} MemoryAfterCheck(inbound: map<Edge, nat>, struck: set<Wedge>, w: Wedge, e: Edge)
    requires w !in struck && Inbound(inbound, w.Left()) >= 1
    ensures Inbound(DropInbound(inbound, w.Left()), e) + |Leaning(struck + {w}, e)|
            == Inbound(inbound, e) + |Leaning(struck, e)|
  {
    hide Leaning;
    LeaningAdd(struck, w, e);
  }

  /** A closed wedge takes one off the closing edge and off the memory of its apex. */
  lemma {:induction false} CheckDeducted(live: set<Edge>, edges: EdgeMap, edges': EdgeMap, inbound: map<Edge, nat>,
                      acks: multiset<Wedge>, struck: set<Wedge>, w: Wedge)
    requires Deducted(live, edges, inbound, acks, struck)
    requires w !in struck && w.Left() != w.Closing() && w.Right() != w.Closing()
    requires forall t | t in acks :: t in struck
    requires forall x :: CountOf(edges')(x) + (if x == w.Closing() then 1 else 0) == CountOf(edges)(x)
    requires Inbound(inbound, w.Left()) >= 1
    ensures Deducted(live, edges', DropInbound(inbound, w.Left()), acks + multiset{w}, struck + {w})
  {
    hide CountOf, Owned, Support, Inbound, DropInbound, Leaning, TrianglesOf;
    forall e | e in live
      ensures CountOf(edges')(e) + |Owned(struck + {w}, acks + multiset{w}, e)| == Support(live, e)
    {
      OwnedCheck(struck, acks, w, e);
    }
    forall e
      ensures Inbound(DropInbound(inbound, w.Left()), e) + |Leaning(struck + {w}, e)|
              >= |Leaning(TrianglesOf(live), e)|
    {
      MemoryAfterCheck(inbound, struck, w, e);
    }
  }

  lemma {:induction false} AckDeducted(live: set<Edge>, edges: EdgeMap, edges': EdgeMap, inbound: map<Edge, nat>,
                    acks: multiset<Wedge>, struck: set<Wedge>, w: Wedge)
    requires Deducted(live, edges, inbound, acks, struck)
    requires w in struck && acks[w] == 1 && w.Left() != w.Closing() && w.Right() != w.Closing()
    requires forall x ::
      CountOf(edges')(x) + (if x == w.Right() || x == w.Left() then 1 else 0) == CountOf(edges)(x)
    ensures Deducted(live, edges', inbound, acks - multiset{w}, struck)
  {
    forall e | e in live
      ensures CountOf(edges')(e) + |Owned(struck, acks - multiset{w}, e)| == Support(live, e)
    {
      OwnedAck(struck, acks, w, e);
    }
  }

  /** No counter is zero when it is decremented. */
  lemma {:induction false} NothingClamps(live: set<Edge>, chosen: set<Edge>, todo: set<nat>, edges: EdgeMap, inbound: map<Edge, nat>,
                      checks: multiset<Wedge>, acks: multiset<Wedge>, struck: set<Wedge>, w: Wedge)
    requires Mail(live, chosen, todo, checks, acks, struck) && Deducted(live, edges, inbound, acks, struck)
    requires w.In(live) && w.Left() != w.Closing() && w.Right() != w.Closing()
    ensures w in checks ==> CountOf(edges)(w.Closing()) >= 1 && Inbound(inbound, w.Left()) >= 1
    ensures w in acks ==> CountOf(edges)(w.Left()) >= 1 && CountOf(edges)(w.Right()) >= 1
  {
    if w in checks {
      CheckMail(live, chosen, todo, checks, acks, struck, w);
      OwnedCheck(struck, acks, w, w.Closing());
      LeaningAdd(struck, w, w.Left());
      StruckFits(live, chosen, todo, checks - multiset{w}, acks + multiset{w}, struck + {w}, w.Closing());
      StruckFits(live, chosen, todo, checks - multiset{w}, acks + multiset{w}, struck + {w}, w.Left());
    }
    if w in acks {
      assert w in struck && acks[w] == 1;
      AckMail(live, chosen, todo, checks, acks, struck, w);
      OwnedAck(struck, acks, w, w.Left());
      OwnedAck(struck, acks, w, w.Right());
      StruckFits(live, chosen, todo, checks, acks - multiset{w}, struck, w.Left());
      StruckFits(live, chosen, todo, checks, acks - multiset{w}, struck, w.Right());
    }
  }

  /** What the wedge pass keeps at every moment. */
  ghost predicate Deleting(degree: nat -> nat, k: int, live: set<Edge>, keep: set<Edge>, todo: set<nat>,
                           edges: EdgeMap, inbound: map<Edge, nat>, checks: multiset<Wedge>,
                           acks: multiset<Wedge>, struck: set<Wedge>) {
    && Mail(live, Marked(edges), todo, checks, acks, struck)
    && Pruning(degree, k, live, keep, edges, todo)
    && Deducted(live, edges, inbound, acks, struck)
  }

  lemma {:induction false} DeletingStart(degree: nat -> nat, k: int, live: set<Edge>, keep: set<Edge>, todo: set<nat>,
                      edges: EdgeMap, inbound: map<Edge, nat>)
    requires Settled(degree, live, edges, inbound) && keep <= live && Cohesive(k, keep)
    requires forall e | e in edges :: e.lo in todo
    ensures Deleting(degree, k, live, keep, todo, edges, inbound, multiset{}, multiset{}, {})
  {
    assert Marked(edges) == {};
    assert forall e :: Owned({}, multiset{}, e) == {} && Leaning({}, e) == {};
  }

  /** The marked out-edges of i are those just chosen for deletion. */
  lemma {:induction false} ChosenAtStart(k: int, edges: EdgeMap, edges': EdgeMap, i: nat, toDelete: set<Edge>)
    requires Marks(k, edges, i, edges')
    requires forall e :: e in toDelete <==> e.lo == i && IsWeak(k, edges, e)
    requires forall e | e in Marked(edges) :: e.lo != i
    ensures WedgesAt(edges', i, toDelete) == WedgesAt(edges', i, Marked(edges'))
    ensures toDelete == {} ==> WedgesAt(edges', i, toDelete) == {}
  {
    forall e: Edge | e.lo == i
      ensures e in toDelete <==> e in Marked(edges')
    {
      assert e in edges' <==> e in edges'.Keys;
    }
    forall w
      ensures IsWedgeAt(edges', i, toDelete, w) <==> IsWedgeAt(edges', i, Marked(edges'), w)
    {
      assert w.apex == i ==> w.Left().lo == i && w.Right().lo == i;
    }
  }

  /** Start of a vertex: mark its weak out-edges and ask about the pairs they belong to. */
  method StartDeleting(ghost degree: nat -> nat, k: int, ghost live: set<Edge>, ghost keep: set<Edge>,
                       ghost todo: set<nat>, edges: EdgeMap, ghost inbound: map<Edge, nat>,
                       checks: multiset<Wedge>, ghost acks: multiset<Wedge>, ghost struck: set<Wedge>, i: nat)
    returns (edges': EdgeMap, checks': multiset<Wedge>)
    requires Deleting(degree, k, live, keep, todo, edges, inbound, checks, acks, struck) && i in todo
    ensures Deleting(degree, k, live, keep, todo - {i}, edges', inbound, checks', acks, struck)
    ensures |todo - {i}| < |todo| && edges'.Keys == edges.Keys
  {
    hide *;
    FewerLeft(todo, i);
    var toDelete;
    edges', toDelete := MarkWeak(k, edges, i);
    MarksKeys(k, edges, i, edges');
    checks' := checks;
    if toDelete != {} {
      checks' := QueueWedges(edges', i, toDelete, checks);
    }
    StartDeletingKeeps(degree, k, live, keep, todo, edges, edges', inbound, checks, acks, struck, i, toDelete);
    if toDelete == {} {
      assert checks + multiset(WedgesAt(edges', i, toDelete)) == checks;
    }
  }

  lemma {:induction false} MarksKeys(k: int, edges: EdgeMap, i: nat, edges': EdgeMap)
    requires Marks(k, edges, i, edges')
    ensures edges'.Keys == edges.Keys
  {
  }

  lemma {:induction false} FewerLeft(todo: set<nat>, i: nat)
    requires i in todo
    ensures |todo - {i}| < |todo|
  {
  }

  lemma {:induction false} StartDeletingKeeps(degree: nat -> nat, k: int, live: set<Edge>, keep: set<Edge>, todo: set<nat>,
                           edges: EdgeMap, edges': EdgeMap, inbound: map<Edge, nat>, checks: multiset<Wedge>,
                           acks: multiset<Wedge>, struck: set<Wedge>, i: nat, toDelete: set<Edge>)
    requires Deleting(degree, k, live, keep, todo, edges, inbound, checks, acks, struck) && i in todo
    requires Marks(k, edges, i, edges')
    requires forall e :: e in toDelete <==> e.lo == i && IsWeak(k, edges, e)
    ensures toDelete == {} ==> WedgesAt(edges', i, toDelete) == {}
    ensures Deleting(degree, k, live, keep, todo - {i}, edges', inbound,
                     checks + multiset(WedgesAt(edges', i, toDelete)), acks, struck)
  {
    hide Mail, Pruning, Deducted, Live, Marked, Oriented, WedgesAt, Marks;
    MarkFacts(degree, k, live, keep, todo, edges, edges', inbound, acks, struck, i);
    ChosenAtStart(k, edges, edges', i, toDelete);
    StartMail(degree, live, Marked(edges), Marked(edges'), edges', i, todo, checks, acks, struck);
    StartPruning(degree, k, live, keep, edges, edges', i, todo, checks, acks, struck);
  }

  lemma {:induction false} MarkFacts(degree: nat -> nat, k: int, live: set<Edge>, keep: set<Edge>, todo: set<nat>,
                  edges: EdgeMap, edges': EdgeMap, inbound: map<Edge, nat>, acks: multiset<Wedge>,
                  struck: set<Wedge>, i: nat)
    requires Pruning(degree, k, live, keep, edges, todo) && Deducted(live, edges, inbound, acks, struck)
    requires Marks(k, edges, i, edges') && i in todo
    ensures forall e | e in Marked(edges) :: e.lo != i
    ensures Live(edges') == live && Oriented(degree, edges')
    ensures forall e: Edge | e.lo != i :: e in Marked(edges) <==> e in Marked(edges')
    ensures forall e | e in live :: CountOf(edges)(e) + |Owned(struck, acks, e)| == Support(live, e)
    ensures Deducted(live, edges', inbound, acks, struck)
  {
    MarksEffect(degree, k, edges, i, edges');
  }

  lemma {:induction false} PruningShape(degree: nat -> nat, k: int, live: set<Edge>, keep: set<Edge>, edges: EdgeMap, edges': EdgeMap,
                     todo: set<nat>)
    requires Pruning(degree, k, live, keep, edges, todo)
    requires Live(edges') == Live(edges) && Marked(edges') == Marked(edges) && Oriented(degree, edges')
    ensures Pruning(degree, k, live, keep, edges', todo)
  {
  }

  lemma {:induction false} DeletingFacts(degree: nat -> nat, k: int, live: set<Edge>, keep: set<Edge>, todo: set<nat>,
                      edges: EdgeMap, inbound: map<Edge, nat>, checks: multiset<Wedge>,
                      acks: multiset<Wedge>, struck: set<Wedge>, w: Wedge)
    requires Deleting(degree, k, live, keep, todo, edges, inbound, checks, acks, struck)
    requires (w in checks && Closes(edges, w)) || w in acks
    ensures Live(edges) == live && Oriented(degree, edges)
    ensures Mail(live, Marked(edges), todo, checks, acks, struck)
    ensures Pruning(degree, k, live, keep, edges, todo)
    ensures Deducted(live, edges, inbound, acks, struck)
    ensures w.In(live) && w.Left() in edges && w.Right() in edges && w.Closing() in edges
    ensures if w in checks then w !in struck else w in struck && acks[w] == 1
    ensures forall t | t in acks :: t in struck
    ensures w.Left() != w.Closing() && w.Right() != w.Closing() && w.Left() != w.Right()
  {
    assert w in checks ==> w.Closing() in live;
    SpokesDiffer(degree, live, Marked(edges), todo, checks, acks, struck, w);
  }

  /** A closed wedge takes one off the closing edge and off what is remembered; neither was zero. */
  lemma {:induction false} CheckDeletes(degree: nat -> nat, k: int, live: set<Edge>, keep: set<Edge>, todo: set<nat>,
                     edges: EdgeMap, inbound: map<Edge, nat>, checks: multiset<Wedge>,
                     acks: multiset<Wedge>, struck: set<Wedge>, w: Wedge)
    requires Deleting(degree, k, live, keep, todo, edges, inbound, checks, acks, struck)
    requires w in checks && Closes(edges, w)
    ensures Inbound(inbound, w.Left()) >= 1 && CountOf(edges)(w.Closing()) >= 1
    ensures w.Closing() in edges
    ensures Deleting(degree, k, live, keep, todo, Drop(edges, w.Closing()), DropInbound(inbound, w.Left()),
                     checks - multiset{w}, acks + multiset{w}, struck + {w})
  {
    hide Mail, Pruning, Deducted, Oriented, Live, Marked, CountOf, Drop, DropInbound, Inbound, Closes, Owned, Leaning;
    DeletingFacts(degree, k, live, keep, todo, edges, inbound, checks, acks, struck, w);
    var edges', chosen := Drop(edges, w.Closing()), Marked(edges);
    NothingClamps(live, chosen, todo, edges, inbound, checks, acks, struck, w);
    DropEffect(degree, edges, w.Closing());
    PruningShape(degree, k, live, keep, edges, edges', todo);
    CheckMail(live, chosen, todo, checks, acks, struck, w);
    CheckDeducted(live, edges, edges', inbound, acks, struck, w);
  }

  lemma {:induction false} AckDeletes(degree: nat -> nat, k: int, live: set<Edge>, keep: set<Edge>, todo: set<nat>,
                   edges: EdgeMap, inbound: map<Edge, nat>, checks: multiset<Wedge>,
                   acks: multiset<Wedge>, struck: set<Wedge>, w: Wedge)
    requires Deleting(degree, k, live, keep, todo, edges, inbound, checks, acks, struck) && w in acks
    ensures w.Right() in edges && w.Left() in Drop(edges, w.Right())
    ensures CountOf(edges)(w.Right()) >= 1 && CountOf(Drop(edges, w.Right()))(w.Left()) >= 1
    ensures Deleting(degree, k, live, keep, todo, Drop(Drop(edges, w.Right()), w.Left()), inbound,
                     checks, acks - multiset{w}, struck)
  {
    hide Mail, Pruning, Deducted, Oriented, Live, Marked, CountOf, Inbound, Closes, Owned, Leaning;
    DeletingFacts(degree, k, live, keep, todo, edges, inbound, checks, acks, struck, w);
    var half, chosen := Drop(edges, w.Right()), Marked(edges);
    assert w.Left() in half;
    hide Drop;
    NothingClamps(live, chosen, todo, edges, inbound, checks, acks, struck, w);
    DropEffect(degree, edges, w.Right());
    DropEffect(degree, half, w.Left());
    var edges' := Drop(half, w.Left());
    PruningShape(degree, k, live, keep, edges, edges', todo);
    AckMail(live, chosen, todo, checks, acks, struck, w);
    AckDeducted(live, edges, edges', inbound, acks, struck, w);
  }

  /** Handler of a delete request. */
  method ReceiveDelete(ghost degree: nat -> nat, ghost k: int, ghost live: set<Edge>, ghost keep: set<Edge>,
                       ghost todo: set<nat>, edges: EdgeMap, inbound: map<Edge, nat>, ghost checks: multiset<Wedge>,
                       acks: multiset<Wedge>, ghost struck: set<Wedge>, w: Wedge)
    returns (edges': EdgeMap, inbound': map<Edge, nat>, acks': multiset<Wedge>, ghost struck': set<Wedge>)
    requires Deleting(degree, k, live, keep, todo, edges, inbound, checks, acks, struck) && w in checks
    ensures Deleting(degree, k, live, keep, todo, edges', inbound', checks - multiset{w}, acks', struck')
    ensures |checks - multiset{w}| < |checks| && edges'.Keys == edges.Keys
  {
    edges', inbound', acks', struck' := edges, inbound, acks, struck;
    assert |checks - multiset{w}| < |checks|;
    if Closes(edges, w) {
      hide *;
      CheckDeletes(degree, k, live, keep, todo, edges, inbound, checks, acks, struck, w);
      edges' := Drop(edges, w.Closing());
      inbound' := DropInbound(inbound, w.Left());
      acks' := acks + multiset{w};
      struck' := struck + {w};
    } else {
      CheckMissing(degree, k, live, keep, todo, edges, inbound, checks, acks, struck, w);
    }
  }

  lemma {:induction false} CheckMissing(degree: nat -> nat, k: int, live: set<Edge>, keep: set<Edge>, todo: set<nat>,
                     edges: EdgeMap, inbound: map<Edge, nat>, checks: multiset<Wedge>,
                     acks: multiset<Wedge>, struck: set<Wedge>, w: Wedge)
    requires Deleting(degree, k, live, keep, todo, edges, inbound, checks, acks, struck)
    requires w in checks && !Closes(edges, w)
    ensures Deleting(degree, k, live, keep, todo, edges, inbound, checks - multiset{w}, acks, struck)
  {
    assert w.Closing() !in live;
    assert Mail(live, Marked(edges), todo, checks, acks, struck);
    hide *;
    CheckMail(live, Marked(edges), todo, checks, acks, struck, w);
  }

  /** Handler of the acknowledgement of a delete request. */
  method ReceiveDeleted(ghost degree: nat -> nat, ghost k: int, ghost live: set<Edge>, ghost keep: set<Edge>,
                        ghost todo: set<nat>, edges: EdgeMap, ghost inbound: map<Edge, nat>,
                        ghost checks: multiset<Wedge>, ghost acks: multiset<Wedge>, ghost struck: set<Wedge>, w: Wedge)
    returns (edges': EdgeMap)
    requires Deleting(degree, k, live, keep, todo, edges, inbound, checks, acks, struck) && w in acks
    ensures Deleting(degree, k, live, keep, todo, edges', inbound, checks, acks - multiset{w}, struck)
    ensures |acks - multiset{w}| < |acks| && edges'.Keys == edges.Keys
  {
    hide *;
    AckDeletes(degree, k, live, keep, todo, edges, inbound, checks, acks, struck, w);
    edges' := Drop(Drop(edges, w.Right()), w.Left());
    assert |acks - multiset{w}| < |acks|;
  }

  /** Triangles with a marked spoke. */
  ghost function Spoked(live: set<Edge>, marked: set<Edge>): set<Wedge> {
    set t | t in TrianglesOf(live) && (t.Left() in marked || t.Right() in marked)
  }

  /** What the wedge pass leaves: exactly the triangles with a marked spoke are subtracted, everywhere. */
  ghost predicate Spent(degree: nat -> nat, k: int, live: set<Edge>, keep: set<Edge>,
                        edges: EdgeMap, inbound: map<Edge, nat>) {
    && Pruning(degree, k, live, keep, edges, {})
    && (forall e | e in live ::
          CountOf(edges)(e) + |Through(Spoked(live, Marked(edges)), e)| == Support(live, e))
    && Remembers(inbound, TrianglesOf(live) - Spoked(live, Marked(edges)))
  }

  lemma {:induction false} LeaningLess(all: set<Wedge>, struck: set<Wedge>, e: Edge)
    requires struck <= all
    ensures |Leaning(all - struck, e)| + |Leaning(struck, e)| == |Leaning(all, e)|
  {
    assert Leaning(all - struck, e) == Leaning(all, e) - Leaning(struck, e);
    assert Leaning(struck, e) <= Leaning(all, e);
  }

  lemma {:induction false} DeletingDone(degree: nat -> nat, k: int, live: set<Edge>, keep: set<Edge>, edges: EdgeMap,
                     inbound: map<Edge, nat>, struck: set<Wedge>)
    requires Deleting(degree, k, live, keep, {}, edges, inbound, multiset{}, multiset{}, struck)
    ensures Spent(degree, k, live, keep, edges, inbound)
  {
    var all, marked := TrianglesOf(live), Marked(edges);
    hide Pruning, Mail, TrianglesOf, CountOf, Inbound, Support, Through, Owned, Leaning, Marked;
    MailDone(live, marked, struck, Edge(0, 0));
    assert struck == Spoked(live, marked);
    forall e | e in live
      ensures CountOf(edges)(e) + |Through(struck, e)| == Support(live, e)
    {
      MailDone(live, marked, struck, e);
    }
    forall e
      ensures Inbound(inbound, e) >= |Leaning(all - struck, e)|
    {
      LeaningLess(all, struck, e);
    }
  }

  method WedgePass(ghost degree: nat -> nat, k: int, ghost live: set<Edge>, ghost keep: set<Edge>,
                   vertices: set<nat>, edges0: EdgeMap, inbound0: map<Edge, nat>)
    returns (edges: EdgeMap, inbound: map<Edge, nat>)
    requires Settled(degree, live, edges0, inbound0) && keep <= live && Cohesive(k, keep)
    requires forall e | e in edges0 :: e.lo in vertices
    ensures Spent(degree, k, live, keep, edges, inbound) && edges.Keys == edges0.Keys
  {
    edges, inbound := edges0, inbound0;
    var todo, checks, acks := vertices, multiset{}, multiset{};
    ghost var struck := {};
    hide *;
    DeletingStart(degree, k, live, keep, todo, edges, inbound);
    while todo != {} || |checks| > 0 || |acks| > 0
      invariant Deleting(degree, k, live, keep, todo, edges, inbound, checks, acks, struck)
      invariant edges.Keys == edges0.Keys
      decreases |todo|, |checks|, |acks|
    {
      if
      case todo != {} =>
        var i :| i in todo;
        edges, checks := StartDeleting(degree, k, live, keep, todo, edges, inbound, checks, acks, struck, i);
        todo := todo - {i};
      case |checks| > 0 =>
        var w :| w in checks;
        edges, inbound, acks, struck :=
          ReceiveDelete(degree, k, live, keep, todo, edges, inbound, checks, acks, struck, w);
        checks := checks - multiset{w};
      case |acks| > 0 =>
        var w :| w in acks;
        edges := ReceiveDeleted(degree, k, live, keep, todo, edges, inbound, checks, acks, struck, w);
        acks := acks - multiset{w};
    }
    DeletingDone(degree, k, live, keep, edges, inbound, struck);
  }

  // The unrolling pass

  /** A triangle that only loses its closing edge; the wedge pass has not subtracted it. */
  predicate Lost(live: set<Edge>, marked: set<Edge>, t: Wedge) {
    t.In(live) && t.Left() !in marked && t.Right() !in marked && t.Closing() in marked
  }

  ghost predicate NoteMail(live: set<Edge>, marked: set<Edge>, todo: set<nat>,
                           notes: multiset<Wedge>, told: set<Wedge>) {
    && Once(notes)
    && (forall w | w in notes :: w !in told && w.near !in todo && w.Closing() in marked)
    && (forall t | t in told :: Lost(live, marked, t) && t.near !in todo)
    && (forall t | Lost(live, marked, t) && t.near !in todo :: t in notes || t in told)
  }

  /** A vertex tells every remembered apex about every marked out-edge. */
  predicate IsNoteAt(edges: EdgeMap, inbound: map<Edge, nat>, j: nat, w: Wedge) {
    w.near == j && w.Left() in inbound &&
    w.Closing() in edges && !edges[w.Closing()].deleted && edges[w.Closing()].marked
  }

  function NotesAt(edges: EdgeMap, inbound: map<Edge, nat>, j: nat): (ws: set<Wedge>)
    ensures forall w :: w in ws <==> IsNoteAt(edges, inbound, j, w)
  {
    var ws := set e, f | e in edges && f in inbound && IsNoteAt(edges, inbound, j, Wedge(f.lo, j, e.hi))
                :: Wedge(f.lo, j, e.hi);
    assert forall w: Wedge | IsNoteAt(edges, inbound, j, w) :: w == Wedge(w.Left().lo, j, w.Closing().hi);
    ws
  }

  /** One deleted edge is announced to every remembered apex. */
  method NoteEdge(edges: EdgeMap, inbound: map<Edge, nat>, j: nat, e: Edge, notes: multiset<Wedge>)
    returns (sent: multiset<Wedge>)
    requires e in edges && e.lo == j && !edges[e].deleted && edges[e].marked
    ensures forall w :: sent[w] == notes[w] + if IsNoteAt(edges, inbound, j, w) && w.Closing() == e then 1 else 0
  {
    sent := notes;
    var all := set f | f in inbound && f.hi == j;
    var inner := all;
    while inner != {}
      invariant inner <= all
      invariant forall w ::
        sent[w] == notes[w] + (if IsNoteAt(edges, inbound, j, w) && w.Closing() == e && w.Left() !in inner then 1 else 0)
    {
      var f :| f in inner;
      inner := inner - {f};
      sent := sent + multiset{Wedge(f.lo, j, e.hi)};
    }
  }

  method QueueNotes(edges: EdgeMap, inbound: map<Edge, nat>, j: nat, notes: multiset<Wedge>)
    returns (sent: multiset<Wedge>)
    ensures sent == notes + multiset(NotesAt(edges, inbound, j))
  {
    sent := notes;
    var outer := set e | e in edges && e.lo == j;
    while outer != {}
      invariant forall e | e in outer :: e in edges && e.lo == j
      invariant forall w ::
        sent[w] == notes[w] + (if IsNoteAt(edges, inbound, j, w) && w.Closing() !in outer then 1 else 0)
    {
      var e :| e in outer;
      if !edges[e].deleted && edges[e].marked {
        sent := NoteEdge(edges, inbound, j, e, sent);
      }
      outer := outer - {e};
    }
  }

  /** Counts of the edges that stay, without the spoked triangles and those told. */
  ghost predicate Relieved(live: set<Edge>, marked: set<Edge>, edges: EdgeMap, told: set<Wedge>) {
    forall e | e in live && e !in marked ::
      CountOf(edges)(e) + |Through(Spoked(live, marked), e)| + |Through(told, e)| == Support(live, e)
  }

  ghost predicate Unrolling(degree: nat -> nat, live: set<Edge>, marked: set<Edge>, todo: set<nat>,
                            edges: EdgeMap, notes: multiset<Wedge>, told: set<Wedge>) {
    && Live(edges) == live && Marked(edges) == marked && Oriented(degree, edges)
    && NoteMail(live, marked, todo, notes, told)
    && Relieved(live, marked, edges, told)
  }

  lemma {:induction false} UnrollStart(degree: nat -> nat, k: int, live: set<Edge>, keep: set<Edge>, edges: EdgeMap,
                    inbound: map<Edge, nat>, vertices: set<nat>)
    requires Spent(degree, k, live, keep, edges, inbound)
    requires forall e | e in live :: e.lo in vertices
    ensures Unrolling(degree, live, Marked(edges), vertices, edges, multiset{}, {})
  {
    var marked := Marked(edges);
    forall t
      ensures !(Lost(live, marked, t) && t.near !in vertices)
    {
      if Lost(live, marked, t) {
        assert t.Closing().lo in vertices;
      }
    }
    assert forall e :: Through({}, e) == {};
  }

  lemma {:induction false} StartNotes(live: set<Edge>, marked: set<Edge>, todo: set<nat>, edges: EdgeMap, inbound: map<Edge, nat>,
                   notes: multiset<Wedge>, told: set<Wedge>, j: nat)
    requires NoteMail(live, marked, todo, notes, told) && j in todo
    requires Marked(edges) == marked
    requires Remembers(inbound, TrianglesOf(live) - Spoked(live, marked))
    ensures NoteMail(live, marked, todo - {j}, notes + multiset(NotesAt(edges, inbound, j)), told)
  {
    var ws := NotesAt(edges, inbound, j);
    forall w: Wedge
      ensures w in ws ==> w.near == j && w.Closing() in marked
      ensures Lost(live, marked, w) && w.near == j ==> w in ws
    {
      if Lost(live, marked, w) && w.near == j {
        assert w in Leaning(TrianglesOf(live) - Spoked(live, marked), w.Left());
        assert Inbound(inbound, w.Left()) >= 1;
        assert IsNoteAt(edges, inbound, j, w);
      }
    }
    hide NotesAt, Lost, Marked, Remembers, TrianglesOf;
  }

  predicate Spares(edges: EdgeMap, w: Wedge) {
    && w.Left() in edges && w.Right() in edges
    && !(edges[w.Left()].marked || edges[w.Right()].marked || edges[w.Left()].deleted || edges[w.Right()].deleted)
  }

  lemma {:induction false} NoteFits(live: set<Edge>, marked: set<Edge>, told: set<Wedge>, w: Wedge, e: Edge)
    requires Lost(live, marked, w) && w !in told && forall t | t in told :: Lost(live, marked, t)
    ensures |Through(told + {w}, e)| == |Through(told, e)| + if w.Has(e) then 1 else 0
    ensures |Through(Spoked(live, marked), e)| + |Through(told + {w}, e)| <= Support(live, e)
  {
    TallyAdd(told, w, e);
    var spoked, more, all := Through(Spoked(live, marked), e), Through(told + {w}, e), Through(TrianglesOf(live), e);
    assert spoked !! more && spoked <= all && more <= all;
    hide Through, Spoked, Lost, TrianglesOf;
    DisjointSizes(spoked, more, all);
  }

  lemma {:induction false} NoteRelieves(degree: nat -> nat, live: set<Edge>, marked: set<Edge>, edges: EdgeMap, edges': EdgeMap,
                     told: set<Wedge>, w: Wedge)
    requires Relieved(live, marked, edges, told)
    requires Lost(live, marked, w) && w !in told && forall t | t in told :: Lost(live, marked, t)
    requires forall x ::
      CountOf(edges')(x) + (if x == w.Right() || x == w.Left() then 1 else 0) == CountOf(edges)(x)
    ensures Relieved(live, marked, edges', told + {w})
  {
    forall e | e in live && e !in marked
      ensures CountOf(edges')(e) + |Through(Spoked(live, marked), e)| + |Through(told + {w}, e)| == Support(live, e)
    {
      NoteFits(live, marked, told, w, e);
    }
  }

  lemma {:induction false} NoteMailStep(live: set<Edge>, marked: set<Edge>, todo: set<nat>,
                     notes: multiset<Wedge>, told: set<Wedge>, w: Wedge)
    requires NoteMail(live, marked, todo, notes, told) && w in notes
    ensures w !in told && w.Closing() in marked && forall t | t in told :: Lost(live, marked, t)
    ensures NoteMail(live, marked, todo, notes - multiset{w}, if Lost(live, marked, w) then told + {w} else told)
    ensures |notes - multiset{w}| < |notes|
  {
  }

  lemma {:induction false} SparesLost(degree: nat -> nat, edges: EdgeMap, w: Wedge)
    requires Oriented(degree, edges) && w.Closing() in Marked(edges)
    ensures Spares(edges, w) <==> Lost(Live(edges), Marked(edges), w)
    ensures Spares(edges, w) ==> w.Left() != w.Right()
  {
  }

  /** No counter is zero when the unrolling pass decrements it. */
  lemma {:induction false} NoteDrops(degree: nat -> nat, live: set<Edge>, marked: set<Edge>, edges: EdgeMap, told: set<Wedge>, w: Wedge)
    requires Live(edges) == live && Marked(edges) == marked && Oriented(degree, edges)
    requires Relieved(live, marked, edges, told)
    requires Lost(live, marked, w) && w !in told && w.Left() != w.Right() && forall t | t in told :: Lost(live, marked, t)
    ensures w.Left() in edges && w.Right() in Drop(edges, w.Left())
    ensures CountOf(edges)(w.Left()) >= 1 && CountOf(edges)(w.Right()) >= 1
    ensures var edges' := Drop(Drop(edges, w.Left()), w.Right());
      Live(edges') == live && Marked(edges') == marked && Oriented(degree, edges') && SameShape(edges, edges') &&
      Relieved(live, marked, edges', told + {w})
  {
    assert w.Left() in edges && w.Right() in edges && w.Right() in Drop(edges, w.Left());
    NoteFits(live, marked, told, w, w.Left());
    NoteFits(live, marked, told, w, w.Right());
    assert CountOf(edges)(w.Left()) >= 1 && CountOf(edges)(w.Right()) >= 1;
    hide Live, Marked, Oriented, SameShape, Relieved, CountOf, Lost, Drop;
    DropEffect(degree, edges, w.Left());
    var half := Drop(edges, w.Left());
    DropEffect(degree, half, w.Right());
    SameShapeTransitive(edges, half, Drop(half, w.Right()));
    NoteRelieves(degree, live, marked, edges, Drop(half, w.Right()), told, w);
  }

  /** Handler of a note about a deleted closing edge. */
  method ReceiveNote(ghost degree: nat -> nat, ghost live: set<Edge>, ghost marked: set<Edge>, ghost todo: set<nat>,
                     edges: EdgeMap, ghost notes: multiset<Wedge>, ghost told: set<Wedge>, w: Wedge)
    returns (edges': EdgeMap, ghost told': set<Wedge>)
    requires Unrolling(degree, live, marked, todo, edges, notes, told) && w in notes
    ensures Unrolling(degree, live, marked, todo, edges', notes - multiset{w}, told')
    ensures SameShape(edges, edges') && |notes - multiset{w}| < |notes|
  {
    edges', told' := edges, told;
    assert SameShape(edges, edges);
    hide Live, Marked, Oriented, SameShape, Relieved, NoteMail, Lost, Spares, Drop, CountOf;
    NoteMailStep(live, marked, todo, notes, told, w);
    SparesLost(degree, edges, w);
    if Spares(edges, w) {
      NoteDrops(degree, live, marked, edges, told, w);
      edges' := Drop(Drop(edges, w.Left()), w.Right());
      told' := told + {w};
    }
  }

  lemma {:induction false} TrianglesLeft(live: set<Edge>, marked: set<Edge>, told: set<Wedge>)
    requires forall t :: t in told <==> Lost(live, marked, t)
    ensures TrianglesOf(live) == TrianglesOf(live - marked) + Spoked(live, marked) + told
    ensures TrianglesOf(live - marked) !! Spoked(live, marked) + told && Spoked(live, marked) !! told
  {
    forall t
      ensures t in TrianglesOf(live) <==> t in TrianglesOf(live - marked) || t in Spoked(live, marked) || t in told
      ensures t in TrianglesOf(live - marked) ==> t !in Spoked(live, marked) && t !in told
      ensures t in Spoked(live, marked) ==> t !in told
    {
    }
  }

  lemma {:induction false} ThroughParts(a: set<Wedge>, b: set<Wedge>, c: set<Wedge>, e: Edge)
    requires a !! b + c && b !! c
    ensures |Through(a + b + c, e)| == |Through(a, e)| + |Through(b, e)| + |Through(c, e)|
  {
    assert Through(a + b + c, e) == Through(a, e) + Through(b, e) + Through(c, e);
  }

  lemma {:induction false} UnrollDone(degree: nat -> nat, live: set<Edge>, marked: set<Edge>, edges: EdgeMap, told: set<Wedge>, e: Edge)
    requires Unrolling(degree, live, marked, {}, edges, multiset{}, told)
    requires e in live - marked
    ensures CountOf(edges)(e) == Support(live - marked, e)
  {
    assert forall t :: t in told <==> Lost(live, marked, t);
    assert CountOf(edges)(e) + |Through(Spoked(live, marked), e)| + |Through(told, e)| == Support(live, e);
    TrianglesLeft(live, marked, told);
    hide TrianglesOf, Spoked, Through, Lost, CountOf;
    ThroughParts(TrianglesOf(live - marked), Spoked(live, marked), told, e);
  }

  /** After both passes the counts of the edges that stay are exact among themselves. */
  method UnrollPass(ghost degree: nat -> nat, ghost k: int, ghost live: set<Edge>, ghost keep: set<Edge>,
                    vertices: set<nat>, edges0: EdgeMap, inbound: map<Edge, nat>)
    returns (edges: EdgeMap)
    requires Spent(degree, k, live, keep, edges0, inbound)
    requires forall e | e in edges0 :: e.lo in vertices
    ensures Pruning(degree, k, live, keep, edges, {})
    ensures edges.Keys == edges0.Keys
    ensures forall e | e in live - Marked(edges) :: CountOf(edges)(e) == Support(live - Marked(edges), e)
    ensures Remembers(inbound, TrianglesOf(live - Marked(edges)))
  {
    edges := edges0;
    var todo, notes := vertices, multiset{};
    ghost var marked, told := Marked(edges0), {};
    assert Pruning(degree, k, live, keep, edges0, {});
    assert Live(edges) == live && SameShape(edges0, edges);
    assert Remembers(inbound, TrianglesOf(live) - Spoked(live, marked));
    assert forall e | e in live :: e.lo in vertices;
    hide *;
    UnrollStart(degree, k, live, keep, edges, inbound, vertices);
    while todo != {} || |notes| > 0
      invariant Unrolling(degree, live, marked, todo, edges, notes, told)
      invariant SameShape(edges0, edges)
      decreases |todo|, |notes|
    {
      if
      case todo != {} =>
        var j :| j in todo;
        StartUnrolling(degree, live, marked, todo, edges, inbound, notes, told, j);
        notes := QueueNotes(edges, inbound, j, notes);
        todo := todo - {j};
      case |notes| > 0 =>
        var w :| w in notes;
        ghost var before := edges;
        edges, told := ReceiveNote(degree, live, marked, todo, edges, notes, told, w);
        SameShapeTransitive(edges0, before, edges);
        notes := notes - multiset{w};
    }
    UnrollResult(degree, k, live, keep, marked, edges0, edges, inbound, told);
    SameKeys(edges0, edges);
  }

  lemma {:induction false} SameKeys(edges0: EdgeMap, edges: EdgeMap)
    requires SameShape(edges0, edges)
    ensures edges0.Keys == edges.Keys
  {
  }

  lemma {:induction false} StartUnrolling(degree: nat -> nat, live: set<Edge>, marked: set<Edge>, todo: set<nat>, edges: EdgeMap,
                       inbound: map<Edge, nat>, notes: multiset<Wedge>, told: set<Wedge>, j: nat)
    requires Unrolling(degree, live, marked, todo, edges, notes, told) && j in todo
    requires Remembers(inbound, TrianglesOf(live) - Spoked(live, marked))
    ensures Unrolling(degree, live, marked, todo - {j}, edges, notes + multiset(NotesAt(edges, inbound, j)), told)
    ensures |todo - {j}| < |todo|
  {
    hide Live, Oriented, Relieved, NoteMail, Marked, Remembers;
    StartNotes(live, marked, todo, edges, inbound, notes, told, j);
  }

  lemma {:induction false} UnrollResult(degree: nat -> nat, k: int, live: set<Edge>, keep: set<Edge>, marked: set<Edge>, edges0: EdgeMap,
                     edges: EdgeMap, inbound: map<Edge, nat>, told: set<Wedge>)
    requires Pruning(degree, k, live, keep, edges0, {}) && marked == Marked(edges0)
    requires Unrolling(degree, live, marked, {}, edges, multiset{}, told)
    requires Remembers(inbound, TrianglesOf(live) - Spoked(live, marked))
    ensures Pruning(degree, k, live, keep, edges, {}) && Marked(edges) == marked
    ensures forall e | e in live - marked :: CountOf(edges)(e) == Support(live - marked, e)
    ensures Remembers(inbound, TrianglesOf(live - marked))
  {
    PruningShape(degree, k, live, keep, edges0, edges, {});
    forall e | e in live - marked
      ensures CountOf(edges)(e) == Support(live - marked, e)
    {
      UnrollDone(degree, live, marked, edges, told, e);
    }
    var few, more := TrianglesOf(live - marked), TrianglesOf(live) - Spoked(live, marked);
    forall t | t in few
      ensures t in more
    {
      assert t.In(live - marked);
      assert t.In(live);
    }
    forall e
      ensures Inbound(inbound, e) >= |Leaning(few, e)|
    {
      SubsetSize(Leaning(few, e), Leaning(more, e));
    }
  }
}
