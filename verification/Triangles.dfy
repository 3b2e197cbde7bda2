/**
 Degree-ordered edges and the triangles they close. Every undirected edge is kept once, at
 its lower end in the (degree, locator) order, so a triangle is a wedge at its least vertex
 together with the edge that closes it.
 */
module Triangles {
  import opened Collections

  datatype Edge = Edge(lo: nat, hi: nat)

  datatype Wedge = Wedge(apex: nat, near: nat, far: nat) {
    function Left(): Edge { Edge(apex, near) }

    function Right(): Edge { Edge(apex, far) }

    function Closing(): Edge { Edge(near, far) }

    predicate Has(e: Edge) { e == Left() || e == Right() || e == Closing() }

    predicate In(live: set<Edge>) { Left() in live && Right() in live && Closing() in live }
  }

  /** What the owner of the lower end stores about an edge. */
  datatype EdgeData = EdgeData(targetDegree: nat, count: nat, marked: bool, deleted: bool) {
    function Increment(): EdgeData { this.(count := count + 1) }

    /** Never goes below zero. */
    function Decrement(): EdgeData { if count > 0 then this.(count := count - 1) else this }
  }

  type EdgeMap = map<Edge, EdgeData>

  /** Whether vertex a comes after vertex b in the (degree, locator) order. */
  predicate OrderGt(degA: nat, degB: nat, a: nat, b: nat) {
    degA > degB || (degA == degB && b < a)
  }

  /** Every stored edge points upwards and carries the degree of its target. */
  ghost predicate Oriented(degree: nat -> nat, edges: EdgeMap) {
    forall e | e in edges ::
      edges[e].targetDegree == degree(e.hi) && OrderGt(degree(e.hi), degree(e.lo), e.hi, e.lo)
  }

  ghost predicate Upwards(degree: nat -> nat, live: set<Edge>) {
    forall e | e in live :: OrderGt(degree(e.hi), degree(e.lo), e.hi, e.lo)
  }

  function Live(edges: EdgeMap): set<Edge> {
    set e | e in edges && !edges[e].deleted
  }

  function Marked(edges: EdgeMap): set<Edge> {
    set e | e in edges && !edges[e].deleted && edges[e].marked
  }

  function TrianglesOf(live: set<Edge>): (ts: set<Wedge>)
    ensures forall t :: t in ts <==> t.In(live)
  {
    var ts := set e, f | e in live && f in live && e.lo == f.lo && Edge(e.hi, f.hi) in live
                :: Wedge(e.lo, e.hi, f.hi);
    assert forall t: Wedge | t.In(live) :: t == Wedge(t.Left().lo, t.Left().hi, t.Right().hi);
    ts
  }

  function Through(ts: set<Wedge>, e: Edge): set<Wedge> {
    set t | t in ts && t.Has(e)
  }

  function Support(live: set<Edge>, e: Edge): nat {
    |Through(TrianglesOf(live), e)|
  }

  /** The triangles whose lower spoke is e; their number is what the upper end of e remembers. */
  function Leaning(ts: set<Wedge>, e: Edge): set<Wedge> {
    set t | t in ts && t.Left() == e
  }

  /** Value of an entry of the map of inbound apexes, zero when it is absent. */
  function Inbound(inbound: map<Edge, nat>, e: Edge): nat {
    if e in inbound then inbound[e] else 0
  }

  lemma {:induction false} OrderIsStrictAndTotal(degree: nat -> nat, a: nat, b: nat, c: nat)
    ensures !OrderGt(degree(a), degree(a), a, a)
    ensures OrderGt(degree(a), degree(b), a, b) && OrderGt(degree(b), degree(c), b, c)
            ==> OrderGt(degree(a), degree(c), a, c)
    ensures a == b || OrderGt(degree(a), degree(b), a, b) || OrderGt(degree(b), degree(a), b, a)
    ensures degree(a) < degree(b) || (degree(a) == degree(b) && a < b) ==> OrderGt(degree(b), degree(a), b, a)
  {
  }

  lemma {:induction false} SupportMonotone(small: set<Edge>, large: set<Edge>, e: Edge)
    requires small <= large
    ensures Support(small, e) <= Support(large, e)
  {
    var s, l := Through(TrianglesOf(small), e), Through(TrianglesOf(large), e);
    assert forall t | t in s :: t.In(small);
    SubsetSize(s, l);
  }

  lemma {:induction false} DisjointSizes<T>(a: set<T>, b: set<T>, all: set<T>)
    requires a !! b && a <= all && b <= all
    ensures |a| + |b| <= |all|
  {
    SubsetSize(a + b, all);
  }

  // Sums over edges

  ghost function SumOver(s: set<Edge>, f: Edge -> nat): nat {
    if s == {} then 0 else
      var e :| e in s;
      f(e) + SumOver(s - {e}, f)
  }

  lemma {:induction false} SumOverRemove(s: set<Edge>, e: Edge, f: Edge -> nat)
    requires e in s
    ensures SumOver(s, f) == f(e) + SumOver(s - {e}, f)
    decreases |s|
  {
    var x :| x in s && SumOver(s, f) == f(x) + SumOver(s - {x}, f);
    if x != e {
      SumOverRemove(s - {x}, e, f);
      SumOverRemove(s - {e}, x, f);
      assert s - {x} - {e} == s - {e} - {x};
    }
  }

  lemma {:induction false} SumOverAdd(s: set<Edge>, e: Edge, f: Edge -> nat)
    requires e !in s
    ensures SumOver(s + {e}, f) == SumOver(s, f) + f(e)
    ensures |s + {e}| == |s| + 1
  {
    assert s + {e} - {e} == s;
    SumOverRemove(s + {e}, e, f);
  }

  lemma {:induction false} SumOverSame(s: set<Edge>, f: Edge -> nat, g: Edge -> nat)
    requires forall e | e in s :: f(e) == g(e)
    ensures SumOver(s, f) == SumOver(s, g)
  {
    if s != {} {
      var e :| e in s;
      SumOverRemove(s, e, f);
      SumOverRemove(s, e, g);
      SumOverSame(s - {e}, f, g);
    }
  }

  lemma {:induction false} SumOverZero(s: set<Edge>, f: Edge -> nat)
    requires forall e | e in s :: f(e) == 0
    ensures SumOver(s, f) == 0
  {
    if s != {} {
      var e :| e in s;
      SumOverRemove(s, e, f);
      SumOverZero(s - {e}, f);
    }
  }

  /** One more at each of three edges is three more in the sum. */
  lemma {:induction false} SumOverThree(s: set<Edge>, a: Edge, b: Edge, c: Edge, f: Edge -> nat, g: Edge -> nat)
    requires a in s && b in s && c in s && a != b && a != c && b != c
    requires forall x | x in s :: g(x) == f(x) + if x == a || x == b || x == c then 1 else 0
    ensures SumOver(s, g) == SumOver(s, f) + 3
  {
    var rest := s - {a} - {b} - {c};
    SumOverRemove(s, a, f);
    SumOverRemove(s - {a}, b, f);
    SumOverRemove(s - {a} - {b}, c, f);
    SumOverRemove(s, a, g);
    SumOverRemove(s - {a}, b, g);
    SumOverRemove(s - {a} - {b}, c, g);
    SumOverSame(rest, f, g);
  }

  lemma {:induction false} SumOverBump(s: set<Edge>, a: Edge, f: Edge -> nat, g: Edge -> nat)
    requires a in s
    requires forall x | x in s :: g(x) == f(x) + if x == a then 1 else 0
    ensures SumOver(s, g) == SumOver(s, f) + 1
  {
    SumOverRemove(s, a, f);
    SumOverRemove(s, a, g);
    SumOverSame(s - {a}, f, g);
  }

  function Tally(ts: set<Wedge>): Edge -> nat {
    e => |Through(ts, e)|
  }

  lemma {:induction false} TallyAdd(ts: set<Wedge>, t: Wedge, e: Edge)
    requires t !in ts
    ensures Tally(ts + {t})(e) == Tally(ts)(e) + if t.Has(e) then 1 else 0
  {
    if t.Has(e) {
      assert Through(ts + {t}, e) == Through(ts, e) + {t};
    } else {
      assert Through(ts + {t}, e) == Through(ts, e);
    }
  }

  lemma {:induction false} SidesDiffer(degree: nat -> nat, live: set<Edge>, t: Wedge)
    requires Upwards(degree, live) && t.In(live)
    ensures t.Left() != t.Right() && t.Left() != t.Closing() && t.Right() != t.Closing()
  {
    assert t.Left() in live && t.Closing() in live;
  }

  lemma {:induction false} ThreeMore(degree: nat -> nat, live: set<Edge>, rest: set<Wedge>, t: Wedge)
    requires Upwards(degree, live) && t.In(live) && t !in rest
    ensures SumOver(live, Tally(rest + {t})) == SumOver(live, Tally(rest)) + 3
  {
    SidesDiffer(degree, live, t);
    forall e | e in live
      ensures Tally(rest + {t})(e) == Tally(rest)(e) + if t.Has(e) then 1 else 0
    {
      TallyAdd(rest, t, e);
    }
    hide Tally, SumOver;
    SumOverThree(live, t.Left(), t.Right(), t.Closing(), Tally(rest), Tally(rest + {t}));
  }

  /** Each triangle is counted at exactly three edges. */
  lemma {:induction false} ThreeSides(degree: nat -> nat, live: set<Edge>, ts: set<Wedge>)
    requires Upwards(degree, live)
    requires forall t | t in ts :: t.In(live)
    ensures SumOver(live, Tally(ts)) == 3 * |ts|
  {
    if ts == {} {
      SumOverZero(live, Tally(ts));
    } else {
      hide SumOver, Tally;
      var t :| t in ts;
      var rest := ts - {t};
      ThreeSides(degree, live, rest);
      assert rest + {t} == ts;
      ThreeMore(degree, live, rest, t);
    }
  }
}
