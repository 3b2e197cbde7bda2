/**
 Labels of the preferential attachment generator. The number of edges is a multiple of the number of nodes; the source
 of an edge is a function of its index, and the sources run past the number of nodes. So the reduction of labels that
 precedes scrambling always makes two vertices one.
 */
module GeneratedLabels {
  import opened Arithmetic
  import opened Words
  import opened Hash

  /** First index from which sources are plain integer arithmetic. */
  function Offset(k: nat): nat { k * (k + 1) / 2 }

  /** The integer s with s(s-1)/2 <= i < s(s+1)/2: what the square root of the source formula rounds down to. */
  function EarlySource(i: nat, s: nat): (r: nat)
    requires 1 <= s && s * (s - 1) <= 2 * i
    ensures 1 <= r && r * (r - 1) <= 2 * i < r * (r + 1)
    decreases 2 * i - s * (s - 1)
  {
    if 2 * i < s * (s + 1) then s else EarlySource(i, s + 1)
  }

  function CalcSource(k: nat, i: nat): nat
    requires k >= 1
  {
    if i >= Offset(k) then (i - Offset(k)) / k + k + 1 else EarlySource(i, 1)
  }

  function Square(x: nat): nat { x * x }

  /** Twice s^2 - s/2 + t, the bound that a target t compares with a square root. */
  function Bound(s: nat, t: nat): nat
    requires s >= 1
  {
    2 * t + s * (2 * s - 1)
  }

  /** What the target formula rounds down to, its square root multiplied out. */
  function EarlyTarget(i: nat, s: nat, t: nat): (r: nat)
    requires 1 <= s && Square(Bound(s, t)) <= s * s * (1 + 8 * i)
    ensures Square(Bound(s, r)) <= s * s * (1 + 8 * i) < Square(Bound(s, r + 1))
    decreases s * s * (1 + 8 * i) - Square(Bound(s, t))
  {
    if s * s * (1 + 8 * i) < Square(Bound(s, t + 1)) then t
    else
      SquareGrows(Bound(s, t), Bound(s, t + 1));
      EarlyTarget(i, s, t + 1)
  }

  lemma {:induction false} TimesAtMost(a: nat, b: nat, k: nat)
    requires a <= b
    ensures a * k <= b * k
  {
  }

  lemma {:induction false} SquareGrows(a: nat, b: nat)
    requires a < b
    ensures Square(a) < Square(b)
  {
    TimesLess(a, b, a);
    TimesLess(a, b, b);
  }

  /** Zero is never above the target. */
  lemma {:induction false} TargetStarts(i: nat, s: nat)
    requires 1 <= s && s * (s - 1) <= 2 * i
    ensures Square(Bound(s, 0)) <= s * s * (1 + 8 * i)
  {
    var x := 2 * s - 1;
    assert Square(s * x) == (s * s) * (x * x);
    assert x * x == 4 * (s * (s - 1)) + 1;
    TimesAtMost(x * x, 1 + 8 * i, s * s);
  }

  function CalcTarget(i: nat): nat {
    var s := EarlySource(i, 1);
    TargetStarts(i, s);
    EarlyTarget(i, s, 0)
  }

  /** All edges of all ranks before they are scrambled, when none is rewired. Late targets may be anything. */
  ghost predicate Generated(k: nat, nodes: nat, edges: seq<(nat, nat)>) {
    && k >= 1 && nodes >= 1 && |edges| == k * nodes
    && forall i | 0 <= i < |edges| ::
         edges[i].0 == CalcSource(k, i) && (i < Offset(k) ==> edges[i].1 == CalcTarget(i))
  }

  function Labels(edges: seq<(nat, nat)>): set<nat> {
    (set e | e in edges :: e.0) + set e | e in edges :: e.1
  }

  lemma {:induction false} EndsAreLabels(edges: seq<(nat, nat)>, i: nat)
    requires i < |edges|
    ensures edges[i].0 in Labels(edges) && edges[i].1 in Labels(edges)
  {
    assert edges[i] in edges;
  }

  /** Growing s grows s(s+1). */
  lemma {:induction false} Growing(s: nat, r: nat)
    requires s <= r
    ensures s * (s + 1) <= r * (r + 1)
  {
    if s < r {
      Growing(s, r - 1);
      assert (r - 1) * r <= r * (r + 1);
    }
  }

  lemma {:induction false} OffsetTwice(k: nat)
    ensures 2 * Offset(k) == k * (k + 1)
  {
    if k > 0 {
      OffsetTwice(k - 1);
      assert k * (k + 1) == (k - 1) * k + 2 * k;
    }
  }

  /** Every early label is the source of some early edge. */
  lemma {:induction false} EarlyLabel(k: nat, d: nat) returns (i: nat)
    requires 1 <= d <= k
    ensures 2 * i == d * (d - 1) && i < Offset(k) && CalcSource(k, i) == d
  {
    OffsetTwice(k);
    OffsetTwice(d - 1);
    i := Offset(d - 1);
    Growing(d - 1, k - 1);
    assert (k - 1) * k < k * (k + 1);
    SourceUnique(i, d, EarlySource(i, 1));
  }

  lemma {:induction false} SourceUnique(i: nat, d: nat, r: nat)
    requires d >= 1 && r >= 1 && d * (d - 1) <= 2 * i < d * (d + 1) && r * (r - 1) <= 2 * i < r * (r + 1)
    ensures d == r
  {
    if d < r {
      Growing(d, r - 1);
    } else if r < d {
      Growing(r, d - 1);
    }
  }

  /** Index of the first edge of vertex s. */
  function FirstEdgeOf(k: nat, s: nat): nat
    requires s >= 1
  {
    if s <= k then Offset(s - 1) else Offset(k) + Blocks(s - k - 1, k)
  }

  function Blocks(q: nat, k: nat): nat { q * k }

  lemma {:induction false} NextBlock(q: nat, k: nat)
    ensures Blocks(0, k) == 0 && Blocks(q + 1, k) == Blocks(q, k) + k
  {
  }

  lemma {:induction false} OffsetStep(s: nat)
    requires s >= 1
    ensures Offset(s) == Offset(s - 1) + s
  {
    OffsetTwice(s - 1);
    OffsetTwice(s);
    assert s * (s + 1) == (s - 1) * s + 2 * s;
  }

  lemma {:induction false} OffsetGrows(s: nat, k: nat)
    requires s <= k
    ensures Offset(s) <= Offset(k)
  {
    OffsetTwice(s);
    OffsetTwice(k);
    Growing(s, k);
  }

  lemma {:induction false} EarlySourceIs(i: nat, s: nat)
    requires s >= 1
    ensures EarlySource(i, 1) == s <==> Offset(s - 1) <= i < Offset(s)
  {
    var r := EarlySource(i, 1);
    OffsetTwice(s - 1);
    OffsetTwice(s);
    assert (s - 1) * s == s * (s - 1);
    hide Offset, EarlySource;
    if Offset(s - 1) <= i < Offset(s) {
      SourceUnique(i, s, r);
    }
  }

  lemma {:induction false} LateSourceIs(k: nat, i: nat, q: nat)
    requires k >= 1 && i >= Offset(k)
    ensures CalcSource(k, i) == q + k + 1 <==> Blocks(q, k) <= i - Offset(k) < Blocks(q + 1, k)
    ensures CalcSource(k, i) > k
  {
    hide Offset;
    var d := i - Offset(k);
    Quotient(d, k);
    NextBlock(q, k);
    if Blocks(q, k) <= d < Blocks(q, k) + k {
      QuotientIs(d, q, d - q * k, k);
    }
  }

  /** Edges come vertex by vertex: vertex s has the smaller of s and k, one block behind the other. */
  lemma {:induction false} SourceIs(k: nat, i: nat, s: nat)
    requires k >= 1 && s >= 1
    ensures FirstEdgeOf(k, s + 1) == FirstEdgeOf(k, s) + if s < k then s else k
    ensures CalcSource(k, i) == s <==> FirstEdgeOf(k, s) <= i < FirstEdgeOf(k, s + 1)
  {
    EarlySourceIs(i, s);
    if i < Offset(k) {
      EarlyBelow(k, i);
      assert CalcSource(k, i) == EarlySource(i, 1);
    } else if s <= k {
      LateSourceIs(k, i, 0);
    } else {
      LateSourceIs(k, i, s - k - 1);
    }
    hide Offset, EarlySource, Blocks, CalcSource;
    OffsetStep(s);
    if s <= k {
      OffsetGrows(s, k);
      NextBlock(0, k);
    } else {
      NextBlock(s - k - 1, k);
    }
  }

  lemma {:induction false} EarlyBelow(k: nat, i: nat)
    requires i < Offset(k)
    ensures EarlySource(i, 1) <= k
  {
    OffsetTwice(k);
    if EarlySource(i, 1) > k {
      Growing(k, EarlySource(i, 1) - 1);
    }
  }

  /** The last edge's source lies at or above the number of nodes, by at most k. */
  lemma {:induction false} LastSource(k: nat, nodes: nat)
    requires k >= 1 && nodes >= 1 && Offset(k) < k * nodes
    ensures nodes <= CalcSource(k, k * nodes - 1) <= nodes + k
  {
    OffsetTwice(k);
    var d := k * nodes - 1 - Offset(k);
    Quotient(d, k);
    var q := d / k;
    assert (q + k + 1) * k == q * k + k * (k + 1);
    if q >= nodes {
      TimesLess(nodes - 1, q, k);
    }
    if q + k + 1 < nodes {
      TimesLess(q + k + 1, nodes, k);
    }
  }

  lemma {:induction false} FewBound(k: nat, nodes: nat)
    requires nodes >= 2 && 2 * (k * nodes) <= k * (k + 1)
    ensures k >= 1 ==> nodes + 1 <= k
  {
    if k + 1 < 2 * nodes {
      TimesLess(k + 1, 2 * nodes, k);
      assert 2 * nodes * k == 2 * (k * nodes);
    }
  }

  /** With so few nodes that all edges are early, the label after the number of nodes is among them. */
  lemma {:induction false} FewNodes(k: nat, nodes: nat) returns (i: nat)
    requires k >= 1 && nodes >= 2 && k * nodes <= Offset(k)
    ensures i < k * nodes && CalcSource(k, i) == nodes + 1
  {
    OffsetTwice(k);
    FewBound(k, nodes);
    i := EarlyLabel(k, nodes + 1);
    TimesAtMost(nodes + 1, k, nodes);
  }

  /** Edge 0 joins the labels 1 and 0. */
  lemma {:induction false} FirstEdge(k: nat, nodes: nat, edges: seq<(nat, nat)>)
    requires Generated(k, nodes, edges)
    ensures |edges| >= 1 && edges[0] == (1, 0) && Offset(k) >= 1
  {
    OffsetTwice(k);
    Growing(1, k);
    TimesAtMost(1, k, nodes);
    assert edges[0].0 == CalcSource(k, 0) && edges[0].1 == CalcTarget(0);
    FirstTarget();
  }

  lemma {:induction false} FirstTarget()
    ensures EarlySource(0, 1) == 1 && CalcTarget(0) == 0
  {
    TargetStarts(0, 1);
  }

  /** Two different labels in use that the reduction makes one. */
  lemma {:induction false} CongruentPair(k: nat, nodes: nat, edges: seq<(nat, nat)>) returns (u: nat)
    requires Generated(k, nodes, edges)
    ensures nodes >= 1 && u in Labels(edges) && u + nodes in Labels(edges)
  {
    FirstEdge(k, nodes, edges);
    EndsAreLabels(edges, 0);
    if nodes == 1 {
      u := 0;
    } else if k * nodes <= Offset(k) {
      var i := FewNodes(k, nodes);
      EndsAreLabels(edges, i);
      u := 1;
    } else {
      LastSource(k, nodes);
      EndsAreLabels(edges, k * nodes - 1);
      u := CalcSource(k, k * nodes - 1) - nodes;
      if u > 0 {
        var i := EarlyLabel(k, u);
        EndsAreLabels(edges, i);
      }
    }
  }

  /** So the generated edges are never scrambled into an isomorphic graph. */
  lemma {:induction false} NeverIsomorphic(k: nat, nodes: nat, n: nat, edges: seq<(nat, nat)>)
    requires Generated(k, nodes, edges) && 16 < n <= 64 && nodes <= Pow(n)
    ensures !Incongruent(Labels(edges), nodes)
    ensures !Renames(Labels(edges), (set e | e in edges), nodes, n)
  {
    hide Generated, Labels, NewLabel, Renames, Pow;
    var u := CongruentPair(k, nodes, edges);
    Quotient(u, nodes);
    QuotientIs(u + nodes, u / nodes + 1, u % nodes, nodes);
    forall e | e in edges
      ensures e.0 in Labels(edges) && e.1 in Labels(edges)
    {
      var i :| 0 <= i < |edges| && edges[i] == e;
      EndsAreLabels(edges, i);
    }
    ScrambledIsomorphicIff(Labels(edges), (set e | e in edges), nodes, n);
  }
}
