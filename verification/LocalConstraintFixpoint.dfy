/**
 Local constraint checking computes a greatest fixpoint: the largest relation between vertices and
 pattern vertices that respects labels and gives every pattern neighbour a counterpart. No match of
 the pattern is lost on the way.
 */
module LocalConstraintFixpoint {
  import opened Collections
  import opened LocalConstraint
  import opened LocalConstraintChecking

  // The reference

  type Relation = seq<Bits>

  ghost predicate Supported(pat: Pattern, g: Graph, r: Relation, v: nat, i: nat) {
    exists u :: 0 <= u < |r| && u < |g.adj| && v < |g.adj| && u in g.adj[v] && i in r[u]
  }

  predicate SameLabel(pat: Pattern, g: Graph, v: nat, p: nat) {
    v < |g.labels| && p < |pat.labels| && pat.labels[p] == g.labels[v]
  }

  /** Labels agree and every pattern neighbour has a counterpart at some neighbour. */
  ghost predicate Consistent(pat: Pattern, g: Graph, r: Relation) {
    && |r| == |g.labels|
    && (forall v, p | 0 <= v < |r| && p in r[v] :: SameLabel(pat, g, v, p))
    && (forall v, p, i | 0 <= v < |r| && p in r[v] && p < |pat.edges| && i in pat.edges[p] :: Supported(pat, g, r, v, i))
  }

  ghost predicate Related(pat: Pattern, g: Graph, r: Relation, v: nat, p: nat) {
    Consistent(pat, g, r) && v < |r| && p in r[v]
  }

  ghost function GreatestAt(pat: Pattern, g: Graph, v: nat): Bits {
    set p | p in Indices(|pat.labels|) && exists r :: Related(pat, g, r, v, p)
  }

  ghost function Greatest(pat: Pattern, g: Graph): (r: Relation)
    ensures |r| == |g.labels| && forall v | 0 <= v < |r| :: r[v] == GreatestAt(pat, g, v)
  {
    seq(|g.labels|, (v: nat) => GreatestAt(pat, g, v))
  }

  lemma {:induction false} GreatestAbove(pat: Pattern, g: Graph, r: Relation, v: nat)
    requires Consistent(pat, g, r) && v < |r|
    ensures r[v] <= Greatest(pat, g)[v]
  {
    forall p | p in r[v]
      ensures p in GreatestAt(pat, g, v)
    {
      assert Related(pat, g, r, v, p);
      assert SameLabel(pat, g, v, p);
    }
  }

  lemma {:induction false} GreatestConsistent(pat: Pattern, g: Graph)
    ensures Consistent(pat, g, Greatest(pat, g))
  {
    var top := Greatest(pat, g);
    forall v, p | 0 <= v < |top| && p in top[v]
      ensures SameLabel(pat, g, v, p)
      ensures forall i | p < |pat.edges| && i in pat.edges[p] :: Supported(pat, g, top, v, i)
    {
      var r :| Related(pat, g, r, v, p);
      forall i | p < |pat.edges| && i in pat.edges[p]
        ensures Supported(pat, g, top, v, i)
      {
        assert Supported(pat, g, r, v, i);
        var u :| 0 <= u < |r| && u < |g.adj| && v < |g.adj| && u in g.adj[v] && i in r[u];
        GreatestAbove(pat, g, r, u);
      }
    }
  }

  /** A match sends pattern vertices to equally labelled vertices and pattern edges to edges. */
  ghost predicate Match(pat: Pattern, g: Graph, m: seq<nat>) {
    && |m| == |pat.labels|
    && (forall p | 0 <= p < |m| :: m[p] < |g.labels| && g.labels[m[p]] == pat.labels[p])
    && (forall p, q | 0 <= p < |m| && p < |pat.edges| && q in pat.edges[p] ::
          q < |m| && m[p] < |g.adj| && m[q] < |g.adj| && m[q] in g.adj[m[p]])
  }

  function Image(m: seq<nat>, v: nat): Bits {
    set p | p in Indices(|m|) && m[p] == v
  }

  lemma {:induction false} MatchRelated(pat: Pattern, g: Graph, m: seq<nat>, p: nat)
    requires pat.Valid() && g.Valid() && Match(pat, g, m) && p < |m|
    ensures p in Greatest(pat, g)[m[p]]
  {
    var r := seq(|g.labels|, (v: nat) => Image(m, v));
    forall v, q, i | 0 <= v < |r| && q in r[v] && q < |pat.edges| && i in pat.edges[q]
      ensures Supported(pat, g, r, v, i)
    {
      assert pat.Mirrored(q, i);
      assert m[i] in g.adj[v] && i in r[m[i]];
    }
    assert Consistent(pat, g, r);
    GreatestAbove(pat, g, r, m[p]);
  }

  // What every superstep keeps

  lemma {:induction false} FitsSymmetric(pat: Pattern, own: Bits, other: Bits)
    requires pat.Valid()
    ensures Fits(pat, own, other) == Fits(pat, other, own)
  {
    if p, i :| p in own && i in other && i in pat.Edges(p) {
      assert p in pat.Edges(i);
    }
    if p, i :| p in other && i in own && i in pat.Edges(p) {
      assert p in pat.Edges(i);
    }
  }

  lemma {:induction false} HeardSymmetric(pat: Pattern, g: Graph, first: bool, xs: seq<Vertex>, v: nat, w: nat)
    requires Between(pat, g, first, xs) && v < |xs| && w < |xs| && w in Heard(pat, g, first, xs, v)
    ensures v in Heard(pat, g, first, xs, w) && g.Adjacent(v, w)
  {
    var bs := SentBits(pat, g, first, xs);
    NothingFits(pat, bs[v], bs[w]);
    FitsSymmetric(pat, bs[v], bs[w]);
    TargetsBelow(g, first, xs, w, v);
    if !first {
      assert xs[v].entry.Some? && xs[w].entry.Some?;
    }
  }

  lemma {:induction false} LiveAfter(pat: Pattern, g: Graph, first: bool, xs0: seq<Vertex>, xs: seq<Vertex>, changed: bool, v: nat)
    requires |xs0| == |g.labels| && Stepped(pat, g, first, xs0, xs, changed) && v < |xs|
    ensures var bs := SentBits(pat, g, first, xs0); var us := Heard(pat, g, first, xs0, v);
      var kept := Confirmed(pat, bs[v], BitsOf(bs, us));
      && Settled(xs[v]) && Sends(pat, false, g.labels[v], xs[v]) == kept
      && xs[v].edges.Keys == (if kept == {} then {} else us) && (xs[v].entry.Some? <==> kept != {})
      && (!changed ==> kept == bs[v])
  {
    assert AdvancedAt(pat, g, first, xs0, v, xs[v], false) || AdvancedAt(pat, g, first, xs0, v, xs[v], true);
    hide Heard, BitsOf, Confirmed, SentBits;
  }

  lemma {:induction false} MutualKept(pat: Pattern, g: Graph, first: bool, xs0: seq<Vertex>, xs: seq<Vertex>, v: nat, w: nat)
    requires Between(pat, g, first, xs0) && |xs| == |xs0| && v < |xs| && w < |xs| && w in xs[v].edges
    requires xs[v].edges.Keys <= Heard(pat, g, first, xs0, v)
    requires xs[w].entry.Some? ==> xs[w].edges.Keys == Heard(pat, g, first, xs0, w)
    ensures g.Adjacent(v, w)
    ensures xs[w].entry.Some? ==> v in xs[w].edges
  {
    hide Heard;
    assert w in xs[v].edges.Keys;
    HeardSymmetric(pat, g, first, xs0, v, w);
    assert xs[w].entry.Some? ==> v in xs[w].edges.Keys;
  }

  lemma {:induction false} BetweenKept(pat: Pattern, g: Graph, first: bool, xs0: seq<Vertex>, xs: seq<Vertex>, changed: bool)
    requires Between(pat, g, first, xs0) && Stepped(pat, g, first, xs0, xs, changed)
    ensures Between(pat, g, false, xs)
  {
    assert |xs| == |xs0| == |g.labels| && pat.Valid() && g.Valid();
    hide Stepped, Heard, Between, SentBits, BitsOf, Confirmed, Settled, Sends;
    forall v | 0 <= v < |xs|
      ensures Settled(xs[v])
      ensures xs[v].edges.Keys <= Heard(pat, g, first, xs0, v)
      ensures xs[v].entry.Some? ==> xs[v].edges.Keys == Heard(pat, g, first, xs0, v)
    {
      LiveAfter(pat, g, first, xs0, xs, changed, v);
    }
    forall v, w | 0 <= v < |xs| && w in xs[v].edges
      ensures w < |xs| && g.Adjacent(v, w)
      ensures xs[w].entry.Some? ==> v in xs[w].edges
    {
      assert w in xs[v].edges.Keys;
      HeardBelow(pat, g, first, xs0, v, w);
      MutualKept(pat, g, first, xs0, xs, v, w);
    }
    MakeBetween(pat, g, xs);
  }

  lemma {:induction false} MakeBetween(pat: Pattern, g: Graph, xs: seq<Vertex>)
    requires pat.Valid() && g.Valid() && |xs| == |g.labels|
    requires forall v | 0 <= v < |xs| :: Settled(xs[v])
    requires forall v, w | 0 <= v < |xs| && w in xs[v].edges ::
      w < |xs| && g.Adjacent(v, w) && (xs[w].entry.Some? ==> v in xs[w].edges)
    ensures Between(pat, g, false, xs)
  {
  }

  lemma {:induction false} HeardBelow(pat: Pattern, g: Graph, first: bool, xs: seq<Vertex>, v: nat, w: nat)
    requires |xs| == |g.labels| && v < |xs| && w in Heard(pat, g, first, xs, v)
    ensures w < |xs|
  {
  }

  /** The relation held at the start of a superstep is above the greatest one, and every fitting edge is there. */
  ghost predicate Above(pat: Pattern, g: Graph, first: bool, xs: seq<Vertex>) {
    && |xs| == |g.labels|
    && (forall v | 0 <= v < |xs| :: Greatest(pat, g)[v] <= SentBits(pat, g, first, xs)[v])
    && (!first ==> forall v, u | 0 <= v < |xs| && 0 <= u < |xs| && g.Adjacent(v, u)
          && Fits(pat, SentBits(pat, g, first, xs)[v], SentBits(pat, g, first, xs)[u]) :: u in xs[v].edges)
  }

  /** All bits are label bits. */
  ghost predicate Labelled(pat: Pattern, g: Graph, first: bool, xs: seq<Vertex>) {
    && |xs| == |g.labels|
    && forall v, p | 0 <= v < |xs| && p in SentBits(pat, g, first, xs)[v] :: SameLabel(pat, g, v, p)
  }

  lemma {:induction false} FittingHeard(pat: Pattern, g: Graph, first: bool, xs: seq<Vertex>, v: nat, u: nat)
    requires Between(pat, g, first, xs) && Above(pat, g, first, xs) && g.Adjacent(v, u) && v < |xs| && u < |xs|
    requires Fits(pat, SentBits(pat, g, first, xs)[v], SentBits(pat, g, first, xs)[u])
    ensures u in Heard(pat, g, first, xs, v)
  {
    FitsSymmetric(pat, SentBits(pat, g, first, xs)[v], SentBits(pat, g, first, xs)[u]);
    assert g.Adjacent(u, v);
    if !first {
      assert v in xs[u].edges;
    }
  }

  lemma {:induction false} GreatestConfirmed(pat: Pattern, g: Graph, first: bool, xs: seq<Vertex>, v: nat, p: nat)
    requires Between(pat, g, first, xs) && Above(pat, g, first, xs) && v < |xs| && p in Greatest(pat, g)[v]
    ensures var bs := SentBits(pat, g, first, xs);
      p in Confirmed(pat, bs[v], BitsOf(bs, Heard(pat, g, first, xs, v)))
  {
    var bs, top, us := SentBits(pat, g, first, xs), Greatest(pat, g), Heard(pat, g, first, xs, v);
    GreatestConsistent(pat, g);
    assert p in bs[v];
    forall i | i in pat.Edges(p)
      ensures i in BitsOf(bs, us)
    {
      assert Supported(pat, g, top, v, i);
      var u :| 0 <= u < |top| && g.Adjacent(v, u) && i in top[u];
      assert i in bs[u];
      assert Fits(pat, bs[v], bs[u]);
      FittingHeard(pat, g, first, xs, v, u);
    }
  }

  lemma {:induction false} ConfirmedWithin(pat: Pattern, bits: Bits, heard: Bits)
    ensures Confirmed(pat, bits, heard) <= bits
  {
  }

  lemma {:induction false} FitsMonotone(pat: Pattern, a: Bits, b: Bits, c: Bits, d: Bits)
    requires a <= b && c <= d && Fits(pat, a, c)
    ensures Fits(pat, b, d)
  {
    var p, i :| p in a && i in c && i in pat.Edges(p);
    assert p in b && i in d && i in pat.Edges(p);
  }

  /** No superstep drops a bit of the greatest relation or an edge between fitting vertices. */
  lemma {:induction false} AboveKept(pat: Pattern, g: Graph, first: bool, xs0: seq<Vertex>, xs: seq<Vertex>, changed: bool)
    requires Between(pat, g, first, xs0) && Above(pat, g, first, xs0) && Stepped(pat, g, first, xs0, xs, changed)
    ensures Above(pat, g, false, xs)
  {
    var bs, bs' := SentBits(pat, g, first, xs0), SentBits(pat, g, false, xs);
    forall v | 0 <= v < |xs|
      ensures bs'[v] == Confirmed(pat, bs[v], BitsOf(bs, Heard(pat, g, first, xs0, v))) <= bs[v]
      ensures xs[v].edges.Keys == if bs'[v] == {} then {} else Heard(pat, g, first, xs0, v)
    {
      LiveAfter(pat, g, first, xs0, xs, changed, v);
      ConfirmedWithin(pat, bs[v], BitsOf(bs, Heard(pat, g, first, xs0, v)));
    }
    hide Stepped, Heard, SentBits, Between, Confirmed, BitsOf;
    forall v | 0 <= v < |xs|
      ensures Greatest(pat, g)[v] <= bs'[v]
    {
      forall p | p in Greatest(pat, g)[v]
        ensures p in bs'[v]
      {
        GreatestConfirmed(pat, g, first, xs0, v, p);
      }
    }
    forall v, u | 0 <= v < |xs| && 0 <= u < |xs| && g.Adjacent(v, u) && Fits(pat, bs'[v], bs'[u])
      ensures u in xs[v].edges
    {
      FitsMonotone(pat, bs'[v], bs[v], bs'[u], bs[u]);
      FittingHeard(pat, g, first, xs0, v, u);
      NothingFits(pat, bs'[v], bs'[u]);
      assert u in xs[v].edges.Keys;
    }
  }

  lemma {:induction false} LabelledKept(pat: Pattern, g: Graph, first: bool, xs0: seq<Vertex>, xs: seq<Vertex>, changed: bool)
    requires Labelled(pat, g, first, xs0) && |xs0| == |g.labels| && Stepped(pat, g, first, xs0, xs, changed)
    ensures Labelled(pat, g, false, xs)
  {
    forall v | 0 <= v < |xs|
      ensures SentBits(pat, g, false, xs)[v] <= SentBits(pat, g, first, xs0)[v]
    {
      LiveAfter(pat, g, first, xs0, xs, changed, v);
    }
  }

  // The end

  /**
   Vertices hold exactly the greatest relation; an edge of the graph stays active iff some edge of the pattern lies
   over it, between what its ends hold.
   */
  ghost predicate Checked(pat: Pattern, g: Graph, xs: seq<Vertex>) {
    var top := Greatest(pat, g);
    && |xs| == |g.labels| == |g.adj|
    && (forall v | 0 <= v < |xs| :: Holds(xs[v], top[v]))
    && (forall v, u | 0 <= v < |xs| && 0 <= u < |xs| ::
          u in xs[v].edges <==> LiesOver(pat, g, top, v, u))
  }

  /** v and u are joined in the graph, and what one holds to what the other holds in the pattern. */
  ghost predicate LiesOver(pat: Pattern, g: Graph, r: Relation, v: nat, u: nat) {
    && v < |g.adj| && u in g.adj[v] && v < |r| && u < |r|
    && exists p, i :: p in r[v] && i in r[u] && p < |pat.edges| && i in pat.edges[p]
  }

  /** A vertex without bits is out; the others are active and hold theirs in both places. */
  predicate Holds(x: Vertex, bits: Bits) {
    if bits == {} then !x.active && x.entry.None? && x.edges == map[]
    else x.active && x.template == bits && x.entry == Some(State(bits, {}))
  }

  lemma {:induction false} FittingLiesOver(pat: Pattern, g: Graph, r: Relation, v: nat, u: nat)
    requires |r| == |g.adj| && v < |r| && u < |r|
    ensures LiesOver(pat, g, r, v, u) <==> g.Adjacent(v, u) && Fits(pat, r[v], r[u])
  {
    if p, i :| p in r[v] && i in r[u] && p < |pat.edges| && i in pat.edges[p] {
      assert i in pat.Edges(p);
    }
  }

  lemma {:induction false} StillConsistent(pat: Pattern, g: Graph, first: bool, xs0: seq<Vertex>, xs: seq<Vertex>)
    requires Between(pat, g, first, xs0) && Labelled(pat, g, first, xs0) && Stepped(pat, g, first, xs0, xs, false)
    ensures Consistent(pat, g, SentBits(pat, g, first, xs0))
  {
    var bs := SentBits(pat, g, first, xs0);
    forall v, p, i | 0 <= v < |bs| && p in bs[v] && p < |pat.edges| && i in pat.edges[p]
      ensures Supported(pat, g, bs, v, i)
    {
      ConfirmedSupported(pat, g, first, xs0, xs, v, p, i);
    }
    hide SentBits, Between, Stepped, Supported;
  }

  lemma {:induction false} ConfirmedSupported(pat: Pattern, g: Graph, first: bool, xs0: seq<Vertex>, xs: seq<Vertex>, v: nat, p: nat, i: nat)
    requires Between(pat, g, first, xs0) && Stepped(pat, g, first, xs0, xs, false)
    requires v < |xs0| && p in SentBits(pat, g, first, xs0)[v] && i in pat.Edges(p)
    ensures Supported(pat, g, SentBits(pat, g, first, xs0), v, i)
  {
    hide *;
    Lengths(pat, g, first, xs0, xs, false);
    var bs, us := SentBits(pat, g, first, xs0), Heard(pat, g, first, xs0, v);
    LiveAfter(pat, g, first, xs0, xs, false, v);
    var u := Witness(pat, bs, us, bs[v], p, i);
    HeardSymmetric(pat, g, first, xs0, v, u);
    IsSupported(pat, g, bs, v, i, u);
  }

  lemma {:induction false} Lengths(pat: Pattern, g: Graph, first: bool, xs0: seq<Vertex>, xs: seq<Vertex>, changed: bool)
    requires Between(pat, g, first, xs0) && Stepped(pat, g, first, xs0, xs, changed)
    ensures |xs| == |xs0| == |g.labels| == |g.adj|
  {
  }

  lemma {:induction false} Witness(pat: Pattern, bs: seq<Bits>, us: set<nat>, bits: Bits, p: nat, i: nat) returns (u: nat)
    requires p in bits && Confirmed(pat, bits, BitsOf(bs, us)) == bits
    requires i in pat.Edges(p)
    ensures u in us && u < |bs| && i in bs[u]
  {
    assert i in BitsOf(bs, us);
    u :| u in us && u < |bs| && i in bs[u];
  }

  lemma {:induction false} IsSupported(pat: Pattern, g: Graph, r: Relation, v: nat, i: nat, u: nat)
    requires u < |r| && g.Adjacent(v, u) && i in r[u]
    ensures Supported(pat, g, r, v, i)
  {
  }

  lemma {:induction false} EdgesAtEnd(pat: Pattern, g: Graph, first: bool, xs0: seq<Vertex>, v: nat, u: nat)
    requires Between(pat, g, first, xs0) && Above(pat, g, first, xs0) && v < |xs0| && u < |xs0|
    requires forall w | 0 <= w < |xs0| :: Greatest(pat, g)[w] == SentBits(pat, g, first, xs0)[w]
    ensures var top := Greatest(pat, g);
      u in (if top[v] == {} then {} else Heard(pat, g, first, xs0, v)) <==> g.Adjacent(v, u) && Fits(pat, top[v], top[u])
  {
    var top := Greatest(pat, g);
    NothingFits(pat, top[v], top[u]);
    HeardFits(pat, g, first, xs0, v, u);
    hide Heard, Fits, SentBits, Greatest;
    if u in Heard(pat, g, first, xs0, v) {
      HeardSymmetric(pat, g, first, xs0, v, u);
    }
    if g.Adjacent(v, u) && Fits(pat, top[v], top[u]) {
      FittingHeard(pat, g, first, xs0, v, u);
    }
  }

  lemma {:induction false} HeardFits(pat: Pattern, g: Graph, first: bool, xs: seq<Vertex>, v: nat, u: nat)
    requires |xs| == |g.labels| && v < |xs| && u < |xs|
    ensures u in Heard(pat, g, first, xs, v) ==> Fits(pat, SentBits(pat, g, first, xs)[v], SentBits(pat, g, first, xs)[u])
  {
  }

  lemma {:induction false} AboveAt(pat: Pattern, g: Graph, first: bool, xs: seq<Vertex>, v: nat)
    requires Above(pat, g, first, xs) && v < |xs|
    ensures |xs| == |g.labels| && Greatest(pat, g)[v] <= SentBits(pat, g, first, xs)[v]
  {
  }

  lemma {:induction false} VertexAtEnd(pat: Pattern, g: Graph, first: bool, xs0: seq<Vertex>, xs: seq<Vertex>, v: nat)
    requires Between(pat, g, first, xs0) && Above(pat, g, first, xs0) && v < |xs0|
    requires Stepped(pat, g, first, xs0, xs, false) && Consistent(pat, g, SentBits(pat, g, first, xs0))
    ensures |xs| == |xs0| == |g.labels|
    ensures Greatest(pat, g)[v] == SentBits(pat, g, first, xs0)[v] == Sends(pat, false, g.labels[v], xs[v])
    ensures Holds(xs[v], Greatest(pat, g)[v])
    ensures xs[v].edges.Keys == if Greatest(pat, g)[v] == {} then {} else Heard(pat, g, first, xs0, v)
  {
    hide *;
    Lengths(pat, g, first, xs0, xs, false);
    AboveAt(pat, g, first, xs0, v);
    LiveAfter(pat, g, first, xs0, xs, false, v);
    SettledHolds(pat, g.labels[v], xs[v]);
    GreatestAbove(pat, g, SentBits(pat, g, first, xs0), v);
  }

  lemma {:induction false} SettledHolds(pat: Pattern, meta: nat, x: Vertex)
    requires Settled(x)
    ensures Holds(x, Sends(pat, false, meta, x))
  {
  }

  lemma {:induction false} CheckedAtEnd(pat: Pattern, g: Graph, first: bool, xs0: seq<Vertex>, xs: seq<Vertex>)
    requires Between(pat, g, first, xs0) && Labelled(pat, g, first, xs0) && Above(pat, g, first, xs0)
    requires Stepped(pat, g, first, xs0, xs, false)
    ensures Checked(pat, g, xs)
  {
    hide Stepped, SentBits, Heard, Between, Above, Labelled, Consistent, Confirmed, BitsOf, GreatestAt, Greatest, Sends, Settled, Holds, Fits, LiesOver;
    Lengths(pat, g, first, xs0, xs, false);
    StillConsistent(pat, g, first, xs0, xs);
    forall v | 0 <= v < |xs|
      ensures Greatest(pat, g)[v] == SentBits(pat, g, first, xs0)[v] == Sends(pat, false, g.labels[v], xs[v])
      ensures Holds(xs[v], Greatest(pat, g)[v])
      ensures xs[v].edges.Keys == if Greatest(pat, g)[v] == {} then {} else Heard(pat, g, first, xs0, v)
    {
      VertexAtEnd(pat, g, first, xs0, xs, v);
    }
    forall v, u | 0 <= v < |xs| && 0 <= u < |xs|
      ensures u in xs[v].edges <==> LiesOver(pat, g, Greatest(pat, g), v, u)
    {
      assert u in xs[v].edges <==> u in xs[v].edges.Keys;
      EdgesAtEnd(pat, g, first, xs0, v, u);
      FittingLiesOver(pat, g, Greatest(pat, g), v, u);
    }
  }

  lemma {:induction false} FirstAbove(pat: Pattern, g: Graph, xs: seq<Vertex>)
    requires pat.Valid() && g.Valid() && |xs| == |g.labels| && AllReady(true, xs)
    ensures Between(pat, g, true, xs) && Above(pat, g, true, xs) && Labelled(pat, g, true, xs)
  {
    GreatestConsistent(pat, g);
  }

  /**
   Local constraint checking from a fresh start: supersteps until nothing changes. It ends, with
   exactly the greatest consistent relation and exactly the edges between fitting vertices.
   */
  method CheckLocalConstraints(pat: Pattern, g: Graph) returns (xs: seq<Vertex>)
    requires pat.Valid() && g.Valid()
    ensures Checked(pat, g, xs)
  {
    xs := seq(|g.labels|, _ => Vertex(true, {}, None, map[]));
    FirstAbove(pat, g, xs);
    var first, notFinished := true, true;
    ghost var prior, wasFirst := xs, true;
    hide *;
    while notFinished
      invariant Between(pat, g, first, xs) && Above(pat, g, first, xs) && Labelled(pat, g, first, xs)
      invariant !notFinished ==> Checked(pat, g, xs)
      decreases if first then 1 else 0, Total(xs), notFinished
    {
      var ys;
      ys, notFinished := Superstep(pat, g, first, xs);
      BetweenKept(pat, g, first, xs, ys, notFinished);
      AboveKept(pat, g, first, xs, ys, notFinished);
      LabelledKept(pat, g, first, xs, ys, notFinished);
      if !notFinished {
        CheckedAtEnd(pat, g, first, xs, ys);
        TotalNoMore(pat, g, first, xs, ys);
      }
      xs, first := ys, false;
    }
  }

  lemma {:induction false} TotalNoMore(pat: Pattern, g: Graph, first: bool, xs0: seq<Vertex>, xs: seq<Vertex>)
    requires |xs0| == |g.labels| && Stepped(pat, g, first, xs0, xs, false)
    ensures !first ==> Total(xs) <= Total(xs0)
  {
    if !first {
      forall v | 0 <= v < |xs|
        ensures Size(xs[v]) <= Size(xs0[v])
      {
        assert AdvancedAt(pat, g, first, xs0, v, xs[v], false);
      }
      TotalShrinks(xs0, xs);
    }
  }

  /** Every match survives: its vertices keep their bits and its edges stay active. */
  lemma {:induction false} MatchSurvives(pat: Pattern, g: Graph, xs: seq<Vertex>, m: seq<nat>, p: nat, q: nat)
    requires pat.Valid() && g.Valid() && Checked(pat, g, xs) && Match(pat, g, m)
    requires p < |m| && p < |pat.edges| && q in pat.edges[p]
    ensures q < |m| && xs[m[p]].entry.Some? && p in xs[m[p]].template && m[q] in xs[m[p]].edges
  {
    assert pat.Mirrored(p, q);
    MatchRelated(pat, g, m, p);
    MatchRelated(pat, g, m, q);
  }
}
