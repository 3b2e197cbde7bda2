/**
 Local constraint checking of a pattern. In every superstep each live vertex tells its neighbours
 which pattern vertices it may still stand for; a vertex drops a pattern vertex when some pattern
 neighbour of it was not heard of, and drops an edge over which nothing fitting was heard.
 */
module LocalConstraint {
  import opened Collections

  const MAX_BITS: nat := 16

  /** Labels of the pattern's vertices and, for each, its neighbours in the pattern. */
  datatype Pattern = Pattern(labels: seq<nat>, edges: seq<set<nat>>) {
    /** Undirected and without isolated vertices. */
    ghost predicate Valid() {
      && |labels| == |edges| <= MAX_BITS
      && (forall p | 0 <= p < |edges| :: edges[p] != {})
      && (forall p, q | 0 <= p < |edges| && q in edges[p] :: Mirrored(p, q))
    }

    predicate Mirrored(p: nat, q: nat) { q < |edges| && p in edges[q] }

    function Edges(p: nat): set<nat> { if p < |edges| then edges[p] else {} }
  }

  datatype Graph = Graph(labels: seq<nat>, adj: seq<seq<nat>>) {
    ghost predicate Valid() {
      && |labels| == |adj|
      && (forall v, k | 0 <= v < |adj| && 0 <= k < |adj[v]| :: adj[v][k] < |adj|)
      && (forall u, v | 0 <= u < |adj| && 0 <= v < |adj| && u in adj[v] :: v in adj[u])
    }

    predicate Adjacent(u: nat, v: nat) { u < |adj| && v < |adj| && v in adj[u] }
  }

  type Bits = set<nat>

  datatype State = State(template: Bits, neighbors: Bits)

  /** What a vertex stores: activity, its template bits, its entry in the state map, its active edges. */
  datatype Vertex = Vertex(active: bool, template: Bits, entry: Option<State>, edges: map<nat, bool>)

  datatype Message = Message(to: nat, from: nat, bits: Bits)

  function LabelBits(pat: Pattern, meta: nat): (bits: Bits)
    ensures forall p: nat :: p in bits <==> p < |pat.labels| && pat.labels[p] == meta
  {
    LabelBitsBelow(pat, meta, |pat.labels|)
  }

  function LabelBitsBelow(pat: Pattern, meta: nat, n: nat): (bits: Bits)
    requires n <= |pat.labels|
    ensures forall p: nat :: p in bits <==> p < n && pat.labels[p] == meta
  {
    if n == 0 then {}
    else LabelBitsBelow(pat, meta, n - 1) + if pat.labels[n - 1] == meta then {n - 1} else {}
  }

  /** Some bit of own has a pattern edge to some bit of other. */
  predicate Fits(pat: Pattern, own: Bits, other: Bits) {
    exists p, i :: p in own && i in other && i in pat.Edges(p)
  }

  // Handlers of one vertex

  function Update(pat: Pattern, first: bool, x: Vertex, own: Bits, from: nat, bits: Bits): Vertex {
    if !Fits(pat, own, bits) then x
    else
      var st := if x.entry.Some? then x.entry.value else State(own, {});
      x.(entry := Some(st.(neighbors := st.neighbors + bits)),
         // After the first superstep an unknown edge would be an error.
         edges := if first || from in x.edges then x.edges[from := true] else x.edges)
  }

  function OnMessage(pat: Pattern, first: bool, meta: nat, x: Vertex, from: nat, bits: Bits): Vertex {
    if !x.active then x
    else if first then
      var own := LabelBits(pat, meta);
      if own == {} then x.(active := false)
      else if bits == {} then x
      else Update(pat, first, x.(template := own), own, from, bits)
    else if x.entry.None? || bits == {} || x.entry.value.template == {} || x.template == {} then x
    else Update(pat, first, x, x.template, from, bits)
  }

  /** The visit that starts a superstep; the bits to send are empty when nothing is sent. */
  function OnInit(pat: Pattern, first: bool, meta: nat, x: Vertex): (Vertex, Bits) {
    if !x.active || (!first && x.entry.None?) then (x, {})
    else if first then
      var own := LabelBits(pat, meta);
      if own == {} then (x.(active := false), {}) else (x.(template := own), own)
    else (x, x.template)
  }

  function Required(pat: Pattern, st: State): Bits {
    set p | p in st.template && pat.Edges(p) != {} && pat.Edges(p) <= st.neighbors
  }

  function Flagged(edges: map<nat, bool>): set<nat> {
    set u | u in edges && edges[u]
  }

  /** The flags of a vertex whose edges are keys, those in on being set. */
  ghost function Flags(keys: set<nat>, on: set<nat>): (edges: map<nat, bool>)
    ensures edges.Keys == keys && forall u | u in keys :: edges[u] == (u in on)
  {
    if keys == {} then map[]
    else
      var u :| u in keys;
      Flags(keys - {u}, on)[u := u in on]
  }

  lemma {:induction false} FlagsAre(edges: map<nat, bool>, keys: set<nat>, on: set<nat>)
    requires edges.Keys == keys && forall u | u in keys :: edges[u] == (u in on)
    ensures edges == Flags(keys, on)
  {
  }

  /** Between supersteps: what was not confirmed is dropped; the flag says whether anything was. */
  ghost function Sweep(pat: Pattern, first: bool, x: Vertex): (Vertex, bool) {
    if x.entry.None? then
      if first && x.active then (x.(active := false, edges := map[]), true) else (x, false)
    else
      var st := x.entry.value;
      var kept := Required(pat, st);
      if kept == {} then (x.(active := false, entry := None, edges := map[]), true)
      else
        (Vertex(x.active, kept, Some(State(kept, {})), Flags(Flagged(x.edges), {})),
         kept != st.template || Flagged(x.edges) != x.edges.Keys)
  }

  /** In place: edges that were not confirmed are erased, the flags of the others are cleared. */
  method SweepVertex(pat: Pattern, first: bool, x: Vertex) returns (y: Vertex, changed: bool)
    ensures (y, changed) == Sweep(pat, first, x)
  {
    y, changed := x, false;
    if x.entry.None? {
      if first && x.active {
        y, changed := x.(active := false, edges := map[]), true;
      }
    } else {
      var st := x.entry.value;
      var kept := Required(pat, st);
      if kept == {} {
        y, changed := x.(active := false, entry := None, edges := map[]), true;
      } else {
        var edges, rest := map[], x.edges.Keys;
        changed := kept != st.template;
        while rest != {}
          invariant rest <= x.edges.Keys
          invariant edges.Keys == Flagged(x.edges) - rest && forall u | u in edges :: !edges[u]
          invariant changed <==> kept != st.template || exists u :: u in x.edges.Keys - rest && !x.edges[u]
        {
          var u :| u in rest;
          if x.edges[u] {
            edges := edges[u := false];
          } else {
            changed := true;
          }
          rest := rest - {u};
        }
        FlagsAre(edges, Flagged(x.edges), {});
        AllFlagged(x.edges);
        y := Vertex(x.active, kept, Some(State(kept, {})), edges);
      }
    }
  }

  lemma {:induction false} AllFlagged(edges: map<nat, bool>)
    ensures Flagged(edges) != edges.Keys <==> exists u :: u in edges.Keys && !edges[u]
  {
    if u :| u in edges.Keys && !edges[u] {
      assert u !in Flagged(edges);
    }
  }

  // One superstep as a function of what everybody sends

  /** Bits a vertex sends, and to whom. */
  function Sends(pat: Pattern, first: bool, meta: nat, x: Vertex): Bits {
    OnInit(pat, first, meta, x).1
  }

  function Targets(g: Graph, first: bool, v: nat, x: Vertex): set<nat> {
    if first then if v < |g.adj| then set w | w in g.adj[v] else {}
    else x.edges.Keys
  }

  function SentBits(pat: Pattern, g: Graph, first: bool, xs: seq<Vertex>): (bs: seq<Bits>)
    requires |xs| == |g.labels|
    ensures |bs| == |xs| && forall v | 0 <= v < |xs| :: bs[v] == Sends(pat, first, g.labels[v], xs[v])
  {
    seq(|xs|, (v: nat) requires v < |xs| => Sends(pat, first, g.labels[v], xs[v]))
  }

  /** The neighbours a vertex hears and takes seriously. */
  function Heard(pat: Pattern, g: Graph, first: bool, xs: seq<Vertex>, w: nat): set<nat>
    requires |xs| == |g.labels| && w < |xs|
  {
    var bs := SentBits(pat, g, first, xs);
    set u | u in Indices(|xs|) && w in Targets(g, first, u, xs[u]) && Fits(pat, bs[w], bs[u])
  }

  function BitsOf(bs: seq<Bits>, us: set<nat>): Bits {
    set u, p | u in us && u < |bs| && p in bs[u] :: p
  }

  /** A vertex after it heard exactly us. */
  ghost function AfterHearing(pat: Pattern, first: bool, meta: nat, x: Vertex, bs: seq<Bits>, us: set<nat>): Vertex {
    if first then
      var own := LabelBits(pat, meta);
      if own == {} then x.(active := false)
      else if us == {} then x.(template := own)
      else Vertex(true, own, Some(State(own, BitsOf(bs, us))), Flags(us, us))
    else if x.entry.None? then x
    else x.(entry := Some(State(x.entry.value.template, BitsOf(bs, us))), edges := Flags(x.edges.Keys, us))
  }

  // Vertices between supersteps

  /** Not started: active, without entry and edges. */
  predicate Unstarted(x: Vertex) { x.active && x.entry.None? && x.edges == map[] }

  /** After a sweep: live with its bits in both places and no flag set, or dead and bare. */
  predicate Settled(x: Vertex) {
    if x.entry.Some? then
      && x.active && x.template != {} && x.entry.value == State(x.template, {})
      && forall u | u in x.edges :: !x.edges[u]
    else !x.active && x.edges == map[]
  }

  predicate Ready(first: bool, x: Vertex) { if first then Unstarted(x) else Settled(x) }

  // Delivery in any order

  /** x is what a vertex looks like that heard us so far, started or not. */
  ghost predicate Hearing(pat: Pattern, first: bool, meta: nat, x0: Vertex, bs: seq<Bits>, us: set<nat>, started: bool, x: Vertex) {
    if first && LabelBits(pat, meta) == {} then
      us == {} && x == x0.(active := x.active) && (started ==> !x.active)
    else if first && us == {} then
      x == x0.(template := x.template) && (started ==> x.template == LabelBits(pat, meta))
    else
      x == AfterHearing(pat, first, meta, x0, bs, us)
  }

  lemma {:induction false} InitHearing(pat: Pattern, first: bool, meta: nat, x0: Vertex, bs: seq<Bits>, us: set<nat>, x: Vertex)
    requires Ready(first, x0) && Hearing(pat, first, meta, x0, bs, us, false, x)
    ensures Hearing(pat, first, meta, x0, bs, us, true, OnInit(pat, first, meta, x).0)
    ensures OnInit(pat, first, meta, x).1 == Sends(pat, first, meta, x0)
    ensures !first ==> x.edges.Keys == x0.edges.Keys
  {
  }

  lemma {:induction false} MessageHearing(pat: Pattern, first: bool, meta: nat, x0: Vertex, bs: seq<Bits>, us: set<nat>,
                                          started: bool, x: Vertex, from: nat)
    requires Ready(first, x0) && Hearing(pat, first, meta, x0, bs, us, started, x)
    requires from < |bs| && bs[from] != {}
    requires !first && x0.entry.Some? && Fits(pat, x0.template, bs[from]) ==> from in x0.edges
    ensures var us' := if Fits(pat, Sends(pat, first, meta, x0), bs[from]) then us + {from} else us;
      Hearing(pat, first, meta, x0, bs, us', started, OnMessage(pat, first, meta, x, from, bs[from]))
  {
    if first {
      FirstMessage(pat, meta, x0, bs, us, started, x, from);
    } else {
      LaterMessage(pat, meta, x0, bs, us, started, x, from);
    }
  }

  lemma {:induction false} BitsOfAdd(bs: seq<Bits>, us: set<nat>, from: nat)
    requires from < |bs|
    ensures BitsOf(bs, us + {from}) == BitsOf(bs, us) + bs[from] && BitsOf(bs, {}) == {}
  {
  }

  lemma {:induction false} FirstMessage(pat: Pattern, meta: nat, x0: Vertex, bs: seq<Bits>, us: set<nat>,
                                        started: bool, x: Vertex, from: nat)
    requires Ready(true, x0) && Hearing(pat, true, meta, x0, bs, us, started, x)
    requires from < |bs| && bs[from] != {}
    ensures var us' := if Fits(pat, Sends(pat, true, meta, x0), bs[from]) then us + {from} else us;
      Hearing(pat, true, meta, x0, bs, us', started, OnMessage(pat, true, meta, x, from, bs[from]))
  {
    BitsOfAdd(bs, us, from);
    FlagsAre(Flags(us, us)[from := true], us + {from}, us + {from});
    hide BitsOf, Fits, LabelBits;
  }

  lemma {:induction false} LaterMessage(pat: Pattern, meta: nat, x0: Vertex, bs: seq<Bits>, us: set<nat>,
                                        started: bool, x: Vertex, from: nat)
    requires Ready(false, x0) && Hearing(pat, false, meta, x0, bs, us, started, x)
    requires from < |bs| && bs[from] != {}
    requires x0.entry.Some? && Fits(pat, x0.template, bs[from]) ==> from in x0.edges
    ensures var us' := if Fits(pat, Sends(pat, false, meta, x0), bs[from]) then us + {from} else us;
      Hearing(pat, false, meta, x0, bs, us', started, OnMessage(pat, false, meta, x, from, bs[from]))
  {
    BitsOfAdd(bs, us, from);
    NothingFits(pat, {}, bs[from]);
    if from in x0.edges {
      FlagsAre(Flags(x0.edges.Keys, us)[from := true], x0.edges.Keys, us + {from});
    }
    hide BitsOf, Fits, LabelBits;
  }

  lemma {:induction false} NothingFits(pat: Pattern, own: Bits, other: Bits)
    ensures own == {} || other == {} ==> !Fits(pat, own, other)
  {
  }

  // One superstep

  ghost predicate AllReady(first: bool, xs: seq<Vertex>) {
    forall v | 0 <= v < |xs| :: Ready(first, xs[v])
  }

  /** Edges between live vertices are known on both sides, and are edges of the graph. */
  ghost predicate Mutual(g: Graph, xs: seq<Vertex>) {
    && (forall v, w | 0 <= v < |xs| && w in xs[v].edges :: g.Adjacent(v, w))
    && (forall v, w | 0 <= v < |xs| && 0 <= w < |xs| && xs[v].entry.Some? && xs[w].entry.Some? && w in xs[v].edges ::
          v in xs[w].edges)
  }

  ghost predicate Between(pat: Pattern, g: Graph, first: bool, xs: seq<Vertex>) {
    && pat.Valid() && g.Valid() && |xs| == |g.labels|
    && AllReady(first, xs) && Mutual(g, xs)
  }

  method QueueAll(g: Graph, first: bool, v: nat, x: Vertex, bits: Bits, msgs: multiset<Message>)
    returns (sent: multiset<Message>)
    requires v < |g.adj|
    ensures forall m: Message ::
              m in sent <==> m in msgs || (m.from == v && m.bits == bits && m.to in Targets(g, first, v, x))
  {
    sent := msgs;
    if first {
      for k := 0 to |g.adj[v]|
        invariant forall m: Message ::
          m in sent <==> m in msgs || (m.from == v && m.bits == bits && m.to in g.adj[v][..k])
      {
        assert g.adj[v][..k + 1] == g.adj[v][..k] + [g.adj[v][k]];
        sent := sent + multiset{Message(g.adj[v][k], v, bits)};
      }
      assert g.adj[v][..|g.adj[v]|] == g.adj[v];
    } else {
      var rest := x.edges.Keys;
      while rest != {}
        invariant rest <= x.edges.Keys
        invariant forall m: Message ::
          m in sent <==> m in msgs || (m.from == v && m.bits == bits && m.to in x.edges.Keys - rest)
      {
        var w :| w in rest;
        sent := sent + multiset{Message(w, v, bits)};
        rest := rest - {w};
      }
    }
  }

  ghost predicate Vertices(pat: Pattern, g: Graph, first: bool, xs0: seq<Vertex>, bs: seq<Bits>,
                           heard: seq<set<nat>>, todo: set<nat>, xs: seq<Vertex>) {
    && |xs| == |xs0| == |heard| == |g.labels|
    && forall w | 0 <= w < |xs| :: Hearing(pat, first, g.labels[w], xs0[w], bs, heard[w], w !in todo, xs[w])
  }

  ghost predicate Travelling(pat: Pattern, g: Graph, first: bool, xs0: seq<Vertex>, bs: seq<Bits>, todo: set<nat>,
                             msgs: multiset<Message>) {
    && |bs| == |xs0|
    && forall m | m in msgs :: m.from < |xs0| && m.from !in todo && m.to < |xs0|
         && m.to in Targets(g, first, m.from, xs0[m.from]) && m.bits == bs[m.from] != {}
  }

  /** Whatever was sent is on its way or was heard, if it fits. */
  ghost predicate Audible(pat: Pattern, g: Graph, first: bool, xs0: seq<Vertex>, bs: seq<Bits>,
                          heard: seq<set<nat>>, todo: set<nat>, msgs: multiset<Message>) {
    && |xs0| == |heard| == |bs|
    && (forall u, w | 0 <= u < |xs0| && u !in todo && 0 <= w < |xs0| && w in Targets(g, first, u, xs0[u]) && bs[u] != {} ::
          Message(w, u, bs[u]) in msgs || (Fits(pat, bs[w], bs[u]) ==> u in heard[w]))
  }

  /** And only that was heard. */
  ghost predicate Faithful(pat: Pattern, g: Graph, first: bool, xs0: seq<Vertex>, heard: seq<set<nat>>) {
    && |xs0| == |g.labels| == |heard|
    && forall w | 0 <= w < |xs0| :: heard[w] <= Heard(pat, g, first, xs0, w)
  }

  lemma {:induction false} TargetsBelow(g: Graph, first: bool, xs: seq<Vertex>, v: nat, w: nat)
    requires g.Valid() && Mutual(g, xs) && |xs| == |g.labels| && v < |xs| && w in Targets(g, first, v, xs[v])
    ensures w < |xs| && g.Adjacent(v, w)
  {
    if !first {
      assert w in xs[v].edges;
    }
  }
}
