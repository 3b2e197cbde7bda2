/** The supersteps of local constraint checking, and what they leave when nothing changes any more. */
module LocalConstraintChecking {
  import opened Collections
  import opened LocalConstraint

  ghost predicate Traversing(pat: Pattern, g: Graph, first: bool, xs0: seq<Vertex>, bs: seq<Bits>, heard: seq<set<nat>>,
                             todo: set<nat>, msgs: multiset<Message>, xs: seq<Vertex>) {
    && Between(pat, g, first, xs0) && bs == SentBits(pat, g, first, xs0)
    && Vertices(pat, g, first, xs0, bs, heard, todo, xs)
    && Travelling(pat, g, first, xs0, bs, todo, msgs)
    && Audible(pat, g, first, xs0, bs, heard, todo, msgs)
    && Faithful(pat, g, first, xs0, heard)
  }

  lemma {:induction false} TraverseStart(pat: Pattern, g: Graph, first: bool, xs0: seq<Vertex>)
    requires Between(pat, g, first, xs0)
    ensures Traversing(pat, g, first, xs0, SentBits(pat, g, first, xs0), seq(|xs0|, _ => {}), Indices(|xs0|), multiset{}, xs0)
  {
    var bs := SentBits(pat, g, first, xs0);
    forall w | 0 <= w < |xs0|
      ensures Hearing(pat, first, g.labels[w], xs0[w], bs, {}, false, xs0[w])
    {
      StartHearing(pat, first, g.labels[w], xs0[w], bs);
    }
  }

  lemma {:induction false} StartHearing(pat: Pattern, first: bool, meta: nat, x: Vertex, bs: seq<Bits>)
    requires Ready(first, x)
    ensures Hearing(pat, first, meta, x, bs, {}, false, x)
  {
    assert BitsOf(bs, {}) == {};
    if !first && x.entry.Some? {
      FlagsAre(x.edges, x.edges.Keys, {});
    }
  }

  lemma {:induction false} InitVertices(pat: Pattern, g: Graph, first: bool, xs0: seq<Vertex>, bs: seq<Bits>, heard: seq<set<nat>>,
                                        todo: set<nat>, xs: seq<Vertex>, v: nat, x: Vertex)
    requires Vertices(pat, g, first, xs0, bs, heard, todo, xs) && v < |xs|
    requires Hearing(pat, first, g.labels[v], xs0[v], bs, heard[v], true, x)
    ensures Vertices(pat, g, first, xs0, bs, heard, todo - {v}, xs[v := x])
  {
    forall w | 0 <= w < |xs|
      ensures Hearing(pat, first, g.labels[w], xs0[w], bs, heard[w], w !in todo - {v}, xs[v := x][w])
    {
      assert Hearing(pat, first, g.labels[w], xs0[w], bs, heard[w], w !in todo, xs[w]);
    }
  }

  lemma {:induction false} InitTravels(pat: Pattern, g: Graph, first: bool, xs0: seq<Vertex>, bs: seq<Bits>,
                                       todo: set<nat>, msgs: multiset<Message>, msgs': multiset<Message>, v: nat)
    requires Between(pat, g, first, xs0) && v < |xs0|
    requires Travelling(pat, g, first, xs0, bs, todo, msgs)
    requires bs[v] == {} ==> msgs' == msgs
    requires bs[v] != {} ==> forall m: Message ::
      m in msgs' <==> m in msgs || (m.from == v && m.bits == bs[v] && m.to in Targets(g, first, v, xs0[v]))
    ensures Travelling(pat, g, first, xs0, bs, todo - {v}, msgs')
  {
    forall m | m in msgs'
      ensures m.from < |xs0| && m.from !in todo - {v} && m.to < |xs0|
      ensures m.to in Targets(g, first, m.from, xs0[m.from]) && m.bits == bs[m.from] != {}
    {
      if m !in msgs {
        TargetsBelow(g, first, xs0, v, m.to);
      }
    }
  }

  lemma {:induction false} InitAudible(pat: Pattern, g: Graph, first: bool, xs0: seq<Vertex>, bs: seq<Bits>, heard: seq<set<nat>>,
                                       todo: set<nat>, msgs: multiset<Message>, msgs': multiset<Message>, v: nat)
    requires Audible(pat, g, first, xs0, bs, heard, todo, msgs) && v < |xs0|
    requires bs[v] == {} ==> msgs' == msgs
    requires bs[v] != {} ==> forall m: Message ::
      m in msgs' <==> m in msgs || (m.from == v && m.bits == bs[v] && m.to in Targets(g, first, v, xs0[v]))
    ensures Audible(pat, g, first, xs0, bs, heard, todo - {v}, msgs')
  {
    hide Targets, Fits;
  }

  lemma {:induction false} HearVertices(pat: Pattern, g: Graph, first: bool, xs0: seq<Vertex>, bs: seq<Bits>, heard: seq<set<nat>>,
                                        todo: set<nat>, xs: seq<Vertex>, w: nat, us: set<nat>, x: Vertex)
    requires Vertices(pat, g, first, xs0, bs, heard, todo, xs) && w < |xs|
    requires Hearing(pat, first, g.labels[w], xs0[w], bs, us, w !in todo, x)
    ensures Vertices(pat, g, first, xs0, bs, heard[w := us], todo, xs[w := x])
  {
    hide Hearing;
  }

  lemma {:induction false} HearTravels(pat: Pattern, g: Graph, first: bool, xs0: seq<Vertex>, bs: seq<Bits>,
                                       todo: set<nat>, msgs: multiset<Message>, m: Message)
    requires Travelling(pat, g, first, xs0, bs, todo, msgs) && m in msgs
    ensures Travelling(pat, g, first, xs0, bs, todo, msgs - multiset{m})
    ensures |msgs - multiset{m}| < |msgs|
  {
    hide Targets;
  }

  lemma {:induction false} HearAudible(pat: Pattern, g: Graph, first: bool, xs0: seq<Vertex>, bs: seq<Bits>, heard: seq<set<nat>>,
                                       todo: set<nat>, msgs: multiset<Message>, m: Message, us: set<nat>)
    requires Audible(pat, g, first, xs0, bs, heard, todo, msgs)
    requires m.to < |xs0| && m.from < |xs0| && m.bits == bs[m.from]
    requires us == if Fits(pat, bs[m.to], m.bits) then heard[m.to] + {m.from} else heard[m.to]
    ensures Audible(pat, g, first, xs0, bs, heard[m.to := us], todo, msgs - multiset{m})
  {
    hide Targets, Fits;
    var w := m.to;
    forall u, y | 0 <= u < |xs0| && u !in todo && 0 <= y < |xs0| && y in Targets(g, first, u, xs0[u]) && bs[u] != {}
      ensures Message(y, u, bs[u]) in msgs - multiset{m} || (Fits(pat, bs[y], bs[u]) ==> u in heard[w := us][y])
    {
      assert Message(y, u, bs[u]) in msgs || (Fits(pat, bs[y], bs[u]) ==> u in heard[y]);
      if Message(y, u, bs[u]) == m {
        assert y == w && u == m.from;
      }
    }
  }

  lemma {:induction false} HearFaithful(pat: Pattern, g: Graph, first: bool, xs0: seq<Vertex>, bs: seq<Bits>, heard: seq<set<nat>>,
                                        todo: set<nat>, msgs: multiset<Message>, m: Message, us: set<nat>)
    requires |xs0| == |g.labels|
    requires bs == SentBits(pat, g, first, xs0) && Faithful(pat, g, first, xs0, heard)
    requires Travelling(pat, g, first, xs0, bs, todo, msgs) && m in msgs
    requires us == if Fits(pat, bs[m.to], m.bits) then heard[m.to] + {m.from} else heard[m.to]
    ensures Faithful(pat, g, first, xs0, heard[m.to := us])
  {
    var w := m.to;
    assert Fits(pat, bs[w], m.bits) ==> m.from in Heard(pat, g, first, xs0, w);
    hide Heard, SentBits, Travelling, Fits;
  }

  /** Edges the receiver of a fitting message needs are there: the sender's edge is mutual. */
  lemma {:induction false} EdgeKnown(pat: Pattern, g: Graph, first: bool, xs0: seq<Vertex>, bs: seq<Bits>,
                                     todo: set<nat>, msgs: multiset<Message>, m: Message)
    requires Between(pat, g, first, xs0) && bs == SentBits(pat, g, first, xs0)
    requires Travelling(pat, g, first, xs0, bs, todo, msgs) && m in msgs
    ensures !first && xs0[m.to].entry.Some? ==> m.from in xs0[m.to].edges
  {
    if !first && xs0[m.to].entry.Some? {
      assert xs0[m.from].entry.Some? && m.to in xs0[m.from].edges;
    }
  }

  /** One vertex starts its superstep. */
  method StartVertex(pat: Pattern, g: Graph, first: bool, ghost xs0: seq<Vertex>, ghost bs: seq<Bits>, ghost heard: seq<set<nat>>,
                     ghost todo: set<nat>, msgs: multiset<Message>, xs: seq<Vertex>, v: nat)
    returns (msgs': multiset<Message>, xs': seq<Vertex>)
    requires Traversing(pat, g, first, xs0, bs, heard, todo, msgs, xs) && v in todo && v < |xs0|
    ensures Traversing(pat, g, first, xs0, bs, heard, todo - {v}, msgs', xs')
    ensures |todo - {v}| < |todo|
  {
    assert |xs| == |xs0| == |g.labels| == |g.adj|;
    assert Hearing(pat, first, g.labels[v], xs0[v], bs, heard[v], false, xs[v]) && Ready(first, xs0[v]);
    assert bs[v] == Sends(pat, first, g.labels[v], xs0[v]);
    InitHearing(pat, first, g.labels[v], xs0[v], bs, heard[v], xs[v]);
    assert Targets(g, first, v, xs[v]) == Targets(g, first, v, xs0[v]);
    assert |todo - {v}| < |todo|;
    hide Hearing, OnInit, Sends, Targets, Heard, Vertices, Travelling, Audible, Faithful, Between, SentBits;
    var (x, bits) := OnInit(pat, first, g.labels[v], xs[v]);
    msgs' := msgs;
    if bits != {} {
      msgs' := QueueAll(g, first, v, xs[v], bits, msgs);
    }
    xs' := xs[v := x];
    InitVertices(pat, g, first, xs0, bs, heard, todo, xs, v, x);
    InitTravels(pat, g, first, xs0, bs, todo, msgs, msgs', v);
    InitAudible(pat, g, first, xs0, bs, heard, todo, msgs, msgs', v);
  }

  /** One message arrives. */
  method Receive(pat: Pattern, g: Graph, first: bool, ghost xs0: seq<Vertex>, ghost bs: seq<Bits>, ghost heard: seq<set<nat>>,
                 ghost todo: set<nat>, ghost msgs: multiset<Message>, xs: seq<Vertex>, m: Message)
    returns (xs': seq<Vertex>, ghost heard': seq<set<nat>>)
    requires Traversing(pat, g, first, xs0, bs, heard, todo, msgs, xs) && m in msgs
    ensures Traversing(pat, g, first, xs0, bs, heard', todo, msgs - multiset{m}, xs')
    ensures m.to < |xs| && m.to < |g.labels|
    ensures xs' == xs[m.to := OnMessage(pat, first, g.labels[m.to], xs[m.to], m.from, m.bits)]
    ensures |msgs - multiset{m}| < |msgs|
  {
    var w := m.to;
    assert |xs| == |xs0| == |g.labels| == |heard| == |bs| && w < |xs0| && m.from < |bs| && m.bits == bs[m.from] != {};
    assert Hearing(pat, first, g.labels[w], xs0[w], bs, heard[w], w !in todo, xs[w]) && Ready(first, xs0[w]);
    assert bs[w] == Sends(pat, first, g.labels[w], xs0[w]);
    hide Hearing, Vertices, Travelling, Audible, Faithful, Between, SentBits, OnMessage, Fits, Sends, Heard, Ready, Targets;
    EdgeKnown(pat, g, first, xs0, bs, todo, msgs, m);
    MessageHearing(pat, first, g.labels[w], xs0[w], bs, heard[w], w !in todo, xs[w], m.from);
    ghost var us := if Fits(pat, bs[w], m.bits) then heard[w] + {m.from} else heard[w];
    var x := OnMessage(pat, first, g.labels[w], xs[w], m.from, m.bits);
    HearVertices(pat, g, first, xs0, bs, heard, todo, xs, w, us, x);
    HearTravels(pat, g, first, xs0, bs, todo, msgs, m);
    HearAudible(pat, g, first, xs0, bs, heard, todo, msgs, m, us);
    HearFaithful(pat, g, first, xs0, bs, heard, todo, msgs, m, us);
    xs', heard' := xs[w := x], heard[w := us];
  }

  /** In whatever order vertices start and messages arrive, everybody hears the same. */
  method Traverse(pat: Pattern, g: Graph, first: bool, xs0: seq<Vertex>) returns (xs: seq<Vertex>)
    requires Between(pat, g, first, xs0)
    ensures |xs| == |xs0| == |g.labels|
    ensures forall w | 0 <= w < |xs| ::
      xs[w] == AfterHearing(pat, first, g.labels[w], xs0[w], SentBits(pat, g, first, xs0), Heard(pat, g, first, xs0, w))
  {
    assert |xs0| == |g.labels|;
    hide *;
    xs := xs0;
    var todo, msgs := Indices(|xs0|), multiset{};
    ghost var bs, heard := SentBits(pat, g, first, xs0), seq(|xs0|, _ => {});
    TraverseStart(pat, g, first, xs0);
    while todo != {} || |msgs| > 0
      invariant Traversing(pat, g, first, xs0, bs, heard, todo, msgs, xs)
      invariant todo <= Indices(|xs0|)
      decreases |todo|, |msgs|
    {
      if
      case todo != {} =>
        var v :| v in todo;
        msgs, xs := StartVertex(pat, g, first, xs0, bs, heard, todo, msgs, xs, v);
        todo := todo - {v};
      case |msgs| > 0 =>
        var m :| m in msgs;
        xs, heard := Receive(pat, g, first, xs0, bs, heard, todo, msgs, xs, m);
        msgs := msgs - multiset{m};
    }
    TraverseDone(pat, g, first, xs0, bs, heard, xs);
  }

  lemma {:induction false} TraverseDone(pat: Pattern, g: Graph, first: bool, xs0: seq<Vertex>, bs: seq<Bits>, heard: seq<set<nat>>,
                                        xs: seq<Vertex>)
    requires Traversing(pat, g, first, xs0, bs, heard, {}, multiset{}, xs)
    ensures |xs| == |xs0| == |g.labels|
    ensures forall w | 0 <= w < |xs| ::
      xs[w] == AfterHearing(pat, first, g.labels[w], xs0[w], SentBits(pat, g, first, xs0), Heard(pat, g, first, xs0, w))
  {
    forall w | 0 <= w < |xs|
      ensures heard[w] == Heard(pat, g, first, xs0, w)
      ensures xs[w] == AfterHearing(pat, first, g.labels[w], xs0[w], bs, heard[w])
    {
      forall u | u in Heard(pat, g, first, xs0, w)
        ensures u in heard[w]
      {
        NothingFits(pat, bs[w], bs[u]);
      }
      assert Hearing(pat, first, g.labels[w], xs0[w], bs, heard[w], true, xs[w]) && Ready(first, xs0[w]);
      HearingDone(pat, first, g.labels[w], xs0[w], bs, heard[w], xs[w]);
    }
  }

  lemma {:induction false} HearingDone(pat: Pattern, first: bool, meta: nat, x0: Vertex, bs: seq<Bits>, us: set<nat>, x: Vertex)
    requires Ready(first, x0) && Hearing(pat, first, meta, x0, bs, us, true, x)
    ensures x == AfterHearing(pat, first, meta, x0, bs, us)
  {
  }

  // Sweeping

  function Confirmed(pat: Pattern, bits: Bits, heard: Bits): Bits {
    set p | p in bits && pat.Edges(p) != {} && pat.Edges(p) <= heard
  }

  function Size(x: Vertex): nat {
    if x.entry.Some? then 1 + |x.template| + |x.edges| else 0
  }

  /** What one superstep does to a vertex that held bits and heard us. */
  ghost predicate Advanced(pat: Pattern, first: bool, x0: Vertex, bits: Bits, bs: seq<Bits>, us: set<nat>, x: Vertex, changed: bool) {
    var kept := Confirmed(pat, bits, BitsOf(bs, us));
    && Settled(x)
    && Sends(pat, false, 0, x) == kept
    && x.edges.Keys == (if kept == {} then {} else us)
    && (!changed ==> kept == bits && (!first ==> Size(x) == Size(x0)))
    && (!first && changed ==> Size(x) < Size(x0))
  }

  lemma {:induction false} FirstAdvanced(pat: Pattern, meta: nat, x0: Vertex, bs: seq<Bits>, us: set<nat>)
    requires Ready(true, x0) && (us != {} ==> LabelBits(pat, meta) != {})
    ensures var (x, changed) := Sweep(pat, true, AfterHearing(pat, true, meta, x0, bs, us));
      Advanced(pat, true, x0, Sends(pat, true, meta, x0), bs, us, x, changed)
  {
    var own := LabelBits(pat, meta);
    if own != {} && us != {} {
      var st := State(own, BitsOf(bs, us));
      assert Required(pat, st) == Confirmed(pat, own, BitsOf(bs, us));
      assert Flagged(Flags(us, us)) == us;
    }
    hide LabelBits;
  }

  lemma {:induction false} LaterAdvanced(pat: Pattern, meta: nat, x0: Vertex, bs: seq<Bits>, us: set<nat>)
    requires Ready(false, x0) && us <= x0.edges.Keys
    ensures var (x, changed) := Sweep(pat, false, AfterHearing(pat, false, meta, x0, bs, us));
      Advanced(pat, false, x0, Sends(pat, false, meta, x0), bs, us, x, changed)
  {
    if x0.entry.Some? {
      var own := x0.template;
      var st := State(own, BitsOf(bs, us));
      var kept := Confirmed(pat, own, BitsOf(bs, us));
      assert Required(pat, st) == kept;
      var flags := Flags(x0.edges.Keys, us);
      assert Flagged(flags) == us;
      var rest := Flags(us, {});
      SmallerSet(kept, own);
      SmallerSet(us, x0.edges.Keys);
      assert |rest| == |rest.Keys| && |x0.edges| == |x0.edges.Keys|;
      hide Confirmed, BitsOf, Required, Flagged;
    }
  }

  function Total(xs: seq<Vertex>): nat {
    if xs == [] then 0 else Total(xs[..|xs| - 1]) + Size(xs[|xs| - 1])
  }

  lemma {:induction false} TotalShrinks(xs: seq<Vertex>, ys: seq<Vertex>)
    requires |xs| == |ys| && forall v | 0 <= v < |xs| :: Size(ys[v]) <= Size(xs[v])
    ensures Total(ys) <= Total(xs)
    ensures (exists v | 0 <= v < |xs| :: Size(ys[v]) < Size(xs[v])) ==> Total(ys) < Total(xs)
  {
    hide Size;
    if xs != [] {
      TotalShrinks(xs[..|xs| - 1], ys[..|ys| - 1]);
      if v :| 0 <= v < |xs| && Size(ys[v]) < Size(xs[v]) {
        assert v < |xs| - 1 ==> Size(ys[..|ys| - 1][v]) < Size(xs[..|xs| - 1][v]);
      }
    }
  }

  /** What a superstep does to vertex w, where everybody holds and hears what they do at its start. */
  ghost predicate AdvancedAt(pat: Pattern, g: Graph, first: bool, xs0: seq<Vertex>, w: nat, x: Vertex, changed: bool)
    requires |xs0| == |g.labels| && w < |xs0|
  {
    var bs := SentBits(pat, g, first, xs0);
    Advanced(pat, first, xs0[w], bs[w], bs, Heard(pat, g, first, xs0, w), x, changed)
  }

  /** The effect of a whole superstep. */
  ghost predicate Stepped(pat: Pattern, g: Graph, first: bool, xs0: seq<Vertex>, xs: seq<Vertex>, changed: bool)
    requires |xs0| == |g.labels|
  {
    && |xs| == |xs0|
    && forall w | 0 <= w < |xs| ::
         AdvancedAt(pat, g, first, xs0, w, xs[w], false) || (changed && AdvancedAt(pat, g, first, xs0, w, xs[w], true))
  }

  lemma {:induction false} HeardMutual(pat: Pattern, g: Graph, first: bool, xs0: seq<Vertex>, w: nat)
    requires Between(pat, g, first, xs0) && w < |xs0|
    ensures !first ==> Heard(pat, g, first, xs0, w) <= xs0[w].edges.Keys
    ensures Heard(pat, g, first, xs0, w) != {} ==> SentBits(pat, g, first, xs0)[w] != {}
  {
    var bs := SentBits(pat, g, first, xs0);
    forall u | u in Heard(pat, g, first, xs0, w)
      ensures bs[w] != {} && (!first ==> u in xs0[w].edges)
    {
      NothingFits(pat, bs[w], bs[u]);
    }
  }

  lemma {:induction false} VertexAdvanced(pat: Pattern, g: Graph, first: bool, xs0: seq<Vertex>, w: nat)
    requires Between(pat, g, first, xs0) && w < |xs0|
    ensures var y := AfterHearing(pat, first, g.labels[w], xs0[w], SentBits(pat, g, first, xs0), Heard(pat, g, first, xs0, w));
      var (x, changed) := Sweep(pat, first, y);
      AdvancedAt(pat, g, first, xs0, w, x, changed)
  {
    var bs, us := SentBits(pat, g, first, xs0), Heard(pat, g, first, xs0, w);
    assert Ready(first, xs0[w]) && bs[w] == Sends(pat, first, g.labels[w], xs0[w]);
    HeardMutual(pat, g, first, xs0, w);
    if first {
      assert LabelBits(pat, g.labels[w]) == bs[w];
      hide Between, Heard, SentBits, Advanced, Sweep, AfterHearing, Sends, Ready;
      FirstAdvanced(pat, g.labels[w], xs0[w], bs, us);
    } else {
      hide Between, Heard, SentBits, Advanced, Sweep, AfterHearing, Sends, Ready;
      LaterAdvanced(pat, g.labels[w], xs0[w], bs, us);
    }
  }

  lemma {:induction false} SizeAdvances(pat: Pattern, g: Graph, xs0: seq<Vertex>, w: nat, x: Vertex, changed: bool)
    requires |xs0| == |g.labels| && w < |xs0| && AdvancedAt(pat, g, false, xs0, w, x, changed)
    ensures Size(x) <= Size(xs0[w]) && (changed ==> Size(x) < Size(xs0[w]))
  {
  }

  /** The loop over all vertices after the traversal. */
  method SweepAll(pat: Pattern, g: Graph, first: bool, ghost xs0: seq<Vertex>, ys: seq<Vertex>)
    returns (xs: seq<Vertex>, notFinished: bool)
    requires Between(pat, g, first, xs0) && |ys| == |xs0| == |g.labels|
    requires forall w | 0 <= w < |ys| ::
      ys[w] == AfterHearing(pat, first, g.labels[w], xs0[w], SentBits(pat, g, first, xs0), Heard(pat, g, first, xs0, w))
    ensures Stepped(pat, g, first, xs0, xs, notFinished)
    ensures !first && notFinished ==> exists w :: 0 <= w < |xs0| && Size(xs[w]) < Size(xs0[w])
    ensures !first ==> forall w | 0 <= w < |xs0| :: Size(xs[w]) <= Size(xs0[w])
  {
    xs, notFinished := [], false;
    hide AdvancedAt, Between, AfterHearing, Sweep, SentBits, Heard, Size;
    for w := 0 to |ys|
      invariant |xs| == w
      invariant forall i | 0 <= i < w ::
        AdvancedAt(pat, g, first, xs0, i, xs[i], false) || (notFinished && AdvancedAt(pat, g, first, xs0, i, xs[i], true))
      invariant !first && notFinished ==> exists i :: 0 <= i < w && Size(xs[i]) < Size(xs0[i])
      invariant !first ==> forall i | 0 <= i < w :: Size(xs[i]) <= Size(xs0[i])
    {
      VertexAdvanced(pat, g, first, xs0, w);
      var x, changed := SweepVertex(pat, first, ys[w]);
      if !first {
        SizeAdvances(pat, g, xs0, w, x, changed);
      }
      ghost var before := xs;
      xs, notFinished := xs + [x], notFinished || changed;
      assert forall i | 0 <= i < w :: xs[i] == before[i];
    }
  }

  method Superstep(pat: Pattern, g: Graph, first: bool, xs0: seq<Vertex>) returns (xs: seq<Vertex>, notFinished: bool)
    requires Between(pat, g, first, xs0)
    ensures |xs0| == |g.labels| && Stepped(pat, g, first, xs0, xs, notFinished)
    ensures !first && notFinished ==> Total(xs) < Total(xs0)
  {
    assert |xs0| == |g.labels|;
    hide Between, AfterHearing, SentBits, Heard, Size, Total, AdvancedAt;
    var ys := Traverse(pat, g, first, xs0);
    xs, notFinished := SweepAll(pat, g, first, xs0, ys);
    if !first {
      TotalShrinks(xs0, xs);
    }
  }
}
