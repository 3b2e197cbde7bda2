/** Token passing with its memory agrees with plain path search, in every order of delivery. */
module TokenPassingExactness {
  import opened Collections
  import opened TokenPassing

  ghost predicate Invariant(c: Cycle, g: Graph, todo: set<nat>, seen: set<(nat, nat)>, tokens: multiset<Token>, relays: multiset<Token>,
                            lasts: multiset<Token>, sources: map<nat, bool>, flags: set<(nat, nat)>) {
    && c.Valid() && g.Valid()
    && Travelling(c, g, todo, tokens)
    && Waiting(c, g, todo, seen, relays, lasts)
    && SeenSound(c, g, todo, seen)
    && MarkSound(c, g, todo, sources, flags)
    && Complete(c, g, todo, seen, tokens, relays, lasts, sources, flags)
  }

  // A vertex starts

  lemma {:induction false} StartSound(c: Cycle, g: Graph, todo: set<nat>, seen: set<(nat, nat)>, tokens: multiset<Token>, tokens': multiset<Token>,
                                      relays: multiset<Token>, lasts: multiset<Token>, sources: map<nat, bool>, flags: set<(nat, nat)>, v: nat)
    requires c.Valid() && v in todo && |c.indices| > 0
    requires Travelling(c, g, todo, tokens) && Waiting(c, g, todo, seen, relays, lasts)
    requires SeenSound(c, g, todo, seen) && MarkSound(c, g, todo, sources, flags)
    requires if Suits(c, g, v, 0)
             then forall t: Token :: t in tokens' <==>
                    t in tokens || (t == Token(t.vertex, v, v, 0, c.indices[0]) && Joined(g, v, t.vertex))
             else tokens' == tokens
    ensures Travelling(c, g, todo - {v}, tokens') && Waiting(c, g, todo - {v}, seen, relays, lasts)
    ensures SeenSound(c, g, todo - {v}, seen)
    ensures MarkSound(c, g, todo - {v}, if Suits(c, g, v, 0) then sources[v := false] else sources, flags)
  {
    hide Suits, Joined, Returns, Between, Relay;
  }

  lemma {:induction false} StartComplete(c: Cycle, g: Graph, todo: set<nat>, seen: set<(nat, nat)>, tokens: multiset<Token>, tokens': multiset<Token>,
                                         relays: multiset<Token>, lasts: multiset<Token>, sources: map<nat, bool>, flags: set<(nat, nat)>, v: nat)
    requires c.Valid() && v in todo && |c.indices| > 0
    requires Complete(c, g, todo, seen, tokens, relays, lasts, sources, flags)
    requires if Suits(c, g, v, 0)
             then forall t: Token :: t in tokens' <==>
                    t in tokens || (t == Token(t.vertex, v, v, 0, c.indices[0]) && Joined(g, v, t.vertex))
             else tokens' == tokens
    requires v !in sources
    ensures Complete(c, g, todo - {v}, seen, tokens', relays, lasts, if Suits(c, g, v, 0) then sources[v := false] else sources, flags)
  {
    var sources' := if Suits(c, g, v, 0) then sources[v := false] else sources;
    forall s: nat, i: nat, p: nat, w: nat | Passes(c, g, s, i, p, w) && Emitted(todo - {v}, seen, relays, s, i, p)
      ensures i < |c.indices| && Handled(c, g, seen, tokens', lasts, sources', flags, s, i, p, w)
    {
      ReachesSuits(c, g, s, i, p);
      if i == 0 && s == v {
        assert Token(w, v, v, 0, c.indices[0]) in tokens';
      } else {
        assert Emitted(todo, seen, relays, s, i, p);
        assert Handled(c, g, seen, tokens, lasts, sources, flags, s, i, p, w);
      }
    }
  }

  // A token arrives

  lemma {:induction false} ArriveTravels(c: Cycle, g: Graph, todo: set<nat>, tokens: multiset<Token>, t: Token)
    requires Travelling(c, g, todo, tokens) && t in tokens
    ensures Sane(c, g, todo, t) && Travelling(c, g, todo, tokens - multiset{t}) && |tokens - multiset{t}| < |tokens|
  {
    hide Sane;
  }

  lemma {:induction false} ArriveWaits(c: Cycle, g: Graph, todo: set<nat>, seen: set<(nat, nat)>,
                                       relays: multiset<Token>, lasts: multiset<Token>, t: Token)
    requires Sane(c, g, todo, t) && Accepts(c, g, seen, t) && Waiting(c, g, todo, seen, relays, lasts)
    ensures Relay(c, t) ==> Waiting(c, g, todo, seen + {(t.vertex, t.target)}, relays + multiset{t}, lasts)
    ensures !Relay(c, t) ==> Waiting(c, g, todo, seen, relays, lasts + multiset{t})
  {
    assert Suits(c, g, t.vertex, t.itr + 1);
    hide Sane, Suits, Relay, Accepts;
  }

  lemma {:induction false} ArriveSeen(c: Cycle, g: Graph, todo: set<nat>, seen: set<(nat, nat)>, t: Token)
    requires Sane(c, g, todo, t) && Relay(c, t) && Suits(c, g, t.vertex, t.itr + 1) && SeenSound(c, g, todo, seen)
    ensures SeenSound(c, g, todo, seen + {(t.vertex, t.target)})
  {
    NextReached(c, g, t.target, t.itr, t.parent, t.vertex);
    assert Between(c, g, t.target, t.vertex);
    hide Between, Suits;
  }

  lemma {:induction false} NextReached(c: Cycle, g: Graph, s: nat, i: nat, p: nat, v: nat)
    requires Reaches(c, g, s, i, p) && Joined(g, p, v) && Suits(c, g, v, i + 1)
    ensures Reaches(c, g, s, i + 1, v)
  {
  }

  lemma {:induction false} ArriveEmitted(todo: set<nat>, seen: set<(nat, nat)>, relays: multiset<Token>, t: Token, s: nat, i: nat, p: nat)
    requires Emitted(todo, seen + {(t.vertex, t.target)}, relays + multiset{t}, s, i, p)
    ensures Emitted(todo, seen, relays, s, i, p)
  {
    assert t in relays + multiset{t};
    assert forall r | r in relays :: r in relays + multiset{t};
  }

  lemma {:induction false} ArriveComplete(c: Cycle, g: Graph, todo: set<nat>, seen: set<(nat, nat)>, tokens: multiset<Token>,
                                          relays: multiset<Token>, lasts: multiset<Token>, sources: map<nat, bool>, flags: set<(nat, nat)>, t: Token)
    requires c.Valid() && t in tokens && Sane(c, g, todo, t)
    requires Complete(c, g, todo, seen, tokens, relays, lasts, sources, flags)
    ensures var ok, relay := Accepts(c, g, seen, t), Relay(c, t);
      Complete(c, g, todo, if ok && relay then seen + {(t.vertex, t.target)} else seen, tokens - multiset{t},
               if ok && relay then relays + multiset{t} else relays, if ok && !relay then lasts + multiset{t} else lasts, sources, flags)
  {
    var ok, relay := Accepts(c, g, seen, t), Relay(c, t);
    var seen' := if ok && relay then seen + {(t.vertex, t.target)} else seen;
    var relays', lasts' := if ok && relay then relays + multiset{t} else relays, if ok && !relay then lasts + multiset{t} else lasts;
    forall s: nat, i: nat, p: nat, v: nat | Passes(c, g, s, i, p, v) && Emitted(todo, seen', relays', s, i, p)
      ensures i < |c.indices| && Handled(c, g, seen', tokens - multiset{t}, lasts', sources, flags, s, i, p, v)
    {
      if ok && relay {
        ArriveEmitted(todo, seen, relays, t, s, i, p);
      }
      assert Handled(c, g, seen, tokens, lasts, sources, flags, s, i, p, v);
      hide Complete, HasRelay, Emitted;
      if Token(v, p, s, i, c.indices[i]) == t {
        TakenCare(c, g, seen, t);
      }
    }
  }

  /** A token that a path needs is refused only if its vertex has passed on one from the same source. */
  lemma {:induction false} TakenCare(c: Cycle, g: Graph, seen: set<(nat, nat)>, t: Token)
    requires c.Valid() && t.itr < c.Length() && t.itr < |c.indices| && t.parentIndex == c.indices[t.itr]
    requires Passes(c, g, t.target, t.itr, t.parent, t.vertex)
    ensures !Accepts(c, g, seen, t) ==> Relay(c, t) && (t.vertex, t.target) in seen
  {
    ReachesSuits(c, g, t.target, t.itr, t.parent);
  }

  // A relayed token is visited

  lemma {:induction false} RelaySound(c: Cycle, g: Graph, todo: set<nat>, seen: set<(nat, nat)>, tokens: multiset<Token>, tokens': multiset<Token>,
                                      relays: multiset<Token>, lasts: multiset<Token>, t: Token)
    requires c.Valid() && t in relays
    requires Travelling(c, g, todo, tokens) && Waiting(c, g, todo, seen, relays, lasts)
    requires t.itr + 1 < |c.indices|
    requires forall r: Token :: r in tokens' <==>
      r in tokens || (r == Token(r.vertex, t.vertex, t.target, t.itr + 1, c.indices[t.itr + 1]) && Joined(g, t.vertex, r.vertex) && r.vertex != t.parent)
    ensures Travelling(c, g, todo, tokens') && Waiting(c, g, todo, seen, relays - multiset{t}, lasts)
    ensures |relays - multiset{t}| < |relays|
  {
    NextReached(c, g, t.target, t.itr, t.parent, t.vertex);
    hide Suits, Joined, Reaches;
  }

  lemma {:induction false} RelayEmitted(todo: set<nat>, seen: set<(nat, nat)>, relays: multiset<Token>, t: Token, s: nat, i: nat, p: nat)
    requires Emitted(todo, seen, relays - multiset{t}, s, i, p)
    ensures Emitted(todo, seen, relays, s, i, p) || (i > 0 && p == t.vertex && s == t.target)
  {
    if i > 0 && HasRelay(relays, p, s) {
      var r :| r in relays && r.vertex == p && r.target == s;
      if r != t {
        assert r in relays - multiset{t};
      }
    }
  }

  lemma {:induction false} RelayPasses(c: Cycle, g: Graph, todo: set<nat>, t: Token, s: nat, i: nat, p: nat, v: nat)
    requires c.Valid() && Sane(c, g, todo, t) && Relay(c, t) && Suits(c, g, t.vertex, t.itr + 1)
    requires Passes(c, g, s, i, p, v) && i > 0 && p == t.vertex && s == t.target
    ensures i == t.itr + 1 && v != t.parent
  {
    ReachesSuits(c, g, s, i, p);
    OnePosition(c, g, p, i, t.itr + 1);
    ReachesSuits(c, g, t.target, t.itr, t.parent);
    NeverBack(c, g, t.parent, t.itr);
  }

  lemma {:induction false} RelayComplete(c: Cycle, g: Graph, todo: set<nat>, seen: set<(nat, nat)>, tokens: multiset<Token>, tokens': multiset<Token>,
                                         relays: multiset<Token>, lasts: multiset<Token>, sources: map<nat, bool>, flags: set<(nat, nat)>, t: Token)
    requires c.Valid() && t in relays && Waiting(c, g, todo, seen, relays, lasts)
    requires Complete(c, g, todo, seen, tokens, relays, lasts, sources, flags)
    requires t.itr + 1 < |c.indices|
    requires forall r: Token :: r in tokens' <==>
      r in tokens || (r == Token(r.vertex, t.vertex, t.target, t.itr + 1, c.indices[t.itr + 1]) && Joined(g, t.vertex, r.vertex) && r.vertex != t.parent)
    ensures Complete(c, g, todo, seen, tokens', relays - multiset{t}, lasts, sources, flags)
  {
    forall s: nat, i: nat, p: nat, v: nat | Passes(c, g, s, i, p, v) && Emitted(todo, seen, relays - multiset{t}, s, i, p)
      ensures i < |c.indices| && Handled(c, g, seen, tokens', lasts, sources, flags, s, i, p, v)
    {
      RelayEmitted(todo, seen, relays, t, s, i, p);
      if Emitted(todo, seen, relays, s, i, p) {
        assert Handled(c, g, seen, tokens, lasts, sources, flags, s, i, p, v);
      } else {
        RelayPasses(c, g, todo, t, s, i, p, v);
        assert Token(v, p, s, i, c.indices[i]) in tokens';
      }
    }
  }

  // The last step

  lemma {:induction false} LastWaits(c: Cycle, g: Graph, todo: set<nat>, seen: set<(nat, nat)>, relays: multiset<Token>, lasts: multiset<Token>, t: Token)
    requires t in lasts && Waiting(c, g, todo, seen, relays, lasts)
    ensures Sane(c, g, todo, t) && !Relay(c, t) && Suits(c, g, t.vertex, t.itr + 1)
    ensures Waiting(c, g, todo, seen, relays, lasts - multiset{t}) && |lasts - multiset{t}| < |lasts|
  {
    hide Sane, Suits, Relay;
  }

  lemma {:induction false} LastSound(c: Cycle, g: Graph, todo: set<nat>, sources: map<nat, bool>, flags: set<(nat, nat)>, t: Token)
    requires c.Valid() && Sane(c, g, todo, t) && !Relay(c, t) && Suits(c, g, t.vertex, t.itr + 1) && t.vertex == t.target
    requires MarkSound(c, g, todo, sources, flags)
    ensures t.target in sources
    ensures MarkSound(c, g, todo, sources[t.target := true], if Joined(g, t.target, t.parent) then flags + {(t.target, t.parent)} else flags)
  {
    ReachesSuits(c, g, t.target, t.itr, t.parent);
    NextReached(c, g, t.target, t.itr, t.parent, t.vertex);
    assert t.itr == c.Length() - 1;
    assert Returns(c, g, t.target, t.parent);
    hide Suits, Joined, Reaches, Returns;
  }

  lemma {:induction false} LastComplete(c: Cycle, g: Graph, todo: set<nat>, seen: set<(nat, nat)>, tokens: multiset<Token>, relays: multiset<Token>,
                                        lasts: multiset<Token>, sources: map<nat, bool>, flags: set<(nat, nat)>, t: Token)
    requires c.Valid() && t in lasts && !Relay(c, t)
    requires Complete(c, g, todo, seen, tokens, relays, lasts, sources, flags)
    ensures t.vertex == t.target ==>
      Complete(c, g, todo, seen, tokens, relays, lasts - multiset{t}, sources[t.target := true],
               if Joined(g, t.target, t.parent) then flags + {(t.target, t.parent)} else flags)
    ensures t.vertex != t.target ==> Complete(c, g, todo, seen, tokens, relays, lasts - multiset{t}, sources, flags)
  {
    var hit := t.vertex == t.target;
    var sources' := if hit then sources[t.target := true] else sources;
    var flags' := if hit && Joined(g, t.target, t.parent) then flags + {(t.target, t.parent)} else flags;
    forall s: nat, i: nat, p: nat, v: nat | Passes(c, g, s, i, p, v) && Emitted(todo, seen, relays, s, i, p)
      ensures i < |c.indices| && Handled(c, g, seen, tokens, lasts - multiset{t}, sources', flags', s, i, p, v)
    {
      assert Handled(c, g, seen, tokens, lasts, sources, flags, s, i, p, v);
      hide Complete, Emitted, Suits, Reaches;
    }
  }

  // The end

  lemma {:induction false} AllEmitted(c: Cycle, g: Graph, seen: set<(nat, nat)>, sources: map<nat, bool>, flags: set<(nat, nat)>, s: nat, i: nat, p: nat)
    requires c.Valid() && Complete(c, g, {}, seen, multiset{}, multiset{}, multiset{}, sources, flags)
    requires Reaches(c, g, s, i, p) && i < c.Length()
    ensures Emitted({}, seen, multiset{}, s, i, p)
    decreases i
  {
    if i > 0 {
      var q: nat :| Reaches(c, g, s, i - 1, q) && Joined(g, q, p);
      AllEmitted(c, g, seen, sources, flags, s, i - 1, q);
      assert Passes(c, g, s, i - 1, q, p);
      assert Handled(c, g, seen, multiset{}, multiset{}, sources, flags, s, i - 1, q, p);
    }
  }

  /** Exactly the sources on a closed path are marked, exactly the edges a token came back on are flagged. */
  ghost predicate Exact(c: Cycle, g: Graph, sources: map<nat, bool>, flags: set<(nat, nat)>) {
    && (forall s: nat :: s in sources <==> Suits(c, g, s, 0))
    && (forall s | s in sources :: sources[s] <==> Reaches(c, g, s, c.Length(), s))
    && (forall s: nat, p: nat :: (s, p) in flags <==> Returns(c, g, s, p) && Joined(g, s, p))
  }

  lemma {:induction false} Done(c: Cycle, g: Graph, seen: set<(nat, nat)>, sources: map<nat, bool>, flags: set<(nat, nat)>)
    requires Invariant(c, g, {}, seen, multiset{}, multiset{}, multiset{}, sources, flags)
    ensures Exact(c, g, sources, flags)
  {
    forall s: nat, p: nat | Returns(c, g, s, p)
      ensures s in sources && sources[s] && (Joined(g, s, p) ==> (s, p) in flags)
    {
      ReachesSuits(c, g, s, c.Length() - 1, p);
      AllEmitted(c, g, seen, sources, flags, s, c.Length() - 1, p);
      assert Passes(c, g, s, c.Length() - 1, p, s);
      assert Handled(c, g, seen, multiset{}, multiset{}, sources, flags, s, c.Length() - 1, p, s);
    }
    forall s: nat | Reaches(c, g, s, c.Length(), s)
      ensures exists p: nat :: Returns(c, g, s, p)
    {
      var p: nat :| Reaches(c, g, s, c.Length() - 1, p) && Joined(g, p, s);
      assert Returns(c, g, s, p);
    }
    hide Complete, Returns, Reaches, Suits, Joined, Travelling, Waiting, SeenSound;
  }

  /** A vertex starts: a possible source enters the map of sources and sends its token along all active edges. */
  method StartVertex(c: Cycle, g: Graph, ghost todo: set<nat>, ghost seen: set<(nat, nat)>, tokens: multiset<Token>, ghost relays: multiset<Token>,
                     ghost lasts: multiset<Token>, sources: map<nat, bool>, ghost flags: set<(nat, nat)>, v: nat)
    returns (tokens': multiset<Token>, sources': map<nat, bool>)
    requires Invariant(c, g, todo, seen, tokens, relays, lasts, sources, flags) && v in todo
    ensures Invariant(c, g, todo - {v}, seen, tokens', relays, lasts, sources', flags)
    ensures |todo - {v}| < |todo|
  {
    tokens', sources' := tokens, sources;
    assert v !in sources && |c.indices| > 0 && |todo - {v}| < |todo|;
    if Suits(c, g, v, 0) {
      if v !in sources {
        sources' := sources[v := false];
      }
      tokens' := SendTokens(c, g, v, {}, v, 0, tokens);
    }
    hide Suits, Travelling, Waiting, SeenSound, MarkSound, Complete;
    StartSound(c, g, todo, seen, tokens, tokens', relays, lasts, sources, flags, v);
    StartComplete(c, g, todo, seen, tokens, tokens', relays, lasts, sources, flags, v);
  }

  /** A token arrives: refused, kept for relaying with the source remembered, or kept for the last check. */
  method Arrive(c: Cycle, g: Graph, ghost todo: set<nat>, seen: set<(nat, nat)>, ghost tokens: multiset<Token>, relays: multiset<Token>,
                lasts: multiset<Token>, ghost sources: map<nat, bool>, ghost flags: set<(nat, nat)>, t: Token)
    returns (seen': set<(nat, nat)>, relays': multiset<Token>, lasts': multiset<Token>)
    requires Invariant(c, g, todo, seen, tokens, relays, lasts, sources, flags) && t in tokens
    ensures Invariant(c, g, todo, seen', tokens - multiset{t}, relays', lasts', sources, flags)
    ensures |tokens - multiset{t}| < |tokens|
    ensures (seen' == seen && relays' == relays) || (seen' == seen + {(t.vertex, t.target)} && (t.vertex, t.target) !in seen)
    ensures seen' == seen || (t.vertex < |g.labels| && t.target < |g.labels|)
  {
    seen', relays', lasts' := seen, relays, lasts;
    assert Sane(c, g, todo, t);
    ReachesSuits(c, g, t.target, t.itr, t.parent);
    assert t.target < |g.labels|;
    assert Accepts(c, g, seen, t) ==> Suits(c, g, t.vertex, t.itr + 1) && t.vertex < |g.labels|;
    assert Accepts(c, g, seen, t) && Relay(c, t) ==> (t.vertex, t.target) !in seen;
    hide Suits, Travelling, Waiting, SeenSound, MarkSound, Complete, Accepts, Sane;
    ArriveTravels(c, g, todo, tokens, t);
    ArriveComplete(c, g, todo, seen, tokens, relays, lasts, sources, flags, t);
    if Accepts(c, g, seen, t) {
      ArriveWaits(c, g, todo, seen, relays, lasts, t);
      if Relay(c, t) {
        ArriveSeen(c, g, todo, seen, t);
        seen', relays' := seen + {(t.vertex, t.target)}, relays + multiset{t};
      } else {
        lasts' := lasts + multiset{t};
      }
    }
  }

  /** The visit of a relayed token: on to every active neighbour except where it came from. */
  method VisitRelay(c: Cycle, g: Graph, ghost todo: set<nat>, ghost seen: set<(nat, nat)>, tokens: multiset<Token>, ghost relays: multiset<Token>,
                    ghost lasts: multiset<Token>, ghost sources: map<nat, bool>, ghost flags: set<(nat, nat)>, t: Token)
    returns (tokens': multiset<Token>)
    requires Invariant(c, g, todo, seen, tokens, relays, lasts, sources, flags) && t in relays
    ensures Invariant(c, g, todo, seen, tokens', relays - multiset{t}, lasts, sources, flags)
    ensures |relays - multiset{t}| < |relays|
  {
    assert Relay(c, t) && Suits(c, g, t.vertex, t.itr + 1) && t.itr + 1 < |c.indices|;
    assert t.vertex < |g.edges|;
    hide Suits, Travelling, Waiting, SeenSound, MarkSound, Complete, Relay;
    tokens' := SendTokens(c, g, t.vertex, {t.parent}, t.target, t.itr + 1, tokens);
    RelaySound(c, g, todo, seen, tokens, tokens', relays, lasts, t);
    RelayComplete(c, g, todo, seen, tokens, tokens', relays, lasts, sources, flags, t);
  }

  /** The visit after the last step: only the source itself is satisfied, and remembers the edge. */
  method VisitLast(c: Cycle, g: Graph, ghost todo: set<nat>, ghost seen: set<(nat, nat)>, ghost tokens: multiset<Token>, ghost relays: multiset<Token>,
                   ghost lasts: multiset<Token>, sources: map<nat, bool>, flags: set<(nat, nat)>, t: Token)
    returns (sources': map<nat, bool>, flags': set<(nat, nat)>)
    requires Invariant(c, g, todo, seen, tokens, relays, lasts, sources, flags) && t in lasts
    ensures Invariant(c, g, todo, seen, tokens, relays, lasts - multiset{t}, sources', flags')
    ensures |lasts - multiset{t}| < |lasts|
  {
    sources', flags' := sources, flags;
    hide Suits, Travelling, Waiting, SeenSound, MarkSound, Complete, Sane, Relay;
    LastWaits(c, g, todo, seen, relays, lasts, t);
    LastComplete(c, g, todo, seen, tokens, relays, lasts, sources, flags, t);
    if t.vertex == t.target {
      LastSound(c, g, todo, sources, flags, t);
      sources' := sources[t.target := true];
      if Joined(g, t.target, t.parent) {
        flags' := flags + {(t.target, t.parent)};
      }
    }
  }

  lemma {:induction false} InvariantStart(c: Cycle, g: Graph)
    requires c.Valid() && g.Valid()
    ensures Invariant(c, g, Indices(|g.labels|), {}, multiset{}, multiset{}, multiset{}, map[], {})
  {
    forall s: nat, i: nat, p: nat, v: nat | Passes(c, g, s, i, p, v)
      ensures !Emitted(Indices(|g.labels|), {}, multiset{}, s, i, p)
    {
      ReachesSuits(c, g, s, i, p);
    }
  }

  function Pairs(n: nat): (r: set<(nat, nat)>)
    ensures forall u: nat, v: nat :: (u, v) in r <==> u < n && v < n
  {
    set u, v | u in Indices(n) && v in Indices(n) :: (u, v)
  }

  lemma {:induction false} OneLess(free: set<(nat, nat)>, x: (nat, nat))
    requires x in free
    ensures |free - {x}| < |free|
  {
  }

  // Told without the handlers' tests

  /** A vertex that is still active and may stand for position i. */
  ghost predicate Fitting(c: Cycle, g: Graph, v: nat, i: nat)
    requires c.Valid() && g.Valid() && i < |c.labels|
  {
    v < |g.labels| && g.active[v] && g.labels[v] == c.labels[i] && c.indices[i] in g.template[v]
  }

  /** A matching cycle: from s back to s, all vertices before its end different, over active edges. */
  ghost predicate MatchingCycle(c: Cycle, g: Graph, s: nat, xs: seq<nat>)
    requires c.Valid() && g.Valid()
  {
    && |xs| == |c.labels| && xs[0] == s && xs[|xs| - 1] == s
    && (forall i, j | 0 <= i < j < |xs| - 1 :: xs[i] != xs[j])
    && (forall i | 0 <= i < |xs| :: Fitting(c, g, xs[i], i))
    && (forall i | 0 <= i < |xs| - 1 :: xs[i + 1] in g.edges[xs[i]])
  }

  lemma {:induction false} CycleReturns(c: Cycle, g: Graph, s: nat, xs: seq<nat>)
    requires c.Valid() && g.Valid() && MatchingCycle(c, g, s, xs)
    ensures Reaches(c, g, s, c.Length(), s) && Returns(c, g, s, xs[|xs| - 2])
  {
    assert forall i | 0 <= i < |xs| :: Suits(c, g, xs[i], i) by {
      assert forall i | 0 <= i < |xs| :: Fitting(c, g, xs[i], i);
    }
    var ys := xs[..|xs| - 1];
    assert Path(c, g, s, xs) && Path(c, g, s, ys);
    PathReaches(c, g, s, xs);
    PathReaches(c, g, s, ys);
    assert Joined(g, xs[|xs| - 2], xs[|xs| - 1]);
  }

  lemma {:induction false} ReturnsCycle(c: Cycle, g: Graph, s: nat, p: nat) returns (xs: seq<nat>)
    requires c.Valid() && g.Valid() && Returns(c, g, s, p)
    ensures MatchingCycle(c, g, s, xs) && xs[|xs| - 2] == p
  {
    var ys := ReachesPath(c, g, s, c.Length() - 1, p);
    xs := ys + [s];
    ReachesSuits(c, g, s, c.Length() - 1, p);
    forall i | 0 <= i < |xs|
      ensures Suits(c, g, xs[i], i) && Fitting(c, g, xs[i], i)
    {
      assert i < |ys| ==> Suits(c, g, ys[i], i);
    }
    forall i | 0 <= i < |xs| - 1
      ensures xs[i + 1] in g.edges[xs[i]]
    {
      assert i < |ys| - 1 ==> Joined(g, ys[i], ys[i + 1]);
    }
  }

  /** A source is kept exactly if a matching cycle leads through it; an edge is flagged exactly if one comes back over it. */
  lemma {:induction false} MarkedIffCycle(c: Cycle, g: Graph, sources: map<nat, bool>, flags: set<(nat, nat)>)
    requires c.Valid() && g.Valid() && Exact(c, g, sources, flags)
    ensures forall s: nat :: s in sources <==> Fitting(c, g, s, 0)
    ensures forall s: nat :: s in sources && sources[s] <==> exists xs :: MatchingCycle(c, g, s, xs)
    ensures forall s: nat, p: nat :: (s, p) in flags <==>
              s < |g.edges| && p in g.edges[s] && exists xs :: MatchingCycle(c, g, s, xs) && xs[|xs| - 2] == p
  {
    forall s: nat
      ensures s in sources && sources[s] <==> exists xs :: MatchingCycle(c, g, s, xs)
    {
      if s in sources && sources[s] {
        var p: nat :| Reaches(c, g, s, c.Length() - 1, p) && Joined(g, p, s);
        var xs := ReturnsCycle(c, g, s, p);
      }
      if xs :| MatchingCycle(c, g, s, xs) {
        CycleReturns(c, g, s, xs);
        ReachesSuits(c, g, s, c.Length(), s);
      }
    }
    forall s: nat, p: nat
      ensures Returns(c, g, s, p) <==> exists xs :: MatchingCycle(c, g, s, xs) && xs[|xs| - 2] == p
    {
      if Returns(c, g, s, p) {
        var xs := ReturnsCycle(c, g, s, p);
      }
      if xs :| MatchingCycle(c, g, s, xs) && xs[|xs| - 2] == p {
        CycleReturns(c, g, s, xs);
      }
    }
  }

  /** In every order of starts, arrivals and visits: it ends, and exactly the right sources are marked. */
  method PassTokens(c: Cycle, g: Graph) returns (sources: map<nat, bool>, flags: set<(nat, nat)>)
    requires c.Valid() && g.Valid()
    ensures forall s: nat :: s in sources <==> Fitting(c, g, s, 0)
    ensures forall s: nat :: s in sources && sources[s] <==> exists xs :: MatchingCycle(c, g, s, xs)
    ensures forall s: nat, p: nat :: (s, p) in flags <==>
              s < |g.edges| && p in g.edges[s] && exists xs :: MatchingCycle(c, g, s, xs) && xs[|xs| - 2] == p
  {
    hide *;
    sources, flags := map[], {};
    var todo := Indices(|g.labels|);
    var seen: set<(nat, nat)> := {};
    // Messages in flight; accepted ones in the local queue, relays apart from last steps.
    var tokens, relays, lasts := multiset{}, multiset{}, multiset{};
    ghost var free := Pairs(|g.labels|);
    InvariantStart(c, g);
    while todo != {} || |tokens| > 0 || |relays| > 0 || |lasts| > 0
      invariant Invariant(c, g, todo, seen, tokens, relays, lasts, sources, flags)
      invariant forall u: nat, v: nat | u < |g.labels| && v < |g.labels| && (u, v) !in seen :: (u, v) in free
      decreases |todo|, |free|, |relays|, |tokens|, |lasts|
    {
      if
      case todo != {} =>
        var v :| v in todo;
        tokens, sources := StartVertex(c, g, todo, seen, tokens, relays, lasts, sources, flags, v);
        todo := todo - {v};
      case |tokens| > 0 =>
        var t :| t in tokens;
        ghost var before := seen;
        seen, relays, lasts := Arrive(c, g, todo, seen, tokens, relays, lasts, sources, flags, t);
        tokens := tokens - multiset{t};
        if seen != before {
          OneLess(free, (t.vertex, t.target));
          free := free - {(t.vertex, t.target)};
        }
      case |relays| > 0 =>
        var t :| t in relays;
        tokens := VisitRelay(c, g, todo, seen, tokens, relays, lasts, sources, flags, t);
        relays := relays - multiset{t};
      case |lasts| > 0 =>
        var t :| t in lasts;
        sources, flags := VisitLast(c, g, todo, seen, tokens, relays, lasts, sources, flags, t);
        lasts := lasts - multiset{t};
    }
    Done(c, g, seen, sources, flags);
    MarkedIffCycle(c, g, sources, flags);
  }
}
