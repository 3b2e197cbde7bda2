/**
 Token passing for a cycle of the pattern. Every possible start sends a token along active edges;
 a vertex that can stand for the next position passes it on, but for each source only once and
 never back to where it came from. A source that gets its token back after the whole cycle is kept.
 */
module TokenPassing {
  /** Position k of the cycle asks for a label and a template vertex; the last position is the first again. */
  datatype Cycle = Cycle(labels: seq<nat>, indices: seq<nat>) {
    function Length(): int { |labels| - 1 }

    ghost predicate Valid() {
      && |labels| == |indices| >= 4
      && labels[Length()] == labels[0] && indices[Length()] == indices[0]
      && (forall i, j | 0 <= i < j < Length() :: labels[i] != labels[j])
    }
  }

  /** What the vertices hold when token passing starts. */
  datatype Graph = Graph(labels: seq<nat>, active: seq<bool>, template: seq<set<nat>>, edges: seq<set<nat>>) {
    ghost predicate Valid() {
      && |labels| == |active| == |template| == |edges|
      && (forall v, w | 0 <= v < |edges| && w in edges[v] :: w < |edges|)
    }
  }

  datatype Token = Token(vertex: nat, parent: nat, target: nat, itr: nat, parentIndex: nat)

  /** The vertex can stand for position i. */
  predicate Suits(c: Cycle, g: Graph, v: nat, i: nat) {
    && v < |g.labels| && v < |g.active| && v < |g.template| && i < |c.labels| && i < |c.indices|
    && g.active[v] && g.labels[v] == c.labels[i] && c.indices[i] in g.template[v]
  }

  predicate Joined(g: Graph, u: nat, v: nat) { u < |g.edges| && v in g.edges[u] }

  /** Some path of i active edges from the source ends at v, position by position. */
  ghost predicate Reaches(c: Cycle, g: Graph, s: nat, i: nat, v: nat)
    decreases i
  {
    && Suits(c, g, v, i)
    && if i == 0 then v == s else exists p: nat :: Reaches(c, g, s, i - 1, p) && Joined(g, p, v)
  }

  /** The same as a list of vertices. */
  ghost predicate Path(c: Cycle, g: Graph, s: nat, xs: seq<nat>) {
    && 0 < |xs| <= |c.labels| && xs[0] == s
    && (forall i | 0 <= i < |xs| :: Suits(c, g, xs[i], i))
    && (forall i | 0 <= i < |xs| - 1 :: Joined(g, xs[i], xs[i + 1]))
  }

  lemma {:induction false} PathReaches(c: Cycle, g: Graph, s: nat, xs: seq<nat>)
    requires Path(c, g, s, xs)
    ensures Reaches(c, g, s, |xs| - 1, xs[|xs| - 1])
  {
    if |xs| > 1 {
      var ys := xs[..|xs| - 1];
      assert forall i | 0 <= i < |ys| :: ys[i] == xs[i];
      PathReaches(c, g, s, ys);
    }
  }

  lemma {:induction false} ReachesPath(c: Cycle, g: Graph, s: nat, i: nat, v: nat) returns (xs: seq<nat>)
    requires Reaches(c, g, s, i, v)
    ensures Path(c, g, s, xs) && |xs| == i + 1 && xs[i] == v
    decreases i
  {
    assert Suits(c, g, v, i) && i < |c.labels|;
    if i == 0 {
      xs := [v];
    } else {
      var p: nat :| Reaches(c, g, s, i - 1, p) && Joined(g, p, v);
      var ys := ReachesPath(c, g, s, i - 1, p);
      xs := ys + [v];
      hide Reaches, Suits, Joined;
      assert forall k | 0 <= k < i :: xs[k] == ys[k];
    }
  }

  // Handlers

  /** Tokens short of the last step are relayed; in the last step the source itself must be met. */
  predicate Relay(c: Cycle, t: Token) { t.itr < c.Length() - 1 }

  predicate Accepts(c: Cycle, g: Graph, seen: set<(nat, nat)>, t: Token) {
    && (Relay(c, t) ==> (t.vertex, t.target) !in seen && t.vertex != t.target)
    && Suits(c, g, t.vertex, t.itr + 1)
    && t.itr < |c.indices| && t.parentIndex == c.indices[t.itr]
  }

  method SendTokens(c: Cycle, g: Graph, from: nat, skip: set<nat>, target: nat, itr: nat, tokens: multiset<Token>)
    returns (sent: multiset<Token>)
    requires g.Valid() && from < |g.edges| && itr < |c.indices|
    ensures forall t: Token :: t in sent <==>
              t in tokens || (t == Token(t.vertex, from, target, itr, c.indices[itr]) && t.vertex in g.edges[from] - skip)
  {
    sent := tokens;
    var rest := g.edges[from];
    while rest != {}
      invariant rest <= g.edges[from]
      invariant forall t: Token :: t in sent <==>
        t in tokens || (t == Token(t.vertex, from, target, itr, c.indices[itr]) && t.vertex in g.edges[from] - skip - rest)
    {
      var w :| w in rest;
      if w !in skip {
        sent := sent + multiset{Token(w, from, target, itr, c.indices[itr])};
      }
      rest := rest - {w};
    }
  }

  // Invariants

  ghost predicate Sane(c: Cycle, g: Graph, todo: set<nat>, t: Token) {
    && t.itr < c.Length() && t.itr < |c.indices| && t.parentIndex == c.indices[t.itr] && t.target !in todo
    && Reaches(c, g, t.target, t.itr, t.parent)
    && Joined(g, t.parent, t.vertex)
  }

  ghost predicate Travelling(c: Cycle, g: Graph, todo: set<nat>, tokens: multiset<Token>) {
    forall t | t in tokens :: Sane(c, g, todo, t)
  }

  /** Accepted tokens waiting for their visit; relays are remembered. */
  ghost predicate Waiting(c: Cycle, g: Graph, todo: set<nat>, seen: set<(nat, nat)>, relays: multiset<Token>, lasts: multiset<Token>) {
    && (forall t | t in relays :: Sane(c, g, todo, t) && Relay(c, t) && (t.vertex, t.target) in seen && Suits(c, g, t.vertex, t.itr + 1))
    && (forall t | t in lasts :: Sane(c, g, todo, t) && !Relay(c, t) && Suits(c, g, t.vertex, t.itr + 1))
  }

  ghost predicate Between(c: Cycle, g: Graph, s: nat, v: nat) {
    exists i :: 0 < i < c.Length() && Reaches(c, g, s, i, v)
  }

  ghost predicate SeenSound(c: Cycle, g: Graph, todo: set<nat>, seen: set<(nat, nat)>) {
    forall v, s | (v, s) in seen :: s !in todo && Between(c, g, s, v)
  }

  /** What is marked did get its token back. */
  ghost predicate MarkSound(c: Cycle, g: Graph, todo: set<nat>, sources: map<nat, bool>, flags: set<(nat, nat)>) {
    && (forall s :: s in sources <==> s !in todo && Suits(c, g, s, 0))
    && (forall s | s in sources && sources[s] :: Reaches(c, g, s, c.Length(), s))
    && (forall s, p | (s, p) in flags :: Returns(c, g, s, p) && Joined(g, s, p))
  }

  /** The token of s comes back from p. */
  ghost predicate Returns(c: Cycle, g: Graph, s: nat, p: nat) {
    && c.Length() > 0 && Reaches(c, g, s, c.Length() - 1, p) && Joined(g, p, s) && Suits(c, g, s, c.Length())
  }

  ghost predicate HasRelay(relays: multiset<Token>, v: nat, s: nat) {
    exists t :: t in relays && t.vertex == v && t.target == s
  }

  /** p, at position i of a path from s, has passed the token on. */
  ghost predicate Emitted(todo: set<nat>, seen: set<(nat, nat)>, relays: multiset<Token>, s: nat, i: nat, p: nat) {
    if i == 0 then s !in todo else (p, s) in seen && !HasRelay(relays, p, s)
  }

  /** The token passed on from p to v has been taken care of. */
  ghost predicate Handled(c: Cycle, g: Graph, seen: set<(nat, nat)>, tokens: multiset<Token>, lasts: multiset<Token>,
                          sources: map<nat, bool>, flags: set<(nat, nat)>, s: nat, i: nat, p: nat, v: nat)
    requires i < |c.indices|
  {
    var t := Token(v, p, s, i, c.indices[i]);
    || t in tokens
    || if Relay(c, t) then (v, s) in seen
       else t in lasts || (s in sources && sources[s] && (Joined(g, s, p) ==> (s, p) in flags))
  }

  ghost predicate Complete(c: Cycle, g: Graph, todo: set<nat>, seen: set<(nat, nat)>, tokens: multiset<Token>, relays: multiset<Token>,
                           lasts: multiset<Token>, sources: map<nat, bool>, flags: set<(nat, nat)>) {
    forall s: nat, i: nat, p: nat, v: nat | Passes(c, g, s, i, p, v) && Emitted(todo, seen, relays, s, i, p) ::
      i < |c.indices| && Handled(c, g, seen, tokens, lasts, sources, flags, s, i, p, v)
  }

  /** A step of a path that token passing has to take: on to the next position, or back to the source. */
  ghost predicate Passes(c: Cycle, g: Graph, s: nat, i: nat, p: nat, v: nat) {
    && i < c.Length() && Reaches(c, g, s, i, p) && Joined(g, p, v) && Suits(c, g, v, i + 1)
    && (i + 1 == c.Length() ==> v == s)
  }

  lemma {:induction false} ReachesSuits(c: Cycle, g: Graph, s: nat, i: nat, v: nat)
    requires Reaches(c, g, s, i, v)
    ensures Suits(c, g, v, i)
    ensures Suits(c, g, s, 0)
    decreases i
  {
    if i > 0 {
      var p: nat :| Reaches(c, g, s, i - 1, p) && Joined(g, p, v);
      ReachesSuits(c, g, s, i - 1, p);
    }
  }

  /** Labels are distinct: a vertex has one position, and two steps on is never where one came from. */
  lemma {:induction false} OnePosition(c: Cycle, g: Graph, v: nat, i: nat, j: nat)
    requires c.Valid() && Suits(c, g, v, i) && Suits(c, g, v, j) && i < c.Length() && j < c.Length()
    ensures i == j
  {
  }

  lemma {:induction false} NeverBack(c: Cycle, g: Graph, v: nat, i: nat)
    requires c.Valid() && i + 2 <= c.Length()
    ensures !(Suits(c, g, v, i) && Suits(c, g, v, i + 2))
  {
  }
}
