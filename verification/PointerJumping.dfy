/**
 Preferential attachment gives an edge either a target vertex or a pointer to an earlier edge whose
 target it shares. All edges of all ranks together form one sequence; a round replaces every
 pointer by what the edge it points to held before the round.
 */
module PointerJumping {
  /** The bit that marks a pointer. */
  const TOP: nat := 0x8000_0000_0000_0000

  function MakePointer(i: nat): (p: nat)
    ensures IsPointer(p) && ValueOfPointer(p) == ValueOfPointer(i)
  {
    if i < TOP then i + TOP else i
  }

  predicate IsPointer(x: nat) { x >= TOP }

  function ValueOfPointer(x: nat): nat { if x < TOP then x else x - TOP }

  /**
   The target of a new edge: `draw` is the random earlier edge, `above` whether its target rather
   than its source is taken; `source` and `target` compute the ends of edges that need no pointer.
   */
  function NewTarget(edge: nat, offset: nat, draw: nat, above: bool, source: nat -> nat, target: nat -> nat): nat {
    if edge >= offset then
      var rand := draw * 2 + if above then 1 else 0;
      if rand % 2 == 0 then source(rand / 2)
      else if rand / 2 < offset then target(rand / 2)
      else MakePointer(rand / 2)
    else target(edge)
  }

  /** A new edge takes the source of the drawn edge or its target, and points at most to an earlier one. */
  lemma {:induction false} NewPointsDown(edge: nat, offset: nat, draw: nat, above: bool,
                                         source: nat -> nat, target: nat -> nat)
    requires edge < TOP && (edge >= offset ==> draw < edge)
    requires forall i :: source(i) < TOP && target(i) < TOP
    ensures var x := NewTarget(edge, offset, draw, above, source, target);
      && (edge < offset ==> x == target(edge))
      && (edge >= offset && !above ==> x == source(draw))
      && (edge >= offset && above ==> if draw < offset then x == target(draw) else IsPointer(x) && ValueOfPointer(x) == draw)
      && (IsPointer(x) ==> offset <= ValueOfPointer(x) < edge && ValueOfPointer(x) == draw)
  {
    var rand := draw * 2 + if above then 1 else 0;
    assert rand / 2 == draw;
  }

  /** Every pointer points to an earlier edge. */
  ghost predicate PointsDown(v: seq<nat>) {
    forall e | 0 <= e < |v| :: IsPointer(v[e]) ==> ValueOfPointer(v[e]) < e
  }

  /** Following the pointers one at a time. */
  ghost function Resolve(v: seq<nat>, e: nat): nat
    requires PointsDown(v) && e < |v|
    decreases e
  {
    if IsPointer(v[e]) then Resolve(v, ValueOfPointer(v[e])) else v[e]
  }

  /** How many pointers have to be followed. */
  ghost function Depth(v: seq<nat>, e: nat): nat
    requires PointsDown(v) && e < |v|
    decreases e
  {
    if IsPointer(v[e]) then 1 + Depth(v, ValueOfPointer(v[e])) else 0
  }

  /** One round on all edges at once. */
  ghost function Jumped(v: seq<nat>): (w: seq<nat>)
    requires PointsDown(v)
    ensures |w| == |v|
  {
    seq(|v|, e requires 0 <= e < |v| => if IsPointer(v[e]) then v[ValueOfPointer(v[e])] else v[e])
  }

  lemma {:induction false} JumpedAt(v: seq<nat>, e: nat)
    requires PointsDown(v) && e < |v|
    ensures IsPointer(v[e]) ==> ValueOfPointer(v[e]) < e && Jumped(v)[e] == v[ValueOfPointer(v[e])]
    ensures !IsPointer(v[e]) ==> Jumped(v)[e] == v[e]
  {
  }

  lemma {:induction false} JumpedPointsDown(v: seq<nat>)
    requires PointsDown(v)
    ensures PointsDown(Jumped(v))
  {
  }

  /** A round resolves every edge to the same value and halves the number of pointers to follow. */
  lemma {:induction false} JumpHalves(v: seq<nat>, e: nat)
    requires PointsDown(v) && e < |v|
    ensures PointsDown(Jumped(v))
    ensures Resolve(Jumped(v), e) == Resolve(v, e)
    ensures Depth(Jumped(v), e) == Depth(v, e) / 2
    decreases e
  {
    JumpedPointsDown(v);
    var w := Jumped(v);
    if IsPointer(v[e]) {
      var p := ValueOfPointer(v[e]);
      assert w[e] == v[p];
      if IsPointer(v[p]) {
        var q := ValueOfPointer(v[p]);
        JumpHalves(v, q);
        assert Depth(v, e) == 2 + Depth(v, q);
        assert Depth(w, e) == 1 + Depth(w, q);
      }
    }
  }

  /** The longest chain among the first n edges. */
  ghost function MaxDepth(v: seq<nat>, n: nat): nat
    requires PointsDown(v) && n <= |v|
  {
    if n == 0 then 0
    else if Depth(v, n - 1) > MaxDepth(v, n - 1) then Depth(v, n - 1) else MaxDepth(v, n - 1)
  }

  lemma {:induction false} MaxHalves(v: seq<nat>, n: nat)
    requires PointsDown(v) && n <= |v|
    ensures PointsDown(Jumped(v)) && MaxDepth(Jumped(v), n) == MaxDepth(v, n) / 2
  {
    JumpedPointsDown(v);
    if n > 0 {
      MaxHalves(v, n - 1);
      JumpHalves(v, n - 1);
    }
  }

  /** No chain among the first n edges is longer, and one of them is as long. */
  lemma {:induction false} MaxIsLongest(v: seq<nat>, n: nat)
    requires PointsDown(v) && n <= |v|
    ensures forall e | 0 <= e < n :: Depth(v, e) <= MaxDepth(v, n)
    ensures n > 0 ==> exists e | 0 <= e < n :: Depth(v, e) == MaxDepth(v, n)
  {
    if n > 0 {
      MaxIsLongest(v, n - 1);
      assert Depth(v, n - 1) <= MaxDepth(v, n);
    }
  }

  /** How many of the values are pointers. */
  function Missing(v: seq<nat>): nat {
    if v == [] then 0 else (if IsPointer(v[0]) then 1 else 0) + Missing(v[1..])
  }

  lemma {:induction false} NoneMissing(v: seq<nat>)
    ensures Missing(v) == 0 <==> forall e | 0 <= e < |v| :: !IsPointer(v[e])
  {
    if v != [] {
      NoneMissing(v[1..]);
      assert forall e | 1 <= e < |v| :: v[e] == v[1..][e - 1];
    }
  }

  lemma {:induction false} DepthZero(v: seq<nat>, n: nat)
    requires PointsDown(v) && n <= |v|
    ensures MaxDepth(v, n) == 0 <==> forall e | 0 <= e < n :: !IsPointer(v[e])
  {
    if n > 0 {
      DepthZero(v, n - 1);
    }
  }

  function Log2(d: nat): nat { if d < 2 then 0 else 1 + Log2(d / 2) }

  /** Every edge resolved. */
  ghost function Resolved(v: seq<nat>): (w: seq<nat>)
    requires PointsDown(v)
    ensures |w| == |v| && forall e | 0 <= e < |w| :: w[e] == Resolve(v, e)
  {
    seq(|v|, e requires 0 <= e < |v| => Resolve(v, e))
  }

  lemma {:induction false} JumpKeepsResolved(v: seq<nat>)
    requires PointsDown(v)
    ensures PointsDown(Jumped(v)) && Resolved(Jumped(v)) == Resolved(v)
  {
    JumpedPointsDown(v);
    forall e | 0 <= e < |v|
      ensures Resolve(Jumped(v), e) == Resolve(v, e)
    {
      JumpHalves(v, e);
    }
  }

  /** v after r rounds. */
  ghost function JumpedTimes(v: seq<nat>, r: nat): (w: seq<nat>)
    requires PointsDown(v)
    ensures PointsDown(w) && |w| == |v|
  {
    if r == 0 then v
    else
      JumpedPointsDown(JumpedTimes(v, r - 1));
      Jumped(JumpedTimes(v, r - 1))
  }

  lemma {:induction false} TimesZero(v: seq<nat>)
    requires PointsDown(v)
    ensures JumpedTimes(v, 0) == v
  {
  }

  lemma {:induction false} TimesNext(v: seq<nat>, r: nat)
    requires PointsDown(v)
    ensures JumpedTimes(v, r + 1) == Jumped(JumpedTimes(v, r))
  {
  }

  /**
   The rounds end: after r rounds, r at least one, nothing is left exactly when r exceeds the
   binary logarithm of the longest chain, and then every edge holds what its chain resolves to.
   */
  lemma {:induction false} RoundsNeeded(v: seq<nat>, r: nat)
    requires PointsDown(v) && r >= 1
    ensures MaxDepth(JumpedTimes(v, r), |v|) == 0 <==> r > Log2(MaxDepth(v, |v|))
    ensures Resolved(JumpedTimes(v, r)) == Resolved(v)
    decreases r
  {
    hide MaxDepth, Jumped, PointsDown, Resolved;
    JumpedPointsDown(v);
    MaxHalves(v, |v|);
    JumpKeepsResolved(v);
    JumpedFirst(v, r);
    if r > 1 {
      RoundsNeeded(Jumped(v), r - 1);
    } else {
      assert JumpedTimes(Jumped(v), 0) == Jumped(v);
    }
  }

  lemma {:induction false} Log2Monotone(a: nat, b: nat)
    requires a <= b
    ensures Log2(a) <= Log2(b)
  {
    if a >= 2 {
      Log2Monotone(a / 2, b / 2);
    }
  }

  /** Told edge by edge: after r rounds no pointer is left iff r exceeds the binary logarithm of every chain. */
  lemma {:induction false} AllResolvedIff(v: seq<nat>, r: nat)
    requires PointsDown(v) && r >= 1
    ensures (forall e | 0 <= e < |v| :: !IsPointer(JumpedTimes(v, r)[e])) <==>
            forall e | 0 <= e < |v| :: Log2(Depth(v, e)) < r
  {
    hide Log2, Depth, PointsDown, JumpedTimes;
    RoundsNeeded(v, r);
    DepthZero(JumpedTimes(v, r), |v|);
    MaxIsLongest(v, |v|);
    if |v| == 0 {
      assert MaxDepth(JumpedTimes(v, r), 0) == 0;
    }
    forall e | 0 <= e < |v|
      ensures Log2(Depth(v, e)) <= Log2(MaxDepth(v, |v|))
    {
      Log2Monotone(Depth(v, e), MaxDepth(v, |v|));
    }
  }

  lemma {:induction false} JumpedFirst(v: seq<nat>, r: nat)
    requires PointsDown(v) && r >= 1
    ensures PointsDown(Jumped(v)) && JumpedTimes(v, r) == JumpedTimes(Jumped(v), r - 1)
    decreases r
  {
    JumpedPointsDown(v);
    if r > 1 {
      JumpedFirst(v, r - 1);
    } else {
      assert JumpedTimes(v, 0) == v;
    }
  }

  lemma {:induction false} NothingLeft(v: seq<nat>)
    requires PointsDown(v) && MaxDepth(v, |v|) == 0
    ensures v == Resolved(v)
  {
    DepthZero(v, |v|);
  }
}
