/**
 The steps the 32- and 16-bit hashes are made of, each with an inverse: one more shift undoes an
 exclusive or with a right shift; the steps with a left shift are undone by a fixpoint that gains a
 bit in every iteration, from the lowest up.
 */
module HashSteps {
  import opened Arithmetic
  import opened Words

  /** (a + c) + (a << k),   (a + c) ^ (a << k),   (a ^ c) ^ (a >> k) */
  datatype Step = Sum(c: nat, k: nat) | Mix(c: nat, k: nat) | Right(c: nat, k: nat)

  /** One step on words of w bits. */
  function Apply(w: nat, s: Step, a: nat): nat {
    match s
    case Sum(c, k) => (a + c + a * Pow(k)) % Pow(w)
    case Mix(c, k) => Xor((a + c) % Pow(w), a * Pow(k) % Pow(w))
    case Right(c, k) => Xor(Xor(a, c), ShiftRight(a, k))
  }

  ghost predicate Invertible(w: nat, s: Step) {
    s.c < Pow(w) && 0 < s.k && (s.Right? ==> 2 * s.k >= w)
  }

  lemma {:induction false} ApplyBound(w: nat, s: Step, a: nat)
    requires a < Pow(w) && s.c < Pow(w)
    ensures Apply(w, s, a) < Pow(w)
  {
    hide Xor, Pow;
    match s
    case Sum(c, k) =>
    case Mix(c, k) =>
      XorBound((a + c) % Pow(w), a * Pow(k) % Pow(w), w);
    case Right(c, k) =>
      XorBound(a, c, w);
      ShiftOut(a, w, k);
      XorBound(Xor(a, c), ShiftRight(a, k), w);
  }

  /** A word that a left-shifting step takes to y is a fixpoint of this. */
  function Next(w: nat, s: Step, y: nat, x: nat): (n: nat)
    ensures n < Pow(w)
  {
    if s.Sum? then (y - s.c - x * Pow(s.k)) % Pow(w)
    else (Xor(y, x * Pow(s.k) % Pow(w)) - s.c) % Pow(w)
  }

  function Iterated(w: nat, s: Step, y: nat, n: nat): (x: nat)
    ensures x < Pow(w)
  {
    if n == 0 then 0 else Next(w, s, y, Iterated(w, s, y, n - 1))
  }

  function Undo(w: nat, s: Step, y: nat): nat {
    if s.Right? then Xor(Xor(y, s.c), ShiftRight(Xor(y, s.c), s.k)) else Iterated(w, s, y, w)
  }

  lemma {:induction false} SumGains(w: nat, c: nat, y: nat, z: nat, z': nat, m: nat)
    requires Low(z, z', m) && m <= w
    ensures Low((y - c - z) % Pow(w), (y - c - z') % Pow(w), m)
  {
    hide Low, Pow;
    LowAdd(z, z', y - c, m);
    LowTruncated(y - c - z, y - c - z', w, m);
  }

  lemma {:induction false} MixGains(w: nat, c: nat, y: nat, z: nat, z': nat, m: nat)
    requires Low(z, z', m) && m <= w
    ensures Low((Xor(y, z % Pow(w)) - c) % Pow(w), (Xor(y, z' % Pow(w)) - c) % Pow(w), m)
  {
    hide Low, Pow, Xor;
    LowTruncated(z, z', w, m);
    LowIsMod(y, y, m);
    LowXor(y, y, z % Pow(w), z' % Pow(w), m);
    var v, v' := Xor(y, z % Pow(w)), Xor(y, z' % Pow(w));
    LowAdd(v, v', 0 - c, m);
    LowTruncated(v - c, v' - c, w, m);
  }

  /** Words that agree in their low m bits are taken to words that agree in one bit more. */
  lemma {:induction false} NextGains(w: nat, s: Step, y: nat, x: nat, x': nat, m: nat)
    requires Low(x, x', m) && m < w && s.k > 0
    ensures Low(Next(w, s, y, x), Next(w, s, y, x'), m + 1)
  {
    hide Low, Pow, Xor;
    LowShift(x, x', s.k, m);
    SumGains(w, s.c, y, x * Pow(s.k), x' * Pow(s.k), m + 1);
    MixGains(w, s.c, y, x * Pow(s.k), x' * Pow(s.k), m + 1);
  }

  lemma {:induction false} LowTruncated(x: int, y: int, w: nat, m: nat)
    requires Low(x, y, m) && m <= w
    ensures Low(x % Pow(w), y % Pow(w), m)
  {
    hide Low, Pow;
    LowMod(x, w, m);
    LowMod(y, w, m);
    LowSym(y % Pow(w), y, m);
    LowTrans(x % Pow(w), x, y, m);
    LowTrans(x % Pow(w), y, y % Pow(w), m);
  }

  lemma {:induction false} ModOf(z: int, x: nat, w: nat)
    requires x < Pow(w)
    ensures z % Pow(w) == x <==> Low(z, x, w)
  {
    hide Low, Pow;
    LowIsMod(z, x, w);
    QuotientIs(x, 0, x, Pow(w));
  }

  lemma {:induction false} LowMoved(x: int, y: int, z: int, m: nat)
    requires x - y == z
    ensures Low(x, y, m) <==> Low(z, 0, m)
  {
    if Low(x, y, m) {
      var t: int :| x - y == t * Pow(m);
      LowBy(z, 0, m, t);
    }
    if Low(z, 0, m) {
      var t: int :| z - 0 == t * Pow(m);
      LowBy(x, y, m, t);
    }
  }

  /** Fixpoints and preimages are the same. */
  lemma {:induction false} NextSolves(w: nat, s: Step, y: nat, x: nat)
    requires !s.Right? && x < Pow(w) && y < Pow(w)
    ensures Next(w, s, y, x) == x <==> Apply(w, s, x) == y
  {
    hide Low, Pow, Xor;
    var z := x * Pow(s.k);
    if s.Sum? {
      ModOf(y - s.c - z, x, w);
      ModOf(x + s.c + z, y, w);
      LowMoved(x + s.c + z, y, x + s.c + z - y, w);
      LowFlip(y - s.c - z, x, w);
      LowMoved(x, y - s.c - z, x + s.c + z - y, w);
    } else {
      var t := z % Pow(w);
      var v, u := Xor(y, t), (x + s.c) % Pow(w);
      XorBound(y, t, w);
      ModOf(v - s.c, x, w);
      ModOf(x + s.c, v, w);
      LowMoved(x + s.c, v, x + s.c - v, w);
      LowFlip(v - s.c, x, w);
      LowMoved(x, v - s.c, x + s.c - v, w);
      XorCancel(y, t);
      XorCancel(u, t);
    }
  }

  lemma {:induction false} LowFlip(x: int, y: int, m: nat)
    ensures Low(x, y, m) <==> Low(y, x, m)
  {
    hide Low;
    LowIsMod(x, y, m);
    LowIsMod(y, x, m);
  }

  /** Iterating comes closer to every fixpoint, and to a fixpoint. */
  lemma {:induction false} IteratedNears(w: nat, s: Step, y: nat, x: nat, n: nat)
    requires s.k > 0 && n <= w && Next(w, s, y, x) == x
    ensures Low(Iterated(w, s, y, n), x, n)
  {
    hide Low, Next;
    if n == 0 {
      LowNone(Iterated(w, s, y, 0), x);
    } else {
      IteratedNears(w, s, y, x, n - 1);
      NextGains(w, s, y, Iterated(w, s, y, n - 1), x, n - 1);
    }
  }

  lemma {:induction false} IteratedSettles(w: nat, s: Step, y: nat, n: nat)
    requires s.k > 0 && n <= w
    ensures Low(Iterated(w, s, y, n), Iterated(w, s, y, n + 1), n)
  {
    hide Low, Next;
    if n == 0 {
      LowNone(Iterated(w, s, y, 0), Iterated(w, s, y, 1));
    } else {
      IteratedSettles(w, s, y, n - 1);
      NextGains(w, s, y, Iterated(w, s, y, n - 1), Iterated(w, s, y, n), n - 1);
    }
  }

  lemma {:induction false} RightUndone(w: nat, c: nat, k: nat, a: nat)
    requires a < Pow(w) && c < Pow(w) && 2 * k >= w
    ensures Undo(w, Right(c, k), Apply(w, Right(c, k), a)) == a
    ensures Apply(w, Right(c, k), Undo(w, Right(c, k), a)) == a
  {
    hide Xor, ShiftRight;
    // forwards
    XorSwapLast(a, c, ShiftRight(a, k));
    XorCancel(Xor(a, ShiftRight(a, k)), c);
    ShiftCancels(a, w, k);
    // backwards
    var t := Xor(a, c);
    XorBound(a, c, w);
    ShiftCancels(t, w, k);
    var x := Xor(t, ShiftRight(t, k));
    XorSwapLast(x, c, ShiftRight(x, k));
    XorCancel(a, c);
  }

  lemma {:induction false} XorSwapLast(x: nat, y: nat, z: nat)
    ensures Xor(Xor(x, y), z) == Xor(Xor(x, z), y)
  {
    hide Xor;
    XorAssoc(x, y, z);
    XorSwap(y, z);
    XorAssoc(x, z, y);
  }

  lemma {:induction false} ShiftCancels(z: nat, w: nat, k: nat)
    requires z < Pow(w) && 2 * k >= w
    ensures Xor(Xor(z, ShiftRight(z, k)), ShiftRight(Xor(z, ShiftRight(z, k)), k)) == z
  {
    hide Xor, ShiftRight;
    var s := ShiftRight(z, k);
    XorShift(z, s, k);
    ShiftTwice(z, k, k);
    ShiftOut(z, w, 2 * k);
    XorZero(s);
    XorCancel(z, s);
  }

  /** Every step is a permutation of the words of w bits. */
  lemma {:induction false} StepPermutes(w: nat, s: Step, a: nat)
    requires Invertible(w, s) && a < Pow(w)
    ensures Apply(w, s, a) < Pow(w) && Undo(w, s, a) < Pow(w)
    ensures Undo(w, s, Apply(w, s, a)) == a && Apply(w, s, Undo(w, s, a)) == a
  {
    hide Low, Pow, Xor, Next, Iterated, Apply;
    ApplyBound(w, s, a);
    if s.Right? {
      RightUndone(w, s.c, s.k, a);
      XorBound(a, s.c, w);
      ShiftOut(Xor(a, s.c), w, s.k);
      XorBound(Xor(a, s.c), ShiftRight(Xor(a, s.c), s.k), w);
    } else {
      var y := Apply(w, s, a);
      NextSolves(w, s, y, a);
      IteratedNears(w, s, y, a, w);
      LowWhole(Iterated(w, s, y, w), a, w);
      var x := Iterated(w, s, a, w);
      IteratedSettles(w, s, a, w);
      LowWhole(x, Iterated(w, s, a, w + 1), w);
      IteratedNext(w, s, a, w);
      NextSolves(w, s, a, x);
    }
  }

  lemma {:induction false} IteratedNext(w: nat, s: Step, y: nat, n: nat)
    ensures Iterated(w, s, y, n + 1) == Next(w, s, y, Iterated(w, s, y, n))
  {
  }

  // Several steps

  function Run(w: nat, steps: seq<Step>, a: nat): nat {
    if steps == [] then a else Run(w, steps[1..], Apply(w, steps[0], a))
  }

  function RunBack(w: nat, steps: seq<Step>, b: nat): nat {
    if steps == [] then b else Undo(w, steps[0], RunBack(w, steps[1..], b))
  }

  lemma {:induction false} RunStep(w: nat, steps: seq<Step>, a: nat)
    ensures |steps| > 0 ==> Run(w, steps, a) == Run(w, steps[1..], Apply(w, steps[0], a))
    ensures |steps| == 0 ==> Run(w, steps, a) == a
  {
  }

  /** Six steps, the result of each named. */
  lemma {:induction false} RunSix(w: nat, steps: seq<Step>, a: nat, b: nat, c: nat, d: nat, e: nat, f: nat)
    requires |steps| == 6 && b == Apply(w, steps[0], a) && c == Apply(w, steps[1], b) && d == Apply(w, steps[2], c)
    requires e == Apply(w, steps[3], d) && f == Apply(w, steps[4], e)
    ensures Run(w, steps, a) == Apply(w, steps[5], f)
  {
    hide Apply, Run;
    RunStep(w, steps, a);
    RunStep(w, steps[1..], b);
    RunStep(w, steps[1..][1..], c);
    RunStep(w, steps[1..][1..][1..], d);
    RunStep(w, steps[1..][1..][1..][1..], e);
    RunStep(w, steps[1..][1..][1..][1..][1..], f);
    RunStep(w, steps[1..][1..][1..][1..][1..][1..], Apply(w, steps[5], f));
  }

  lemma {:induction false} RunPermutes(w: nat, steps: seq<Step>, a: nat)
    requires a < Pow(w) && forall i | 0 <= i < |steps| :: Invertible(w, steps[i])
    ensures Run(w, steps, a) < Pow(w) && RunBack(w, steps, a) < Pow(w)
    ensures RunBack(w, steps, Run(w, steps, a)) == a && Run(w, steps, RunBack(w, steps, a)) == a
    decreases |steps|
  {
    hide Invertible, Apply, Undo;
    if steps != [] {
      var s, rest := steps[0], steps[1..];
      StepPermutes(w, s, a);
      RunPermutes(w, rest, Apply(w, s, a));
      RunPermutes(w, rest, a);
      StepPermutes(w, s, RunBack(w, rest, a));
    }
  }
}
