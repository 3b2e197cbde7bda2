/**
 The hash of n bits, which scrambles the vertex labels of generated graphs: the 32- or 16-bit hash
 is applied to every window of n bits, upwards and down again. It is a permutation of the labels,
 so the scrambled graph is the same graph under other names.
 */
module Hash {
  import opened Arithmetic
  import opened Words
  import opened HashSteps

  const STEPS_32: seq<Step> := [
    Sum(0x7ed55d16, 12), Right(0xc761c23c, 19), Sum(0x165667b1, 5),
    Mix(0xd3a2646c, 9), Sum(0xfd7046c5, 3), Right(0xb55a4f09, 16)]

  const STEPS_16: seq<Step> := [
    Sum(0x5d16, 6), Right(0xc23c, 9), Sum(0x67b1, 5),
    Mix(0x646c, 7), Sum(0x46c5, 3), Right(0x4f09, 8)]

  lemma {:induction false} PowValues()
    ensures Pow(16) == 0x1_0000 && Pow(32) == 0x1_0000_0000
  {
    assert Pow(4) == 16;
    hide Pow;
    PowSum(4, 4);
    PowSum(8, 8);
    PowSum(16, 16);
  }

  lemma {:induction false} StepsInvertible()
    ensures forall i | 0 <= i < |STEPS_32| :: Invertible(32, STEPS_32[i])
    ensures forall i | 0 <= i < |STEPS_16| :: Invertible(16, STEPS_16[i])
  {
    hide Pow;
    PowValues();
  }

  /** The 32-bit hash. */
  method Hash32(input: nat) returns (a: nat)
    requires input < Pow(32)
    ensures a == Run(32, STEPS_32, input)
  {
    hide Pow, Xor, ShiftRight, Run;
    a := input;
    a := (a + 0x7ed55d16 + a * Pow(12)) % Pow(32);
    ghost var b := a;
    a := Xor(Xor(a, 0xc761c23c), ShiftRight(a, 19));
    ghost var c := a;
    a := (a + 0x165667b1 + a * Pow(5)) % Pow(32);
    ghost var d := a;
    a := Xor((a + 0xd3a2646c) % Pow(32), a * Pow(9) % Pow(32));
    ghost var e := a;
    a := (a + 0xfd7046c5 + a * Pow(3)) % Pow(32);
    ghost var f := a;
    a := Xor(Xor(a, 0xb55a4f09), ShiftRight(a, 16));
    RunSix(32, STEPS_32, input, b, c, d, e, f);
  }

  /** The 16-bit hash. Its words are promoted, so that every assignment truncates what is wider. */
  method Hash16(input: nat) returns (a: nat)
    requires input < Pow(16)
    ensures a == Run(16, STEPS_16, input)
  {
    hide Pow, Xor, ShiftRight, Run;
    a := input;
    a := (a + 0x5d16 + a * Pow(6)) % Pow(16);
    ghost var b := a;
    a := Xor(Xor(a, 0xc23c), ShiftRight(a, 9)) % Pow(16);
    KeptByStep(Right(0xc23c, 9), b);
    ghost var c := a;
    a := (a + 0x67b1 + a * Pow(5)) % Pow(16);
    ghost var d := a;
    a := Xor(a + 0x646c, a * Pow(7)) % Pow(16);
    TruncatedLate(16, d + 0x646c, d * Pow(7));
    ghost var e := a;
    a := (a + 0x46c5 + a * Pow(3)) % Pow(16);
    ghost var f := a;
    a := Xor(Xor(a, 0x4f09), ShiftRight(a, 8)) % Pow(16);
    KeptByStep(Right(0x4f09, 8), f);
    RunSix(16, STEPS_16, input, b, c, d, e, f);
  }

  lemma {:induction false} KeptByStep(s: Step, a: nat)
    requires a < Pow(16) && s.c < 0x1_0000
    ensures Apply(16, s, a) % Pow(16) == Apply(16, s, a)
  {
    hide Pow, Apply;
    PowValues();
    ApplyBound(16, s, a);
    QuotientIs(Apply(16, s, a), 0, Apply(16, s, a), Pow(16));
  }

  /** Truncating an exclusive or is the exclusive or of the truncated operands. */
  lemma {:induction false} TruncatedLate(w: nat, x: nat, y: nat)
    ensures Xor(x, y) % Pow(w) == Xor(x % Pow(w), y % Pow(w))
  {
    hide Pow, Xor, Low;
    LowMod(x, w, w);
    LowMod(y, w, w);
    LowXor(x % Pow(w), x, y % Pow(w), y, w);
    XorBound(x % Pow(w), y % Pow(w), w);
    LowSym(Xor(x % Pow(w), y % Pow(w)), Xor(x, y), w);
    ModOf(Xor(x, y), Xor(x % Pow(w), y % Pow(w)), w);
  }

  // Windows of bits

  /** The window of w bits at position i. */
  function Window(x: nat, i: nat, w: nat): nat { ShiftRight(x, i) % Pow(w) }

  function WithLow(x: nat, p: nat, v: nat): nat
    requires p > 0
  {
    x / p * p + v
  }

  /** x with the window of w bits at position i cleared and replaced by v. */
  function WithWindow(x: nat, i: nat, w: nat, v: nat): nat {
    if i == 0 then WithLow(x, Pow(w), v) else 2 * WithWindow(x / 2, i - 1, w, v) + x % 2
  }

  lemma {:induction false} LowLaws(x: nat, p: nat, u: nat, v: nat)
    requires p > 0 && u < p && v < p
    ensures WithLow(x, p, v) % p == v && WithLow(x, p, x % p) == x && WithLow(WithLow(x, p, u), p, v) == WithLow(x, p, v)
  {
    Quotient(x, p);
    QuotientIs(WithLow(x, p, v), x / p, v, p);
    QuotientIs(WithLow(x, p, u), x / p, u, p);
  }

  lemma {:induction false} LowWindow(x: nat, w: nat, v: nat)
    ensures Window(x, 0, w) == x % Pow(w) && WithWindow(x, 0, w, v) == WithLow(x, Pow(w), v)
  {
  }

  lemma {:induction false} NextWindow(x: nat, i: nat, w: nat, v: nat)
    requires i > 0
    ensures WithWindow(x, i, w, v) / 2 == WithWindow(x / 2, i - 1, w, v) && WithWindow(x, i, w, v) % 2 == x % 2
    ensures Window(x, i, w) == Window(x / 2, i - 1, w)
  {
  }

  lemma {:induction false} WindowLaws(x: nat, i: nat, w: nat, u: nat, v: nat)
    requires u < Pow(w) && v < Pow(w)
    ensures Window(x, i, w) < Pow(w)
    ensures Window(WithWindow(x, i, w, v), i, w) == v
    ensures WithWindow(x, i, w, Window(x, i, w)) == x
    ensures WithWindow(WithWindow(x, i, w, u), i, w, v) == WithWindow(x, i, w, v)
  {
    var y, z, same := WithWindow(x, i, w, v), WithWindow(x, i, w, u), WithWindow(x, i, w, Window(x, i, w));
    assert Window(x, i, w) < Pow(w);
    hide *;
    if i == 0 {
      LowLaws(x, Pow(w), u, v);
      LowWindow(x, w, v);
      LowWindow(x, w, u);
      LowWindow(x, w, Window(x, 0, w));
      LowWindow(y, w, v);
      LowWindow(z, w, v);
    } else {
      WindowLaws(x / 2, i - 1, w, u, v);
      NextWindow(x, i, w, v);
      NextWindow(x, i, w, u);
      NextWindow(x, i, w, Window(x, i, w));
      NextWindow(y, i, w, v);
      NextWindow(z, i, w, v);
      SameHalves(same, x);
      SameHalves(WithWindow(z, i, w, v), y);
    }
  }

  lemma {:induction false} LowBound(x: nat, p: nat, r: nat, v: nat)
    requires p > 0 && x < p * r && v < p
    ensures WithLow(x, p, v) < p * r
  {
    Dealt(x, p, r);
    TimesLess(x / p, r, p);
  }

  /** Replacing a window of an n-bit number gives an n-bit number. */
  lemma {:induction false} WindowBound(x: nat, i: nat, w: nat, v: nat, n: nat)
    requires x < Pow(n) && i + w <= n && v < Pow(w)
    ensures WithWindow(x, i, w, v) < Pow(n)
  {
    if i == 0 {
      hide WithLow, Pow;
      PowSum(w, n - w);
      LowBound(x, Pow(w), Pow(n - w), v);
    } else {
      assert Pow(n) == 2 * Pow(n - 1);
      hide WithLow, Pow;
      WindowBound(x / 2, i - 1, w, v, n - 1);
    }
  }

  // The hash of n bits

  /** The w-bit hash applied to the window at position i. */
  function Shifted(w: nat, steps: seq<Step>, x: nat, i: nat): nat {
    WithWindow(x, i, w, Run(w, steps, Window(x, i, w)))
  }

  function ShiftedBack(w: nat, steps: seq<Step>, x: nat, i: nat): nat {
    WithWindow(x, i, w, RunBack(w, steps, Window(x, i, w)))
  }

  lemma {:induction false} ShiftedPermutes(w: nat, steps: seq<Step>, x: nat, i: nat, n: nat)
    requires x < Pow(n) && i + w <= n && forall j | 0 <= j < |steps| :: Invertible(w, steps[j])
    ensures Shifted(w, steps, x, i) < Pow(n) && ShiftedBack(w, steps, x, i) < Pow(n)
    ensures ShiftedBack(w, steps, Shifted(w, steps, x, i), i) == x
    ensures Shifted(w, steps, ShiftedBack(w, steps, x, i), i) == x
  {
    hide Pow, Run, RunBack, Window, WithWindow, Invertible;
    var v := Window(x, i, w);
    WindowLaws(x, i, w, 0, 0);
    RunPermutes(w, steps, v);
    var u, t := Run(w, steps, v), RunBack(w, steps, v);
    WindowLaws(x, i, w, u, v);
    WindowLaws(x, i, w, t, v);
    WindowLaws(x, i, w, t, t);
    WindowLaws(x, i, w, u, u);
    WindowBound(x, i, w, u, n);
    WindowBound(x, i, w, t, n);
  }

  /** All windows below position k, upwards, and downwards. */
  function Up(w: nat, steps: seq<Step>, x: nat, k: nat): nat {
    if k == 0 then x else Shifted(w, steps, Up(w, steps, x, k - 1), k - 1)
  }

  function Down(w: nat, steps: seq<Step>, x: nat, k: nat): nat
    decreases k
  {
    if k == 0 then x else Down(w, steps, Shifted(w, steps, x, k - 1), k - 1)
  }

  function UpBack(w: nat, steps: seq<Step>, x: nat, k: nat): nat
    decreases k
  {
    if k == 0 then x else UpBack(w, steps, ShiftedBack(w, steps, x, k - 1), k - 1)
  }

  function DownBack(w: nat, steps: seq<Step>, x: nat, k: nat): nat {
    if k == 0 then x else ShiftedBack(w, steps, DownBack(w, steps, x, k - 1), k - 1)
  }

  lemma {:induction false} UpPermutes(w: nat, steps: seq<Step>, x: nat, k: nat, n: nat)
    requires x < Pow(n) && k + w <= n + 1 && forall j | 0 <= j < |steps| :: Invertible(w, steps[j])
    ensures Up(w, steps, x, k) < Pow(n) && UpBack(w, steps, x, k) < Pow(n)
    ensures UpBack(w, steps, Up(w, steps, x, k), k) == x && Up(w, steps, UpBack(w, steps, x, k), k) == x
    decreases k
  {
    hide Pow, Shifted, ShiftedBack, Invertible;
    if k > 0 {
      UpPermutes(w, steps, x, k - 1, n);
      ShiftedPermutes(w, steps, Up(w, steps, x, k - 1), k - 1, n);
      ShiftedPermutes(w, steps, x, k - 1, n);
      UpPermutes(w, steps, ShiftedBack(w, steps, x, k - 1), k - 1, n);
    }
  }

  lemma {:induction false} DownPermutes(w: nat, steps: seq<Step>, x: nat, k: nat, n: nat)
    requires x < Pow(n) && k + w <= n + 1 && forall j | 0 <= j < |steps| :: Invertible(w, steps[j])
    ensures Down(w, steps, x, k) < Pow(n) && DownBack(w, steps, x, k) < Pow(n)
    ensures DownBack(w, steps, Down(w, steps, x, k), k) == x && Down(w, steps, DownBack(w, steps, x, k), k) == x
    decreases k
  {
    hide Pow, Shifted, ShiftedBack, Invertible;
    if k > 0 {
      ShiftedPermutes(w, steps, x, k - 1, n);
      DownPermutes(w, steps, Shifted(w, steps, x, k - 1), k - 1, n);
      DownPermutes(w, steps, x, k - 1, n);
      ShiftedPermutes(w, steps, DownBack(w, steps, x, k - 1), k - 1, n);
    }
  }

  /** The number of bits of the hash in use, and its steps. */
  function Width(n: nat): nat { if n >= 32 then 32 else 16 }

  function Steps(n: nat): seq<Step> { if n >= 32 then STEPS_32 else STEPS_16 }

  function HashBits(x: nat, n: nat): nat
    requires 16 < n <= 64
  {
    if n == 32 then Run(32, STEPS_32, x % Pow(32))
    else
      var w, steps, k := Width(n), Steps(n), n - Width(n) + 1;
      Down(w, steps, Up(w, steps, x, k), k)
  }

  function HashBitsBack(x: nat, n: nat): nat
    requires 16 < n <= 64
  {
    if n == 32 then RunBack(32, STEPS_32, x % Pow(32))
    else
      var w, steps, k := Width(n), Steps(n), n - Width(n) + 1;
      UpBack(w, steps, DownBack(w, steps, x, k), k)
  }

  /** The hash of n bits is a permutation of the numbers of n bits. */
  lemma {:induction false} HashPermutes(x: nat, n: nat)
    requires 16 < n <= 64 && x < Pow(n)
    ensures HashBits(x, n) < Pow(n) && HashBitsBack(x, n) < Pow(n)
    ensures HashBitsBack(HashBits(x, n), n) == x && HashBits(HashBitsBack(x, n), n) == x
  {
    hide Pow, Run, RunBack, Up, UpBack, Down, DownBack, Invertible;
    StepsInvertible();
    if n == 32 {
      QuotientIs(x, 0, x, Pow(32));
      RunPermutes(32, STEPS_32, x);
      QuotientIs(HashBits(x, 32), 0, HashBits(x, 32), Pow(32));
      QuotientIs(HashBitsBack(x, 32), 0, HashBitsBack(x, 32), Pow(32));
    } else {
      var w, steps, k := Width(n), Steps(n), n - Width(n) + 1;
      UpPermutes(w, steps, x, k, n);
      DownPermutes(w, steps, Up(w, steps, x, k), k, n);
      DownPermutes(w, steps, x, k, n);
      UpPermutes(w, steps, DownBack(w, steps, x, k), k, n);
    }
  }

  // What the hash of n bits does, told of bits alone

  /** y is x with the window of w bits at position i replaced by its hash, all other bits as they were. */
  ghost predicate Rewrites(w: nat, steps: seq<Step>, i: nat, x: nat, y: nat) {
    && (forall b: nat | b < i || i + w <= b :: y / Pow(b) % 2 == x / Pow(b) % 2)
    && y / Pow(i) % Pow(w) == Run(w, steps, x / Pow(i) % Pow(w))
  }

  /** Every window once upwards and once downwards, the last twice in a row. */
  ghost predicate HashChain(n: nat, c: seq<nat>)
    requires 16 < n <= 64 && n != 32
  {
    var m := n - Width(n);
    && |c| == 2 * (m + 1) + 1
    && forall j | 0 <= j < 2 * (m + 1) ::
         Rewrites(Width(n), Steps(n), if j <= m then j else 2 * m + 1 - j, c[j], c[j + 1])
  }

  /** Bits outside a window stay when the window is replaced. */
  lemma {:induction false} WindowKeeps(x: nat, i: nat, w: nat, v: nat, b: nat)
    requires v < Pow(w) && (b < i || i + w <= b)
    ensures ShiftRight(WithWindow(x, i, w, v), b) % 2 == ShiftRight(x, b) % 2
  {
    var y := WithWindow(x, i, w, v);
    if i == 0 {
      hide Pow, ShiftRight;
      QuotientIs(y, x / Pow(w), v, Pow(w));
      ShiftIsQuotient(x, w);
      ShiftIsQuotient(y, w);
      ShiftTwice(x, w, b - w);
      ShiftTwice(y, w, b - w);
    } else {
      hide Pow;
      NextWindow(x, i, w, v);
      hide WithWindow;
      if b > 0 {
        WindowKeeps(x / 2, i - 1, w, v, b - 1);
      }
    }
  }

  lemma {:induction false} ShiftedRewrites(w: nat, steps: seq<Step>, x: nat, i: nat)
    requires forall j | 0 <= j < |steps| :: Invertible(w, steps[j])
    ensures Rewrites(w, steps, i, x, Shifted(w, steps, x, i))
  {
    hide Pow, ShiftRight, WithWindow, Run, Invertible;
    var v, y := Run(w, steps, Window(x, i, w)), Shifted(w, steps, x, i);
    RunPermutes(w, steps, Window(x, i, w));
    WindowLaws(x, i, w, v, v);
    ShiftIsQuotient(x, i);
    ShiftIsQuotient(y, i);
    forall b: nat | b < i || i + w <= b
      ensures y / Pow(b) % 2 == x / Pow(b) % 2
    {
      WindowKeeps(x, i, w, v, b);
      ShiftIsQuotient(x, b);
      ShiftIsQuotient(y, b);
    }
  }

  /** A number is its bits. */
  lemma {:induction false} SameBits(y: nat, z: nat)
    requires forall b: nat :: ShiftRight(y, b) % 2 == ShiftRight(z, b) % 2
    ensures y == z
    decreases y + z
  {
    if y > 0 || z > 0 {
      assert ShiftRight(y, 0) % 2 == ShiftRight(z, 0) % 2;
      forall b: nat
        ensures ShiftRight(y / 2, b) % 2 == ShiftRight(z / 2, b) % 2
      {
        assert ShiftRight(y, b + 1) % 2 == ShiftRight(z, b + 1) % 2;
      }
      SameBits(y / 2, z / 2);
    }
  }

  lemma {:induction false} SameOutside(i: nat, w: nat, y: nat, z: nat)
    requires forall b: nat | b < i || i + w <= b :: ShiftRight(y, b) % 2 == ShiftRight(z, b) % 2
    requires Window(y, i, w) == Window(z, i, w)
    ensures y == z
    decreases i
  {
    if i == 0 {
      forall b: nat
        ensures ShiftRight(ShiftRight(y, w), b) % 2 == ShiftRight(ShiftRight(z, w), b) % 2
      {
        ShiftTwice(y, w, b);
        ShiftTwice(z, w, b);
      }
      SameBits(ShiftRight(y, w), ShiftRight(z, w));
      ShiftIsQuotient(y, w);
      ShiftIsQuotient(z, w);
      Quotient(y, Pow(w));
      Quotient(z, Pow(w));
    } else {
      assert ShiftRight(y, 0) % 2 == ShiftRight(z, 0) % 2;
      forall b: nat | b < i - 1 || i - 1 + w <= b
        ensures ShiftRight(y / 2, b) % 2 == ShiftRight(z / 2, b) % 2
      {
        assert ShiftRight(y, b + 1) % 2 == ShiftRight(z, b + 1) % 2;
      }
      SameOutside(i - 1, w, y / 2, z / 2);
    }
  }

  /** A rewriting has one result. */
  lemma {:induction false} RewritesOnce(w: nat, steps: seq<Step>, i: nat, x: nat, y: nat, z: nat)
    requires Rewrites(w, steps, i, x, y) && Rewrites(w, steps, i, x, z)
    ensures y == z
  {
    hide Pow, ShiftRight, Run;
    ShiftIsQuotient(y, i);
    ShiftIsQuotient(z, i);
    forall b: nat | b < i || i + w <= b
      ensures ShiftRight(y, b) % 2 == ShiftRight(z, b) % 2
    {
      ShiftIsQuotient(y, b);
      ShiftIsQuotient(z, b);
      assert y / Pow(b) % 2 == x / Pow(b) % 2;
    }
    SameOutside(i, w, y, z);
  }

  /** The value after j windows on the way up and down again. */
  function ValueAt(w: nat, steps: seq<Step>, x: nat, m: nat, j: nat): nat
    requires j <= 2 * (m + 1)
  {
    if j <= m + 1 then Up(w, steps, x, j) else Lowered(w, steps, Up(w, steps, x, m + 1), m + 1, j - (m + 1))
  }

  function Values(w: nat, steps: seq<Step>, x: nat, m: nat): (c: seq<nat>)
    ensures |c| == 2 * (m + 1) + 1 && forall j | 0 <= j < |c| :: c[j] == ValueAt(w, steps, x, m, j)
  {
    seq(2 * (m + 1) + 1, (j: nat) requires j <= 2 * (m + 1) => ValueAt(w, steps, x, m, j))
  }

  lemma {:induction false} ValueRewritten(w: nat, steps: seq<Step>, x: nat, m: nat, j: nat)
    requires j < 2 * (m + 1) && forall i | 0 <= i < |steps| :: Invertible(w, steps[i])
    ensures Rewrites(w, steps, if j <= m then j else 2 * m + 1 - j, ValueAt(w, steps, x, m, j), ValueAt(w, steps, x, m, j + 1))
  {
    hide Shifted, Invertible, Rewrites;
    ShiftedRewrites(w, steps, ValueAt(w, steps, x, m, j), if j <= m then j else 2 * m + 1 - j);
  }

  /** The first d windows of those below k, downwards. */
  function Lowered(w: nat, steps: seq<Step>, x: nat, k: nat, d: nat): nat
    requires d <= k
  {
    if d == 0 then x else Shifted(w, steps, Lowered(w, steps, x, k, d - 1), k - d)
  }

  lemma {:induction false} LoweredAll(w: nat, steps: seq<Step>, x: nat, k: nat, d: nat)
    requires d <= k
    ensures Down(w, steps, Lowered(w, steps, x, k, d), k - d) == Down(w, steps, x, k)
  {
    hide Shifted;
    if d > 0 {
      LoweredAll(w, steps, x, k, d - 1);
    }
  }

  /** The hash of x is what every such chain from x ends with, and there is one. */
  lemma {:induction false} HashIsChain(x: nat, n: nat) returns (c: seq<nat>)
    requires 16 < n <= 64 && n != 32
    ensures HashChain(n, c) && c[0] == x && c[|c| - 1] == HashBits(x, n)
    ensures forall d | HashChain(n, d) && d[0] == x :: d[|d| - 1] == HashBits(x, n)
  {
    hide Rewrites, HashBits, Pow, Run, Steps;
    c := ChainOf(x, n);
    forall d | HashChain(n, d) && d[0] == x
      ensures d[|d| - 1] == HashBits(x, n)
    {
      ChainLength(n, c);
      ChainLength(n, d);
      ChainsAgree(n, c, d, |c| - 1);
    }
  }

  lemma {:induction false} ChainLength(n: nat, c: seq<nat>)
    requires 16 < n <= 64 && n != 32 && HashChain(n, c)
    ensures |c| == 2 * (n - Width(n) + 1) + 1 > 0
  {
    hide Rewrites;
  }

  lemma {:induction false} ChainOf(x: nat, n: nat) returns (c: seq<nat>)
    requires 16 < n <= 64 && n != 32
    ensures HashChain(n, c) && c[0] == x && c[|c| - 1] == HashBits(x, n)
  {
    var w, steps, m := Width(n), Steps(n), n - Width(n);
    c := Values(w, steps, x, m);
    StepsInvertible();
    hide Invertible, Rewrites, Shifted;
    LoweredAll(w, steps, Up(w, steps, x, m + 1), m + 1, m + 1);
    forall j | 0 <= j < 2 * (m + 1)
      ensures Rewrites(w, steps, if j <= m then j else 2 * m + 1 - j, c[j], c[j + 1])
    {
      ValueRewritten(w, steps, x, m, j);
    }
  }

  lemma {:induction false} ChainsAgree(n: nat, c: seq<nat>, d: seq<nat>, j: nat)
    requires 16 < n <= 64 && n != 32 && HashChain(n, c) && HashChain(n, d) && c[0] == d[0] && j < |c|
    ensures c[j] == d[j]
  {
    hide Rewrites;
    if j > 0 {
      ChainsAgree(n, c, d, j - 1);
      var m, k := n - Width(n), j - 1;
      var i := if k <= m then k else 2 * m + 1 - k;
      assert Rewrites(Width(n), Steps(n), i, c[k], c[k + 1]) && Rewrites(Width(n), Steps(n), i, d[k], d[k + 1]);
      RewritesOnce(Width(n), Steps(n), i, c[k], c[k + 1], d[k + 1]);
    }
  }

  method ShiftedHash32(input: nat, n: nat) returns (x: nat)
    ensures x == Shifted(32, STEPS_32, input, n)
  {
    var toHash := ShiftRight(input, n) % Pow(32);
    toHash := Hash32(toHash);
    x := WithWindow(input, n, 32, toHash);
  }

  method ShiftedHash16(input: nat, n: nat) returns (x: nat)
    ensures x == Shifted(16, STEPS_16, input, n)
  {
    var toHash := ShiftRight(input, n) % Pow(16);
    toHash := Hash16(toHash);
    x := WithWindow(input, n, 16, toHash);
  }

  method HashNBits(input: nat, n: nat) returns (x: nat)
    requires 16 < n <= 64
    ensures x == HashBits(input, n)
    ensures if n == 32 then x == Run(32, STEPS_32, input % Pow(32))
            else exists c :: HashChain(n, c) && c[0] == input && c[|c| - 1] == x
  {
    hide Pow, Run, Shifted, HashChain;
    if n != 32 {
      var c := HashIsChain(input, n);
    }
    x := input;
    if n == 32 {
      x := Hash32(x % Pow(32));
    } else if n > 32 {
      var m := n - 32;
      for i := 0 to m + 1
        invariant x == Up(32, STEPS_32, input, i)
      {
        x := ShiftedHash32(x, i);
      }
      ghost var top := x;
      for i := m + 1 downto 0
        invariant Down(32, STEPS_32, x, i) == Down(32, STEPS_32, top, m + 1)
      {
        x := ShiftedHash32(x, i);
      }
    } else {
      var m := n - 16;
      for i := 0 to m + 1
        invariant x == Up(16, STEPS_16, input, i)
      {
        x := ShiftedHash16(x, i);
      }
      ghost var top := x;
      for i := m + 1 downto 0
        invariant Down(16, STEPS_16, x, i) == Down(16, STEPS_16, top, m + 1)
      {
        x := ShiftedHash16(x, i);
      }
    }
  }

  // Scrambled graphs

  /** The label a vertex gets: generated labels may exceed the number of nodes and are reduced first. */
  function NewLabel(x: nat, nodes: nat, n: nat): nat
    requires nodes > 0 && 16 < n <= 64
  {
    HashBits(x % nodes, n)
  }

  function NewEdge(e: (nat, nat), nodes: nat, n: nat): (nat, nat)
    requires nodes > 0 && 16 < n <= 64
  {
    (NewLabel(e.0, nodes, n), NewLabel(e.1, nodes, n))
  }

  method ScrambleEdges(edges: array<(nat, nat)>, nodes: nat, n: nat)
    requires nodes > 0 && 16 < n <= 64
    modifies edges
    ensures forall i | 0 <= i < edges.Length :: edges[i] == NewEdge(old(edges[i]), nodes, n)
  {
    hide HashBits, HashChain, Run, Pow;
    var i := 0;
    while i < edges.Length
      invariant 0 <= i <= edges.Length
      invariant forall j | 0 <= j < i :: edges[j] == NewEdge(old(edges[j]), nodes, n)
      invariant forall j | i <= j < edges.Length :: edges[j] == old(edges[j])
    {
      var (source, target) := edges[i];
      source, target := source % nodes, target % nodes;
      source := HashNBits(source, n);
      target := HashNBits(target, n);
      edges[i] := (source, target);
      i := i + 1;
    }
  }

  function Scrambled(edges: set<(nat, nat)>, nodes: nat, n: nat): set<(nat, nat)>
    requires nodes > 0 && 16 < n <= 64
  {
    set e | e in edges :: NewEdge(e, nodes, n)
  }

  /** No two labels in use are congruent modulo the number of nodes. */
  ghost predicate Incongruent(labels: set<nat>, nodes: nat)
    requires nodes > 0
  {
    forall u, v | u in labels && v in labels && u % nodes == v % nodes :: u == v
  }

  /** Renaming: no two vertices become one, and exactly the images of edges are edges. */
  ghost predicate Renames(labels: set<nat>, edges: set<(nat, nat)>, nodes: nat, n: nat)
    requires nodes > 0 && 16 < n <= 64
  {
    && (forall u, v | u in labels && v in labels && NewLabel(u, nodes, n) == NewLabel(v, nodes, n) :: u == v)
    && (forall u, v | u in labels && v in labels ::
          (NewLabel(u, nodes, n), NewLabel(v, nodes, n)) in Scrambled(edges, nodes, n) <==> (u, v) in edges)
  }

  /** Equal new labels come from congruent labels, and only from them. */
  lemma {:induction false} SameLabelIff(u: nat, v: nat, nodes: nat, n: nat)
    requires 16 < n <= 64 && 0 < nodes <= Pow(n)
    ensures NewLabel(u, nodes, n) == NewLabel(v, nodes, n) <==> u % nodes == v % nodes
    ensures NewLabel(u, nodes, n) < Pow(n)
  {
    hide HashBits, HashBitsBack, Pow;
    HashPermutes(u % nodes, n);
    HashPermutes(v % nodes, n);
  }

  /** The edges of a graph are scrambled into an isomorphic graph iff no labels in use are congruent. */
  lemma {:induction false} ScrambledIsomorphicIff(labels: set<nat>, edges: set<(nat, nat)>, nodes: nat, n: nat)
    requires 16 < n <= 64 && 0 < nodes <= Pow(n)
    requires forall e | e in edges :: e.0 in labels && e.1 in labels
    ensures Renames(labels, edges, nodes, n) <==> Incongruent(labels, nodes)
  {
    hide NewLabel, Pow;
    forall u, v | u in labels && v in labels
      ensures NewLabel(u, nodes, n) == NewLabel(v, nodes, n) <==> u % nodes == v % nodes
    {
      SameLabelIff(u, v, nodes, n);
    }
    if Incongruent(labels, nodes) {
      forall u, v | u in labels && v in labels
        ensures (NewLabel(u, nodes, n), NewLabel(v, nodes, n)) in Scrambled(edges, nodes, n) <==> (u, v) in edges
      {
        if (u, v) in edges {
          assert NewEdge((u, v), nodes, n) in Scrambled(edges, nodes, n);
        }
        if (NewLabel(u, nodes, n), NewLabel(v, nodes, n)) in Scrambled(edges, nodes, n) {
          var e :| e in edges && NewEdge(e, nodes, n) == (NewLabel(u, nodes, n), NewLabel(v, nodes, n));
          assert e.0 == u && e.1 == v;
        }
      }
    }
  }

  /** Labels below the number of nodes are never congruent, so they are always only renamed. */
  lemma {:induction false} SmallLabelsIncongruent(labels: set<nat>, nodes: nat)
    requires nodes > 0 && forall u | u in labels :: u < nodes
    ensures Incongruent(labels, nodes)
  {
    forall u | u in labels
      ensures u % nodes == u
    {
      QuotientIs(u, 0, u, nodes);
    }
  }

  /** A label and the same label plus the number of nodes become one vertex. */
  lemma {:induction false} LabelsCollide(u: nat, nodes: nat, n: nat)
    requires nodes > 0 && 16 < n <= 64
    ensures u != u + nodes && NewLabel(u, nodes, n) == NewLabel(u + nodes, nodes, n)
    ensures !Renames({u, u + nodes}, {}, nodes, n)
  {
    hide HashBits;
    Quotient(u, nodes);
    QuotientIs(u + nodes, u / nodes + 1, u % nodes, nodes);
  }
}
