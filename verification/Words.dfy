/** Unsigned machine words as naturals: powers of two, congruence, exclusive or, fields of bits. */
module Words {
  import opened Arithmetic

  function Pow(k: nat): (p: nat)
    ensures p > 0
  {
    if k == 0 then 1 else 2 * Pow(k - 1)
  }

  lemma {:induction false} PowSum(j: nat, k: nat)
    ensures Pow(j + k) == Pow(j) * Pow(k)
  {
    if j > 0 {
      PowSum(j - 1, k);
      assert Pow(j) == 2 * Pow(j - 1) && Pow(j + k) == 2 * Pow(j - 1 + k);
      hide Pow;
      TimesAssoc(2, Pow(j - 1), Pow(k));
    }
  }

  // Congruence modulo a power of two, that is, equal low bits

  ghost predicate Low(x: int, y: int, m: nat) { exists t: int :: x - y == t * Pow(m) }

  lemma {:induction false} LowBy(x: int, y: int, m: nat, t: int)
    requires x - y == t * Pow(m)
    ensures Low(x, y, m)
  {
  }

  lemma {:induction false} LowIsMod(x: int, y: int, m: nat)
    ensures Low(x, y, m) <==> x % Pow(m) == y % Pow(m)
  {
    var p := Pow(m);
    assert x == x / p * p + x % p && y == y / p * p + y % p;
    if x % p == y % p {
      assert (x / p - y / p) * p == x / p * p - y / p * p;
      LowBy(x, y, m, x / p - y / p);
    } else if Low(x, y, m) {
      var t: int :| x - y == t * p;
      var u := t - x / p + y / p;
      assert u * p == t * p - x / p * p + y / p * p;
      assert x % p - y % p == u * p;
      SmallMultiple(x % p - y % p, u, p);
    }
  }

  lemma {:induction false} Multiple(u: int, p: int)
    requires p > 0
    ensures (u >= 1 ==> u * p >= p) && (u <= -1 ==> u * p <= 0 - p)
  {
    if u >= 1 {
      assert (u - 1) * p >= 0;
    } else if u <= -1 {
      assert (-1 - u) * p >= 0;
    }
  }

  lemma {:induction false} SmallMultiple(d: int, u: int, p: int)
    requires d == u * p && d < p && 0 < d + p
    ensures u == 0
  {
    Multiple(u, p);
  }

  lemma {:induction false} TimesAssoc(a: int, b: int, c: int)
    ensures a * b * c == a * (b * c)
  {
  }

  /** Truncation to w bits keeps lower bits. */
  lemma {:induction false} LowMod(x: int, w: nat, m: nat)
    requires m <= w
    ensures Low(x % Pow(w), x, m)
  {
    var p, q := Pow(w), x / Pow(w);
    assert x == q * p + x % p;
    PowSum(w - m, m);
    TimesAssoc(-q, Pow(w - m), Pow(m));
    assert -q * p == 0 - q * p;
    LowBy(x % p, x, m, -q * Pow(w - m));
  }

  lemma {:induction false} LowTrans(x: int, y: int, z: int, m: nat)
    requires Low(x, y, m) && Low(y, z, m)
    ensures Low(x, z, m)
  {
    LowIsMod(x, y, m);
    LowIsMod(y, z, m);
    LowIsMod(x, z, m);
  }

  lemma {:induction false} LowSym(x: int, y: int, m: nat)
    requires Low(x, y, m)
    ensures Low(y, x, m)
  {
    LowIsMod(x, y, m);
    LowIsMod(y, x, m);
  }

  lemma {:induction false} LowAdd(x: int, y: int, c: int, m: nat)
    requires Low(x, y, m)
    ensures Low(x + c, y + c, m) && Low(c - x, c - y, m)
  {
    var t: int :| x - y == t * Pow(m);
    LowBy(x + c, y + c, m, t);
    assert (-t) * Pow(m) == -(t * Pow(m));
    LowBy(c - x, c - y, m, -t);
  }

  /** Shifting left by k gains k equal bits. */
  lemma {:induction false} LowShift(x: int, y: int, k: nat, m: nat)
    requires Low(x, y, m) && k > 0
    ensures Low(x * Pow(k), y * Pow(k), m + 1)
  {
    var t: int :| x - y == t * Pow(m);
    var p, q := Pow(m), Pow(k - 1);
    assert x * (2 * q) - y * (2 * q) == (x - y) * (2 * q);
    assert t * p * (2 * q) == t * q * (2 * p);
    LowBy(x * Pow(k), y * Pow(k), m + 1, t * q);
  }

  lemma {:induction false} LowWhole(x: nat, y: nat, w: nat)
    requires Low(x, y, w) && x < Pow(w) && y < Pow(w)
    ensures x == y
  {
    var t: int :| x - y == t * Pow(w);
    SmallMultiple(x - y, t, Pow(w));
  }

  // Exclusive or

  function Xor(x: nat, y: nat): nat {
    if x == 0 && y == 0 then 0 else 2 * Xor(x / 2, y / 2) + (x + y) % 2
  }

  lemma {:induction false} XorZero(x: nat)
    ensures Xor(x, 0) == x && Xor(0, x) == x
  {
    if x > 0 {
      XorZero(x / 2);
    }
  }

  lemma {:induction false} XorSelf(x: nat)
    ensures Xor(x, x) == 0
  {
    if x > 0 {
      XorSelf(x / 2);
    }
  }

  lemma {:induction false} XorSwap(x: nat, y: nat)
    ensures Xor(x, y) == Xor(y, x)
  {
    if x > 0 || y > 0 {
      XorSwap(x / 2, y / 2);
    }
  }

  lemma {:induction false} XorStep(x: nat, y: nat)
    ensures Xor(x, y) / 2 == Xor(x / 2, y / 2) && Xor(x, y) % 2 == (x + y) % 2
  {
  }

  /** Three parities add up in either order. */
  lemma {:induction false} ParityAssoc(x: nat, y: nat, z: nat, a: nat, b: nat)
    requires a % 2 == (x + y) % 2 && b % 2 == (y + z) % 2
    ensures (a + z) % 2 == (x + b) % 2
  {
  }

  lemma {:induction false} XorAssoc(x: nat, y: nat, z: nat)
    ensures Xor(Xor(x, y), z) == Xor(x, Xor(y, z))
    decreases x + y + z
  {
    hide Xor;
    if x == 0 && y == 0 && z == 0 {
      XorZero(0);
    } else {
      XorStep(x, y);
      XorStep(y, z);
      XorAssoc(x / 2, y / 2, z / 2);
      XorStep(Xor(x, y), z);
      XorStep(x, Xor(y, z));
      ParityAssoc(x, y, z, Xor(x, y), Xor(y, z));
      SameHalves(Xor(Xor(x, y), z), Xor(x, Xor(y, z)));
    }
  }

  lemma {:induction false} SameHalves(x: nat, y: nat)
    requires x / 2 == y / 2 && x % 2 == y % 2
    ensures x == y
  {
  }

  lemma {:induction false} XorCancel(x: nat, y: nat)
    ensures Xor(Xor(x, y), y) == x
  {
    XorAssoc(x, y, y);
    XorSelf(y);
    XorZero(x);
  }

  lemma {:induction false} XorBound(x: nat, y: nat, w: nat)
    requires x < Pow(w) && y < Pow(w)
    ensures Xor(x, y) < Pow(w)
  {
    if w > 0 && (x > 0 || y > 0) {
      XorBound(x / 2, y / 2, w - 1);
    }
  }

  // Shifting right

  function ShiftRight(x: nat, k: nat): nat { if k == 0 then x else ShiftRight(x / 2, k - 1) }

  lemma {:induction false} ShiftTwice(x: nat, j: nat, k: nat)
    ensures ShiftRight(ShiftRight(x, j), k) == ShiftRight(x, j + k)
  {
    if j > 0 {
      ShiftTwice(x / 2, j - 1, k);
    }
  }

  lemma {:induction false} ShiftOut(x: nat, w: nat, k: nat)
    requires x < Pow(w)
    ensures ShiftRight(x, k) < Pow(w) && (k >= w ==> ShiftRight(x, k) == 0)
    decreases k
  {
    if k > 0 {
      ShiftOut(x / 2, if w > 0 then w - 1 else 0, k - 1);
    }
  }

  /** Shifting right and exclusive or commute. */
  lemma {:induction false} XorShift(x: nat, y: nat, k: nat)
    ensures ShiftRight(Xor(x, y), k) == Xor(ShiftRight(x, k), ShiftRight(y, k))
    decreases k
  {
    if k > 0 {
      XorStep(x, y);
      XorShift(x / 2, y / 2, k - 1);
    }
  }

  // Low bits of an exclusive or

  lemma {:induction false} LowHalf(x: nat, y: nat, m: nat)
    requires m > 0 && Low(x, y, m)
    ensures Low(x / 2, y / 2, m - 1) && x % 2 == y % 2
  {
    var t: int :| x - y == t * Pow(m);
    var s := t * Pow(m - 1);
    assert x - y == 2 * s by {
      TimesAssoc(t, 2, Pow(m - 1));
      TimesAssoc(2, t, Pow(m - 1));
    }
    Halves(x, y, s);
    LowBy(x / 2, y / 2, m - 1, t);
  }

  lemma {:induction false} Halves(x: nat, y: nat, s: int)
    requires x - y == 2 * s
    ensures x / 2 - y / 2 == s && x % 2 == y % 2
  {
  }

  lemma {:induction false} LowDouble(x: nat, y: nat, m: nat)
    requires m > 0 && Low(x / 2, y / 2, m - 1) && x % 2 == y % 2
    ensures Low(x, y, m)
  {
    var t: int :| x / 2 - y / 2 == t * Pow(m - 1);
    assert t * (2 * Pow(m - 1)) == 2 * (t * Pow(m - 1));
    LowBy(x, y, m, t);
  }

  lemma {:induction false} LowNone(x: int, y: int)
    ensures Low(x, y, 0)
  {
    LowBy(x, y, 0, x - y);
  }

  /** The low bits of an exclusive or depend on low bits only. */
  lemma {:induction false} LowXor(x: nat, x': nat, y: nat, y': nat, m: nat)
    requires Low(x, x', m) && Low(y, y', m)
    ensures Low(Xor(x, y), Xor(x', y'), m)
    decreases m
  {
    hide *;
    if m == 0 {
      LowNone(Xor(x, y), Xor(x', y'));
    } else {
      LowHalf(x, x', m);
      LowHalf(y, y', m);
      LowXor(x / 2, x' / 2, y / 2, y' / 2, m - 1);
      XorStep(x, y);
      XorStep(x', y');
      LowDouble(Xor(x, y), Xor(x', y'), m);
    }
  }

  lemma {:induction false} HalfOfQuotient(x: nat, p: nat)
    requires p > 0
    ensures x / 2 / p == x / (2 * p)
  {
    Quotient(x / 2, p);
    Quotient(x, 2);
    QuotientIs(x, x / 2 / p, 2 * (x / 2 % p) + x % 2, 2 * p);
  }

  lemma {:induction false} ShiftIsQuotient(x: nat, k: nat)
    ensures ShiftRight(x, k) == x / Pow(k)
  {
    if k > 0 {
      assert Pow(k) == 2 * Pow(k - 1);
      hide Pow;
      ShiftIsQuotient(x / 2, k - 1);
      HalfOfQuotient(x, Pow(k - 1));
    }
  }

  lemma {:induction false} XorShiftedBit(x: nat, y: nat, b: nat)
    ensures ShiftRight(Xor(x, y), b) % 2 == 1 <==> ShiftRight(x, b) % 2 != ShiftRight(y, b) % 2
  {
    XorStep(x, y);
    hide Xor;
    if b > 0 {
      XorShiftedBit(x / 2, y / 2, b - 1);
    }
  }

  /** Bit by bit: one where exactly one of the operands has a one. */
  lemma {:induction false} XorBits(x: nat, y: nat, b: nat)
    ensures Xor(x, y) / Pow(b) % 2 == 1 <==> x / Pow(b) % 2 != y / Pow(b) % 2
  {
    hide Pow, Xor, ShiftRight;
    XorShiftedBit(x, y, b);
    ShiftIsQuotient(x, b);
    ShiftIsQuotient(y, b);
    ShiftIsQuotient(Xor(x, y), b);
  }
}
