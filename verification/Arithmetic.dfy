/** Quotients and multiples of naturals, where rank and tree arithmetic leaves the linear world. */
module Arithmetic {
  lemma {:induction false} Quotient(x: nat, k: nat)
    requires k > 0
    ensures x == x / k * k + x % k && x % k < k
  {
  }

  lemma {:induction false} TimesLess(a: nat, b: nat, k: nat)
    requires a < b
    ensures a * k + k <= b * k
  {
    assert (a + 1) * k <= b * k;
  }

  lemma {:induction false} QuotientUnique(q: nat, c: nat, q': nat, c': nat, k: nat)
    requires q * k + c == q' * k + c' && c < k && c' < k
    ensures q == q' && c == c'
  {
    if q < q' {
      TimesLess(q, q', k);
    } else if q' < q {
      TimesLess(q', q, k);
    }
  }

  lemma {:induction false} QuotientIs(x: nat, q: nat, c: nat, k: nat)
    requires x == q * k + c && c < k
    ensures x / k == q && x % k == c
  {
    Quotient(x, k);
    QuotientUnique(x / k, x % k, q, c, k);
  }

  /** Index and offset of element x when elements are dealt to k ranks in turn. */
  lemma {:induction false} Dealt(x: nat, k: nat, m: nat)
    requires k > 0 && x < k * m
    ensures x % k < k && x / k < m && x == x % k + x / k * k
  {
    Quotient(x, k);
    if m < x / k {
      TimesLess(m, x / k, k);
    }
  }

  lemma {:induction false} DealtBack(rank: nat, i: nat, k: nat, m: nat)
    requires rank < k && i < m
    ensures rank + i * k < k * m && (rank + i * k) % k == rank && (rank + i * k) / k == i
  {
    TimesLess(i, m, k);
    QuotientIs(rank + i * k, i, rank, k);
  }
}
