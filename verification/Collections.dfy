/** Options, sets of indices and sizes of sets, shared by several modules. */
module Collections {
  datatype Option<T> = None | Some(value: T)

  /** The numbers below n. */
  function Indices(n: nat): (r: set<nat>)
    ensures forall i: nat :: i in r <==> i < n
  {
    if n == 0 then {} else Indices(n - 1) + {n - 1}
  }

  lemma {:induction false} IndicesSize(n: nat)
    ensures |Indices(n)| == n
  {
    if n > 0 {
      var s := Indices(n - 1);
      IndicesSize(n - 1);
      assert Indices(n) == s + {n - 1};
      hide Indices;
    }
  }

  lemma {:induction false} SubsetSize<T>(s: set<T>, l: set<T>)
    requires s <= l
    ensures |s| <= |l|
  {
    if s != {} {
      var x :| x in s;
      SubsetSize(s - {x}, l - {x});
    }
  }

  lemma {:induction false} SmallerSet<T>(a: set<T>, b: set<T>)
    requires a <= b
    ensures |a| <= |b| && (a != b ==> |a| < |b|)
  {
    if a != b {
      var x :| x in b && x !in a;
      SubsetSize(a, b - {x});
    }
  }
}
