/**
 The send side of the all-to-all exchange: count the edges of every destination, turn the counts
 into displacements, place every edge. The places are those of a stable counting sort.
 */
module AllToAll {
  import opened Arithmetic
  import opened EdgePartitioner
  import opened PartitionPasses

  // Places

  /** How many of the first i destinations are r. */
  function Count(d: seq<nat>, r: nat, i: nat): (n: nat)
    requires i <= |d|
    ensures n <= i
  {
    if i == 0 then 0 else Count(d, r, i - 1) + if d[i - 1] == r then 1 else 0
  }

  /** How many of the first i destinations are below r. */
  function Below(d: seq<nat>, r: nat, i: nat): nat
    requires i <= |d|
  {
    if r == 0 then 0 else Below(d, r - 1, i) + Count(d, r - 1, i)
  }

  /** The place of element i: behind all elements of smaller destinations and all earlier ones of its own. */
  function Slot(d: seq<nat>, i: nat): nat
    requires i < |d|
  {
    Below(d, d[i], |d|) + Count(d, d[i], i)
  }

  ghost predicate InRange(d: seq<nat>, size: nat) { forall i | 0 <= i < |d| :: d[i] < size }

  /** Index k is the place of some element. */
  ghost predicate Taken(d: seq<nat>, k: nat) { exists i: nat | i < |d| :: Slot(d, i) == k }

  lemma {:induction false} CountGrows(d: seq<nat>, r: nat, i: nat, j: nat)
    requires i <= j <= |d|
    ensures Count(d, r, i) <= Count(d, r, j)
    decreases j
  {
    if i < j {
      CountGrows(d, r, i, j - 1);
    }
  }

  lemma {:induction false} CountPasses(d: seq<nat>, i: nat, j: nat)
    requires i < j <= |d|
    ensures Count(d, d[i], i) < Count(d, d[i], j)
  {
    CountGrows(d, d[i], i + 1, j);
  }

  lemma {:induction false} BelowGrows(d: seq<nat>, r: nat, q: nat)
    requires r < q
    ensures Below(d, r, |d|) + Count(d, r, |d|) <= Below(d, q, |d|)
    decreases q
  {
    if r + 1 < q {
      BelowGrows(d, r, q - 1);
    }
  }

  lemma {:induction false} BelowStep(d: seq<nat>, r: nat, i: nat)
    requires i < |d|
    ensures Below(d, r, i + 1) == Below(d, r, i) + if d[i] < r then 1 else 0
  {
    if r > 0 {
      BelowStep(d, r - 1, i);
    }
  }

  lemma {:induction false} BelowAll(d: seq<nat>, size: nat, i: nat)
    requires InRange(d, size) && i <= |d|
    ensures Below(d, size, i) == i
  {
    if i == 0 {
      BelowNone(d, size);
    } else {
      BelowAll(d, size, i - 1);
      BelowStep(d, size, i - 1);
    }
  }

  lemma {:induction false} BelowNone(d: seq<nat>, r: nat)
    ensures Below(d, r, 0) == 0
  {
    if r > 0 {
      BelowNone(d, r - 1);
    }
  }

  /** Every place is in bounds. */
  lemma {:induction false} SlotInBounds(d: seq<nat>, size: nat, i: nat)
    requires InRange(d, size) && i < |d|
    ensures Slot(d, i) < |d|
  {
    CountPasses(d, i, |d|);
    BelowGrows(d, d[i], size);
    BelowAll(d, size, |d|);
  }

  /** Places are ordered by destination, and within one destination by the order of the input. */
  lemma {:induction false} SlotOrder(d: seq<nat>, i: nat, j: nat)
    requires i < |d| && j < |d|
    ensures Slot(d, i) < Slot(d, j) <==> d[i] < d[j] || (d[i] == d[j] && i < j)
  {
    SlotForward(d, i, j);
    SlotForward(d, j, i);
  }

  lemma {:induction false} SlotForward(d: seq<nat>, i: nat, j: nat)
    requires i < |d| && j < |d|
    ensures d[i] < d[j] || (d[i] == d[j] && i < j) ==> Slot(d, i) < Slot(d, j)
  {
    if d[i] < d[j] {
      CountPasses(d, i, |d|);
      BelowGrows(d, d[i], d[j]);
    } else if d[i] == d[j] && i < j {
      CountPasses(d, i, j);
    }
  }

  lemma {:induction false} NthOf(d: seq<nat>, r: nat, n: nat, m: nat) returns (i: nat)
    requires n <= |d| && m < Count(d, r, n)
    ensures i < n && d[i] == r && Count(d, r, i) == m
  {
    if d[n - 1] == r && m == Count(d, r, n - 1) {
      i := n - 1;
    } else {
      i := NthOf(d, r, n - 1, m);
    }
  }

  lemma {:induction false} HolderOf(d: seq<nat>, r: nat, k: nat) returns (i: nat)
    requires k < Below(d, r, |d|)
    ensures i < |d| && Slot(d, i) == k
  {
    if k < Below(d, r - 1, |d|) {
      i := HolderOf(d, r - 1, k);
    } else {
      i := NthOf(d, r - 1, |d|, k - Below(d, r - 1, |d|));
    }
  }

  /** The places are a permutation: every index of the batch is the place of exactly one element. */
  lemma {:induction false} SlotsArePermutation(d: seq<nat>, size: nat)
    requires InRange(d, size)
    ensures forall i | 0 <= i < |d| :: Slot(d, i) < |d|
    ensures forall i, j | 0 <= i < |d| && 0 <= j < |d| && Slot(d, i) == Slot(d, j) :: i == j
    ensures forall k | 0 <= k < |d| :: Taken(d, k)
  {
    forall i | 0 <= i < |d|
      ensures Slot(d, i) < |d|
    {
      SlotInBounds(d, size, i);
    }
    forall i, j | 0 <= i < |d| && 0 <= j < |d| && Slot(d, i) == Slot(d, j)
      ensures i == j
    {
      SlotOrder(d, i, j);
      SlotOrder(d, j, i);
    }
    forall k | 0 <= k < |d|
      ensures Taken(d, k)
    {
      BelowAll(d, size, |d|);
      var i := HolderOf(d, size, k);
    }
  }

  // The exchange

  /** First pass: the counts, in bytes. */
  method CountEdges(inVec: array<Edge>, owner: Partitioner, width: nat) returns (counts: array<nat>)
    requires owner.own < owner.size && Idle(owner.transfer, owner.size, owner.own)
    modifies owner`transfer
    ensures fresh(counts) && counts.Length == owner.size
    ensures var d := Destinations(old(owner.transfer), inVec[..], owner.size, owner.own);
      && forall r | 0 <= r < owner.size :: counts[r] == Count(d, r, |d|) * width
    ensures TableCounted(old(owner.transfer), owner.transfer, inVec[..], owner.size, owner.own, |inVec[..]|)
  {
    hide *;
    counts := new nat[owner.size](_ => 0);
    ghost var t0, edges := owner.transfer, inVec[..];
    ghost var d := Destinations(t0, edges, owner.size, owner.own);
    StartCounting(t0, edges, owner.size, owner.own);
    var i := 0;
    while i < inVec.Length
      invariant 0 <= i <= inVec.Length && inVec[..] == edges
      invariant TableCounted(t0, owner.transfer, edges, owner.size, owner.own, i)
      invariant forall r | 0 <= r < owner.size :: counts[r] == Count(d, r, i) * width
    {
      CountCall(t0, owner.transfer, edges, owner.size, owner.own, i);
      DestinationIsRank(t0, edges, owner.size, owner.own, i);
      var dest := owner.Owner(inVec[i], true);
      counts[dest] := counts[dest] + width;
      CountAdds(d, i, width);
      i := i + 1;
    }
  }

  lemma {:induction false} CountAdds(d: seq<nat>, i: nat, width: nat)
    requires i < |d|
    ensures forall r: nat :: Count(d, r, i + 1) * width == Count(d, r, i) * width + if r == d[i] then width else 0
  {
    forall r: nat
      ensures Count(d, r, i + 1) * width == Count(d, r, i) * width + if r == d[i] then width else 0
    {
      if r == d[i] {
        assert (Count(d, r, i) + 1) * width == Count(d, r, i) * width + width;
      }
    }
  }

  /** Prefix sums, shifted to start at zero. */
  method Displacements(counts: array<nat>) returns (disps: array<nat>)
    ensures fresh(disps) && disps.Length == counts.Length
    ensures forall r | 0 <= r < counts.Length :: disps[r] == SumBelow(counts[..], r)
  {
    disps := new nat[counts.Length](_ => 0);
    var r := 0;
    while r < counts.Length
      invariant 0 <= r <= counts.Length
      invariant forall q | 0 <= q < r :: disps[q] == SumBelow(counts[..], q + 1)
    {
      disps[r] := if r == 0 then counts[0] else disps[r - 1] + counts[r];
      r := r + 1;
    }
    r := 0;
    while r < counts.Length
      invariant 0 <= r <= counts.Length
      invariant forall q | 0 <= q < r :: disps[q] == SumBelow(counts[..], q)
      invariant forall q | r <= q < counts.Length :: disps[q] == SumBelow(counts[..], q + 1)
    {
      disps[r] := disps[r] - counts[r];
      r := r + 1;
    }
  }

  function SumBelow(counts: seq<nat>, r: nat): nat
    requires r <= |counts|
  {
    if r == 0 then 0 else SumBelow(counts, r - 1) + counts[r - 1]
  }

  lemma {:induction false} SumIsBelow(d: seq<nat>, counts: seq<nat>, width: nat, r: nat)
    requires r <= |counts| && forall q | 0 <= q < |counts| :: counts[q] == Count(d, q, |d|) * width
    ensures SumBelow(counts, r) == Below(d, r, |d|) * width
  {
    if r > 0 {
      SumIsBelow(d, counts, width, r - 1);
      assert (Below(d, r - 1, |d|) + Count(d, r - 1, |d|)) * width == Below(d, r - 1, |d|) * width + Count(d, r - 1, |d|) * width;
    }
  }

  /** The offset in bytes that the code computes for element i is its place. */
  lemma {:induction false} OffsetIsSlot(d: seq<nat>, i: nat, width: nat)
    requires i < |d| && width > 0
    ensures (Below(d, d[i], |d|) * width + Count(d, d[i], i) * width) / width == Slot(d, i)
  {
    var bytes := Below(d, d[i], |d|) * width + Count(d, d[i], i) * width;
    assert bytes == (Below(d, d[i], |d|) + Count(d, d[i], i)) * width;
    QuotientIs(bytes, Slot(d, i), 0, width);
  }

  /** Second pass: the same destinations, every element written to its place. */
  method Rearrange(inVec: array<Edge>, owner: Partitioner, disps: array<nat>, width: nat, ghost t0: Table)
    returns (order: array<Edge>)
    requires width > 0 && owner.own < owner.size && Idle(t0, owner.size, owner.own)
    requires TableSending(t0, owner.transfer, inVec[..], owner.size, owner.own, 0)
    requires disps.Length == owner.size
    requires var d := Destinations(t0, inVec[..], owner.size, owner.own);
      forall r | 0 <= r < owner.size :: disps[r] == Below(d, r, |d|) * width
    modifies owner`transfer
    ensures fresh(order) && order.Length == inVec.Length
    ensures var d := Destinations(t0, inVec[..], owner.size, owner.own);
      forall i | 0 <= i < inVec.Length :: Slot(d, i) < order.Length && order[Slot(d, i)] == inVec[i]
    ensures TableSending(t0, owner.transfer, inVec[..], owner.size, owner.own, |inVec[..]|)
  {
    hide *;
    ghost var edges := inVec[..];
    ghost var d := Destinations(t0, edges, owner.size, owner.own);
    DestinationsInRange(t0, edges, owner.size, owner.own);
    SlotsArePermutation(d, owner.size);
    order := new Edge[inVec.Length](_ => Edge(0, 0));
    var arranged := new nat[owner.size](_ => 0);
    var i := 0;
    while i < inVec.Length
      invariant 0 <= i <= inVec.Length && inVec[..] == edges
      invariant TableSending(t0, owner.transfer, edges, owner.size, owner.own, i)
      invariant forall r | 0 <= r < owner.size :: arranged[r] == Count(d, r, i) * width
      invariant forall j | 0 <= j < i :: order[Slot(d, j)] == edges[j]
    {
      SendUsable(t0, owner.transfer, edges, owner.size, owner.own, i);
      SendCall(t0, owner.transfer, edges, owner.size, owner.own, i);
      DestinationIsRank(t0, edges, owner.size, owner.own, i);
      var dest := owner.Owner(inVec[i], false);
      OffsetIsSlot(d, i, width);
      var offset := (disps[dest] + arranged[dest]) / width;
      arranged[dest] := arranged[dest] + width;
      order[offset] := inVec[i];
      CountAdds(d, i, width);
      i := i + 1;
    }
  }

  lemma {:induction false} DestinationsInRange(t: Table, edges: seq<Edge>, size: nat, own: nat)
    requires own < size && Idle(t, size, own)
    ensures InRange(Destinations(t, edges, size, own), size)
  {
    hide Destination, Idle;
    var d := Destinations(t, edges, size, own);
    forall i | 0 <= i < |d|
      ensures d[i] < size
    {
      DestinationIsRank(t, edges, size, own, i);
    }
  }

  lemma {:induction false} SendUsable(t0: Table, t: Table, edges: seq<Edge>, size: nat, own: nat, i: nat)
    requires size > 0 && i < |edges| && TableSending(t0, t, edges, size, own, i)
    ensures forall v | v in t :: Usable(t[v], size, own)
  {
    hide Sending, Stream, Usable;
    forall v | v in t
      ensures Usable(t[v], size, own)
    {
      assert QueueSending(t0, t, edges, size, own, i, v);
    }
  }

  /** The batch grouped by destination: every element at its place, and the partitioner ready again. */
  method Group(inVec: array<Edge>, owner: Partitioner, width: nat)
    returns (order: array<Edge>, counts: array<nat>, disps: array<nat>)
    requires width > 0 && owner.own < owner.size && Idle(owner.transfer, owner.size, owner.own)
    modifies owner`transfer
    ensures order.Length == inVec.Length && counts.Length == disps.Length == owner.size
    ensures var d := Destinations(old(owner.transfer), inVec[..], owner.size, owner.own);
      && (forall i | 0 <= i < inVec.Length :: Slot(d, i) < order.Length && order[Slot(d, i)] == inVec[i])
      && (forall r | 0 <= r < owner.size :: counts[r] == Count(d, r, |d|) * width && disps[r] == Below(d, r, |d|) * width)
    ensures Idle(owner.transfer, owner.size, owner.own)
  {
    hide *;
    ghost var t0, edges := owner.transfer, inVec[..];
    ghost var d := Destinations(t0, edges, owner.size, owner.own);
    counts := CountEdges(inVec, owner, width);
    disps := Displacements(counts);
    StartSending(t0, owner.transfer, edges, owner.size, owner.own);
    forall r | 0 <= r < owner.size
      ensures disps[r] == Below(d, r, |d|) * width
    {
      SumIsBelow(d, counts[..], width, r);
    }
    order := Rearrange(inVec, owner, disps, width, t0);
    EndSending(t0, owner.transfer, edges, owner.size, owner.own);
  }

  /** What lies between two displacements is what goes to that rank, in the order of the input. */
  lemma {:induction false} SegmentOf(d: seq<nat>, size: nat, i: nat, r: nat)
    requires InRange(d, size) && i < |d|
    ensures Below(d, r, |d|) <= Slot(d, i) < Below(d, r, |d|) + Count(d, r, |d|) <==> d[i] == r
  {
    CountPasses(d, i, |d|);
    if d[i] < r {
      BelowGrows(d, d[i], r);
    } else if r < d[i] {
      BelowGrows(d, r, d[i]);
    }
  }
}
