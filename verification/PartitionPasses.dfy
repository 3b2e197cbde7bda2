/**
 The two passes over a batch of edges: the answers of a partitioner whose queues change with every
 call, said without state, and the table between, during and after the passes.
 */
module PartitionPasses {
  import opened EdgePartitioner

  /** The partitioner would have to choose where edge e goes: the rank owns its target, and source v is in the table. */
  predicate Chosen(e: Edge, size: nat, own: nat, v: nat)
    requires size > 0
  {
    e.source == v && e.target % size == own
  }

  /** How many of the first i edges of the batch ask for a rank of source v. */
  function Asked(edges: seq<Edge>, size: nat, own: nat, v: nat, i: nat): (n: nat)
    requires size > 0 && i <= |edges|
    ensures n <= i
  {
    if i == 0 then 0
    else Asked(edges, size, own, v, i - 1) + if Chosen(edges[i - 1], size, own, v) then 1 else 0
  }

  function Least(a: nat, b: nat): nat { if a < b then a else b }

  /**
   Where edge i goes, said without state: to the rank that owns its target unless that is this rank
   and the source is in the table; the k-th such edge of a source goes to the k-th entry of the
   source's stream, and stays when the stream is used up.
   */
  function Destination(t: Table, edges: seq<Edge>, size: nat, own: nat, i: nat): nat
    requires size > 0 && i < |edges|
  {
    var e := edges[i];
    if e.target % size != own || e.source !in t then e.target % size
    else
      var k := Asked(edges, size, own, e.source, i);
      if k < |Stream(t[e.source])| then Stream(t[e.source])[k] else own
  }

  // The two passes

  /** A table as it is when no batch is being exchanged. */
  ghost predicate Idle(t: Table, size: nat, own: nat) {
    forall v | v in t :: Usable(t[v], size, own) && Reset(t[v])
  }

  ghost predicate QueueCounted(t0: Table, t: Table, edges: seq<Edge>, size: nat, own: nat, i: nat, v: nat)
    requires size > 0 && i <= |edges| && v in t0 && v in t
  {
    && Usable(t[v], size, own) && Stream(t[v]) == Stream(t0[v])
    && Counted(t[v], Least(Asked(edges, size, own, v, i), |Stream(t0[v])|))
  }

  /** The table after the first i edges have been counted. */
  ghost predicate TableCounted(t0: Table, t: Table, edges: seq<Edge>, size: nat, own: nat, i: nat)
    requires size > 0 && i <= |edges|
  {
    && t.Keys == t0.Keys
    && forall v | v in t0 :: QueueCounted(t0, t, edges, size, own, i, v)
  }

  ghost predicate QueueSending(t0: Table, t: Table, edges: seq<Edge>, size: nat, own: nat, i: nat, v: nat)
    requires size > 0 && i <= |edges| && v in t0
  {
    var total, sent := |Stream(t0[v])|, Asked(edges, size, own, v, i);
    && (v in t <==> sent < total)
    && (v in t ==>
          && Usable(t[v], size, own) && Stream(t[v]) == Stream(t0[v])[sent..]
          && sent <= Asked(edges, size, own, v, |edges|)
          && Sending(t[v], Least(Asked(edges, size, own, v, |edges|), total) - sent))
  }

  /** The table after all edges have been counted and the first i of them placed. */
  ghost predicate TableSending(t0: Table, t: Table, edges: seq<Edge>, size: nat, own: nat, i: nat)
    requires size > 0 && i <= |edges|
  {
    && t.Keys <= t0.Keys
    && forall v | v in t0 :: QueueSending(t0, t, edges, size, own, i, v)
  }

  lemma {:induction false} AskedGrows(edges: seq<Edge>, size: nat, own: nat, v: nat, i: nat, j: nat)
    requires size > 0 && i <= j <= |edges|
    ensures Asked(edges, size, own, v, i) <= Asked(edges, size, own, v, j)
    decreases j
  {
    if i < j {
      AskedGrows(edges, size, own, v, i, j - 1);
    }
  }

  lemma {:induction false} UsableStream(q: seq<Info>, size: nat, own: nat)
    requires Usable(q, size, own)
    ensures |Stream(q)| > 0 && q != [] && q[0].count > 0
  {
    assert Stream(q) == Repeat(q[0].rank, q[0].count) + Stream(q[1..]);
  }

  lemma {:induction false} EmptyStream()
    ensures Stream([]) == []
  {
  }

  lemma {:induction false} CountKeepsUsable(q: seq<Info>, size: nat, own: nat)
    requires Usable(q, size, own)
    ensures Usable(CountNext(q, own).1, size, own)
  {
  }

  lemma {:induction false} StartCounting(t: Table, edges: seq<Edge>, size: nat, own: nat)
    requires size > 0 && Idle(t, size, own)
    ensures TableCounted(t, t, edges, size, own, 0)
  {
    forall v | v in t
      ensures QueueCounted(t, t, edges, size, own, 0, v)
    {
      ResetIsZero(t[v]);
    }
  }

  lemma {:induction false} CountQueue(t0: Table, t: Table, edges: seq<Edge>, size: nat, own: nat, i: nat, v: nat)
    requires size > 0 && i < |edges| && v in t0 && v in t
    requires QueueCounted(t0, t, edges, size, own, i, v)
    requires Chosen(edges[i], size, own, v)
    ensures var (rank, q) := CountNext(t[v], own);
      && rank == Destination(t0, edges, size, own, i)
      && QueueCounted(t0, t[v := q], edges, size, own, i + 1, v)
  {
    hide CountNext, Stream, Counted, Usable;
    var k, total := Asked(edges, size, own, v, i), |Stream(t0[v])|;
    CountStream(t[v], Least(k, total), own);
    CountKeepsUsable(t[v], size, own);
    assert Asked(edges, size, own, v, i + 1) == k + 1;
  }

  /** One call of the counting pass answers with the destination and counts one edge more. */
  lemma {:induction false} CountCall(t0: Table, t: Table, edges: seq<Edge>, size: nat, own: nat, i: nat)
    requires size > 0 && i < |edges| && TableCounted(t0, t, edges, size, own, i)
    ensures var (dest, t') := Call(t, size, own, edges[i], true);
      && dest == Destination(t0, edges, size, own, i)
      && TableCounted(t0, t', edges, size, own, i + 1)
  {
    hide CountNext, Stream, Counted, Usable;
    var e := edges[i];
    var (dest, t') := Call(t, size, own, e, true);
    if e.target % size == own && e.source in t {
      CountQueue(t0, t, edges, size, own, i, e.source);
    }
    forall v | v in t0
      ensures QueueCounted(t0, t', edges, size, own, i + 1, v)
    {
      assert QueueCounted(t0, t, edges, size, own, i, v);
      if !Chosen(e, size, own, v) {
        assert t'[v] == t[v];
      }
    }
  }

  lemma {:induction false} StartSending(t0: Table, t: Table, edges: seq<Edge>, size: nat, own: nat)
    requires size > 0 && Idle(t0, size, own) && TableCounted(t0, t, edges, size, own, |edges|)
    ensures TableSending(t0, t, edges, size, own, 0)
  {
    hide Stream, Counted, Sending, Usable;
    forall v | v in t0
      ensures QueueSending(t0, t, edges, size, own, 0, v)
    {
      assert QueueCounted(t0, t, edges, size, own, |edges|, v);
      UsableStream(t0[v], size, own);
      assert Stream(t0[v])[0..] == Stream(t0[v]);
      CountedSending(t[v], Least(Asked(edges, size, own, v, |edges|), |Stream(t0[v])|));
    }
  }

  lemma {:induction false} SendQueue(t0: Table, t: Table, edges: seq<Edge>, size: nat, own: nat, i: nat, v: nat)
    requires size > 0 && i < |edges| && v in t0 && v in t
    requires QueueSending(t0, t, edges, size, own, i, v)
    requires Chosen(edges[i], size, own, v)
    ensures var (rank, q) := SendNext(t[v]);
      && rank == Destination(t0, edges, size, own, i)
      && QueueSending(t0, if q == [] then t - {v} else t[v := q], edges, size, own, i + 1, v)
  {
    hide SendNext, Stream, Sending, Usable;
    var k, total, asked := Asked(edges, size, own, v, i), |Stream(t0[v])|, Asked(edges, size, own, v, |edges|);
    assert Asked(edges, size, own, v, i + 1) == k + 1;
    AskedGrows(edges, size, own, v, i + 1, |edges|);
    UsableStream(t[v], size, own);
    var (rank, q) := SendNext(t[v]);
    SendStream(t[v], Least(asked, total) - k, size, own);
    assert Stream(t[v])[0] == Stream(t0[v])[k];
    assert Stream(t0[v])[k..][1..] == Stream(t0[v])[k + 1..];
    if q == [] {
      EmptyStream();
    } else {
      UsableStream(q, size, own);
    }
  }

  /** One call of the sending pass gives the same destination again. */
  lemma {:induction false} SendCall(t0: Table, t: Table, edges: seq<Edge>, size: nat, own: nat, i: nat)
    requires size > 0 && i < |edges| && TableSending(t0, t, edges, size, own, i)
    requires edges[i].target % size == own && edges[i].source in t ==> Usable(t[edges[i].source], size, own)
    ensures var (dest, t') := Call(t, size, own, edges[i], false);
      && dest == Destination(t0, edges, size, own, i)
      && TableSending(t0, t', edges, size, own, i + 1)
  {
    hide SendNext, Stream, Sending, Usable;
    var e := edges[i];
    if e.target % size == own && e.source in t {
      UsableStream(t[e.source], size, own);
    }
    var (dest, t') := Call(t, size, own, e, false);
    if e.source in t0 {
      assert QueueSending(t0, t, edges, size, own, i, e.source);
    }
    if e.target % size == own && e.source in t {
      SendQueue(t0, t, edges, size, own, i, e.source);
    }
    forall v | v in t0
      ensures QueueSending(t0, t', edges, size, own, i + 1, v)
    {
      assert QueueSending(t0, t, edges, size, own, i, v);
      assert Asked(edges, size, own, v, i + 1) == Asked(edges, size, own, v, i) + if Chosen(e, size, own, v) then 1 else 0;
    }
  }

  /** Both passes done: no edge is counted any more, and the table is ready for the next batch. */
  lemma {:induction false} EndSending(t0: Table, t: Table, edges: seq<Edge>, size: nat, own: nat)
    requires size > 0 && TableSending(t0, t, edges, size, own, |edges|)
    ensures Idle(t, size, own)
  {
    hide Stream, Sending, Usable;
    forall v | v in t
      ensures Usable(t[v], size, own) && Reset(t[v])
    {
      assert QueueSending(t0, t, edges, size, own, |edges|, v);
      ZeroIsReset(t[v]);
    }
  }

  lemma {:induction false} StreamRanks(q: seq<Info>, size: nat, own: nat)
    requires Usable(q, size, own)
    ensures forall k | 0 <= k < |Stream(q)| :: Stream(q)[k] < size && Stream(q)[k] != own
  {
    if |q| > 1 {
      StreamRanks(q[1..], size, own);
    } else {
      assert q[1..] == [];
    }
  }

  lemma {:induction false} DestinationIsRank(t: Table, edges: seq<Edge>, size: nat, own: nat, i: nat)
    requires own < size && i < |edges| && Idle(t, size, own)
    ensures Destination(t, edges, size, own, i) < size
  {
    var v := edges[i].source;
    if v in t {
      StreamRanks(t[v], size, own);
    }
  }

  /** The destinations of a whole batch. */
  function Destinations(t: Table, edges: seq<Edge>, size: nat, own: nat): (d: seq<nat>)
    requires size > 0
    ensures |d| == |edges| && forall i | 0 <= i < |d| :: d[i] == Destination(t, edges, size, own, i)
  {
    seq(|edges|, i requires 0 <= i < |edges| => Destination(t, edges, size, own, i))
  }
}
