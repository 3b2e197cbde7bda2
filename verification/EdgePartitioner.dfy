/**
 The partitioner of high-degree edges. It is asked about every edge twice, first to count and
 then to send, and keeps per delegate a queue of ranks that take over some of its edges; both
 passes have to give the same answers.
 */
module EdgePartitioner {
  datatype Edge = Edge(source: nat, target: nat)

  /** A rank that takes `count` edges; `temp` of them have been counted. */
  datatype Info = Info(rank: nat, count: nat, temp: nat)

  type Table = map<nat, seq<Info>>

  // One queue as the stream of ranks it stands for

  function Repeat(x: nat, n: nat): (s: seq<nat>)
    ensures |s| == n && forall i | 0 <= i < n :: s[i] == x
  {
    seq(n, _ => x)
  }

  function Stream(q: seq<Info>): seq<nat> {
    if q == [] then [] else Repeat(q[0].rank, q[0].count) + Stream(q[1..])
  }

  /** The first r entries of the stream have been counted. */
  predicate Counted(q: seq<Info>, r: nat) {
    if q == [] then r == 0
    else
      var used := if r < q[0].count then r else q[0].count;
      q[0].temp == used && Counted(q[1..], r - used)
  }

  /** The same while sending: the count of a front from which something was sent has been reset. */
  predicate Sending(q: seq<Info>, r: nat) {
    if q == [] then r == 0
    else
      var used := if r < q[0].count then r else q[0].count;
      (q[0].temp == used || q[0].temp == 0) && Counted(q[1..], r - used)
  }

  /** What a queue has to be: not empty, every entry a positive count for another rank. */
  predicate Usable(q: seq<Info>, size: nat, own: nat) {
    q != [] && forall i | 0 <= i < |q| :: q[i].count > 0 && q[i].rank < size && q[i].rank != own
  }

  function FirstOpen(q: seq<Info>, j: nat): (k: nat)
    requires j <= |q|
    ensures j <= k <= |q| && (forall i | j <= i < k :: q[i].temp >= q[i].count)
    ensures k < |q| ==> q[k].temp < q[k].count
    decreases |q| - j
  {
    if j == |q| || q[j].temp < q[j].count then j else FirstOpen(q, j + 1)
  }

  /** Counting: the first entry not used up takes the edge; the rank itself when there is none. */
  function CountNext(q: seq<Info>, own: nat): (nat, seq<Info>) {
    var k := FirstOpen(q, 0);
    if k < |q| then (q[k].rank, q[k := q[k].(temp := q[k].temp + 1)]) else (own, q)
  }

  /** Sending: the front takes the edge and leaves when it has taken all of its edges. */
  function SendNext(q: seq<Info>): (nat, seq<Info>)
    requires q != [] && q[0].count > 0
  {
    var front := q[0].(count := q[0].count - 1);
    (front.rank, if front.count == 0 then q[1..] else q[0 := front.(temp := 0)])
  }

  lemma {:induction false} FirstOpenTail(q: seq<Info>, j: nat)
    requires 1 <= j <= |q|
    ensures FirstOpen(q, j) == FirstOpen(q[1..], j - 1) + 1
    decreases |q| - j
  {
    if j < |q| && q[j].temp >= q[j].count {
      FirstOpenTail(q, j + 1);
    }
  }

  /** A used-up front changes nothing: the next entry is found behind it. */
  lemma {:induction false} CountBehind(q: seq<Info>, own: nat)
    requires q != [] && q[0].temp >= q[0].count
    ensures CountNext(q, own) == (CountNext(q[1..], own).0, [q[0]] + CountNext(q[1..], own).1)
  {
    FirstOpenTail(q, 1);
    var k, rest := FirstOpen(q, 1), q[1..];
    assert FirstOpen(q, 0) == k && FirstOpen(rest, 0) == k - 1;
    assert q == [q[0]] + rest;
    if k < |q| {
      assert q[k := q[k].(temp := q[k].temp + 1)] == [q[0]] + rest[k - 1 := q[k].(temp := q[k].temp + 1)];
    }
  }

  lemma {:induction false} CountFront(q: seq<Info>, own: nat)
    requires q != [] && q[0].temp < q[0].count
    ensures CountNext(q, own) == (q[0].rank, [q[0].(temp := q[0].temp + 1)] + q[1..])
  {
    assert FirstOpen(q, 0) == 0;
    assert q[0 := q[0].(temp := q[0].temp + 1)] == [q[0].(temp := q[0].temp + 1)] + q[1..];
  }

  lemma {:induction false} StreamCons(x: Info, q: seq<Info>)
    ensures Stream([x] + q) == Repeat(x.rank, x.count) + Stream(q)
  {
    assert ([x] + q)[1..] == q;
  }

  lemma {:induction false} CountedCons(x: Info, q: seq<Info>, r: nat)
    ensures var used := if r < x.count then r else x.count;
      Counted([x] + q, r) <==> x.temp == used && Counted(q, r - used)
  {
    assert ([x] + q)[1..] == q;
  }

  /** Counting hands out the stream in order, and the rank itself after that. */
  ghost predicate CountsOn(q: seq<Info>, r: nat, own: nat) {
    var (rank, q') := CountNext(q, own);
    && Stream(q') == Stream(q)
    && if r < |Stream(q)| then rank == Stream(q)[r] && Counted(q', r + 1) else rank == own && Counted(q', r)
  }

  lemma {:induction false} CountStreamFront(x: Info, q: seq<Info>, r: nat, own: nat)
    requires Counted([x] + q, r) && x.temp < x.count
    ensures CountsOn([x] + q, r, own)
  {
    hide CountNext, Stream, Counted;
    var x' := x.(temp := x.temp + 1);
    assert ([x] + q)[0] == x && ([x] + q)[1..] == q;
    CountFront([x] + q, own);
    StreamCons(x, q);
    StreamCons(x', q);
    CountedCons(x, q, r);
    CountedCons(x', q, r + 1);
  }

  lemma {:induction false} CountStreamBehind(x: Info, q: seq<Info>, r: nat, own: nat)
    requires Counted([x] + q, r) && x.temp >= x.count && r >= x.count && CountsOn(q, r - x.count, own)
    ensures CountsOn([x] + q, r, own)
  {
    hide CountNext, Stream, Counted;
    var q' := CountNext(q, own).1;
    assert ([x] + q)[0] == x && ([x] + q)[1..] == q;
    CountBehind([x] + q, own);
    StreamCons(x, q);
    StreamCons(x, q');
    CountedCons(x, q, r);
    CountedCons(x, q', r);
    CountedCons(x, q', r + 1);
  }

  lemma {:induction false} CountStream(q: seq<Info>, r: nat, own: nat)
    requires Counted(q, r)
    ensures CountsOn(q, r, own)
  {
    if q != [] {
      assert q == [q[0]] + q[1..];
      if q[0].temp < q[0].count {
        CountStreamFront(q[0], q[1..], r, own);
      } else {
        CountStream(q[1..], r - q[0].count, own);
        CountStreamBehind(q[0], q[1..], r, own);
      }
    }
  }

  /** Sending hands out the same stream, and undoes the counting. */
  lemma {:induction false} SendStream(q: seq<Info>, r: nat, size: nat, own: nat)
    requires Usable(q, size, own) && Sending(q, r) && r > 0
    ensures var (rank, q') := SendNext(q);
      && rank == Stream(q)[0] && Stream(q') == Stream(q)[1..]
      && Sending(q', r - 1) && (q' != [] ==> Usable(q', size, own))
  {
    var (rank, q') := SendNext(q);
    assert Stream(q) == Repeat(q[0].rank, q[0].count) + Stream(q[1..]);
    if q[0].count == 1 {
      CountedSending(q[1..], r - 1);
    } else {
      assert q'[1..] == q[1..];
      assert Repeat(q[0].rank, q[0].count)[1..] == Repeat(q[0].rank, q[0].count - 1);
    }
  }

  lemma {:induction false} CountedSending(q: seq<Info>, r: nat)
    requires Counted(q, r)
    ensures Sending(q, r)
  {
  }

  predicate Reset(q: seq<Info>) { forall i | 0 <= i < |q| :: q[i].temp == 0 }

  lemma {:induction false} ZeroIsReset(q: seq<Info>)
    ensures Counted(q, 0) ==> Reset(q)
    ensures Sending(q, 0) ==> Reset(q)
  {
    if q != [] {
      ZeroIsReset(q[1..]);
      assert forall i | 1 <= i < |q| :: q[i] == q[1..][i - 1];
    }
  }

  lemma {:induction false} ResetIsZero(q: seq<Info>)
    requires Reset(q)
    ensures Counted(q, 0)
  {
    if q != [] {
      assert forall i | 0 <= i < |q[1..]| :: q[1..][i] == q[i + 1];
      ResetIsZero(q[1..]);
    }
  }

  // The partitioner

  /** One call: the answer and the table it leaves. */
  function Call(t: Table, size: nat, own: nat, e: Edge, counting: bool): (nat, Table)
    requires size > 0
    requires !counting && e.target % size == own && e.source in t ==> Usable(t[e.source], size, own)
  {
    var dest := e.target % size;
    if dest != own || e.source !in t then (dest, t)
    else if counting then
      var (rank, q) := CountNext(t[e.source], own);
      (rank, t[e.source := q])
    else
      var (rank, q) := SendNext(t[e.source]);
      (rank, if q == [] then t - {e.source} else t[e.source := q])
  }

  class Partitioner {
    const size: nat
    const own: nat
    var transfer: Table

    constructor (size: nat, own: nat, transfer: Table)
      ensures this.size == size && this.own == own && this.transfer == transfer
    {
      this.size, this.own, this.transfer := size, own, transfer;
    }

    method Owner(e: Edge, counting: bool) returns (dest: nat)
      requires size > 0
      requires !counting && e.target % size == own && e.source in transfer ==> Usable(transfer[e.source], size, own)
      modifies this`transfer
      ensures (dest, transfer) == Call(old(transfer), size, own, e, counting)
    {
      dest := e.target % size;
      if dest == own {
        if e.source !in transfer {
          return own;
        }
        var q := transfer[e.source];
        if counting {
          var j := 0;
          while j < |q|
            invariant 0 <= j <= |q| && FirstOpen(q, 0) == FirstOpen(q, j)
          {
            if q[j].temp < q[j].count {
              transfer := transfer[e.source := q[j := q[j].(temp := q[j].temp + 1)]];
              return q[j].rank;
            }
            j := j + 1;
          }
          transfer := transfer[e.source := q];
          return own;
        } else {
          dest := q[0].rank;
          q := q[0 := q[0].(count := q[0].count - 1)];
          if q[0].count == 0 {
            assert q[1..] == transfer[e.source][1..];
            q := q[1..];
            transfer := if q == [] then transfer - {e.source} else transfer[e.source := q];
          } else {
            q := q[0 := q[0].(temp := 0)];
            assert q == transfer[e.source][0 := q[0]];
            transfer := transfer[e.source := q];
          }
        }
      }
      assert !counting || e.target % size != own ==> dest != own;
    }
  }
}
