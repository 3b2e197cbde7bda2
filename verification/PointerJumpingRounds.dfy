/**
 The rounds of pointer jumping on all ranks. Edges are dealt to the ranks in turn; a rank collects
 its pointers by owner, the owners look them up, and the answers replace the pointers.
 */
module PointerJumpingRounds {
  import opened Arithmetic
  import opened ExchangeVectors
  import opened PointerJumping

  // All ranks as one sequence

  ghost predicate Even(all: seq<seq<nat>>, m: nat) { |all| > 0 && forall p | 0 <= p < |all| :: |all[p]| == m }

  /** Edge e is held by rank e modulo the number of ranks. */
  ghost function Flat(all: seq<seq<nat>>, m: nat): (v: seq<nat>)
    requires Even(all, m)
    ensures |v| == |all| * m
  {
    seq(|all| * m, e requires 0 <= e < |all| * m => (Dealt(e, |all|, m); all[e % |all|][e / |all|]))
  }

  lemma {:induction false} FlatAt(all: seq<seq<nat>>, m: nat, p: nat, i: nat)
    requires Even(all, m) && p < |all| && i < m
    ensures p + i * |all| < |all| * m && Flat(all, m)[p + i * |all|] == all[p][i]
  {
    DealtBack(p, i, |all|, m);
  }

  // One rank

  /** The requests of one rank: what it asks, cut by owner, and the edges that wait for the answers. */
  ghost predicate Requests(local: seq<nat>, size: nat, toSend: seq<nat>, marks: seq<nat>, counts: seq<nat>) {
    && |toSend| == |marks| && |counts| == size && Cuts(counts, |toSend|)
    && (forall i | 0 <= i < |marks| ::
          marks[i] < |local| && IsPointer(local[marks[i]]) && toSend[i] == ValueOfPointer(local[marks[i]]))
    && (forall k | 0 <= k < |local| && IsPointer(local[k]) :: k in marks)
    && (forall q, i | 0 <= q < size && Start(counts, q) <= i < Start(counts, q) + counts[q] && i < |toSend| ::
          toSend[i] % size == q)
  }

  /** The same while the pointers are still in one bucket for every owner. */
  ghost predicate Bucketed(local: seq<nat>, size: nat, send: seq<seq<nat>>, mark: seq<seq<nat>>, n: nat)
    requires n <= |local| && size > 0
  {
    && |send| == |mark| == size
    && (forall q | 0 <= q < size :: BucketFor(local, size, send[q], mark[q], q, n))
    && (forall k | 0 <= k < n && IsPointer(local[k]) :: k in mark[ValueOfPointer(local[k]) % size])
  }

  ghost predicate BucketFor(local: seq<nat>, size: nat, send: seq<nat>, mark: seq<nat>, q: nat, n: nat)
    requires n <= |local| && size > 0
  {
    && |send| == |mark|
    && forall j | 0 <= j < |mark| ::
         && mark[j] < n && IsPointer(local[mark[j]])
         && send[j] == ValueOfPointer(local[mark[j]]) && send[j] % size == q
  }

  method FillBuckets(local: array<nat>, size: nat) returns (sends: seq<seq<nat>>, waiting: seq<seq<nat>>)
    requires size > 0
    ensures Bucketed(local[..], size, sends, waiting, local.Length)
  {
    var send: array<seq<nat>> := new seq<nat>[size](_ => []);
    var mark: array<seq<nat>> := new seq<nat>[size](_ => []);
    var i := 0;
    while i < local.Length
      invariant 0 <= i <= local.Length && send.Length == mark.Length == size
      invariant Bucketed(local[..], size, send[..], mark[..], i)
    {
      if IsPointer(local[i]) {
        var owner := ValueOfPointer(local[i]) % size;
        ghost var send0, mark0 := send[..], mark[..];
        mark[owner] := mark[owner] + [i];
        send[owner] := send[owner] + [ValueOfPointer(local[i])];
        BucketAdds(local[..], size, send0, mark0, i);
        assert send[..] == send0[owner := send[owner]] && mark[..] == mark0[owner := mark[owner]];
      }
      i := i + 1;
    }
    sends, waiting := send[..], mark[..];
  }

  lemma {:induction false} BucketAdds(local: seq<nat>, size: nat, send: seq<seq<nat>>, mark: seq<seq<nat>>, i: nat)
    requires size > 0 && i < |local| && IsPointer(local[i]) && Bucketed(local, size, send, mark, i)
    ensures var x := ValueOfPointer(local[i]);
      Bucketed(local, size, send[x % size := send[x % size] + [x]], mark[x % size := mark[x % size] + [i]], i + 1)
  {
    var x := ValueOfPointer(local[i]);
    var owner := x % size;
    var send', mark' := send[owner := send[owner] + [x]], mark[owner := mark[owner] + [i]];
    forall q | 0 <= q < size
      ensures BucketFor(local, size, send'[q], mark'[q], q, i + 1)
    {
      assert BucketFor(local, size, send[q], mark[q], q, i);
    }
    forall k | 0 <= k < i + 1 && IsPointer(local[k])
      ensures k in mark'[ValueOfPointer(local[k]) % size]
    {
      if k < i {
        var o := ValueOfPointer(local[k]) % size;
        assert k in mark[o] && forall y | y in mark[o] :: y in mark'[o];
      } else {
        assert mark'[owner][|mark[owner]|] == i;
      }
    }
  }

  function Joined(buckets: seq<seq<nat>>, n: nat): seq<nat>
    requires n <= |buckets|
  {
    if n == 0 then [] else Joined(buckets, n - 1) + buckets[n - 1]
  }

  function Sizes(buckets: seq<seq<nat>>): (c: seq<nat>)
    ensures |c| == |buckets| && forall q | 0 <= q < |c| :: c[q] == |buckets[q]|
  {
    seq(|buckets|, q requires 0 <= q < |buckets| => |buckets[q]|)
  }

  lemma {:induction false} JoinedLength(buckets: seq<seq<nat>>, n: nat)
    requires n <= |buckets|
    ensures |Joined(buckets, n)| == Start(Sizes(buckets), n)
  {
    if n > 0 {
      JoinedLength(buckets, n - 1);
    }
  }

  /** Position j of bucket q comes behind all smaller buckets. */
  lemma {:induction false} JoinedAt(buckets: seq<seq<nat>>, n: nat, q: nat, j: nat)
    requires q < n <= |buckets| && j < |buckets[q]|
    ensures Start(Sizes(buckets), q) + j < |Joined(buckets, n)|
    ensures Joined(buckets, n)[Start(Sizes(buckets), q) + j] == buckets[q][j]
  {
    JoinedLength(buckets, n - 1);
    if q < n - 1 {
      JoinedAt(buckets, n - 1, q, j);
    }
  }

  lemma {:induction false} JoinedRequests(local: seq<nat>, size: nat, send: seq<seq<nat>>, mark: seq<seq<nat>>)
    requires size > 0 && Bucketed(local, size, send, mark, |local|)
    ensures Requests(local, size, Joined(send, size), Joined(mark, size), Sizes(send))
  {
    hide Joined, Start, BucketFor;
    var toSend, marks, counts := Joined(send, size), Joined(mark, size), Sizes(send);
    forall q | 0 <= q < size
      ensures |send[q]| == |mark[q]|
    {
      BucketParts(local, size, send[q], mark[q], q);
    }
    assert Sizes(mark) == counts;
    JoinedLength(send, size);
    JoinedLength(mark, size);
    forall i | 0 <= i < |marks|
      ensures marks[i] < |local| && IsPointer(local[marks[i]]) && toSend[i] == ValueOfPointer(local[marks[i]])
    {
      var q := SegmentAt(counts, i, size);
      var j := i - Start(counts, q);
      JoinedAt(send, size, q, j);
      JoinedAt(mark, size, q, j);
      BucketParts(local, size, send[q], mark[q], q);
    }
    forall k | 0 <= k < |local| && IsPointer(local[k])
      ensures k in marks
    {
      var q := ValueOfPointer(local[k]) % size;
      var j :| 0 <= j < |mark[q]| && mark[q][j] == k;
      JoinedAt(mark, size, q, j);
    }
    forall q, i | 0 <= q < size && Start(counts, q) <= i < Start(counts, q) + counts[q] && i < |toSend|
      ensures toSend[i] % size == q
    {
      JoinedAt(send, size, q, i - Start(counts, q));
      BucketParts(local, size, send[q], mark[q], q);
    }
  }

  lemma {:induction false} BucketParts(local: seq<nat>, size: nat, send: seq<nat>, mark: seq<nat>, q: nat)
    requires size > 0 && BucketFor(local, size, send, mark, q, |local|)
    ensures |send| == |mark|
    ensures forall j | 0 <= j < |mark| ::
      && mark[j] < |local| && IsPointer(local[mark[j]])
      && send[j] == ValueOfPointer(local[mark[j]]) && send[j] % size == q
  {
  }

  /** Collect the pointers of one rank by owner. */
  method Collect(local: array<nat>, size: nat) returns (toSend: seq<nat>, marks: seq<nat>, counts: seq<nat>)
    requires size > 0
    ensures Requests(local[..], size, toSend, marks, counts)
  {
    hide *;
    var send, mark := FillBuckets(local, size);
    BucketsEven(local[..], size, send, mark, local.Length);
    toSend, marks, counts := [], [], [];
    var i := 0;
    while i < size
      invariant 0 <= i <= size && |counts| == i && forall q | 0 <= q < i :: counts[q] == |send[q]|
      invariant toSend == Joined(send, i) && marks == Joined(mark, i)
    {
      var j := 0;
      while j < |send[i]|
        invariant 0 <= j <= |send[i]|
        invariant toSend == Joined(send, i) + send[i][..j] && marks == Joined(mark, i) + mark[i][..j]
      {
        toSend := toSend + [send[i][j]];
        marks := marks + [mark[i][j]];
        j := j + 1;
      }
      counts := counts + [|send[i]|];
      JoinedStep(send, i);
      JoinedStep(mark, i);
      i := i + 1;
    }
    assert counts == Sizes(send);
    JoinedRequests(local[..], size, send, mark);
  }

  lemma {:induction false} JoinedStep(buckets: seq<seq<nat>>, n: nat)
    requires n < |buckets|
    ensures Joined(buckets, n + 1) == Joined(buckets, n) + buckets[n][..|buckets[n]|]
  {
  }

  lemma {:induction false} BucketsEven(local: seq<nat>, size: nat, send: seq<seq<nat>>, mark: seq<seq<nat>>, n: nat)
    requires size > 0 && n <= |local| && Bucketed(local, size, send, mark, n)
    ensures |send| == |mark| == size && forall q | 0 <= q < size :: |send[q]| == |mark[q]|
    ensures Joined(send, 0) == [] && Joined(mark, 0) == []
  {
    forall q | 0 <= q < size
      ensures |send[q]| == |mark[q]|
    {
      assert BucketFor(local, size, send[q], mark[q], q, n);
    }
  }

  /** Look up the pointers that arrived at one rank. */
  method LookUp(local: array<nat>, size: nat, toRecv: seq<nat>) returns (replies: seq<nat>)
    requires size > 0 && forall i | 0 <= i < |toRecv| :: toRecv[i] / size < local.Length
    ensures |replies| == |toRecv| && forall i | 0 <= i < |toRecv| :: replies[i] == local[toRecv[i] / size]
  {
    replies := toRecv;
    var i := 0;
    while i < |replies|
      invariant 0 <= i <= |replies| == |toRecv|
      invariant forall j | 0 <= j < i :: replies[j] == local[toRecv[j] / size]
      invariant forall j | i <= j < |toRecv| :: replies[j] == toRecv[j]
    {
      var localIndex := replies[i] / size;
      replies := replies[i := local[localIndex]];
      i := i + 1;
    }
  }

  /** Put the answers where the pointers were. */
  method Store(local: array<nat>, marks: seq<nat>, replies: seq<nat>, ghost want: seq<nat>)
    requires |want| == local.Length && |replies| == |marks|
    requires forall i | 0 <= i < |marks| :: marks[i] < local.Length && replies[i] == want[marks[i]]
    requires forall k | 0 <= k < local.Length :: k in marks || local[k] == want[k]
    modifies local
    ensures local[..] == want
  {
    var i := 0;
    while i < |replies|
      invariant 0 <= i <= |replies|
      invariant forall k | 0 <= k < local.Length :: k in marks[i..] || local[k] == want[k]
    {
      assert forall k | k in marks[i..] :: k == marks[i] || k in marks[i + 1..];
      local[marks[i]] := replies[i];
      i := i + 1;
    }
  }

  method CountMissing(local: array<nat>) returns (n: nat)
    ensures n == Missing(local[..])
  {
    n := 0;
    var i := local.Length;
    while i > 0
      invariant 0 <= i <= local.Length && n == Missing(local[i..])
    {
      i := i - 1;
      assert local[i..] == [local[i]] + local[i + 1..];
      if IsPointer(local[i]) {
        n := n + 1;
      }
    }
    assert local[0..] == local[..];
  }

  // All ranks

  ghost function Contents(locals: seq<array<nat>>): (all: seq<seq<nat>>)
    reads locals
    ensures |all| == |locals| && forall p | 0 <= p < |all| :: all[p] == locals[p][..]
  {
    seq(|locals|, p requires 0 <= p < |locals| reads locals => locals[p][..])
  }

  ghost predicate Separate(locals: seq<array<nat>>) {
    forall p, q | 0 <= p < q < |locals| :: locals[p] != locals[q]
  }

  /** What edge x / size of rank q holds, as an answer to pointer x. */
  ghost function Answer(all: seq<seq<nat>>): (nat, nat) -> nat {
    (q: nat, x: nat) => if q < |all| && x / |all| < |all[q]| then all[q][x / |all|] else 0
  }

  /** What every rank holds after the round. */
  ghost function Wanted(all: seq<seq<nat>>, m: nat): (w: seq<seq<nat>>)
    requires Even(all, m) && PointsDown(Flat(all, m))
    ensures Even(w, m) && |w| == |all|
  {
    seq(|all|, p requires 0 <= p < |all| =>
      seq(m, i requires 0 <= i < m => (FlatAt(all, m, p, i); Jumped(Flat(all, m))[p + i * |all|])))
  }

  lemma {:induction false} WantedFlat(all: seq<seq<nat>>, m: nat)
    requires Even(all, m) && PointsDown(Flat(all, m))
    ensures Flat(Wanted(all, m), m) == Jumped(Flat(all, m))
  {
    forall e | 0 <= e < |all| * m
      ensures Flat(Wanted(all, m), m)[e] == Jumped(Flat(all, m))[e]
    {
      Dealt(e, |all|, m);
    }
  }

  ghost predicate AllRequests(all: seq<seq<nat>>, sent: seq<seq<nat>>, marks: seq<seq<nat>>, counts: seq<seq<nat>>) {
    && |sent| == |marks| == |counts| == |all|
    && forall p | 0 <= p < |all| :: Requests(all[p], |all|, sent[p], marks[p], counts[p])
  }

  lemma {:induction false} FlatLookUp(all: seq<seq<nat>>, m: nat, x: nat)
    requires Even(all, m) && x < |all| * m
    ensures x / |all| < m && Answer(all)(x % |all|, x) == Flat(all, m)[x]
  {
    Dealt(x, |all|, m);
  }

  lemma {:induction false} WantedAt(all: seq<seq<nat>>, m: nat, p: nat, k: nat)
    requires Even(all, m) && PointsDown(Flat(all, m)) && p < |all| && k < m
    ensures var x := ValueOfPointer(all[p][k]);
      if IsPointer(all[p][k]) then x < |all| * m && Wanted(all, m)[p][k] == Flat(all, m)[x]
      else Wanted(all, m)[p][k] == all[p][k]
  {
    hide Flat, Jumped, PointsDown;
    FlatAt(all, m, p, k);
    var e := p + k * |all|;
    JumpedAt(Flat(all, m), e);
    assert Wanted(all, m)[p][k] == Jumped(Flat(all, m))[e];
  }

  /** A request stands for an edge of its rank and asks for an edge of all ranks. */
  lemma {:induction false} RequestMeans(all: seq<seq<nat>>, m: nat, sent: seq<seq<nat>>, marks: seq<seq<nat>>,
                                        counts: seq<seq<nat>>, p: nat, i: nat)
    requires Even(all, m) && PointsDown(Flat(all, m)) && AllRequests(all, sent, marks, counts)
    requires p < |all| && i < |sent[p]|
    ensures |marks[p]| == |sent[p]| && marks[p][i] < m
    ensures sent[p][i] < |all| * m && Wanted(all, m)[p][marks[p][i]] == Flat(all, m)[sent[p][i]]
  {
    hide Start, Cuts, Flat, Wanted, PointsDown;
    assert Requests(all[p], |all|, sent[p], marks[p], counts[p]);
    WantedAt(all, m, p, marks[p][i]);
  }

  lemma {:induction false} RequestsReady(all: seq<seq<nat>>, sent: seq<seq<nat>>, marks: seq<seq<nat>>, counts: seq<seq<nat>>)
    requires AllRequests(all, sent, marks, counts)
    ensures Ready(sent, counts)
  {
    hide Start, Cuts;
    forall p | 0 <= p < |counts|
      ensures |counts[p]| == |counts| && Cuts(counts[p], |sent[p]|)
    {
      assert Requests(all[p], |all|, sent[p], marks[p], counts[p]);
    }
  }

  method CollectAll(locals: seq<array<nat>>) returns (sent: seq<seq<nat>>, marks: seq<seq<nat>>, counts: seq<seq<nat>>)
    requires |locals| > 0
    ensures AllRequests(Contents(locals), sent, marks, counts)
  {
    hide Requests;
    sent, marks, counts := [], [], [];
    var p := 0;
    while p < |locals|
      invariant 0 <= p <= |locals| && |sent| == |marks| == |counts| == p
      invariant forall r | 0 <= r < p :: Requests(locals[r][..], |locals|, sent[r], marks[r], counts[r])
    {
      var toSend, waiting, cut := Collect(locals[p], |locals|);
      sent, marks, counts := sent + [toSend], marks + [waiting], counts + [cut];
      p := p + 1;
    }
  }

  lemma {:induction false} RequestSizes(all: seq<seq<nat>>, sent: seq<seq<nat>>, marks: seq<seq<nat>>, counts: seq<seq<nat>>)
    requires AllRequests(all, sent, marks, counts)
    ensures |sent| == |marks| == |counts| == |all|
  {
  }

  /** Every pointer that arrives can be looked up. */
  lemma {:induction false} ArrivesInBounds(all: seq<seq<nat>>, m: nat, sent: seq<seq<nat>>, marks: seq<seq<nat>>,
                                           counts: seq<seq<nat>>, q: nat, j: nat)
    requires Even(all, m) && PointsDown(Flat(all, m)) && AllRequests(all, sent, marks, counts)
    requires Ready(sent, counts) && q < |all| && j < |Exchanged(sent, counts)[q]|
    ensures Exchanged(sent, counts)[q][j] / |all| < m
  {
    hide Flat, PointsDown, Wanted, AllRequests, Received, Ready;
    RequestSizes(all, sent, marks, counts);
    var x := Exchanged(sent, counts)[q][j];
    var p := ReceivedWasSent(sent, counts, q, |sent|, x);
    var i :| 0 <= i < |sent[p]| && sent[p][i] == x;
    RequestMeans(all, m, sent, marks, counts, p, i);
    FlatLookUp(all, m, x);
  }

  method LookUpAll(locals: seq<array<nat>>, m: nat, ghost all: seq<seq<nat>>, sent: seq<seq<nat>>,
                   ghost marks: seq<seq<nat>>, counts: seq<seq<nat>>) returns (answers: seq<seq<nat>>)
    requires all == Contents(locals) && Even(all, m) && PointsDown(Flat(all, m))
    requires AllRequests(all, sent, marks, counts) && Ready(sent, counts) && |sent| == |all|
    ensures |answers| == |sent|
    ensures forall q | 0 <= q < |sent| :: Answers(answers[q], Exchanged(sent, counts)[q], Answer(all), q)
  {
    hide AllRequests, Ready, Flat, PointsDown, Received;
    var arrived := Exchanged(sent, counts);
    answers := [];
    var q := 0;
    while q < |locals|
      invariant 0 <= q <= |locals| && |answers| == q
      invariant forall r | 0 <= r < q :: Answers(answers[r], arrived[r], Answer(all), r)
    {
      forall j | 0 <= j < |arrived[q]|
        ensures arrived[q][j] / |all| < m
      {
        ArrivesInBounds(all, m, sent, marks, counts, q, j);
      }
      var replies := LookUp(locals[q], |locals|, arrived[q]);
      assert Answers(replies, arrived[q], Answer(all), q);
      answers := answers + [replies];
      q := q + 1;
    }
  }

  /** The answer that comes back for a request is what the marked edge wants. */
  lemma {:induction false} AnswerFits(all: seq<seq<nat>>, m: nat, sent: seq<seq<nat>>, marks: seq<seq<nat>>,
                                      counts: seq<seq<nat>>, answers: seq<seq<nat>>, p: nat, i: nat)
    requires Even(all, m) && PointsDown(Flat(all, m)) && AllRequests(all, sent, marks, counts)
    requires Ready(sent, counts) && |answers| == |sent| == |all|
    requires forall q | 0 <= q < |sent| :: Answers(answers[q], Exchanged(sent, counts)[q], Answer(all), q)
    requires p < |all| && i < |sent[p]|
    ensures Ready(answers, Transposed(counts))
    ensures |Exchanged(answers, Transposed(counts))[p]| == |sent[p]| == |marks[p]| && marks[p][i] < m
    ensures Exchanged(answers, Transposed(counts))[p][i] == Wanted(all, m)[p][marks[p][i]]
  {
    hide Ready, Flat, PointsDown, Received, Wanted, Answer, Answers, Start, Cuts, Even;
    var q := AnsweredInPlace(sent, counts, answers, Answer(all), p, i);
    RequestMeans(all, m, sent, marks, counts, p, i);
    FlatLookUp(all, m, sent[p][i]);
    RequestOwner(all, sent, marks, counts, p, q, i);
  }

  lemma {:induction false} RequestOwner(all: seq<seq<nat>>, sent: seq<seq<nat>>, marks: seq<seq<nat>>,
                                        counts: seq<seq<nat>>, p: nat, q: nat, i: nat)
    requires AllRequests(all, sent, marks, counts) && p < |all| && i < |sent[p]| && q < |all|
    requires |counts[p]| == |all| && Start(counts[p], q) <= i < Start(counts[p], q) + counts[p][q]
    ensures sent[p][i] % |all| == q
  {
    hide Start, Cuts;
    assert Requests(all[p], |all|, sent[p], marks[p], counts[p]);
  }

  /** The answers may be stored: they fit, and an edge that waits for none keeps what it has. */
  lemma {:induction false} StoreFits(all: seq<seq<nat>>, m: nat, sent: seq<seq<nat>>, marks: seq<seq<nat>>,
                                     counts: seq<seq<nat>>, answers: seq<seq<nat>>, p: nat)
    requires Even(all, m) && PointsDown(Flat(all, m)) && AllRequests(all, sent, marks, counts)
    requires Ready(sent, counts) && |answers| == |sent| == |all| && p < |all|
    requires forall q | 0 <= q < |sent| :: Answers(answers[q], Exchanged(sent, counts)[q], Answer(all), q)
    requires Ready(answers, Transposed(counts))
    ensures var back, want := Exchanged(answers, Transposed(counts))[p], Wanted(all, m)[p];
      && |back| == |marks[p]|
      && (forall i | 0 <= i < |back| :: marks[p][i] < m && back[i] == want[marks[p][i]])
      && (forall k | 0 <= k < m :: k in marks[p] || all[p][k] == want[k])
  {
    hide Ready, Flat, PointsDown, Received, Wanted, Answer, Answers, Start, Cuts;
    assert Requests(all[p], |all|, sent[p], marks[p], counts[p]);
    BackLength(sent, counts, answers, Answer(all), p);
    forall i | 0 <= i < |sent[p]|
      ensures marks[p][i] < m && Exchanged(answers, Transposed(counts))[p][i] == Wanted(all, m)[p][marks[p][i]]
    {
      AnswerFits(all, m, sent, marks, counts, answers, p, i);
    }
    forall k | 0 <= k < m
      ensures k in marks[p] || all[p][k] == Wanted(all, m)[p][k]
    {
      WantedAt(all, m, p, k);
    }
  }

  method StoreAll(locals: seq<array<nat>>, marks: seq<seq<nat>>, back: seq<seq<nat>>,
                  ghost all: seq<seq<nat>>, ghost want: seq<seq<nat>>, ghost m: nat)
    requires Separate(locals) && Contents(locals) == all && Even(all, m)
    requires |want| == |marks| == |back| == |all| && Even(want, m)
    requires forall p | 0 <= p < |all| :: Storable(all[p], marks[p], back[p], want[p], m)
    modifies locals
    ensures Contents(locals) == want
  {
    var p := 0;
    while p < |locals|
      invariant 0 <= p <= |locals|
      invariant forall r | 0 <= r < p :: locals[r][..] == want[r]
      invariant forall r | p <= r < |locals| :: locals[r][..] == all[r]
    {
      assert Storable(locals[p][..], marks[p], back[p], want[p], m);
      Store(locals[p], marks[p], back[p], want[p]);
      p := p + 1;
    }
  }

  ghost predicate Storable(local: seq<nat>, marks: seq<nat>, back: seq<nat>, want: seq<nat>, m: nat) {
    && |back| == |marks| && |local| == |want| == m
    && (forall i | 0 <= i < |back| :: marks[i] < m && back[i] == want[marks[i]])
    && (forall k | 0 <= k < m :: k in marks || local[k] == want[k])
  }

  /** How many pointers are left on the ranks below n. */
  function MissingBelow(all: seq<seq<nat>>, n: nat): nat
    requires n <= |all|
  {
    if n == 0 then 0 else MissingBelow(all, n - 1) + Missing(all[n - 1])
  }

  lemma {:induction false} NoneBelow(all: seq<seq<nat>>, n: nat)
    requires n <= |all|
    ensures MissingBelow(all, n) == 0 <==> forall p | 0 <= p < n :: Missing(all[p]) == 0
  {
    if n > 0 {
      NoneBelow(all, n - 1);
    }
  }

  /** The reduced count is zero exactly when no edge of any rank is a pointer any more. */
  lemma {:induction false} NoneLeft(all: seq<seq<nat>>, m: nat)
    requires Even(all, m) && PointsDown(Flat(all, m))
    ensures MissingBelow(all, |all|) == 0 <==> MaxDepth(Flat(all, m), |all| * m) == 0
  {
    hide PointsDown, MaxDepth, Flat, Missing, MissingBelow;
    var v := Flat(all, m);
    DepthZero(v, |v|);
    NoneBelow(all, |all|);
    forall p | 0 <= p < |all|
      ensures Missing(all[p]) == 0 <==> forall i | 0 <= i < m :: !IsPointer(all[p][i])
    {
      NoneMissing(all[p]);
    }
    if forall e | 0 <= e < |v| :: !IsPointer(v[e]) {
      forall p, i | 0 <= p < |all| && 0 <= i < m
        ensures !IsPointer(all[p][i])
      {
        FlatAt(all, m, p, i);
      }
    } else {
      var e: nat :| e < |v| && IsPointer(v[e]);
      Dealt(e, |all|, m);
      FlatAt(all, m, e % |all|, e / |all|);
    }
  }

  method CountAll(locals: seq<array<nat>>) returns (missing: nat)
    ensures missing == MissingBelow(Contents(locals), |locals|)
  {
    missing := 0;
    var p := 0;
    while p < |locals|
      invariant 0 <= p <= |locals| && missing == MissingBelow(Contents(locals), p)
    {
      var n := CountMissing(locals[p]);
      missing := missing + n;
      p := p + 1;
    }
  }

  /** One round on all ranks: every edge jumps once. */
  method Round(locals: seq<array<nat>>, m: nat) returns (missing: nat)
    requires Separate(locals) && Even(Contents(locals), m) && PointsDown(Flat(Contents(locals), m))
    modifies locals
    ensures Even(Contents(locals), m)
    ensures Flat(Contents(locals), m) == old(Jumped(Flat(Contents(locals), m)))
    ensures missing == MissingBelow(Contents(locals), |locals|)
  {
    hide *;
    ghost var all := Contents(locals);
    EvenParts(all, m);
    var sent, marks, counts := CollectAll(locals);
    RequestSizes(all, sent, marks, counts);
    RequestsReady(all, sent, marks, counts);
    var answers := LookUpAll(locals, m, all, sent, marks, counts);
    BackReady(all, m, sent, counts, answers);
    var back := Exchanged(answers, Transposed(counts));
    EvenParts(Wanted(all, m), m);
    forall p | 0 <= p < |all|
      ensures Storable(all[p], marks[p], back[p], Wanted(all, m)[p], m)
    {
      StoreFits(all, m, sent, marks, counts, answers, p);
      MakeStorable(all[p], marks[p], back[p], Wanted(all, m)[p], m);
    }
    StoreAll(locals, marks, back, all, Wanted(all, m), m);
    WantedFlat(all, m);
    missing := CountAll(locals);
  }

  lemma {:induction false} EvenParts(all: seq<seq<nat>>, m: nat)
    requires Even(all, m)
    ensures |all| > 0 && forall p | 0 <= p < |all| :: |all[p]| == m
  {
  }

  lemma {:induction false} MakeStorable(local: seq<nat>, marks: seq<nat>, back: seq<nat>, want: seq<nat>, m: nat)
    requires |back| == |marks| && |local| == |want| == m
    requires forall i | 0 <= i < |back| :: marks[i] < m && back[i] == want[marks[i]]
    requires forall k | 0 <= k < m :: k in marks || local[k] == want[k]
    ensures Storable(local, marks, back, want, m)
  {
  }

  lemma {:induction false} BackReady(all: seq<seq<nat>>, m: nat, sent: seq<seq<nat>>, counts: seq<seq<nat>>, answers: seq<seq<nat>>)
    requires Ready(sent, counts) && |answers| == |sent| > 0
    requires forall q | 0 <= q < |sent| :: Answers(answers[q], Exchanged(sent, counts)[q], Answer(all), q)
    ensures forall p | 0 <= p < |counts| :: |counts[p]| == |counts|
    ensures Ready(answers, Transposed(counts))
  {
    hide Cuts, Exchanged, Answer, Answers;
    BackLength(sent, counts, answers, Answer(all), 0);
  }

  /**
   Rounds until nothing is missing. Every edge ends with the value its chain of pointers leads to,
   after one round more than the binary logarithm of the longest chain.
   */
  method ResolveAll(locals: seq<array<nat>>, m: nat) returns (rounds: nat)
    requires Separate(locals) && Even(Contents(locals), m) && PointsDown(Flat(Contents(locals), m))
    modifies locals
    ensures Even(Contents(locals), m)
    ensures Flat(Contents(locals), m) == old(Resolved(Flat(Contents(locals), m)))
    ensures rounds == old(Log2(MaxDepth(Flat(Contents(locals), m), |locals| * m))) + 1
  {
    hide *;
    ghost var v := Flat(Contents(locals), m);
    ghost var limit := Log2(MaxDepth(v, |v|));
    var missing := 1; // the first round always takes place
    rounds := 0;
    TimesZero(v);
    while missing > 0
      invariant Even(Contents(locals), m) && Flat(Contents(locals), m) == JumpedTimes(v, rounds)
      invariant rounds <= limit + 1 && (missing > 0 ==> rounds <= limit)
      invariant missing == 0 ==> rounds == limit + 1
      decreases limit + 1 - rounds
    {
      TimesNext(v, rounds);
      missing := Round(locals, m);
      rounds := rounds + 1;
      NoneLeft(Contents(locals), m);
      RoundsNeeded(v, rounds);
    }
    RoundsNeeded(v, rounds);
    NothingLeft(Flat(Contents(locals), m));
  }
}
