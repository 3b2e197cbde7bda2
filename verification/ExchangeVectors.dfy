/**
 The vector exchange: every rank holds one vector for all ranks, cut into segments by send counts;
 every rank receives the segments meant for it, in rank order, together with their sizes. Sending
 the received vector back under the received counts brings every element back to where it started.
 */
module ExchangeVectors {
  /** Displacement of segment q. */
  function Start(counts: seq<nat>, q: nat): nat
    requires q <= |counts|
  {
    if q == 0 then 0 else Start(counts, q - 1) + counts[q - 1]
  }

  /** The counts cut the vector without a rest. */
  ghost predicate Cuts(counts: seq<nat>, total: nat) { Start(counts, |counts|) == total }

  lemma {:induction false} StartGrows(counts: seq<nat>, p: nat, q: nat)
    requires p <= q <= |counts|
    ensures Start(counts, p) <= Start(counts, q)
    decreases q
  {
    if p < q {
      StartGrows(counts, p, q - 1);
    }
  }

  function Segment<T>(v: seq<T>, counts: seq<nat>, q: nat): (s: seq<T>)
    requires q < |counts| && Cuts(counts, |v|)
    ensures |s| == counts[q]
  {
    StartGrows(counts, q + 1, |counts|);
    v[Start(counts, q)..Start(counts, q) + counts[q]]
  }

  /** One vector and its counts for every rank. */
  ghost predicate Ready<T>(sent: seq<seq<T>>, counts: seq<seq<nat>>) {
    && |sent| == |counts|
    && forall p | 0 <= p < |counts| :: |counts[p]| == |counts| && Cuts(counts[p], |sent[p]|)
  }

  /** What rank q receives from the ranks below n. */
  function Received<T>(sent: seq<seq<T>>, counts: seq<seq<nat>>, q: nat, n: nat): seq<T>
    requires Ready(sent, counts) && q < |sent| && n <= |sent|
  {
    if n == 0 then [] else Received(sent, counts, q, n - 1) + Segment(sent[n - 1], counts[n - 1], q)
  }

  function Column(counts: seq<seq<nat>>, q: nat): (c: seq<nat>)
    requires forall p | 0 <= p < |counts| :: q < |counts[p]|
    ensures |c| == |counts| && forall p | 0 <= p < |c| :: c[p] == counts[p][q]
  {
    seq(|counts|, p requires 0 <= p < |counts| => counts[p][q])
  }

  lemma {:induction false} ReceivedLength<T>(sent: seq<seq<T>>, counts: seq<seq<nat>>, q: nat, n: nat)
    requires Ready(sent, counts) && q < |sent| && n <= |sent|
    ensures |Received(sent, counts, q, n)| == Start(Column(counts, q), n)
  {
    if n > 0 {
      ReceivedLength(sent, counts, q, n - 1);
    }
  }

  /** The part received from p is the segment that p meant for q. */
  lemma {:induction false} ReceivedPart<T>(sent: seq<seq<T>>, counts: seq<seq<nat>>, q: nat, p: nat, n: nat)
    requires Ready(sent, counts) && q < |sent| && p < n <= |sent|
    ensures Start(Column(counts, q), p) + counts[p][q] <= |Received(sent, counts, q, n)|
    ensures var from := Start(Column(counts, q), p);
      Received(sent, counts, q, n)[from..from + counts[p][q]] == Segment(sent[p], counts[p], q)
  {
    hide Start, Segment, Cuts, Column;
    ReceivedLength(sent, counts, q, n - 1);
    var front, last := Received(sent, counts, q, n - 1), Segment(sent[n - 1], counts[n - 1], q);
    var from, size := Start(Column(counts, q), p), counts[p][q];
    assert Received(sent, counts, q, n) == front + last;
    if p < n - 1 {
      ReceivedPart(sent, counts, q, p, n - 1);
      assert (front + last)[from..from + size] == front[from..from + size];
    } else {
      assert (front + last)[from..from + size] == last;
    }
  }

  /** Nothing is received that no rank sent. */
  lemma {:induction false} ReceivedWasSent<T>(sent: seq<seq<T>>, counts: seq<seq<nat>>, q: nat, n: nat, x: T) returns (p: nat)
    requires Ready(sent, counts) && q < |sent| && n <= |sent| && x in Received(sent, counts, q, n)
    ensures p < n && x in sent[p]
  {
    StartGrows(counts[n - 1], q + 1, |counts[n - 1]|);
    if x in Segment(sent[n - 1], counts[n - 1], q) {
      p := n - 1;
    } else {
      p := ReceivedWasSent(sent, counts, q, n - 1, x);
    }
  }

  /** All ranks at once: the vectors received and the counts received. */
  function Exchanged<T>(sent: seq<seq<T>>, counts: seq<seq<nat>>): (r: seq<seq<T>>)
    requires Ready(sent, counts)
    ensures |r| == |sent| && forall q | 0 <= q < |r| :: r[q] == Received(sent, counts, q, |sent|)
  {
    seq(|sent|, q requires 0 <= q < |sent| => Received(sent, counts, q, |sent|))
  }

  function Transposed(counts: seq<seq<nat>>): (c: seq<seq<nat>>)
    requires forall p | 0 <= p < |counts| :: |counts[p]| == |counts|
    ensures |c| == |counts| && forall q | 0 <= q < |c| :: c[q] == Column(counts, q)
  {
    seq(|counts|, q requires 0 <= q < |counts| => Column(counts, q))
  }

  lemma {:induction false} ExchangedReady<T>(sent: seq<seq<T>>, counts: seq<seq<nat>>)
    requires Ready(sent, counts)
    ensures Ready(Exchanged(sent, counts), Transposed(counts))
    ensures forall q, p | 0 <= q < |sent| && 0 <= p < |sent| ::
      Segment(Exchanged(sent, counts)[q], Transposed(counts)[q], p) == Segment(sent[p], counts[p], q)
  {
    forall q | 0 <= q < |sent|
      ensures Cuts(Transposed(counts)[q], |Exchanged(sent, counts)[q]|)
    {
      ReceivedLength(sent, counts, q, |sent|);
    }
    forall q, p | 0 <= q < |sent| && 0 <= p < |sent|
      ensures Segment(Exchanged(sent, counts)[q], Transposed(counts)[q], p) == Segment(sent[p], counts[p], q)
    {
      ReceivedPart(sent, counts, q, p, |sent|);
    }
  }

  lemma {:induction false} TransposedTwice(counts: seq<seq<nat>>)
    requires forall p | 0 <= p < |counts| :: |counts[p]| == |counts|
    ensures Transposed(Transposed(counts)) == counts
  {
    forall p | 0 <= p < |counts|
      ensures Transposed(Transposed(counts))[p] == counts[p]
    {
      assert forall q | 0 <= q < |counts| :: Column(Transposed(counts), p)[q] == Transposed(counts)[q][p] == counts[p][q];
    }
  }

  /** Every position lies in exactly one segment. */
  lemma {:induction false} SegmentAt(counts: seq<nat>, i: nat, n: nat) returns (q: nat)
    requires n <= |counts| && i < Start(counts, n)
    ensures q < n && Start(counts, q) <= i < Start(counts, q) + counts[q]
  {
    if Start(counts, n - 1) <= i {
      q := n - 1;
    } else {
      q := SegmentAt(counts, i, n - 1);
    }
  }

  lemma {:induction false} SegmentElement<T>(v: seq<T>, counts: seq<nat>, q: nat, i: nat)
    requires q < |counts| && Cuts(counts, |v|) && Start(counts, q) <= i < Start(counts, q) + counts[q]
    ensures i < |v| && Segment(v, counts, q)[i - Start(counts, q)] == v[i]
  {
    StartGrows(counts, q + 1, |counts|);
    var a, b := Start(counts, q), Start(counts, q) + counts[q];
    assert Segment(v, counts, q) == v[a..b];
    assert v[a..b][i - a] == v[i];
  }

  /** Two vectors with the same segments are the same. */
  lemma {:induction false} SameSegments<T>(v: seq<T>, w: seq<T>, counts: seq<nat>)
    requires Cuts(counts, |v|) && Cuts(counts, |w|)
    requires forall q | 0 <= q < |counts| :: Segment(v, counts, q) == Segment(w, counts, q)
    ensures v == w
  {
    forall i | 0 <= i < |v|
      ensures v[i] == w[i]
    {
      var q := SegmentAt(counts, i, |counts|);
      SegmentElement(v, counts, q, i);
      SegmentElement(w, counts, q, i);
    }
  }

  /** Sent and returned: every vector is back as it was. */
  lemma {:induction false} ThereAndBack<T>(sent: seq<seq<T>>, counts: seq<seq<nat>>)
    requires Ready(sent, counts)
    ensures Ready(Exchanged(sent, counts), Transposed(counts))
    ensures Exchanged(Exchanged(sent, counts), Transposed(counts)) == sent
  {
    var out, outCounts := Exchanged(sent, counts), Transposed(counts);
    ExchangedReady(sent, counts);
    ExchangedReady(out, outCounts);
    TransposedTwice(counts);
    forall p | 0 <= p < |sent|
      ensures Exchanged(out, outCounts)[p] == sent[p]
    {
      SameSegments(Exchanged(out, outCounts)[p], sent[p], counts[p]);
    }
  }

  lemma {:induction false} BackLength<T, U>(sent: seq<seq<T>>, counts: seq<seq<nat>>, answers: seq<seq<U>>,
                                            answer: (nat, T) -> U, p: nat)
    requires Ready(sent, counts) && |answers| == |sent| && p < |sent|
    requires forall r | 0 <= r < |sent| :: Answers(answers[r], Exchanged(sent, counts)[r], answer, r)
    ensures Ready(answers, Transposed(counts)) && |Exchanged(answers, Transposed(counts))[p]| == |sent[p]|
  {
    hide Start, Received, Segment, Cuts;
    ExchangedReady(sent, counts);
    assert Ready(answers, Transposed(counts));
    ExchangedReady(answers, Transposed(counts));
    TransposedTwice(counts);
    SameLength(sent[p], Exchanged(answers, Transposed(counts))[p], counts[p]);
  }

  /**
   The received elements are answered one by one and the answers sent back: every rank finds, at
   the position of an element, the answer that the rank of its segment gave for it.
   */
  lemma {:induction false} AnsweredInPlace<T, U>(sent: seq<seq<T>>, counts: seq<seq<nat>>, answers: seq<seq<U>>,
                                                 answer: (nat, T) -> U, p: nat, i: nat) returns (q: nat)
    requires Ready(sent, counts) && |answers| == |sent|
    requires forall r | 0 <= r < |sent| :: Answers(answers[r], Exchanged(sent, counts)[r], answer, r)
    requires p < |sent| && i < |sent[p]|
    ensures Ready(answers, Transposed(counts)) && |Exchanged(answers, Transposed(counts))[p]| == |sent[p]|
    ensures q < |sent| && Start(counts[p], q) <= i < Start(counts[p], q) + counts[p][q]
    ensures Exchanged(answers, Transposed(counts))[p][i] == answer(q, sent[p][i])
  {
    hide Start, Received, Segment, Cuts;
    var out, outCounts := Exchanged(sent, counts), Transposed(counts);
    BackLength(sent, counts, answers, answer, p);
    ExchangedReady(sent, counts);
    var back := Exchanged(answers, outCounts);
    ExchangedReady(answers, outCounts);
    TransposedTwice(counts);
    WholeLength(sent[p], counts[p]);
    q := SegmentAt(counts[p], i, |counts[p]|);
    SegmentElement(sent[p], counts[p], q, i);
    SegmentElement(back[p], counts[p], q, i);
    var k := i - Start(counts[p], q);
    SegmentAnswers(answers[q], out[q], outCounts[q], answer, q, p);
    assert Segment(back[p], counts[p], q)[k] == answer(q, Segment(sent[p], counts[p], q)[k]);
  }

  ghost predicate Answers<T, U>(a: seq<U>, s: seq<T>, answer: (nat, T) -> U, r: nat) {
    |a| == |s| && forall j | 0 <= j < |s| :: a[j] == answer(r, s[j])
  }

  lemma {:induction false} SameLength<T, U>(v: seq<T>, w: seq<U>, counts: seq<nat>)
    requires Cuts(counts, |v|) && Cuts(counts, |w|)
    ensures |v| == |w|
  {
  }

  lemma {:induction false} WholeLength<T>(v: seq<T>, counts: seq<nat>)
    requires Cuts(counts, |v|)
    ensures Start(counts, |counts|) == |v|
  {
  }

  lemma {:induction false} SegmentAnswers<T, U>(a: seq<U>, s: seq<T>, counts: seq<nat>, answer: (nat, T) -> U, r: nat, p: nat)
    requires p < |counts| && Cuts(counts, |s|) && Answers(a, s, answer, r)
    ensures Answers(Segment(a, counts, p), Segment(s, counts, p), answer, r)
  {
    StartGrows(counts, p + 1, |counts|);
    var from, size := Start(counts, p), counts[p];
    assert Segment(a, counts, p) == a[from..from + size] && Segment(s, counts, p) == s[from..from + size];
  }
}
