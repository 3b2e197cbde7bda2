/**
 The detector object of one rank, with its fields updated in place. Each handler does to the
 fields what the corresponding events of the distributed model do to the rank's node. What the
 probes and tests of the message layer find is passed in; what is sent is passed out.
 */
module TerminationDetector {
  import opened TerminationDetection

  datatype Sent = Sent(queries: bool, stops: bool, reply: seq<Counts>)

  const NOTHING := Sent(false, false, [])

  function ReceiveAll(n: Node, arrived: seq<Counts>): Node {
    if arrived == [] then n else ReceiveAll(n, arrived[..|arrived| - 1]).Receive(arrived[|arrived| - 1])
  }

  class Detector {
    const tree: Tree
    const rank: nat
    var mode: Mode
    var sends: nat
    var waiting: int
    var subtree: Counts
    var previous: Counts
    var queued: nat
    var completed: nat

    constructor (tree: Tree, rank: nat)
      ensures this.tree == tree && this.rank == rank
      ensures AsNode() == Node(WaitingInit, 0, tree.NumChildren(rank), ZERO, Counts(MAX_COUNT, MAX_COUNT))
      ensures Own() == ZERO
    {
      this.tree, this.rank := tree, rank;
      waiting := tree.NumChildren(rank);
      subtree := ZERO;
      mode, sends := WaitingInit, 0;
      previous := Counts(MAX_COUNT, MAX_COUNT);
      queued, completed := 0, 0;
    }

    function AsNode(): Node
      reads this
    {
      Node(mode, sends, waiting, subtree, previous)
    }

    function Own(): Counts
      reads this
    {
      Counts(queued, completed)
    }

    method IncQueued(n: nat)
      modifies this`queued
      ensures Own() == old(Own()).Plus(Counts(n, 0))
    {
      queued := queued + n;
    }

    method IncCompleted(n: nat)
      modifies this`completed
      ensures Own() == old(Own()).Plus(Counts(0, n))
    {
      completed := completed + n;
    }

    method HandleWaitingInit(stopArrived: bool, queryArrived: bool) returns (report: bool, sent: Sent)
      requires mode.WaitingInit?
      modifies this`mode, this`sends, this`subtree
      ensures AsNode() ==
        if rank == 0 || (!stopArrived && queryArrived) then old(AsNode()).Ask(tree.NumChildren(rank))
        else old(AsNode()).Reset()
      ensures report == (rank != 0 && stopArrived)
      ensures sent == Sent(rank == 0 || (!stopArrived && queryArrived), rank != 0 && stopArrived, [])
    {
      report, sent := false, NOTHING;
      subtree := ZERO;
      if rank == 0 {
        sends, mode, sent := sends + tree.NumChildren(rank), WaitingIsendChildren, Sent(true, false, []);
      } else if stopArrived {
        mode, report, sent := WaitingInit, true, Sent(false, true, []);
      } else if queryArrived {
        sends, mode, sent := sends + tree.NumChildren(rank), WaitingIsendChildren, Sent(true, false, []);
      }
    }

    /** done: how many of the pending sends, from the back, would test as complete. */
    method HandleWaitingIsendChildren(done: nat)
      requires mode.WaitingIsendChildren?
      modifies this`mode, this`sends
      ensures sends == if done < old(sends) then old(sends) - done else 0
      ensures AsNode() ==
        if sends == 0 then old(AsNode()).(sends := 0).Asked() else old(AsNode()).(sends := old(sends) - done)
    {
      var left: nat := done;
      while sends > 0 && left > 0
        invariant sends <= old(sends) && left <= done && old(sends) - sends == done - left
        invariant AsNode() == old(AsNode()).(sends := sends)
      {
        sends, left := sends - 1, left - 1;
      }
      if sends == 0 {
        mode := WaitingRecvChildren;
      }
    }

    method HandleWaitingRecvChildren(arrived: seq<Counts>) returns (report: bool, sent: Sent)
      requires mode.WaitingRecvChildren?
      modifies this`mode, this`waiting, this`subtree, this`previous
      ensures
        if tree.IsLeaf(rank) then
          AsNode() == old(AsNode()).Reply(Own()) && !report && sent == Sent(false, false, [subtree])
        else
          var n := ReceiveAll(old(AsNode()), arrived);
          if n.waiting != 0 then AsNode() == n && !report && sent == NOTHING
          else if rank == 0 then
            AsNode() == n.Decide(tree.NumChildren(rank), Own()) && report == n.Decides(Own()) &&
            sent == Sent(false, report, [])
          else
            AsNode() == n.ReplyInner(tree.NumChildren(rank), Own()) && !report &&
            sent == Sent(false, false, [subtree])
    {
      report, sent := false, NOTHING;
      if tree.IsLeaf(rank) {
        subtree := subtree.Plus(Own());
        mode, sent := WaitingIsendParent, Sent(false, false, [subtree]);
        return;
      }
      for i := 0 to |arrived|
        invariant AsNode() == ReceiveAll(old(AsNode()), arrived[..i])
      {
        assert arrived[..i + 1][..i] == arrived[..i];
        waiting := waiting - 1;
        subtree := subtree.Plus(arrived[i]);
      }
      assert arrived[..|arrived|] == arrived;
      if waiting == 0 {
        waiting := tree.NumChildren(rank);
        subtree := subtree.Plus(Own());
        if rank == 0 {
          if subtree.queued == subtree.completed {
            if subtree == previous {
              report, sent := true, Sent(false, true, []);
            } else {
              previous := subtree;
            }
          }
          mode := WaitingInit;
        } else {
          mode, sent := WaitingIsendParent, Sent(false, false, [subtree]);
        }
      }
    }

    method HandleWaitingIsendParent(done: bool)
      requires mode.WaitingIsendParent?
      modifies this`mode
      ensures AsNode() == if done then old(AsNode()).(mode := WaitingInit) else old(AsNode())
    {
      if done {
        mode := WaitingInit;
      }
    }
  }
}
