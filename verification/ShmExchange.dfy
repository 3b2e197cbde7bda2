/**
 The ring as an object, for calls that nobody interrupts: its counters and slots are updated in
 place, and it is a bounded first-in first-out queue.
 */
module ShmExchange {
  import opened Collections
  import opened Ring

  class Exchange {
    const recvList: array<Option<Bundle>>
    var recvEnd: nat
    var recvBeg: nat

    ghost predicate Valid()
      reads this, recvList
    {
      && recvList.Length == CAPACITY
      && recvBeg <= recvEnd <= recvBeg + CAPACITY - SLACK && recvEnd < COUNTER_LIMIT
      && (forall u | recvBeg <= u < recvEnd :: recvList[u % CAPACITY].Some?)
      && (forall u | recvEnd <= u < recvBeg + CAPACITY :: recvList[u % CAPACITY].None?)
    }

    ghost function Contents(): (q: seq<Bundle>)
      requires Valid()
      reads this, recvList
      ensures |q| == recvEnd - recvBeg
    {
      seq(recvEnd - recvBeg, (k: nat) requires k < recvEnd - recvBeg && Valid() reads this, recvList =>
        recvList[(recvBeg + k) % CAPACITY].value)
    }

    constructor ()
      ensures Valid() && Contents() == [] && fresh(recvList)
    {
      recvList := new Option<Bundle>[CAPACITY](_ => None);
      recvEnd, recvBeg := 0, 0;
    }

    /** Refuses when only the slack is left; otherwise the bundle is the last in the queue. */
    method TrySend(bundle: Bundle) returns (ok: bool)
      requires Valid() && recvEnd + 1 < COUNTER_LIMIT
      modifies this`recvEnd, recvList
      ensures Valid()
      ensures ok == (|old(Contents())| < CAPACITY - SLACK)
      ensures Contents() == if ok then old(Contents()) + [bundle] else old(Contents())
    {
      ok := !Full(recvEnd, recvBeg);
      if ok {
        var pos := recvEnd % CAPACITY;
        assert recvList[pos].None?;
        forall u | recvBeg <= u < recvBeg + CAPACITY && u % CAPACITY == pos
          ensures u == recvEnd
        {
          if u <= recvEnd { SameSlot(u, recvEnd); } else { SameSlot(recvEnd, u); }
        }
        recvEnd := recvEnd + 1;
        recvList[pos] := Some(bundle);
      }
    }

    method Probe() returns (some: bool)
      requires Valid()
      ensures some == (Contents() != [])
    {
      some := recvEnd > recvBeg;
    }

    /** At most one bundle, the first in the queue. */
    method TryRecv() returns (bundles: seq<Bundle>)
      requires Valid()
      modifies this`recvBeg, recvList
      ensures Valid()
      ensures |bundles| == (if old(Contents()) == [] then 0 else 1) && bundles + Contents() == old(Contents())
    {
      bundles := [];
      if recvEnd > recvBeg {
        var pos := recvBeg % CAPACITY;
        if recvList[pos].Some? {
          bundles := [recvList[pos].value];
          forall u | recvBeg <= u < recvBeg + CAPACITY && u % CAPACITY == pos
            ensures u == recvBeg
          {
            SameSlot(recvBeg, u);
          }
          recvList[pos] := None;
          recvBeg := recvBeg + 1;
        }
      }
    }
  }
}
