/**
 The count an exchange returns. Every stage runs over a group of ranks, whose members all get the sum
 of what they had; the groups of the stages overlap so that a zero on one rank speaks for all.
 */
module ExchangeTotals {
  import opened Arithmetic
  import opened Network
  import opened Routing

  datatype Scope = OverNode | OverPartners | OverCores | OverWorld

  function MembersOf(which: Scope, net: Net, rank: nat): (g: seq<nat>)
    requires net.cores > 0
  {
    match which
    case OverNode => seq(net.cores, (j: nat) => net.Rank(net.Node(rank), j))
    case OverPartners => Group(net, rank)
    case OverCores => seq(net.nodes, (i: nat) => net.Rank(i, net.Core(rank)))
    case OverWorld => seq(net.Size(), (i: nat) => i)
  }

  function At(f: seq<nat>, x: nat): nat { if x < |f| then f[x] else 0 }

  function SumAt(f: seq<nat>, extra: seq<nat>, group: seq<nat>): nat {
    if group == [] then 0
    else SumAt(f, extra, group[..|group| - 1]) + At(f, group[|group| - 1]) + At(extra, group[|group| - 1])
  }

  /** One exchange: every member sends its count plus an extra count to all, and adds up what it gets. */
  function Returned(which: Scope, net: Net, local: seq<nat>, extra: seq<nat>): (t: seq<nat>)
    requires net.cores > 0
    ensures |t| == net.Size()
  {
    seq(net.Size(), (r: nat) => SumAt(local, extra, MembersOf(which, net, r)))
  }

  function Plus(a: seq<nat>, b: seq<nat>): (c: seq<nat>)
    requires |a| == |b|
    ensures |c| == |a|
  {
    seq(|a|, (i: nat) requires i < |a| => a[i] + b[i])
  }

  /** first, remote, second: messages each rank has queued when a stage starts; sent: its send count. */
  function Totals(route: Route, net: Net, first: seq<nat>, remote: seq<nat>, second: seq<nat>, sent: seq<nat>): (t: seq<nat>)
    requires net.cores > 0
    ensures |t| == net.Size()
  {
    match route
    case Nlnr =>
      var t1 := Returned(OverNode, net, first, sent);
      var t2 := Plus(t1, Returned(OverPartners, net, remote, t1));
      Plus(t2, Returned(OverNode, net, second, t2))
    case Nlroute =>
      var t1 := Returned(OverNode, net, first, sent);
      Plus(t1, Returned(OverCores, net, remote, t1))
    case Nrroute =>
      var t1 := Returned(OverCores, net, remote, sent);
      Plus(t1, Returned(OverNode, net, second, t1))
    case Noroute => Returned(OverWorld, net, remote, [])
  }

  lemma {:induction false} SumAtZero(f: seq<nat>, extra: seq<nat>, group: seq<nat>)
    ensures SumAt(f, extra, group) == 0 <==> forall i | 0 <= i < |group| :: At(f, group[i]) == 0 && At(extra, group[i]) == 0
  {
    if group != [] {
      var k := |group| - 1;
      SumAtZero(f, extra, group[..k]);
      assert forall i | 0 <= i < k :: group[..k][i] == group[i];
    }
  }

  lemma {:induction false} ReturnedZero(which: Scope, net: Net, local: seq<nat>, extra: seq<nat>, r: nat, x: nat)
    requires net.cores > 0 && r < net.Size() && x in MembersOf(which, net, r)
    requires Returned(which, net, local, extra)[r] == 0
    ensures At(local, x) == 0 && At(extra, x) == 0
  {
    var g := MembersOf(which, net, r);
    SumAtZero(local, extra, g);
    var i :| 0 <= i < |g| && g[i] == x;
  }

  lemma {:induction false} NodeMember(net: Net, r: nat, x: nat)
    requires net.Valid() && net.Node(x) == net.Node(r)
    ensures x in MembersOf(OverNode, net, r)
  {
    Whole(net, x);
    assert MembersOf(OverNode, net, r)[net.Core(x)] == x;
  }

  lemma {:induction false} CoreMember(net: Net, r: nat, x: nat)
    requires net.Valid() && net.Core(x) == net.Core(r) && x < net.Size()
    ensures x in MembersOf(OverCores, net, r)
  {
    Whole(net, x);
    assert MembersOf(OverCores, net, r)[net.Node(x)] == x;
  }

  /** Between any two nodes there is a pair of partners, one on each. */
  lemma {:induction false} Bridge(net: Net, r: nat, z: nat) returns (x: nat, y: nat)
    requires net.Valid() && r < net.Size() && z < net.Size()
    ensures x < net.Size() && y < net.Size() && net.Node(x) == net.Node(r) && net.Node(y) == net.Node(z)
    ensures y in MembersOf(OverPartners, net, x)
  {
    var here, there := net.Node(r), net.Node(z);
    x, y := net.Rank(here, net.Layer(there)), net.Rank(there, net.Layer(here));
    Whole(net, r);
    Whole(net, z);
    Quotient(here, net.cores);
    Quotient(there, net.cores);
    Parts(net, here, net.Layer(there));
    Parts(net, there, net.Layer(here));
    SameColor(net, x, y);
    MembersAre(net, net.Color(x), net.Size());
  }

  /** The rank on one rank's node with the other's core. */
  lemma {:induction false} Corner(net: Net, a: nat, b: nat) returns (x: nat)
    requires net.Valid() && a < net.Size() && b < net.Size()
    ensures x < net.Size() && net.Node(x) == net.Node(a) && net.Core(x) == net.Core(b)
  {
    x := net.Rank(net.Node(a), net.Core(b));
    Whole(net, a);
    Whole(net, b);
    Parts(net, net.Node(a), net.Core(b));
  }

  lemma {:induction false} WorldMember(net: Net, r: nat, z: nat)
    requires net.cores > 0 && z < net.Size()
    ensures z in MembersOf(OverWorld, net, r)
  {
    assert MembersOf(OverWorld, net, r)[z] == z;
  }

  lemma {:induction false} NlnrZero(net: Net, first: seq<nat>, remote: seq<nat>, second: seq<nat>, sent: seq<nat>, r: nat, z: nat)
    requires net.Valid() && r < net.Size() && z < net.Size()
    requires Totals(Nlnr, net, first, remote, second, sent)[r] == 0
    ensures At(sent, z) == 0
  {
    var t1 := Returned(OverNode, net, first, sent);
    var t2 := Returned(OverPartners, net, remote, t1);
    var t12 := Plus(t1, t2);
    var x, y := Bridge(net, r, z);
    assert Returned(OverNode, net, second, t12)[r] == 0;
    hide Returned, Net.Size, Net.Node, MembersOf;
    NodeMember(net, r, x);
    ReturnedZero(OverNode, net, second, t12, r, x);
    assert t12[x] == 0 && t2[x] == 0;
    ReturnedZero(OverPartners, net, remote, t1, x, y);
    NodeMember(net, y, z);
    ReturnedZero(OverNode, net, first, sent, y, z);
  }

  /** A zero on one rank means that no rank had queued anything. */
  lemma {:induction false} ZeroMeansEmpty(route: Route, net: Net, first: seq<nat>, remote: seq<nat>, second: seq<nat>, sent: seq<nat>,
                                          r: nat, z: nat)
    requires net.Valid() && r < net.Size() && z < net.Size()
    requires Totals(route, net, first, remote, second, sent)[r] == 0
    requires route.Noroute? ==> remote == sent
    ensures At(sent, z) == 0
  {
    match route
    case Nlnr => NlnrZero(net, first, remote, second, sent, r, z);
    case Nlroute =>
      var t1 := Returned(OverNode, net, first, sent);
      var x := Corner(net, z, r);
      CoreMember(net, r, x);
      NodeMember(net, x, z);
      ReturnedZero(OverCores, net, remote, t1, r, x);
      ReturnedZero(OverNode, net, first, sent, x, z);
    case Nrroute =>
      var t1 := Returned(OverCores, net, remote, sent);
      var x := Corner(net, r, z);
      NodeMember(net, r, x);
      CoreMember(net, x, z);
      ReturnedZero(OverNode, net, second, t1, r, x);
      ReturnedZero(OverCores, net, remote, sent, x, z);
    case Noroute =>
      WorldMember(net, r, z);
      ReturnedZero(OverWorld, net, remote, [], r, z);
  }

  predicate AllZero(f: seq<nat>) { forall i | 0 <= i < |f| :: f[i] == 0 }

  lemma {:induction false} ReturnedAllZero(which: Scope, net: Net, local: seq<nat>, extra: seq<nat>)
    requires net.cores > 0 && AllZero(local) && AllZero(extra)
    ensures AllZero(Returned(which, net, local, extra))
  {
    forall r | 0 <= r < net.Size()
      ensures Returned(which, net, local, extra)[r] == 0
    {
      SumAtZero(local, extra, MembersOf(which, net, r));
    }
  }

  /** Nothing queued anywhere, and so nothing forwarded: every rank gets zero. */
  lemma {:induction false} EmptyMeansZero(route: Route, net: Net, first: seq<nat>, remote: seq<nat>, second: seq<nat>, sent: seq<nat>)
    requires net.cores > 0 && AllZero(first) && AllZero(remote) && AllZero(second) && AllZero(sent)
    ensures AllZero(Totals(route, net, first, remote, second, sent))
  {
    hide Returned;
    match route
    case Nlnr =>
      var t1 := Returned(OverNode, net, first, sent);
      ReturnedAllZero(OverNode, net, first, sent);
      ReturnedAllZero(OverPartners, net, remote, t1);
      ReturnedAllZero(OverNode, net, second, Plus(t1, Returned(OverPartners, net, remote, t1)));
    case Nlroute =>
      ReturnedAllZero(OverNode, net, first, sent);
      ReturnedAllZero(OverCores, net, remote, Returned(OverNode, net, first, sent));
    case Nrroute =>
      ReturnedAllZero(OverCores, net, remote, sent);
      ReturnedAllZero(OverNode, net, second, Returned(OverCores, net, remote, sent));
    case Noroute => ReturnedAllZero(OverWorld, net, remote, []);
  }
}
