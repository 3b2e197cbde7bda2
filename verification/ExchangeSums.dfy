/**
 How much the count of an exchange is. The stages add up sums of sums over groups; together they come to what
 all ranks had in the first stage, once, and what the rank's own groups had besides.
 */
module ExchangeSums {
  import opened Network
  import opened Routing
  import opened ExchangeTotals

  // Sums over the cores of a node, over one core of all nodes, and over all ranks

  function NodeSum(net: Net, f: seq<nat>, node: nat, k: nat): nat {
    if k == 0 then 0 else NodeSum(net, f, node, k - 1) + At(f, net.Rank(node, k - 1))
  }

  function CoreSum(net: Net, f: seq<nat>, core: nat, k: nat): nat {
    if k == 0 then 0 else CoreSum(net, f, core, k - 1) + At(f, net.Rank(k - 1, core))
  }

  function WorldSum(f: seq<nat>, n: nat): nat {
    if n == 0 then 0 else WorldSum(f, n - 1) + At(f, n - 1)
  }

  lemma {:induction false} SumAtPrefix(f: seq<nat>, extra: seq<nat>, group: seq<nat>, k: nat)
    requires k < |group|
    ensures SumAt(f, extra, group[..k + 1]) == SumAt(f, extra, group[..k]) + At(f, group[k]) + At(extra, group[k])
  {
    assert group[..k + 1][..k] == group[..k];
  }

  lemma {:induction false} OverNodeSum(net: Net, f: seq<nat>, extra: seq<nat>, r: nat, k: nat)
    requires net.cores > 0 && k <= net.cores
    ensures SumAt(f, extra, MembersOf(OverNode, net, r)[..k])
      == NodeSum(net, f, net.Node(r), k) + NodeSum(net, extra, net.Node(r), k)
  {
    if k > 0 {
      OverNodeSum(net, f, extra, r, k - 1);
      SumAtPrefix(f, extra, MembersOf(OverNode, net, r), k - 1);
    }
  }

  lemma {:induction false} OverCoresSum(net: Net, f: seq<nat>, extra: seq<nat>, r: nat, k: nat)
    requires net.cores > 0 && k <= net.nodes
    ensures SumAt(f, extra, MembersOf(OverCores, net, r)[..k])
      == CoreSum(net, f, net.Core(r), k) + CoreSum(net, extra, net.Core(r), k)
  {
    if k > 0 {
      OverCoresSum(net, f, extra, r, k - 1);
      SumAtPrefix(f, extra, MembersOf(OverCores, net, r), k - 1);
    }
  }

  lemma {:induction false} OverWorldSum(net: Net, f: seq<nat>, extra: seq<nat>, r: nat, k: nat)
    requires net.cores > 0 && k <= net.Size()
    ensures SumAt(f, extra, MembersOf(OverWorld, net, r)[..k]) == WorldSum(f, k) + WorldSum(extra, k)
  {
    hide Net.Size;
    if k > 0 {
      OverWorldSum(net, f, extra, r, k - 1);
      SumAtPrefix(f, extra, MembersOf(OverWorld, net, r), k - 1);
    }
  }

  /** What a rank gets back in one stage. */
  lemma {:induction false} ReturnedIs(which: Scope, net: Net, f: seq<nat>, extra: seq<nat>, r: nat)
    requires net.cores > 0 && r < net.Size()
    ensures which.OverNode? ==>
              Returned(which, net, f, extra)[r]
              == NodeSum(net, f, net.Node(r), net.cores) + NodeSum(net, extra, net.Node(r), net.cores)
    ensures which.OverCores? ==>
              Returned(which, net, f, extra)[r]
              == CoreSum(net, f, net.Core(r), net.nodes) + CoreSum(net, extra, net.Core(r), net.nodes)
    ensures which.OverWorld? ==> Returned(which, net, f, extra)[r] == WorldSum(f, net.Size()) + WorldSum(extra, net.Size())
  {
    var group := MembersOf(which, net, r);
    assert group[..|group|] == group;
    match which
    case OverNode => OverNodeSum(net, f, extra, r, net.cores);
    case OverCores => OverCoresSum(net, f, extra, r, net.nodes);
    case OverWorld => OverWorldSum(net, f, extra, r, net.Size());
    case OverPartners =>
  }

  // Sums of sums

  /** The ranks of the first nodes are the first ranks. */
  lemma {:induction false} NodeBlock(net: Net, f: seq<nat>, node: nat, k: nat)
    ensures WorldSum(f, net.Rank(node, k)) == WorldSum(f, net.Rank(node, 0)) + NodeSum(net, f, node, k)
  {
    if k > 0 {
      NodeBlock(net, f, node, k - 1);
      assert net.Rank(node, k) == net.Rank(node, k - 1) + 1;
    }
  }

  lemma {:induction false} NextNode(net: Net, f: seq<nat>, node: nat)
    ensures WorldSum(f, net.Rank(node + 1, 0)) == WorldSum(f, net.Rank(node, 0)) + NodeSum(net, f, node, net.cores)
  {
    NodeBlock(net, f, node, net.cores);
    assert net.Rank(node + 1, 0) == net.Rank(node, net.cores);
  }

  /** One core of every node, each with the sum of its node: all ranks. */
  lemma {:induction false} CoreOfNodes(net: Net, t: seq<nat>, f: seq<nat>, core: nat, k: nat)
    requires core < net.cores && k <= net.nodes
    requires forall x | 0 <= x < net.Size() :: At(t, x) == NodeSum(net, f, net.Node(x), net.cores)
    ensures CoreSum(net, t, core, k) == WorldSum(f, net.Rank(k, 0))
  {
    hide NodeSum, Net.Rank, Net.Node, Net.Size, At;
    if k > 0 {
      CoreOfNodes(net, t, f, core, k - 1);
      Parts(net, k - 1, core);
      NextNode(net, f, k - 1);
    } else {
      assert net.Rank(0, 0) == 0 by { RankZero(net); }
    }
  }

  lemma {:induction false} RankZero(net: Net)
    ensures net.Rank(0, 0) == 0 && net.Rank(net.nodes, 0) == net.Size()
  {
  }

  /** The sums of the cores of one node, each over that core of the first k nodes. */
  function CoreSums(net: Net, f: seq<nat>, k: nat, c: nat): nat {
    if c == 0 then 0 else CoreSums(net, f, k, c - 1) + CoreSum(net, f, c - 1, k)
  }

  lemma {:induction false} OneMoreNode(net: Net, f: seq<nat>, k: nat, c: nat)
    ensures CoreSums(net, f, k + 1, c) == CoreSums(net, f, k, c) + NodeSum(net, f, k, c)
  {
    if c > 0 {
      OneMoreNode(net, f, k, c - 1);
    }
  }

  lemma {:induction false} CoreSumsNone(net: Net, f: seq<nat>, c: nat)
    ensures CoreSums(net, f, 0, c) == 0
  {
    if c > 0 {
      CoreSumsNone(net, f, c - 1);
    }
  }

  lemma {:induction false} CoreSumsAll(net: Net, f: seq<nat>, k: nat)
    ensures CoreSums(net, f, k, net.cores) == WorldSum(f, net.Rank(k, 0))
  {
    hide CoreSums, NodeSum, Net.Rank;
    if k == 0 {
      CoreSumsNone(net, f, net.cores);
      RankZero(net);
    } else {
      CoreSumsAll(net, f, k - 1);
      OneMoreNode(net, f, k - 1, net.cores);
      NextNode(net, f, k - 1);
    }
  }

  lemma {:induction false} NodeOfCores(net: Net, t: seq<nat>, f: seq<nat>, node: nat, c: nat)
    requires node < net.nodes && c <= net.cores && net.cores > 0
    requires forall x | 0 <= x < net.Size() :: At(t, x) == CoreSum(net, f, net.Core(x), net.nodes)
    ensures NodeSum(net, t, node, c) == CoreSums(net, f, net.nodes, c)
  {
    hide CoreSum, Net.Rank, Net.Core, Net.Size, At;
    if c > 0 {
      NodeOfCores(net, t, f, node, c - 1);
      Parts(net, node, c - 1);
    }
  }

  function Added(f: seq<nat>, g: seq<nat>): (s: seq<nat>)
    requires |f| == |g|
    ensures |s| == |f| && forall x | 0 <= x < |f| :: s[x] == f[x] + g[x]
  {
    seq(|f|, (x: nat) requires x < |f| => f[x] + g[x])
  }

  lemma {:induction false} AddedNode(net: Net, f: seq<nat>, g: seq<nat>, node: nat, k: nat)
    requires |f| == |g|
    ensures NodeSum(net, Added(f, g), node, k) == NodeSum(net, f, node, k) + NodeSum(net, g, node, k)
  {
    if k > 0 {
      AddedNode(net, f, g, node, k - 1);
    }
  }

  lemma {:induction false} AddedCore(net: Net, f: seq<nat>, g: seq<nat>, core: nat, k: nat)
    requires |f| == |g|
    ensures CoreSum(net, Added(f, g), core, k) == CoreSum(net, f, core, k) + CoreSum(net, g, core, k)
  {
    if k > 0 {
      AddedCore(net, f, g, core, k - 1);
    }
  }

  // The counts

  lemma {:induction false} NlrouteCount(net: Net, first: seq<nat>, remote: seq<nat>, second: seq<nat>, sent: seq<nat>, r: nat)
    requires net.Valid() && r < net.Size() == |first| == |sent|
    ensures Totals(Nlroute, net, first, remote, second, sent)[r]
      == WorldSum(Added(first, sent), net.Size()) + NodeSum(net, Added(first, sent), net.Node(r), net.cores)
         + CoreSum(net, remote, net.Core(r), net.nodes)
  {
    var t1, all := Returned(OverNode, net, first, sent), Added(first, sent);
    Whole(net, r);
    RankZero(net);
    assert Totals(Nlroute, net, first, remote, second, sent)[r] == t1[r] + Returned(OverCores, net, remote, t1)[r];
    hide Totals, Returned, NodeSum, CoreSum, WorldSum, Added, Net.Size, Net.Node, Net.Core, Net.Rank;
    forall x | 0 <= x < net.Size()
      ensures At(t1, x) == NodeSum(net, all, net.Node(x), net.cores)
    {
      ReturnedIs(OverNode, net, first, sent, x);
      AddedNode(net, first, sent, net.Node(x), net.cores);
    }
    ReturnedIs(OverCores, net, remote, t1, r);
    CoreOfNodes(net, t1, all, net.Core(r), net.nodes);
  }

  lemma {:induction false} NrrouteCount(net: Net, first: seq<nat>, remote: seq<nat>, second: seq<nat>, sent: seq<nat>, r: nat)
    requires net.Valid() && r < net.Size() == |remote| == |sent|
    ensures Totals(Nrroute, net, first, remote, second, sent)[r]
      == WorldSum(Added(remote, sent), net.Size()) + CoreSum(net, Added(remote, sent), net.Core(r), net.nodes)
         + NodeSum(net, second, net.Node(r), net.cores)
  {
    var t1, all := Returned(OverCores, net, remote, sent), Added(remote, sent);
    Whole(net, r);
    RankZero(net);
    assert Totals(Nrroute, net, first, remote, second, sent)[r] == t1[r] + Returned(OverNode, net, second, t1)[r];
    hide Totals, Returned, NodeSum, CoreSum, WorldSum, Added, CoreSums, Net.Size, Net.Node, Net.Core, Net.Rank;
    forall x | 0 <= x < net.Size()
      ensures At(t1, x) == CoreSum(net, all, net.Core(x), net.nodes)
    {
      ReturnedIs(OverCores, net, remote, sent, x);
      AddedCore(net, remote, sent, net.Core(x), net.nodes);
    }
    ReturnedIs(OverNode, net, second, t1, r);
    NodeOfCores(net, t1, all, net.Node(r), net.cores);
    CoreSumsAll(net, all, net.nodes);
  }

  lemma {:induction false} NorouteCount(net: Net, first: seq<nat>, remote: seq<nat>, second: seq<nat>, sent: seq<nat>, r: nat)
    requires net.Valid() && r < net.Size()
    ensures Totals(Noroute, net, first, remote, second, sent)[r] == WorldSum(remote, net.Size())
  {
    ReturnedIs(OverWorld, net, remote, [], r);
    NothingSum(net.Size());
  }

  lemma {:induction false} NothingSum(n: nat)
    ensures WorldSum([], n) == 0
  {
    if n > 0 {
      NothingSum(n - 1);
    }
  }

  /** The first k partners of x, each with what it has and the sum of its node. */
  function PartnerSum(net: Net, f: seq<nat>, remote: seq<nat>, x: nat, k: nat): nat
    requires net.cores > 0 && k <= |Group(net, x)|
  {
    if k == 0 then 0
    else
      var y := Group(net, x)[k - 1];
      PartnerSum(net, f, remote, x, k - 1) + At(remote, y) + NodeSum(net, f, net.Node(y), net.cores)
  }

  /** What a rank knows of after two stages: its own node, and its partners' nodes. */
  function Reach(net: Net, f: seq<nat>, remote: seq<nat>, x: nat): nat
    requires net.cores > 0
  {
    NodeSum(net, f, net.Node(x), net.cores) + PartnerSum(net, f, remote, x, |Group(net, x)|)
  }

  function ReachSum(net: Net, f: seq<nat>, remote: seq<nat>, node: nat, k: nat): nat
    requires net.cores > 0
  {
    if k == 0 then 0 else ReachSum(net, f, remote, node, k - 1) + Reach(net, f, remote, net.Rank(node, k - 1))
  }

  lemma {:induction false} OverPartnersSum(net: Net, remote: seq<nat>, t: seq<nat>, f: seq<nat>, x: nat, k: nat)
    requires net.Valid() && k <= |Group(net, x)|
    requires forall y | 0 <= y < net.Size() :: At(t, y) == NodeSum(net, f, net.Node(y), net.cores)
    ensures SumAt(remote, t, Group(net, x)[..k]) == PartnerSum(net, f, remote, x, k)
  {
    hide NodeSum, Net.Node, Net.Size, At, Members;
    if k > 0 {
      OverPartnersSum(net, remote, t, f, x, k - 1);
      SumAtPrefix(remote, t, Group(net, x), k - 1);
      MembersAre(net, net.Color(x), net.Size());
      assert Group(net, x)[k - 1] in Group(net, x);
    }
  }

  lemma {:induction false} ReachNode(net: Net, t: seq<nat>, f: seq<nat>, remote: seq<nat>, node: nat, k: nat)
    requires net.Valid() && node < net.nodes && k <= net.cores
    requires forall x | 0 <= x < net.Size() :: At(t, x) == Reach(net, f, remote, x)
    ensures NodeSum(net, t, node, k) == ReachSum(net, f, remote, node, k)
  {
    hide Reach, Net.Size, Net.Rank, At;
    if k > 0 {
      ReachNode(net, t, f, remote, node, k - 1);
      Parts(net, node, k - 1);
    }
  }

  lemma {:induction false} TwoStages(net: Net, first: seq<nat>, remote: seq<nat>, sent: seq<nat>, x: nat)
    requires net.Valid() && x < net.Size() == |first| == |sent|
    ensures var t1 := Returned(OverNode, net, first, sent);
      Plus(t1, Returned(OverPartners, net, remote, t1))[x] == Reach(net, Added(first, sent), remote, x)
  {
    var t1, all := Returned(OverNode, net, first, sent), Added(first, sent);
    assert Returned(OverPartners, net, remote, t1)[x] == SumAt(remote, t1, Group(net, x));
    hide Returned, NodeSum, PartnerSum, Added, Net.Size, Net.Node, Group;
    forall y | 0 <= y < net.Size()
      ensures At(t1, y) == NodeSum(net, all, net.Node(y), net.cores)
    {
      ReturnedIs(OverNode, net, first, sent, y);
      AddedNode(net, first, sent, net.Node(y), net.cores);
    }
    assert Group(net, x)[..|Group(net, x)|] == Group(net, x);
    OverPartnersSum(net, remote, t1, all, x, |Group(net, x)|);
  }

  lemma {:induction false} NlnrCount(net: Net, first: seq<nat>, remote: seq<nat>, second: seq<nat>, sent: seq<nat>, r: nat)
    requires net.Valid() && r < net.Size() == |first| == |sent|
    ensures Totals(Nlnr, net, first, remote, second, sent)[r]
      == Reach(net, Added(first, sent), remote, r) + NodeSum(net, second, net.Node(r), net.cores)
         + ReachSum(net, Added(first, sent), remote, net.Node(r), net.cores)
  {
    var t1, all := Returned(OverNode, net, first, sent), Added(first, sent);
    var t2 := Plus(t1, Returned(OverPartners, net, remote, t1));
    Whole(net, r);
    assert Totals(Nlnr, net, first, remote, second, sent)[r] == t2[r] + Returned(OverNode, net, second, t2)[r];
    hide Totals, Returned, NodeSum, Reach, ReachSum, Added, Net.Size, Net.Node, Plus;
    forall x | 0 <= x < net.Size()
      ensures At(t2, x) == Reach(net, all, remote, x)
    {
      TwoStages(net, first, remote, sent, x);
    }
    ReturnedIs(OverNode, net, second, t2, r);
    ReachNode(net, t2, all, remote, net.Node(r), net.cores);
  }
}
