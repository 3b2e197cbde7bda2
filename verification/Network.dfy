/**
 Nodes, cores and the groups in which ranks exchange messages. World ranks are blocked by node;
 the groups come from splitting the world by a colour and ordering by world rank.
 */
module Network {
  import opened Arithmetic

  datatype Net = Net(nodes: nat, cores: nat) {
    ghost predicate Valid() { 1 <= nodes <= 0x100_0000 && 1 <= cores <= 64 }

    function Size(): nat { nodes * cores }

    function Rank(node: nat, core: nat): nat { node * cores + core }

    function Node(rank: nat): nat
      requires cores > 0
    {
      rank / cores
    }

    function Core(rank: nat): nat
      requires cores > 0
    {
      rank % cores
    }

    /** The layer of a node: which core of the other nodes speaks to it. */
    function Layer(node: nat): nat
      requires cores > 0
    {
      node % cores
    }

    /** Nodes come in rows of as many as a node has cores; a row has one node of each layer. */
    function Row(node: nat): nat
      requires cores > 0
    {
      node / cores
    }

    /** Colour by which the group of local and remote partners is split off. */
    function Color(rank: nat): nat
      requires cores > 0
    {
      var core, layer := Core(rank), Layer(Node(rank));
      (if core < layer then layer else core) * cores + if core < layer then core else layer
    }
  }

  lemma {:induction false} BlockBound(node: nat, core: nat, nodes: nat, cores: nat)
    requires core < cores
    ensures node < nodes <==> node * cores + core < nodes * cores
  {
    if node < nodes {
      TimesLess(node, nodes, cores);
    } else if nodes < node {
      TimesLess(nodes, node, cores);
    }
  }

  lemma {:induction false} Parts(net: Net, node: nat, core: nat)
    requires core < net.cores
    ensures net.Node(net.Rank(node, core)) == node && net.Core(net.Rank(node, core)) == core
    ensures node < net.nodes <==> net.Rank(node, core) < net.Size()
  {
    QuotientIs(net.Rank(node, core), node, core, net.cores);
    BlockBound(node, core, net.nodes, net.cores);
  }

  lemma {:induction false} Whole(net: Net, rank: nat)
    requires net.cores > 0
    ensures rank == net.Rank(net.Node(rank), net.Core(rank)) && net.Core(rank) < net.cores
    ensures net.Node(rank) < net.nodes <==> rank < net.Size()
  {
    Quotient(rank, net.cores);
    Parts(net, net.Node(rank), net.Core(rank));
  }

  /** Equal colours: the same unordered pair of core and layer. */
  lemma {:induction false} SameColor(net: Net, r: nat, x: nat)
    requires net.cores > 0
    ensures net.Color(r) == net.Color(x) <==>
      var c, l, d, m := net.Core(r), net.Layer(net.Node(r)), net.Core(x), net.Layer(net.Node(x));
      (c == d && l == m) || (c == m && l == d)
  {
    var c, l, d, m := net.Core(r), net.Layer(net.Node(r)), net.Core(x), net.Layer(net.Node(x));
    var hi, lo := if c < l then l else c, if c < l then c else l;
    var hi', lo' := if d < m then m else d, if d < m then d else m;
    if net.Color(r) == net.Color(x) {
      QuotientUnique(hi, lo, hi', lo', net.cores);
    }
  }

  /** Members below n of the group with a colour, in the order of their world ranks. */
  function Members(net: Net, color: nat, n: nat): seq<nat>
    requires net.cores > 0
  {
    if n == 0 then [] else Members(net, color, n - 1) + if net.Color(n - 1) == color then [n - 1] else []
  }

  function Group(net: Net, rank: nat): seq<nat>
    requires net.cores > 0
  {
    Members(net, net.Color(rank), net.Size())
  }

  lemma {:induction false} MembersAre(net: Net, color: nat, n: nat)
    requires net.cores > 0
    ensures forall x: nat :: x in Members(net, color, n) <==> x < n && net.Color(x) == color
    ensures forall i, j | 0 <= i < j < |Members(net, color, n)| ::
              Members(net, color, n)[i] < Members(net, color, n)[j]
  {
    hide Net.Color;
    if n > 0 {
      MembersAre(net, color, n - 1);
      var before := Members(net, color, n - 1);
      forall i | 0 <= i < |before|
        ensures before[i] < n - 1
      {
        assert before[i] in before;
      }
    }
  }

  /** A member's rank in its group is the number of members before it. */
  lemma {:induction false} MemberIndex(net: Net, color: nat, x: nat, n: nat)
    requires net.cores > 0 && x < n && net.Color(x) == color
    ensures |Members(net, color, x)| < |Members(net, color, n)|
    ensures Members(net, color, n)[|Members(net, color, x)|] == x
  {
    if x < n - 1 {
      MemberIndex(net, color, x, n - 1);
    }
  }

  /** Group rank of the member on a node, in closed form. */
  function IndexOf(net: Net, a: nat, b: nat, node: nat): nat
    requires net.cores > 0
  {
    var q, layer := net.Row(node), net.Layer(node);
    if a == b then q + (if layer > a then 1 else 0)
    else 2 * q + (if layer > a then 1 else 0) + if layer > b then 1 else 0
  }

  function PairColor(net: Net, a: nat, b: nat): nat {
    (if a < b then b else a) * net.cores + if a < b then a else b
  }

  /** Does the node have a member of the group of pair a, b; and on which core. */
  predicate HasMember(net: Net, a: nat, b: nat, node: nat)
    requires net.cores > 0
  {
    net.Layer(node) == a || net.Layer(node) == b
  }

  function MemberCore(net: Net, a: nat, b: nat, node: nat): nat
    requires net.cores > 0
  {
    if net.Layer(node) == a then b else a
  }

  lemma {:induction false} MemberAt(net: Net, a: nat, b: nat, node: nat, core: nat)
    requires a < net.cores && b < net.cores && core < net.cores
    ensures net.Color(net.Rank(node, core)) == PairColor(net, a, b) <==>
      HasMember(net, a, b, node) && core == MemberCore(net, a, b, node)
  {
    Parts(net, node, core);
    Quotient(node, net.cores);
    var layer := net.Layer(node);
    var hi, lo := if core < layer then layer else core, if core < layer then core else layer;
    var hi', lo' := if a < b then b else a, if a < b then a else b;
    if net.Color(net.Rank(node, core)) == PairColor(net, a, b) {
      QuotientUnique(hi, lo, hi', lo', net.cores);
    }
  }

  /** Members among the first cores of a node. */
  lemma {:induction false} CountInNode(net: Net, a: nat, b: nat, node: nat, core: nat)
    requires a < net.cores && b < net.cores && core <= net.cores
    ensures |Members(net, PairColor(net, a, b), net.Rank(node, core))|
      == |Members(net, PairColor(net, a, b), net.Rank(node, 0))|
         + if HasMember(net, a, b, node) && MemberCore(net, a, b, node) < core then 1 else 0
  {
    if core > 0 {
      CountInNode(net, a, b, node, core - 1);
      MemberAt(net, a, b, node, core - 1);
      assert net.Rank(node, core) - 1 == net.Rank(node, core - 1);
    }
  }

  lemma {:induction false} NextLayer(node: nat, k: nat)
    requires k > 0
    ensures if node % k + 1 == k then (node + 1) / k == node / k + 1 && (node + 1) % k == 0
            else (node + 1) / k == node / k && (node + 1) % k == node % k + 1
  {
    var q, c := node / k, node % k;
    Quotient(node, k);
    StepsTo(q, c, k);
    if c + 1 == k {
      QuotientIs(node + 1, q + 1, 0, k);
    } else {
      QuotientIs(node + 1, q, c + 1, k);
    }
  }

  lemma {:induction false} StepsTo(q: nat, c: nat, k: nat)
    ensures c + 1 == k ==> q * k + c + 1 == (q + 1) * k
  {
  }

  /** Members on all nodes before one. */
  lemma {:induction false} CountBefore(net: Net, a: nat, b: nat, node: nat)
    requires a < net.cores && b < net.cores
    ensures |Members(net, PairColor(net, a, b), net.Rank(node, 0))| == IndexOf(net, a, b, node)
  {
    if node > 0 {
      CountBefore(net, a, b, node - 1);
      CountInNode(net, a, b, node - 1, net.cores);
      assert net.Rank(node - 1, net.cores) == net.Rank(node, 0) by {
        assert (node - 1) * net.cores + net.cores == node * net.cores;
      }
      NextLayer(node - 1, net.cores);
      Quotient(node - 1, net.cores);
    }
  }

  /** The member on a node is found in the group at the closed-form index. */
  lemma {:induction false} GroupMember(net: Net, a: nat, b: nat, node: nat)
    requires net.Valid() && a < net.cores && b < net.cores && node < net.nodes && HasMember(net, a, b, node)
    ensures var g := Members(net, PairColor(net, a, b), net.Size()); var i := IndexOf(net, a, b, node);
      i < |g| && g[i] == net.Rank(node, MemberCore(net, a, b, node))
  {
    var core := MemberCore(net, a, b, node);
    var x := net.Rank(node, core);
    Parts(net, node, core);
    MemberAt(net, a, b, node, core);
    CountInNode(net, a, b, node, core);
    CountBefore(net, a, b, node);
    MemberIndex(net, PairColor(net, a, b), x, net.Size());
  }

  lemma {:induction false} ColorIsPair(net: Net, r: nat)
    requires net.cores > 0
    ensures net.Color(r) == PairColor(net, net.Core(r), net.Layer(net.Node(r)))
    ensures net.Core(r) < net.cores && net.Layer(net.Node(r)) < net.cores
  {
    Quotient(net.Node(r), net.cores);
    Quotient(r, net.cores);
  }
}
