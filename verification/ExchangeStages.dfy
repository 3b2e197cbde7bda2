/**
 The stages of an exchange as collectives over groups. A rank finishes a stage only when every member
 of its group has begun it; no stage runs over all ranks in the routed mailboxes, and yet no rank comes
 to the end of an exchange before every rank has entered it.
 */
module ExchangeStages {
  import opened Network
  import opened Routing
  import opened ExchangeTotals
  import opened Sums

  /** The groups of the stages, in order. */
  function Stages(route: Route): (stages: seq<Scope>)
    ensures 0 < |stages| <= 3
  {
    match route
    case Nlnr => [OverNode, OverPartners, OverNode]
    case Nlroute => [OverNode, OverCores]
    case Nrroute => [OverCores, OverNode]
    case Noroute => [OverWorld]
  }

  /** Exchanges a rank has left, stages it has finished of the one after, and whether it has begun the next stage. */
  datatype Place = Place(exchange: nat, stage: nat, waiting: bool) {
    predicate Inside() { stage > 0 || waiting }

    predicate Begun(e: nat, j: nat) {
      exchange > e || (exchange == e && (stage > j || (stage == j && waiting)))
    }

    predicate Finished(e: nat, j: nat) { exchange > e || (exchange == e && stage > j) }

    function Begin(): Place { this.(waiting := true) }

    function Finish(): Place { this.(stage := stage + 1, waiting := false) }

    function Leave(): Place { Place(exchange + 1, 0, false) }
  }

  ghost predicate CanBegin(route: Route, places: seq<Place>, r: nat) {
    r < |places| && !places[r].waiting && places[r].stage < |Stages(route)|
  }

  ghost predicate CanFinish(route: Route, net: Net, places: seq<Place>, r: nat)
    requires net.cores > 0
  {
    && r < |places| && places[r].waiting && places[r].stage < |Stages(route)|
    && forall x | x in MembersOf(Stages(route)[places[r].stage], net, r) ::
         x < |places| && places[x].Begun(places[r].exchange, places[r].stage)
  }

  ghost predicate Through(route: Route, places: seq<Place>, r: nat) {
    r < |places| && places[r].stage == |Stages(route)|
  }

  /** Whatever stage a rank has finished, the members of its group have begun. */
  ghost predicate Met(route: Route, net: Net, places: seq<Place>, r: nat, e: nat, j: nat)
    requires net.cores > 0 && r < |places| && j < |Stages(route)|
  {
    places[r].Finished(e, j) ==>
      forall x | x in MembersOf(Stages(route)[j], net, r) :: x < |places| && places[x].Begun(e, j)
  }

  ghost predicate Orderly(route: Route, net: Net, places: seq<Place>)
    requires net.cores > 0
  {
    && |places| == net.Size()
    && (forall r | 0 <= r < |places| ::
          places[r].stage <= |Stages(route)| && (places[r].waiting ==> places[r].stage < |Stages(route)|))
    && (forall r, e: nat, j | 0 <= r < |places| && 0 <= j < |Stages(route)| :: Met(route, net, places, r, e, j))
  }

  lemma {:induction false} StartOrderly(route: Route, net: Net, places: seq<Place>)
    requires net.cores > 0 && |places| == net.Size()
    requires forall r | 0 <= r < |places| :: places[r].exchange == 0 && places[r].stage == 0
    ensures Orderly(route, net, places)
  {
  }

  ghost predicate Moves(route: Route, net: Net, places: seq<Place>, r: nat, place: Place)
    requires net.cores > 0
  {
    || (CanBegin(route, places, r) && place == places[r].Begin())
    || (CanFinish(route, net, places, r) && place == places[r].Finish())
    || (Through(route, places, r) && place == places[r].Leave())
  }

  lemma {:induction false} MoveOrderly(route: Route, net: Net, places: seq<Place>, r: nat, place: Place)
    requires net.cores > 0 && Orderly(route, net, places) && Moves(route, net, places, r, place)
    ensures Orderly(route, net, places[r := place])
  {
    hide Stages, MembersOf;
    var places' := places[r := place];
    forall x, e: nat, j | 0 <= x < |places| && 0 <= j < |Stages(route)|
      ensures Met(route, net, places', x, e, j)
    {
      assert Met(route, net, places, x, e, j);
    }
  }

  /** What one rank has finished, another of the group has begun, and so has finished all before. */
  lemma {:induction false} MemberHasBegun(route: Route, net: Net, places: seq<Place>, r: nat, e: nat, j: nat, x: nat)
    requires net.cores > 0 && Orderly(route, net, places) && r < |places| && j < |Stages(route)|
    requires places[r].Finished(e, j) && x in MembersOf(Stages(route)[j], net, r)
    ensures x < |places| && places[x].Begun(e, j)
    ensures j > 0 ==> places[x].Finished(e, j - 1)
  {
    hide MembersOf;
    assert Met(route, net, places, r, e, j);
  }

  /** Once a rank has finished the last stage of an exchange, every rank has entered it. */
  lemma {:induction false} AllHaveEntered(route: Route, net: Net, places: seq<Place>, r: nat, e: nat, z: nat)
    requires net.Valid() && Orderly(route, net, places) && r < |places| && z < |places|
    requires places[r].Finished(e, |Stages(route)| - 1)
    ensures places[z].Begun(e, 0)
  {
    hide MembersOf, Met, Net.Size, Net.Node, Net.Core;
    match route
    case Nlnr =>
      var x, y := Bridge(net, r, z);
      NodeMember(net, r, x);
      MemberHasBegun(route, net, places, r, e, 2, x);
      MemberHasBegun(route, net, places, x, e, 1, y);
      NodeMember(net, y, z);
      MemberHasBegun(route, net, places, y, e, 0, z);
    case Nlroute =>
      var x := Corner(net, z, r);
      CoreMember(net, r, x);
      NodeMember(net, x, z);
      MemberHasBegun(route, net, places, r, e, 1, x);
      MemberHasBegun(route, net, places, x, e, 0, z);
    case Nrroute =>
      var x := Corner(net, r, z);
      NodeMember(net, r, x);
      CoreMember(net, x, z);
      MemberHasBegun(route, net, places, r, e, 1, x);
      MemberHasBegun(route, net, places, x, e, 0, z);
    case Noroute =>
      WorldMember(net, r, z);
      MemberHasBegun(route, net, places, r, e, 0, z);
  }

  // Going on

  /** How far a rank is in its exchange. */
  function Pace(place: Place): nat { 2 * place.stage + if place.waiting then 1 else 0 }

  lemma {:induction false} MembersBelow(which: Scope, net: Net, r: nat, x: nat)
    requires net.cores > 0 && r < net.Size() && x in MembersOf(which, net, r)
    ensures x < net.Size()
  {
    Whole(net, r);
    match which
    case OverNode =>
      var j :| 0 <= j < net.cores && x == net.Rank(net.Node(r), j);
      Parts(net, net.Node(r), j);
    case OverPartners => MembersAre(net, net.Color(r), net.Size());
    case OverCores =>
      var i :| 0 <= i < net.nodes && x == net.Rank(i, net.Core(r));
      Parts(net, i, net.Core(r));
    case OverWorld =>
  }

  /** Of the ranks in exchange e, one that is least far. */
  lemma {:induction false} Slowest(places: seq<Place>, e: nat, r: nat) returns (x: nat)
    requires r < |places| && places[r].exchange == e
    ensures x < |places| && places[x].exchange == e
    ensures forall y | 0 <= y < |places| && places[y].exchange == e :: Pace(places[x]) <= Pace(places[y])
    decreases Pace(places[r])
  {
    if y: nat :| y < |places| && places[y].exchange == e && Pace(places[y]) < Pace(places[r]) {
      x := Slowest(places, e, y);
    } else {
      x := r;
    }
  }

  /** With all ranks in exchange e or past it, one in it is through, or some rank can go on in its stages. */
  lemma {:induction false} StagesGoOn(route: Route, net: Net, places: seq<Place>, r: nat) returns (x: nat)
    requires net.cores > 0 && Orderly(route, net, places) && r < |places|
    requires forall y | 0 <= y < |places| :: places[y].exchange >= places[r].exchange
    ensures Through(route, places, r) || CanBegin(route, places, x) || CanFinish(route, net, places, x)
    ensures x < |places| && places[x].exchange == places[r].exchange
  {
    hide MembersOf, Met, Stages, Net.Size;
    x := Slowest(places, places[r].exchange, r);
    if places[x].waiting {
      forall y | y in MembersOf(Stages(route)[places[x].stage], net, x)
        ensures y < |places| && places[y].Begun(places[x].exchange, places[x].stage)
      {
        MembersBelow(Stages(route)[places[x].stage], net, x, y);
      }
    }
  }

  /** Stages a rank has left to begin and to finish. */
  function StepsLeft(place: Place): (n: nat)
    ensures n <= 6
  {
    if Pace(place) <= 6 then 6 - Pace(place) else 0
  }

  function AllStepsLeft(places: seq<Place>): (ns: seq<nat>)
    ensures |ns| == |places| && forall r | 0 <= r < |ns| :: ns[r] == StepsLeft(places[r])
  {
    seq(|places|, (r: nat) requires r < |places| => StepsLeft(places[r]))
  }

  lemma {:induction false} StageDecreases(route: Route, places: seq<Place>, r: nat, place: Place)
    requires r < |places| && places[r].stage < |Stages(route)|
    requires (place == places[r].Begin() && !places[r].waiting) || (place == places[r].Finish() && places[r].waiting)
    ensures Sum(AllStepsLeft(places[r := place])) < Sum(AllStepsLeft(places))
  {
    OneFewer(AllStepsLeft(places), AllStepsLeft(places[r := place]), r);
  }
}
