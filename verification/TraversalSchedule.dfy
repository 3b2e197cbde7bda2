/**
 The loops of a traversal and its exchanges. Every rank has a position in its loops; a send that fills
 its batch, and the loop's last test, take it into an exchange. The k-th exchange of a rank is the k-th
 of every other: it hands out what was queued before it, and no rank leaves it before all have entered.
 A rank that has left may work on, and queue messages for the exchange after, while others are inside.
 */
module TraversalSchedule {
  import opened Graphs
  import opened Traversal
  import opened TraversalInvariant
  import opened TraversalOrder
  import opened TraversalProgress
  import opened TraversalExactness

  /** Controllers, Vertices: the initial visit of one each; AtPop: about to take a visitor up; Outer: the last test. */
  datatype Position = Controllers | Vertices | OuterDrain | Test | InnerDrain | AtPop | Outer | Gone | Failed

  datatype Mail = Mail(net: multiset<Message>, bcasts: multiset<Message>)

  const NO_MAIL: Mail := Mail(multiset{}, multiset{})

  /**
   inside: ranks in an exchange; ahead: ranks that have left an exchange others are still in. now, next:
   what is queued for this exchange and the one after. carried, promised: was anything queued for them?
   */
  datatype Schedule = Schedule(
    system: System,
    at: seq<Position>,
    inside: set<nat>,
    ahead: set<nat>,
    now: Mail,
    next: Mail,
    carried: bool,
    promised: bool)

  /** An event of the system, a step through the loops, or the end of an exchange for one rank. */
  datatype Move =
    | Act(ev: Event, exchange: bool)
    | Proceed(r: nat)
    | Leave(r: nat)

  predicate NoneLeft(p: Process) {
    p.queue == multiset{} && p.controllers == []
  }

  function Plus(a: Mail, b: Mail): Mail {
    Mail(a.net + b.net, a.bcasts + b.bcasts)
  }

  // --- Events in their place --------------------------------------------------------------------

  /** Messages an event queues. */
  ghost function Queued(cfg: Config, s: System, ev: Event): Mail
    requires cfg.Valid() && Shape(cfg, s) && Enabled(cfg, s, ev)
  {
    match ev
    case Continue(r) => Mail(RelaxEdge(cfg, r, s.procs[r]).1, multiset{})
    case Finish(r) =>
      var a := s.procs[r].activity;
      Mail(multiset{}, if a.announce then Broadcast(cfg.g.ranks, r, a.visitor) else multiset{})
    case _ => NO_MAIL
  }

  /** The message an event takes out of an exchange. */
  function Handed(ev: Event): Mail {
    match ev
    case Deliver(m) => Mail(multiset{m}, multiset{})
    case DeliverBroadcast(m) => Mail(multiset{}, multiset{m})
    case _ => NO_MAIL
  }

  predicate Delivery(ev: Event) { ev.Deliver? || ev.DeliverBroadcast? }

  /** Where in the loops the event happens: deliveries inside an exchange, everything else outside. */
  ghost predicate InPlace(cfg: Config, t: Schedule, ev: Event)
    requires cfg.Valid() && |t.at| == cfg.g.ranks && Actor(ev) < cfg.g.ranks
  {
    var r := Actor(ev);
    if Delivery(ev) then
      r in t.inside && r !in t.ahead && Handed(ev).net <= t.now.net && Handed(ev).bcasts <= t.now.bcasts
    else
      && r !in t.inside
      && match ev
         case InitVisit(_, u) => if u in cfg.g.delegates then t.at[r].Controllers? else t.at[r].Vertices?
         case PopController(_) => t.at[r].OuterDrain? || t.at[r].InnerDrain?
         case Pop(_, _) => t.at[r].AtPop?
         case _ => true
  }

  /** A visit taken up in one of these loops comes back to the place after it. */
  function PlaceAfter(at: Position, ev: Event): Position {
    match ev
    case InitVisit(_, _) => if at.Controllers? then Vertices else OuterDrain
    case Pop(_, _) => Test
    case _ => at
  }

  ghost predicate CanAct(cfg: Config, t: Schedule, ev: Event, exchange: bool)
    requires cfg.Valid() && |t.at| == cfg.g.ranks
  {
    && Shape(cfg, t.system) && Enabled(cfg, t.system, ev) && Actor(ev) < cfg.g.ranks && InPlace(cfg, t, ev)
    && (exchange ==> Queued(cfg, t.system, ev) != NO_MAIL)
  }

  ghost function Acted(cfg: Config, t: Schedule, ev: Event, exchange: bool): Schedule
    requires cfg.Valid() && |t.at| == cfg.g.ranks && CanAct(cfg, t, ev, exchange)
  {
    var r := Actor(ev);
    var sent := Queued(cfg, t.system, ev);
    Schedule(
      Next(cfg, t.system, ev),
      t.at[r := PlaceAfter(t.at[r], ev)],
      if exchange then t.inside + {r} else t.inside,
      t.ahead,
      Mail(t.now.net - Handed(ev).net + (if r in t.ahead then multiset{} else sent.net),
           t.now.bcasts - Handed(ev).bcasts + if r in t.ahead then multiset{} else sent.bcasts),
      if r in t.ahead then Plus(t.next, sent) else t.next,
      t.carried || (r !in t.ahead && sent != NO_MAIL),
      t.promised || (r in t.ahead && sent != NO_MAIL))
  }

  // --- Steps through the loops ------------------------------------------------------------------

  /** The initial visits that are due at a position. */
  ghost predicate Due(cfg: Config, p: Process, at: Position) {
    || (at.Controllers? && exists u :: u in p.toInit && u in cfg.g.delegates)
    || (at.Vertices? && exists u :: u in p.toInit && u !in cfg.g.delegates)
  }

  /** A rank outside of exchanges and visits goes on once the loop it is in has nothing to do. */
  ghost predicate CanProceed(cfg: Config, t: Schedule, r: nat)
    requires |t.at| == cfg.g.ranks
  {
    && r < cfg.g.ranks == |t.system.procs| && r !in t.inside && t.system.procs[r].activity.Idle?
    && !Due(cfg, t.system.procs[r], t.at[r])
    && (t.at[r].OuterDrain? || t.at[r].InnerDrain? ==> t.system.procs[r].controllers == [])
    && (t.at[r].AtPop? ==> t.system.procs[r].queue == multiset{})
    && !t.at[r].Gone? && !t.at[r].Failed?
  }

  /** The last test passes when nothing is left here, and then asks the mailbox. */
  ghost predicate Asks(t: Schedule, r: nat)
    requires r < |t.at| == |t.system.procs|
  {
    t.at[r].Outer? && t.system.procs[r].toInit == {} && NoneLeft(t.system.procs[r])
  }

  ghost function PlaceNext(t: Schedule, r: nat): Position
    requires r < |t.at| == |t.system.procs|
  {
    match t.at[r]
    case Controllers => Vertices
    case Vertices => OuterDrain
    case OuterDrain => Test
    case Test => if NoneLeft(t.system.procs[r]) then Outer else InnerDrain
    case InnerDrain => AtPop
    case AtPop => Failed
    case Outer => if Asks(t, r) then Outer else Controllers
    case Gone => Gone
    case Failed => Failed
  }

  ghost function Proceeded(cfg: Config, t: Schedule, r: nat): Schedule
    requires |t.at| == cfg.g.ranks && CanProceed(cfg, t, r)
  {
    t.(at := t.at[r := PlaceNext(t, r)], inside := if Asks(t, r) then t.inside + {r} else t.inside)
  }

  // --- The end of an exchange -------------------------------------------------------------------

  ghost predicate NoneFor(mail: Mail, r: nat) {
    && (forall m | m in mail.net :: m.dest != r)
    && (forall m | m in mail.bcasts :: m.dest != r)
  }

  ghost predicate CanLeave(cfg: Config, t: Schedule, r: nat) {
    && r < cfg.g.ranks && r in t.inside && r !in t.ahead
    && (forall x: nat | x < cfg.g.ranks :: x in t.inside || x in t.ahead)
    && NoneFor(t.now, r)
  }

  /** The count is zero exactly when nothing was queued for this exchange by any rank. */
  function PlaceLeft(t: Schedule, at: Position): Position {
    if at.Outer? then if t.carried then Controllers else Gone else at
  }

  /** Once every rank has left an exchange, the next one is the one messages are queued for. */
  ghost function Turned(cfg: Config, t: Schedule): Schedule {
    if forall x: nat | x < cfg.g.ranks :: x in t.ahead then
      Schedule(t.system, t.at, t.inside, {}, t.next, NO_MAIL, t.promised, false)
    else
      t
  }

  ghost function Released(t: Schedule, r: nat): Schedule
    requires r < |t.at|
  {
    t.(at := t.at[r := PlaceLeft(t, t.at[r])], inside := t.inside - {r}, ahead := t.ahead + {r})
  }

  ghost function Left(cfg: Config, t: Schedule, r: nat): Schedule
    requires |t.at| == cfg.g.ranks && CanLeave(cfg, t, r)
  {
    Turned(cfg, Released(t, r))
  }

  /**
   One turn of the sweep: after the delegate it starts, a rank comes to its vertices and stays until it has started
   one, if there is any; after that it drains.
   */
  lemma {:induction false} SweepTurn(cfg: Config, t: Schedule, r: nat, u: nat, exchange: bool)
    requires cfg.Valid() && |t.at| == cfg.g.ranks && r < cfg.g.ranks && CanAct(cfg, t, InitVisit(r, u), exchange)
    ensures var t' := Acted(cfg, t, InitVisit(r, u), exchange);
      && (u in cfg.g.delegates ==> t.at[r].Controllers? && t'.at[r].Vertices?)
      && (u !in cfg.g.delegates ==> t.at[r].Vertices? && t'.at[r].OuterDrain?)
      && (u in cfg.g.delegates && CanProceed(cfg, t', r) ==> forall v | v in t'.system.procs[r].toInit :: v in cfg.g.delegates)
  {
    hide Shape, Enabled, Next, Queued;
  }

  // --- Runs -------------------------------------------------------------------------------------

  ghost predicate Can(cfg: Config, t: Schedule, mv: Move)
    requires cfg.Valid() && |t.at| == cfg.g.ranks
  {
    match mv
    case Act(ev, exchange) => CanAct(cfg, t, ev, exchange)
    case Proceed(r) => CanProceed(cfg, t, r)
    case Leave(r) => CanLeave(cfg, t, r)
  }

  ghost function Moved(cfg: Config, t: Schedule, mv: Move): (t': Schedule)
    requires cfg.Valid() && |t.at| == cfg.g.ranks && Can(cfg, t, mv)
    ensures |t'.at| == cfg.g.ranks
  {
    match mv
    case Act(ev, exchange) => Acted(cfg, t, ev, exchange)
    case Proceed(r) => Proceeded(cfg, t, r)
    case Leave(r) => Left(cfg, t, r)
  }

  ghost predicate Scheduled(cfg: Config, t: Schedule, moves: seq<Move>, t': Schedule)
    requires cfg.Valid() && |t.at| == cfg.g.ranks
    decreases |moves|
  {
    if moves == [] then
      t == t'
    else
      Can(cfg, t, moves[0]) && Scheduled(cfg, Moved(cfg, t, moves[0]), moves[1..], t')
  }

  /** Every rank at the top of its loop; rank 0's first send may already have to exchange. */
  ghost predicate Starts(cfg: Config, t: Schedule)
    requires cfg.Valid()
  {
    && t.system == InitialSystem(cfg)
    && |t.at| == cfg.g.ranks && (forall r | 0 <= r < cfg.g.ranks :: t.at[r] == Controllers)
    && t.inside <= {0} && (t.inside != {} ==> t.system.net != multiset{}) && t.ahead == {}
    && t.now == Mail(t.system.net, multiset{}) && t.next == NO_MAIL
    && t.carried == (t.system.net != multiset{}) && !t.promised
  }

  // --- What every move keeps --------------------------------------------------------------------

  ghost predicate Nothing(mail: Mail) { mail == NO_MAIL }

  ghost predicate RankOk(t: Schedule, r: nat)
    requires r < |t.at| == |t.system.procs|
  {
    && (r in t.inside && !t.at[r].Outer? ==> if r in t.ahead then t.promised else t.carried)
    && (t.at[r].Outer? ==> t.system.procs[r].activity.Idle? && (r in t.inside || NoneLeft(t.system.procs[r])))
    && (r in t.inside && t.at[r].Outer? ==> IdleProcess(t.system.procs[r]) || (r !in t.ahead && t.carried))
    && (r in t.ahead && !t.carried ==> t.at[r].Gone?)
  }

  /** A rank waiting in its last test, or gone, in a system with nothing left. */
  ghost predicate RankDone(t: Schedule, r: nat)
    requires r < |t.at| == |t.system.procs|
  {
    && IdleProcess(t.system.procs[r])
    && if t.at[r].Gone? then r !in t.inside else t.at[r].Outer? && r in t.inside && r !in t.ahead
  }

  ghost predicate Done(t: Schedule)
    requires |t.at| == |t.system.procs|
  {
    !t.carried && !t.promised && forall r | 0 <= r < |t.at| :: RankDone(t, r)
  }

  predicate AllGone(t: Schedule) {
    forall r | 0 <= r < |t.at| :: t.at[r].Gone?
  }

  ghost predicate MailOk(t: Schedule) {
    && t.system.net == t.now.net + t.next.net && t.system.bcasts == t.now.bcasts + t.next.bcasts
    && (!Nothing(t.now) ==> t.carried) && (!Nothing(t.next) ==> t.promised) && (t.promised ==> t.carried)
  }

  /** Once a rank has left, all have entered, and nothing is left for those that have left. */
  ghost predicate Sealed(cfg: Config, t: Schedule) {
    && (t.ahead != {} ==> forall x: nat | x < cfg.g.ranks :: x in t.inside || x in t.ahead)
    && (forall r | r in t.ahead :: r < cfg.g.ranks && NoneFor(t.now, r))
  }

  ghost predicate Kept(cfg: Config, t: Schedule)
    requires cfg.Valid()
  {
    && Invariant(cfg, t.system) && |t.at| == |t.system.procs| == cfg.g.ranks
    && MailOk(t) && Sealed(cfg, t)
    && (forall r | 0 <= r < |t.at| :: RankOk(t, r))
    && (forall r | 0 <= r < |t.at| && t.at[r].Gone? :: Done(t) && (r in t.ahead || AllGone(t)))
  }

  lemma {:induction false} DeliveryCarried(t: Schedule, ev: Event)
    requires MailOk(t) && Delivery(ev) && Handed(ev).net <= t.now.net && Handed(ev).bcasts <= t.now.bcasts
    ensures t.carried
  {
    match ev {
      case Deliver(m) => assert m in t.now.net;
      case DeliverBroadcast(m) => assert m in t.now.bcasts;
      case _ =>
    }
  }

  lemma {:induction false} MoverBusy(cfg: Config, s: System, ev: Event)
    requires cfg.Valid() && Shape(cfg, s) && Enabled(cfg, s, ev) && !Delivery(ev)
    ensures Actor(ev) < |s.procs| && !IdleProcess(s.procs[Actor(ev)])
  {
    hide ShapedRank;
  }

  lemma {:induction false} DoneIsStill(cfg: Config, t: Schedule, ev: Event, exchange: bool)
    requires cfg.Valid() && Kept(cfg, t) && CanAct(cfg, t, ev, exchange)
    ensures !Done(t) && forall r | 0 <= r < |t.at| :: !t.at[r].Gone?
  {
    hide Invariant, RankOk, Sealed, Shape, MailOk, Enabled, Queued;
    if Delivery(ev) {
      DeliveryCarried(t, ev);
    } else {
      MoverBusy(cfg, t.system, ev);
      assert !RankDone(t, Actor(ev));
    }
  }

  lemma {:induction false} ActMail(cfg: Config, t: Schedule, ev: Event, exchange: bool)
    requires cfg.Valid() && Kept(cfg, t) && CanAct(cfg, t, ev, exchange)
    requires Actor(ev) in t.ahead && !Delivery(ev) ==> t.carried
    ensures MailOk(Acted(cfg, t, ev, exchange))
  {
    hide Invariant, RankOk, Sealed, Shape, Done, NextProcess, NextNet, NextBroadcasts, Enabled, Queued;
    var s, t', sent := t.system, Acted(cfg, t, ev, exchange), Queued(cfg, t.system, ev);
    NextMail(cfg, s, ev);
    SplitMail(s.net, t.now.net, t.next.net, Handed(ev).net, sent.net);
    SplitMail(s.bcasts, t.now.bcasts, t.next.bcasts, Handed(ev).bcasts, sent.bcasts);
  }

  /** Messages of the system after an event: one may be taken, some may be queued. */
  lemma {:induction false} NextMail(cfg: Config, s: System, ev: Event)
    requires cfg.Valid() && Shape(cfg, s) && Enabled(cfg, s, ev)
    ensures Next(cfg, s, ev).net == s.net - Handed(ev).net + Queued(cfg, s, ev).net
    ensures Next(cfg, s, ev).bcasts == s.bcasts - Handed(ev).bcasts + Queued(cfg, s, ev).bcasts
    ensures Delivery(ev) ==> Queued(cfg, s, ev) == NO_MAIL
    ensures !Delivery(ev) ==> Handed(ev) == NO_MAIL
  {
    hide Shape, RelaxEdge, Broadcast, NextProcess;
    NoMail(s.net, Handed(ev).net, Queued(cfg, s, ev).net);
    NoMail(s.bcasts, Handed(ev).bcasts, Queued(cfg, s, ev).bcasts);
  }

  lemma {:induction false} NoMail<T>(a: multiset<T>, taken: multiset<T>, sent: multiset<T>)
    ensures a - multiset{} + sent == a + sent
    ensures a - taken + multiset{} == a - taken
    ensures a - multiset{} + multiset{} == a
  {
  }

  lemma {:induction false} SplitMail<T>(all: multiset<T>, now: multiset<T>, next: multiset<T>, taken: multiset<T>, sent: multiset<T>)
    requires all == now + next && taken <= now
    ensures all - taken + sent == (now - taken + sent) + next
    ensures all - taken + sent == (now - taken + multiset{}) + (next + sent)
  {
  }

  lemma {:induction false} ActSealed(cfg: Config, t: Schedule, ev: Event, exchange: bool)
    requires cfg.Valid() && Kept(cfg, t) && CanAct(cfg, t, ev, exchange)
    ensures Sealed(cfg, Acted(cfg, t, ev, exchange))
  {
    hide Invariant, RankOk, MailOk, Shape, Done, Next, Enabled, Queued, NoneFor, Handed;
    NextMail(cfg, t.system, ev);
    forall r | r in t.ahead
      ensures r < cfg.g.ranks && NoneFor(Acted(cfg, t, ev, exchange).now, r)
    {
      assert NoneFor(t.now, r);
      NoneForLess(t.now, Handed(ev), r);
    }
  }

  lemma {:induction false} NoneForLess(mail: Mail, taken: Mail, r: nat)
    requires NoneFor(mail, r)
    ensures NoneFor(Mail(mail.net - taken.net + multiset{}, mail.bcasts - taken.bcasts + multiset{}), r)
  {
  }

  /** An event moves one rank; a delivery leaves its visit alone; nothing happens at the last test but deliveries. */
  lemma {:induction false} ActProcs(cfg: Config, t: Schedule, ev: Event, exchange: bool)
    requires cfg.Valid() && Kept(cfg, t) && CanAct(cfg, t, ev, exchange)
    ensures var s, s', r := t.system, Next(cfg, t.system, ev), Actor(ev);
            && |s'.procs| == |s.procs| && r < |s.procs|
            && (forall x | 0 <= x < |s.procs| && x != r :: s'.procs[x] == s.procs[x])
            && (Delivery(ev) ==> s'.procs[r].activity == s.procs[r].activity && PlaceAfter(t.at[r], ev) == t.at[r])
            && (!Delivery(ev) ==> r !in t.inside && !PlaceAfter(t.at[r], ev).Outer?)
            && !PlaceAfter(t.at[r], ev).Gone? && (r in t.ahead ==> t.carried)
  {
    hide Invariant, MailOk, Sealed, Done, RelaxEdge, BeginVisit, Queued, NextNet, NextBroadcasts, ShapedRank;
    assert RankOk(t, Actor(ev));
    DoneIsStill(cfg, t, ev, exchange);
  }

  lemma {:induction false} ActRank(cfg: Config, t: Schedule, ev: Event, exchange: bool, r: nat)
    requires cfg.Valid() && Kept(cfg, t) && CanAct(cfg, t, ev, exchange) && r < cfg.g.ranks && !t.at[r].Gone?
    ensures var t' := Acted(cfg, t, ev, exchange); |t'.system.procs| == cfg.g.ranks && RankOk(t', r)
  {
    hide Invariant, MailOk, Sealed, Shape, Done, Queued, Next, Enabled, PlaceAfter, IdleProcess;
    assert RankOk(t, r);
    ActProcs(cfg, t, ev, exchange);
    if Delivery(ev) {
      DeliveryCarried(t, ev);
      NextMail(cfg, t.system, ev);
    }
  }

  lemma {:induction false} ActKept(cfg: Config, t: Schedule, ev: Event, exchange: bool)
    requires cfg.Valid() && Kept(cfg, t) && CanAct(cfg, t, ev, exchange)
    ensures Kept(cfg, Acted(cfg, t, ev, exchange))
  {
    hide Invariant, MailOk, Sealed, Shape, Done, Queued, Next, Enabled, PlaceAfter, IdleProcess, RankOk, InPlace;
    DoneIsStill(cfg, t, ev, exchange);
    ActProcs(cfg, t, ev, exchange);
    StepInvariant(cfg, t.system, ev);
    ActMail(cfg, t, ev, exchange);
    ActSealed(cfg, t, ev, exchange);
    var t' := Acted(cfg, t, ev, exchange);
    forall r | 0 <= r < |t'.at|
      ensures RankOk(t', r)
    {
      ActRank(cfg, t, ev, exchange, r);
    }
  }

  lemma {:induction false} ProceedKept(cfg: Config, t: Schedule, r: nat)
    requires cfg.Valid() && Kept(cfg, t) && CanProceed(cfg, t, r)
    ensures Kept(cfg, Proceeded(cfg, t, r))
  {
    hide Invariant;
    var t' := Proceeded(cfg, t, r);
    forall x | 0 <= x < |t'.at|
      ensures RankOk(t', x)
    {
      assert RankOk(t, x);
    }
    assert !RankDone(t, r);
  }

  lemma {:induction false} ReleaseKept(cfg: Config, t: Schedule, r: nat)
    requires cfg.Valid() && Kept(cfg, t) && CanLeave(cfg, t, r)
    ensures Kept(cfg, Released(t, r))
  {
    hide Invariant, Shape, NoneFor, IdleProcess;
    var t' := Released(t, r);
    forall x | 0 <= x < |t'.at|
      ensures RankOk(t', x)
    {
      assert RankOk(t, x);
    }
    forall x | 0 <= x < |t'.at| && t'.at[x].Gone?
      ensures Done(t') && (x in t'.ahead || AllGone(t'))
    {
      if x == r && t.at[r] != t'.at[r] {
        LastOnes(cfg, t, r);
      } else {
        assert t.at[x].Gone?;
      }
      forall y | 0 <= y < |t'.at|
        ensures RankDone(t', y)
      {
        assert RankDone(t, y);
      }
    }
  }

  /** A count of zero on one rank: every rank waits in its last test or has gone. */
  lemma {:induction false} LastOnes(cfg: Config, t: Schedule, r: nat)
    requires cfg.Valid() && Kept(cfg, t) && CanLeave(cfg, t, r) && !t.carried
    ensures Done(t)
  {
    hide Invariant, Shape, NoneFor, IdleProcess;
    forall x | 0 <= x < |t.at|
      ensures RankDone(t, x)
    {
      assert RankOk(t, x);
    }
  }

  lemma {:induction false} TurnKept(cfg: Config, t: Schedule)
    requires cfg.Valid() && Kept(cfg, t)
    ensures Kept(cfg, Turned(cfg, t))
  {
    hide Invariant, IdleProcess, ShapedRank;
    var t' := Turned(cfg, t);
    if t' != t {
      NoneForAny(cfg, t);
      forall x | 0 <= x < |t'.at|
        ensures RankOk(t', x)
      {
        assert RankOk(t, x);
      }
      forall x | 0 <= x < |t'.at| && t'.at[x].Gone?
        ensures Done(t') && AllGone(t')
      {
        TurnDone(cfg, t);
      }
    }
  }

  lemma {:induction false} TurnDone(cfg: Config, t: Schedule)
    requires |t.at| == |t.system.procs| == cfg.g.ranks && Done(t)
    requires forall x: nat | x < cfg.g.ranks :: x in t.ahead
    ensures Done(Turned(cfg, t)) && AllGone(t)
  {
    hide IdleProcess;
    forall y | 0 <= y < |t.at|
      ensures RankDone(Turned(cfg, t), y) && t.at[y].Gone?
    {
      assert RankDone(t, y);
    }
  }

  lemma {:induction false} Addressed(cfg: Config, t: Schedule, m: Message)
    requires cfg.Valid() && Shape(cfg, t.system) && MailOk(t)
    ensures m in t.now.net || m in t.now.bcasts ==> m.dest < cfg.g.ranks
  {
    hide ShapedRank;
    assert m in t.now.net ==> m in t.system.net;
    assert m in t.now.bcasts ==> m in t.system.bcasts;
  }

  lemma {:induction false} NoneForAny(cfg: Config, t: Schedule)
    requires cfg.Valid() && Invariant(cfg, t.system) && MailOk(t) && Sealed(cfg, t)
    requires forall x: nat | x < cfg.g.ranks :: x in t.ahead
    ensures t.now == NO_MAIL
  {
    hide Shape, Sound, Ordered, Attentive, MailOk;
    forall m: Message
      ensures m !in t.now.net && m !in t.now.bcasts
    {
      Addressed(cfg, t, m);
      assert m.dest in t.ahead ==> NoneFor(t.now, m.dest);
    }
  }

  lemma {:induction false} LeaveKept(cfg: Config, t: Schedule, r: nat)
    requires cfg.Valid() && Kept(cfg, t) && CanLeave(cfg, t, r)
    ensures Kept(cfg, Left(cfg, t, r))
  {
    hide Invariant, MailOk, Sealed, RankOk, Done, Turned, Released;
    ReleaseKept(cfg, t, r);
    TurnKept(cfg, Released(t, r));
  }

  lemma {:induction false} StartKept(cfg: Config, t: Schedule)
    requires cfg.Valid() && Starts(cfg, t)
    ensures Kept(cfg, t)
  {
    hide Invariant;
    InitialInvariant(cfg);
    assert t.system.bcasts == multiset{};
  }

  lemma {:induction false} MoveKept(cfg: Config, t: Schedule, mv: Move)
    requires cfg.Valid() && Kept(cfg, t) && Can(cfg, t, mv)
    ensures Kept(cfg, Moved(cfg, t, mv))
  {
    hide Invariant, MailOk, Sealed, RankOk, Done, CanAct, CanProceed, CanLeave, Acted, Proceeded, Left;
    match mv {
      case Act(ev, exchange) => ActKept(cfg, t, ev, exchange);
      case Proceed(r) => ProceedKept(cfg, t, r);
      case Leave(r) => LeaveKept(cfg, t, r);
    }
  }

  lemma {:induction false} ScheduledKept(cfg: Config, t: Schedule, moves: seq<Move>, t': Schedule)
    requires cfg.Valid() && Kept(cfg, t) && |t.at| == cfg.g.ranks && Scheduled(cfg, t, moves, t')
    ensures Kept(cfg, t')
    decreases |moves|
  {
    hide Kept, Can, Moved;
    if moves != [] {
      MoveKept(cfg, t, moves[0]);
      ScheduledKept(cfg, Moved(cfg, t, moves[0]), moves[1..], t');
    }
  }

  // --- A scheduled run is a run -----------------------------------------------------------------

  function Events(moves: seq<Move>): seq<Event> {
    if moves == [] then [] else (if moves[0].Act? then [moves[0].ev] else []) + Events(moves[1..])
  }

  lemma {:induction false} ScheduledRuns(cfg: Config, t: Schedule, moves: seq<Move>, t': Schedule)
    requires cfg.Valid() && |t.at| == cfg.g.ranks && Scheduled(cfg, t, moves, t')
    ensures Run(cfg, t.system, Events(moves), t'.system)
    decreases |moves|
  {
    hide Shape, Enabled, Next, CanProceed, CanLeave, InPlace, Queued;
    if moves == [] {
      NoEvents(cfg, t.system);
    } else {
      ScheduledRuns(cfg, Moved(cfg, t, moves[0]), moves[1..], t');
      if moves[0].Act? {
        RunCons(cfg, t.system, moves[0].ev, Events(moves[1..]), t'.system);
      } else {
        assert [] + Events(moves[1..]) == Events(moves[1..]);
      }
    }
  }

  // --- Returning --------------------------------------------------------------------------------

  lemma {:induction false} DoneAtRest(cfg: Config, t: Schedule)
    requires cfg.Valid() && Kept(cfg, t) && Done(t)
    ensures Quiescent(t.system)
    ensures forall x | 0 <= x < |t.at| :: t.at[x].Gone? || (t.at[x].Outer? && x in t.inside)
  {
    hide Invariant, RankOk, Sealed, IdleProcess;
    forall x | 0 <= x < |t.at|
      ensures IdleProcess(t.system.procs[x]) && (t.at[x].Gone? || (t.at[x].Outer? && x in t.inside))
    {
      assert RankDone(t, x);
    }
  }

  lemma {:induction false} StartSystem(cfg: Config, t: Schedule)
    requires cfg.Valid() && Starts(cfg, t)
    ensures t.system == InitialSystem(cfg) && |t.at| == cfg.g.ranks
  {
    hide InitialSystem;
  }

  lemma {:induction false} GoneIsDone(cfg: Config, t: Schedule, r: nat)
    requires cfg.Valid() && Kept(cfg, t) && r < |t.at| && t.at[r].Gone?
    ensures |t.at| == |t.system.procs| && Done(t)
  {
    hide Invariant, RankOk, Sealed, Done, MailOk;
  }

  /**
   When one rank has returned from a traversal, nothing is queued, in progress or in flight anywhere, every
   other rank has returned or is about to, and what happened is a run of the system from its start.
   */
  lemma {:induction false} ReturnedAtRest(cfg: Config, t: Schedule, moves: seq<Move>, t': Schedule, r: nat)
    requires cfg.Valid() && Starts(cfg, t) && |t.at| == cfg.g.ranks && Scheduled(cfg, t, moves, t')
    requires r < |t'.at| && t'.at[r].Gone?
    ensures Run(cfg, InitialSystem(cfg), Events(moves), t'.system) && Quiescent(t'.system)
    ensures forall x | 0 <= x < |t'.at| :: t'.at[x].Gone? || (t'.at[x].Outer? && x in t'.inside)
  {
    hide *;
    StartKept(cfg, t);
    ScheduledKept(cfg, t, moves, t');
    StartSystem(cfg, t);
    ScheduledRuns(cfg, t, moves, t');
    GoneIsDone(cfg, t', r);
    DoneAtRest(cfg, t');
  }

  lemma {:induction false} ReturnedLevels(cfg: Config, t: Schedule, moves: seq<Move>, t': Schedule, r: nat, v: nat)
    requires cfg.Valid() && Starts(cfg, t) && |t.at| == cfg.g.ranks && Scheduled(cfg, t, moves, t')
    requires r < |t'.at| && t'.at[r].Gone? && v < cfg.g.size
    ensures Sized(cfg, t'.system)
    ensures cfg.algorithm.Bfs? ==> IsLevel(cfg.g, cfg.source, v, Master(cfg, t'.system, v))
    ensures cfg.algorithm.Sssp? ==> IsDistance(cfg, v, Master(cfg, t'.system, v))
    ensures cfg.algorithm.Cc? ==> IsComponentLabel(cfg.g, v, Master(cfg, t'.system, v))
  {
    hide *;
    ReturnedAtRest(cfg, t, moves, t', r);
    match cfg.algorithm {
      case Bfs => BfsLevels(cfg, Events(moves), t'.system, v);
      case Sssp => SsspDistances(cfg, Events(moves), t'.system, v);
      case Cc => ComponentLabels(cfg, Events(moves), t'.system, v);
    }
  }
}
