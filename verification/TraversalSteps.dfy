/** What each kind of event does to the system, spelled out; runs are put together from these. */
module TraversalSteps {
  import opened Graphs
  import opened Traversal
  import opened TraversalInvariant
  import opened TraversalOrder
  import opened TraversalProgress
  import opened TraversalExactness

  /** s with rank r's process and the messages replaced. */
  ghost function Put(s: System, r: nat, p: Process, net: multiset<Message>, bcasts: multiset<Message>): System
    requires r < |s.procs|
  {
    System(s.procs[r := p], net, bcasts)
  }

  /** In a reachable state, the event leads to s', which is reachable again. */
  ghost predicate Leads(cfg: Config, s: System, ev: Event, s': System)
    requires cfg.Valid()
  {
    Takes(cfg, s, ev, s') && Invariant(cfg, s')
  }

  lemma {:induction false} PopLeads(cfg: Config, s: System, r: nat, v: Visitor, p: Process)
    requires cfg.Valid() && Invariant(cfg, s) && r < cfg.g.ranks == |s.procs|
    requires s.procs[r].activity.Idle? && v in s.procs[r].queue && v.vertex < cfg.g.size
    requires ShapedProcess(cfg, s.procs[r])
    requires p == BeginVisit(cfg, r, s.procs[r].(queue := s.procs[r].queue - multiset{v}), v)
    ensures Leads(cfg, s, Pop(r, v), Put(s, r, p, s.net, s.bcasts))
  {
    hide Sound, Ordered, Attentive, BeginVisit;
    StepInvariant(cfg, s, Pop(r, v));
  }

  lemma {:induction false} PopControllerLeads(cfg: Config, s: System, r: nat, p: Process)
    requires cfg.Valid() && Invariant(cfg, s) && r < cfg.g.ranks == |s.procs|
    requires s.procs[r].activity.Idle? && s.procs[r].controllers != []
    requires s.procs[r].controllers[0].vertex < cfg.g.size
    requires ShapedProcess(cfg, s.procs[r])
    requires p == BeginVisit(cfg, r, s.procs[r].(controllers := s.procs[r].controllers[1..]), s.procs[r].controllers[0])
    ensures Leads(cfg, s, PopController(r), Put(s, r, p, s.net, s.bcasts))
  {
    hide Sound, Ordered, Attentive, BeginVisit;
    StepInvariant(cfg, s, PopController(r));
  }

  lemma {:induction false} InitVisitLeads(cfg: Config, s: System, r: nat, u: nat, p: Process)
    requires cfg.Valid() && Invariant(cfg, s) && r < cfg.g.ranks == |s.procs|
    requires s.procs[r].activity.Idle? && u in s.procs[r].toInit && u < cfg.g.size && ShapedProcess(cfg, s.procs[r])
    requires p == BeginVisit(cfg, r, s.procs[r].(toInit := s.procs[r].toInit - {u}), Visitor(u, u, u))
    ensures Leads(cfg, s, InitVisit(r, u), Put(s, r, p, s.net, s.bcasts))
  {
    hide Sound, Ordered, Attentive, BeginVisit;
    StepInvariant(cfg, s, InitVisit(r, u));
  }

  lemma {:induction false} ContinueLeads(cfg: Config, s: System, r: nat, v: Visitor, k: nat, announce: bool, p: Process,
                                         sent: multiset<Message>)
    requires cfg.Valid() && Invariant(cfg, s) && r < cfg.g.ranks == |s.procs|
    requires s.procs[r].activity == Busy(v, k, announce)
    requires v.vertex < cfg.g.size && k < |cfg.g.edges[r][v.vertex]| && ShapedProcess(cfg, s.procs[r])
    requires (p, sent) == RelaxEdge(cfg, r, s.procs[r])
    ensures Leads(cfg, s, Continue(r), Put(s, r, p, s.net + sent, s.bcasts))
  {
    hide Sound, Ordered, Attentive, RelaxEdge;
    StepInvariant(cfg, s, Continue(r));
  }

  lemma {:induction false} FinishLeads(cfg: Config, s: System, r: nat, v: Visitor, k: nat, announce: bool,
                                       sent: multiset<Message>)
    requires cfg.Valid() && Invariant(cfg, s) && r < cfg.g.ranks == |s.procs|
    requires s.procs[r].activity == Busy(v, k, announce)
    requires v.vertex < cfg.g.size && k == |cfg.g.edges[r][v.vertex]|
    requires sent == if announce then Broadcast(cfg.g.ranks, r, v) else multiset{}
    ensures Leads(cfg, s, Finish(r), Put(s, r, s.procs[r].(activity := Idle), s.net, s.bcasts + sent))
  {
    hide Sound, Ordered, Attentive, Broadcast;
    StepInvariant(cfg, s, Finish(r));
  }

  lemma {:induction false} DeliverBroadcastLeads(cfg: Config, s: System, m: Message)
    requires cfg.Valid() && Invariant(cfg, s) && m in s.bcasts && m.dest < |s.procs|
    ensures var p := s.procs[m.dest];
            Leads(cfg, s, DeliverBroadcast(m),
                  Put(s, m.dest, p.(controllers := p.controllers + [m.visitor]), s.net, s.bcasts - multiset{m}))
  {
    hide Sound, Ordered, Attentive;
    StepInvariant(cfg, s, DeliverBroadcast(m));
  }

  /** Each event leads from its state to the next one. */
  ghost predicate Chain(cfg: Config, states: seq<System>, events: seq<Event>)
    requires cfg.Valid()
  {
    |states| == |events| + 1 && forall i | 0 <= i < |events| :: Leads(cfg, states[i], events[i], states[i + 1])
  }

  lemma {:induction false} ChainAt(cfg: Config, states: seq<System>, events: seq<Event>, k: nat)
    requires cfg.Valid() && Chain(cfg, states, events) && k <= |events|
    ensures |states| == |events| + 1 && (k < |events| ==> Leads(cfg, states[k], events[k], states[k + 1]))
  {
    hide Leads;
  }

  lemma {:induction false} ChainRuns(cfg: Config, states: seq<System>, events: seq<Event>, k: nat)
    requires cfg.Valid() && Chain(cfg, states, events) && k <= |events|
    ensures |states| == |events| + 1 && Run(cfg, states[k], events[k..], states[|events|])
    decreases |events| - k
  {
    hide *;
    ChainAt(cfg, states, events, k);
    if k < |events| {
      ChainRuns(cfg, states, events, k + 1);
      LeadsRun(cfg, states[k], events[k], states[k + 1], events[k + 1..], states[|events|]);
      assert [events[k]] + events[k + 1..] == events[k..];
    } else {
      NoEvents(cfg, states[k]);
      assert events[k..] == [];
    }
  }

  lemma {:induction false} LeadsRun(cfg: Config, s: System, ev: Event, s1: System, rest: seq<Event>, s2: System)
    requires cfg.Valid() && Leads(cfg, s, ev, s1) && Run(cfg, s1, rest, s2)
    ensures Run(cfg, s, [ev] + rest, s2)
  {
    hide Invariant, Next, Enabled, Shape;
    RunCons(cfg, s, ev, rest, s2);
  }
}
