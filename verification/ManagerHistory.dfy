/** How two states of one run of the manager are related, whatever happened between. */
module ManagerHistory {
  import opened Options
  import opened Config
  import opened ActionBoard
  import opened ManagerState
  import opened ManagerSteps
  import opened ManagerInvariant
  import opened ManagerSafety

  /** Processes only move forward and never come back after leaving. */
  ghost predicate ProcsLater(g: Graph, h: Graph) {
    forall p <- g.procs :: p in h.procs && Onward(g.procs[p], h.procs[p]) && (p !in g.workers ==> p !in h.workers)
  }

  /** A retiring generation stays retiring and gains no member. */
  ghost predicate CyclesLater(g: Graph, h: Graph) {
    forall c <- g.cycles :: c in h.cycles && h.cycles[c].config == g.cycles[c].config
      && (g.cycles[c].retiring ==> h.cycles[c].retiring && h.cycles[c].members <= g.cycles[c].members)
  }

  /** The configured services are the same objects, with the same pending occurrences. */
  ghost predicate SameTable(g: Graph, h: Graph) {
    && h.services == g.services && h.svcs.Keys == g.svcs.Keys
    && forall v <- g.svcs :: SameService(g.svcs[v], h.svcs[v])
  }

  predicate SameService(service: Service, next: Service) {
    && next.name == service.name && next.config == service.config && next.listener == service.listener
    && next.scheduled == service.scheduled && next.nextRun == service.nextRun && next.installed == service.installed
  }

  predicate Dead(g: Graph, scope: Scope) {
    match scope
    case OfWorker(p) => p in g.procs && !ActiveWorker(g, p)
    case OfCycle(c) => c in g.cycles && g.cycles[c].retiring
  }

  /** A scope that no longer counts reaches no further check. */
  ghost predicate BegunLater(g: Graph, b: Board, c: Board) {
    forall x <- c.begun :: x !in b.begun && x.1.Check() ==> !Dead(g, x.0)
  }

  /** A process that starts to stop does so at the current time. */
  ghost predicate StopsSince(s: State, t: State) {
    forall p <- t.graph.procs ::
        t.graph.procs[p].stopping.Some? && (p in s.graph.procs ==> s.graph.procs[p].stopping.None?) ==>
      s.clock <= t.graph.procs[p].stopping.value
  }

  ghost predicate Evolves(s: State, t: State) {
    && s.clock == t.clock && StopsSince(s, t)
    && s.listeners == t.listeners && s.nextListener == t.nextListener && s.sockets == t.sockets
    && ProcsLater(s.graph, t.graph) && CyclesLater(s.graph, t.graph) && SameTable(s.graph, t.graph)
    && BoardLater(s.board, t.board) && BegunLater(s.graph, s.board, t.board)
  }

  lemma EvolvesTransitive(s: State, t: State, u: State)
    requires Evolves(s, t) && Evolves(t, u)
    ensures Evolves(s, u)
  {
    LaterTransitive(s.board, t.board, u.board);
    forall p <- s.graph.procs
        ensures p in u.graph.procs && Onward(s.graph.procs[p], u.graph.procs[p])
        ensures (p !in s.graph.workers ==> p !in u.graph.workers) {
      assert p in t.graph.procs;
    }
    forall c <- s.graph.cycles ensures c in u.graph.cycles { assert c in t.graph.cycles; }
    assert StopsSince(s, u) by { forall p <- s.graph.procs
        ensures p in t.graph.procs && Onward(s.graph.procs[p], t.graph.procs[p]) { } }
    forall x <- u.board.begun | x !in s.board.begun && x.1.Check() ensures !Dead(s.graph, x.0) {
      if Dead(s.graph, x.0) { assert Dead(t.graph, x.0); }
    }
  }

  // -------------------------------------------- one step, invariant and history

  /** `t` is a later state of the same run, with no more workers than before. */
  ghost predicate Leads(s: State, t: State) {
    && Inv(t) && Evolves(s, t) && t.graph.workers <= s.graph.workers
    && t.graph.procs.Keys == s.graph.procs.Keys && t.graph.cycles.Keys == s.graph.cycles.Keys
  }

  lemma LeadsTransitive(s: State, t: State, u: State)
    requires Leads(s, t) && Leads(t, u)
    ensures Leads(s, u)
  {
    EvolvesTransitive(s, t, u);
  }

  lemma EvolvesReflexive(s: State)
    ensures Evolves(s, s)
  {
  }

  lemma LeadsInv(s: State, t: State)
    requires Leads(s, t)
    ensures Inv(t)
  {
    hide Inv, Evolves;
  }

  lemma LeadsEvolves(s: State, t: State)
    requires Leads(s, t)
    ensures Evolves(s, t)
  {
    hide Inv, Evolves;
  }

  lemma LeadsReflexive(s: State)
    requires Inv(s)
    ensures Leads(s, s)
  {
    EvolvesReflexive(s);
  }

  /** The graph part of a step that leaves the clock and the board alone. */
  ghost predicate GraphLater(g: Graph, h: Graph) {
    ProcsLater(g, h) && CyclesLater(g, h) && SameTable(g, h)
  }

  lemma GraphEvolves(s: State, h: Graph)
    requires GraphLater(s.graph, h) && StopsSince(s, s.(graph := h))
    ensures Evolves(s, s.(graph := h))
  {
  }

  lemma BoardEvolves(s: State, c: Board)
    requires BoardLater(s.board, c) && BegunLater(s.graph, s.board, c)
    ensures Evolves(s, s.(board := c))
  {
  }

  lemma CancelEvolves(s: State, scope: Scope, events: set<Event>)
    ensures Evolves(s, s.(board := Cancel(s.board, scope, events)))
  {
    CancelLater(s.board, scope, events);
    BoardEvolves(s, Cancel(s.board, scope, events));
  }

  lemma PutProcLater(g: Graph, p: nat, child: Process)
    requires p in g.procs && Onward(g.procs[p], child)
    ensures GraphLater(g, PutProc(g, p, child))
  {
  }

  lemma DeactivateLater(g: Graph, p: nat, child: Process)
    requires p in g.procs && Onward(g.procs[p], child)
    ensures GraphLater(g, Deactivate(g, p, child))
  {
    hide CycleActive;
  }

  lemma RemoveLater(g: Graph, p: nat)
    requires Linked(g, p)
    ensures GraphLater(g, Remove(g, p))
  {
  }

  lemma ReserveLater(g: Graph, v: nat, p: nat, c: nat, now: int)
    requires Admissible(g, v, p, c)
    ensures GraphLater(g, Reserve(g, v, p, c, now))
  {
    var h := Reserve(g, v, p, c, now);
    forall q <- g.procs
        ensures q in h.procs && Onward(g.procs[q], h.procs[q]) && (q !in g.workers ==> q !in h.workers) {
      assert q != p;
    }
  }

  lemma ServiceLater(g: Graph, v: nat, service: Service)
    requires v in g.svcs && SameService(g.svcs[v], service)
    ensures GraphLater(g, PutService(g, v, service))
  {
  }

  lemma PhaseEvolves(s: State, scope: Scope, event: Event, now: int)
    requires BoardInv(s.board) && Retirement(s.graph) && Allowed(s.graph, scope, event)
    ensures Evolves(s, Phase(s, scope, event, now))
  {
    ReachLater(s.board, scope, event, BindingsOf(s.graph, scope, event), now);
    assert event.Check() ==> !Dead(s.graph, scope);
    BoardEvolves(s, Phase(s, scope, event, now).board);
  }

  lemma PhaseLeads(s: State, scope: Scope, event: Event, now: int)
    requires Inv(s) && Allowed(s.graph, scope, event)
    ensures Leads(s, Phase(s, scope, event, now))
  {
    PhaseKeeps(s, scope, event, now);
    PhaseEvolves(s, scope, event, now);
  }

  lemma CancelLeads(s: State, scope: Scope, events: set<Event>)
    requires PostStop !in events && Inv(s)
    ensures Leads(s, s.(board := Cancel(s.board, scope, events)))
  {
    CancelKeeps(s, scope, events);
    CancelLater(s.board, scope, events);
    BoardEvolves(s, Cancel(s.board, scope, events));
  }

  lemma CollectLeads(s: State, r: RunRef, ok: bool, now: int)
    requires Inv(s) && r in s.board.inflight
    ensures r in s.board.runs
    ensures Leads(s, s.(board := Collect(s.board, r, ok, now)))
  {
    CollectKeeps(s, r, ok, now);
    CollectLater(s.board, r, ok, now);
    BoardEvolves(s, Collect(s.board, r, ok, now));
  }

  lemma WithProcLeads(s: State, p: nat, child: Process)
    requires Inv(s) && p in s.graph.procs && Onward(s.graph.procs[p], child)
    requires child.Active() == s.graph.procs[p].Active() && Consistent(child)
    requires Backed(PutProc(s.graph, p, child), s.board, p) && Punctual(s, s.graph.procs[p], child)
    requires child.stopping == s.graph.procs[p].stopping
    ensures Leads(s, WithProc(s, p, child))
  {
    hide Inv, Evolves, Backed, Consistent;
    WithProcKeeps(s, p, child);
    WithProcEvolves(s, p, child);
  }

  lemma WithProcEvolves(s: State, p: nat, child: Process)
    requires p in s.graph.procs && Onward(s.graph.procs[p], child) && child.stopping == s.graph.procs[p].stopping
    ensures Evolves(s, WithProc(s, p, child))
  {
    PutProcLater(s.graph, p, child);
    GraphEvolves(s, PutProc(s.graph, p, child));
  }

  lemma ServiceLeads(s: State, v: nat, service: Service)
    requires Inv(s) && v in s.graph.svcs
    requires SameService(s.graph.svcs[v], service) && service.workers == s.graph.svcs[v].workers
    requires service.cycle == s.graph.svcs[v].cycle
    ensures Leads(s, s.(graph := PutService(s.graph, v, service)))
  {
    ServiceKeeps(s, v, service);
    ServiceLater(s.graph, v, service);
    GraphEvolves(s, PutService(s.graph, v, service));
  }

  lemma DeactivateEvolves(s: State, p: nat, child: Process)
    requires p in s.graph.procs && Onward(s.graph.procs[p], child)
    requires child.stopping == s.graph.procs[p].stopping || child.stopping == Some(s.clock)
    ensures Evolves(s, s.(graph := Deactivate(s.graph, p, child)))
  {
    hide Evolves, GraphLater, CycleActive, Onward;
    DeactivateLater(s.graph, p, child);
    GraphEvolves(s, Deactivate(s.graph, p, child));
  }

  lemma WithdrawEvolves(s: State, p: nat, child: Process)
    requires p in s.graph.procs && Onward(s.graph.procs[p], child)
    requires child.stopping == s.graph.procs[p].stopping || child.stopping == Some(s.clock)
    ensures Evolves(s, Withdraw(s, p, child))
  {
    hide Evolves, Deactivate, Cancel, GraphLater, BoardLater, CycleActive, Onward;
    DeactivateEvolves(s, p, child);
    var s1 := s.(graph := Deactivate(s.graph, p, child));
    var s2 := CancelChecks(s1, OfWorker(p));
    CancelEvolves(s1, OfWorker(p), CHECKS);
    var s3 := CancelChecks(s2, OfCycle(child.cycle));
    CancelEvolves(s2, OfCycle(child.cycle), CHECKS);
    EvolvesTransitive(s, s1, s2);
    EvolvesTransitive(s, s2, s3);
  }

  lemma WithdrawLeads(s: State, p: nat, child: Process)
    requires Inv(s) && p in s.graph.workers && p in s.graph.procs && Onward(s.graph.procs[p], child)
    requires !child.Active() && !child.ready && Consistent(child) && child.pending == s.graph.procs[p].pending
    requires child.busyUntil == s.graph.procs[p].busyUntil
    requires child.stopping == s.graph.procs[p].stopping || child.stopping == Some(s.clock)
    ensures Leads(s, Withdraw(s, p, child))
  {
    hide Inv, Evolves, Consistent, Withdraw;
    WithdrawKeeps(s, p, child);
    WithdrawEvolves(s, p, child);
  }

  lemma LeaveLeads(s: State, p: nat)
    requires Inv(s) && Linked(s.graph, p) && s.graph.procs[p].exited && MayLeave(s.graph, s.board, p)
    ensures Leads(s, s.(graph := Remove(s.graph, p)))
  {
    hide Inv, Evolves, MayLeave;
    LeaveKeeps(s, p);
    RemoveLater(s.graph, p);
    GraphEvolves(s, Remove(s.graph, p));
  }

  lemma ReserveEvolves(s: State, v: nat, p: nat, c: nat, now: int)
    requires Admissible(s.graph, v, p, c)
    ensures Evolves(s, s.(graph := Reserve(s.graph, v, p, c, now)))
  {
    ReserveLater(s.graph, v, p, c, now);
    GraphEvolves(s, Reserve(s.graph, v, p, c, now));
  }

  lemma AdmitEvolves(s: State, v: nat, p: nat, c: nat, now: int)
    requires Inv(s) && Admissible(s.graph, v, p, c)
    ensures Inv(s.(graph := Reserve(s.graph, v, p, c, now))) && Evolves(s, s.(graph := Reserve(s.graph, v, p, c, now)))
  {
    AdmitKeeps(s, v, p, c, now);
    ReserveEvolves(s, v, p, c, now);
  }
}
