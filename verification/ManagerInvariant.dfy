/** What every reachable state of the manager satisfies. */
module ManagerInvariant {
  import opened Config
  import opened ActionBoard
  import opened ManagerState

  // ------------------------------------------------------------- the graph

  /** Every worker is listed by its own service and its own generation. */
  ghost predicate Listed(g: Graph) {
    forall w <- g.workers ::
        Linked(g, w) && w in g.svcs[g.procs[w].service].workers && w in g.cycles[g.procs[w].cycle].members
  }

  ghost predicate ServiceLists(g: Graph) {
    forall v <- g.svcs, w <- g.svcs[v].workers :: w in g.workers && w in g.procs && g.procs[w].service == v
  }

  ghost predicate CycleLists(g: Graph) {
    forall c <- g.cycles, m <- g.cycles[c].members :: m in g.workers && m in g.procs && g.procs[m].cycle == c
  }

  ghost predicate Named(g: Graph) {
    && (forall n <- g.services :: g.services[n] in g.svcs && g.svcs[g.services[n]].name == n)
    && (forall p <- g.procs :: g.procs[p].cycle in g.cycles)
  }

  /** The manager's, the services' and the generations' sets agree with each other. */
  ghost predicate Indexed(g: Graph) {
    Listed(g) && ServiceLists(g) && CycleLists(g) && Named(g)
  }

  /** An unretired worker runs the installed configuration of its service. */
  ghost predicate Current(g: Graph) {
    forall w <- g.workers :: ActiveWorker(g, w) && Linked(g, w) ==>
      Live(g, g.procs[w].service) && g.svcs[g.procs[w].service].config == g.procs[w].config
  }

  /** Processes, services and their generations hold the same valid configuration. */
  ghost predicate Configured(g: Graph) {
    && (forall c <- g.cycles :: g.cycles[c].config.Valid())
    && (forall p <- g.procs ::
         g.procs[p].config.Valid()
             && (g.procs[p].cycle in g.cycles ==> g.cycles[g.procs[p].cycle].config == g.procs[p].config))
    && (forall v <- g.svcs :: g.svcs[v].config.Valid()
          && (g.svcs[v].cycle.Some? ==>
               g.svcs[v].cycle.value in g.cycles && g.cycles[g.svcs[v].cycle.value].config == g.svcs[v].config))
  }

  /** A service, its configuration and its workers bear the same application name. */
  ghost predicate Titled(g: Graph) {
    && (forall v <- g.svcs :: g.svcs[v].config.name == g.svcs[v].name)
    && (forall w <- g.workers :: Linked(g, w) ==> g.procs[w].config.name == g.svcs[g.procs[w].service].name)
  }

  /** A generation is retiring exactly when it has no active member. */
  ghost predicate Retirement(g: Graph) {
    forall c <- g.cycles :: g.cycles[c].retiring <==> !CycleActive(g, c)
  }

  /** The flags of one process object are in an order it can reach. */
  ghost predicate Consistent(child: Process) {
    && child.starts == (if child.pending then 0 else 1)
    && (child.executed.Some? <==> !child.pending)
    && (child.stopSent ==> child.stopping.Some?)
    && (child.killed ==> child.stopSent && !child.pending)
    && child.stops == (if child.stopSent && !child.pending then 1 else 0)
    && child.kills == (if child.killed then 1 else 0)
    && (child.pending && (child.stopSent || child.exited) ==> child.stopSent && child.exited)
    && (child.ready ==> child.Active() && !child.pending && child.baseReady)
    && (child.failed ==> child.stopping.Some?)
    && child.backoffs <= 1
    && (child.backoffs == 1 ==> !child.Active())
    && Rested(child)
  }

  /** Once nothing is in progress on a process that reports its requests, it has
      an idle time, and no request was in progress after that. */
  ghost predicate Rested(child: Process) {
    && (child.pending ==> child.requests == map[] && !child.telemetry && child.busyUntil.None?)
    && (child.telemetry && child.requests == map[] ==> child.idleSince.Some?)
    && (child.busyUntil.Some? && child.idleSince.Some? && child.requests == map[] ==>
         child.busyUntil.value <= child.idleSince.value)
  }

  /** No recorded end of a request lies in the future. */
  ghost predicate Timely(g: Graph, clock: int) {
    forall p <- g.procs :: g.procs[p].busyUntil.Some? ==> g.procs[p].busyUntil.value <= clock
  }

  ghost predicate AllConsistent(g: Graph) {
    forall p <- g.procs :: Consistent(g.procs[p])
  }

  /** The active part of every service's workers fits its configured maximum. */
  ghost predicate Bounded(g: Graph) {
    forall v <- g.svcs :: |Pool(g, v)| <= g.svcs[v].config.maxWorkers
  }

  /** A pending scheduled occurrence always finds a free place. */
  ghost predicate Reserved(g: Graph) {
    forall v <- g.svcs :: Live(g, v) && g.svcs[v].scheduled ==>
      g.svcs[v].config.Scheduled() && |Executions(g, g.svcs[v].name)| < g.svcs[v].config.Limit()
  }

  ghost predicate GraphInv(g: Graph) {
    Indexed(g) && Current(g) && Configured(g) && Titled(g) && Retirement(g) && AllConsistent(g)
  }

  // ---------------------------------------------- the graph and its actions

  predicate ScopeActive(g: Graph, scope: Scope) {
    match scope
    case OfWorker(p) => ActiveWorker(g, p)
    case OfCycle(c) => CycleActive(g, c)
  }

  predicate Known(g: Graph, scope: Scope) {
    match scope
    case OfWorker(p) => p in g.procs
    case OfCycle(c) => c in g.cycles
  }

  /** The scope may run its stop hooks, or its last hooks. */
  predicate Reached(g: Graph, scope: Scope, event: Event) {
    && Known(g, scope)
    && match scope
       case OfWorker(p) => (event == PreStop ==> g.procs[p].stopping.Some?) && (event == PostStop ==> g.procs[p].exited)
       case OfCycle(c) => (event.PreStop? || event.PostStop? ==> g.cycles[c].retiring) && (event == PostStop ==>
           AllExited(g, c))
  }

  /** The runs of a phase that was reached are exactly the scope's bindings for it. */
  ghost predicate Fitted(g: Graph, b: Board) {
    forall r <- b.runs :: Fits(g, r, b.runs[r].binding)
  }

  ghost predicate Fits(g: Graph, r: RunRef, binding: Binding) {
    && r.index < |BindingsOf(g, r.scope, r.event)|
    && binding == BindingsOf(g, r.scope, r.event)[r.index]
    && binding.kind == r.scope.Kind()
  }

  ghost predicate Complete(g: Graph, b: Board) {
    forall x <- b.begun, i: nat | i < |BindingsOf(g, x.0, x.1)| ::
      BindingsOf(g, x.0, x.1)[i].kind == x.0.Kind() ==> RunRef(x.0, x.1, i) in b.runs
  }

  /** The checks of a scope that no longer counts are cancelled. */
  ghost predicate Silenced(g: Graph, b: Board) {
    forall r <- b.runs :: r.event.Check() && !ScopeActive(g, r.scope) ==> b.runs[r].cancelled
  }

  /** No scope reaches its stop hooks before it retires, or its last hooks
      before everything in it has exited. */
  ghost predicate Ordered(g: Graph, b: Board) {
    forall x <- b.begun :: Reached(g, x.0, x.1)
  }

  /** What has happened to one process is backed by the hooks that had to pass. */
  ghost predicate Backed(g: Graph, b: Board, p: nat)
    requires p in g.procs
  {
    var child := g.procs[p];
    && (!child.pending ==> HooksPassed(b, OfWorker(p), PreStart) && HooksPassed(b, OfCycle(child.cycle), PreStart))
    && (child.ready ==>
          && HooksPassed(b, OfWorker(p), PostStart) && HooksPassed(b, OfCycle(child.cycle), PostStart)
          && HooksPassed(b, OfWorker(p), Readiness) && HooksPassed(b, OfCycle(child.cycle), Readiness))
    && (child.exited && p !in g.workers ==>
          && HooksPassed(b, OfWorker(p), PostStop)
          && (child.cycle in g.cycles && g.cycles[child.cycle].members == {} ==>
               HooksPassed(b, OfCycle(child.cycle), PostStop)))
  }

  /** No process runs before its start hooks passed, none is published as ready
      before its post-start hooks and readiness checks passed, and none
      disappears before its last hooks passed. */
  ghost predicate Gated(g: Graph, b: Board) {
    forall p <- g.procs :: Backed(g, b, p)
  }

  ghost predicate Inv(s: State) {
    && GraphInv(s.graph) && Timely(s.graph, s.clock)
    && BoardInv(s.board)
    && Fitted(s.graph, s.board) && Complete(s.graph, s.board)
    && Silenced(s.graph, s.board) && Ordered(s.graph, s.board) && Gated(s.graph, s.board)
  }

  // ------------------------------------------------- what graph updates keep

  /** `child` is the same process object, and counts or not as before. */
  ghost predicate SameObject(child: Process, next: Process) {
    next.service == child.service && next.cycle == child.cycle && next.config == child.config
  }

  /** The process has only moved forward. */
  ghost predicate Onward(child: Process, next: Process) {
    && SameObject(child, next)
    && (child.stopping.Some? ==> next.stopping == child.stopping)
    && (child.exited ==> next.exited)
    && (!child.pending ==> !next.pending)
    && (child.stopSent ==> next.stopSent)
    && (child.killed ==> next.killed)
  }

  lemma PutProcActivity(g: Graph, p: nat, child: Process)
    requires p in g.procs && child.Active() == g.procs[p].Active()
    ensures forall c :: CycleActive(PutProc(g, p, child), c) == CycleActive(g, c)
    ensures forall w :: ActiveWorker(PutProc(g, p, child), w) == ActiveWorker(g, w)
  {
    var h := PutProc(g, p, child);
    assert forall m :: m in g.procs <==> m in h.procs;
    forall c ensures CycleActive(h, c) == CycleActive(g, c) {
      if CycleActive(g, c) {
        var m :| m in g.cycles[c].members && m in g.procs && g.procs[m].Active();
        assert m in h.procs && h.procs[m].Active();
      }
    }
  }

  lemma PutProcIndexed(g: Graph, p: nat, child: Process)
    requires Indexed(g) && p in g.procs && SameObject(g.procs[p], child)
    ensures Indexed(PutProc(g, p, child))
  {
  }

  lemma PutProcTitled(g: Graph, p: nat, child: Process)
    requires Titled(g) && p in g.procs && SameObject(g.procs[p], child)
    ensures Titled(PutProc(g, p, child)) && Titled(Deactivate(g, p, child))
  {
  }

  lemma PutProcConfigured(g: Graph, p: nat, child: Process)
    requires Current(g) && Configured(g) && p in g.procs && SameObject(g.procs[p], child)
    requires child.Active() == g.procs[p].Active()
    ensures Current(PutProc(g, p, child)) && Configured(PutProc(g, p, child))
  {
  }

  lemma PutProcKeeps(g: Graph, p: nat, child: Process)
    requires GraphInv(g) && p in g.procs && SameObject(g.procs[p], child)
    requires child.Active() == g.procs[p].Active() && Consistent(child)
    ensures GraphInv(PutProc(g, p, child))
  {
    PutProcIndexed(g, p, child);
    PutProcConfigured(g, p, child);
    PutProcTitled(g, p, child);
    var h := PutProc(g, p, child);
    assert Retirement(h) by { PutProcActivity(g, p, child); }
  }

  lemma PutServiceIndexed(g: Graph, v: nat, service: Service)
    requires Indexed(g) && v in g.svcs && service.name == g.svcs[v].name && service.workers == g.svcs[v].workers
    ensures Indexed(PutService(g, v, service))
  {
  }

  lemma PutServiceConfigured(g: Graph, v: nat, service: Service)
    requires Current(g) && Configured(g) && v in g.svcs
    requires service.name == g.svcs[v].name && service.config == g.svcs[v].config && service.cycle == g.svcs[v].cycle
    ensures Current(PutService(g, v, service)) && Configured(PutService(g, v, service))
  {
  }

  lemma PutServiceTitled(g: Graph, v: nat, service: Service)
    requires Titled(g) && v in g.svcs && service.name == g.svcs[v].name && service.config == g.svcs[v].config
    ensures Titled(PutService(g, v, service))
  {
  }

  lemma PutServiceKeeps(g: Graph, v: nat, service: Service)
    requires GraphInv(g) && v in g.svcs
    requires service.name == g.svcs[v].name && service.workers == g.svcs[v].workers
    requires service.config == g.svcs[v].config && service.cycle == g.svcs[v].cycle
    ensures GraphInv(PutService(g, v, service))
  {
    PutServiceIndexed(g, v, service);
    PutServiceConfigured(g, v, service);
    PutServiceTitled(g, v, service);
    assert forall c :: CycleActive(PutService(g, v, service), c) == CycleActive(g, c);
  }

  // A process that stops counting.

  lemma DeactivateActivity(g: Graph, p: nat, child: Process)
    requires p in g.procs && !child.Active() && child.cycle == g.procs[p].cycle && CycleLists(g)
    ensures forall c :: CycleActive(Deactivate(g, p, child), c) == CycleActive(PutProc(g, p, child), c)
    ensures forall c :: CycleActive(PutProc(g, p, child), c) ==> CycleActive(g, c)
    ensures forall c :: c != child.cycle ==> CycleActive(PutProc(g, p, child), c) == CycleActive(g, c)
  {
    var h := PutProc(g, p, child);
    assert forall m :: m in g.procs <==> m in h.procs;
    forall c | c != child.cycle && CycleActive(g, c) ensures CycleActive(h, c) {
      var m :| m in g.cycles[c].members && m in g.procs && g.procs[m].Active();
      assert m in h.procs && h.procs[m].Active();
    }
  }

  lemma DeactivateIndexed(g: Graph, p: nat, child: Process)
    requires Indexed(g) && p in g.procs && SameObject(g.procs[p], child)
    ensures Indexed(Deactivate(g, p, child))
  {
    PutProcIndexed(g, p, child);
  }

  lemma DeactivateCurrent(g: Graph, p: nat, child: Process)
    requires Current(g) && p in g.procs && SameObject(g.procs[p], child) && !child.Active()
    ensures Current(Deactivate(g, p, child))
  {
  }

  lemma DeactivateConfigs(g: Graph, p: nat, child: Process)
    requires Configured(g) && p in g.procs && SameObject(g.procs[p], child)
    ensures Configured(Deactivate(g, p, child))
  {
  }

  lemma DeactivateConfigured(g: Graph, p: nat, child: Process)
    requires Current(g) && p in g.procs && SameObject(g.procs[p], child) && !child.Active() && Configured(g)
    ensures Current(Deactivate(g, p, child)) && Configured(Deactivate(g, p, child))
  {
    hide Current, Configured;
    DeactivateCurrent(g, p, child);
    DeactivateConfigs(g, p, child);
  }

  lemma DeactivateRetires(g: Graph, p: nat, child: Process)
    requires Retirement(g) && CycleLists(g) && p in g.procs && child.cycle == g.procs[p].cycle && !child.Active()
    ensures Retirement(Deactivate(g, p, child))
  {
    DeactivateActivity(g, p, child);
  }

  lemma DeactivateConsistent(g: Graph, p: nat, child: Process)
    requires AllConsistent(g) && Consistent(child)
    ensures AllConsistent(Deactivate(g, p, child))
  {
  }

  lemma DeactivateKeeps(g: Graph, p: nat, child: Process)
    requires GraphInv(g) && p in g.procs && SameObject(g.procs[p], child) && !child.Active() && Consistent(child)
    ensures GraphInv(Deactivate(g, p, child))
  {
    DeactivateIndexed(g, p, child);
    DeactivateConfigured(g, p, child);
    DeactivateRetires(g, p, child);
    PutProcTitled(g, p, child);
    DeactivateConsistent(g, p, child);
  }

  // A process that leaves.

  lemma RemoveActivity(g: Graph, p: nat)
    requires Linked(g, p) && !g.procs[p].Active()
    ensures forall c :: CycleActive(Remove(g, p), c) == CycleActive(g, c)
  {
    var h := Remove(g, p);
    forall c | CycleActive(g, c) ensures CycleActive(h, c) {
      var m :| m in g.cycles[c].members && m in g.procs && g.procs[m].Active();
      assert m in h.cycles[c].members;
    }
  }

  lemma RemoveIndexed(g: Graph, p: nat)
    requires Indexed(g) && Linked(g, p)
    ensures Indexed(Remove(g, p))
  {
    var h := Remove(g, p);
    assert Listed(h) by {
      forall w <- h.workers
          ensures Linked(h, w) && w in h.svcs[h.procs[w].service].workers && w in h.cycles[h.procs[w].cycle].members {
        assert w in g.workers;
      }
    }
    assert ServiceLists(h);
    assert CycleLists(h);
  }

  lemma RemoveCurrent(g: Graph, p: nat)
    requires Current(g) && Linked(g, p)
    ensures Current(Remove(g, p))
  {
  }

  lemma RemoveConfigs(g: Graph, p: nat)
    requires Configured(g) && Linked(g, p)
    ensures Configured(Remove(g, p))
  {
  }

  lemma RemoveConfigured(g: Graph, p: nat)
    requires Current(g) && Linked(g, p) && Configured(g)
    ensures Current(Remove(g, p)) && Configured(Remove(g, p))
  {
    hide Current, Configured;
    RemoveCurrent(g, p);
    RemoveConfigs(g, p);
  }

  lemma RemoveTitled(g: Graph, p: nat)
    requires Titled(g) && Linked(g, p)
    ensures Titled(Remove(g, p))
  {
  }

  lemma RemoveKeeps(g: Graph, p: nat)
    requires GraphInv(g) && Linked(g, p) && !g.procs[p].Active()
    ensures GraphInv(Remove(g, p))
  {
    hide Indexed, Current, Configured, Titled, Consistent;
    RemoveIndexed(g, p);
    RemoveConfigured(g, p);
    RemoveTitled(g, p);
    var h := Remove(g, p);
    assert Retirement(h) by { RemoveActivity(g, p); }
  }

  // A process that is reserved.

  /** `p` is new, and `c` is new too or a generation the service may still use. */
  ghost predicate Admissible(g: Graph, v: nat, p: nat, c: nat) {
    && v in g.svcs && Live(g, v) && p !in g.procs
    && (if Joins(g, v) then c == g.svcs[v].cycle.value else c !in g.cycles)
  }

  lemma ReserveIndexed(g: Graph, v: nat, p: nat, c: nat, now: int)
    requires Indexed(g) && Admissible(g, v, p, c)
    ensures Indexed(Reserve(g, v, p, c, now))
  {
    ReserveListed(g, v, p, c, now);
    ReserveLists(g, v, p, c, now);
  }

  lemma ReserveListed(g: Graph, v: nat, p: nat, c: nat, now: int)
    requires Listed(g) && Admissible(g, v, p, c)
    ensures Listed(Reserve(g, v, p, c, now))
  {
    assert p !in g.workers;
  }

  lemma ReserveLists(g: Graph, v: nat, p: nat, c: nat, now: int)
    requires Listed(g) && ServiceLists(g) && CycleLists(g) && Admissible(g, v, p, c)
    ensures ServiceLists(Reserve(g, v, p, c, now)) && CycleLists(Reserve(g, v, p, c, now))
  {
    assert p !in g.workers;
  }

  lemma ReserveCurrent(g: Graph, v: nat, p: nat, c: nat, now: int)
    requires Indexed(g) && Current(g) && Admissible(g, v, p, c)
    ensures Current(Reserve(g, v, p, c, now))
  {
    var h := Reserve(g, v, p, c, now);
    forall w <- h.workers | ActiveWorker(h, w) && Linked(h, w)
      ensures Live(h, h.procs[w].service) && h.svcs[h.procs[w].service].config == h.procs[w].config
    {
      if w != p { assert ActiveWorker(g, w) && Linked(g, w); }
    }
  }

  lemma ReserveConfigured(g: Graph, v: nat, p: nat, c: nat, now: int)
    requires Named(g) && Configured(g) && Admissible(g, v, p, c)
    ensures Configured(Reserve(g, v, p, c, now))
  {
    hide App.Valid;
  }

  lemma ReserveTitled(g: Graph, v: nat, p: nat, c: nat, now: int)
    requires Listed(g) && Titled(g) && Admissible(g, v, p, c)
    ensures Titled(Reserve(g, v, p, c, now))
  {
  }

  lemma ReserveRetirement(g: Graph, v: nat, p: nat, c: nat, now: int)
    requires Indexed(g) && Retirement(g) && Admissible(g, v, p, c)
    ensures Retirement(Reserve(g, v, p, c, now))
    ensures var h := Reserve(g, v, p, c, now); CycleActive(h, c) && forall d :: d != c ==>
        CycleActive(h, d) == CycleActive(g, d)
  {
    var h := Reserve(g, v, p, c, now);
    assert p in h.cycles[c].members && h.procs[p].Active();
    ReserveOthers(g, v, p, c, now);
  }

  lemma ReserveOthers(g: Graph, v: nat, p: nat, c: nat, now: int)
    requires CycleLists(g) && Listed(g) && Admissible(g, v, p, c)
    ensures forall d :: d != c ==> CycleActive(Reserve(g, v, p, c, now), d) == CycleActive(g, d)
  {
    var h := Reserve(g, v, p, c, now);
    forall d | d != c ensures CycleActive(h, d) == CycleActive(g, d) {
      if CycleActive(g, d) {
        var m :| m in g.cycles[d].members && m in g.procs && g.procs[m].Active();
        assert m in h.cycles[d].members && m in h.procs && h.procs[m].Active();
      }
      if CycleActive(h, d) {
        var m :| m in h.cycles[d].members && m in h.procs && h.procs[m].Active();
        assert m in g.cycles[d].members && m in g.workers;
      }
    }
  }

  lemma ReserveKeeps(g: Graph, v: nat, p: nat, c: nat, now: int)
    requires GraphInv(g) && Admissible(g, v, p, c)
    ensures GraphInv(Reserve(g, v, p, c, now))
  {
    ReserveIndexed(g, v, p, c, now);
    ReserveCurrent(g, v, p, c, now);
    ReserveConfigured(g, v, p, c, now);
    ReserveTitled(g, v, p, c, now);
    ReserveRetirement(g, v, p, c, now);
  }
}
