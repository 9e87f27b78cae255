/** Replacing the configuration: what each part of apply and shutdown keeps. */
module ManagerReload {
  import opened Options
  import opened Config
  import opened ActionBoard
  import opened ManagerState
  import opened ManagerSteps
  import opened ManagerInvariant
  import opened ManagerSafety
  import opened ManagerHistory
  import opened ManagerTable

  // ------------------------------------------- the relation over a whole run

  /** Processes only move forward; only a retiring one changes its service object. */
  ghost predicate ProcsSince(g: Graph, h: Graph) {
    forall p <- g.procs ::
        p in h.procs && OnwardLoosely(g.procs[p], h.procs[p]) && (p !in g.workers ==> p !in h.workers)
  }

  ghost predicate OnwardLoosely(child: Process, next: Process) {
    && next.config == child.config && next.cycle == child.cycle
    && (next.service != child.service ==> next.stopping.Some?)
    && (child.stopping.Some? ==> next.stopping == child.stopping)
    && (child.exited ==> next.exited)
    && (!child.pending ==> !next.pending)
    && (child.stopSent ==> next.stopSent)
    && (child.killed ==> next.killed)
  }

  /** An identifier that is not open is never open again, and one that belongs to
      an application never comes to belong to another. */
  ghost predicate SocketsSince(s: State, t: State) {
    && s.nextListener <= t.nextListener
    && (forall id <- t.sockets :: id in s.sockets || s.nextListener < id)
    && (forall id <- s.listeners :: id !in t.sockets
          || (id in t.listeners && s.listeners[id] in s.graph.svcs && t.listeners[id] in t.graph.svcs
              && t.graph.svcs[t.listeners[id]].name == s.graph.svcs[s.listeners[id]].name))
  }

  /** `t` comes after `s` in one run of the supervisor. */
  ghost predicate Since(s: State, t: State) {
    && s.clock <= t.clock && StopsSince(s, t)
    && ProcsSince(s.graph, t.graph) && CyclesLater(s.graph, t.graph)
    && BoardLater(s.board, t.board) && BegunLater(s.graph, s.board, t.board)
    && SocketsSince(s, t)
  }

  lemma EvolvesSince(s: State, t: State)
    requires Wired(s) && Evolves(s, t)
    ensures Since(s, t)
  {
    forall p <- s.graph.procs ensures p in t.graph.procs && OnwardLoosely(s.graph.procs[p], t.graph.procs[p]) {
      assert Onward(s.graph.procs[p], t.graph.procs[p]);
    }
    forall id <- s.listeners
        ensures id in t.listeners && s.listeners[id] in s.graph.svcs
        ensures t.graph.svcs[t.listeners[id]].name == s.graph.svcs[s.listeners[id]].name {
      assert SameService(s.graph.svcs[s.listeners[id]], t.graph.svcs[s.listeners[id]]);
    }
  }

  lemma SocketsTransitive(s: State, t: State, u: State)
    requires Wired(s) && SocketsSince(s, t) && SocketsSince(t, u)
    ensures SocketsSince(s, u)
  {
  }

  lemma SinceTransitive(s: State, t: State, u: State)
    requires Wired(s) && Since(s, t) && Since(t, u)
    ensures Since(s, u)
  {
    SocketsTransitive(s, t, u);
    LaterTransitive(s.board, t.board, u.board);
    forall p <- s.graph.procs
        ensures p in u.graph.procs && OnwardLoosely(s.graph.procs[p], u.graph.procs[p])
        ensures (p !in s.graph.workers ==> p !in u.graph.workers) {
      assert p in t.graph.procs;
    }
    assert StopsSince(s, u) by { forall p <- s.graph.procs
        ensures p in t.graph.procs && OnwardLoosely(s.graph.procs[p], t.graph.procs[p]) { } }
    forall x <- u.board.begun | x !in s.board.begun && x.1.Check() ensures !Dead(s.graph, x.0) {
      if Dead(s.graph, x.0) { assert Dead(t.graph, x.0); }
    }
  }

  // ------------------------------------------------------------ one service

  /** The service was due, and its next occurrence is noted. */
  predicate Overran(service: Service, next: Option<int>, now: int) {
    && service.nextRun.Some? && service.nextRun.value <= now
    && (service.config.plan.Every? ==> 0 < service.config.plan.period) && next == NextDue(service, now)
  }

  /** A change of a service's own counters. A pending occurrence may only be noted
      while there is room for it. */
  ghost predicate Tunable(g: Graph, v: nat, service: Service, now: int)
    requires v in g.svcs
  {
    var old' := g.svcs[v];
    && service.name == old'.name && service.config == old'.config && service.listener == old'.listener
    && service.workers == old'.workers && service.cycle == old'.cycle && service.installed == old'.installed
    && (service.nextRun == old'.nextRun || Overran(old', service.nextRun, now))
    && (service.scheduled ==>
         old'.scheduled || (service.config.Scheduled() && |Executions(g, service.name)| < service.config.Limit()))
  }

  lemma TuneBounded(g: Graph, v: nat, service: Service)
    requires Bounded(g) && v in g.svcs && service.workers == g.svcs[v].workers && service.config == g.svcs[v].config
    ensures Bounded(PutService(g, v, service))
  {
    var h := PutService(g, v, service);
    forall u <- h.svcs ensures |Pool(h, u)| <= h.svcs[u].config.maxWorkers { assert Pool(h, u) == Pool(g, u); }
  }

  lemma TuneReserved(g: Graph, v: nat, service: Service, now: int)
    requires Reserved(g) && v in g.svcs && Tunable(g, v, service, now)
    ensures Reserved(PutService(g, v, service))
  {
    var h := PutService(g, v, service);
    forall name ensures Executions(h, name) == Executions(g, name) { TuneExecutions(g, v, service, name); }
    hide Executions;
    forall u <- h.svcs | Live(h, u) && h.svcs[u].scheduled
      ensures h.svcs[u].config.Scheduled() && |Executions(h, h.svcs[u].name)| < h.svcs[u].config.Limit()
    {
      assert Live(g, u);
    }
  }

  lemma TuneExecutions(g: Graph, v: nat, service: Service, name: string)
    requires v in g.svcs && service.name == g.svcs[v].name
    ensures Executions(PutService(g, v, service), name) == Executions(g, name)
  {
  }

  lemma TuneKeepsGood(s: State, v: nat, service: Service)
    requires Good(s) && v in s.graph.svcs && Tunable(s.graph, v, service, s.clock)
    ensures var t := s.(graph := PutService(s.graph, v, service)); Good(t) && Since(s, t)
  {
    var t := s.(graph := PutService(s.graph, v, service));
    ServiceKeeps(s, v, service);
    TuneBounded(s.graph, v, service);
    TuneReserved(s.graph, v, service, s.clock);
    TuneSince(s, v, service);
  }

  lemma TuneSince(s: State, v: nat, service: Service)
    requires Wired(s) && v in s.graph.svcs && Tunable(s.graph, v, service, s.clock)
    ensures var t := s.(graph := PutService(s.graph, v, service)); Wired(t) && Since(s, t)
  {
  }

  // ---------------------------------------------------------------- sockets

  lemma OpenSocketKeepsGood(s: State)
    requires Good(s)
    ensures Good(OpenSocket(s)) && Since(s, OpenSocket(s))
  {
    OpenSocketSince(s);
  }

  lemma OpenSocketSince(s: State)
    requires Wired(s)
    ensures Wired(OpenSocket(s)) && Since(s, OpenSocket(s))
  {
  }

  lemma CloseSocketKeepsGood(s: State, id: nat)
    requires Good(s) && id !in s.listeners
    ensures Good(CloseSocket(s, id)) && Since(s, CloseSocket(s, id))
  {
    CloseSocketSince(s, id);
  }

  lemma CloseSocketSince(s: State, id: nat)
    requires Wired(s) && id !in s.listeners
    ensures Wired(CloseSocket(s, id)) && Since(s, CloseSocket(s, id))
  {
  }

  // --------------------------------------------------- a name is forgotten

  /** Every worker of the name's service is retiring. */
  ghost predicate Drained(g: Graph, name: string) {
    name in g.services ==> forall w <- Inherited(g, name) :: w in g.procs && g.procs[w].stopping.Some?
  }

  lemma DropGraph(g: Graph, name: string)
    requires GraphInv(g) && name in g.services && Drained(g, name)
    ensures GraphInv(g.(services := g.services - {name}))
  {
    var h := g.(services := g.services - {name});
    assert Named(h);
    DropCurrent(g, name);
    assert forall c :: CycleActive(h, c) == CycleActive(g, c);
  }

  lemma DropCurrent(g: Graph, name: string)
    requires Indexed(g) && Current(g) && name in g.services && Drained(g, name)
    ensures Current(g.(services := g.services - {name}))
  {
    var h := g.(services := g.services - {name});
    forall w <- h.workers | ActiveWorker(h, w) && Linked(h, w)
      ensures Live(h, h.procs[w].service) && h.svcs[h.procs[w].service].config == h.procs[w].config
    {
      assert Live(g, g.procs[w].service) && w !in Inherited(g, name);
    }
  }

  lemma DropScopes(g: Graph, h: Graph, b: Board)
    requires h == g.(services := h.services) && Silenced(g, b) && Gated(g, b)
    ensures Silenced(h, b) && Gated(h, b) && Follows(g, h)
  {
    forall r <- b.runs ensures ScopeActive(h, r.scope) == ScopeActive(g, r.scope) { }
    forall q <- h.procs ensures Backed(h, b, q) { assert Backed(g, b, q); }
  }

  lemma DropBounds(g: Graph, name: string)
    requires Bounded(g) && Reserved(g)
    ensures Bounded(g.(services := g.services - {name})) && Reserved(g.(services := g.services - {name}))
  {
    var h := g.(services := g.services - {name});
    forall u <- h.svcs ensures |Pool(h, u)| <= h.svcs[u].config.maxWorkers { assert Pool(h, u) == Pool(g, u); }
    forall u <- h.svcs | Live(h, u) && h.svcs[u].scheduled
      ensures h.svcs[u].config.Scheduled() && |Executions(h, h.svcs[u].name)| < h.svcs[u].config.Limit()
    {
      assert Live(g, u);
      assert Executions(h, h.svcs[u].name) == Executions(g, h.svcs[u].name);
    }
  }

  lemma DropSince(s: State, name: string)
    requires Wired(s) && Named(s.graph) && name in s.graph.services
    ensures Wired(Drop(s, name)) && Since(s, Drop(s, name))
  {
    DropWired(s, name);
    hide Wired;
    DropSockets(s, name);
  }

  lemma DropWired(s: State, name: string)
    requires Wired(s) && Named(s.graph) && name in s.graph.services
    ensures Wired(Drop(s, name))
  {
    var t := Drop(s, name);
    forall v <- t.graph.svcs | Live(t.graph, v) ensures Live(s.graph, v) && v != s.graph.services[name] { }
  }

  lemma DropSockets(s: State, name: string)
    requires Wired(s) && Named(s.graph) && name in s.graph.services
    ensures SocketsSince(s, Drop(s, name))
  {
  }

  lemma DropKeepsGood(s: State, name: string)
    requires Good(s) && name in s.graph.services && Drained(s.graph, name)
    ensures Good(Drop(s, name)) && Since(s, Drop(s, name))
  {
    var h := s.graph.(services := s.graph.services - {name});
    DropGraph(s.graph, name);
    DropScopes(s.graph, h, s.board);
    FollowsKeeps(s.graph, h, s.board);
    DropBounds(s.graph, name);
    DropSince(s, name);
    assert Timely(h, s.clock);
  }

  // ------------------------------------------------- a service is installed

  /** `v` is a new object whose listener is the name's old one or not yet in use. */
  ghost predicate Installable(s: State, name: string, app: App, v: nat, listener: Option<nat>) {
    && v !in s.graph.svcs && app.Valid() && app.name == name && Drained(s.graph, name)
    && (name in s.graph.services && s.graph.services[name] in s.graph.svcs ==>
         listener == s.graph.svcs[s.graph.services[name]].listener)
    && (name !in s.graph.services && listener.Some? ==> listener.value in s.sockets && listener.value !in s.listeners)
  }

  ghost predicate Fresh(g: Graph, name: string, v: nat, service: Service) {
    && v !in g.svcs && Drained(g, name) && service.name == name && service.config.Valid() && service.config.name == name
    && service.workers == Inherited(g, name) && service.cycle.None? && !service.scheduled
  }

  lemma ReplaceActivity(g: Graph, name: string, v: nat, service: Service)
    ensures forall c :: CycleActive(Replace(g, name, v, service), c) == CycleActive(g, c)
    ensures forall w :: ActiveWorker(Replace(g, name, v, service), w) == ActiveWorker(g, w)
  {
    var h := Replace(g, name, v, service);
    forall c ensures CycleActive(h, c) == CycleActive(g, c) {
      if CycleActive(g, c) {
        var m :| m in g.cycles[c].members && m in g.procs && g.procs[m].Active();
        assert m in h.procs && h.procs[m].Active();
      }
      if CycleActive(h, c) {
        var m :| m in h.cycles[c].members && m in h.procs && h.procs[m].Active();
        assert m in g.procs && g.procs[m].Active();
      }
    }
  }

  lemma ReplaceIndexed(g: Graph, name: string, v: nat, service: Service)
    requires Indexed(g) && Fresh(g, name, v, service)
    ensures Indexed(Replace(g, name, v, service))
  {
    var h := Replace(g, name, v, service);
    forall w <- h.workers
        ensures Linked(h, w) && w in h.svcs[h.procs[w].service].workers && w in h.cycles[h.procs[w].cycle].members {
      assert Linked(g, w) && w in g.svcs[g.procs[w].service].workers;
    }
    forall u <- h.svcs, w <- h.svcs[u].workers ensures w in h.workers && w in h.procs && h.procs[w].service == u {
      if u != v { assert w in g.svcs[u].workers; }
    }
    assert CycleLists(h);
    assert Named(h);
  }

  lemma ReplaceCurrent(g: Graph, name: string, v: nat, service: Service)
    requires Indexed(g) && Current(g) && Fresh(g, name, v, service)
    ensures Current(Replace(g, name, v, service))
  {
    var h := Replace(g, name, v, service);
    forall w <- h.workers | ActiveWorker(h, w) && Linked(h, w)
      ensures Live(h, h.procs[w].service) && h.svcs[h.procs[w].service].config == h.procs[w].config
    {
      assert Linked(g, w) && ActiveWorker(g, w) && w !in service.workers;
      assert Live(g, g.procs[w].service) && g.procs[w].service != v;
    }
  }

  lemma ReplaceTitled(g: Graph, name: string, v: nat, service: Service)
    requires Indexed(g) && Titled(g) && Fresh(g, name, v, service)
    ensures Titled(Replace(g, name, v, service))
  {
    var h := Replace(g, name, v, service);
    forall w <- h.workers | Linked(h, w) ensures h.procs[w].config.name == h.svcs[h.procs[w].service].name {
      ReplaceTitle(g, name, v, service, w);
    }
    assert forall u <- h.svcs :: h.svcs[u].config.name == h.svcs[u].name;
  }

  lemma ReplaceTitle(g: Graph, name: string, v: nat, service: Service, w: nat)
    requires Listed(g) && ServiceLists(g) && Named(g) && Titled(g) && Fresh(g, name, v, service) && w in g.workers
    ensures var h := Replace(g, name, v, service); Linked(h, w) ==>
        h.procs[w].config.name == h.svcs[h.procs[w].service].name
  {
    var u := g.procs[w].service;
    assert Linked(g, w) && w in g.svcs[u].workers && g.procs[w].config.name == g.svcs[u].name;
    if w in service.workers {
      assert g.services[name] == u;
    } else if name in g.services {
      assert g.services[name] != u;
    }
  }

  lemma ReplaceConfigured(g: Graph, name: string, v: nat, service: Service)
    requires Configured(g) && Fresh(g, name, v, service)
    ensures Configured(Replace(g, name, v, service))
  {
  }

  lemma ReplaceGraph(g: Graph, name: string, v: nat, service: Service)
    requires GraphInv(g) && Fresh(g, name, v, service)
    ensures GraphInv(Replace(g, name, v, service))
  {
    ReplaceIndexed(g, name, v, service);
    ReplaceCurrent(g, name, v, service);
    ReplaceConfigured(g, name, v, service);
    ReplaceTitled(g, name, v, service);
    ReplaceActivity(g, name, v, service);
    ReplaceConsistent(g, name, v, service);
  }

  lemma ReplaceConsistent(g: Graph, name: string, v: nat, service: Service)
    requires AllConsistent(g)
    ensures AllConsistent(Replace(g, name, v, service))
  {
    forall p <- g.procs ensures Consistent(g.procs[p].(service := v)) { assert Consistent(g.procs[p]); }
  }

  lemma ReplaceScopes(g: Graph, b: Board, name: string, v: nat, service: Service)
    requires Silenced(g, b) && Gated(g, b)
    ensures Silenced(Replace(g, name, v, service), b) && Gated(Replace(g, name, v, service), b)
    ensures Follows(g, Replace(g, name, v, service))
  {
    var h := Replace(g, name, v, service);
    ReplaceActivity(g, name, v, service);
    forall r <- b.runs ensures ScopeActive(h, r.scope) == ScopeActive(g, r.scope) { }
    forall q <- h.procs ensures Backed(h, b, q) { assert Backed(g, b, q); }
    forall scope | Known(g, scope) ensures Known(h, scope) && SameBindings(g, h, scope) && KeepsReached(g, h, scope) {
      if scope.OfCycle? && AllExited(g, scope.cycle) { assert AllExited(h, scope.cycle); }
    }
  }

  lemma ReplaceBounded(g: Graph, name: string, v: nat, service: Service)
    requires Indexed(g) && Bounded(g) && Fresh(g, name, v, service)
    ensures Bounded(Replace(g, name, v, service))
  {
    var h := Replace(g, name, v, service);
    forall u <- h.svcs ensures |Pool(h, u)| <= h.svcs[u].config.maxWorkers { ReplacePool(g, name, v, service, u); }
  }

  lemma ReplacePool(g: Graph, name: string, v: nat, service: Service, u: nat)
    requires Indexed(g) && Fresh(g, name, v, service) && u in Replace(g, name, v, service).svcs
    ensures Pool(Replace(g, name, v, service), u) == if u == v then {} else Pool(g, u)
  {
  }

  /** A name keeps all its executions: the drained ones count against the new object. */
  lemma ReplaceExecutions(g: Graph, name: string, v: nat, service: Service, n: string)
    requires Indexed(g) && Fresh(g, name, v, service)
    ensures Executions(Replace(g, name, v, service), n) == Executions(g, n)
  {
    var h := Replace(g, name, v, service);
    forall w ensures w in Executions(h, n) <==> w in Executions(g, n) {
      if w in g.workers && w in g.procs {
        assert Linked(g, w) && w in g.svcs[g.procs[w].service].workers;
        assert w in service.workers <==> name in g.services && g.services[name] == g.procs[w].service;
      }
    }
  }

  lemma ReplaceReserved(g: Graph, name: string, v: nat, service: Service)
    requires Indexed(g) && Reserved(g) && Fresh(g, name, v, service)
    ensures Reserved(Replace(g, name, v, service))
  {
    var h := Replace(g, name, v, service);
    forall u <- h.svcs | Live(h, u) && h.svcs[u].scheduled
      ensures h.svcs[u].config.Scheduled() && |Executions(h, h.svcs[u].name)| < h.svcs[u].config.Limit()
    {
      assert Live(g, u);
      ReplaceExecutions(g, name, v, service, h.svcs[u].name);
    }
  }

  lemma InstallWired(s: State, name: string, app: App, v: nat, listener: Option<nat>)
    requires Wired(s) && Named(s.graph) && Installable(s, name, app, v, listener)
    ensures Wired(Install(s, name, app, v, listener))
  {
  }

  lemma InstallSince(s: State, name: string, app: App, v: nat, listener: Option<nat>)
    requires Wired(s) && Indexed(s.graph) && Installable(s, name, app, v, listener)
    ensures Since(s, Install(s, name, app, v, listener))
  {
    InstallProcs(s, name, app, v, listener);
    InstallSockets(s, name, app, v, listener);
  }

  lemma InstallProcs(s: State, name: string, app: App, v: nat, listener: Option<nat>)
    requires Installable(s, name, app, v, listener)
    ensures var t := Install(s, name, app, v, listener);
      ProcsSince(s.graph, t.graph) && StopsSince(s, t) && CyclesLater(s.graph, t.graph)
  {
  }

  lemma InstallSockets(s: State, name: string, app: App, v: nat, listener: Option<nat>)
    requires Wired(s) && Indexed(s.graph) && Installable(s, name, app, v, listener)
    ensures SocketsSince(s, Install(s, name, app, v, listener))
  {
  }

  lemma InstallKeepsGood(s: State, name: string, app: App, v: nat, listener: Option<nat>)
    requires Good(s) && Installable(s, name, app, v, listener)
    ensures var t := Install(s, name, app, v, listener); Good(t) && Since(s, t)
  {
    var service := NewService(name, app, listener, Inherited(s.graph, name), s.clock);
    var h := Replace(s.graph, name, v, service);
    ReplaceGraph(s.graph, name, v, service);
    ReplaceScopes(s.graph, s.board, name, v, service);
    FollowsKeeps(s.graph, h, s.board);
    ReplaceBounded(s.graph, name, v, service);
    ReplaceReserved(s.graph, name, v, service);
    ReplaceTimely(s.graph, name, v, service, s.clock);
    InstallWired(s, name, app, v, listener);
    InstallSince(s, name, app, v, listener);
  }

  lemma ReplaceTimely(g: Graph, name: string, v: nat, service: Service, clock: int)
    requires Timely(g, clock)
    ensures Timely(Replace(g, name, v, service), clock)
  {
  }

  // --------------------------------------------------------------- shutdown

  lemma UnlistenSince(s: State, v: nat)
    requires Wired(s) && Live(s.graph, v)
    ensures Wired(Unlisten(s, v)) && Since(s, Unlisten(s, v))
  {
    UnlistenWired(s, v);
    hide Wired;
    UnlistenSockets(s, v);
  }

  lemma UnlistenWired(s: State, v: nat)
    requires Wired(s) && Live(s.graph, v)
    ensures Wired(Unlisten(s, v))
  {
    var t := Unlisten(s, v);
    forall u <- t.graph.svcs | Live(t.graph, u) ensures Live(s.graph, u) { }
  }

  lemma UnlistenSockets(s: State, v: nat)
    requires Wired(s) && Live(s.graph, v)
    ensures SocketsSince(s, Unlisten(s, v))
  {
  }

  lemma UnlistenKeepsGood(s: State, v: nat)
    requires Good(s) && Live(s.graph, v)
    ensures Good(Unlisten(s, v)) && Since(s, Unlisten(s, v))
  {
    var service := s.graph.svcs[v].(listener := None);
    ServiceKeeps(s, v, service);
    TuneBounded(s.graph, v, service);
    UnlistenReserved(s.graph, v);
    UnlistenSince(s, v);
  }

  lemma UnlistenReserved(g: Graph, v: nat)
    requires Reserved(g) && v in g.svcs
    ensures Reserved(PutService(g, v, g.svcs[v].(listener := None)))
  {
    var h := PutService(g, v, g.svcs[v].(listener := None));
    forall u <- h.svcs | Live(h, u) && h.svcs[u].scheduled
      ensures h.svcs[u].config.Scheduled() && |Executions(h, h.svcs[u].name)| < h.svcs[u].config.Limit()
    {
      assert Live(g, u);
      assert Executions(h, h.svcs[u].name) == Executions(g, h.svcs[u].name);
    }
  }
}
