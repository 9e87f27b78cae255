/** What holds in every state, and between any two states, of every run. */
module ManagerTheorems {
  import opened Options
  import opened Config
  import opened ActionBoard
  import opened ManagerState
  import opened ManagerSteps
  import opened ManagerInvariant
  import opened ManagerHistory
  import opened ManagerOperations
  import opened ManagerTable
  import opened ManagerReload
  import opened ManagerRuns

  /** Some run of the manager arrives in `s`. */
  ghost predicate Reachable(s: State) {
    exists clock: int :: Path(Initial(clock), s)
  }

  lemma ReachableGood(s: State)
    requires Reachable(s)
    ensures Good(s)
  {
    hide Good, Path;
    var clock: int :| Path(Initial(clock), s);
    InitialGood(clock);
    PathKeepsGood(Initial(clock), s);
  }

  lemma ReachableSince(s: State, t: State)
    requires Reachable(s) && Path(s, t)
    ensures Reachable(t) && Inv(s) && Inv(t) && Wired(s) && Since(s, t)
  {
    hide Inv, Path;
    ReachableGood(s);
    PathKeepsGood(s, t);
    var clock: int :| Path(Initial(clock), s);
    PathTransitive(Initial(clock), s, t);
  }

  // --------------------------------------------------- lifecycle generations

  /** A generation retires exactly when its last active member does; its stop hooks
      follow that, and its last hooks follow the exit of every member. */
  lemma GenerationLifecycle(s: State, c: nat)
    requires Reachable(s) && c in s.graph.cycles
    ensures s.graph.cycles[c].retiring <==> !CycleActive(s.graph, c)
    ensures (OfCycle(c), PreStop) in s.board.begun ==> s.graph.cycles[c].retiring
    ensures (OfCycle(c), PostStop) in s.board.begun ==> s.graph.cycles[c].retiring && AllExited(s.graph, c)
  {
    ReachableGood(s);
    assert (OfCycle(c), PreStop) in s.board.begun ==> Reached(s.graph, OfCycle(c), PreStop);
    assert (OfCycle(c), PostStop) in s.board.begun ==> Reached(s.graph, OfCycle(c), PostStop);
  }

  /** A retiring generation never gains a member, never begins another check, and
      never invokes a start, readiness or health action again. */
  lemma GenerationNeverRevives(s: State, t: State, c: nat)
    requires Reachable(s) && Path(s, t) && c in s.graph.cycles && s.graph.cycles[c].retiring
    ensures c in t.graph.cycles && t.graph.cycles[c].retiring && t.graph.cycles[c].members <= s.graph.cycles[c].members
    ensures forall e: Event :: e.Check() && (OfCycle(c), e) in t.board.begun ==> (OfCycle(c), e) in s.board.begun
    ensures forall r <- s.board.runs :: r.scope == OfCycle(c) && r.event.Check() ==>
        r in t.board.runs && t.board.runs[r].launches == s.board.runs[r].launches
  {
    ReachableSince(s, t);
    forall r <- s.board.runs | r.scope == OfCycle(c) && r.event.Check() ensures s.board.runs[r].cancelled {
      assert !ScopeActive(s.graph, r.scope);
    }
    forall e: Event | e.Check() && (OfCycle(c), e) in t.board.begun ensures (OfCycle(c), e) in s.board.begun {
      assert Dead(s.graph, (OfCycle(c), e).0);
    }
  }

  /** The same for one worker that stopped or exited. */
  lemma WorkerNeverRevives(s: State, t: State, p: nat)
    requires Reachable(s) && Path(s, t) && p in s.graph.procs && !ActiveWorker(s.graph, p)
    ensures !ActiveWorker(t.graph, p)
    ensures forall e: Event :: e.Check() && (OfWorker(p), e) in t.board.begun ==> (OfWorker(p), e) in s.board.begun
    ensures forall r <- s.board.runs :: r.scope == OfWorker(p) && r.event.Check() ==>
        r in t.board.runs && t.board.runs[r].launches == s.board.runs[r].launches
  {
    ReachableSince(s, t);
    forall r <- s.board.runs | r.scope == OfWorker(p) && r.event.Check() ensures s.board.runs[r].cancelled {
      assert !ScopeActive(s.graph, r.scope);
    }
    forall e: Event | e.Check() && (OfWorker(p), e) in t.board.begun ensures (OfWorker(p), e) in s.board.begun {
      assert Dead(s.graph, (OfWorker(p), e).0);
    }
    assert OnwardLoosely(s.graph.procs[p], t.graph.procs[p]);
  }

  // ------------------------------------------------------------- action runs

  /** No binding has two invocations at a time, a start or stop hook has one in all,
      and the loop's counter is the number of results still to come. */
  lemma ActionsOnce(s: State, r: RunRef)
    requires Reachable(s) && r in s.board.runs
    ensures s.board.inflight[r] == (if s.board.runs[r].running then 1 else 0)
    ensures !r.event.Periodic() ==> s.board.runs[r].launches <= 1
    ensures s.board.tasks == |s.board.inflight|
  {
    ReachableGood(s);
    assert Sound(s.board, r);
  }

  /** The loop returns only when no action is running. */
  lemma NothingOutstanding(s: State)
    requires Reachable(s) && s.board.tasks == 0
    ensures s.board.inflight == multiset{} && forall r <- s.board.runs :: !s.board.runs[r].running
  {
    ReachableGood(s);
    forall r <- s.board.runs ensures !s.board.runs[r].running { assert Sound(s.board, r); }
  }

  /** A readiness check that succeeded and a cancelled run are never invoked again. */
  lemma NeverInvokedAgain(s: State, t: State, r: RunRef)
    requires Reachable(s) && Path(s, t) && r in s.board.runs
    requires s.board.runs[r].cancelled || (r.event == Readiness && s.board.runs[r].success)
    ensures r in t.board.runs && t.board.runs[r].launches == s.board.runs[r].launches
    ensures s.board.runs[r].cancelled ==>
        t.board.runs[r].failures == s.board.runs[r].failures && t.board.runs[r].done == s.board.runs[r].done
  {
    ReachableSince(s, t);
    assert Later(s.board.runs[r], t.board.runs[r], r.event);
  }

  // --------------------------------------------------------------- processes

  /** A process object is created by the system at most once, asked to stop at most
      once, killed at most once, and charged at most once; none of the last three
      touches a process that was not created. */
  lemma ProcessOnce(s: State, p: nat)
    requires Reachable(s) && p in s.graph.procs
    ensures var child := s.graph.procs[p];
      && child.starts <= 1 && child.stops <= 1 && child.kills <= 1 && child.backoffs <= 1
      && (child.stops == 1 || child.kills == 1 ==> child.starts == 1)
      && (child.kills == 1 ==> child.stops == 1 && child.stopping.Some?)
  {
    ReachableGood(s);
    assert Consistent(s.graph.procs[p]);
  }

  /** pending, stopping, exited, stopSent and killed only move forward, and a
      process that left the workers does not come back. */
  lemma ProcessForward(s: State, t: State, p: nat)
    requires Reachable(s) && Path(s, t) && p in s.graph.procs
    ensures p in t.graph.procs && OnwardLoosely(s.graph.procs[p], t.graph.procs[p])
    ensures p !in s.graph.workers ==> p !in t.graph.workers
  {
    ReachableSince(s, t);
  }

  /** No process runs before its start hooks passed, none is published as ready
      before its post-start hooks and readiness checks passed, and none leaves
      before its last hooks passed. */
  lemma HooksInOrder(s: State, p: nat)
    requires Reachable(s) && p in s.graph.procs
    ensures s.graph.procs[p].starts > 0 ==>
        HooksPassed(s.board, OfWorker(p), PreStart) && HooksPassed(s.board, OfCycle(s.graph.procs[p].cycle), PreStart)
    ensures s.graph.procs[p].ready ==> forall e: Event | e == PostStart || e == Readiness ::
      HooksPassed(s.board, OfWorker(p), e) && HooksPassed(s.board, OfCycle(s.graph.procs[p].cycle), e)
    ensures s.graph.procs[p].exited && p !in s.graph.workers ==> HooksPassed(s.board, OfWorker(p), PostStop)
  {
    ReachableGood(s);
    assert Consistent(s.graph.procs[p]) && Backed(s.graph, s.board, p);
  }

  // -------------------------------------------------------- indexes and pools

  /** The three places that list a worker agree, and an unretired one runs the
      configuration that is installed under its service's name. */
  lemma IndexesAgree(s: State, p: nat)
    requires Reachable(s) && p in s.graph.workers
    ensures Linked(s.graph, p)
    ensures p in s.graph.svcs[s.graph.procs[p].service].workers && p in s.graph.cycles[s.graph.procs[p].cycle].members
    ensures s.graph.procs[p].Active() ==>
      var name := s.graph.svcs[s.graph.procs[p].service].name;
      name in Installed(s.graph) && Installed(s.graph)[name] == s.graph.procs[p].config
  {
    ReachableGood(s);
    if s.graph.procs[p].Active() {
      assert Live(s.graph, s.graph.procs[p].service);
    }
  }

  lemma IndexesHoldWorkersOnly(s: State, v: nat, p: nat)
    requires Reachable(s) && v in s.graph.svcs && p in s.graph.svcs[v].workers
    ensures p in s.graph.workers && p in s.graph.procs && s.graph.procs[p].service == v
  {
    hide Good;
    ReachableGood(s);
    GoodLists(s);
  }

  lemma GoodLists(s: State)
    requires Good(s)
    ensures ServiceLists(s.graph)
  {
  }

  lemma PoolBounded(s: State, v: nat)
    requires Reachable(s) && v in s.graph.svcs
    ensures |Pool(s.graph, v)| <= s.graph.svcs[v].config.maxWorkers
  {
    ReachableGood(s);
  }

  // ------------------------------------------------------ scheduled executions

  /** While an occurrence is noted, a non-overlapping application has no unfinished
      execution: no reservation, no process, and no process whose last hooks are awaited. */
  lemma OccurrenceFindsNobody(s: State, name: string)
    requires Reachable(s) && name in s.graph.services && s.graph.services[name] in s.graph.svcs
    requires s.graph.svcs[s.graph.services[name]].scheduled && !s.graph.svcs[s.graph.services[name]].config.overlap
    ensures Executions(s.graph, name) == {}
  {
    ReachableGood(s);
    assert Live(s.graph, s.graph.services[name]);
  }

  /** In all its configurations the application is scheduled without overlap. */
  ghost predicate AlwaysExclusive(moves: seq<Move>, name: string) {
    forall m <- moves :: m.Installing? && m.name == name ==> m.app.Scheduled() && !m.app.overlap
  }

  ghost predicate Exclusive(g: Graph, name: string) {
    && |Executions(g, name)| <= 1
    && forall v <- g.svcs :: g.svcs[v].name == name ==> g.svcs[v].config.Scheduled() && !g.svcs[v].config.overlap
  }

  lemma LeadsExclusive(s: State, t: State, name: string)
    requires Inv(s) && Leads(s, t) && Exclusive(s.graph, name)
    ensures Exclusive(t.graph, name)
  {
    ExecutionsShrink(s.graph, t.graph, name);
    forall v <- t.graph.svcs
        ensures t.graph.svcs[v].name == name ==> t.graph.svcs[v].config.Scheduled() && !t.graph.svcs[v].config.overlap {
      assert SameService(s.graph.svcs[v], t.graph.svcs[v]);
    }
  }

  lemma SpawnExclusive(s: State, v: nat, p: nat, c: nat, ok: bool, name: string)
    requires Inv(s) && Admissible(s.graph, v, p, c) && HasRoom(s.graph, v) && Exclusive(s.graph, name)
    ensures Exclusive(Spawn(s, v, p, c, s.clock, ok).graph, name)
  {
    assert v in s.graph.svcs;
    hide Spawn, Inv, Leads, Admissible, HasRoom, Exclusive, Reserve;
    SpawnLeads(s, v, p, c, s.clock, ok);
    AdmitEvolves(s, v, p, c, s.clock);
    ListedWorkers(s);
    ReserveExclusive(s.graph, v, p, c, s.clock, name);
    LeadsExclusive(s.(graph := Reserve(s.graph, v, p, c, s.clock)), Spawn(s, v, p, c, s.clock, ok), name);
  }

  lemma ListedWorkers(s: State)
    requires Inv(s)
    ensures Listed(s.graph)
  {
  }

  lemma ReserveExclusive(g: Graph, v: nat, p: nat, c: nat, now: int, name: string)
    requires Listed(g) && Admissible(g, v, p, c) && HasRoom(g, v) && Exclusive(g, name)
    ensures Exclusive(Reserve(g, v, p, c, now), name)
  {
    ReserveExecutions(g, v, p, c, now, name);
  }

  lemma MoveExclusive(s: State, m: Move, name: string)
    requires Good(s) && Enabled(s, m) && Exclusive(s.graph, name) && AlwaysExclusive([m], name)
    ensures Exclusive(Result(s, m).graph, name)
  {
    assert m in [m];
    if OnProcess(m) {
      ProcessMoveLeads(s, m);
      LeadsExclusive(s, Result(s, m), name);
    } else {
      match m
      case Wake(now) =>
      case Spawning(v, p, c, ok) => SpawnExclusive(s, v, p, c, ok, name);
      case Tuning(v, service) => TuneExclusive(s.graph, v, service, name);
      case Opening =>
      case Closing(id) =>
      case Dropping(dropped) => DropExclusive(s, dropped, name);
      case Installing(installed, app, v, listener) => InstallExclusive(s, installed, app, v, listener, name);
      case Unlistening(v) => TuneExclusive(s.graph, v, s.graph.svcs[v].(listener := None), name);
    }
  }

  lemma TuneExclusive(g: Graph, v: nat, service: Service, name: string)
    requires v in g.svcs && service.name == g.svcs[v].name && service.config == g.svcs[v].config && Exclusive(g, name)
    ensures Exclusive(PutService(g, v, service), name)
  {
    assert Executions(PutService(g, v, service), name) == Executions(g, name);
  }

  lemma DropExclusive(s: State, dropped: string, name: string)
    requires dropped in s.graph.services && s.graph.services[dropped] in s.graph.svcs && Exclusive(s.graph, name)
    ensures Exclusive(Drop(s, dropped).graph, name)
  {
    assert Executions(Drop(s, dropped).graph, name) == Executions(s.graph, name);
  }

  lemma InstallExclusive(s: State, installed: string, app: App, v: nat, listener: Option<nat>,
            name: string)
    requires Inv(s) && Installable(s, installed, app, v, listener) && Exclusive(s.graph, name)
    requires installed == name ==> app.Scheduled() && !app.overlap
    ensures Exclusive(Install(s, installed, app, v, listener).graph, name)
  {
    ReplaceExecutions(s.graph, installed, v,
        NewService(installed, app, listener, Inherited(s.graph, installed), s.clock), name);
  }

  /** Whatever is reloaded, removed and added again: an application that is always
      scheduled without overlap never has two unfinished executions. */
  lemma {:induction false} NeverTwoExecutions(s: State, moves: seq<Move>, name: string)
    requires Good(s) && Legal(s, moves) && Exclusive(s.graph, name) && AlwaysExclusive(moves, name)
    ensures Exclusive(After(s, moves).graph, name)
    decreases |moves|
  {
    hide Good, Exclusive, Enabled, Result;
    if moves == [] {
    } else {
      assert moves[0] in moves;
      MoveKeepsGood(s, moves[0]);
      MoveExclusive(s, moves[0], name);
      NeverTwoExecutions(Result(s, moves[0]), moves[1..], name);
    }
  }

  lemma NeverTwoExecutionsFromStart(clock: int, moves: seq<Move>, name: string)
    requires Legal(Initial(clock), moves) && AlwaysExclusive(moves, name)
    ensures |Executions(After(Initial(clock), moves).graph, name)| <= 1
  {
    hide Legal, After;
    InitialGood(clock);
    assert Executions(Initial(clock).graph, name) == {};
    NeverTwoExecutions(Initial(clock), moves, name);
  }

  // --------------------------------------------------------------- due times

  /** `due` is point number `k` of the cadence that began at `base`. */
  predicate PointOf(base: int, period: int, k: nat, due: int) {
    0 < k && due == base + k * period
  }

  /** When the next occurrence of a service may be considered. */
  ghost predicate OnCadence(service: Service) {
    match service.config.plan
    case Unscheduled => service.nextRun.None?
    case Every(period) =>
      && 0 < period && service.nextRun.Some?
      && exists k: nat :: PointOf(service.installed, period, k, service.nextRun.value)
    case Calendar(_) => service.nextRun.Some? && service.nextRun.value % Schedule.MINUTE == 0
  }

  ghost predicate AllOnCadence(g: Graph) {
    forall v <- g.svcs :: OnCadence(g.svcs[v])
  }

  lemma EvolvesOnCadence(s: State, t: State)
    requires Evolves(s, t) && AllOnCadence(s.graph)
    ensures AllOnCadence(t.graph)
  {
    forall v <- t.graph.svcs ensures OnCadence(t.graph.svcs[v]) {
      assert SameService(s.graph.svcs[v], t.graph.svcs[v]) && OnCadence(s.graph.svcs[v]);
    }
  }

  /** A new service starts its cadence. */
  lemma InstalledOnCadence(name: string, app: App, listener: Option<nat>, workers: set<nat>, now: int)
    requires app.Valid()
    ensures OnCadence(NewService(name, app, listener, workers, now))
  {
    if app.plan.Every? { assert PointOf(now, app.plan.period, 1, now + app.plan.period); }
  }

  /** A due occurrence moves to a later point of it. */
  lemma OverranOnCadence(service: Service, next: Option<int>, now: int)
    requires OnCadence(service) && service.config.Valid() && Overran(service, next, now)
    ensures OnCadence(service.(nextRun := next))
  {
    var plan, due := service.config.plan, service.nextRun.value;
    if plan.Every? {
      var k: nat :| PointOf(service.installed, plan.period, k, due);
      Schedule.NextPointIsLeast(due, plan.period, now);
      var more := Schedule.Passed(due, plan.period, now);
      assert (k + more) * plan.period == k * plan.period + more * plan.period;
      assert PointOf(service.installed, plan.period, k + more, next.value);
    }
  }

  lemma InstalledValid(s: State, v: nat)
    requires Good(s) && v in s.graph.svcs
    ensures s.graph.svcs[v].config.Valid()
  {
  }

  lemma TuneOnCadence(s: State, v: nat, service: Service)
    requires Good(s) && v in s.graph.svcs && Tunable(s.graph, v, service, s.clock) && AllOnCadence(s.graph)
    ensures AllOnCadence(PutService(s.graph, v, service))
  {
    hide Good;
    var old' := s.graph.svcs[v];
    InstalledValid(s, v);
    assert OnCadence(old');
    if service.nextRun != old'.nextRun { OverranOnCadence(old', service.nextRun, s.clock); }
    assert OnCadence(service);
  }

  lemma InstallOnCadence(s: State, name: string, app: App, v: nat, listener: Option<nat>)
    requires Installable(s, name, app, v, listener) && AllOnCadence(s.graph)
    ensures AllOnCadence(Install(s, name, app, v, listener).graph)
  {
    InstalledOnCadence(name, app, listener, Inherited(s.graph, name), s.clock);
  }

  lemma ProcessOnCadence(s: State, m: Move)
    requires Inv(s) && OnProcess(m) && Enabled(s, m) && AllOnCadence(s.graph)
    ensures AllOnCadence(Result(s, m).graph)
  {
    hide Inv, Enabled, Result, AllOnCadence;
    ProcessMoveLeads(s, m);
    EvolvesOnCadence(s, Result(s, m));
  }

  lemma MoveOnCadence(s: State, m: Move)
    requires Good(s) && Enabled(s, m) && AllOnCadence(s.graph)
    ensures AllOnCadence(Result(s, m).graph)
  {
    if OnProcess(m) {
      ProcessOnCadence(s, m);
    } else {
      hide Good, OnCadence, Tunable, Installable, Spawn;
      match m
      case Wake(now) =>
      case Spawning(v, p, c, ok) =>
        SpawnKeepsGood(s, v, p, c, ok);
        EvolvesOnCadence(s, Result(s, m));
      case Tuning(v, service) => TuneOnCadence(s, v, service);
      case Opening =>
      case Closing(id) =>
      case Dropping(dropped) =>
      case Installing(name, app, v, listener) => InstallOnCadence(s, name, app, v, listener);
      case Unlistening(v) => UnlistenOnCadence(s, v);
    }
  }

  lemma UnlistenOnCadence(s: State, v: nat)
    requires v in s.graph.svcs && AllOnCadence(s.graph)
    ensures AllOnCadence(Unlisten(s, v).graph)
  {
    assert OnCadence(s.graph.svcs[v]);
  }

  /** Over any run the due time of a service stays on the cadence that began when the
      service was installed, and a calendar is considered at full minutes only. */
  lemma {:induction false} RunOnCadence(s: State, moves: seq<Move>)
    requires Good(s) && Legal(s, moves) && AllOnCadence(s.graph)
    ensures AllOnCadence(After(s, moves).graph)
    decreases |moves|
  {
    hide Good, AllOnCadence, Enabled, Result;
    if moves == [] {
    } else {
      MoveKeepsGood(s, moves[0]);
      MoveOnCadence(s, moves[0]);
      RunOnCadence(Result(s, moves[0]), moves[1..]);
    }
  }

  lemma DueOnCadence(s: State)
    requires Reachable(s)
    ensures AllOnCadence(s.graph)
  {
    hide Good, Legal, After;
    var clock: int :| Path(Initial(clock), s);
    var moves :| Legal(Initial(clock), moves) && After(Initial(clock), moves) == s;
    InitialGood(clock);
    RunOnCadence(Initial(clock), moves);
  }

  // --------------------------------------------------------------- listeners

  /** An identifier that was handed out and is closed is never open again. */
  lemma IdentifiersNotReused(s: State, t: State, id: nat)
    requires Reachable(s) && Path(s, t) && id <= s.nextListener && id !in s.sockets
    ensures id !in t.sockets && id !in t.listeners
  {
    ReachableSince(s, t);
    ReachableGood(t);
  }

  /** A queued event of a listener reaches the application it was opened for, or nobody. */
  lemma EventsStayWithTheirApp(s: State, t: State, id: nat)
    requires Reachable(s) && Path(s, t) && id in s.listeners && id in t.listeners
    ensures s.listeners[id] in s.graph.svcs && t.listeners[id] in t.graph.svcs
    ensures t.graph.svcs[t.listeners[id]].name == s.graph.svcs[s.listeners[id]].name
  {
    ReachableSince(s, t);
    ReachableGood(t);
  }

  /** Listener identifiers and the services that own them determine each other. */
  lemma ListenersBijective(s: State, name: string, id: nat)
    requires Reachable(s) && name in s.graph.services
    ensures s.graph.services[name] in s.graph.svcs
    ensures id in s.listeners && s.listeners[id] == s.graph.services[name] <==>
        s.graph.svcs[s.graph.services[name]].listener == Some(id)
  {
    ReachableGood(s);
    assert Live(s.graph, s.graph.services[name]);
  }

  // --------------------------------------------------------------- idle times

  /** A process that reports its requests and has none has an idle time, and no
      request was in progress after it. */
  lemma IdleSinceIsSet(s: State, p: nat)
    requires Reachable(s) && p in s.graph.procs && s.graph.procs[p].telemetry && s.graph.procs[p].requests == map[]
    ensures s.graph.procs[p].idleSince.Some?
    ensures s.graph.procs[p].busyUntil.Some? ==> s.graph.procs[p].busyUntil.value <= s.graph.procs[p].idleSince.value
  {
    ReachableGood(s);
    assert Consistent(s.graph.procs[p]);
  }

  // ---------------------------------------------------- requests and delays

  /** A worker whose request started and ended. */
  function Served(child: Process, later: int): Process {
    child.(busyUntil := Some(later), idleSince := if child.requests == map[] then Some(later) else None)
  }

  lemma BusyThenFree(child: Process, id: string, now: int, later: int)
    requires id !in child.requests
    ensures id in Busier(child, id, now).requests && Freer(Busier(child, id, now), id, later) == Served(child, later)
  {
    assert child.requests[id := now] - {id} == child.requests;
  }

  /** A request that starts and ends leaves a worker as it was, but for when it was last
      busy and since when it is idle. */
  lemma RequestPaired(s: State, p: nat, id: string, now: int, later: int)
    requires Linked(s.graph, p) && s.graph.procs[p].telemetry && id != "" && id !in s.graph.procs[p].requests
    ensures var t := RequestStart(s, p, id, now);
      && Linked(t.graph, p) && RequestEnd(t, p, id, later) == WithProc(s, p, Served(s.graph.procs[p], later))
  {
    hide Busier, Freer, Served, Confined, Stop;
    var child := s.graph.procs[p];
    BusyThenFree(child, id, now, later);
    BusyStays(child, id, now);
    var t := WithProc(s, p, Busier(child, id, now));
    assert RequestStart(s, p, id, now) == t;
    assert RequestEnd(t, p, id, later) == WithProc(t, p, Freer(Busier(child, id, now), id, later));
    assert s.graph.procs[p := Busier(child, id, now)][p := Served(child, later)]
        == s.graph.procs[p := Served(child, later)];
  }

  lemma BusyStays(child: Process, id: string, now: int)
    ensures SameObject(child, Busier(child, id, now))
  {
  }

  /** One that starts twice, or ends without having started, stops it as failed. */
  lemma RequestUnpaired(s: State, p: nat, id: string, now: int)
    requires Linked(s.graph, p)
    ensures id in s.graph.procs[p].requests ==>
        RequestStart(s, p, id, now).graph.procs[p].failed && RequestStart(s, p, id, now).graph.procs[p].stopping.Some?
    ensures id !in s.graph.procs[p].requests ==>
        RequestEnd(s, p, id, now).graph.procs[p].failed && RequestEnd(s, p, id, now).graph.procs[p].stopping.Some?
  {
    hide Stop;
  }

  const SHORTEST := 250_000_000

  const LONGEST := 32_000_000_000

  /** The first failure delays the next start by 250 ms, each further one twice as long
      as the one before, up to 32 s. */
  lemma BackoffDoubles(service: Service, now: int, later: int)
    ensures var once := Backoff(service, now);
      && once.retryAt.Some? && SHORTEST <= once.retryAt.value - now <= LONGEST
      && (service.failures == 0 ==> once.retryAt.value == now + SHORTEST)
      && var twice := Backoff(once, later);
      && twice.retryAt == Some(later + if 2 * (once.retryAt.value - now) < LONGEST then 2 * (once.retryAt.value - now)
          else LONGEST)
  {
  }
}
