/** What one tick does to a worker and to a service. */
module ManagerTick {
  import opened Options
  import opened Config
  import opened ActionBoard
  import opened ManagerState
  import opened ManagerSteps
  import opened ManagerInvariant
  import opened ManagerHistory
  import opened ManagerOperations
  import opened ManagerTable
  import opened ManagerReload
  import opened ManagerRuns
  import opened ManagerPending
  import opened Sets
  import opened Activation
  import Dependencies
  import Schedule

  // -------------------------------------------------- moves within one tick

  /** The moves of a tick on the configured services and their workers. */
  predicate Local(m: Move) {
    OnProcess(m) || m.Spawning? || m.Tuning?
  }

  ghost predicate SameServices(g: Graph, h: Graph) {
    && h.services == g.services && h.svcs.Keys == g.svcs.Keys
    && forall v <- g.svcs ::
         h.svcs[v].name == g.svcs[v].name && h.svcs[v].config == g.svcs[v].config
             && h.svcs[v].listener == g.svcs[v].listener
  }

  ghost predicate SameTables(s: State, t: State) {
    && t.clock == s.clock && SameServices(s.graph, t.graph)
    && t.listeners == s.listeners && t.sockets == s.sockets && t.nextListener == s.nextListener
  }

  /** `t` is reached from `s` at the same time and under the same configuration. */
  ghost predicate Within(s: State, t: State) {
    Good(t) && Path(s, t) && SameTables(s, t)
  }

  lemma EvolvesTables(s: State, t: State)
    requires Evolves(s, t)
    ensures SameTables(s, t)
  {
    forall v <- s.graph.svcs ensures t.graph.svcs[v].name == s.graph.svcs[v].name {
      assert SameService(s.graph.svcs[v], t.graph.svcs[v]);
    }
  }

  lemma TuneTables(s: State, v: nat, service: Service)
    requires v in s.graph.svcs && Tunable(s.graph, v, service, s.clock)
    ensures SameTables(s, s.(graph := PutService(s.graph, v, service)))
  {
  }

  lemma LocalTables(s: State, m: Move)
    requires Good(s) && Enabled(s, m) && Local(m)
    ensures SameTables(s, Result(s, m))
  {
    if m.Tuning? {
      TuneTables(s, m.v, m.service);
    } else if m.Spawning? {
      SpawnKeepsGood(s, m.v, m.p, m.c, m.ok);
      EvolvesTables(s, Result(s, m));
    } else {
      ProcessMoveLeads(s, m);
      EvolvesTables(s, Result(s, m));
    }
  }

  lemma WithinStep(s: State, t: State, m: Move)
    requires Within(s, t) && Enabled(t, m) && Local(m)
    ensures Within(s, Result(t, m))
  {
    MoveKeepsGood(t, m);
    PathStep(s, t, m);
    LocalTables(t, m);
  }

  lemma WithinReflexive(s: State)
    requires Good(s)
    ensures Within(s, s)
  {
    PathReflexive(s);
  }

  lemma WithinTransitive(s: State, t: State, u: State)
    requires Within(s, t) && Within(t, u)
    ensures Within(s, u)
  {
    PathTransitive(s, t, u);
  }

  // ------------------------------------------------------------ one worker

  /** Past max_exec_time. */
  predicate Exhausted(child: Process, now: int) {
    child.config.maxExecTime > 0 && child.executed.Some? && now - child.executed.value >= child.config.maxExecTime
  }

  /** Past start_timeout without ever having been ready. */
  predicate Late(child: Process, now: int) {
    !child.wasReady && !child.ready && now - child.started >= child.config.startTimeout
  }

  /** Some request is past request_timeout. */
  predicate Stuck(child: Process, now: int) {
    child.config.requestTimeout > 0 && exists id <- child.requests ::
        now - child.requests[id] >= child.config.requestTimeout
  }

  predicate Probeable(child: Process, now: int) {
    && !child.pending && !child.baseReady && child.config.readyMode == OnProbe
    && !child.probing && (child.nextProbe.None? || child.nextProbe.value <= now) && child.stopping.None?
  }

  const STEADY := 10_000_000_000

  predicate Steady(child: Process, now: int) {
    child.ready && child.stopping.None? && now - child.started >= STEADY
  }

  function KillOverdue(s: State, p: nat, now: int): (t: State)
    requires Linked(s.graph, p)
    ensures Confined(s.graph, t.graph, p)
  {
    var child := s.graph.procs[p];
    if !child.pending && !child.killed && Overdue(child, now) then Kill(s, p) else s
  }

  function StopIf(s: State, p: nat, now: int, reason: bool): (t: State)
    requires Linked(s.graph, p)
    ensures Confined(s.graph, t.graph, p)
  {
    if reason then Stop(s, p, now, true) else s
  }

  function Probe(s: State, p: nat, now: int): (t: State)
    requires Linked(s.graph, p)
    ensures Confined(s.graph, t.graph, p)
  {
    if Probeable(s.graph.procs[p], now) then WithProc(s, p, s.graph.procs[p].(probing := true)) else s
  }

  /** A worker that stays ready clears its service's run of failures. */
  function Settle(s: State, p: nat, now: int): (t: State)
    requires Linked(s.graph, p)
    ensures Confined(s.graph, t.graph, p)
  {
    var child := s.graph.procs[p];
    if Steady(child, now)
        then s.(graph := PutService(s.graph, child.service, s.graph.svcs[child.service].(failures := 0))) else s
  }

  function InspectActive(s: State, p: nat, now: int): (t: State)
    requires Linked(s.graph, p)
    ensures Confined(s.graph, t.graph, p)
  {
    var t := Probe(StopIf(s, p, now, Late(s.graph.procs[p], now)), p, now);
    Settle(StopIf(t, p, now, Stuck(t.graph.procs[p], now)), p, now)
  }

  /** The part of a tick that looks after one worker. */
  function Inspect(s: State, p: nat, now: int): (t: State)
    requires Linked(s.graph, p)
    ensures Confined(s.graph, t.graph, p)
  {
    var t := Lifecycle(s, p, now);
    var child := t.graph.procs[p];
    if child.exited then t
    else if child.stopping.Some? then KillOverdue(t, p, now)
    else if Exhausted(child, now) then Stop(t, p, now, true)
    else InspectActive(t, p, now)
  }

  lemma LocalSteps(s: State, t: State, p: nat)
    requires Within(s, t) && p in t.graph.workers
    ensures Linked(t.graph, p) && Consistent(t.graph.procs[p]) && t.graph.procs[p].config.Valid()
    ensures Within(s, Lifecycle(t, p, t.clock))
  {
    hide Lifecycle;
    WithinStep(s, t, Review(p));
  }

  lemma StopWithin(s: State, t: State, p: nat, failed: bool)
    requires Within(s, t) && Stoppable(t, p, failed)
    ensures Within(s, Stop(t, p, t.clock, failed))
  {
    hide Stop;
    WithinStep(s, t, Halting(p, failed));
  }

  lemma KillWithin(s: State, t: State, p: nat)
    requires Within(s, t) && p in t.graph.workers && Linked(t.graph, p) && Consistent(t.graph.procs[p])
    requires Overdue(t.graph.procs[p], t.clock) ==> t.graph.procs[p].stopSent
    ensures Within(s, KillOverdue(t, p, t.clock))
  {
    if KillOverdue(t, p, t.clock) != t { WithinStep(s, t, Killing(p)); }
  }

  lemma ProbeWithin(s: State, t: State, p: nat)
    requires Within(s, t) && p in t.graph.workers && Linked(t.graph, p)
    ensures Within(s, Probe(t, p, t.clock))
  {
    if Probe(t, p, t.clock) != t { WithinStep(s, t, Probing(p)); }
  }

  lemma TuneWithin(s: State, t: State, v: nat, service: Service)
    requires Within(s, t) && v in t.graph.svcs && Tunable(t.graph, v, service, t.clock)
    ensures Within(s, t.(graph := PutService(t.graph, v, service)))
  {
    WithinStep(s, t, Tuning(v, service));
  }

  lemma SettleWithin(s: State, t: State, p: nat)
    requires Within(s, t) && Linked(t.graph, p)
    ensures Within(s, Settle(t, p, t.clock))
  {
    var v := t.graph.procs[p].service;
    TuneWithin(s, t, v, t.graph.svcs[v].(failures := 0));
  }

  lemma StopIfWithin(s: State, t: State, p: nat, reason: bool)
    requires Within(s, t) && Stoppable(t, p, true)
    ensures Within(s, StopIf(t, p, t.clock, reason))
  {
    hide Stop;
    if reason { StopWithin(s, t, p, true); }
  }

  lemma InspectActiveWithin(s: State, t: State, p: nat)
    requires Within(s, t) && ActiveWorker(t.graph, p) && Linked(t.graph, p)
    ensures Within(s, InspectActive(t, p, t.clock))
  {
    hide Within, Stop, Probe, Stuck, Late, Settle;
    var u := StopIf(t, p, t.clock, Late(t.graph.procs[p], t.clock));
    StopIfWithin(s, t, p, Late(t.graph.procs[p], t.clock));
    SameClock(s, t);
    SameClock(s, u);
    var v := Probe(u, p, u.clock);
    ProbeWithin(s, u, p);
    SameClock(s, v);
    ProbeRecord(u, p, u.clock);
    var w := StopIf(v, p, v.clock, Stuck(v.graph.procs[p], v.clock));
    StopIfWithin(s, v, p, Stuck(v.graph.procs[p], v.clock));
    SameClock(s, w);
    SettleWithin(s, w, p);
  }

  lemma SameClock(s: State, t: State)
    requires Within(s, t)
    ensures t.clock == s.clock
  {
  }

  lemma ProbeRecord(s: State, p: nat, now: int)
    requires Linked(s.graph, p)
    ensures var t := Probe(s, p, now);
      && t.graph.workers == s.graph.workers
      && t.graph.procs[p] in {s.graph.procs[p], s.graph.procs[p].(probing := true)}
  {
  }

  lemma InspectWithin(s: State, t: State, p: nat)
    requires Within(s, t) && p in t.graph.workers
    ensures Linked(t.graph, p) && Within(s, Inspect(t, p, t.clock))
  {
    hide Within, Lifecycle, Stop, InspectActive, KillOverdue;
    LocalSteps(s, t, p);
    var u := Lifecycle(t, p, t.clock);
    SameClock(s, t);
    SameClock(s, u);
    var child := u.graph.procs[p];
    if child.exited {
    } else {
      LocalSteps(s, u, p);
      if child.stopping.Some? {
        KillWithin(s, u, p);
      } else if Exhausted(child, u.clock) {
        StopWithin(s, u, p, true);
      } else {
        InspectActiveWithin(s, u, p);
      }
    }
  }

  /** What a tick leaves of a worker: nothing that counts is past a limit, and
      nothing that was asked to stop outlives its time without being killed. */
  predicate InTime(child: Process, now: int) {
    && (child.Active() ==> !Exhausted(child, now) && !Late(child, now) && !Stuck(child, now))
    && (Overdue(child, now) ==> child.exited || child.killed)
  }

  lemma StopInTime(s: State, p: nat, now: int)
    requires Linked(s.graph, p) && s.graph.procs[p].stopping.None? && s.graph.procs[p].config.Valid()
    ensures InTime(Stop(s, p, now, true).graph.procs[p], now)
    ensures Stop(s, p, now, true).graph.procs[p].stopping == Some(now)
  {
    hide Stop;
  }

  lemma KillInTime(s: State, p: nat, now: int)
    requires Linked(s.graph, p) && s.graph.procs[p].stopping.Some? && Consistent(s.graph.procs[p])
    requires Overdue(s.graph.procs[p], now) ==> s.graph.procs[p].stopSent
    ensures InTime(KillOverdue(s, p, now).graph.procs[p], now)
  {
  }

  lemma ActiveInTime(s: State, p: nat, now: int)
    requires Linked(s.graph, p) && s.graph.procs[p].stopping.None? && s.graph.procs[p].config.Valid()
    requires !Exhausted(s.graph.procs[p], now)
    ensures InTime(InspectActive(s, p, now).graph.procs[p], now)
  {
    hide Stop, Probe, InTime, Settle;
    var u := StopIf(s, p, now, Late(s.graph.procs[p], now));
    var v := Probe(u, p, now);
    if Late(s.graph.procs[p], now) {
      StopInTime(s, p, now);
      StoppedStays(u, p, now);
    } else {
      PunctualInTime(s, p, now);
    }
    SettleRecord(StopIf(v, p, now, Stuck(v.graph.procs[p], now)), p, now);
  }

  lemma PunctualInTime(s: State, p: nat, now: int)
    requires Linked(s.graph, p) && s.graph.procs[p].stopping.None? && s.graph.procs[p].config.Valid()
    requires !Exhausted(s.graph.procs[p], now) && !Late(s.graph.procs[p], now)
    ensures var v := Probe(s, p, now); InTime(StopIf(v, p, now, Stuck(v.graph.procs[p], now)).graph.procs[p], now)
  {
    hide Stop;
    var v := Probe(s, p, now);
    ProbeRecord(s, p, now);
    if Stuck(v.graph.procs[p], now) { StopInTime(v, p, now); }
  }

  lemma SettleRecord(s: State, p: nat, now: int)
    requires Linked(s.graph, p)
    ensures Settle(s, p, now).graph.procs == s.graph.procs
  {
  }

  /** A worker that stopped a moment ago is left alone by the rest of its tick. */
  lemma StoppedStays(u: State, p: nat, now: int)
    requires Linked(u.graph, p) && u.graph.procs[p].stopping == Some(now) && u.graph.procs[p].config.Valid()
    ensures var v := Probe(u, p, now); InTime(StopIf(v, p, now, Stuck(v.graph.procs[p], now)).graph.procs[p], now)
  {
    hide Stop;
  }

  lemma ReviewedProcess(s: State, p: nat)
    requires Inv(s) && p in s.graph.workers
    ensures Linked(s.graph, p) && Consistent(Lifecycle(s, p, s.clock).graph.procs[p]) && s.graph.procs[p].config.Valid()
  {
    hide Lifecycle;
    LifecycleLeads(s, p, s.clock);
  }

  lemma InspectInTime(s: State, p: nat)
    requires Inv(s) && p in s.graph.workers
    ensures Linked(s.graph, p) && InTime(Inspect(s, p, s.clock).graph.procs[p], s.clock)
  {
    hide Stop, InspectActive, InTime, Inv, Lifecycle, KillOverdue;
    ReviewedProcess(s, p);
    var t := Lifecycle(s, p, s.clock);
    var child := t.graph.procs[p];
    if child.exited {
      ExitedInTime(child, s.clock);
    } else if child.stopping.Some? {
      KillInTime(t, p, s.clock);
    } else if Exhausted(child, s.clock) {
      StopInTime(t, p, s.clock);
    } else {
      ActiveInTime(t, p, s.clock);
    }
  }

  lemma ExitedInTime(child: Process, now: int)
    requires child.exited
    ensures InTime(child, now)
  {
  }

  // ----------------------------------------------------------- one service

  /** A worker in a service's set is a worker of that service. */
  lemma WorkerOf(s: State, v: nat, p: nat)
    requires Inv(s) && v in s.graph.svcs && p in s.graph.svcs[v].workers
    ensures p in s.graph.workers && Linked(s.graph, p) && s.graph.procs[p].service == v && Stoppable(s, p, false)
    ensures Consistent(s.graph.procs[p]) && s.graph.procs[p].config.Valid()
  {
  }

  /** scheduleDue: note an occurrence unless one is pending or the app is full. */
  function Booked(service: Service, executions: nat): Service {
    if service.scheduled || executions >= service.config.Limit() then service else service.(scheduled := true)
  }

  function Noted(service: Service, now: int, reading: Schedule.Reading, executions: nat): Service
    requires service.config.Valid()
  {
    if service.nextRun.None? || now < service.nextRun.value then service
    else match service.config.plan
      case Every(period) => Booked(service.(nextRun := Some(Schedule.NextPoint(service.nextRun.value, period, now))),
          executions)
      case Calendar(rule) =>
        var next := service.(nextRun := service.config.plan.Next(now));
        if Schedule.Matches(rule, reading) then Booked(next, executions) else next
      case Unscheduled => service.(nextRun := None)
  }

  lemma NotedTunable(g: Graph, v: nat, now: int, reading: Schedule.Reading)
    requires v in g.svcs && g.svcs[v].config.Valid()
    ensures Tunable(g, v, Noted(g.svcs[v], now, reading, |Executions(g, g.svcs[v].name)|), now)
  {
  }

  /** Whatever a tick notes, an interval's due time stays on its cadence and a
      calendar's moves to the next minute. */
  lemma NotedDue(service: Service, now: int, reading: Schedule.Reading, executions: nat)
    requires service.config.Valid() && service.nextRun.Some? && service.config.Scheduled()
    ensures Noted(service, now, reading, executions).nextRun == Some(
      if service.config.plan.Every? then Schedule.DueAfter(service.nextRun.value, service.config.plan.period, [now])
      else if now < service.nextRun.value then service.nextRun.value else Schedule.NextMinute(now))
  {
    var due := service.nextRun.value;
    if service.config.plan.Every? {
      var period := service.config.plan.period;
      assert [now][1..] == [];
      assert Schedule.DueAfter(due, period, [now]) == if now < due then due else Schedule.NextPoint(due, period, now);
    }
  }

  /** A service that is wanted for its own sake. */
  predicate Demanded(service: Service) {
    if service.config.Scheduled() then service.scheduled || service.workers != {}
    else
      service.config.startup || service.config.minWorkers > 0 || service.demand
      || (service.listener.Some? && service.workers != {})
  }

  /** The services whose demand holds others. */
  function Roots(g: Graph): set<string> {
    set n | n in g.services && g.services[n] in g.svcs && Demanded(g.svcs[g.services[n]])
  }

  /** Noting an occurrence of one service does not change the demand for others. */
  lemma RootsOfOthers(g: Graph, name: string, service: Service)
    requires Named(g) && name in g.services
    ensures Roots(PutService(g, g.services[name], service)) - {name} == Roots(g) - {name}
  {
  }

  lemma RootsConfigured(g: Graph)
    ensures Roots(g) <= g.services.Keys
  {
  }

  function Unready(g: Graph, v: nat): set<nat>
    requires v in g.svcs
  {
    set w | w in g.svcs[v].workers && w in g.procs && g.procs[w].Active() && !g.procs[w].ready
  }

  lemma PoolSubset(g: Graph, v: nat)
    requires v in g.svcs
    ensures Pool(g, v) <= g.svcs[v].workers && Unready(g, v) <= g.svcs[v].workers
  {
  }

  lemma PoolHolds(g: Graph, v: nat, w: nat)
    requires v in g.svcs && w in g.svcs[v].workers
    ensures w in Pool(g, v) <==> w in g.procs && g.procs[w].stopping.None? && !g.procs[w].exited
    ensures w in Unready(g, v) <==> w in Pool(g, v) && !g.procs[w].ready
  {
  }

  /** Whether a tick starts another worker of an unscheduled service. */
  predicate Grows(g: Graph, v: nat, required: bool, pressing: bool, now: int)
    requires v in g.svcs
  {
    var service, available := g.svcs[v], |Pool(g, v)|;
    && (|| available < service.config.minWorkers
        || (available == 0 && (service.demand || service.config.startup || required))
        || pressing)
    && (Unready(g, v) == {} || available < service.config.minWorkers)
    && available < service.config.maxWorkers
    && (service.retryAt.None? || service.retryAt.value <= now)
  }

  /** Whether a worker has been idle for idle_timeout: by its own report, or by its
      service's if it has neither a listener nor telemetry. */
  predicate Idle(child: Process, service: Service, wanted: bool, now: int) {
    if service.config.listen.None? && !child.telemetry
    then !wanted && (service.unneededSince.None? || now - service.unneededSince.value >= service.config.idleTimeout)
    else
      child.telemetry && child.requests == map[]
      && (child.idleSince.None? || now - child.idleSince.value >= service.config.idleTimeout)
  }

  /** The workers that a service keeps although they are idle. */
  function Floor(app: App, required: bool): nat {
    if (required || app.startup) && app.minWorkers == 0 then 1 else app.minWorkers
  }

  lemma SpawnWithin(s: State, t: State, v: nat, p: nat, c: nat, ok: bool)
    requires Within(s, t) && Admissible(t.graph, v, p, c) && HasRoom(t.graph, v)
    ensures Within(s, Spawn(t, v, p, c, t.clock, ok))
  {
    hide Spawn;
    WithinStep(s, t, Spawning(v, p, c, ok));
  }

  lemma StartPendingWithin(s: State, t: State, p: nat, ok: bool)
    requires Within(s, t) && ActiveWorker(t.graph, p) && Linked(t.graph, p) && t.graph.procs[p].pending
    ensures Within(s, StartPending(t, p, t.clock, ok))
  {
    hide StartPending;
    WithinStep(s, t, Starting(p, ok));
  }

  lemma PoolInExecutions(g: Graph, v: nat)
    requires v in g.svcs && Indexed(g)
    ensures |Pool(g, v)| <= |Executions(g, g.svcs[v].name)|
  {
    SubsetSize(Pool(g, v), Executions(g, g.svcs[v].name));
  }

  /** A noted occurrence finds its place: the flag is cleared, then the execution starts. */
  lemma ScheduledHasRoom(g: Graph, v: nat)
    requires Indexed(g) && Reserved(g) && Configured(g) && Live(g, v) && g.svcs[v].scheduled
    ensures var h := PutService(g, v, g.svcs[v].(scheduled := false)); Live(h, v) && HasRoom(h, v)
  {
    PoolInExecutions(g, v);
    FlagUncounted(g, v);
    hide Indexed, Pool, Executions;
  }

  lemma FlagUncounted(g: Graph, v: nat)
    requires v in g.svcs
    ensures var h := PutService(g, v, g.svcs[v].(scheduled := false));
      Pool(h, v) == Pool(g, v) && Executions(h, g.svcs[v].name) == Executions(g, g.svcs[v].name)
  {
  }

  lemma GrowHasRoom(g: Graph, v: nat)
    requires Reserved(g) && Live(g, v) && !g.svcs[v].config.Scheduled() && |Pool(g, v)| < g.svcs[v].config.maxWorkers
    ensures HasRoom(g, v)
  {
  }

  /** Stopping an active worker takes exactly that one out of the pools. */
  lemma StopPool(s: State, p: nat, v: nat)
    requires Indexed(s.graph) && ActiveWorker(s.graph, p) && Linked(s.graph, p) && v in s.graph.svcs
    ensures Pool(Stop(s, p, s.clock, false).graph, v) == Pool(s.graph, v) - {p}
  {
    hide Stop;
    var h := Stop(s, p, s.clock, false).graph;
    forall w ensures w in Pool(h, v) <==> w in Pool(s.graph, v) && w != p { }
  }

  lemma WithinGood(s: State, t: State)
    requires Within(s, t)
    ensures Good(t)
  {
  }

  lemma WithinInv(s: State, t: State)
    requires Within(s, t)
    ensures Inv(t)
  {
  }

  /** A second reason to stop the same worker changes nothing. */
  lemma StopTwice(s: State, p: nat, now: int)
    requires Linked(s.graph, p) && s.graph.procs[p].stopping.Some? && s.graph.procs[p].failed
    ensures Stop(s, p, now, true) == s
  {
    hide Halt, Lifecycle, Confined;
    var child := s.graph.procs[p];
    assert child.(failed := true) == child;
    assert s.graph.procs[p := child] == s.graph.procs;
  }

  ghost predicate SameDefinitions(g: Graph, h: Graph) {
    && h.svcs.Keys == g.svcs.Keys
    && forall v <- g.svcs ::
         h.svcs[v].name == g.svcs[v].name && h.svcs[v].config == g.svcs[v].config
             && h.svcs[v].listener == g.svcs[v].listener
  }

  /** Nothing new starts, and what is retiring stays so; services only lose workers. */
  ghost predicate Fading(g: Graph, h: Graph) {
    && OnlyWorkers(g, h)
    && (forall v <- g.svcs :: h.svcs[v].workers <= g.svcs[v].workers)
    && h.procs.Keys == g.procs.Keys
    && (forall q <- g.procs :: g.procs[q].stopping.Some? ==> h.procs[q].stopping.Some?)
  }

  lemma FadingStarts(g: Graph)
    ensures Fading(g, g)
  {
  }

  lemma FadingTransitive(g: Graph, h: Graph, k: Graph)
    requires Fading(g, h) && Fading(h, k)
    ensures Fading(g, k)
  {
  }

  lemma StopFades(s: State, t: State, u: State, p: nat)
    requires SameTables(s, t) && SameTables(s, u) && Confined(t.graph, u.graph, p)
    requires p in t.graph.procs && (t.graph.procs[p].stopping.Some? ==> u.graph.procs[p].stopping.Some?)
    requires OnlyWorkers(t.graph, u.graph)
    ensures Fading(t.graph, u.graph)
  {
  }

  /** No process has been created or reserved. */
  ghost predicate NoneStarted(g: Graph, h: Graph) {
    h.procs.Keys == g.procs.Keys && forall p <- g.procs :: h.procs[p].starts == g.procs[p].starts
  }

  /** Everything but service `v` and its workers is as it was. */
  ghost predicate Spared(g: Graph, h: Graph, v: nat) {
    && v in g.svcs && h.svcs.Keys == g.svcs.Keys && h.svcs[v].workers <= g.svcs[v].workers
    && (forall u <- g.svcs :: u != v ==> h.svcs[u] == g.svcs[u])
    && (forall q <- g.procs :: q !in g.svcs[v].workers ==> q in h.procs && h.procs[q] == g.procs[q])
  }

  lemma SparedStarts(g: Graph, v: nat)
    requires v in g.svcs
    ensures Spared(g, g, v)
  {
  }

  lemma SparedTransitive(g: Graph, h: Graph, k: Graph, v: nat)
    requires Spared(g, h, v) && Spared(h, k, v)
    ensures Spared(g, k, v)
  {
  }

  lemma SparedTuned(g: Graph, h: Graph, v: nat, service: Service)
    requires Spared(g, h, v) && service.workers == h.svcs[v].workers
    ensures Spared(g, PutService(h, v, service), v)
  {
  }

  lemma StopSpares(g: Graph, h: Graph, v: nat, p: nat)
    requires ServiceLists(g) && v in g.svcs && p in g.svcs[v].workers && Confined(g, h, p) && OnlyWorkers(g, h)
    ensures Spared(g, h, v)
  {
    forall u <- g.svcs | u != v ensures h.svcs[u] == g.svcs[u] { assert p !in g.svcs[u].workers; }
  }

  /** Stop each of these processes in turn; a failure only touches those that count. */
  ghost function StopEach(s: State, order: seq<nat>, failed: bool): State {
    if order == [] then s
    else
      var t, p := StopEach(s, order[..|order| - 1], failed), order[|order| - 1];
      if Linked(t.graph, p) && (failed ==> t.graph.procs[p].Active()) then Stop(t, p, s.clock, failed) else t
  }

  lemma StopMore(s: State, order: seq<nat>, failed: bool, p: nat)
    ensures var t := StopEach(s, order, failed);
      StopEach(s, order + [p], failed) == if Linked(t.graph, p) && (failed ==> t.graph.procs[p].Active())
          then Stop(t, p, s.clock, failed) else t
  {
    assert (order + [p])[..|order|] == order;
  }

  // ------------------------------------------------------------ file restarts

  /** Failures and delays of the past do not hold up a restart. */
  function Refreshed(s: State, v: nat): State
    requires v in s.graph.svcs
  {
    s.(graph := PutService(s.graph, v, s.graph.svcs[v].(failures := 0, retryAt := None)))
  }

  /** Some worker of the service, if only one that is gone, was never asked to stop. */
  predicate HasUnretired(g: Graph, v: nat) {
    v in g.svcs && exists w <- g.svcs[v].workers :: w in g.procs && g.procs[w].stopping.None?
  }

  /** The service still has the configuration whose files changed. */
  predicate Watched(g: Graph, restarts: map<string, App>, v: nat) {
    Live(g, v) && g.svcs[v].name in restarts && g.svcs[v].config == restarts[g.svcs[v].name]
  }

  /** Of the watched services all but those named in `todo` have stopped their workers;
      the other services and their workers are as they were, and nothing was started. */
  ghost predicate Restarted(g: Graph, h: Graph, restarts: map<string, App>, todo: set<string>) {
    && h.svcs.Keys == g.svcs.Keys && NoneStarted(g, h)
    && (forall v <- g.svcs :: h.svcs[v].workers <= g.svcs[v].workers)
    && (forall v <- g.svcs :: !Watched(g, restarts, v) ==> h.svcs[v] == g.svcs[v])
    && (forall q <- g.procs :: !Watched(g, restarts, g.procs[q].service) ==> q in h.procs && h.procs[q] == g.procs[q])
    && (forall v <- g.svcs, w <- h.svcs[v].workers :: Watched(g, restarts, v) && g.svcs[v].name !in todo ==>
         w in h.procs && h.procs[w].stopping.Some?)
  }

  lemma RestartedStarts(g: Graph, restarts: map<string, App>)
    ensures Restarted(g, g, restarts, restarts.Keys)
  {
  }

  lemma RestartedStep(g: Graph, h: Graph, k: Graph, restarts: map<string, App>, todo: set<string>, name: string)
    requires Restarted(g, h, restarts, todo) && ServiceLists(g) && ServiceLists(h) && name in g.services
    requires Watched(g, restarts, g.services[name]) && g.svcs[g.services[name]].name == name && NoneStarted(h, k)
    requires Spared(h, k, g.services[name])
    requires forall w <- k.svcs[g.services[name]].workers :: w in k.procs && k.procs[w].stopping.Some?
    ensures Restarted(g, k, restarts, todo - {name})
  {
    var v := g.services[name];
    hide Watched, ServiceLists, NoneStarted, Spared;
    WatchedOnce(g, restarts, name);
    SparedShrinks(h, k, v);
    NoneStartedTransitive(g, h, k);
    RestartedSpares(g, h, k, restarts, v);
    RestartedStopped(g, h, k, restarts, todo, name);
  }

  lemma SparedShrinks(h: Graph, k: Graph, v: nat)
    requires Spared(h, k, v)
    ensures v in h.svcs && k.svcs.Keys == h.svcs.Keys && forall u <- h.svcs :: k.svcs[u].workers <= h.svcs[u].workers
  {
  }

  lemma NoneStartedTransitive(g: Graph, h: Graph, k: Graph)
    requires NoneStarted(g, h) && NoneStarted(h, k)
    ensures NoneStarted(g, k)
  {
  }

  lemma RestartedSpares(g: Graph, h: Graph, k: Graph, restarts: map<string, App>, v: nat)
    requires ServiceLists(g) && v in g.svcs && h.svcs.Keys == g.svcs.Keys && h.svcs[v].workers <= g.svcs[v].workers
    requires Watched(g, restarts, v)
    requires (forall u <- g.svcs :: !Watched(g, restarts, u) ==> h.svcs[u] == g.svcs[u]) && Spared(h, k, v)
    requires forall q <- g.procs :: !Watched(g, restarts, g.procs[q].service) ==>
        q in h.procs && h.procs[q] == g.procs[q]
    ensures forall u <- g.svcs :: !Watched(g, restarts, u) ==> k.svcs[u] == g.svcs[u]
    ensures forall q <- g.procs :: !Watched(g, restarts, g.procs[q].service) ==>
        q in k.procs && k.procs[q] == g.procs[q]
  {
    hide Watched;
    forall q <- g.procs | !Watched(g, restarts, g.procs[q].service) ensures q in k.procs && k.procs[q] == g.procs[q] {
      assert q !in g.svcs[v].workers;
    }
  }

  lemma RestartedStopped(g: Graph, h: Graph, k: Graph, restarts: map<string, App>, todo: set<string>, name: string)
    requires Restarted(g, h, restarts, todo) && ServiceLists(h) && name in g.services && g.services[name] in g.svcs
    requires Spared(h, k, g.services[name])
    requires forall w <- k.svcs[g.services[name]].workers :: w in k.procs && k.procs[w].stopping.Some?
    requires forall u <- g.svcs :: Watched(g, restarts, u) && g.svcs[u].name == name ==> u == g.services[name]
    ensures forall u <- g.svcs, w <- k.svcs[u].workers ::
        Watched(g, restarts, u) && g.svcs[u].name !in todo - {name} ==> w in k.procs && k.procs[w].stopping.Some?
  {
    hide Watched, NoneStarted;
    var v := g.services[name];
    forall u <- g.svcs, w <- k.svcs[u].workers | Watched(g, restarts, u) && g.svcs[u].name !in todo - {name}
        ensures w in k.procs && k.procs[w].stopping.Some? {
      if u != v {
        assert g.svcs[u].name != name && k.svcs[u] == h.svcs[u];
        assert w in h.svcs[u].workers && h.procs[w].service == u;
        assert w !in h.svcs[v].workers;
      }
    }
  }

  lemma WatchedOnce(g: Graph, restarts: map<string, App>, name: string)
    requires name in g.services
    ensures forall u <- g.svcs :: Watched(g, restarts, u) && g.svcs[u].name == name ==> u == g.services[name]
  {
  }

  /** A reload is not part of a restart: what is watched now was watched before. */
  lemma WatchedNow(s: State, t: State, restarts: map<string, App>, name: string)
    requires Good(s) && Within(s, t) && name in restarts
    ensures ServiceLists(s.graph) && ServiceLists(t.graph) && t.graph.services == s.graph.services
    ensures name in s.graph.services ==>
      var v := s.graph.services[name];
      && v in s.graph.svcs && v in t.graph.svcs && s.graph.svcs[v].name == name
      && (Watched(s.graph, restarts, v) <==> t.graph.svcs[v].config == restarts[name])
  {
  }

  lemma RestartedSkip(g: Graph, h: Graph, restarts: map<string, App>, todo: set<string>, name: string)
    requires Restarted(g, h, restarts, todo)
    requires name in g.services ==> !Watched(g, restarts, g.services[name])
    ensures Restarted(g, h, restarts, todo - {name})
  {
    forall v <- g.svcs | Watched(g, restarts, v) ensures g.svcs[v].name != name { }
  }

  lemma StopService(s: State, p: nat, failed: bool)
    requires Linked(s.graph, p)
    ensures s.graph.procs[p].service in Stop(s, p, s.clock, failed).graph.svcs
  {
    hide Stop;
  }

  lemma StopStaysLinked(s: State, p: nat, failed: bool)
    requires Linked(s.graph, p)
    ensures var g := Stop(s, p, s.clock, failed).graph;
      Linked(g, p) && g.procs[p].service == s.graph.procs[p].service
  {
    hide Stop;
  }

  lemma UnmarkedStop(s: State, p: nat)
    requires Linked(s.graph, p) && Consistent(s.graph.procs[p])
    ensures OnlyWorkers(s.graph, Stop(s, p, s.clock, false).graph)
  {
    hide Stop, OnlyWorkers;
  }

  lemma StopAllStep(s: State, t: State, v: nat, p: nat)
    requires Within(s, t) && v in t.graph.svcs && p in t.graph.svcs[v].workers
    ensures Linked(t.graph, p) && Within(s, Stop(t, p, t.clock, false))
    ensures Confined(t.graph, Stop(t, p, t.clock, false).graph, p)
    ensures var h := Stop(t, p, t.clock, false).graph;
      && h.procs[p].stopping.Some? && h.workers <= t.graph.workers
      && v in h.svcs && t.graph.svcs[v].workers - {p} <= h.svcs[v].workers <= t.graph.svcs[v].workers
      && forall q <- t.graph.procs :: q in h.procs && (q != p ==> h.procs[q] == t.graph.procs[q])
    ensures Fading(t.graph, Stop(t, p, t.clock, false).graph) && Spared(t.graph, Stop(t, p, t.clock, false).graph, v)
  {
    hide Stop;
    WithinInv(s, t);
    WorkerOf(t, v, p);
    UnmarkedStop(t, p);
    StopWithin(s, t, p, false);
    WithinTables(s, t);
    WithinTables(s, Stop(t, p, t.clock, false));
    assert ServiceLists(t.graph);
    hide Within, Inv, SameTables, Fading, OnlyWorkers, Confined, Spared, ServiceLists;
    StopFades(s, t, Stop(t, p, t.clock, false), p);
    StopSpares(t.graph, Stop(t, p, t.clock, false).graph, v, p);
  }

  lemma WithinTables(s: State, t: State)
    requires Within(s, t)
    ensures SameTables(s, t)
  {
  }

  lemma WithinInstalled(s: State, t: State)
    requires Within(s, t)
    ensures Installed(t.graph) == Installed(s.graph)
  {
    hide Good, Path;
  }

  lemma ServiceOf(s: State, name: string)
    requires Inv(s) && name in s.graph.services
    ensures Named(s.graph)
    ensures var v := s.graph.services[name];
      v in s.graph.svcs && s.graph.svcs[v].name == name && s.graph.svcs[v].config.Valid() && Live(s.graph, v)
  {
  }

  lemma PendingStep(s: State, t: State, v: nat, p: nat, ok: bool)
    requires Within(s, t) && v in t.graph.svcs && p in t.graph.svcs[v].workers
    ensures p in t.graph.procs && Linked(t.graph, p)
    ensures t.graph.procs[p].pending && t.graph.procs[p].stopping.None? && !t.graph.procs[p].exited ==>
      var u := StartPending(t, p, t.clock, ok);
      && Within(s, u) && SameTable(t.graph, u.graph)
      && Confined(t.graph, u.graph, p) && Unanswered(t.board, u.board) && StartedOrWaits(u, p)
  {
    hide StartPending, Within, Inv, Unanswered, StartedOrWaits, SameTable;
    WithinInv(s, t);
    WorkerOf(t, v, p);
    if t.graph.procs[p].pending && t.graph.procs[p].Active() {
      StartPendingWithin(s, t, p, ok);
      StartPendingUnanswered(t, p, t.clock, ok);
      StartPendingResult(t, p, t.clock, ok);
      PendingTable(t, p, ok);
    }
  }

  lemma PendingTable(t: State, p: nat, ok: bool)
    requires Inv(t) && ActiveWorker(t.graph, p) && Linked(t.graph, p) && t.graph.procs[p].pending
    ensures SameTable(t.graph, StartPending(t, p, t.clock, ok).graph)
  {
    hide StartPending, Inv;
    StartPendingLeads(t, p, t.clock, ok);
  }

  lemma StartedOrWaitsStays(s: State, t: State, p: nat)
    requires StartedOrWaits(s, p) && Unanswered(s.board, t.board) && p in t.graph.procs
    requires t.graph.procs[p] == s.graph.procs[p]
    ensures StartedOrWaits(t, p)
  {
    hide PhaseOk;
    var c := s.graph.procs[p].cycle;
    if s.graph.procs[p].pending && s.graph.procs[p].Active() {
      if !PhaseOk(s.board, OfWorker(p), PreStart) { StillUnpassed(s.board, t.board, OfWorker(p), PreStart); } else {
        StillUnpassed(s.board, t.board, OfCycle(c), PreStart);
      }
    }
  }

  /** The reservations of a service have been looked after: each one that counts
      waits for a start hook. Nothing else about the services has changed. */
  ghost predicate ReservationsDone(s: State, t: State, v: nat, todo: set<nat>) {
    && SameTable(s.graph, t.graph) && t.graph.procs.Keys == s.graph.procs.Keys
    && v in s.graph.svcs && forall w <- s.graph.svcs[v].workers :: w in todo || StartedOrWaits(t, w)
  }

  lemma ReservationsStart(s: State, v: nat)
    requires v in s.graph.svcs
    ensures ReservationsDone(s, s, v, s.graph.svcs[v].workers)
  {
  }

  lemma ReservationStep(s: State, t: State, u: State, v: nat, p: nat, todo: set<nat>)
    requires ReservationsDone(s, t, v, todo + {p}) && SameTable(t.graph, u.graph) && Confined(t.graph, u.graph, p)
    requires Unanswered(t.board, u.board) && StartedOrWaits(u, p)
    ensures ReservationsDone(s, u, v, todo)
  {
    hide StartedOrWaits, Unanswered, SameTable;
    TablesJoin(s.graph, t.graph, u.graph);
    forall w <- s.graph.svcs[v].workers | w !in todo ensures StartedOrWaits(u, w) {
      if w != p {
        WaitingProcess(t, w);
        StartedOrWaitsStays(t, u, w);
      }
    }
  }

  lemma WaitingProcess(s: State, p: nat)
    requires StartedOrWaits(s, p)
    ensures p in s.graph.procs
  {
  }

  lemma TablesJoin(g: Graph, h: Graph, k: Graph)
    requires SameTable(g, h) && SameTable(h, k)
    ensures SameTable(g, k)
  {
  }

  lemma ReservationSkip(s: State, t: State, v: nat, p: nat, todo: set<nat>)
    requires ReservationsDone(s, t, v, todo + {p}) && (p in s.graph.svcs[v].workers ==> StartedOrWaits(t, p))
    ensures ReservationsDone(s, t, v, todo)
  {
    hide StartedOrWaits, SameTable;
  }

  lemma RunScheduledFlag(s: State, v: nat, p: nat, ok: bool)
    requires Good(s) && Live(s.graph, v) && s.graph.svcs[v].scheduled && p !in s.graph.procs && p !in s.graph.cycles
    ensures var t := s.(graph := PutService(s.graph, v, s.graph.svcs[v].(scheduled := false)));
      && Spawn(t, v, p, p, t.clock, ok).graph.procs.Keys == s.graph.procs.Keys + {p}
      && v in Spawn(t, v, p, p, t.clock, ok).graph.svcs && !Spawn(t, v, p, p, t.clock, ok).graph.svcs[v].scheduled
  {
    hide Spawn;
    var service := s.graph.svcs[v].(scheduled := false);
    var t := s.(graph := PutService(s.graph, v, service));
    ScheduledHasRoom(s.graph, v);
    TuneKeepsGood(s, v, service);
    hide Good;
    SpawnKeepsGood(t, v, p, p, ok);
    SpawnPool(t, v, p, p, ok);
    assert SameService(t.graph.svcs[v], Spawn(t, v, p, p, t.clock, ok).graph.svcs[v]);
  }

  /** The occurrence that a service has noted starts now. */
  lemma RunScheduledWithin(s: State, v: nat, p: nat, ok: bool)
    requires Good(s) && Live(s.graph, v) && s.graph.svcs[v].scheduled && p !in s.graph.procs && p !in s.graph.cycles
    ensures var t := s.(graph := PutService(s.graph, v, s.graph.svcs[v].(scheduled := false)));
      && Within(s, t) && !Joins(t.graph, v) && Within(s, Spawn(t, v, p, p, t.clock, ok))
      && Spawn(t, v, p, p, t.clock, ok).graph.procs.Keys == s.graph.procs.Keys + {p}
      && v in Spawn(t, v, p, p, t.clock, ok).graph.svcs && !Spawn(t, v, p, p, t.clock, ok).graph.svcs[v].scheduled
  {
    hide Spawn, Within;
    RunScheduledFlag(s, v, p, ok);
    var service := s.graph.svcs[v].(scheduled := false);
    WithinReflexive(s);
    ScheduledHasRoom(s.graph, v);
    TuneWithin(s, s, v, service);
    SpawnWithin(s, s.(graph := PutService(s.graph, v, service)), v, p, p, ok);
  }

  lemma GrowWithin(s: State, v: nat, p: nat, ok: bool)
    requires Good(s) && Live(s.graph, v) && !s.graph.svcs[v].config.Scheduled()
    requires |Pool(s.graph, v)| < s.graph.svcs[v].config.maxWorkers
    requires p !in s.graph.procs && p !in s.graph.cycles
    ensures var t := Spawn(s, v, p, if Joins(s.graph, v) then s.graph.svcs[v].cycle.value else p, s.clock, ok);
      Within(s, t) && v in t.graph.svcs && |Pool(s.graph, v)| <= |Pool(t.graph, v)|
          && t.graph.procs.Keys == s.graph.procs.Keys + {p}
  {
    hide Spawn, Within;
    WithinReflexive(s);
    GrowHasRoom(s.graph, v);
    SpawnPool(s, v, p, if Joins(s.graph, v) then s.graph.svcs[v].cycle.value else p, ok);
    SubsetSize(Pool(s.graph, v),
        Pool(Spawn(s, v, p, if Joins(s.graph, v) then s.graph.svcs[v].cycle.value else p, s.clock, ok).graph, v));
    SpawnWithin(s, s, v, p, if Joins(s.graph, v) then s.graph.svcs[v].cycle.value else p, ok);
  }

  lemma TuneCounters(s: State, t: State, v: nat, service: Service)
    requires Within(s, t) && v in t.graph.svcs
    requires service ==
        t.graph.svcs[v].(demand := service.demand, failures := service.failures, retryAt := service.retryAt,
            unneededSince := service.unneededSince)
    ensures Within(s, t.(graph := PutService(t.graph, v, service)))
    ensures Pool(PutService(t.graph, v, service), v) == Pool(t.graph, v)
  {
    TuneWithin(s, t, v, service);
  }

  /** From `g` to `h` the pool of a service lost only workers that were ready and idle. */
  ghost predicate Retired(g: Graph, h: Graph, v: nat, wanted: bool, now: int) {
    && v in g.svcs && v in h.svcs && h.svcs[v].config == g.svcs[v].config
         && h.svcs[v].unneededSince == g.svcs[v].unneededSince
    && Pool(h, v) <= Pool(g, v)
    && forall w <- Pool(g, v) :: if w in Pool(h, v) then h.procs[w] == g.procs[w]
         else g.procs[w].ready && Idle(g.procs[w], g.svcs[v], wanted, now)
  }

  /** Among the workers of a service only some of `todo` are ready and idle. */
  ghost predicate IdleOnlyIn(g: Graph, v: nat, wanted: bool, now: int, todo: set<nat>) {
    v in g.svcs && forall w <- Pool(g, v) ::
        w in todo || !(g.procs[w].ready && Idle(g.procs[w], g.svcs[v], wanted, now))
  }

  lemma RetiredStarts(g: Graph, v: nat, wanted: bool, now: int)
    requires v in g.svcs
    ensures Retired(g, g, v, wanted, now) && IdleOnlyIn(g, v, wanted, now, g.svcs[v].workers)
  {
  }

  lemma RetiredTransitive(g: Graph, h: Graph, k: Graph, v: nat, wanted: bool, now: int)
    requires Retired(g, h, v, wanted, now) && Retired(h, k, v, wanted, now)
    ensures Retired(g, k, v, wanted, now)
  {
    forall w <- Pool(g, v)
        ensures if w in Pool(k, v) then k.procs[w] == g.procs[w]
            else g.procs[w].ready && Idle(g.procs[w], g.svcs[v], wanted, now) {
      if w in Pool(h, v) { assert h.procs[w] == g.procs[w]; }
    }
  }

  lemma NotIdle(g: Graph, v: nat, wanted: bool, now: int, todo: set<nat>, p: nat)
    requires IdleOnlyIn(g, v, wanted, now, todo) && p in g.procs
    requires !(g.procs[p].ready && Idle(g.procs[p], g.svcs[v], wanted, now))
    ensures IdleOnlyIn(g, v, wanted, now, todo - {p})
  {
  }

  lemma RetireWorker(s: State, t: State, v: nat, p: nat)
    requires Within(s, t) && v in t.graph.svcs && p in t.graph.svcs[v].workers
    ensures p in t.graph.procs && Linked(t.graph, p)
    ensures t.graph.procs[p].ready ==>
        t.graph.procs[p].stopping.None? && ActiveWorker(t.graph, p) && p in Pool(t.graph, v)
    ensures t.graph.procs[p].ready ==>
      var u := Stop(t, p, t.clock, false);
      Within(s, u) && Pool(u.graph, v) == Pool(t.graph, v) - {p} && u.graph.svcs == t.graph.svcs
          && Confined(t.graph, u.graph, p)
  {
    hide Stop, Within, Fading, Spared;
    WithinInv(s, t);
    WorkerOf(t, v, p);
    assert Indexed(t.graph);
    hide Inv, Indexed;
    StopAllStep(s, t, v, p);
    if t.graph.procs[p].ready { StopPool(t, p, v); StopKeepsServices(t, p); }
  }

  lemma StopKeepsServices(s: State, p: nat)
    requires Linked(s.graph, p) && Consistent(s.graph.procs[p]) && s.graph.procs[p].Active()
    ensures Stop(s, p, s.clock, false).graph.svcs == s.graph.svcs
  {
    hide Stop;
  }

  lemma RetireStep(g: Graph, h: Graph, v: nat, p: nat, wanted: bool, now: int, todo: set<nat>)
    requires v in g.svcs && h.svcs == g.svcs && Pool(h, v) == Pool(g, v) - {p} && Confined(g, h, p)
    requires p in Pool(g, v) && g.procs[p].ready && Idle(g.procs[p], g.svcs[v], wanted, now)
    ensures Retired(g, h, v, wanted, now) && |Pool(h, v)| == |Pool(g, v)| - 1
    ensures IdleOnlyIn(g, v, wanted, now, todo) ==> IdleOnlyIn(h, v, wanted, now, todo - {p})
  {
    hide Idle;
  }

  /** A worker that reports its requests is idle only after idle_timeout without any. */
  lemma IdleMeansQuiet(child: Process, service: Service, wanted: bool, now: int)
    requires Consistent(child) && child.telemetry && Idle(child, service, wanted, now)
    ensures child.requests == map[] && child.idleSince.Some?
    ensures child.busyUntil.Some? ==> child.busyUntil.value + service.config.idleTimeout <= now
  {
  }

  lemma WithinKeeps(s: State, t: State, v: nat)
    requires Within(s, t) && v in s.graph.svcs
    ensures v in t.graph.svcs && t.clock == s.clock && (Live(s.graph, v) ==> Live(t.graph, v))
    ensures t.graph.svcs[v].config == s.graph.svcs[v].config && t.graph.svcs[v].name == s.graph.svcs[v].name
    ensures t.graph.svcs[v].listener == s.graph.svcs[v].listener
  {
  }

  lemma SpawnPool(s: State, v: nat, p: nat, c: nat, ok: bool)
    requires v in s.graph.svcs && p !in s.graph.procs
    ensures v in Spawn(s, v, p, c, s.clock, ok).graph.svcs
    ensures Pool(s.graph, v) <= Pool(Spawn(s, v, p, c, s.clock, ok).graph, v)
    ensures Spawn(s, v, p, c, s.clock, ok).graph.procs.Keys == s.graph.procs.Keys + {p}
  {
    hide Admitted;
    var r := s.(graph := Reserve(s.graph, v, p, c, s.clock));
    assert Confined(r.graph, Admitted(r, p, s.clock, ok).graph, p);
  }

  /** Nothing that was asked to stop outlives stop_timeout without being killed. */
  ghost predicate DeadlineMet(g: Graph, now: int) {
    forall w <- g.workers :: w in g.procs && (Overdue(g.procs[w], now) ==> g.procs[w].exited || g.procs[w].killed)
  }

  lemma DeadlineStays(s: State, t: State)
    requires Good(s) && Within(s, t) && DeadlineMet(s.graph, s.clock)
    ensures DeadlineMet(t.graph, t.clock)
  {
    PathKeepsGood(s, t);
    forall w <- t.graph.workers
        ensures w in t.graph.procs
        ensures (Overdue(t.graph.procs[w], t.clock) ==> t.graph.procs[w].exited || t.graph.procs[w].killed) {
      DeadlineOf(s, t, w);
    }
  }

  lemma DeadlineOf(s: State, t: State, w: nat)
    requires Listed(t.graph) && Configured(t.graph) && Since(s, t) && s.clock == t.clock
    requires DeadlineMet(s.graph, s.clock) && w in t.graph.workers
    ensures w in t.graph.procs
    ensures (Overdue(t.graph.procs[w], t.clock) ==> t.graph.procs[w].exited || t.graph.procs[w].killed)
  {
    assert Linked(t.graph, w);
    if w in s.graph.procs { assert OnwardLoosely(s.graph.procs[w], t.graph.procs[w]); }
  }

  // ---------------------------------------------------------- shutting down

  /** Some worker, whatever its state, still depends on this worker's service. */
  predicate HasDependent(g: Graph, p: nat)
    requires Linked(g, p)
  {
    exists d <- g.workers :: d in g.procs && g.svcs[g.procs[p].service].name in g.procs[d].config.dependencies
  }

  /** Each unretired worker is depended upon. */
  ghost predicate AllHeld(g: Graph) {
    forall w <- g.workers :: Linked(g, w) && g.procs[w].stopping.None? ==> HasDependent(g, w)
  }

  function NameOf(g: Graph, p: nat): string
    requires Linked(g, p)
  {
    g.svcs[g.procs[p].service].name
  }

  lemma DependentRank(g: Graph, rank: map<string, nat>, p: nat) returns (d: nat)
    requires Indexed(g) && Current(g) && Dependencies.Ranked(Installed(g), rank)
    requires Linked(g, p) && HasDependent(g, p) && forall w <- g.workers :: Linked(g, w) && g.procs[w].Active()
    ensures d in g.workers && Linked(g, d) && NameOf(g, p) in rank && NameOf(g, d) in rank
    ensures rank[NameOf(g, p)] < rank[NameOf(g, d)]
  {
    d :| d in g.workers && d in g.procs && g.svcs[g.procs[p].service].name in g.procs[d].config.dependencies;
    assert ActiveWorker(g, d) && Linked(g, d);
    assert Installed(g)[NameOf(g, d)] == g.procs[d].config;
    assert Dependencies.Edge(Installed(g), NameOf(g, d), NameOf(g, p));
  }

  /** Following dependents upward among active workers never ends, so some worker
      of a shutdown that has workers left is retiring already or is free to go. */
  lemma {:induction false} EndlessRise(g: Graph, rank: map<string, nat>, p: nat, high: nat)
    requires Indexed(g) && Current(g) && Dependencies.Ranked(Installed(g), rank)
    requires forall w <- g.workers :: Linked(g, w) && g.procs[w].Active() && HasDependent(g, w)
    requires p in g.workers && NameOf(g, p) in rank && rank[NameOf(g, p)] <= high && forall n <- rank :: rank[n] <= high
    ensures false
    decreases high - rank[NameOf(g, p)]
  {
    var d := DependentRank(g, rank, p);
    EndlessRise(g, rank, d, high);
  }

  lemma HighestRank(rank: map<string, nat>) returns (high: nat)
    ensures forall n <- rank :: rank[n] <= high
    decreases |rank|
  {
    if rank == map[] {
      high := 0;
    } else {
      var one :| one in rank;
      var rest := rank - {one};
      high := HighestRank(rest);
      if rank[one] > high { high := rank[one]; }
      forall n <- rank ensures rank[n] <= high { assert n == one || n in rest; }
    }
  }

  lemma NotWedged(g: Graph)
    requires Indexed(g) && Current(g) && Dependencies.Sound(Installed(g)) && AllHeld(g) && g.workers != {}
    ensures exists w <- g.workers :: w in g.procs && !g.procs[w].Active()
  {
    if forall w <- g.workers :: w in g.procs ==> g.procs[w].Active() {
      Dependencies.SoundIffRanked(Installed(g));
      var rank :| Dependencies.Ranked(Installed(g), rank);
      var p :| p in g.workers;
      assert forall w <- g.workers :: Linked(g, w) && HasDependent(g, w);
      var d := DependentRank(g, rank, p);
      var high := HighestRank(rank);
      EndlessRise(g, rank, d, high);
    }
  }

  lemma WithinServices(s: State, t: State)
    requires Within(s, t)
    ensures t.graph.services == s.graph.services
  {
  }

  lemma WorkerLinked(s: State, p: nat)
    requires Inv(s) && p in s.graph.workers
    ensures Linked(s.graph, p) && Stoppable(s, p, false)
  {
  }

  /** The shutdown scan has visited all but `todo` of the workers of `g`. */
  ghost predicate Settling(g: Graph, h: Graph, todo: set<nat>) {
    && h.procs.Keys == g.procs.Keys
    && forall w <- h.workers :: Linked(h, w) && Settled(g, h, w, todo)
  }

  /** Untouched before its visit; afterwards stopped, or held by somebody who was there. */
  ghost predicate Settled(g: Graph, h: Graph, w: nat, todo: set<nat>)
    requires Linked(h, w) && h.procs.Keys == g.procs.Keys
  {
    && (w in todo ==> h.procs[w] == g.procs[w])
    && (h.procs[w].stopping.Some? && g.procs[w].stopping.None? ==> !HasDependent(h, w))
    && (w !in todo && h.procs[w].stopping.None? && h.workers == g.workers ==> HasDependent(h, w))
  }

  lemma DependentsFewer(g: Graph, h: Graph, p: nat, w: nat)
    requires Confined(g, h, p) && Linked(g, w)
    ensures Linked(h, w) && (HasDependent(h, w) ==> HasDependent(g, w))
    ensures (h.workers == g.workers ==> HasDependent(h, w) == HasDependent(g, w))
  {
    if HasDependent(h, w) {
      var d :| d in h.workers && d in h.procs && h.svcs[h.procs[w].service].name in h.procs[d].config.dependencies;
      assert d in g.workers && g.procs[d].config == h.procs[d].config;
    }
    if HasDependent(g, w) && h.workers == g.workers {
      var d :| d in g.workers && d in g.procs && g.svcs[g.procs[w].service].name in g.procs[d].config.dependencies;
      assert d in h.workers && g.procs[d].config == h.procs[d].config;
    }
  }

  lemma SettlingStep(g: Graph, s: State, p: nat, todo: set<nat>)
    requires Settling(g, s.graph, todo + {p}) && p in s.graph.workers && Linked(s.graph, p)
    requires !HasDependent(s.graph, p) && p !in todo
    requires s.graph.workers <= g.workers
    ensures Settling(g, Stop(s, p, s.clock, false).graph, todo)
  {
    hide Stop, HasDependent;
    var h := Stop(s, p, s.clock, false).graph;
    forall w <- h.workers ensures Linked(h, w) && Settled(g, h, w, todo) {
      DependentsFewer(s.graph, h, p, w);
      assert Settled(g, s.graph, w, todo + {p});
    }
  }

  lemma SettlingHeld(g: Graph, h: Graph, p: nat, todo: set<nat>)
    requires Settling(g, h, todo + {p}) && (p in h.workers ==> Linked(h, p) && HasDependent(h, p))
    ensures Settling(g, h, todo)
  {
    hide HasDependent;
    forall w <- h.workers ensures Settled(g, h, w, todo) { assert Settled(g, h, w, todo + {p}); }
  }

  lemma SettlingStarts(s: State)
    requires Inv(s)
    ensures Settling(s.graph, s.graph, s.graph.workers)
  {
  }

  lemma SettlingEnds(s: State, t: State)
    requires Within(s, t) && Dependencies.Sound(Installed(s.graph)) && Settling(s.graph, t.graph, {})
    ensures forall w <- t.graph.workers :: Linked(t.graph, w) && w in s.graph.procs
    ensures forall w <- t.graph.workers :: t.graph.procs[w].stopping.Some? && s.graph.procs[w].stopping.None? ==>
        !HasDependent(t.graph, w)
    ensures t.graph.workers == {} || t.graph.workers != s.graph.workers || exists w <- t.graph.workers ::
        w in t.graph.procs && !t.graph.procs[w].Active()
  {
    hide Within, Dependencies.Sound, HasDependent;
    forall w <- t.graph.workers ensures Settled(s.graph, t.graph, w, {}) { }
    if t.graph.workers != {} && t.graph.workers == s.graph.workers {
      WithinInstalled(s, t);
      WithinInv(s, t);
      NotWedged(t.graph);
    }
  }

  // ------------------------------------------------------ between two times

  /** `t` is reached from `s` at the same time. */
  ghost predicate Continues(s: State, t: State) {
    Good(t) && Path(s, t) && t.clock == s.clock
  }

  lemma WithinContinues(s: State, t: State, u: State)
    requires Continues(s, t) && Within(t, u)
    ensures Continues(s, u)
  {
    PathTransitive(s, t, u);
  }

  lemma ContinuesReflexive(s: State)
    requires Good(s)
    ensures Continues(s, s)
  {
    PathReflexive(s);
  }

  lemma ContinuesStep(s: State, t: State, m: Move)
    requires Continues(s, t) && Enabled(t, m)
    requires (m.Opening? || m.Closing? || m.Dropping? || m.Installing? || m.Unlistening?)
    ensures Continues(s, Result(t, m))
  {
    MoveClock(t, m);
    MoveKeepsGood(t, m);
    hide Good, Enabled, Result;
    PathStep(s, t, m);
  }

  lemma MoveClock(s: State, m: Move)
    requires Enabled(s, m) && (m.Opening? || m.Closing? || m.Dropping? || m.Installing? || m.Unlistening?)
    ensures Result(s, m).clock == s.clock
  {
  }

  lemma ContinuesGood(s: State, t: State)
    requires Continues(s, t)
    ensures Good(t) && t.clock == s.clock
  {
  }

  // ----------------------------------------------------------------- results

  /** The awaited failure of a check reaches the threshold only while its scope counts. */
  lemma RetiresActive(s: State, r: RunRef, ok: bool)
    requires Inv(s) && r in s.board.inflight
    ensures r in s.board.runs && (Retires(s.board.runs[r], ok) ==> ScopeActive(s.graph, r.scope))
  {
    var run := s.board.runs[r];
    assert Fits(s.graph, r, run.binding) && Sound(s.board, r);
    if Retires(run, ok) && !ScopeActive(s.graph, r.scope) {
      BindingValid(s.graph, r);
    }
  }

  lemma BindingValid(g: Graph, r: RunRef)
    requires Configured(g) && r.index < |BindingsOf(g, r.scope, r.event)|
    ensures ValidBinding(r.event, BindingsOf(g, r.scope, r.event)[r.index])
  {
    ConfigOfScope(g, r.scope, r.event);
  }

  lemma ConfigOfScope(g: Graph, scope: Scope, event: Event)
    requires Configured(g)
    ensures forall b <- BindingsOf(g, scope, event) :: ValidBinding(event, b)
  {
  }

  lemma CollectWithin(s: State, r: RunRef, ok: bool)
    requires Good(s) && r in s.board.inflight && r in s.board.runs
    ensures Within(s, s.(board := Collect(s.board, r, ok, s.clock)))
  {
    WithinReflexive(s);
    WithinStep(s, s, Finishing(r, ok));
  }

  lemma GoodInv(s: State)
    requires Good(s)
    ensures Inv(s)
  {
  }

  lemma InTimeMeets(g: Graph, now: int)
    requires forall w <- g.workers :: w in g.procs && InTime(g.procs[w], now)
    ensures DeadlineMet(g, now)
  {
  }

  lemma WithinValid(s: State, t: State)
    requires Within(s, t) && s.sockets == s.listeners.Keys && Dependencies.Sound(Installed(s.graph))
    ensures Good(t) && t.sockets == t.listeners.Keys && Dependencies.Sound(Installed(t.graph))
  {
    hide Good, Dependencies.Sound;
    WithinInstalled(s, t);
  }

  lemma MemberStep(s: State, t: State, c: nat, p: nat)
    requires Within(s, t) && c in t.graph.cycles && p in t.graph.cycles[c].members && p in t.graph.procs
    requires t.graph.procs[p].Active()
    ensures Linked(t.graph, p) && Within(s, Stop(t, p, t.clock, true))
    ensures Stop(t, p, t.clock, true).graph.procs[p].stopping.Some?
  {
    hide Stop;
    assert Linked(t.graph, p) && p in t.graph.workers;
    StopWithin(s, t, p, true);
  }

  /** Whom the failure of a scope's check retires. */
  function Targets(g: Graph, scope: Scope): set<nat> {
    match scope
    case OfWorker(p) => {p}
    case OfCycle(c) => if c in g.cycles then g.cycles[c].members else {}
  }

  /** actionResult: the bookkeeping, and then, if the failure retires anybody, the stops. */
  ghost predicate Concluded(s: State, t: State, r: RunRef, ok: bool, order: seq<nat>)
    requires r in s.board.runs
  {
    var u := s.(board := Collect(s.board, r, ok, s.clock));
    if Retires(s.board.runs[r], ok) then Enumerates(order, Targets(s.graph, r.scope)) && t == StopEach(u, order, true)
        else t == u
  }

  lemma StopFirst(s: State, p: nat)
    requires Linked(s.graph, p) && s.graph.procs[p].Active()
    ensures StopEach(s, [p], true) == Stop(s, p, s.clock, true) && Enumerates([p], {p})
  {
    hide Stop;
    FoldsStart(s);
    StopMore(s, [], true, p);
    assert [] + [p] == [p];
  }

  // ---------------------------------------------------------------- messages

  /** What reaches the event loop from actions, listeners and worker streams. */
  datatype Message =
    | ActionDone(run: RunRef, ok: bool)
    | Readable(events: seq<(nat, bool)>)
    | PollFailed
    | Exited(process: nat)
    | Probed(process: nat, ready: bool)
    | Hello(process: nat, ready: bool)
    | Broken(process: nat)
    | ReadyAgain(process: nat)
    | Started(process: nat, id: string)
    | Ended(process: nat, id: string)
  {
    predicate AboutProcess() {
      !ActionDone? && !Readable? && !PollFailed?
    }
  }

  /** The environment's part: an invoked action answers once, a process speaks only
      between its start and its exit, and only a probe may answer late. */
  ghost predicate Expected(s: State, msg: Message) {
    match msg
    case ActionDone(r, _) => r in s.board.inflight && r in s.board.runs
    case Readable(_) => true
    case PollFailed => true
    case Probed(p, _) => p in s.graph.workers ==> HasRun(s, p)
    case _ => msg.process in s.graph.workers ==> Speaks(s, msg.process)
  }

  /** What handle does with a message about a process that is still a worker. */
  function Answer(s: State, msg: Message): State
    requires msg.AboutProcess() && Linked(s.graph, msg.process)
  {
    match msg
    case Exited(p) => ProcessExit(s, p, s.clock)
    case Probed(p, ready) => ProbeResult(s, p, ready, s.clock)
    case Hello(p, ready) => Handshake(s, p, ready, s.clock)
    case Broken(p) => StreamError(s, p, s.clock)
    case ReadyAgain(p) => Stop(s, p, s.clock, true)
    case Started(p, id) => RequestStart(s, p, id, s.clock)
    case Ended(p, id) => RequestEnd(s, p, id, s.clock)
  }

  /** What handle does with a message. */
  ghost predicate Handled(s: State, t: State, msg: Message, order: seq<nat>) {
    match msg
    case ActionDone(r, ok) => r in s.board.runs && Concluded(s, t, r, ok, order)
    case Readable(events) => t == s.(graph := s.graph.(svcs := t.graph.svcs))
        && Raised(s.graph.svcs, t.graph.svcs, s.listeners, events)
    case PollFailed => t == s
    case _ => t == if msg.process in s.graph.workers && Linked(s.graph, msg.process) then Answer(s, msg) else s
  }

  lemma HandledProcess(s: State, t: State, msg: Message)
    requires msg.AboutProcess() && (msg.process !in s.graph.workers ==> t == s)
    requires msg.process in s.graph.workers ==> Linked(s.graph, msg.process) && t == Answer(s, msg)
    ensures Handled(s, t, msg, [])
  {
    hide Answer;
  }

  function MoveOf(msg: Message): Move
    requires msg.AboutProcess()
  {
    match msg
    case Exited(p) => Exiting(p)
    case Probed(p, ready) => Answering(p, ready)
    case Hello(p, ready) => Greeting(p, ready)
    case Broken(p) => Failing(p)
    case ReadyAgain(p) => Halting(p, true)
    case Started(p, id) => Requesting(p, id)
    case Ended(p, id) => Responding(p, id)
  }

  lemma AnswerWithin(s: State, msg: Message)
    requires Good(s) && msg.AboutProcess() && Expected(s, msg) && msg.process in s.graph.workers
    ensures Linked(s.graph, msg.process) && Within(s, Answer(s, msg))
  {
    hide Within, Enabled, Good, Answer, Result, MoveOf;
    WithinReflexive(s);
    GoodInv(s);
    AnswerEnabled(s, msg);
    AnswerIsMove(s, msg);
    WithinStep(s, s, MoveOf(msg));
  }

  lemma AnswerEnabled(s: State, msg: Message)
    requires Inv(s) && msg.AboutProcess() && Expected(s, msg) && msg.process in s.graph.workers
    ensures Linked(s.graph, msg.process) && Enabled(s, MoveOf(msg)) && Local(MoveOf(msg))
  {
    hide Inv;
  }

  lemma AnswerIsMove(s: State, msg: Message)
    requires msg.AboutProcess() && Linked(s.graph, msg.process) && Enabled(s, MoveOf(msg))
    ensures Answer(s, msg) == Result(s, MoveOf(msg))
  {
    hide Stop, ProcessExit, ProbeResult, Handshake, StreamError, RequestStart, RequestEnd;
  }

  /** Some event comes from the listener of service `v`. */
  predicate Called(listeners: map<nat, nat>, events: seq<(nat, bool)>, v: nat) {
    exists i | 0 <= i < |events| :: events[i].0 in listeners && listeners[events[i].0] == v && !events[i].1
  }

  /** Exactly the services that some event comes from have been given a demand. */
  ghost predicate Raised(before: map<nat, Service>, after: map<nat, Service>, listeners: map<nat, nat>,
            events: seq<(nat, bool)>) {
    && after.Keys == before.Keys
    && forall v <- after :: after[v] == if Called(listeners, events, v) then before[v].(demand := true) else before[v]
  }

  lemma RaisedStarts(before: map<nat, Service>, listeners: map<nat, nat>, events: seq<(nat, bool)>)
    ensures Raised(before, before, listeners, events[..0])
  {
  }

  lemma RaisedStep(before: map<nat, Service>, svcs: map<nat, Service>, listeners: map<nat, nat>,
            events: seq<(nat, bool)>, i: nat)
    requires i < |events| && Raised(before, svcs, listeners, events[..i])
    requires (events[i].0 in listeners ==> listeners[events[i].0] in svcs)
    ensures var (id, broken) := events[i];
      Raised(before, if id in listeners && !broken then svcs[listeners[id] := svcs[listeners[id]].(demand := true)]
          else svcs, listeners, events[..i + 1])
  {
    CalledOneMore(listeners, events, i);
    hide Called;
  }

  lemma CalledOneMore(listeners: map<nat, nat>, events: seq<(nat, bool)>, i: nat)
    requires i < |events|
    ensures forall v :: Called(listeners, events[..i + 1], v) <==>
      Called(listeners, events[..i], v) || (events[i].0 in listeners && listeners[events[i].0] == v && !events[i].1)
  {
    forall v ensures Called(listeners, events[..i + 1], v) <==>
      Called(listeners, events[..i], v) || (events[i].0 in listeners && listeners[events[i].0] == v && !events[i].1)
    {
      if Called(listeners, events[..i], v) {
        var j :| 0 <= j < i && events[..i][j].0 in listeners && listeners[events[..i][j].0] == v && !events[..i][j].1;
        assert events[..i + 1][j] == events[..i][j];
      }
      assert events[..i + 1][i] == events[i];
    }
  }

  lemma ListenerOwner(s: State, t: State, id: nat)
    requires Within(s, t) && id in t.listeners
    ensures t.listeners[id] in t.graph.svcs
  {
  }

  // ------------------------------------------------------ a tick explained

  /** The worker loop in the order in which the workers came up; those that left
      before their turn are passed over. */
  ghost function InspectAll(s: State, order: seq<nat>): State {
    if order == [] then s
    else
      var t, p := InspectAll(s, order[..|order| - 1]), order[|order| - 1];
      if p in t.graph.workers && Linked(t.graph, p) then Inspect(t, p, s.clock) else t
  }

  /** The shutdown scan likewise. */
  ghost function ScanAll(s: State, order: seq<nat>): State {
    if order == [] then s
    else
      var t, p := ScanAll(s, order[..|order| - 1]), order[|order| - 1];
      if p in t.graph.workers && Linked(t.graph, p) && !HasDependent(t.graph, p) then Stop(t, p, s.clock, false) else t
  }

  ghost predicate Enumerates<T(!new)>(order: seq<T>, all: set<T>) {
    (forall x :: x in order <==> x in all) && forall i, j | 0 <= i < j < |order| :: order[i] != order[j]
  }

  lemma EnumerateNone<T(!new)>(all: set<T>)
    ensures Enumerates([], all - all)
  {
  }

  lemma EnumerateMore<T(!new)>(order: seq<T>, all: set<T>, todo: set<T>, x: T)
    requires todo <= all && x in todo && Enumerates(order, all - todo)
    ensures Enumerates(order + [x], all - (todo - {x}))
  {
    forall y ensures y in order + [x] <==> y in all - (todo - {x}) { }
    assert x !in order;
  }

  /** Due occurrences have been noted, nothing else has changed, and the demand has
      been followed. */
  ghost predicate Considered(s: State, t: State, reading: Schedule.Reading, wanted: set<string>,
            required: set<string>) {
    && t == s.(graph := s.graph.(svcs := t.graph.svcs)) && t.graph.svcs.Keys == s.graph.svcs.Keys
    && (forall v <- s.graph.svcs :: t.graph.svcs[v] == ConsideredService(s, v, reading))
    && Activated(Installed(t.graph), Roots(t.graph), wanted, required)
  }

  ghost function ConsideredService(s: State, v: nat, reading: Schedule.Reading): Service
    requires v in s.graph.svcs
  {
    var service := s.graph.svcs[v];
    if Live(s.graph, v) && service.config.Scheduled() && service.config.Valid()
    then Noted(service, s.clock, reading, |Executions(s.graph, service.name)|) else service
  }

  /** A service that loses a dependency under its workers wants to come back. */
  function Wanting(s: State, v: nat): State
    requires v in s.graph.svcs
  {
    var service := s.graph.svcs[v];
    if service.workers != {} && !service.config.Scheduled()
        then s.(graph := PutService(s.graph, v, service.(demand := true))) else s
  }

  /** One reservation of a service, if it still counts. */
  function StartOne(s: State, p: nat, ok: bool): State {
    if Linked(s.graph, p) && s.graph.procs[p].pending && s.graph.procs[p].Active()
        then StartPending(s, p, s.clock, ok) else s
  }

  /** All of them; the system creates the processes in `granted`. */
  ghost function StartEach(s: State, order: seq<nat>, granted: set<nat>): State {
    if order == [] then s
    else StartOne(StartEach(s, order[..|order| - 1], granted), order[|order| - 1], order[|order| - 1] in granted)
  }

  lemma StartMore(s: State, order: seq<nat>, granted: set<nat>, p: nat)
    ensures StartEach(s, order + [p], granted) == StartOne(StartEach(s, order, granted), p, p in granted)
    ensures StartEach(s, [], granted) == s
  {
    assert (order + [p])[..|order|] == order;
  }

  /** The generation that a new process of the service joins. */
  function CycleFor(g: Graph, v: nat, address: nat): nat
    requires v in g.svcs
  {
    if Joins(g, v) then g.svcs[v].cycle.value else address
  }

  /** One worker more, or a delay after a failed start. */
  function Grown(s: State, v: nat, p: nat, ok: bool): State
    requires v in s.graph.svcs
  {
    var c := CycleFor(s.graph, v, p);
    var t := Spawn(s, v, p, c, s.clock, ok);
    if SpawnFails(s, v, p, c, s.clock, ok) && v in t.graph.svcs
    then t.(graph := PutService(t.graph, v, Backoff(t.graph.svcs[v], s.clock))) else t
  }

  /** A demand that is met is over; a service that nobody wants notes since when. */
  function Noticed(service: Service, wanted: bool, met: bool, now: int): Service {
    service.(
      demand := service.demand && !met,
      unneededSince := if wanted then None else if service.unneededSince.None? then Some(now)
          else service.unneededSince)
  }

  /** How a service changed in one round: the address of a new process, should there be
      one, and the system's answer for it; the state after growth; who retired. */
  datatype Change = Change(pressing: bool, address: nat, answer: bool, grown: State, gone: seq<nat>)

  /** Growth by at most one, then the retirement of idle workers down to the floor. */
  ghost predicate PoolTurn(s: State, t: State, v: nat, wanted: bool, required: bool, c: Change) {
    && v in s.graph.svcs && v in t.graph.svcs && c.address !in s.graph.procs && c.address !in s.graph.cycles
    && var u := if Grows(s.graph, v, required, c.pressing, s.clock) then Grown(s, v, c.address, c.answer) else s;
    && v in u.graph.svcs
    && c.grown == u.(graph := PutService(u.graph, v, Noticed(u.graph.svcs[v], wanted, |Pool(s.graph, v)| > 0, s.clock)))
    && t == StopEach(c.grown, c.gone, false) && Enumerates(c.gone, Pool(c.grown.graph, v) - Pool(t.graph, v))
    && Retired(c.grown.graph, t.graph, v, wanted, s.clock)
    && var left := |Pool(s.graph, v)| - (|Pool(c.grown.graph, v)| - |Pool(t.graph, v)|);
    && (c.gone == [] || Floor(s.graph.svcs[v].config, required) <= left)
    && (left <= Floor(s.graph.svcs[v].config, required) || IdleOnlyIn(t.graph, v, wanted, s.clock, {}))
  }

  /** The noted occurrence of a scheduled service starts in a generation of its own. */
  ghost predicate ScheduleTurn(s: State, t: State, v: nat, c: Change) {
    && v in s.graph.svcs && v in t.graph.svcs && !t.graph.svcs[v].scheduled
    && if s.graph.svcs[v].scheduled
       then
         && c.address !in s.graph.procs && c.address !in s.graph.cycles
         && t == Spawn(s.(graph := PutService(s.graph, v, s.graph.svcs[v].(scheduled := false))), v, c.address,
              c.address, s.clock, c.answer)
       else t == s
  }

  /** One round of the loop over the services. `order` lists the workers it stopped, or
      looked at for reservations; the system created those in `granted`. */
  datatype Turn = Turn(name: string, before: State, order: seq<nat>, granted: set<nat>, started: State,
      change: Change, after: State)

  /** A service whose dependencies are not ready only stops; another one starts what
      it has reserved, then its due execution, or what its pool needs. */
  ghost predicate ServiceTurn(turn: Turn, v: nat, wanted: bool, required: bool) {
    && Good(turn.before) && Good(turn.started) && Live(turn.before.graph, v)
    && v in turn.before.graph.svcs && Enumerates(turn.order, turn.before.graph.svcs[v].workers)
    && if !ManagerState.DependenciesReady(turn.before.graph, turn.before.graph.svcs[v].config, false)
       then
         && turn.started == turn.before && turn.after == StopEach(Wanting(turn.before, v), turn.order, false)
         && v in turn.after.graph.svcs
         && forall w <- turn.after.graph.svcs[v].workers ::
              w in turn.after.graph.procs && turn.after.graph.procs[w].stopping.Some?
       else
         && turn.started == StartEach(turn.before, turn.order, turn.granted)
         && ReservationsDone(turn.before, turn.started, v, {})
         && if turn.before.graph.svcs[v].config.Scheduled()
            then ScheduleTurn(turn.started, turn.after, v, turn.change)
            else PoolTurn(turn.started, turn.after, v, wanted, required, turn.change)
  }

  ghost predicate Turned(turn: Turn, wanted: set<string>, required: set<string>) {
    && turn.name in turn.before.graph.services
    && ServiceTurn(turn, turn.before.graph.services[turn.name], turn.name in wanted, turn.name in required)
  }

  function Names(turns: seq<Turn>): seq<string> {
    seq(|turns|, i requires 0 <= i < |turns| => turns[i].name)
  }

  /** The rounds follow one another from `s` to `t`. */
  ghost predicate Turns(s: State, turns: seq<Turn>, t: State, wanted: set<string>, required: set<string>) {
    && (if turns == [] then t == s else turns[0].before == s && turns[|turns| - 1].after == t)
    && (forall i | 0 <= i < |turns| :: Turned(turns[i], wanted, required))
    && (forall i | 0 <= i < |turns| - 1 :: turns[i].after == turns[i + 1].before)
  }

  lemma TurnMore(s: State, turns: seq<Turn>, turn: Turn, wanted: set<string>, required: set<string>)
    requires Turns(s, turns, turn.before, wanted, required) && Turned(turn, wanted, required)
    ensures Turns(s, turns + [turn], turn.after, wanted, required)
    ensures Names(turns + [turn]) == Names(turns) + [turn.name]
  {
    hide Turned;
  }

  /** What happened in one tick, step by step. */
  datatype Account = Account(
    order: seq<nat>,
    inspected: State,
    considered: State,
    wanted: set<string>,
    required: set<string>,
    turns: seq<Turn>,
    scan: seq<nat>
  )

  /** tick: every worker is inspected; then a stopping loop scans its workers, and any
      other one notes due occurrences, follows the demand and gives each service its
      turn. All orders are possible. */
  ghost predicate Explains(a: Account, s: State, t: State, stopping: bool, reading: Schedule.Reading) {
    && Enumerates(a.order, s.graph.workers) && a.inspected == InspectAll(s, a.order)
    && if stopping
       then Enumerates(a.scan, a.inspected.graph.workers) && t == ScanAll(a.inspected, a.scan)
       else
         && Considered(a.inspected, a.considered, reading, a.wanted, a.required)
         && Enumerates(Names(a.turns), a.considered.graph.services.Keys)
              && Turns(a.considered, a.turns, t, a.wanted, a.required)
  }

  // The loops of a tick, told from their start.

  lemma FoldsStart(s: State)
    ensures InspectAll(s, []) == s && ScanAll(s, []) == s && StopEach(s, [], false) == s && StopEach(s, [], true) == s
    ensures Enumerates([], s.graph.workers - s.graph.workers)
  {
  }

  lemma InspectMore(s: State, order: seq<nat>, p: nat)
    ensures var t := InspectAll(s, order);
      InspectAll(s, order + [p]) == if p in t.graph.workers && Linked(t.graph, p) then Inspect(t, p, s.clock) else t
  {
    assert (order + [p])[..|order|] == order;
  }

  lemma ScanMore(s: State, order: seq<nat>, p: nat)
    ensures var t := ScanAll(s, order);
      ScanAll(s, order + [p]) == if p in t.graph.workers && Linked(t.graph, p) && !HasDependent(t.graph, p)
          then Stop(t, p, s.clock, false) else t
  {
    assert (order + [p])[..|order|] == order;
  }

  /** The loop that considers the services has all but `todo` of the names behind it. */
  ghost predicate ConsideredSoFar(s: State, t: State, reading: Schedule.Reading, todo: set<string>) {
    && t == s.(graph := s.graph.(svcs := t.graph.svcs)) && t.graph.svcs.Keys == s.graph.svcs.Keys
    && Inv(s)
    && forall v <- s.graph.svcs ::
         && t.graph.svcs[v].name == s.graph.svcs[v].name
         && t.graph.svcs[v] == if s.graph.svcs[v].name in todo then s.graph.svcs[v]
              else ConsideredService(s, v, reading)
  }

  lemma ConsiderStarts(s: State, reading: Schedule.Reading)
    requires Good(s)
    ensures ConsideredSoFar(s, s, reading, s.graph.services.Keys)
  {
  }

  lemma ConsiderStep(s: State, t: State, u: State, reading: Schedule.Reading, rest: set<string>, name: string)
    requires ConsideredSoFar(s, t, reading, rest + {name}) && name in t.graph.services && name !in rest
    requires t.graph.services[name] in t.graph.svcs
    requires u ==
        t.(graph := t.graph.(svcs := t.graph.svcs[t.graph.services[name] := ConsideredService(t,
            t.graph.services[name], reading)]))
    ensures ConsideredSoFar(s, u, reading, rest)
  {
    hide Inv, Executions, Noted, Live;
    var v := s.graph.services[name];
    ServiceOf(s, name);
    SameExecutions(s, t, name);
    ConsideredName(s, v, reading);
    assert ConsideredService(t, v, reading) == ConsideredService(s, v, reading);
    forall x <- s.graph.svcs | x != v && s.graph.svcs[x].name == name
        ensures ConsideredService(s, x, reading) == s.graph.svcs[x] {
      OtherNotLive(s.graph, name, x);
    }
  }

  lemma ConsideredName(s: State, v: nat, reading: Schedule.Reading)
    requires v in s.graph.svcs
    ensures ConsideredService(s, v, reading).name == s.graph.svcs[v].name
  {
  }

  lemma OtherNotLive(g: Graph, name: string, x: nat)
    requires name in g.services && x != g.services[name] && x in g.svcs && g.svcs[x].name == name
    ensures !Live(g, x)
  {
  }

  /** Noting an occurrence keeps everything that a tick keeps. */
  lemma ConsideredTunable(s: State, name: string, reading: Schedule.Reading)
    requires Good(s) && name in s.graph.services && s.graph.services[name] in s.graph.svcs
    ensures var v := s.graph.services[name]; Within(s,
        s.(graph := PutService(s.graph, v, ConsideredService(s, v, reading))))
  {
    var v := s.graph.services[name];
    ServiceOf(s, name);
    WithinReflexive(s);
    hide Good, Within, Inv, Noted;
    NotedTunable(s.graph, v, s.clock, reading);
    TuneWithin(s, s, v, ConsideredService(s, v, reading));
  }

  lemma ConsideredUnscheduled(s: State, name: string, reading: Schedule.Reading)
    requires Inv(s) && name in s.graph.services && s.graph.services[name] in s.graph.svcs
    ensures var v := s.graph.services[name];
      ConsideredService(s, v, reading) == if s.graph.svcs[v].config.Scheduled()
        then Noted(s.graph.svcs[v], s.clock, reading, |Executions(s.graph, s.graph.svcs[v].name)|) else s.graph.svcs[v]
  {
    ServiceOf(s, name);
    hide Inv, Noted, Executions;
  }

  lemma RootOf(g: Graph, name: string)
    requires name in g.services && g.services[name] in g.svcs
    ensures name in Roots(g) <==> Demanded(g.svcs[g.services[name]])
  {
  }

  lemma SameExecutions(s: State, t: State, name: string)
    requires t == s.(graph := s.graph.(svcs := t.graph.svcs)) && t.graph.svcs.Keys == s.graph.svcs.Keys
    requires forall v <- s.graph.svcs :: t.graph.svcs[v].name == s.graph.svcs[v].name
    ensures Executions(t.graph, name) == Executions(s.graph, name)
    ensures forall v :: Live(t.graph, v) == Live(s.graph, v)
  {
  }

  lemma ConsiderEnds(s: State, t: State, reading: Schedule.Reading, wanted: set<string>, required: set<string>)
    requires ConsideredSoFar(s, t, reading, {}) && Activated(Installed(t.graph), Roots(t.graph), wanted, required)
    ensures Considered(s, t, reading, wanted, required)
  {
    hide Inv, Activated, Roots, Installed, ConsideredService;
  }

  lemma TurnsStart(s: State, wanted: set<string>, required: set<string>)
    ensures Turns(s, [], s, wanted, required) && Enumerates(Names([]), s.graph.services.Keys - s.graph.services.Keys)
  {
    assert Names([]) == [];
  }
}
