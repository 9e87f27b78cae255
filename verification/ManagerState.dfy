/** The manager's object graph. A pointer of the source is an identifier here,
    and the object it points to is a record in the table of its kind. */
module ManagerState {
  import opened Options
  import opened Config
  import opened ActionBoard

  /** A process object. The last five fields are history variables: how often it
      was started, asked to stop, killed and charged to its service's backoff,
      and the last instant at which it still had a request in progress. */
  datatype Process = Process(
    service: nat,
    config: App,
    cycle: nat,
    pending: bool,
    exited: bool,
    baseReady: bool,
    ready: bool,
    wasReady: bool,
    telemetry: bool,
    stopSent: bool,
    killed: bool,
    failed: bool,
    probing: bool,
    started: int,
    executed: Option<int>,
    stopping: Option<int>,
    requests: map<string, int>,
    idleSince: Option<int>,
    nextProbe: Option<int>,
    starts: nat,
    stops: nat,
    kills: nat,
    backoffs: nat,
    busyUntil: Option<int>
  )
  {
    /** Neither retiring nor gone: what counts toward a pool. */
    predicate Active() {
      stopping.None? && !exited
    }
  }

  /** An appCycle: one lifecycle generation of an application. */
  datatype Cycle = Cycle(config: App, members: set<nat>, retiring: bool)

  /** `installed` is a history variable: when apply made the service. */
  datatype Service = Service(
    name: string,
    config: App,
    listener: Option<nat>,
    workers: set<nat>,
    demand: bool,
    scheduled: bool,
    nextRun: Option<int>,
    cycle: Option<nat>,
    retryAt: Option<int>,
    failures: nat,
    unneededSince: Option<int>,
    installed: int
  )

  /** `services` is the source's name table; `svcs`, `procs` and `cycles` hold the
      objects that it and the objects themselves point to. */
  datatype Graph = Graph(
    services: map<string, nat>,
    svcs: map<nat, Service>,
    workers: set<nat>,
    procs: map<nat, Process>,
    cycles: map<nat, Cycle>
  )

  /** `sockets` holds the listeners that are open; `clock` the latest time the
      event loop has seen. */
  datatype State = State(
    clock: int,
    graph: Graph,
    board: Board,
    listeners: map<nat, nat>,
    nextListener: nat,
    sockets: set<nat>
  )

  function Initial(clock: int): State {
    State(clock, Graph(map[], map[], {}, map[], map[]), EMPTY_BOARD, map[], 0, {})
  }

  // ---------------------------------------------------------------- queries

  /** The process, its service and its generation all exist. */
  predicate Linked(g: Graph, p: nat) {
    p in g.procs && g.procs[p].cycle in g.cycles && g.procs[p].service in g.svcs
  }

  predicate ActiveWorker(g: Graph, p: nat) {
    p in g.workers && p in g.procs && g.procs[p].Active()
  }

  /** Some member of the generation is neither retiring nor exited. */
  predicate CycleActive(g: Graph, c: nat) {
    c in g.cycles && exists m <- g.cycles[c].members :: m in g.procs && g.procs[m].Active()
  }

  predicate AllExited(g: Graph, c: nat)
    requires c in g.cycles
  {
    forall m <- g.cycles[c].members :: m in g.procs ==> g.procs[m].exited
  }

  /** The bindings a scope takes from its configuration for one trigger. */
  function BindingsOf(g: Graph, scope: Scope, event: Event): seq<Binding> {
    match scope
    case OfWorker(p) => if p in g.procs then g.procs[p].config.Bindings(event) else []
    case OfCycle(c) => if c in g.cycles then g.cycles[c].config.Bindings(event) else []
  }

  /** Every worker of an application's name: reservations, running and draining
      processes, and those whose last hooks are awaited. */
  function Executions(g: Graph, name: string): set<nat> {
    set w | w in g.workers && w in g.procs && g.procs[w].service in g.svcs && g.svcs[g.procs[w].service].name == name
  }

  /** When an occurrence that is due now is considered next. */
  function NextDue(service: Service, now: int): Option<int>
    requires service.nextRun.Some? && service.nextRun.value <= now && (service.config.plan.Every? ==>
      0 < service.config.plan.period)
  {
    match service.config.plan
    case Every(period) => Some(Schedule.NextPoint(service.nextRun.value, period, now))
    case _ => service.config.plan.Next(now)
  }

  /** The part of a service's workers that counts toward MaxWorkers. */
  function Pool(g: Graph, v: nat): set<nat>
    requires v in g.svcs
  {
    set w | w in g.svcs[v].workers && w in g.procs && g.procs[w].Active()
  }

  /** The service is the one its name currently stands for. */
  predicate Live(g: Graph, v: nat) {
    v in g.svcs && g.svcs[v].name in g.services && g.services[g.svcs[v].name] == v
  }

  /** The configured applications, by name. */
  function Installed(g: Graph): map<string, App> {
    map n | n in g.services && g.services[n] in g.svcs :: g.svcs[g.services[n]].config
  }

  predicate ConditionMet(g: Graph, name: string, condition: Condition) {
    && name in g.services && g.services[name] in g.svcs
    && exists w <- g.svcs[g.services[name]].workers ::
         w in g.procs && !g.procs[w].pending && g.procs[w].Active() && (condition == WhenStarted || g.procs[w].ready)
  }

  /** dependenciesReady: before a start a parallel dependency does not count. */
  predicate DependenciesReady(g: Graph, app: App, readiness: bool) {
    forall name <- app.dependencies ::
      (app.dependencies[name] == WhenParallel && !readiness) || ConditionMet(g, name, app.dependencies[name])
  }

  // ---------------------------------------------------------------- updates

  function PutProc(g: Graph, p: nat, child: Process): Graph {
    g.(procs := g.procs[p := child])
  }

  function PutService(g: Graph, v: nat, service: Service): Graph {
    g.(svcs := g.svcs[v := service])
  }

  /** A process stops counting; its generation retires if it was the last to count. */
  function Deactivate(g: Graph, p: nat, child: Process): Graph {
    var h := PutProc(g, p, child);
    if CycleActive(h, child.cycle) || child.cycle !in h.cycles then h
    else h.(cycles := h.cycles[child.cycle := h.cycles[child.cycle].(retiring := true)])
  }

  function Remove(g: Graph, p: nat): Graph
    requires Linked(g, p)
  {
    var child := g.procs[p];
    var service, cycle := g.svcs[child.service], g.cycles[child.cycle];
    g.(workers := g.workers - {p},
       svcs := g.svcs[child.service := service.(workers := service.workers - {p})],
       cycles := g.cycles[child.cycle := cycle.(members := cycle.members - {p})])
  }

  /** A reservation is given up; a generation that is left empty retires. */
  function Vacate(g: Graph, p: nat): Graph
    requires Linked(g, p)
  {
    var c, h := g.procs[p].cycle, Remove(g, p);
    if h.cycles[c].members != {} then h else h.(cycles := h.cycles[c := h.cycles[c].(retiring := true)])
  }

  function NewProcess(v: nat, config: App, c: nat, now: int): Process {
    Process(v, config, c, true, false, false, false, false, false, false, false, false, false,
            now, None, None, map[], None, None, 0, 0, 0, 0, None)
  }

  /** The reservation that spawn makes: process `p` in generation `c`. */
  function Reserve(g: Graph, v: nat, p: nat, c: nat, now: int): Graph
    requires v in g.svcs
  {
    var service := g.svcs[v];
    var cycle := if c in g.cycles then g.cycles[c] else Cycle(service.config, {}, false);
    g.(procs := g.procs[p := NewProcess(v, service.config, c, now)],
       cycles := g.cycles[c := cycle.(members := cycle.members + {p})],
       workers := g.workers + {p},
       svcs := g.svcs[v := service.(cycle := Some(c), workers := service.workers + {p})])
  }

  /** spawn stays in the current generation unless that is retiring or the app is scheduled. */
  predicate Joins(g: Graph, v: nat)
    requires v in g.svcs
  {
    && g.svcs[v].cycle.Some? && g.svcs[v].cycle.value in g.cycles
    && !g.cycles[g.svcs[v].cycle.value].retiring
    && !g.svcs[v].config.Scheduled()
  }
}
