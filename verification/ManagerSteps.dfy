/** What each manager operation does, as functions from the old state to the new
    one. Class Manager carries the same operations out step by step. */
module ManagerSteps {
  import opened Options
  import opened Config
  import opened ActionBoard
  import opened ManagerState

  /** Of the process records only that of `p` changes, no other worker leaves,
      and every object remains. */
  ghost predicate Confined(g: Graph, h: Graph, p: nat) {
    && h.services == g.services && h.svcs.Keys == g.svcs.Keys && h.cycles.Keys == g.cycles.Keys
         && h.procs.Keys == g.procs.Keys
    && (forall q <- g.procs :: q != p ==> h.procs[q] == g.procs[q])
    && g.workers - {p} <= h.workers <= g.workers
    && (forall v <- g.svcs ::
         g.svcs[v].workers - {p} <= h.svcs[v].workers <= g.svcs[v].workers && h.svcs[v].name == g.svcs[v].name)
    && (forall c <- g.cycles :: g.cycles[c].members - {p} <= h.cycles[c].members <= g.cycles[c].members)
    && (p in g.procs ==>
         h.procs[p].cycle == g.procs[p].cycle && h.procs[p].service == g.procs[p].service
             && h.procs[p].config == g.procs[p].config)
  }

  /** Services lose workers at most. */
  ghost predicate OnlyWorkers(g: Graph, h: Graph) {
    h.svcs.Keys == g.svcs.Keys && forall v <- g.svcs :: h.svcs[v] == g.svcs[v].(workers := h.svcs[v].workers)
  }

  /** What a stop request left on a process, and its requests, stay. */
  predicate SameMarks(child: Process, next: Process) {
    next.stopping == child.stopping && next.failed == child.failed && next.requests == child.requests
        && (child.exited ==> next.exited)
    && next.pending == child.pending && next.starts == child.starts
  }

  function WithProc(s: State, p: nat, child: Process): State {
    s.(graph := PutProc(s.graph, p, child))
  }

  function Phase(s: State, scope: Scope, event: Event, now: int): State {
    s.(board := Reach(s.board, scope, event, BindingsOf(s.graph, scope, event), now))
  }

  function CancelPhase(s: State, scope: Scope, event: Event): State {
    s.(board := Cancel(s.board, scope, {event}))
  }

  function CancelChecks(s: State, scope: Scope): State {
    s.(board := Cancel(s.board, scope, CHECKS))
  }

  // -------------------------------------------------------------- lifecycle

  /** `child` replaces process `p` and no longer counts: its checks are
      cancelled, and those of its generation when it was the last to count. */
  function Withdraw(s: State, p: nat, child: Process): (t: State)
    ensures t.graph.procs == s.graph.procs[p := child] && t.graph.workers == s.graph.workers
    ensures t.graph.svcs == s.graph.svcs
    ensures t.graph.cycles.Keys == s.graph.cycles.Keys
  {
    var g := Deactivate(s.graph, p, child);
    var t := CancelChecks(s, OfWorker(p)).(graph := g);
    if CycleActive(g, child.cycle) then t else CancelChecks(t, OfCycle(child.cycle))
  }

  /** Past stop_timeout. */
  predicate Overdue(child: Process, now: int) {
    child.stopping.Some? && now - child.stopping.value >= child.config.stopTimeout
  }

  function Stopped(child: Process, now: int, failed: bool): Process {
    child.(stopping := Some(now), ready := false, failed := child.failed || failed)
  }

  function MarkStopping(s: State, p: nat, now: int, failed: bool): (t: State)
    requires p in s.graph.procs
    ensures Confined(s.graph, t.graph, p)
    ensures t.graph.procs[p] == Stopped(s.graph.procs[p], now, failed) && t.graph.workers == s.graph.workers
  {
    Withdraw(s, p, Stopped(s.graph.procs[p], now, failed))
  }

  function Gone(child: Process): Process {
    child.(exited := true, ready := false)
  }

  function MarkExited(s: State, p: nat): (t: State)
    requires p in s.graph.procs
    ensures Confined(s.graph, t.graph, p)
  {
    Withdraw(s, p, Gone(s.graph.procs[p]))
  }

  function Doubled(failures: nat): (factor: nat)
    ensures 1 <= factor <= 128
  {
    if failures == 0 then 1 else if failures == 1 then 2 else if failures == 2 then 4
    else if failures == 3 then 8 else if failures == 4 then 16 else if failures == 5 then 32
    else if failures == 6 then 64 else 128
  }

  /** service.backoff: 250 ms doubled for each failure in a row, up to 32 s. */
  function Backoff(service: Service, now: int): Service {
    service.(failures := service.failures + 1, retryAt := Some(now + 250_000_000 * Doubled(service.failures)))
  }

  function Charged(child: Process): Process {
    child.(backoffs := child.backoffs + 1)
  }

  /** A failed or lost process asks for a replacement, after a delay. */
  function Charge(s: State, p: nat, now: int): (t: State)
    requires Linked(s.graph, p)
    ensures Confined(s.graph, t.graph, p)
    ensures t.graph.procs[p] in {s.graph.procs[p], Charged(s.graph.procs[p])} && t.graph.workers == s.graph.workers
  {
    var child := s.graph.procs[p];
    if child.config.Scheduled() then s
    else
      var service := Backoff(s.graph.svcs[child.service].(demand := true), now);
      s.(graph := PutService(PutProc(s.graph, p, Charged(child)), child.service, service))
  }

  /** The graceful stop, or the end of a reservation that never started. */
  function Signalled(child: Process): (next: Process)
    ensures SameMarks(child, next)
  {
    var sent := child.(stopSent := true);
    if child.pending then sent.(exited := true) else sent.(stops := child.stops + 1)
  }

  function SendStop(s: State, p: nat): (t: State)
    requires p in s.graph.procs
    ensures Confined(s.graph, t.graph, p)
    ensures t.graph == s.graph.(procs := t.graph.procs)
  {
    WithProc(s, p, Signalled(s.graph.procs[p]))
  }

  function Published(child: Process, ready: bool): (next: Process)
    ensures SameMarks(child, next)
  {
    child.(ready := ready, wasReady := child.wasReady || ready)
  }

  function Publish(s: State, p: nat, ready: bool): (t: State)
    requires p in s.graph.procs
    ensures Confined(s.graph, t.graph, p)
    ensures t.graph == s.graph.(procs := t.graph.procs)
  {
    WithProc(s, p, Published(s.graph.procs[p], ready))
  }

  /** The app's share of an exit: its last hooks, once every member has exited. */
  function LastHooks(s: State, c: nat, now: int): (t: State)
    requires c in s.graph.cycles
    ensures t.graph == s.graph
  {
    if AllExited(s.graph, c) then Phase(CancelPhase(s, OfCycle(c), PreStop), OfCycle(c), PostStop, now) else s
  }

  /** The process disappears from the manager's, its service's and its generation's lists. */
  function Leave(s: State, p: nat): (t: State)
    requires Linked(s.graph, p)
    ensures Confined(s.graph, t.graph, p) && OnlyWorkers(s.graph, t.graph) && t.graph.procs == s.graph.procs
  {
    s.(graph := Remove(s.graph, p))
  }

  function LifecycleExited(s: State, p: nat, now: int): (t: State)
    requires Linked(s.graph, p)
    ensures Confined(s.graph, t.graph, p)
    ensures t.graph.procs == s.graph.procs
    ensures OnlyWorkers(s.graph, t.graph)
  {
    var c := s.graph.procs[p].cycle;
    var s1 := Phase(CancelPhase(s, OfWorker(p), PreStop), OfWorker(p), PostStop, now);
    var s2 := LastHooks(s1, c, now);
    if PhaseOk(s1.board, OfWorker(p), PostStop) && (AllExited(s.graph, c) ==> PhaseOk(s2.board, OfCycle(c), PostStop))
    then Leave(s2, p)
    else s2
  }

  /** The stop hooks of a retiring process, and of its generation if that retires. */
  function StopHooks(s: State, p: nat, now: int): (t: State)
    requires Linked(s.graph, p)
    ensures Confined(s.graph, t.graph, p)
    ensures t.graph == s.graph
  {
    var t := Phase(s, OfWorker(p), PreStop, now);
    if s.graph.cycles[s.graph.procs[p].cycle].retiring then Phase(t, OfCycle(s.graph.procs[p].cycle), PreStop, now)
        else t
  }

  predicate StopHooksOk(s: State, p: nat)
    requires Linked(s.graph, p)
  {
    && PhaseOk(s.board, OfWorker(p), PreStop)
    && (s.graph.cycles[s.graph.procs[p].cycle].retiring ==> PhaseOk(s.board, OfCycle(s.graph.procs[p].cycle), PreStop))
  }

  function LifecycleStopping(s: State, p: nat, now: int): (t: State)
    requires Linked(s.graph, p) && s.graph.procs[p].stopping.Some?
    ensures Confined(s.graph, t.graph, p)
    ensures t.graph == s.graph.(procs := t.graph.procs)
    ensures SameMarks(s.graph.procs[p], t.graph.procs[p])
    ensures Overdue(s.graph.procs[p], now) ==> t.graph.procs[p].stopSent
  {
    var child := s.graph.procs[p];
    var t := StopHooks(s, p, now);
    if !child.stopSent && (StopHooksOk(t, p) || Overdue(child, now)) then SendStop(t, p) else t
  }

  /** Both scopes of a process reach `event`, its own first. */
  function Both(s: State, p: nat, event: Event, now: int): (t: State)
    requires p in s.graph.procs
    ensures Confined(s.graph, t.graph, p)
    ensures t.graph == s.graph
  {
    Phase(Phase(s, OfWorker(p), event, now), OfCycle(s.graph.procs[p].cycle), event, now)
  }

  predicate BothOk(s: State, p: nat, event: Event)
    requires p in s.graph.procs
  {
    PhaseOk(s.board, OfWorker(p), event) && PhaseOk(s.board, OfCycle(s.graph.procs[p].cycle), event)
  }

  function CheckHealth(s: State, p: nat, now: int): (t: State)
    requires p in s.graph.procs
    ensures Confined(s.graph, t.graph, p)
    ensures t.graph == s.graph.(procs := t.graph.procs)
    ensures SameMarks(s.graph.procs[p], t.graph.procs[p])
  {
    var t := Both(s, p, Health, now);
    Publish(t, p, BothOk(t, p, Health) && DependenciesReady(t.graph, s.graph.procs[p].config, true))
  }

  function CheckReadiness(s: State, p: nat, now: int): (t: State)
    requires p in s.graph.procs
    ensures Confined(s.graph, t.graph, p)
    ensures t.graph == s.graph.(procs := t.graph.procs)
    ensures SameMarks(s.graph.procs[p], t.graph.procs[p])
  {
    var t := Both(s, p, Readiness, now);
    if BothOk(t, p, Readiness) then CheckHealth(t, p, now) else Publish(t, p, false)
  }

  function LifecycleActive(s: State, p: nat, now: int): (t: State)
    requires p in s.graph.procs
    ensures Confined(s.graph, t.graph, p)
    ensures t.graph == s.graph.(procs := t.graph.procs)
    ensures SameMarks(s.graph.procs[p], t.graph.procs[p])
  {
    var t := Both(s, p, PostStart, now);
    if s.graph.procs[p].baseReady && BothOk(t, p, PostStart) then CheckReadiness(t, p, now) else Publish(t, p, false)
  }

  function Lifecycle(s: State, p: nat, now: int): (t: State)
    requires Linked(s.graph, p)
    ensures Confined(s.graph, t.graph, p)
    ensures SameMarks(s.graph.procs[p], t.graph.procs[p])
    ensures !s.graph.procs[p].exited ==> t.graph == s.graph.(procs := t.graph.procs)
    ensures !s.graph.procs[p].exited && Overdue(s.graph.procs[p], now) ==> t.graph.procs[p].stopSent
    ensures OnlyWorkers(s.graph, t.graph)
  {
    var child := s.graph.procs[p];
    if child.exited then LifecycleExited(s, p, now)
    else if child.stopping.Some? then LifecycleStopping(s, p, now)
    else if child.pending then s
    else LifecycleActive(s, p, now)
  }

  /** The part of stop before the lifecycle: an unretired process retires. */
  function Halt(s: State, p: nat, now: int, failed: bool): (t: State)
    requires Linked(s.graph, p)
    ensures Confined(s.graph, t.graph, p)
    ensures t.graph.procs[p].stopping == Some(now) && t.graph.procs[p].exited == s.graph.procs[p].exited
    ensures t.graph.workers == s.graph.workers
    ensures (failed ==> t.graph.procs[p].failed) && t.graph.procs[p].requests == s.graph.procs[p].requests
    ensures !failed && !s.graph.procs[p].failed ==> t.graph.svcs == s.graph.svcs
  {
    var t := MarkStopping(s, p, now, failed);
    if t.graph.procs[p].failed then Charge(t, p, now) else t
  }

  /** manager.stop, with the `failed` mark that its callers may set just before. */
  function Stop(s: State, p: nat, now: int, failed: bool): (t: State)
    requires Linked(s.graph, p)
    ensures Confined(s.graph, t.graph, p)
    ensures t.graph.procs[p].stopping == if s.graph.procs[p].stopping.Some? then s.graph.procs[p].stopping
        else Some(now)
    ensures !s.graph.procs[p].exited ==> t.graph.workers == s.graph.workers
    ensures (failed ==> t.graph.procs[p].failed) && t.graph.procs[p].requests == s.graph.procs[p].requests
    ensures !failed && !s.graph.procs[p].failed && !s.graph.procs[p].exited ==> t.graph.svcs == s.graph.svcs
    ensures s.graph.procs[p].stopping.Some? || (!failed && !s.graph.procs[p].failed) ==> OnlyWorkers(s.graph, t.graph)
  {
    var child := s.graph.procs[p];
    if child.stopping.Some? then WithProc(s, p, child.(failed := child.failed || failed))
    else Lifecycle(Halt(s, p, now, failed), p, now)
  }

  function Killed(child: Process): Process {
    child.(killed := true, kills := child.kills + 1)
  }

  function Kill(s: State, p: nat): (t: State)
    requires p in s.graph.procs
    ensures Confined(s.graph, t.graph, p)
  {
    WithProc(s, p, Killed(s.graph.procs[p]))
  }

  // ----------------------------------------------------------------- starts

  function Running(child: Process, now: int): (running: Process)
    ensures running.cycle == child.cycle && running.service == child.service && running.config == child.config
  {
    child.(pending := false, executed := Some(now), starts := child.starts + 1,
           baseReady := child.baseReady || child.config.readyMode == OnStart,
           idleSince := if child.config.readyMode == OnStart then Some(now) else child.idleSince)
  }

  /** A successful startProcess. */
  function Started(s: State, p: nat, now: int): (t: State)
    requires Linked(s.graph, p)
    ensures Confined(s.graph, t.graph, p)
  {
    var running := Running(s.graph.procs[p], now);
    s.(graph := PutService(PutProc(s.graph, p, running), running.service,
        s.graph.svcs[running.service].(demand := false)))
  }

  /** spawn after a failed startProcess: the reservation disappears, and with it
      a generation that was made for it. */
  function Abort(s: State, p: nat): (t: State)
    requires Linked(s.graph, p)
    ensures Confined(s.graph, t.graph, p)
  {
    var c := s.graph.procs[p].cycle;
    var t := CancelChecks(s, OfWorker(p)).(graph := Vacate(s.graph, p));
    if t.graph.cycles[c].members == {} then CancelChecks(t, OfCycle(c)) else t
  }

  /** The pre-start hooks, the app's first. */
  function PreStarted(s: State, p: nat, now: int): (t: State)
    requires p in s.graph.procs
    ensures t.graph == s.graph
  {
    Phase(Phase(s, OfCycle(s.graph.procs[p].cycle), PreStart, now), OfWorker(p), PreStart, now)
  }

  /** Once the hooks passed, the process is created and enters its lifecycle. */
  function Begin(s: State, p: nat, now: int): (t: State)
    requires Linked(s.graph, p)
    ensures Confined(s.graph, t.graph, p)
  {
    Lifecycle(Started(s, p, now), p, now)
  }

  /** The rest of spawn: the hooks, then the process or nothing. */
  function Admitted(s: State, p: nat, now: int, ok: bool): (t: State)
    requires Linked(s.graph, p)
    ensures Confined(s.graph, t.graph, p)
  {
    var t := PreStarted(s, p, now);
    if !BothOk(t, p, PreStart) then t else if ok then Begin(t, p, now) else Abort(t, p)
  }

  /** spawn into generation `c`; `ok` says whether the operating system creates
      the process if it is asked to. */
  function Spawn(s: State, v: nat, p: nat, c: nat, now: int, ok: bool): State
    requires v in s.graph.svcs
  {
    Admitted(s.(graph := Reserve(s.graph, v, p, c, now)), p, now, ok)
  }

  /** The error of spawn: the hooks passed at once, but no process was created. */
  predicate SpawnFails(s: State, v: nat, p: nat, c: nat, now: int, ok: bool)
    requires v in s.graph.svcs
  {
    !ok && BothOk(PreStarted(s.(graph := Reserve(s.graph, v, p, c, now)), p, now), p, PreStart)
  }

  /** tick on a reservation whose hooks may have finished. */
  function StartPending(s: State, p: nat, now: int, ok: bool): (t: State)
    requires Linked(s.graph, p)
    ensures Confined(s.graph, t.graph, p)
  {
    var t := PreStarted(s, p, now);
    if !BothOk(t, p, PreStart) then t else if ok then Begin(t, p, now) else Stop(t, p, now, true)
  }

  // --------------------------------------------------------------- messages

  /** The part of an exit before the lifecycle. */
  function Lost(s: State, p: nat, now: int): State
    requires Linked(s.graph, p)
  {
    if s.graph.procs[p].stopping.None? then Charge(MarkExited(s, p), p, now) else MarkExited(s, p)
  }

  function ProcessExit(s: State, p: nat, now: int): State
    requires Linked(s.graph, p)
  {
    Lifecycle(Lost(s, p, now), p, now)
  }

  function Probed(child: Process, ready: bool, now: int): Process {
    var next := child.(probing := false, nextProbe := Some(now + 100_000_000));
    if ready then next.(baseReady := true, idleSince := Some(now)) else next
  }

  function ProbeResult(s: State, p: nat, ready: bool, now: int): State
    requires p in s.graph.procs
  {
    WithProc(s, p, Probed(s.graph.procs[p], ready, now))
  }

  function Greeted(child: Process, ready: bool, now: int): Process {
    var next := child.(telemetry := ready);
    if ready then next.(idleSince := Some(now), baseReady := child.baseReady || child.config.readyMode == OnEvent)
        else next
  }

  /** The first line of the stream says whether the worker reports its requests. */
  function Handshake(s: State, p: nat, ready: bool, now: int): State
    requires Linked(s.graph, p)
  {
    var t := WithProc(s, p, Greeted(s.graph.procs[p], ready, now));
    if !ready && s.graph.procs[p].config.readyMode == OnEvent then Stop(t, p, now, true) else t
  }

  /** The stream broke or ended; a retiring process is left alone. */
  function StreamError(s: State, p: nat, now: int): State
    requires Linked(s.graph, p)
  {
    if s.graph.procs[p].stopping.Some? then s else Stop(s, p, now, true)
  }

  function Busier(child: Process, id: string, now: int): Process {
    child.(requests := child.requests[id := now], idleSince := None)
  }

  function RequestStart(s: State, p: nat, id: string, now: int): State
    requires Linked(s.graph, p)
  {
    var child := s.graph.procs[p];
    if !child.telemetry || id == "" || id in child.requests then Stop(s, p, now, true)
        else WithProc(s, p, Busier(child, id, now))
  }

  function Freer(child: Process, id: string, now: int): Process {
    var left := child.requests - {id};
    child.(requests := left, busyUntil := Some(now), idleSince := if left == map[] then Some(now) else child.idleSince)
  }

  function RequestEnd(s: State, p: nat, id: string, now: int): State
    requires Linked(s.graph, p)
  {
    var child := s.graph.procs[p];
    if id !in child.requests then Stop(s, p, now, true) else WithProc(s, p, Freer(child, id, now))
  }

  // ---------------------------------------------------------- configuration

  function OpenSocket(s: State): State {
    s.(nextListener := s.nextListener + 1, sockets := s.sockets + {s.nextListener + 1})
  }

  function CloseSocket(s: State, id: nat): State {
    s.(sockets := s.sockets - {id})
  }

  /** closeListener, when the service has one. */
  function Disconnect(s: State, listener: Option<nat>): State {
    if listener.None? then s
    else s.(listeners := s.listeners - {listener.value}, sockets := s.sockets - {listener.value})
  }

  /** apply forgets a name; its service object remains for the workers that drain. */
  function Drop(s: State, name: string): State
    requires name in s.graph.services && s.graph.services[name] in s.graph.svcs
  {
    Disconnect(s,
        s.graph.svcs[s.graph.services[name]].listener).(graph := s.graph.(services := s.graph.services - {name}))
  }

  /** The draining workers that a changed service hands to its successor. */
  function Inherited(g: Graph, name: string): set<nat> {
    if name in g.services && g.services[name] in g.svcs then g.svcs[g.services[name]].workers else {}
  }

  function NewService(name: string, app: App, listener: Option<nat>, workers: set<nat>, now: int): Service {
    Service(name, app, listener, workers, false, false, app.plan.Next(now), None, None, 0, None, now)
  }

  /** The inherited processes belong to the new service object. */
  function Adopted(procs: map<nat, Process>, inherited: set<nat>, v: nat): map<nat, Process> {
    map p | p in procs :: if p in inherited then procs[p].(service := v) else procs[p]
  }

  function Replace(g: Graph, name: string, v: nat, service: Service): Graph {
    g.(services := g.services[name := v],
       svcs := (if name in g.services then g.svcs - {g.services[name]} else g.svcs)[v := service],
       procs := Adopted(g.procs, service.workers, v))
  }

  /** apply puts a new service object `v` in the place of the name's old one. */
  function Install(s: State, name: string, app: App, v: nat, listener: Option<nat>): State {
    var service := NewService(name, app, listener, Inherited(s.graph, name), s.clock);
    s.(graph := Replace(s.graph, name, v, service),
       listeners := if listener.Some? then s.listeners[listener.value := v] else s.listeners)
  }

  /** shutdown closes a service's listener. */
  function Unlisten(s: State, v: nat): State
    requires v in s.graph.svcs
  {
    Disconnect(s, s.graph.svcs[v].listener).(graph := PutService(s.graph, v, s.graph.svcs[v].(listener := None)))
  }
}
