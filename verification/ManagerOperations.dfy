/** Every operation leads from a good state to a later good state of the same run. */
module ManagerOperations {
  import opened Config
  import opened ActionBoard
  import opened ManagerState
  import opened ManagerSteps
  import opened ManagerInvariant
  import opened ManagerSafety
  import opened ManagerHistory

  /** Both scopes of a process passed a phase. */
  ghost predicate BothPassed(s: State, p: nat, event: Event)
    requires p in s.graph.procs
  {
    HooksPassed(s.board, OfWorker(p), event) && HooksPassed(s.board, OfCycle(s.graph.procs[p].cycle), event)
  }

  lemma BothStays(s: State, t: State, p: nat, event: Event)
    requires p in s.graph.procs && BothPassed(s, p, event) && Evolves(s, t) && event != Health
    ensures p in t.graph.procs && BothPassed(t, p, event)
  {
    PassedStays(s.board, t.board, OfWorker(p), event);
    PassedStays(s.board, t.board, OfCycle(s.graph.procs[p].cycle), event);
  }

  lemma CountsTowardCycle(g: Graph, p: nat)
    requires Listed(g) && ActiveWorker(g, p)
    ensures Linked(g, p) && CycleActive(g, g.procs[p].cycle)
    ensures forall event: Event :: event.Check() ==>
        Allowed(g, OfWorker(p), event) && Allowed(g, OfCycle(g.procs[p].cycle), event)
  {
  }

  /** An update of a listed process that claims nothing new needs no new hooks. */
  lemma BackedUpdate(g: Graph, b: Board, p: nat, next: Process)
    requires Gated(g, b) && p in g.procs && p in g.workers && next.cycle == g.procs[p].cycle
    requires next.pending == g.procs[p].pending && (next.ready ==> g.procs[p].ready)
    ensures Backed(PutProc(g, p, next), b, p)
  {
    assert Backed(g, b, p);
  }

  lemma UpdateLeads(s: State, p: nat, next: Process)
    requires Inv(s) && p in s.graph.procs && p in s.graph.workers && Onward(s.graph.procs[p], next)
    requires next.Active() == s.graph.procs[p].Active() && Consistent(next)
    requires next.pending == s.graph.procs[p].pending && (next.ready ==> s.graph.procs[p].ready)
    requires Punctual(s, s.graph.procs[p], next) && next.stopping == s.graph.procs[p].stopping
    ensures Leads(s, WithProc(s, p, next))
  {
    BackedUpdate(s.graph, s.board, p, next);
    WithProcLeads(s, p, next);
  }

  /** A further phase, on the same graph. */
  lemma InvListed(s: State)
    requires Inv(s)
    ensures Listed(s.graph)
  {
  }

  lemma ThenPhase(s: State, t: State, scope: Scope, event: Event, now: int)
    requires Leads(s, t) && t.graph == s.graph && Allowed(s.graph, scope, event)
    ensures Leads(s, Phase(t, scope, event, now))
  {
    PhaseLeads(t, scope, event, now);
    LeadsTransitive(s, t, Phase(t, scope, event, now));
  }

  lemma PhaseBegins(s: State, scope: Scope, event: Event, now: int)
    ensures (scope, event) in Phase(s, scope, event, now).board.begun
    ensures s.board.begun <= Phase(s, scope, event, now).board.begun
  {
  }

  // ------------------------------------------------- updates of one process

  lemma SignalledConsistent(child: Process)
    requires Consistent(child) && child.stopping.Some? && !child.exited && !child.stopSent
    ensures Consistent(Signalled(child)) && Onward(child, Signalled(child)) && !Signalled(child).Active()
  {
  }

  lemma PublishedConsistent(child: Process, ready: bool)
    requires Consistent(child) && (ready ==> child.Active() && !child.pending && child.baseReady)
    ensures Consistent(Published(child, ready)) && Onward(child, Published(child, ready))
  {
  }

  lemma PublishedBacked(g: Graph, b: Board, p: nat, ready: bool)
    requires p in g.procs && p in g.workers && Backed(g, b, p)
    requires ready ==>
      && HooksPassed(b, OfWorker(p), PostStart) && HooksPassed(b, OfCycle(g.procs[p].cycle), PostStart)
      && HooksPassed(b, OfWorker(p), Readiness) && HooksPassed(b, OfCycle(g.procs[p].cycle), Readiness)
    ensures Backed(PutProc(g, p, Published(g.procs[p], ready)), b, p)
  {
  }

  // -------------------------------------------------------------- lifecycle

  lemma BothBegin(s: State, p: nat, event: Event, now: int)
    requires p in s.graph.procs
    ensures BothOk(Both(s, p, event, now), p, event) ==> BothPassed(Both(s, p, event, now), p, event)
    ensures BothOk(PreStarted(s, p, now), p, PreStart) ==> BothPassed(PreStarted(s, p, now), p, PreStart)
  {
    var c := s.graph.procs[p].cycle;
    PhaseBegins(s, OfWorker(p), event, now);
    PhaseBegins(Phase(s, OfWorker(p), event, now), OfCycle(c), event, now);
    PhaseBegins(s, OfCycle(c), PreStart, now);
    PhaseBegins(Phase(s, OfCycle(c), PreStart, now), OfWorker(p), PreStart, now);
  }

  lemma BothLeads(s: State, p: nat, event: Event, now: int)
    requires Inv(s) && ActiveWorker(s.graph, p) && event.Check()
    ensures Leads(s, Both(s, p, event, now))
  {
    hide Inv, Leads, Allowed, Reach;
    InvListed(s);
    CountsTowardCycle(s.graph, p);
    PhaseLeads(s, OfWorker(p), event, now);
    ThenPhase(s, Phase(s, OfWorker(p), event, now), OfCycle(s.graph.procs[p].cycle), event, now);
  }

  lemma PreStartedLeads(s: State, p: nat, now: int)
    requires Inv(s) && ActiveWorker(s.graph, p)
    ensures Leads(s, PreStarted(s, p, now))
  {
    hide Inv, Leads, Allowed, Reach;
    InvListed(s);
    CountsTowardCycle(s.graph, p);
    var c := s.graph.procs[p].cycle;
    PhaseLeads(s, OfCycle(c), PreStart, now);
    ThenPhase(s, Phase(s, OfCycle(c), PreStart, now), OfWorker(p), PreStart, now);
  }

  lemma PublishLeads(s: State, p: nat, ready: bool)
    requires Inv(s) && ActiveWorker(s.graph, p) && !s.graph.procs[p].pending
    requires ready ==> s.graph.procs[p].baseReady && BothPassed(s, p, PostStart) && BothPassed(s, p, Readiness)
    ensures Leads(s, Publish(s, p, ready))
  {
    PublishedConsistent(s.graph.procs[p], ready);
    PublishedBacked(s.graph, s.board, p, ready);
    WithProcLeads(s, p, Published(s.graph.procs[p], ready));
  }

  lemma CheckHealthLeads(s: State, p: nat, now: int)
    requires Inv(s) && ActiveWorker(s.graph, p) && !s.graph.procs[p].pending && s.graph.procs[p].baseReady
    requires BothPassed(s, p, PostStart) && BothPassed(s, p, Readiness)
    ensures Leads(s, CheckHealth(s, p, now))
  {
    hide Inv, Leads, Evolves, BothPassed, BothOk, Both, Confined, SameMarks, ManagerState.DependenciesReady;
    var t := Both(s, p, Health, now);
    BothLeads(s, p, Health, now);
    LeadsInv(s, t);
    LeadsEvolves(s, t);
    BothBegin(s, p, Health, now);
    BothStays(s, t, p, PostStart);
    BothStays(s, t, p, Readiness);
    PublishLeads(t, p, BothOk(t, p, Health) && DependenciesReady(t.graph, s.graph.procs[p].config, true));
    LeadsTransitive(s, t, CheckHealth(s, p, now));
  }

  lemma CheckReadinessLeads(s: State, p: nat, now: int)
    requires Inv(s) && ActiveWorker(s.graph, p) && !s.graph.procs[p].pending && s.graph.procs[p].baseReady
    requires BothPassed(s, p, PostStart)
    ensures Leads(s, CheckReadiness(s, p, now))
  {
    hide Inv, Leads, Evolves, BothPassed, BothOk, Both, Confined, SameMarks, ManagerState.DependenciesReady;
    var t := Both(s, p, Readiness, now);
    BothLeads(s, p, Readiness, now);
    LeadsInv(s, t);
    LeadsEvolves(s, t);
    BothBegin(s, p, Readiness, now);
    BothStays(s, t, p, PostStart);
    if BothOk(t, p, Readiness) { CheckHealthLeads(t, p, now); } else { PublishLeads(t, p, false); }
    LeadsTransitive(s, t, CheckReadiness(s, p, now));
  }

  lemma LifecycleActiveLeads(s: State, p: nat, now: int)
    requires Inv(s) && ActiveWorker(s.graph, p) && !s.graph.procs[p].pending
    ensures Leads(s, LifecycleActive(s, p, now))
  {
    hide Inv, Leads, Evolves, BothPassed, BothOk, Both, Confined, SameMarks, ManagerState.DependenciesReady;
    var t := Both(s, p, PostStart, now);
    BothLeads(s, p, PostStart, now);
    LeadsInv(s, t);
    BothBegin(s, p, PostStart, now);
    if s.graph.procs[p].baseReady && BothOk(t, p, PostStart) { CheckReadinessLeads(t, p, now); } else {
      PublishLeads(t, p, false);
    }
    LeadsTransitive(s, t, LifecycleActive(s, p, now));
  }

  lemma LastHooksLeads(s: State, c: nat, now: int)
    requires Inv(s) && c in s.graph.cycles
    ensures var t := LastHooks(s, c, now);
      Leads(s, t) && t.graph == s.graph
      && (AllExited(s.graph, c) && PhaseOk(t.board, OfCycle(c), PostStop) ==>
           HooksPassed(t.board, OfCycle(c), PostStop))
  {
    if AllExited(s.graph, c) {
      var s1 := CancelPhase(s, OfCycle(c), PreStop);
      CancelLeads(s, OfCycle(c), {PreStop});
      assert !CycleActive(s.graph, c);
      PhaseLeads(s1, OfCycle(c), PostStop, now);
      LeadsTransitive(s, s1, LastHooks(s, c, now));
    } else {
      LeadsReflexive(s);
    }
  }

  lemma WorkerLastHooksLeads(s: State, p: nat, now: int)
    requires Inv(s) && p in s.graph.workers && p in s.graph.procs && s.graph.procs[p].exited
    ensures Leads(s, Phase(CancelPhase(s, OfWorker(p), PreStop), OfWorker(p), PostStop, now))
  {
    var t := CancelPhase(s, OfWorker(p), PreStop);
    hide Inv, Leads, Cancel, Reach;
    CancelLeads(s, OfWorker(p), {PreStop});
    ThenPhase(s, t, OfWorker(p), PostStop, now);
  }

  /** Everybody else has left: then everybody has exited. */
  lemma AloneAllExited(g: Graph, p: nat)
    requires Linked(g, p) && g.procs[p].exited && g.cycles[g.procs[p].cycle].members - {p} == {}
    ensures AllExited(g, g.procs[p].cycle)
  {
    var members := g.cycles[g.procs[p].cycle].members;
    assert forall m :: m in members && m != p ==> m in members - {p};
  }

  lemma LifecycleExitedLeads(s: State, p: nat, now: int)
    requires Inv(s) && p in s.graph.workers && Linked(s.graph, p) && s.graph.procs[p].exited
    ensures Leads(s, LifecycleExited(s, p, now))
  {
    var c := s.graph.procs[p].cycle;
    var s1 := Phase(CancelPhase(s, OfWorker(p), PreStop), OfWorker(p), PostStop, now);
    WorkerLastHooksLeads(s, p, now);
    var s2 := LastHooks(s1, c, now);
    LastHooksLeads(s1, c, now);
    LeadsTransitive(s, s1, s2);
    if PhaseOk(s1.board, OfWorker(p), PostStop) && (AllExited(s.graph, c) ==> PhaseOk(s2.board, OfCycle(c), PostStop)) {
      assert MayLeave(s2.graph, s2.board, p) by {
        PhaseBegins(CancelPhase(s, OfWorker(p), PreStop), OfWorker(p), PostStop, now);
        PassedStays(s1.board, s2.board, OfWorker(p), PostStop);
        if s2.graph.cycles[c].members - {p} == {} { AloneAllExited(s.graph, p); }
      }
      LeaveLeads(s2, p);
      LeadsTransitive(s, s2, s2.(graph := Remove(s2.graph, p)));
    }
  }

  lemma SendStopLeads(s: State, p: nat)
    requires Inv(s) && p in s.graph.workers && p in s.graph.procs && s.graph.procs[p].stopping.Some?
    requires !s.graph.procs[p].exited && !s.graph.procs[p].stopSent
    ensures Leads(s, SendStop(s, p))
  {
    SignalledConsistent(s.graph.procs[p]);
    UpdateLeads(s, p, Signalled(s.graph.procs[p]));
  }

  lemma StopHooksLeads(s: State, p: nat, now: int)
    requires Inv(s) && p in s.graph.workers && Linked(s.graph, p) && s.graph.procs[p].stopping.Some?
    ensures Leads(s, StopHooks(s, p, now))
  {
    var c := s.graph.procs[p].cycle;
    PhaseLeads(s, OfWorker(p), PreStop, now);
    if s.graph.cycles[c].retiring { ThenPhase(s, Phase(s, OfWorker(p), PreStop, now), OfCycle(c), PreStop, now); }
  }

  lemma LifecycleStoppingLeads(s: State, p: nat, now: int)
    requires Inv(s) && p in s.graph.workers && Linked(s.graph, p) && s.graph.procs[p].stopping.Some?
    requires !s.graph.procs[p].exited
    ensures Leads(s, LifecycleStopping(s, p, now))
  {
    var t := StopHooks(s, p, now);
    StopHooksLeads(s, p, now);
    if LifecycleStopping(s, p, now) != t {
      SendStopLeads(t, p);
      LeadsTransitive(s, t, SendStop(t, p));
    }
  }

  lemma LifecycleLeads(s: State, p: nat, now: int)
    requires Inv(s) && p in s.graph.workers && Linked(s.graph, p)
    ensures Leads(s, Lifecycle(s, p, now))
  {
    var child := s.graph.procs[p];
    if child.exited { LifecycleExitedLeads(s, p, now); }
    else if child.stopping.Some? { LifecycleStoppingLeads(s, p, now); }
    else if child.pending { LeadsReflexive(s); }
    else { LifecycleActiveLeads(s, p, now); }
  }

  // ----------------------------------------------------------------- stops

  lemma StoppedConsistent(child: Process, now: int, failed: bool)
    requires Consistent(child) && child.stopping.None?
    ensures Consistent(Stopped(child, now, failed)) && Onward(child, Stopped(child, now, failed))
    ensures !Stopped(child, now, failed).Active() && !Stopped(child, now, failed).ready
  {
  }

  lemma ChargedConsistent(child: Process)
    requires Consistent(child) && child.backoffs == 0 && !child.Active()
    ensures Consistent(Charged(child)) && Onward(child, Charged(child)) && !Charged(child).Active()
  {
  }

  lemma ChargeLeads(s: State, p: nat, now: int)
    requires Inv(s) && p in s.graph.workers && Linked(s.graph, p) && !s.graph.procs[p].Active()
    requires s.graph.procs[p].backoffs == 0
    ensures Leads(s, Charge(s, p, now))
  {
    var child := s.graph.procs[p];
    if child.config.Scheduled() {
      LeadsReflexive(s);
    } else {
      var t := WithProc(s, p, Charged(child));
      ChargedConsistent(child);
      UpdateLeads(s, p, Charged(child));
      ServiceLeads(t, child.service, Backoff(t.graph.svcs[child.service].(demand := true), now));
      LeadsTransitive(s, t, Charge(s, p, now));
    }
  }

  /** A process may be marked failed only while it counts. */
  ghost predicate Stoppable(s: State, p: nat, failed: bool) {
    && p in s.graph.workers && Linked(s.graph, p)
    && (s.graph.procs[p].stopping.None? && s.graph.procs[p].exited ==> !failed)
  }

  lemma WithdrawnProcess(s: State, p: nat, child: Process)
    requires Linked(s.graph, p) && SameObject(s.graph.procs[p], child)
    ensures var t := Withdraw(s, p,
        child); t.graph.procs == s.graph.procs[p := child] && t.graph.workers == s.graph.workers && Linked(t.graph, p)
  {
  }

  lemma MarkStoppingLeads(s: State, p: nat, now: int, failed: bool)
    requires Inv(s) && now == s.clock && Stoppable(s, p, failed) && s.graph.procs[p].stopping.None?
    ensures Leads(s, MarkStopping(s, p, now, failed))
  {
    StoppedConsistent(s.graph.procs[p], now, failed);
    WithdrawLeads(s, p, Stopped(s.graph.procs[p], now, failed));
  }

  /** Only a process that counted can be marked failed, and it was never charged. */
  lemma FirstCharge(child: Process, now: int, failed: bool)
    requires Consistent(child) && child.stopping.None? && (child.exited ==> !failed)
    requires Stopped(child, now, failed).failed
    ensures child.backoffs == 0
  {
  }

  lemma HaltLeads(s: State, p: nat, now: int, failed: bool)
    requires Inv(s) && now == s.clock && Stoppable(s, p, failed) && s.graph.procs[p].stopping.None?
    ensures Leads(s, Halt(s, p, now, failed))
  {
    var child, t := s.graph.procs[p], MarkStopping(s, p, now, failed);
    MarkStoppingLeads(s, p, now, failed);
    WithdrawnProcess(s, p, Stopped(child, now, failed));
    if t.graph.procs[p].failed {
      FirstCharge(child, now, failed);
      ChargeLeads(t, p, now);
      LeadsTransitive(s, t, Charge(t, p, now));
    }
  }

  lemma HaltedProcess(s: State, p: nat, now: int, failed: bool)
    requires Linked(s.graph, p)
    ensures var t := Halt(s, p, now, failed); t.graph.workers == s.graph.workers && Linked(t.graph, p)
  {
    WithdrawnProcess(s, p, Stopped(s.graph.procs[p], now, failed));
  }

  lemma StopLeads(s: State, p: nat, now: int, failed: bool)
    requires Inv(s) && now == s.clock && Stoppable(s, p, failed)
    ensures Leads(s, Stop(s, p, now, failed))
  {
    hide Leads, Halt, Lifecycle, Confined, OnlyWorkers;
    var child := s.graph.procs[p];
    if child.stopping.Some? {
      assert Consistent(child);
      hide Inv;
      UpdateLeads(s, p, child.(failed := child.failed || failed));
    } else {
      HaltLeads(s, p, now, failed);
      HaltedProcess(s, p, now, failed);
      assert Inv(Halt(s, p, now, failed)) by { LeadsInv(s, Halt(s, p, now, failed)); }
      hide Inv;
      LifecycleLeads(Halt(s, p, now, failed), p, now);
      LeadsTransitive(s, Halt(s, p, now, failed), Stop(s, p, now, failed));
    }
  }

  lemma KilledConsistent(child: Process)
    requires Consistent(child) && child.stopSent && !child.pending && !child.killed
    ensures Consistent(Killed(child)) && Onward(child, Killed(child))
  {
  }

  lemma KillLeads(s: State, p: nat)
    requires Inv(s) && p in s.graph.workers && p in s.graph.procs
    requires s.graph.procs[p].stopSent && !s.graph.procs[p].pending && !s.graph.procs[p].killed
    ensures Leads(s, Kill(s, p))
  {
    KilledConsistent(s.graph.procs[p]);
    UpdateLeads(s, p, Killed(s.graph.procs[p]));
  }

  // ----------------------------------------------------------------- starts

  lemma RunningConsistent(child: Process, now: int)
    requires Consistent(child) && child.pending && child.Active()
    ensures Consistent(Running(child, now)) && Onward(child, Running(child, now)) && Running(child, now).Active()
    ensures !Running(child, now).ready
  {
  }

  lemma StartedLeads(s: State, p: nat, now: int)
    requires Inv(s) && ActiveWorker(s.graph, p) && Linked(s.graph, p) && s.graph.procs[p].pending
    requires BothPassed(s, p, PreStart)
    ensures var t := Started(s, p, now); Leads(s, t) && p in t.graph.workers && Linked(t.graph, p)
  {
    var child := s.graph.procs[p];
    assert Consistent(child);
    RunningConsistent(child, now);
    var t := WithProc(s, p, Running(child, now));
    assert Backed(t.graph, s.board, p) by { assert Backed(s.graph, s.board, p); }
    WithProcLeads(s, p, Running(child, now));
    ServiceLeads(t, child.service, t.graph.svcs[child.service].(demand := false));
    LeadsTransitive(s, t, Started(s, p, now));
  }

  lemma BeginLeads(s: State, p: nat, now: int)
    requires Inv(s) && ActiveWorker(s.graph, p) && Linked(s.graph, p) && s.graph.procs[p].pending
    requires BothPassed(s, p, PreStart)
    ensures Leads(s, Begin(s, p, now))
  {
    StartedLeads(s, p, now);
    LifecycleLeads(Started(s, p, now), p, now);
    LeadsTransitive(s, Started(s, p, now), Begin(s, p, now));
  }

  lemma StartPendingLeads(s: State, p: nat, now: int, ok: bool)
    requires Inv(s) && now == s.clock && ActiveWorker(s.graph, p) && Linked(s.graph, p) && s.graph.procs[p].pending
    ensures Leads(s, StartPending(s, p, now, ok))
  {
    var t := PreStarted(s, p, now);
    PreStartedLeads(s, p, now);
    if BothOk(t, p, PreStart) {
      if ok {
        BothBegin(s, p, PreStart, now);
        BeginLeads(t, p, now);
      } else {
        StopLeads(t, p, now, true);
      }
      LeadsTransitive(s, t, StartPending(s, p, now, ok));
    }
  }

  // --------------------------------------------------------------- messages

  lemma GoneConsistent(child: Process)
    requires Consistent(child) && !child.pending
    ensures Consistent(Gone(child)) && Onward(child, Gone(child)) && !Gone(child).Active() && !Gone(child).ready
  {
  }

  /** The process was started; its probes may answer late. */
  ghost predicate HasRun(s: State, p: nat) {
    p in s.graph.workers && Linked(s.graph, p) && !s.graph.procs[p].pending
  }

  /** The process was started and its exit has not been reported yet. */
  ghost predicate Speaks(s: State, p: nat) {
    p in s.graph.workers && Linked(s.graph, p) && !s.graph.procs[p].pending && !s.graph.procs[p].exited
  }

  lemma MarkExitedLeads(s: State, p: nat)
    requires Inv(s) && Speaks(s, p)
    ensures Leads(s, MarkExited(s, p))
  {
    GoneConsistent(s.graph.procs[p]);
    WithdrawLeads(s, p, Gone(s.graph.procs[p]));
  }

  lemma Uncharged(child: Process)
    requires Consistent(child) && child.stopping.None? && !child.exited
    ensures child.backoffs == 0
  {
  }

  lemma LostLeads(s: State, p: nat, now: int)
    requires Inv(s) && Speaks(s, p)
    ensures Leads(s, Lost(s, p, now))
  {
    var child, t := s.graph.procs[p], MarkExited(s, p);
    MarkExitedLeads(s, p);
    WithdrawnProcess(s, p, Gone(child));
    if child.stopping.None? {
      Uncharged(child);
      ChargeLeads(t, p, now);
      LeadsTransitive(s, t, Charge(t, p, now));
    }
  }

  lemma LostProcess(s: State, p: nat, now: int)
    requires Linked(s.graph, p)
    ensures var t := Lost(s, p, now); t.graph.workers == s.graph.workers && Linked(t.graph, p)
  {
    WithdrawnProcess(s, p, Gone(s.graph.procs[p]));
  }

  lemma ProcessExitLeads(s: State, p: nat, now: int)
    requires Inv(s) && Speaks(s, p)
    ensures Leads(s, ProcessExit(s, p, now))
  {
    LostLeads(s, p, now);
    LostProcess(s, p, now);
    LifecycleLeads(Lost(s, p, now), p, now);
    LeadsTransitive(s, Lost(s, p, now), ProcessExit(s, p, now));
  }

  /** What a message changes on a process that stays as it is otherwise. */
  ghost predicate Quiet(child: Process, next: Process) {
    && SameObject(child, next) && next.pending == child.pending && next.exited == child.exited
    && next.stopping == child.stopping && next.ready == child.ready && next.stopSent == child.stopSent
    && next.killed == child.killed && next.failed == child.failed && (child.baseReady ==> next.baseReady)
    && next.executed == child.executed && next.starts == child.starts && next.stops == child.stops
    && next.kills == child.kills && next.backoffs == child.backoffs
    && Rested(next)
  }

  lemma QuietConsistent(child: Process, next: Process)
    requires Consistent(child) && Quiet(child, next)
    ensures Consistent(next) && Onward(child, next) && next.Active() == child.Active()
  {
  }

  lemma QuietLeads(s: State, p: nat, next: Process)
    requires Inv(s) && p in s.graph.workers && p in s.graph.procs && Quiet(s.graph.procs[p], next)
    requires Punctual(s, s.graph.procs[p], next)
    ensures Leads(s, WithProc(s, p, next))
  {
    QuietConsistent(s.graph.procs[p], next);
    UpdateLeads(s, p, next);
  }

  lemma ProbedQuiet(child: Process, ready: bool, now: int)
    requires Rested(child) && !child.pending && (child.busyUntil.Some? ==> child.busyUntil.value <= now)
    ensures Quiet(child, Probed(child, ready, now))
  {
  }

  lemma GreetedQuiet(child: Process, ready: bool, now: int)
    requires Rested(child) && !child.pending && (child.busyUntil.Some? ==> child.busyUntil.value <= now)
    ensures Quiet(child, Greeted(child, ready, now))
  {
  }

  lemma BusierQuiet(child: Process, id: string, now: int)
    requires !child.pending
    ensures Quiet(child, Busier(child, id, now))
  {
    assert id in Busier(child, id, now).requests;
  }

  lemma FreerQuiet(child: Process, id: string, now: int)
    requires !child.pending
    ensures Quiet(child, Freer(child, id, now))
  {
    FreerRested(child, id, now);
  }

  lemma FreerRested(child: Process, id: string, now: int)
    requires !child.pending
    ensures Rested(Freer(child, id, now))
  {
  }

  lemma NotAhead(s: State, p: nat)
    requires Timely(s.graph, s.clock) && AllConsistent(s.graph) && p in s.graph.procs
    ensures Rested(s.graph.procs[p])
    ensures (s.graph.procs[p].busyUntil.Some? ==> s.graph.procs[p].busyUntil.value <= s.clock)
  {
    assert Consistent(s.graph.procs[p]);
  }

  lemma ProbeResultLeads(s: State, p: nat, ready: bool, now: int)
    requires Inv(s) && now == s.clock && HasRun(s, p)
    ensures Leads(s, ProbeResult(s, p, ready, now))
  {
    NotAhead(s, p);
    ProbedQuiet(s.graph.procs[p], ready, now);
    QuietLeads(s, p, Probed(s.graph.procs[p], ready, now));
  }

  lemma ProbingLeads(s: State, p: nat)
    requires Inv(s) && HasRun(s, p)
    ensures Leads(s, WithProc(s, p, s.graph.procs[p].(probing := true)))
  {
    NotAhead(s, p);
    QuietLeads(s, p, s.graph.procs[p].(probing := true));
  }

  lemma HandshakeLeads(s: State, p: nat, ready: bool, now: int)
    requires Inv(s) && now == s.clock && Speaks(s, p)
    ensures Leads(s, Handshake(s, p, ready, now))
  {
    var t := WithProc(s, p, Greeted(s.graph.procs[p], ready, now));
    NotAhead(s, p);
    GreetedQuiet(s.graph.procs[p], ready, now);
    QuietLeads(s, p, Greeted(s.graph.procs[p], ready, now));
    if !ready && s.graph.procs[p].config.readyMode == OnEvent {
      StopLeads(t, p, now, true);
      LeadsTransitive(s, t, Handshake(s, p, ready, now));
    }
  }

  lemma StreamErrorLeads(s: State, p: nat, now: int)
    requires Inv(s) && now == s.clock && Speaks(s, p)
    ensures Leads(s, StreamError(s, p, now))
  {
    if s.graph.procs[p].stopping.Some? { LeadsReflexive(s); } else { StopLeads(s, p, now, true); }
  }

  lemma RequestStartLeads(s: State, p: nat, id: string, now: int)
    requires Inv(s) && now == s.clock && Speaks(s, p)
    ensures Leads(s, RequestStart(s, p, id, now))
  {
    var child := s.graph.procs[p];
    if !child.telemetry || id == "" || id in child.requests { StopLeads(s, p, now, true); }
    else { BusierQuiet(child, id, now); QuietLeads(s, p, Busier(child, id, now)); }
  }

  lemma RequestEndLeads(s: State, p: nat, id: string, now: int)
    requires Inv(s) && now == s.clock && Speaks(s, p)
    ensures Leads(s, RequestEnd(s, p, id, now))
  {
    var child := s.graph.procs[p];
    if id !in child.requests { StopLeads(s, p, now, true); }
    else { FreerQuiet(child, id, now); QuietLeads(s, p, Freer(child, id, now)); }
  }

  // ------------------------------------------------------------------ spawn

  /** The reservation is either alone or beside a member that counts, and nobody
      has left a generation that only it is in. */
  ghost predicate Abandonable(g: Graph, p: nat)
    requires Linked(g, p)
  {
    var c := g.procs[p].cycle;
    && (g.cycles[c].members - {p} != {} ==> exists m <- g.cycles[c].members :: m != p && ActiveWorker(g, m))
    && (g.cycles[c].members - {p} == {} ==> forall q <- g.procs :: g.procs[q].cycle == c ==> !g.procs[q].exited)
  }

  lemma VacateIndexed(g: Graph, p: nat)
    requires Indexed(g) && Linked(g, p)
    ensures Indexed(Vacate(g, p))
  {
    RemoveIndexed(g, p);
    var r, h := Remove(g, p), Vacate(g, p);
    assert forall c <- h.cycles :: h.cycles[c].members == r.cycles[c].members;
  }

  lemma VacateConfigured(g: Graph, p: nat)
    requires Current(g) && Configured(g) && Linked(g, p)
    ensures Current(Vacate(g, p)) && Configured(Vacate(g, p))
  {
    hide Current, Configured;
    RemoveConfigured(g, p);
    VacatedConfigured(g, p);
  }

  /** A generation that retires besides has the same members and configuration. */
  lemma VacatedConfigured(g: Graph, p: nat)
    requires Linked(g, p)
    ensures Current(Remove(g, p)) ==> Current(Vacate(g, p))
    ensures Configured(Remove(g, p)) ==> Configured(Vacate(g, p))
  {
    var c, h := g.procs[p].cycle, Remove(g, p);
    hide Remove;
    RetiredCycle(h, c);
  }

  lemma RetiredCycle(g: Graph, c: nat)
    requires c in g.cycles
    ensures var h := g.(cycles := g.cycles[c := g.cycles[c].(retiring := true)]);
      (Current(g) ==> Current(h)) && (Configured(g) ==> Configured(h))
  {
  }

  lemma VacateTitled(g: Graph, p: nat)
    requires Titled(g) && Linked(g, p)
    ensures Titled(Vacate(g, p))
  {
    RemoveTitled(g, p);
  }

  lemma VacateActivity(g: Graph, p: nat)
    requires CycleLists(g) && Linked(g, p) && Abandonable(g, p)
    ensures var h, c := Vacate(g, p), g.procs[p].cycle;
      && (forall d :: d != c ==> CycleActive(h, d) == CycleActive(g, d))
      && (CycleActive(h, c) <==> g.cycles[c].members - {p} != {})
  {
    var h, c := Vacate(g, p), g.procs[p].cycle;
    forall d | d != c && CycleActive(g, d) ensures CycleActive(h, d) {
      var m :| m in g.cycles[d].members && m in g.procs && g.procs[m].Active();
      assert m in h.cycles[d].members;
    }
    if g.cycles[c].members - {p} != {} {
      var m :| m in g.cycles[c].members && m != p && ActiveWorker(g, m);
      assert m in h.cycles[c].members;
    }
  }

  lemma VacateRetires(g: Graph, p: nat)
    requires CycleLists(g) && Retirement(g) && Linked(g, p) && ActiveWorker(g, p) && Listed(g) && Abandonable(g, p)
    ensures Retirement(Vacate(g, p))
  {
    VacateActivity(g, p);
    CountsTowardCycle(g, p);
  }

  lemma VacateFollows(g: Graph, p: nat)
    requires Linked(g, p)
    ensures Follows(g, Vacate(g, p)) && GraphLater(g, Vacate(g, p))
  {
    VacateLater(g, p);
    hide GraphLater;
    var h := Vacate(g, p);
    forall scope | Known(g, scope) ensures Known(h, scope) && SameBindings(g, h, scope) && KeepsReached(g, h, scope) {
      if scope.OfCycle? && AllExited(g, scope.cycle) { assert AllExited(h, scope.cycle); }
    }
  }

  lemma VacateLater(g: Graph, p: nat)
    requires Linked(g, p)
    ensures GraphLater(g, Vacate(g, p))
  {
    RemoveLater(g, p);
    RetireLater(g, Remove(g, p), g.procs[p].cycle);
    hide Remove, GraphLater;
  }

  lemma RetireLater(g: Graph, h: Graph, c: nat)
    requires GraphLater(g, h) && c in h.cycles
    ensures GraphLater(g, h.(cycles := h.cycles[c := h.cycles[c].(retiring := true)]))
  {
    hide Onward, SameService;
  }

  lemma VacateGated(g: Graph, b: Board, p: nat)
    requires Gated(g, b) && Linked(g, p) && !g.procs[p].exited && Abandonable(g, p)
    ensures Gated(Vacate(g, p), b)
  {
    var h := Vacate(g, p);
    forall q <- h.procs ensures Backed(h, b, q) { assert Backed(g, b, q); }
  }

  lemma AbortSilenced(s: State, p: nat)
    requires Silenced(s.graph, s.board) && CycleLists(s.graph) && Linked(s.graph, p) && Abandonable(s.graph, p)
    ensures Silenced(Abort(s, p).graph, Abort(s, p).board)
  {
    var t, c := Abort(s, p), s.graph.procs[p].cycle;
    VacateActivity(s.graph, p);
    forall r <- t.board.runs | r.event.Check() && !ScopeActive(t.graph, r.scope) ensures t.board.runs[r].cancelled {
      if ScopeActive(s.graph, r.scope) { assert r.scope == OfWorker(p) || r.scope == OfCycle(c); }
    }
  }

  lemma AbortKeeps(s: State, p: nat)
    requires Inv(s) && Linked(s.graph, p) && ActiveWorker(s.graph, p) && Abandonable(s.graph, p)
    ensures Inv(Abort(s, p))
  {
    var g, h := s.graph, Vacate(s.graph, p);
    VacateIndexed(g, p);
    VacateConfigured(g, p);
    VacateTitled(g, p);
    VacateRetires(g, p);
    VacateFollows(g, p);
    FollowsKeeps(g, h, s.board);
    VacateGated(g, s.board, p);
    CancelSteady(h, s.board, OfWorker(p));
    CancelSteady(h, Cancel(s.board, OfWorker(p), CHECKS), OfCycle(g.procs[p].cycle));
    AbortSilenced(s, p);
  }

  lemma AbortEvolves(s: State, p: nat)
    requires Linked(s.graph, p)
    ensures Evolves(s, Abort(s, p))
  {
    VacateFollows(s.graph, p);
    var s1 := s.(graph := Vacate(s.graph, p));
    GraphEvolves(s, s1.graph);
    CancelLater(s1.board, OfWorker(p), CHECKS);
    var s2 := CancelChecks(s1, OfWorker(p));
    BoardEvolves(s1, s2.board);
    var s3 := CancelChecks(s2, OfCycle(s.graph.procs[p].cycle));
    CancelLater(s2.board, OfCycle(s.graph.procs[p].cycle), CHECKS);
    BoardEvolves(s2, s3.board);
    EvolvesTransitive(s, s1, s2);
    EvolvesTransitive(s, s2, s3);
  }

  lemma ReservedAbandonable(g: Graph, v: nat, p: nat, c: nat, now: int)
    requires Indexed(g) && Retirement(g) && Admissible(g, v, p, c)
    ensures var h := Reserve(g, v, p, c, now); Linked(h, p) && ActiveWorker(h, p) && Abandonable(h, p)
  {
    var h := Reserve(g, v, p, c, now);
    if Joins(g, v) {
      var m :| m in g.cycles[c].members && m in g.procs && g.procs[m].Active();
      assert m in h.cycles[c].members && m != p && ActiveWorker(h, m);
      assert m in h.cycles[c].members - {p};
    } else {
      assert h.cycles[c].members == {p};
    }
  }

  lemma SpawnLeads(s: State, v: nat, p: nat, c: nat, now: int, ok: bool)
    requires Inv(s) && Admissible(s.graph, v, p, c)
    ensures var r := s.(graph := Reserve(s.graph, v, p, c, now));
      Inv(r) && Evolves(s, r) && Leads(r, Spawn(s, v, p, c, now, ok))
  {
    var r := s.(graph := Reserve(s.graph, v, p, c, now));
    AdmitEvolves(s, v, p, c, now);
    ReservedAbandonable(s.graph, v, p, c, now);
    PreStartedLeads(r, p, now);
    var t := PreStarted(r, p, now);
    if BothOk(t, p, PreStart) {
      if ok {
        BothBegin(r, p, PreStart, now);
        BeginLeads(t, p, now);
      } else {
        AbortKeeps(t, p);
        AbortEvolves(t, p);
      }
      LeadsTransitive(r, t, Spawn(s, v, p, c, now, ok));
    }
  }
}
