/** The event loop's manager object. Its methods change its tables step by step,
    in any order of their maps, and are proved to make the moves of ManagerRuns. */
module Supervisor {
  import opened Options
  import opened Config
  import opened ActionBoard
  import opened ManagerState
  import opened ManagerInvariant
  import opened ManagerReload
  import opened ManagerTable
  import opened ManagerTick
  import opened ManagerApply
  import opened Activation
  import opened Sets
  import opened ManagerHistory
  import opened ManagerPressure
  import ManagerStarts
  import ManagerShutdown
  import ManagerStopping
  import Steps = ManagerSteps
  import Pressure

  /** The manager's tables, the loop's own `stopping`, and a window for each service.
      Three fields are history: the calls that the windows got, the states in which time
      passed, and the services whose windows did not show their occupancy then. */
  class Manager {
    var clock: int
    var services: map<string, nat>
    var svcs: map<nat, Service>
    var workers: set<nat>
    var procs: map<nat, Process>
    var cycles: map<nat, Cycle>
    var runs: map<RunRef, Run>
    var begun: set<(Scope, Event)>
    ghost var inflight: multiset<RunRef>
    var actionTasks: int
    var listeners: map<nat, nat>
    var nextListener: nat
    var sockets: set<nat>
    var fatal: bool
    var stopping: bool
    var gauges: map<nat, Pressure.Window>
    ghost var record: Pressure.Record
    ghost var passed: seq<Span>
    ghost var missed: set<nat>

    function Objects(): Graph
      reads this
    {
      Graph(services, svcs, workers, procs, cycles)
    }

    ghost function View(): State
      reads this
    {
      State(clock, Objects(), Board(runs, begun, inflight, actionTasks), listeners, nextListener, sockets)
    }

    // ------------------------------------------------------------ pressure

    /** No time passes, and the record only grows. */
    twostate predicate Onward()
      reads this
    {
      && clock == old(clock) && stopping == old(stopping) && passed == old(passed) && missed == old(missed)
      && old(record) <= record
    }

    ghost function Metering(): Meters
      reads this
    {
      Meters(gauges, Objects())
    }

    /** Each service's window is what the calls it got have made of it, and covers the
        time since it began. */
    ghost predicate Gauged()
      reads `gauges, `record, `clock, `passed, `missed
    {
      AllTrack(gauges, record, clock) && AllIntegrate(gauges, passed, missed, clock)
    }

    /** Every followed service's window shows its present occupancy, and always did when
        time passed. */
    ghost predicate Observed()
      reads this
    {
      Metered(Metering(), missed)
    }

    /** The loop of observePressure, with the workers in any order. */
    method Measure(v: nat) returns (measure: Pressure.Measure)
      requires v in svcs
      ensures measure == ReadingOf(Objects(), v)
    {
      hide Enumerates, Pressure.MeasureOf, Reading;
      var loads: seq<Pressure.Load> := [];
      ghost var order: seq<nat> := [];
      EnumerateNone(svcs[v].workers);
      var todo := svcs[v].workers;
      while todo != {}
        invariant todo <= svcs[v].workers && Enumerates(order, svcs[v].workers - todo) && loads == Loads(procs, order)
        decreases |todo|
      {
        var p :| p in todo;
        EnumerateMore(order, svcs[v].workers, todo, p);
        LoadsMore(procs, order, p);
        todo := todo - {p};
        order := order + [p];
        loads := loads + [LoadOf(procs, p)];
      }
      assert svcs[v].workers - {} == svcs[v].workers;
      SurveyReads(procs, order, svcs[v].workers, svcs[v].config.concurrency);
      measure := Pressure.Survey(loads, svcs[v].config.concurrency);
    }

    /** observePressure. */
    method ObservePressure(v: nat)
      requires Gauged() && v in svcs
      modifies `gauges, `record
      ensures gauges == old(gauges)[v := Pressure.Observe(WindowOf(old(gauges), v), clock, ReadingOf(Objects(), v))]
      ensures record == old(record) + [(v, Pressure.Observing(clock, ReadingOf(Objects(), v)))]
      ensures Shows(Metering(), v) && Beside(old(Metering()), Metering(), v)
      ensures Onward() && Gauged()
    {
      hide Pressure.Observe, ReadingOf, Shows, Beside, AllTrack, AllIntegrate;
      var reading := Measure(v);
      ObservedTracks(gauges, record, v, clock, reading);
      ObserveAllIntegrate(gauges, passed, missed, clock, v, reading);
      ObservedShows(Metering(), v, clock);
      gauges := gauges[v := Pressure.Observe(WindowOf(gauges, v), clock, reading)];
      record := record + [(v, Pressure.Observing(clock, reading))];
    }

    /** evaluate, right after an observation. */
    method EvaluatePressure(v: nat) returns (grow: bool)
      requires Gauged() && v in svcs && v in gauges && Shows(Metering(), v)
      requires JustObserved(record, v, clock, Objects())
      requires gauges[v].Window? ==> gauges[v].last == clock
      modifies `gauges, `record
      ensures gauges == old(gauges)[v := Pressure.Evaluate(old(gauges)[v], clock, svcs[v].config.scaleWindow)]
      ensures record == old(record) + [(v, Pressure.Evaluating(clock, svcs[v].config.scaleWindow))]
      ensures grow == Pressure.Presses(old(gauges)[v], clock, svcs[v].config.scaleWindow, svcs[v].config.scaleAt)
      ensures grow ==> PressedOnce(old(record), record, v, clock, svcs[v].config.scaleWindow)
      ensures v !in missed ==> Decides(old(gauges)[v], passed, v, clock, svcs[v].config, grow)
      ensures grow && v !in missed ==>
          AtThreshold(passed, v, clock, svcs[v].config.scaleWindow, svcs[v].config.scaleAt)
      ensures Shows(Metering(), v) && Beside(old(Metering()), Metering(), v)
      ensures Onward() && Gauged()
    {
      hide PressedOnce, AllTrack, AllIntegrate, Pressure.Evaluate, Pressure.Presses, AtThreshold, ReadingOf, Shows,
           Beside, Decides;
      var app := svcs[v].config;
      EvaluatedTracks(gauges, record, v, clock, ReadingOf(Objects(), v), app.scaleWindow, app.scaleAt);
      EvaluateAllIntegrate(gauges, passed, missed, clock, v, app.scaleWindow);
      EvaluatedShows(Metering(), v, clock, app.scaleWindow);
      PressesAverage(gauges, passed, missed, clock, v, app.scaleWindow, app.scaleAt);
      PressesDecides(gauges, passed, missed, clock, v, app);
      var left: Pressure.Window;
      left, grow := Pressure.Decide(gauges[v], clock, app.scaleWindow, app.scaleAt);
      gauges := gauges[v := left];
      record := record + [(v, Pressure.Evaluating(clock, app.scaleWindow))];
    }

    // ------------------------------------------------------------- actions

    /** The first visit of a phase makes a run for each binding of the scope's kind. */
    method Open(scope: Scope, event: Event)
      modifies `runs, `begun
      ensures View() ==
          old(View()).(board := Opened(old(View().board), scope, event, BindingsOf(old(Objects()), scope, event)))
    {
      if (scope, event) !in begun {
        runs := runs + FreshRuns(scope, event, BindingsOf(Objects(), scope, event));
        begun := begun + {(scope, event)};
      }
    }

    method Invoke(r: RunRef)
      requires r in runs
      modifies `runs, `actionTasks
      ensures runs == old(runs)[r := Launched(old(runs)[r])] && actionTasks == old(actionTasks) + 1
    {
      runs := runs[r := Launched(runs[r])];
      actionTasks := actionTasks + 1;
    }

    /** The launching half of the round over the runs of a phase; `due` are the
        ones it invokes. */
    method InvokeAmong(phase: set<RunRef>, event: Event, ghost due: set<RunRef>)
      requires due <= phase <= runs.Keys
      requires forall r <- phase :: r in due <==> Launchable(runs[r], event, clock)
      modifies `runs, `inflight, `actionTasks
      ensures runs.Keys == old(runs).Keys
      ensures forall r <- runs :: runs[r] == if r in due then Launched(old(runs)[r]) else old(runs)[r]
      ensures inflight == old(inflight) + multiset(due) && actionTasks == old(actionTasks) + |due|
    {
      ghost var was, tasks := runs, actionTasks;
      ghost var launched: set<RunRef> := {};
      var todo := phase;
      while todo != {}
        invariant todo <= phase
        invariant runs.Keys == was.Keys
        invariant forall r <- was :: runs[r] == if r in launched then Launched(was[r]) else was[r]
        invariant forall r :: r in launched <==> r in due && r !in todo
        invariant actionTasks == tasks + |launched| && inflight == old(inflight)
        decreases |todo|
      {
        var r :| r in todo;
        todo := todo - {r};
        if Launchable(runs[r], event, clock) {
          Invoke(r);
          launched := launched + {r};
        }
      }
      assert launched == due;
      assert forall r <- runs :: runs[r] == if r in due then Launched(was[r]) else was[r];
      inflight := inflight + multiset(due);
    }

    /** The other half: what `phase` answers. */
    method AllPassed(phase: set<RunRef>, event: Event) returns (ok: bool)
      requires phase <= runs.Keys
      ensures ok <==> forall r <- phase :: Passed(runs[r], event)
    {
      var todo := phase;
      ok := true;
      while todo != {}
        invariant todo <= phase
        invariant ok <==> forall r <- phase - todo :: Passed(runs[r], event)
        decreases |todo|
      {
        var r :| r in todo;
        ok := ok && Passed(runs[r], event);
        todo := todo - {r};
      }
    }

    method InvokeDue(scope: Scope, event: Event)
      modifies `runs, `inflight, `actionTasks
      ensures View() == old(View()).(board := Launch(old(View().board), Due(old(View().board), scope, event, clock)))
    {
      ghost var due := Due(View().board, scope, event, clock);
      var phase := set r | r in runs && r.scope == scope && r.event == event;
      InvokeAmong(phase, event, due);
      assert runs == Launch(old(View().board), due).runs;
    }

    method Phase(scope: Scope, event: Event) returns (ok: bool)
      modifies `runs, `begun, `inflight, `actionTasks
      ensures View() == Steps.Phase(old(View()), scope, event, clock)
      ensures ok == PhaseOk(View().board, scope, event)
    {
      Open(scope, event);
      InvokeDue(scope, event);
      var phase := set r | r in runs && r.scope == scope && r.event == event;
      ok := AllPassed(phase, event);
    }

    /** cancelChecks and cancelPhase: mark every hook of `events` as cancelled. */
    method Cancel(scope: Scope, events: set<Event>)
      modifies `runs
      ensures View() == old(View()).(board := ActionBoard.Cancel(old(View().board), scope, events))
    {
      var targets := set r | r in runs && r.scope == scope && r.event in events;
      var todo := targets;
      ghost var before := runs;
      while todo != {}
        invariant todo <= targets
        invariant runs.Keys == before.Keys
        invariant forall r <- before :: runs[r] == if r in targets && r !in todo then Cancelled(before[r])
            else before[r]
        decreases |todo|
      {
        var r :| r in todo;
        todo := todo - {r};
        runs := runs[r := Cancelled(runs[r])];
      }
      ghost var after := ActionBoard.Cancel(old(View().board), scope, events).runs;
      assert forall r <- before :: runs[r] == after[r];
      assert runs == after;
    }

    // ----------------------------------------------------------- lifecycle

    /** Whether a member of the generation still counts: the loop of stop and of an exit. */
    method StillActive(c: nat) returns (active: bool)
      ensures active == CycleActive(Objects(), c)
    {
      active := false;
      if c in cycles {
        var todo := cycles[c].members;
        while todo != {}
          invariant todo <= cycles[c].members
          invariant active <==> exists m <- cycles[c].members - todo :: m in procs && procs[m].Active()
          decreases |todo|
        {
          var m :| m in todo;
          active := active || (m in procs && procs[m].Active());
          todo := todo - {m};
        }
      }
    }

    method EverybodyExited(c: nat) returns (all: bool)
      requires c in cycles
      ensures all == AllExited(Objects(), c)
    {
      all := true;
      var todo := cycles[c].members;
      while todo != {}
        invariant todo <= cycles[c].members
        invariant all <==> forall m <- cycles[c].members - todo :: m in procs ==> procs[m].exited
        decreases |todo|
      {
        var m :| m in todo;
        all := all && (m in procs ==> procs[m].exited);
        todo := todo - {m};
      }
    }

    /** A process stops counting: its checks are cancelled, and its generation
        retires with its own if nobody in it counts any more. */
    method Withdraw(p: nat, child: Process)
      requires child.cycle in cycles
      modifies `procs, `cycles, `runs
      ensures View() == Steps.Withdraw(old(View()), p, child)
      ensures child.service in svcs ==> Linked(Objects(), p)
      ensures p in procs && procs[p] == child
    {
      hide Steps.Confined, Steps.OnlyWorkers;
      procs := procs[p := child];
      Cancel(OfWorker(p), CHECKS);
      var active := StillActive(child.cycle);
      if !active {
        cycles := cycles[child.cycle := cycles[child.cycle].(retiring := true)];
        Cancel(OfCycle(child.cycle), CHECKS);
      }
    }

    method Charge(p: nat)
      requires Linked(Objects(), p)
      modifies `procs, `svcs
      ensures View() == Steps.Charge(old(View()), p, clock) && Linked(Objects(), p)
    {
      hide Steps.Confined, Steps.OnlyWorkers;
      var child := procs[p];
      if !child.config.Scheduled() {
        var service := svcs[child.service].(demand := true);
        svcs := svcs[child.service := Steps.Backoff(service, clock)];
        procs := procs[p := Steps.Charged(child)];
      }
    }

    /** Signal, or end a reservation that never started. */
    method SendStop(p: nat)
      requires p in procs
      modifies `procs
      ensures View() == Steps.SendStop(old(View()), p)
    {
      hide Steps.Confined, Steps.OnlyWorkers;
      procs := procs[p := procs[p].(stopSent := true)];
      if procs[p].pending {
        procs := procs[p := procs[p].(exited := true)];
      } else {
        procs := procs[p := procs[p].(stops := procs[p].stops + 1)];
      }
    }

    method Remove(p: nat)
      requires Linked(Objects(), p)
      modifies `workers, `svcs, `cycles
      ensures View() == old(View()).(graph := ManagerState.Remove(old(Objects()), p))
    {
      var child := procs[p];
      workers := workers - {p};
      svcs := svcs[child.service := svcs[child.service].(workers := svcs[child.service].workers - {p})];
      cycles := cycles[child.cycle := cycles[child.cycle].(members := cycles[child.cycle].members - {p})];
    }

    method LifecycleExited(p: nat)
      requires Linked(Objects(), p)
      modifies `procs, `svcs, `workers, `cycles, `runs, `begun, `inflight, `actionTasks
      ensures View() == Steps.LifecycleExited(old(View()), p, clock)
    {
      hide Steps.Confined, Steps.OnlyWorkers;
      var c := procs[p].cycle;
      Cancel(OfWorker(p), {PreStop});
      var workerDone := Phase(OfWorker(p), PostStop);
      var allExited := EverybodyExited(c);
      var appDone := true;
      if allExited {
        Cancel(OfCycle(c), {PreStop});
        appDone := Phase(OfCycle(c), PostStop);
      }
      if workerDone && appDone {
        Remove(p);
      }
    }

    method LifecycleStopping(p: nat)
      requires Linked(Objects(), p) && procs[p].stopping.Some?
      modifies `procs, `svcs, `workers, `cycles, `runs, `begun, `inflight, `actionTasks
      ensures View() == Steps.LifecycleStopping(old(View()), p, clock)
    {
      hide Steps.Confined, Steps.OnlyWorkers;
      var child := procs[p];
      var workerDone := Phase(OfWorker(p), PreStop);
      var appDone := true;
      if cycles[child.cycle].retiring {
        ghost var b := View().board;
        appDone := Phase(OfCycle(child.cycle), PreStop);
        OtherScope(b, OfWorker(p), OfCycle(child.cycle), PreStop,
            BindingsOf(Objects(), OfCycle(child.cycle), PreStop), clock);
      }
      if !child.stopSent && ((workerDone && appDone) || clock - child.stopping.value >= child.config.stopTimeout) {
        SendStop(p);
      }
    }

    /** Does a worker of the named service meet the condition? */
    method Meets(name: string, condition: Condition) returns (found: bool)
      ensures found == ConditionMet(Objects(), name, condition)
    {
      found := false;
      if name in services && services[name] in svcs {
        var dependency := svcs[services[name]];
        var todo := dependency.workers;
        while todo != {}
          invariant todo <= dependency.workers
          invariant found <==> exists w <- dependency.workers - todo ::
              w in procs && !procs[w].pending && procs[w].Active() && (condition == WhenStarted || procs[w].ready)
          decreases |todo|
        {
          var w :| w in todo;
          found := found
              || (w in procs && !procs[w].pending && procs[w].Active() && (condition == WhenStarted || procs[w].ready));
          todo := todo - {w};
        }
      }
    }

    method DependenciesReady(app: App, readiness: bool) returns (ready: bool)
      ensures ready == ManagerState.DependenciesReady(Objects(), app, readiness)
    {
      var todo := app.dependencies.Keys;
      while todo != {}
        invariant todo <= app.dependencies.Keys
        invariant forall name <- app.dependencies | name !in todo ::
          (app.dependencies[name] == WhenParallel && !readiness)
              || ConditionMet(Objects(), name, app.dependencies[name])
        decreases |todo|
      {
        var name :| name in todo;
        todo := todo - {name};
        var condition := app.dependencies[name];
        if condition != WhenParallel || readiness {
          var found := Meets(name, condition);
          if !found {
            return false;
          }
        }
      }
      return true;
    }

    method Both(p: nat, event: Event) returns (ok: bool)
      requires p in procs
      modifies `runs, `begun, `inflight, `actionTasks
      ensures View() == Steps.Both(old(View()), p, event, clock)
      ensures ok == Steps.BothOk(View(), p, event)
    {
      var c := procs[p].cycle;
      var worker := Phase(OfWorker(p), event);
      ghost var b := View().board;
      var app := Phase(OfCycle(c), event);
      OtherScope(b, OfWorker(p), OfCycle(c), event, BindingsOf(Objects(), OfCycle(c), event), clock);
      ok := worker && app;
    }

    method Publish(p: nat, ready: bool)
      requires p in procs
      modifies `procs
      ensures View() == Steps.Publish(old(View()), p, ready)
    {
      hide Steps.Confined, Steps.OnlyWorkers;
      procs := procs[p := procs[p].(ready := ready, wasReady := procs[p].wasReady || ready)];
    }

    method LifecycleActive(p: nat)
      requires p in procs
      modifies `procs, `svcs, `workers, `cycles, `runs, `begun, `inflight, `actionTasks
      ensures View() == Steps.LifecycleActive(old(View()), p, clock)
    {
      hide Steps.Confined, Steps.OnlyWorkers;
      var started := Both(p, PostStart);
      if !procs[p].baseReady || !started {
        Publish(p, false);
        return;
      }
      var checked := Both(p, Readiness);
      if !checked {
        Publish(p, false);
        return;
      }
      // The checks run against the published state, then their outcome applies.
      var healthy := Both(p, Health);
      var dependencies := DependenciesReady(procs[p].config, true);
      Publish(p, healthy && dependencies);
    }

    method Lifecycle(p: nat)
      requires Linked(Objects(), p)
      modifies `procs, `svcs, `workers, `cycles, `runs, `begun, `inflight, `actionTasks
      ensures View() == Steps.Lifecycle(old(View()), p, clock)
    {
      hide Steps.Confined, Steps.OnlyWorkers;
      var child := procs[p];
      if child.exited {
        LifecycleExited(p);
      } else if child.stopping.Some? {
        LifecycleStopping(p);
      } else if !child.pending {
        LifecycleActive(p);
      }
    }

    method Halt(p: nat, failed: bool)
      requires Linked(Objects(), p)
      modifies `procs, `cycles, `runs, `svcs
      ensures View() == Steps.Halt(old(View()), p, clock, failed) && Linked(Objects(), p)
    {
      hide Steps.Confined, Steps.OnlyWorkers;
      Withdraw(p, procs[p].(stopping := Some(clock), ready := false, failed := procs[p].failed || failed));
      if procs[p].failed {
        Charge(p);
      }
    }

    method MarkFailed(p: nat, failed: bool)
      requires p in procs
      modifies `procs
      ensures View() == Steps.WithProc(old(View()), p, old(procs)[p].(failed := old(procs)[p].failed || failed))
    {
      procs := procs[p := procs[p].(failed := procs[p].failed || failed)];
    }

    method StopUnobserved(p: nat, failed: bool)
      requires Linked(Objects(), p)
      modifies `procs, `svcs, `workers, `cycles, `runs, `begun, `inflight, `actionTasks
      ensures View() == Steps.Stop(old(View()), p, clock, failed)
    {
      hide Steps.Halt, Steps.Lifecycle, Steps.Confined, Steps.OnlyWorkers, Steps.WithProc;
      if procs[p].stopping.Some? {
        MarkFailed(p, failed);
        return;
      }
      Halt(p, failed);
      Lifecycle(p);
    }

    /** manager.stop; `failed` is the mark its caller sets just before. The pressure of
        the service is observed on the way out. */
    method Stop(p: nat, failed: bool)
      requires Linked(Objects(), p) && Gauged()
      modifies this
      ensures View() == Steps.Stop(old(View()), p, clock, failed)
      ensures var v := old(procs)[p].service;
        && gauges == old(gauges)[v := Pressure.Observe(WindowOf(old(gauges), v), clock, ReadingOf(Objects(), v))]
        && Shows(Metering(), v) && DullStays(old(Metering()), Metering(), v)
      ensures Onward() && Gauged()
    {
      hide Steps.Stop, Gauged, Shows, Beside, ReadingOf, Pressure.Observe, Dull, Steps.Confined, Steps.OnlyWorkers;
      var v := procs[p].service;
      StopService(View(), p, failed);
      StopUnobserved(p, failed);
      ObservePressure(v);
      ShowsDull(Metering(), v);
    }

    method Kill(p: nat)
      requires p in procs
      modifies `procs
      ensures View() == Steps.Kill(old(View()), p)
    {
      procs := procs[p := procs[p].(killed := true, kills := procs[p].kills + 1)];
    }

    // -------------------------------------------------------------- starts

    method PreStartHooks(p: nat) returns (ok: bool)
      requires p in procs
      modifies `runs, `begun, `inflight, `actionTasks
      ensures View() == Steps.PreStarted(old(View()), p, clock) && Objects() == old(Objects())
      ensures ok == Steps.BothOk(View(), p, PreStart)
    {
      var c := procs[p].cycle;
      var app := Phase(OfCycle(c), PreStart);
      ghost var b := View().board;
      var worker := Phase(OfWorker(p), PreStart);
      OtherScope(b, OfCycle(c), OfWorker(p), PreStart, BindingsOf(Objects(), OfWorker(p), PreStart), clock);
      ok := app && worker;
    }

    /** What a successful startProcess records. */
    method Started(p: nat)
      requires Linked(Objects(), p)
      modifies `procs, `svcs
      ensures View() == Steps.Started(old(View()), p, clock) && Linked(Objects(), p)
    {
      hide Steps.Confined;
      var child := procs[p].(pending := false, executed := Some(clock), starts := procs[p].starts + 1);
      if child.config.readyMode == OnStart {
        child := child.(baseReady := true, idleSince := Some(clock));
      }
      procs := procs[p := child];
      svcs := svcs[child.service := svcs[child.service].(demand := false)];
    }

    method Begin(p: nat)
      requires Linked(Objects(), p)
      modifies `procs, `svcs, `workers, `cycles, `runs, `begun, `inflight, `actionTasks
      ensures View() == Steps.Begin(old(View()), p, clock)
    {
      hide Steps.Confined, Steps.OnlyWorkers;
      Started(p);
      Lifecycle(p);
    }

    method Abort(p: nat)
      requires Linked(Objects(), p)
      modifies `procs, `svcs, `workers, `cycles, `runs, `begun, `inflight, `actionTasks
      ensures View() == Steps.Abort(old(View()), p)
    {
      hide Steps.Confined, Steps.OnlyWorkers;
      var c := procs[p].cycle;
      Cancel(OfWorker(p), CHECKS);
      Remove(p);
      if cycles[c].members == {} {
        cycles := cycles[c := cycles[c].(retiring := true)];
        Cancel(OfCycle(c), CHECKS);
      }
    }

    /** Generation `c`, perhaps a new one, gets another member. */
    method Enlist(p: nat, c: nat, config: App)
      modifies `cycles
      ensures var cycle := if c in old(cycles) then old(cycles)[c] else Cycle(config, {}, false);
        cycles == old(cycles)[c := cycle.(members := cycle.members + {p})]
    {
      if c !in cycles {
        cycles := cycles[c := Cycle(config, {}, false)];
      }
      cycles := cycles[c := cycles[c].(members := cycles[c].members + {p})];
    }

    method Reserve(v: nat, p: nat, c: nat)
      requires v in svcs
      modifies `svcs, `workers, `procs, `cycles
      ensures View() == old(View()).(graph := ManagerState.Reserve(old(Objects()), v, p, c, clock))
      ensures Linked(Objects(), p)
    {
      hide Steps.Confined, Steps.OnlyWorkers;
      var service := svcs[v];
      procs := procs[p := NewProcess(v, service.config, c, clock)];
      Enlist(p, c, service.config);
      workers := workers + {p};
      svcs := svcs[v := service.(cycle := Some(c), workers := service.workers + {p})];
    }

    /** spawn: `address` is the address of a new process object and of a new
        generation, should one be needed; `ok` is the operating system's answer. */
    method Spawn(v: nat, address: nat, ok: bool) returns (started: bool)
      requires v in svcs
      modifies `procs, `svcs, `workers, `cycles, `runs, `begun, `inflight, `actionTasks
      ensures View() == Steps.Spawn(old(View()), v, address, CycleFor(old(Objects()), v, address), clock, ok)
      ensures started <==> !Steps.SpawnFails(old(View()), v, address, CycleFor(old(Objects()), v, address), clock, ok)
    {
      hide Steps.Confined, Steps.OnlyWorkers, Steps.PreStarted, Steps.Begin, Steps.Abort, ManagerState.Reserve;
      var c := address;
      if svcs[v].cycle.Some? && svcs[v].cycle.value in cycles && !cycles[svcs[v].cycle.value].retiring
          && !svcs[v].config.Scheduled() {
        c := svcs[v].cycle.value;
      }
      Reserve(v, address, c);
      var passed := PreStartHooks(address);
      started := true;
      if passed {
        if ok {
          Begin(address);
        } else {
          Abort(address);
          started := false;
        }
      }
    }

    method StartPending(p: nat, ok: bool)
      requires Linked(Objects(), p)
      requires Gauged()
      modifies this
      ensures View() == Steps.StartPending(old(View()), p, clock, ok)
      ensures OnlyWindow(old(gauges), gauges, old(procs)[p].service)
      ensures Onward() && Gauged()
    {
      hide Gauged, Steps.Confined, Steps.OnlyWorkers, Steps.Stop, Steps.Begin, Steps.PreStarted, Shows, Dull,
           ReadingOf, Pressure.Observe;
      var passed := PreStartHooks(p);
      if passed {
        if ok {
          Begin(p);
        } else {
          Stop(p, true);
        }
      }
    }

    // ------------------------------------------------- tick: the workers

    /** Holds between any two turns of the event loop. */
    ghost predicate Valid()
      reads this
    {
      && Good(View()) && sockets == listeners.Keys && Dependencies.Sound(Installed(Objects())) && Gauged()
      && (stopping || Observed())
    }

    /** Every overdue request asks its worker to stop; only the first has an effect. */
    method ExpireRequests(p: nat)
      requires Linked(Objects(), p)
      requires Gauged()
      modifies this
      ensures View() == StopIf(old(View()), p, clock, Stuck(old(procs)[p], clock)) && Linked(Objects(), p)
      ensures procs[p].service == old(procs)[p].service
      ensures DullStays(old(Metering()), Metering(), old(procs)[p].service)
      ensures Onward() && Gauged()
    {
      hide Steps.Stop, Gauged, Shows, Pressure.Observe, Steps.Confined, Steps.OnlyWorkers, DullStays, Dull;
      ghost var s, x := View(), Metering();
      DullStaysReflexive(x, procs[p].service);
      var child := procs[p];
      var todo := child.requests.Keys;
      ghost var expired := false;
      while todo != {}
        invariant todo <= child.requests.Keys
        invariant clock == s.clock && Linked(Objects(), p)
        invariant procs[p].requests == child.requests && (expired ==> procs[p].stopping.Some? && procs[p].failed)
        invariant expired <==> child.config.requestTimeout > 0 && exists id <- child.requests.Keys - todo ::
            clock - child.requests[id] >= child.config.requestTimeout
        invariant View() == StopIf(s, p, clock, expired)
        invariant Onward() && Gauged()
        invariant DullStays(x, Metering(), child.service) && procs[p].service == child.service
        decreases |todo|
      {
        var id :| id in todo;
        todo := todo - {id};
        if child.config.requestTimeout > 0 && clock - child.requests[id] >= child.config.requestTimeout {
          if expired { StopTwice(View(), p, clock); }
          StopStaysLinked(View(), p, true);
          ghost var y := Metering();
          Stop(p, true);
          DullStaysTransitive(x, y, Metering(), child.service);
          expired := true;
        }
      }
    }

    method StopLate(p: nat)
      requires Linked(Objects(), p) && Gauged()
      modifies this
      ensures Linked(Objects(), p) && procs[p].service == old(procs)[p].service
      ensures View() == StopIf(old(View()), p, clock, Late(old(procs)[p], clock))
      ensures DullStays(old(Metering()), Metering(), old(procs)[p].service)
      ensures Onward() && Gauged()
    {
      hide Steps.Stop, Gauged, Late, Shows, Dull, ReadingOf, Pressure.Observe;
      StopStaysLinked(View(), p, true);
      if Late(procs[p], clock) {
        Stop(p, true);
      }
    }

    method ProbeIfDue(p: nat)
      requires Linked(Objects(), p)
      modifies `procs
      ensures View() == Probe(old(View()), p, clock) && Linked(Objects(), p)
      ensures procs[p].service == old(procs)[p].service
      ensures DullStays(old(Metering()), Metering(), old(procs)[p].service)
    {
      hide ReadingOf, Dull, Steps.Confined;
      ghost var g, v := Objects(), procs[p].service;
      if Probeable(procs[p], clock) {
        procs := procs[p := procs[p].(probing := true)];
        LoadStays(gauges, g, Objects(), p, v);
      }
    }

    method SettleIfSteady(p: nat)
      requires Linked(Objects(), p)
      modifies `svcs
      ensures View() == Settle(old(View()), p, clock)
      ensures DullStays(old(Metering()), Metering(), old(procs)[p].service)
    {
      hide ReadingOf, Dull, Steps.Confined;
      ghost var g := Objects();
      var child := procs[p];
      if Steady(child, clock) {
        svcs := svcs[child.service := svcs[child.service].(failures := 0)];
        LoadStays(gauges, g, Objects(), p, child.service);
      }
    }

    method InspectActive(p: nat)
      requires Linked(Objects(), p)
      requires Gauged()
      modifies this
      ensures View() == ManagerTick.InspectActive(old(View()), p, clock)
      ensures DullStays(old(Metering()), Metering(), old(procs)[p].service)
      ensures Onward() && Gauged()
    {
      hide Gauged, StopIf, Probe, Settle, Late, Stuck, Steps.Confined, Shows, Dull, ReadingOf, Pressure.Observe;
      StopLate(p);
      ProbeIfDue(p);
      ExpireRequests(p);
      SettleIfSteady(p);
    }

    method KillIfOverdue(p: nat)
      requires Linked(Objects(), p)
      modifies `procs
      ensures View() == KillOverdue(old(View()), p, clock)
      ensures DullStays(old(Metering()), Metering(), old(procs)[p].service)
    {
      hide ReadingOf, Dull, Steps.Confined;
      ghost var g, v := Objects(), procs[p].service;
      if !procs[p].pending && !procs[p].killed && Steps.Overdue(procs[p], clock) {
        Kill(p);
        LoadStays(gauges, g, Objects(), p, v);
      }
    }

    method Inspect(p: nat)
      requires Linked(Objects(), p)
      requires Gauged() && (procs[p].exited ==> !procs[p].ready)
      modifies this
      ensures View() == ManagerTick.Inspect(old(View()), p, clock)
      ensures DullStays(old(Metering()), Metering(), old(procs)[p].service)
      ensures Onward() && Gauged()
    {
      hide Steps.Stop, Steps.Lifecycle, ManagerTick.InspectActive, Gauged, Shows, Pressure.Observe,
           Steps.OnlyWorkers, DullStays, KillOverdue, Exhausted, Dull, ReadingOf, Steps.Confined;
      ghost var x, v := Metering(), procs[p].service;
      LifecycleDull(gauges, View(), p, clock);
      LifecycleLinked(View(), p, clock);
      Lifecycle(p);
      ghost var y := Metering();
      var child := procs[p];
      if child.exited {
        return;
      }
      if child.stopping.Some? {
        KillIfOverdue(p);
        DullStaysTransitive(x, y, Metering(), v);
      } else if Exhausted(child, clock) {
        Stop(p, true);
        DullStaysTransitive(x, y, Metering(), v);
      } else {
        InspectActive(p);
        DullStaysTransitive(x, y, Metering(), v);
      }
    }

    method TickWorker(p: nat, ghost s: State)
      requires Within(s, View()) && p in workers
      requires Gauged()
      modifies this
      ensures Linked(old(Objects()), p)
      ensures View() == ManagerTick.Inspect(old(View()), p, clock) && p in procs && InTime(procs[p], clock)
      ensures Within(s, View())
      ensures AllDull(old(Metering())) ==> AllDull(Metering())
      ensures Onward() && Gauged()
    {
      hide Within, InTime, ManagerTick.Inspect, Inv, Gauged, AllDull, DullStays;
      InspectWithin(s, View(), p);
      WithinInv(s, View());
      InspectInTime(View(), p);
      ghost var t, x := View(), Metering();
      NotReadyExited(t, p);
      Inspect(p);
      InspectedDull(s, t, p, x.gauges, gauges);
    }

    /** The first loop of tick. Whatever the order, no worker that counts is past a
        limit afterwards, and none that was asked to stop outlives stop_timeout. */
    method TickWorkers() returns (ghost order: seq<nat>)
      requires Good(View())
      requires Gauged()
      modifies this
      ensures workers <= old(workers)
      ensures forall w <- workers :: w in procs && InTime(procs[w], clock)
      ensures Enumerates(order, old(workers)) && View() == InspectAll(old(View()), order)
      ensures Within(old(View()), View())
      ensures AllDull(old(Metering())) ==> AllDull(Metering())
      ensures Onward() && Gauged()
    {
      hide Within, InTime, Good, ManagerTick.Inspect, Enumerates, InspectAll, Gauged, AllDull, Inv, Linked;
      ghost var s := View();
      WithinReflexive(s);
      FoldsStart(s);
      order := [];
      var todo := workers;
      while todo != {}
        invariant Within(s, View()) && clock == s.clock
        invariant todo <= s.graph.workers && workers <= s.graph.workers
        invariant forall w <- workers :: w !in todo ==> w in procs && InTime(procs[w], clock)
        invariant Enumerates(order, s.graph.workers - todo) && View() == InspectAll(s, order)
        invariant AllDull(old(Metering())) ==> AllDull(Metering())
        invariant Onward() && Gauged()
        decreases |todo|
      {
        var p :| p in todo;
        EnumerateMore(order, s.graph.workers, todo, p);
        InspectMore(s, order, p);
        todo := todo - {p};
        order := order + [p];
        if p in workers {
          TickWorker(p, s);
        }
      }
      assert s.graph.workers - {} == s.graph.workers;
    }

    // ------------------------------------------------ tick: the services

    /** Stop every worker of a service: a changed configuration, a file restart or
        a lost dependency. */
    method StopAll(v: nat) returns (ghost order: seq<nat>)
      requires Good(View()) && v in svcs
      requires Gauged()
      modifies this
      ensures v in svcs && workers <= old(workers)
      ensures forall w <- svcs[v].workers :: w in procs && procs[w].stopping.Some?
      ensures Enumerates(order, old(svcs)[v].workers) && View() == StopEach(old(View()), order, false)
      ensures Within(old(View()), View()) && Fading(old(Objects()), Objects()) && Spared(old(Objects()), Objects(), v)
      ensures NoneStarted(old(Objects()), Objects())
      ensures Beside(old(Metering()), Metering(), v)
      ensures Shows(Metering(), v) || (old(svcs)[v].workers == {} && Metering() == old(Metering()))
      ensures Onward() && Gauged()
    {
      hide Within, Good, Steps.Stop, Fading, Spared, Enumerates, StopEach, NoneStarted, Gauged, Steps.Confined,
           Steps.OnlyWorkers, Beside, Shows, DullStays, ReadingOf, Pressure.Observe, Inv, Steps.Lifecycle;
      ghost var s, x := View(), Metering();
      BesideReflexive(x, v);
      WithinReflexive(s);
      FadingStarts(s.graph);
      SparedStarts(s.graph, v);
      FoldsStart(s);
      order := [];
      var todo := svcs[v].workers;
      EnumerateNone(svcs[v].workers);
      while todo != {}
        invariant Within(s, View()) && clock == s.clock && v in svcs && workers <= s.graph.workers
        invariant todo <= svcs[v].workers
        invariant Fading(s.graph, Objects()) && Spared(s.graph, Objects(), v)
        invariant forall w <- svcs[v].workers :: w !in todo ==> w in procs && procs[w].stopping.Some?
        invariant todo <= s.graph.svcs[v].workers && Enumerates(order, s.graph.svcs[v].workers - todo)
        invariant View() == StopEach(s, order, false)
        invariant Beside(x, Metering(), v)
        invariant Shows(Metering(), v) || (todo == s.graph.svcs[v].workers && Metering() == x)
        invariant Onward() && Gauged()
        decreases |todo|
      {
        var p :| p in todo;
        EnumerateMore(order, s.graph.svcs[v].workers, todo, p);
        StopMore(s, order, false, p);
        todo := todo - {p};
        order := order + [p];
        ghost var t, y := View(), Metering();
        StopAllStep(s, t, v, p);
        Stop(p, false);
        StoppedBeside(s, t, v, p, y.gauges, gauges);
        BesideTransitive(x, y, Metering(), v);
        FadingTransitive(s.graph, t.graph, Objects());
        SparedTransitive(s.graph, t.graph, Objects(), v);
      }
      assert s.graph.svcs[v].workers - {} == s.graph.svcs[v].workers;
      ManagerStarts.StopEachStarts(s, order, false);
    }

    /** restart: watched files changed; a fresh start is not delayed by old failures. */
    method Restart(v: nat) returns (ghost order: seq<nat>)
      requires Good(View()) && v in svcs
      requires Gauged()
      modifies this
      ensures v in svcs && forall w <- svcs[v].workers :: w in procs && procs[w].stopping.Some?
      ensures Enumerates(order, old(svcs)[v].workers) && v in StopEach(old(View()), order, false).graph.svcs
      ensures View() == if HasUnretired(old(Objects()), v) then Refreshed(StopEach(old(View()), order, false), v)
          else StopEach(old(View()), order, false)
      ensures Within(old(View()), View()) && Spared(old(Objects()), Objects(), v)
      ensures NoneStarted(old(Objects()), Objects())
      ensures Beside(old(Metering()), Metering(), v) && (Shows(old(Metering()), v) ==> Shows(Metering(), v))
      ensures Onward() && Gauged()
    {
      hide Within, Good, Enumerates, StopEach, Spared, Fading, Gauged, Inv, Beside, Shows, Steps.Confined;
      ghost var s, x := View(), Metering();
      var active := exists w <- svcs[v].workers :: w in procs && procs[w].stopping.None?;
      order := StopAll(v);
      if active {
        ghost var y := Metering();
        Refresh(v, s);
        BesideTransitive(x, y, Metering(), v);
      }
    }

    method Refresh(v: nat, ghost s: State)
      requires Within(s, View()) && v in svcs && Spared(s.graph, Objects(), v)
      modifies `svcs
      ensures v in svcs && svcs[v].workers == old(svcs)[v].workers && View() == Refreshed(old(View()), v)
      ensures Within(s, View()) && Spared(s.graph, Objects(), v)
      ensures Beside(old(Metering()), Metering(), v) && (Shows(old(Metering()), v) ==> Shows(Metering(), v))
    {
      hide Within, Spared, Beside, Shows, ReadingOf;
      var service := svcs[v].(failures := 0, retryAt := None);
      TuneWithin(s, View(), v, service);
      SparedTuned(s.graph, Objects(), v, service);
      TunedBeside(Metering(), v, service);
      svcs := svcs[v := service];
    }

    /** The count of scheduleDue: reservations, draining processes and awaited hooks. */
    method CountExecutions(name: string) returns (count: nat)
      ensures count == |Executions(Objects(), name)|
    {
      count := 0;
      ghost var counted: set<nat> := {};
      var todo := workers;
      while todo != {}
        invariant todo <= workers && count == |counted|
        invariant forall w :: w in counted <==> w in Executions(Objects(), name) && w !in todo
        decreases |todo|
      {
        var w :| w in todo;
        todo := todo - {w};
        if w in procs && procs[w].service in svcs && svcs[procs[w].service].name == name {
          count := count + 1;
          counted := counted + {w};
        }
      }
      assert counted == Executions(Objects(), name);
    }

    method ScheduleDue(v: nat, reading: Schedule.Reading)
      requires v in svcs && svcs[v].config.Valid()
      modifies `svcs
      ensures svcs ==
          old(svcs)[v := Noted(old(svcs)[v], clock, reading, |Executions(old(Objects()), old(svcs)[v].name)|)]
    {
      var service := svcs[v];
      if service.nextRun.None? || clock < service.nextRun.value {
        assert svcs[v := service] == svcs;
        return;
      }
      var due := service.nextRun.value;
      var plan := service.config.plan;
      if plan.Every? {
        var remaining := plan.period - (clock - due) % plan.period;
        service := service.(nextRun := Some(clock + remaining));
      } else {
        service := service.(nextRun := plan.Next(clock));
      }
      var count := CountExecutions(service.name);
      svcs := svcs[v := service];
      if plan.Unscheduled? || (plan.Calendar? && !Schedule.Matches(plan.rule, reading)) {
        return;
      }
      var limit := if service.config.overlap then service.config.maxWorkers else 1;
      if !service.scheduled && count < limit {
        svcs := svcs[v := service.(scheduled := true)];
      }
    }

    /** Note a due occurrence, then see whether the service is wanted for its own sake. */
    method Consider(name: string, reading: Schedule.Reading) returns (demanded: bool)
      requires Good(View()) && name in services
      modifies `svcs
      ensures services[name] in old(svcs)
      ensures svcs == old(svcs)[services[name] := ConsideredService(old(View()), services[name], reading)]
      ensures Roots(Objects()) - {name} == Roots(old(Objects())) - {name}
      ensures demanded <==> name in Roots(Objects())
      ensures Within(old(View()), View())
    {
      hide Within, Good, Inv, Demanded, ConsideredService, Roots;
      ghost var s := View();
      WithinReflexive(s);
      GoodInv(s);
      ServiceOf(s, name);
      var v := services[name];
      ConsideredTunable(s, name, reading);
      ConsideredUnscheduled(s, name, reading);
      RootsOfOthers(Objects(), name, ConsideredService(s, v, reading));
      if svcs[v].config.Scheduled() {
        ScheduleDue(v, reading);
      } else {
        assert svcs == svcs[v := svcs[v]];
      }
      RootOf(Objects(), name);
      demanded := Demanded(svcs[v]);
    }

    /** The activation loop of tick: whose demand is followed, and where it leads. */
    method FollowDemand(reading: Schedule.Reading) returns (wanted: set<string>, required: set<string>)
      requires Good(View())
      modifies `svcs
      ensures Considered(old(View()), View(), reading, wanted, required)
      ensures Within(old(View()), View())
    {
      hide Within, Good, Activated, Roots, Installed, ConsideredService, ConsideredSoFar, Inv, Live, Linked,
           SameServices;
      ghost var s := View();
      WithinReflexive(s);
      var apps := Installed(Objects());
      ghost var roots: set<string> := {};
      wanted, required := {}, {};
      NothingActivated(apps);
      RootsConfigured(Objects());
      ConsiderStarts(s, reading);
      var todo := services.Keys;
      while todo != {}
        invariant Within(s, View()) && todo <= services.Keys && Installed(Objects()) == apps
        invariant roots == Roots(Objects()) - todo
        invariant Activated(apps, roots, wanted, required)
        invariant ConsideredSoFar(s, View(), reading, todo)
        decreases |todo|
      {
        var name :| name in todo;
        ghost var rest := todo - {name};
        assert rest + {name} == todo;
        todo := todo - {name};
        ghost var before := View();
        assert roots == Roots(before.graph) - {name} - todo;
        WithinGood(s, before);
        var demanded := Consider(name, reading);
        ConsiderStep(s, before, View(), reading, rest, name);
        WithinTransitive(s, before, View());
        WithinInstalled(before, View());
        assert roots == Roots(Objects()) - {name} - todo;
        if demanded {
          wanted, required := ActivateRoot(apps, name, roots, wanted, required);
          roots := roots + {name};
        }
      }
      assert roots == Roots(Objects());
      ConsiderEnds(s, View(), reading, wanted, required);
    }

    /** A fresh object's address. */
    method Allocate() returns (address: nat)
      ensures address !in procs && address !in cycles && address !in svcs && address !in gauges
    {
      ghost var free := FreeNumber(procs.Keys + cycles.Keys + svcs.Keys + gauges.Keys);
      assert free !in procs.Keys + cycles.Keys + svcs.Keys + gauges.Keys;
      address :| address !in procs.Keys + cycles.Keys + svcs.Keys + gauges.Keys;
    }

    /** Start the reservations of a service whose hooks have passed. Afterwards each
        that still counts waits for a start hook. The system creates the processes
        in `granted`. */
    method StartReserved(v: nat) returns (ghost order: seq<nat>, granted: set<nat>)
      requires Good(View()) && v in svcs
      requires Gauged()
      modifies this
      ensures Enumerates(order, old(svcs)[v].workers) && View() == StartEach(old(View()), order, granted)
      ensures ReservationsDone(old(View()), View(), v, {})
      ensures Within(old(View()), View())
      ensures Beside(old(Metering()), Metering(), v)
      ensures Onward() && Gauged()
    {
      hide Within, Good, StartOne, StartEach, Enumerates, ReservationsDone, ManagerPending.Unanswered,
           ManagerPending.StartedOrWaits, Gauged, Beside;
      ghost var s, x := View(), Metering();
      BesideReflexive(x, v);
      granted := *;
      order := [];
      WithinReflexive(s);
      ReservationsStart(s, v);
      EnumerateNone(svcs[v].workers);
      StartMore(s, [], granted, 0);
      var todo := svcs[v].workers;
      while todo != {}
        invariant Within(s, View()) && v in svcs && todo <= svcs[v].workers && todo <= s.graph.svcs[v].workers
        invariant ReservationsDone(s, View(), v, todo)
        invariant Enumerates(order, s.graph.svcs[v].workers - todo) && View() == StartEach(s, order, granted)
        invariant Beside(x, Metering(), v)
        invariant Onward() && Gauged()
        decreases |todo|
      {
        var p :| p in todo;
        assert todo - {p} + {p} == todo;
        EnumerateMore(order, s.graph.svcs[v].workers, todo, p);
        StartMore(s, order, granted, p);
        todo := todo - {p};
        order := order + [p];
        ghost var y := Metering();
        StartIfReserved(p, v, p in granted, s, todo);
        BesideTransitive(x, y, Metering(), v);
      }
      assert s.graph.svcs[v].workers - {} == s.graph.svcs[v].workers;
    }

    method StartIfReserved(p: nat, v: nat, ok: bool, ghost s: State, ghost todo: set<nat>)
      requires Within(s, View()) && v in svcs && p in svcs[v].workers && ReservationsDone(s, View(), v, todo + {p})
      requires Gauged()
      modifies this
      ensures v in svcs && old(svcs)[v].workers - {p} <= svcs[v].workers
      ensures View() == StartOne(old(View()), p, ok)
      ensures ReservationsDone(s, View(), v, todo)
      ensures Within(s, View())
      ensures Beside(old(Metering()), Metering(), v)
      ensures Onward() && Gauged()
    {
      hide Within, Good, Steps.StartPending, ReservationsDone, ManagerPending.Unanswered, ManagerPending.Waits,
           SameTable, Gauged, Beside, OnlyWindow;
      ghost var t, x := View(), Metering();
      BesideReflexive(x, v);
      PendingStep(s, t, v, p, ok);
      if procs[p].pending && procs[p].stopping.None? && !procs[p].exited {
        StartPending(p, ok);
        ReservedBeside(s, t, v, p, ok, x.gauges, gauges);
        ReservationStep(s, t, View(), v, p, todo);
      } else {
        ReservationSkip(s, t, v, p, todo);
      }
    }

    /** A noted occurrence becomes an execution of its own generation. */
    method RunScheduled(v: nat) returns (p: nat, ok: bool)
      requires Good(View()) && Live(Objects(), v) && svcs[v].scheduled
      modifies `procs, `svcs, `workers, `cycles, `runs, `begun, `inflight, `actionTasks
      ensures Within(old(View()), View()) && Beside(old(Metering()), Metering(), v)
      ensures p !in old(procs) && p !in old(cycles) && procs.Keys == old(procs).Keys + {p}
      ensures v in svcs && !svcs[v].scheduled
      ensures View() ==
          Steps.Spawn(old(View()).(graph := PutService(old(Objects()), v, old(svcs)[v].(scheduled := false))), v, p,
              p, clock, ok)
    {
      hide Within, Good, Steps.Spawn, Beside, PutService;
      ok := *;
      p := Allocate();
      ghost var s, x := View(), Metering();
      RunScheduledWithin(s, v, p, ok);
      SpawnScheduled(v, p, ok);
      ScheduledBeside(s, View(), x, v, p, ok);
    }

    method SpawnScheduled(v: nat, p: nat, ok: bool)
      requires v in svcs && !Joins(PutService(Objects(), v, svcs[v].(scheduled := false)), v)
      modifies `procs, `svcs, `workers, `cycles, `runs, `begun, `inflight, `actionTasks
      ensures View() ==
          Steps.Spawn(old(View()).(graph := PutService(old(Objects()), v, old(svcs)[v].(scheduled := false))), v, p,
              p, clock, ok)
    {
      hide Steps.Spawn;
      svcs := svcs[v := svcs[v].(scheduled := false)];
      var started := Spawn(v, p, ok);
    }

    /** What the growth decision counts: the pool, and its part that is not ready. */
    method CountPool(v: nat) returns (available: nat, starting: nat)
      requires v in svcs
      ensures available == |Pool(Objects(), v)|
      ensures starting == 0 <==> Unready(Objects(), v) == {}
    {
      hide Pool, Unready;
      available, starting := 0, 0;
      PoolSubset(Objects(), v);
      ghost var counting, unready := Pool(Objects(), v), Unready(Objects(), v);
      var todo := svcs[v].workers;
      assert counting - todo == {} && unready - todo == {};
      while todo != {}
        invariant todo <= svcs[v].workers
        invariant available == |counting - todo| && starting == |unready - todo|
        decreases |todo|
      {
        var w :| w in todo;
        CountOne(counting, todo, w);
        CountOne(unready, todo, w);
        PoolHolds(Objects(), v, w);
        todo := todo - {w};
        if w in procs && procs[w].stopping.None? && !procs[w].exited {
          available := available + 1;
          if !procs[w].ready {
            starting := starting + 1;
          }
        }
      }
      assert todo == {} && counting - {} == counting && unready - {} == unready;
    }

    /** Start one more worker if the service is to grow and may. */
    method Grow(v: nat, required: bool, pressing: bool) returns (available: nat, grown: bool, p: nat, ok: bool)
      requires Good(View()) && Live(Objects(), v) && !svcs[v].config.Scheduled()
      modifies `procs, `svcs, `workers, `cycles, `runs, `begun, `inflight, `actionTasks
      ensures Within(old(View()), View())
      ensures available == |Pool(old(Objects()), v)| && (grown <==> Grows(old(Objects()), v, required, pressing, clock))
      ensures p !in old(procs) && p !in old(cycles)
      ensures View() == if grown then Grown(old(View()), v, p, ok) else old(View())
      ensures v in svcs && available <= |Pool(Objects(), v)|
    {
      hide Within, Good, Grown, Pool, Unready;
      ghost var s := View();
      WithinReflexive(s);
      var starting: nat;
      available, starting := CountPool(v);
      var app := svcs[v].config;
      grown := available < app.minWorkers || (available == 0 && svcs[v].demand);
      if available == 0 && (app.startup || required) {
        grown := true;
      }
      grown := grown || pressing;
      grown := grown && (starting == 0 || available < app.minWorkers) && available < app.maxWorkers
               && (svcs[v].retryAt.None? || svcs[v].retryAt.value <= clock);
      ok := *;
      p := Allocate();
      if grown {
        SpawnOrDelay(v, p, ok);
      }
    }

    /** A start that fails is not tried again at once. */
    method SpawnOrDelay(v: nat, p: nat, ok: bool)
      requires Good(View()) && Live(Objects(), v) && !svcs[v].config.Scheduled()
      requires |Pool(Objects(), v)| < svcs[v].config.maxWorkers
      requires p !in procs && p !in cycles
      modifies `procs, `svcs, `workers, `cycles, `runs, `begun, `inflight, `actionTasks
      ensures View() == Grown(old(View()), v, p, ok)
      ensures v in svcs && |Pool(old(Objects()), v)| <= |Pool(Objects(), v)|
      ensures Within(old(View()), View())
    {
      hide Within, Good, Steps.Spawn, Steps.SpawnFails, Pool;
      ghost var s := View();
      GrowWithin(s, v, p, ok);
      var started := Spawn(v, p, ok);
      ghost var t := View();
      WithinKeeps(s, t, v);
      if !started {
        var service := Steps.Backoff(svcs[v], clock);
        TuneCounters(s, t, v, service);
        svcs := svcs[v := service];
      }
    }

    /** Retire one worker if it is ready and idle and not the last of a startup app. */
    method RetireOne(v: nat, p: nat, wanted: bool, left: nat, ghost s: State, ghost todo: set<nat>)
      returns (stopped: bool)
      requires Within(s, View()) && v in svcs && p in svcs[v].workers
      requires Gauged()
      modifies this
      ensures svcs == old(svcs) && procs.Keys == old(procs).Keys
      ensures stopped ==>
          !(svcs[v].config.startup && left <= 1) && |Pool(Objects(), v)| == |Pool(old(Objects()), v)| - 1
      ensures stopped ==>
          p in Pool(old(Objects()), v) && Pool(Objects(), v) == Pool(old(Objects()), v) - {p}
              && Linked(old(Objects()), p)
      ensures View() == if stopped then Steps.Stop(old(View()), p, clock, false) else old(View())
      ensures Retired(old(Objects()), Objects(), v, wanted, clock)
      ensures IdleOnlyIn(old(Objects()), v, wanted, clock, todo) && !(svcs[v].config.startup && left <= 1) ==>
          IdleOnlyIn(Objects(), v, wanted, clock, todo - {p})
      ensures Within(s, View())
      ensures Beside(old(Metering()), Metering(), v) && (Shows(old(Metering()), v) ==> Shows(Metering(), v))
      ensures Onward() && Gauged()
    {
      hide Within, Steps.Stop, Idle, Pool, Retired, IdleOnlyIn, Gauged, Beside, Shows, DullStays, ReadingOf,
           Pressure.Observe;
      ghost var t, x := View(), Metering();
      BesideReflexive(x, v);
      RetireWorker(s, t, v, p);
      RetiredStarts(t.graph, v, wanted, clock);
      var service := svcs[v];
      var idle := Idle(procs[p], service, wanted, clock);
      if service.config.startup && left <= 1 {
        idle := false;
      }
      stopped := procs[p].stopping.None? && procs[p].ready && idle;
      if stopped {
        Stop(p, false);
        StoppedBeside(s, t, v, p, x.gauges, gauges);
        RetireStep(t.graph, Objects(), v, p, wanted, clock, todo);
      } else if IdleOnlyIn(t.graph, v, wanted, clock, todo) && !(service.config.startup && left <= 1) {
        NotIdle(t.graph, v, wanted, clock, todo, p);
      }
    }

    /** Idle workers retire, but never below what the service has to keep. */
    method RetireIdle(v: nat, wanted: bool, required: bool, available: nat) returns (left: nat, ghost gone: seq<nat>)
      requires Good(View()) && v in svcs && available <= |Pool(Objects(), v)|
      requires Gauged()
      modifies this
      ensures svcs == old(svcs) && procs.Keys == old(procs).Keys
      ensures |Pool(old(Objects()), v)| - |Pool(Objects(), v)| == available - left
      ensures gone == [] || Floor(svcs[v].config, required) <= left
      ensures View() == StopEach(old(View()), gone, false)
      ensures Enumerates(gone, Pool(old(Objects()), v) - Pool(Objects(), v))
      ensures Retired(old(Objects()), Objects(), v, wanted, clock)
      ensures left <= Floor(svcs[v].config, required) || IdleOnlyIn(Objects(), v, wanted, clock, {})
      ensures Within(old(View()), View())
      ensures Beside(old(Metering()), Metering(), v) && (Shows(old(Metering()), v) ==> Shows(Metering(), v))
      ensures Onward() && Gauged()
    {
      hide Within, Good, Idle, Pool, Retired, IdleOnlyIn, Steps.Stop, StopEach, Enumerates, Gauged, Steps.Confined,
           Steps.OnlyWorkers, Inv, Beside, Shows, Linked, Steps.Lifecycle, Steps.Halt;
      ghost var s, x := View(), Metering();
      BesideReflexive(x, v);
      WithinReflexive(s);
      RetiredStarts(s.graph, v, wanted, clock);
      FoldsStart(s);
      EnumerateNone(Pool(s.graph, v));
      left, gone := available, [];
      var service := svcs[v];
      var minimum := if required && service.config.minWorkers == 0 then 1 else service.config.minWorkers;
      var todo := service.workers;
      while todo != {}
        invariant Within(s, View()) && clock == s.clock && svcs == s.graph.svcs && todo <= service.workers
        invariant procs.Keys == s.graph.procs.Keys
        invariant |Pool(s.graph, v)| - |Pool(Objects(), v)| == available - left
        invariant gone == [] || Floor(service.config, required) <= left
        invariant View() == StopEach(s, gone, false) && Enumerates(gone, Pool(s.graph, v) - Pool(Objects(), v))
        invariant Pool(Objects(), v) <= Pool(s.graph, v)
        invariant Retired(s.graph, Objects(), v, wanted, clock)
        invariant left <= Floor(service.config, required) || IdleOnlyIn(Objects(), v, wanted, clock, todo)
        invariant Beside(x, Metering(), v) && (Shows(x, v) ==> Shows(Metering(), v))
        invariant Onward() && Gauged()
        decreases |todo|
      {
        if left <= minimum {
          break;
        }
        var p :| p in todo;
        ghost var t, y := View(), Metering();
        var stopped := RetireOne(v, p, wanted, left, s, todo);
        BesideTransitive(x, y, Metering(), v);
        RetiredTransitive(s.graph, t.graph, Objects(), v, wanted, clock);
        if stopped {
          StopMore(s, gone, false, p);
          EnumerateMore(gone, Pool(s.graph, v), Pool(t.graph, v), p);
          gone := gone + [p];
          left := left - 1;
        }
        todo := todo - {p};
      }
    }

    /** The service part of tick for one service. */
    method TickService(name: string, wanted: bool, required: bool, blocked: bool) returns (ghost turn: Turn)
      requires Good(View()) && name in services && Live(Objects(), services[name])
      requires Gauged()
      requires Continuous(Objects(), services[name]) ==>
          Dull(Metering(), services[name]) && services[name] !in missed
      modifies this
      ensures turn.name == name && turn.before == old(View()) && turn.after == View()
      ensures ServiceTurn(turn, old(services)[name], wanted, required)
      ensures AllPressed([turn], old(record), record, passed, clock)
      ensures Within(old(View()), View())
      ensures Beside(old(Metering()), Metering(), old(services)[name])
      ensures Continuous(Objects(), old(services)[name]) ==> Shows(Metering(), old(services)[name])
      ensures Onward() && Gauged()
    {
      hide Within, Good, ManagerState.DependenciesReady, ReservationsDone, Enumerates, StopEach, StartEach, Wanting,
           Steps.Spawn, Gauged, PressedOnce, Beside, Shows, Dull, Pressed, ScheduleTurn, PoolTurn, Inv, Matches,
           ReadingOf;
      ghost var s := View();
      var v := services[name];
      var ready := DependenciesReady(svcs[v].config, false);
      if ready {
        turn := TickReady(name, wanted, required, blocked);
      } else {
        ghost var stops := LoseDependencies(v);
        turn := Turn(name, s, stops, {}, s, Change(false, 0, true, s, []), View());
        WithinKeeps(s, View(), v);
      }
    }

    /** The same, once the dependencies are ready. */
    method TickReady(name: string, wanted: bool, required: bool, blocked: bool) returns (ghost turn: Turn)
      requires Good(View()) && name in services && Live(Objects(), services[name])
      requires ManagerState.DependenciesReady(Objects(), svcs[services[name]].config, false)
      requires Gauged() && (Continuous(Objects(), services[name]) ==> services[name] !in missed)
      modifies this
      ensures turn.name == name && turn.before == old(View()) && turn.after == View()
      ensures ServiceTurn(turn, old(services)[name], wanted, required)
      ensures AllPressed([turn], old(record), record, passed, clock)
      ensures Within(old(View()), View())
      ensures Beside(old(Metering()), Metering(), old(services)[name])
      ensures Continuous(Objects(), old(services)[name]) ==> Shows(Metering(), old(services)[name])
      ensures Onward() && Gauged()
    {
      hide Within, Good, ManagerState.DependenciesReady, PoolTurn, ScheduleTurn, ReservationsDone, Enumerates,
           StopEach, StartEach, Wanting, Gauged, PressedOnce, Beside, Shows, Pressed, SameServices, Inv, Steps.Spawn,
           Matches, ReadingOf, AllPressed, Dull;
      ghost var s, x := View(), Metering();
      var v := services[name];
      var app := svcs[v].config;
      var order, granted := StartReserved(v);
      ghost var mid, observed, y := View(), record, Metering();
      WithinGood(s, mid);
      WithinKeeps(s, mid, v);
      ghost var change := TickChange(v, wanted, required, blocked);
      turn := Turn(name, s, order, granted, mid, change, View());
      WithinKeeps(mid, View(), v);
      WithinTransitive(s, mid, View());
      BesideTransitive(x, y, Metering(), v);
      if change.pressing {
        GaugedTracks();
        PressedLater(old(record), observed, record, record, passed, gauges, clock, v, app);
      }
      PressedAlone(turn, old(record), record, passed, clock);
    }

    /** What is left of the turn: a due execution, or what the pool needs. */
    method TickChange(v: nat, wanted: bool, required: bool, blocked: bool) returns (ghost change: Change)
      requires Good(View()) && Live(Objects(), v)
      requires Gauged() && (Continuous(Objects(), v) ==> v !in missed)
      modifies this
      ensures if old(svcs)[v].config.Scheduled() then ScheduleTurn(old(View()), View(), v, change)
          else PoolTurn(old(View()), View(), v, wanted, required, change)
      ensures change.pressing ==> Pressed(old(record), record, passed, v, clock, old(svcs)[v].config)
      ensures Within(old(View()), View())
      ensures Beside(old(Metering()), Metering(), v)
      ensures old(svcs)[v].config.Scheduled() || Shows(Metering(), v)
      ensures Onward() && Gauged()
    {
      hide Within, Good, PoolTurn, ScheduleTurn, Gauged, Beside, Shows, Pressed, SameServices, Inv, Matches,
           ReadingOf;
      if svcs[v].config.Scheduled() {
        change := TickSchedule(v);
      } else {
        change := TickPool(v, wanted, required, blocked);
      }
    }

    /** A noted occurrence of a scheduled service starts. */
    method TickSchedule(v: nat) returns (ghost change: Change)
      requires Good(View()) && Live(Objects(), v) && svcs[v].config.Scheduled()
      modifies `procs, `svcs, `workers, `cycles, `runs, `begun, `inflight, `actionTasks
      ensures ScheduleTurn(old(View()), View(), v, change) && !change.pressing
      ensures Within(old(View()), View()) && Beside(old(Metering()), Metering(), v)
    {
      hide Within, Good, Steps.Spawn, Beside;
      WithinReflexive(View());
      BesideReflexive(Metering(), v);
      change := Change(false, 0, true, View(), []);
      if svcs[v].scheduled {
        var p, ok := RunScheduled(v);
        change := change.(address := p, answer := ok);
      }
    }

    /** A dependency is not ready: the workers stop, and an unscheduled service wants
        to come back. */
    method LoseDependencies(v: nat) returns (ghost order: seq<nat>)
      requires Good(View()) && v in svcs
      requires Gauged()
      modifies this
      ensures Enumerates(order, old(svcs)[v].workers) && View() == StopEach(Wanting(old(View()), v), order, false)
      ensures v in svcs && forall w <- svcs[v].workers :: w in procs && procs[w].stopping.Some?
      ensures Within(old(View()), View())
      ensures Beside(old(Metering()), Metering(), v) && (Dull(old(Metering()), v) ==> Shows(Metering(), v))
      ensures Onward() && Gauged()
    {
      hide Within, Good, StopEach, Enumerates, Gauged, Beside, Shows, Dull, Inv, Matches, ReadingOf;
      ghost var s, x := View(), Metering();
      BesideReflexive(x, v);
      WithinReflexive(s);
      if svcs[v].workers != {} && !svcs[v].config.Scheduled() {
        TuneCounters(s, View(), v, svcs[v].(demand := true));
        TunedBeside(x, v, svcs[v].(demand := true));
        svcs := svcs[v := svcs[v].(demand := true)];
      }
      ghost var t, y := View(), Metering();
      WithinGood(s, t);
      order := StopAll(v);
      BesideTransitive(x, y, Metering(), v);
      if svcs[v].workers == {} && Dull(Metering(), v) { DesertedShows(Metering(), v); }
      WithinTransitive(s, t, View());
    }

    /** Whether the service's full window asks for another worker; measured resources
        may defer the growth. */
    method Press(v: nat, blocked: bool) returns (pressing: bool)
      requires Gauged() && v in svcs && v !in missed
      modifies `gauges, `record
      ensures blocked ==> !pressing
      ensures var w := Pressure.Observe(WindowOf(old(gauges), v), clock, ReadingOf(Objects(), v));
        !blocked ==> Decides(w, passed, v, clock, svcs[v].config, pressing)
      ensures pressing ==> Pressed(old(record), record, passed, v, clock, svcs[v].config)
      ensures Shows(Metering(), v) && Beside(old(Metering()), Metering(), v)
      ensures Onward() && Gauged()
    {
      hide Gauged, PressedOnce, Pressure.Evaluate, Pressure.Presses, AtThreshold, ReadingOf, Shows, Beside, Decides;
      ghost var x := Metering();
      ObservePressure(v);
      ghost var y, observed := Metering(), record;
      var grow := EvaluatePressure(v);
      BesideTransitive(x, y, Metering(), v);
      if grow {
        GaugedTracks();
        PressedOnward(old(record), observed, record, record, gauges, clock, v, svcs[v].config.scaleWindow);
      }
      pressing := grow && !blocked;
    }

    /** The growth, demand and retirement of an unscheduled service. */
    method TickPool(v: nat, wanted: bool, required: bool, blocked: bool) returns (ghost change: Change)
      requires Good(View()) && Live(Objects(), v) && !svcs[v].config.Scheduled()
      requires Gauged() && v !in missed
      modifies this
      ensures PoolTurn(old(View()), View(), v, wanted, required, change)
      ensures blocked ==> !change.pressing
      ensures var w := Pressure.Observe(WindowOf(old(gauges), v), clock, ReadingOf(old(Objects()), v));
        !blocked ==> Decides(w, passed, v, clock, old(svcs)[v].config, change.pressing)
      ensures change.pressing ==> Pressed(old(record), record, passed, v, clock, old(svcs)[v].config)
      ensures Within(old(View()), View())
      ensures Beside(old(Metering()), Metering(), v) && Shows(Metering(), v)
      ensures Onward() && Gauged()
    {
      hide Within, Good, Idle, Grows, Grown, Pool, Retired, IdleOnlyIn, StopEach, Enumerates, Gauged, PressedOnce,
           Floor, Inv, CycleFor, Unready, Joins, Beside, Shows, Pressed, Decides, Pressure.Observe, ReadingOf;
      ghost var s, x, first := View(), Metering(), record;
      var pressing := Press(v, blocked);
      ghost var decided, y := record, Metering();
      var available, p, ok := GrowAndNote(v, wanted, required, pressing);
      ghost var u, z := View(), Metering();
      BesideTransitive(x, y, z, v);
      WithinGood(s, u);
      WithinKeeps(s, u, v);
      var left, gone := RetireIdle(v, wanted, required, available);
      change := Change(pressing, p, ok, u, gone);
      WithinKeeps(u, View(), v);
      WithinTransitive(s, u, View());
      BesideTransitive(x, z, Metering(), v);
      if pressing {
        GaugedTracks();
        PressedLater(first, first, decided, record, passed, gauges, clock, v, s.graph.svcs[v].config);
      }
    }

    method GrowAndNote(v: nat, wanted: bool, required: bool, pressing: bool)
      returns (available: nat, p: nat, ok: bool)
      requires Good(View()) && Live(Objects(), v) && !svcs[v].config.Scheduled()
      requires Gauged()
      modifies this
      ensures available == |Pool(old(Objects()), v)| && p !in old(procs) && p !in old(cycles)
      ensures var s := old(View());
        && var u := if Grows(s.graph, v, required, pressing, s.clock) then Grown(s, v, p, ok) else s;
        && v in u.graph.svcs
        && View() == u.(graph := PutService(u.graph, v, Noticed(u.graph.svcs[v], wanted, available > 0, s.clock)))
      ensures v in svcs && available <= |Pool(Objects(), v)|
      ensures Within(old(View()), View())
      ensures Beside(old(Metering()), Metering(), v) && (Shows(old(Metering()), v) ==> Shows(Metering(), v))
      ensures Onward() && Gauged()
    {
      hide Within, Good, Grows, Grown, Pool, Gauged, Inv, Beside, Shows;
      ghost var s, x := View(), Metering();
      var grown: bool;
      available, grown, p, ok := GrowAndObserve(v, required, pressing);
      ghost var y := Metering();
      WithinKeeps(s, View(), v);
      NoteNeed(v, wanted, available > 0, s);
      BesideTransitive(x, y, Metering(), v);
    }

    lemma GaugedTracks()
      requires Gauged()
      ensures AllTrack(gauges, record, clock) && missed <= gauges.Keys
    {
    }

    method GrowAndObserve(v: nat, required: bool, pressing: bool)
      returns (available: nat, grown: bool, p: nat, ok: bool)
      requires Good(View()) && Live(Objects(), v) && !svcs[v].config.Scheduled()
      requires Gauged()
      modifies this
      ensures available == |Pool(old(Objects()), v)| && (grown <==> Grows(old(Objects()), v, required, pressing, clock))
      ensures p !in old(procs) && p !in old(cycles)
      ensures View() == if grown then Grown(old(View()), v, p, ok) else old(View())
      ensures v in svcs && available <= |Pool(Objects(), v)|
      ensures Within(old(View()), View())
      ensures Beside(old(Metering()), Metering(), v) && (Shows(old(Metering()), v) ==> Shows(Metering(), v))
      ensures Onward() && Gauged()
    {
      hide Within, Good, Grows, Grown, Pool, Enumerates, Gauged, Beside, Shows, ReadingOf, Pressure.Observe;
      ghost var s, x := View(), Metering();
      BesideReflexive(x, v);
      available, grown, p, ok := Grow(v, required, pressing);
      if grown {
        ghost var y := Metering();
        GrownBeside(gauges, s, v, p, ok);
        ObservePressure(v);
        BesideTransitive(x, y, Metering(), v);
      }
    }

    method NoteNeed(v: nat, wanted: bool, met: bool, ghost s: State)
      requires Within(s, View()) && v in svcs
      modifies `svcs
      ensures svcs == old(svcs)[v := Noticed(old(svcs)[v], wanted, met, clock)]
      ensures Pool(Objects(), v) == Pool(old(Objects()), v)
      ensures Beside(old(Metering()), Metering(), v) && (Shows(old(Metering()), v) ==> Shows(Metering(), v))
      ensures Within(s, View())
    {
      hide Within, Pool, Beside, Shows;
      var service := svcs[v];
      if met {
        service := service.(demand := false);
      }
      if wanted {
        service := service.(unneededSince := None);
      } else if service.unneededSince.None? {
        service := service.(unneededSince := Some(clock));
      }
      TuneCounters(s, View(), v, service);
      TunedBeside(Metering(), v, service);
      svcs := svcs[v := service];
    }

    /** The turn of one service; those in `todo` still wait for theirs. */
    method TickNext(name: string, wanted: bool, required: bool, blocked: bool, ghost todo: set<string>)
      returns (ghost turn: Turn)
      requires Good(View()) && name in services && Gauged()
      requires AllDull(Metering()) && ShownBut(Metering(), todo + {name}) && NoneMissed(Objects(), missed)
      modifies this
      ensures services == old(services) && services[name] in old(svcs)
      ensures turn.name == name && turn.before == old(View()) && turn.after == View()
      ensures ServiceTurn(turn, services[name], wanted, required)
      ensures AllPressed([turn], old(record), record, passed, clock)
      ensures Within(old(View()), View())
      ensures AllDull(Metering()) && ShownBut(Metering(), todo) && NoneMissed(Objects(), missed)
      ensures Onward() && Gauged()
    {
      hide Within, Good, Inv, ServiceTurn, Gauged, AllDull, Dull, Shows, Beside, NoneMissed, ShownBut, SameServices,
           AllPressed;
      ghost var t, x, v := View(), Metering(), services[name];
      GoodInv(t);
      ServiceOf(t, name);
      TurnReady(x, v, missed);
      turn := TickService(name, wanted, required, blocked);
      WithinServices(t, View());
      ServicesWithin(t, View());
      NoneMissedOn(t.graph, Objects(), missed);
      TurnShows(x, Metering(), v, todo);
    }

    method TickServices(reading: Schedule.Reading, blocked: bool)
      returns (ghost considered: State, ghost wanted: set<string>, ghost required: set<string>, ghost turns: seq<Turn>)
      requires Good(View())
      requires Gauged() && AllDull(Metering()) && NoneMissed(Objects(), missed)
      modifies this
      ensures Considered(old(View()), considered, reading, wanted, required)
      ensures Enumerates(Names(turns), considered.graph.services.Keys)
      ensures Turns(considered, turns, View(), wanted, required)
      ensures AllPressed(turns, old(record), record, passed, clock)
      ensures Within(old(View()), View())
      ensures Observed()
      ensures Onward() && Gauged()
    {
      hide Within, Good, Inv, Live, Considered, Turns, ServiceTurn, Enumerates, Names, Gauged, AllDull, Dull, Shows,
           Beside, NoneMissed, ShownBut, SameServices;
      ghost var s := View();
      var want, need := FollowDemand(reading);
      considered, wanted, required, turns := View(), want, need, [];
      ConsideredDull(s, considered, reading, want, need, gauges);
      ShownNone(Metering());
      ServicesWithin(s, considered);
      NoneMissedOn(s.graph, Objects(), missed);
      TurnsStart(considered, want, need);
      var todo := services.Keys;
      while todo != {}
        invariant Within(s, View()) && todo <= services.Keys && services.Keys == considered.graph.services.Keys
        invariant Enumerates(Names(turns), services.Keys - todo) && Turns(considered, turns, View(), want, need)
        invariant clock == s.clock && AllPressed(turns, old(record), record, passed, clock)
        invariant AllDull(Metering()) && ShownBut(Metering(), todo) && NoneMissed(Objects(), missed)
        invariant Onward() && Gauged()
        decreases |todo|
      {
        var name :| name in todo;
        EnumerateMore(Names(turns), services.Keys, todo, name);
        ghost var rest := todo;
        todo := todo - {name};
        assert rest == todo + {name};
        ghost var t, mid := View(), record;
        WithinGood(s, t);
        ghost var turn := TickNext(name, name in want, name in need, blocked, todo);
        WithinTransitive(s, t, View());
        TurnMore(considered, turns, turn, want, need);
        GaugedTracks();
        PressedJoin(turns, [turn], old(record), mid, record, passed, gauges, clock);
        turns := turns + [turn];
      }
      assert services.Keys - {} == services.Keys;
      ShownAll(Metering());
    }

    /** Does anybody still depend on this worker's service? */
    method Held(p: nat) returns (held: bool)
      requires Linked(Objects(), p)
      ensures held == HasDependent(Objects(), p)
    {
      held := false;
      var todo := workers;
      while todo != {}
        invariant todo <= workers
        invariant held <==> exists d <- workers - todo ::
            d in procs && svcs[procs[p].service].name in procs[d].config.dependencies
        decreases |todo|
      {
        var d :| d in todo;
        held := held || (d in procs && svcs[procs[p].service].name in procs[d].config.dependencies);
        todo := todo - {d};
      }
    }

    method ScanWorker(p: nat, ghost s: State, ghost todo: set<nat>)
      requires Within(s, View()) && p !in todo && workers <= s.graph.workers && Settling(s.graph, Objects(), todo + {p})
      requires Gauged()
      modifies this
      ensures workers <= old(workers) && Settling(s.graph, Objects(), todo)
      ensures View() == if p in old(workers) && Linked(old(Objects()), p) && !HasDependent(old(Objects()), p)
          then Steps.Stop(old(View()), p, clock, false) else old(View())
      ensures Within(s, View())
      ensures Onward() && Gauged()
    {
      hide Within, Steps.Stop, Settling, Gauged, HasDependent, Inv;
      if p !in workers {
        SettlingHeld(s.graph, Objects(), p, todo);
        return;
      }
      ghost var t := View();
      WithinInv(s, t);
      WorkerLinked(t, p);
      var held := Held(p);
      if held {
        SettlingHeld(s.graph, Objects(), p, todo);
      } else {
        StopWithin(s, t, p, false);
        SettlingStep(s.graph, t, p, todo);
        Stop(p, false);
      }
    }

    /** The shutdown scan of tick: a worker is asked to stop only when nobody left
        depends on its service, and some worker can always go. */
    method ShutdownScan() returns (ghost order: seq<nat>)
      requires Good(View()) && Dependencies.Sound(Installed(Objects()))
      requires Gauged()
      modifies this
      ensures workers <= old(workers)
      ensures forall w <- workers :: w in procs && Linked(Objects(), w) && w in old(procs)
      ensures forall w <- workers :: procs[w].stopping.Some? && old(procs)[w].stopping.None? ==>
          !HasDependent(Objects(), w)
      ensures workers == {} || workers < old(workers) || exists w <- workers :: w in procs && !procs[w].Active()
      ensures Enumerates(order, old(workers)) && View() == ScanAll(old(View()), order)
      ensures Within(old(View()), View())
      ensures Onward() && Gauged()
    {
      hide Within, Good, Steps.Stop, Installed, HasDependent, Settling, Inv, Enumerates, ScanAll, Gauged;
      ghost var s := View();
      WithinReflexive(s);
      GoodInv(s);
      SettlingStarts(s);
      FoldsStart(s);
      order := [];
      var todo := workers;
      while todo != {}
        invariant Within(s, View()) && clock == s.clock && workers <= s.graph.workers && todo <= s.graph.workers
        invariant Settling(s.graph, Objects(), todo)
        invariant Enumerates(order, s.graph.workers - todo) && View() == ScanAll(s, order)
        invariant Onward() && Gauged()
        decreases |todo|
      {
        var p :| p in todo;
        assert todo - {p} + {p} == todo;
        EnumerateMore(order, s.graph.workers, todo, p);
        ScanMore(s, order, p);
        todo := todo - {p};
        order := order + [p];
        ScanWorker(p, s, todo);
      }
      assert s.graph.workers - {} == s.graph.workers;
      SettlingEnds(s, View());
    }

    /** One turn of the ticker. The loop also ticks once when a shutdown begins. `blocked`
        says that the measured resources are past their limits. */
    method Tick(reading: Schedule.Reading, blocked: bool) returns (ghost account: Account)
      requires Valid()
      modifies this
      ensures DeadlineMet(Objects(), clock)
      ensures stopping ==>
          workers <= old(workers)
              && (workers == {} || workers < old(workers) || exists w <- workers :: w in procs && !procs[w].Active())
      ensures Explains(account, old(View()), View(), stopping, reading)
      ensures AllPressed(account.turns, old(record), record, passed, clock)
      ensures stopping ==> ManagerStopping.TurnTaken(old(View()), ManagerStopping.Ticking(account, reading), View())
      ensures Within(old(View()), View()) && Valid()
      ensures Onward()
    {
      hide Within, Good, DeadlineMet, Installed, Dependencies.Sound, InTime, Enumerates, InspectAll, ScanAll,
           Considered, Turns, Gauged, AllDull, AllShow, NoneMissed, SameServices;
      ghost var s := View();
      if !stopping { AllShowDull(Metering()); }
      ghost var order := TickWorkers();
      ghost var t, observed := View(), record;
      WithinGood(s, t);
      WithinInstalled(s, t);
      InTimeMeets(Objects(), clock);
      if stopping {
        ghost var scan := ShutdownScan();
        account := Account(order, t, t, {}, {}, [], scan);
      } else {
        ServicesWithin(s, t);
        NoneMissedOn(s.graph, t.graph, missed);
        ghost var considered, wanted, required, turns := TickServices(reading, blocked);
        account := Account(order, t, considered, wanted, required, turns, []);
        GaugedTracks();
        PressedJoin([], turns, old(record), observed, record, passed, gauges, clock);
        assert [] + turns == turns;
      }
      DeadlineStays(t, View());
      WithinTransitive(s, t, View());
      WithinValid(s, View());
    }

    // ------------------------------------------------------------ messages

    /** actionResult: a failure that reaches its threshold retires the run's worker,
        or every worker of the run's generation. */
    method ActionResult(r: RunRef, ok: bool) returns (ghost order: seq<nat>)
      requires Good(View()) && r in inflight && r in runs
      requires Gauged()
      modifies this
      ensures Concluded(old(View()), View(), r, ok, order)
      ensures Retires(old(runs)[r], ok) ==> ScopeActive(old(Objects()), r.scope) && !ScopeActive(Objects(), r.scope)
      ensures Within(old(View()), View())
      ensures old(Observed()) ==> Observed()
      ensures Onward() && Gauged()
    {
      hide Within, Good, Steps.Stop, ScopeActive, Retires, ActionBoard.Collect, StopEach, Enumerates, Gauged,
           Targets, Inv, Wired, Bounded, Reserved, Metered, Shows, DullStays, ReadingOf, Pressure.Observe;
      ghost var s := View();
      order := [];
      var before := runs[r];
      CollectWithin(s, r, ok);
      WithinInv(s, View().(board := ActionBoard.Collect(View().board, r, ok, clock)));
      GoodInv(s);
      RetiresActive(s, r, ok);
      Record(r, ok);
      if Retires(before, ok) {
        order := StopScope(r.scope, s);
      }
    }

    /** Stop whom the failure of a check concerns. */
    method StopScope(scope: Scope, ghost s: State) returns (ghost order: seq<nat>)
      requires Within(s, View()) && ScopeActive(Objects(), scope) && Gauged()
      modifies this
      ensures Enumerates(order, Targets(old(Objects()), scope)) && View() == StopEach(old(View()), order, true)
      ensures Within(s, View()) && !ScopeActive(Objects(), scope)
      ensures old(Observed()) ==> Observed()
      ensures Onward() && Gauged()
    {
      hide Within, StopEach, Enumerates, Gauged, CycleActive, ActiveWorker, Metered, Shows, DullStays, ReadingOf,
           Pressure.Observe;
      match scope
      case OfWorker(p) =>
        order := [p];
        StopFailed(p, s);
      case OfCycle(c) =>
        CycleKnown(Objects(), c);
        order := StopMembers(c, s);
    }

    lemma CycleKnown(g: Graph, c: nat)
      requires CycleActive(g, c)
      ensures c in g.cycles
    {
    }

    method Record(r: RunRef, ok: bool)
      requires r in runs
      modifies `runs, `inflight, `actionTasks
      ensures View() == old(View()).(board := Collect(old(View().board), r, ok, clock))
    {
      actionTasks := actionTasks - 1;
      runs := runs[r := Finished(runs[r], ok, clock)];
      inflight := inflight - multiset{r};
    }

    method StopFailed(p: nat, ghost s: State)
      requires Within(s, View()) && ScopeActive(Objects(), OfWorker(p))
      requires Gauged()
      modifies this
      ensures View() == StopEach(old(View()), [p], true) && Enumerates([p], {p})
      ensures Within(s, View()) && !ScopeActive(Objects(), OfWorker(p))
      ensures old(Observed()) ==> Observed()
      ensures Onward() && Gauged()
    {
      hide Within, Steps.Stop, StopEach, Enumerates, Gauged, Metered, Shows, DullStays, ReadingOf, Pressure.Observe,
           Inv, Steps.Confined;
      WithinInv(s, View());
      WorkerLinked(View(), p);
      hide Inv;
      StopWithin(s, View(), p, true);
      StopFirst(View(), p);
      ghost var t, x := View(), Metering();
      Stop(p, true);
      StopMetered(s, t, p, true, x.gauges, gauges, missed);
    }

    method StopMembers(c: nat, ghost s: State) returns (ghost order: seq<nat>)
      requires Within(s, View()) && c in cycles
      requires Gauged()
      modifies this
      ensures Enumerates(order, old(cycles)[c].members) && View() == StopEach(old(View()), order, true)
      ensures Within(s, View()) && !ScopeActive(Objects(), OfCycle(c))
      ensures old(Observed()) ==> Observed()
      ensures Onward() && Gauged()
    {
      hide Within, Steps.Stop, StopEach, Enumerates, Gauged, Metered, Shows, DullStays, ReadingOf, Pressure.Observe;
      ghost var t := View();
      var members := cycles[c].members;
      FoldsStart(t);
      EnumerateNone(members);
      order := [];
      var todo := members;
      while todo != {}
        invariant Within(s, View()) && clock == t.clock && c in cycles && todo <= cycles[c].members <= members
        invariant Enumerates(order, members - todo) && View() == StopEach(t, order, true)
        invariant forall m <- members :: m in todo || m !in procs || !procs[m].Active()
        invariant old(Observed()) ==> Observed()
        invariant Onward() && Gauged()
        decreases |todo|
      {
        var p :| p in todo;
        EnumerateMore(order, members, todo, p);
        StopMore(t, order, true, p);
        todo := todo - {p};
        order := order + [p];
        if p in procs && procs[p].Active() {
          MemberStep(s, View(), c, p);
          ghost var u, x := View(), Metering();
          Stop(p, true);
          StopMetered(s, u, p, true, x.gauges, gauges, missed);
        }
      }
      assert members - {} == members;
    }

    method ProcessExit(p: nat)
      requires Linked(Objects(), p)
      modifies `procs, `svcs, `workers, `cycles, `runs, `begun, `inflight, `actionTasks
      ensures View() == Steps.ProcessExit(old(View()), p, clock)
    {
      hide Steps.Lifecycle;
      var unexpected := procs[p].stopping.None?;
      Withdraw(p, procs[p].(exited := true, ready := false));
      if unexpected {
        Charge(p);
      }
      Lifecycle(p);
    }

    method ProbeResult(p: nat, ready: bool)
      requires p in procs
      modifies `procs
      ensures View() == Steps.ProbeResult(old(View()), p, ready, clock)
    {
      var child := procs[p].(probing := false, nextProbe := Some(clock + 100_000_000));
      if ready {
        child := child.(baseReady := true, idleSince := Some(clock));
      }
      procs := procs[p := child];
    }

    method Handshake(p: nat, ready: bool)
      requires Linked(Objects(), p)
      requires Gauged()
      modifies this
      ensures View() == Steps.Handshake(old(View()), p, ready, clock)
      ensures OnlyWindow(old(gauges), gauges, old(procs)[p].service)
      ensures Onward() && Gauged()
    {
      hide Steps.Stop, Gauged, Shows, Dull, ReadingOf, Pressure.Observe;
      var child := procs[p].(telemetry := ready);
      if ready {
        if child.config.readyMode == OnEvent {
          child := child.(baseReady := true);
        }
        child := child.(idleSince := Some(clock));
      }
      procs := procs[p := child];
      if !ready && child.config.readyMode == OnEvent {
        Stop(p, true);
      }
    }

    method StreamError(p: nat)
      requires Linked(Objects(), p)
      requires Gauged()
      modifies this
      ensures View() == Steps.StreamError(old(View()), p, clock)
      ensures OnlyWindow(old(gauges), gauges, old(procs)[p].service)
      ensures Onward() && Gauged()
    {
      hide Gauged, Shows, Dull, ReadingOf, Pressure.Observe;
      if procs[p].stopping.None? {
        Stop(p, true);
      }
    }

    method RequestStart(p: nat, id: string)
      requires Linked(Objects(), p)
      requires Gauged()
      modifies this
      ensures View() == Steps.RequestStart(old(View()), p, id, clock)
      ensures OnlyWindow(old(gauges), gauges, old(procs)[p].service)
      ensures Onward() && Gauged()
    {
      hide Steps.Stop, Gauged, Shows, Dull, ReadingOf, Pressure.Observe;
      var child := procs[p];
      if !child.telemetry || id == "" || id in child.requests {
        Stop(p, true);
        return;
      }
      procs := procs[p := child.(requests := child.requests[id := clock], idleSince := None)];
    }

    method RequestEnd(p: nat, id: string)
      requires Linked(Objects(), p)
      requires Gauged()
      modifies this
      ensures View() == Steps.RequestEnd(old(View()), p, id, clock)
      ensures OnlyWindow(old(gauges), gauges, old(procs)[p].service)
      ensures Onward() && Gauged()
    {
      hide Steps.Stop, Gauged, Shows, Dull, ReadingOf, Pressure.Observe;
      var child := procs[p];
      if id !in child.requests {
        Stop(p, true);
        return;
      }
      child := child.(requests := child.requests - {id}, busyUntil := Some(clock));
      if child.requests == map[] {
        child := child.(idleSince := Some(clock));
      }
      procs := procs[p := child];
    }

    method ListenerReadable(id: nat, broken: bool, ghost s: State)
      requires Within(s, View())
      modifies `svcs, `fatal
      ensures fatal == (old(fatal) || (id in listeners && broken))
      ensures id in listeners ==> listeners[id] in old(svcs)
      ensures svcs == if id in listeners && !broken
          then old(svcs)[listeners[id] := old(svcs)[listeners[id]].(demand := true)] else old(svcs)
      ensures Within(s, View())
    {
      hide Within;
      if id in listeners {
        ListenerOwner(s, View(), id);
        var v := listeners[id];
        if broken {
          fatal := true;
        } else {
          TuneCounters(s, View(), v, svcs[v].(demand := true));
          svcs := svcs[v := svcs[v].(demand := true)];
        }
      }
    }

    /** A queued event can outlive its listener: only a listener that is still
        configured passes the demand on, to the service that owns it now. */
    method ListenersReadable(events: seq<(nat, bool)>)
      requires Good(View())
      modifies `svcs, `fatal
      ensures Raised(old(svcs), svcs, listeners, events)
      ensures fatal == (old(fatal) || exists i | 0 <= i < |events| :: events[i].0 in listeners && events[i].1)
      ensures Within(old(View()), View())
    {
      hide Within, Good, Raised;
      ghost var s := View();
      WithinReflexive(s);
      RaisedStarts(svcs, listeners, events);
      for i := 0 to |events|
        invariant Within(s, View()) && Raised(s.graph.svcs, svcs, listeners, events[..i])
        invariant fatal == (old(fatal) || exists k | 0 <= k < i :: events[k].0 in listeners && events[k].1)
      {
        ghost var before := svcs;
        ListenerReadable(events[i].0, events[i].1, s);
        RaisedStep(s.graph.svcs, before, listeners, events, i);
      }
      assert events[..|events|] == events;
    }

    method Dispatch(msg: Message)
      requires msg.AboutProcess() && Linked(Objects(), msg.process) && Gauged()
      modifies this
      ensures View() == Answer(old(View()), msg)
      ensures OnlyWindow(old(gauges), gauges, old(procs)[msg.process].service)
      ensures Onward() && Gauged()
    {
      hide Steps.Stop, Steps.ProcessExit, Steps.StreamError, Steps.Handshake, Steps.RequestStart, Steps.RequestEnd,
           Steps.ProbeResult, Gauged, Shows, Dull, ReadingOf, Pressure.Observe;
      match msg
      case Exited(p) => ProcessExit(p);
      case Probed(p, ready) => ProbeResult(p, ready);
      case Hello(p, ready) => Handshake(p, ready);
      case Broken(p) => StreamError(p);
      case ReadyAgain(p) => Stop(p, true);
      case Started(p, id) => RequestStart(p, id);
      case Ended(p, id) => RequestEnd(p, id);
    }

    /** handle, for a message about a process; late ones are ignored. */
    method HandleProcess(msg: Message)
      requires Good(View()) && msg.AboutProcess() && Expected(View(), msg)
      requires Gauged()
      modifies this
      ensures msg.process !in old(workers) ==> View() == old(View())
      ensures msg.process in old(workers) ==>
          msg.process in old(procs) && JustObserved(record, old(procs)[msg.process].service, clock, Objects())
      ensures msg.process in old(workers) ==> Linked(old(Objects()), msg.process) && View() == Answer(old(View()), msg)
      ensures Within(old(View()), View())
      ensures old(Observed()) ==> Observed()
      ensures Onward() && Gauged()
    {
      hide Within, Good, Steps.Stop, Steps.ProcessExit, Steps.StreamError, Steps.Handshake, Steps.RequestStart,
           Steps.RequestEnd, Steps.ProbeResult, Gauged, Answer, Inv, Expected, Metered, Shows, Beside, ReadingOf,
           Pressure.Observe, OnlyWindow;
      ghost var s, x := View(), Metering();
      WithinReflexive(s);
      if msg.process !in workers {
        return;
      }
      AnswerWithin(s, msg);
      var v := procs[msg.process].service;
      Dispatch(msg);
      WithinServices(s, View());
      WithinTables(s, View());
      AnswerBeside(s, msg, x.gauges, gauges);
      ghost var y := Metering();
      ObservePressure(v);
      BesideTransitive(x, y, Metering(), v);
      if Metered(x, missed) { BesideMetered(x, Metering(), v, missed); }
    }

    /** handle. `order` lists the members of a generation that a failed check stopped. */
    method Handle(msg: Message) returns (ghost order: seq<nat>)
      requires Valid() && Expected(View(), msg)
      modifies this
      ensures Handled(old(View()), View(), msg, order) && (msg.PollFailed? ==> fatal)
      ensures msg.AboutProcess() && msg.process in old(workers) ==>
          msg.process in old(procs) && JustObserved(record, old(procs)[msg.process].service, clock, Objects())
      ensures ManagerStopping.TurnTaken(old(View()), ManagerStopping.Taking(msg, order), View())
      ensures Within(old(View()), View()) && Valid()
      ensures Onward()
    {
      hide Within, Good, Installed, Dependencies.Sound, Gauged, Metered, JustObserved, Handled, Expected,
           SameServices;
      ghost var s := View();
      order := HandleAny(msg);
      WithinValid(s, View());
    }

    method HandleAny(msg: Message) returns (ghost order: seq<nat>)
      requires Good(View()) && Expected(View(), msg) && Gauged()
      modifies this
      ensures Handled(old(View()), View(), msg, order) && (msg.PollFailed? ==> fatal)
      ensures msg.AboutProcess() && msg.process in old(workers) ==>
          msg.process in old(procs) && JustObserved(record, old(procs)[msg.process].service, clock, Objects())
      ensures Within(old(View()), View())
      ensures old(Observed()) ==> Observed()
      ensures Onward() && Gauged()
    {
      hide Within, Good, Installed, Dependencies.Sound, Answer, Concluded, Raised, Gauged, Inv, Metered, ReadingOf,
           SameServices, Steps.Confined, JustObserved;
      ghost var s := View();
      WithinReflexive(s);
      order := [];
      match msg {
        case ActionDone(r, ok) => order := ActionResult(r, ok);
        case Readable(events) =>
          ListenersReadable(events);
          if Metered(Meters(gauges, s.graph), missed) {
            RaisedMetered(Meters(gauges, s.graph), svcs, listeners, events, missed);
          }
        case PollFailed => fatal := true;
        case _ =>
          HandleProcess(msg);
          HandledProcess(s, View(), msg);
      }
    }

    // --------------------------------------------------------------- apply

    /** Open the listeners that a snapshot needs anew. If one fails, `ok` is false. */
    method OpenListeners(snapshot: Snapshot) returns (staged: map<string, nat>, ok: bool)
      requires Good(View())
      modifies `sockets, `nextListener
      ensures ok ==> Covers(Objects(), snapshot, staged)
      ensures Staged(old(View()), View(), staged)
    {
      hide Good, Staged;
      ghost var s := View();
      StagedStarts(s);
      staged := map[];
      var todo := snapshot.Keys;
      while todo != {}
        invariant todo <= snapshot.Keys && Staged(s, View(), staged)
        invariant forall n :: n in staged <==> NeedsListener(Objects(), snapshot, n) && n !in todo
        decreases |todo|
      {
        var name :| name in todo;
        todo := todo - {name};
        if NeedsListener(Objects(), snapshot, name) {
          var opens: bool, arms: bool := *, *;
          if !opens || nextListener == 0x7fff_ffff {
            return staged, false;
          }
          StageStep(s, View(), staged, name);
          nextListener := nextListener + 1;
          sockets := sockets + {nextListener};
          staged := staged[name := nextListener];
          if !arms {
            return staged, false;
          }
        }
      }
      ok := true;
    }

    /** A rejected snapshot leaves nothing open. */
    method CloseStaged(staged: map<string, nat>, ghost s: State)
      requires Staged(s, View(), staged)
      modifies `sockets
      ensures View() == s.(nextListener := nextListener)
      ensures Continues(s, View())
    {
      hide Staged, Continues;
      var rest := staged;
      while rest != map[]
        invariant Staged(s, View(), rest)
        decreases |rest|
      {
        var name :| name in rest;
        UnstageStep(s, View(), rest, name);
        sockets := sockets - {rest[name]};
        rest := rest - {name};
      }
      UnstagedAll(s, View());
      StagedContinues(s, View(), rest);
    }

    method CloseListener(listener: Option<nat>)
      modifies `listeners, `sockets
      ensures View() == Steps.Disconnect(old(View()), listener)
    {
      if listener.Some? {
        listeners := listeners - {listener.value};
        sockets := sockets - {listener.value};
      }
    }

    /** One round of the stopping loop: a changed service stops, and is forgotten if
        it is gone or listens elsewhere. */
    method TrimService(snapshot: Snapshot, name: string, ghost s: State, ghost todo: set<string>)
      requires Good(s) && Trimmed(s, View(), snapshot, todo) && name in todo && name in s.graph.services
      requires Preserved(s.graph, Objects(), snapshot, todo)
      requires Gauged()
      modifies this
      ensures Trimmed(s, View(), snapshot, todo - {name}) && Preserved(s.graph, Objects(), snapshot, todo - {name})
      ensures old(Observed()) ==> Observed()
      ensures Onward() && Gauged()
    {
      hide Trimmed, Good, Preserved, Drained, Steps.Drop, Indexed, Gauged, Metered, Shows, Beside, SameServices,
           Within, Inv, Live, Linked;
      TrimmedService(s, View(), snapshot, todo, name);
      var v := services[name];
      ghost var t := View();
      if name in snapshot && svcs[v].config == snapshot[name] {
        TrimKeep(s, t, snapshot, todo, name);
        PreservedKeep(s.graph, t.graph, t.graph, snapshot, todo, name);
        return;
      }
      StopChanged(snapshot, name, s, todo);
      TrimmedService(s, View(), snapshot, todo, name);
      if name !in snapshot || svcs[v].config.listen != snapshot[name].listen {
        Forget(snapshot, name, s, todo);
      } else {
        TrimKeep(s, View(), snapshot, todo, name);
      }
    }

    /** A changed service that is gone, or listens elsewhere, loses its name and its listener. */
    method Forget(snapshot: Snapshot, name: string, ghost s: State, ghost todo: set<string>)
      requires Good(s) && Trimmed(s, View(), snapshot, todo) && name in todo && name in s.graph.services
      requires Preserved(s.graph, Objects(), snapshot, todo - {name})
      requires Drained(Objects(), name) && !SameListen(s.graph, snapshot, name)
      modifies `services, `listeners, `sockets
      ensures Trimmed(s, View(), snapshot, todo - {name}) && Preserved(s.graph, Objects(), snapshot, todo - {name})
      ensures old(Observed()) ==> Observed()
    {
      hide Trimmed, Good, Preserved, Drained, Steps.Drop, Indexed, SameListen, Metered, Inv;
      TrimmedService(s, View(), snapshot, todo, name);
      TrimDrop(s, View(), snapshot, todo, name);
      ghost var u := View();
      DropName(name);
      DropKeeps(u, name);
      PreservedKeep(s.graph, u.graph, Objects(), snapshot, todo - {name}, name);
      assert todo - {name} - {name} == todo - {name};
    }

    method StopChanged(snapshot: Snapshot, name: string, ghost s: State, ghost todo: set<string>)
      requires Good(s) && Trimmed(s, View(), snapshot, todo) && name in todo && name in s.graph.services
      requires !Unchanged(s.graph, snapshot, name)
      requires Preserved(s.graph, Objects(), snapshot, todo)
      requires Gauged()
      modifies this
      ensures Trimmed(s, View(), snapshot, todo) && Preserved(s.graph, Objects(), snapshot, todo - {name})
      ensures Drained(Objects(), name)
      ensures old(Observed()) ==> Observed()
      ensures Onward() && Gauged()
    {
      hide Trimmed, Good, Fading, Spared, Within, Inv, Continues, Preserved, Indexed, StopEach, Enumerates, Gauged,
           Metered, Shows, Beside, SameServices;
      TrimmedService(s, View(), snapshot, todo, name);
      TrimmedGraphs(s, View(), snapshot, todo);
      ghost var t, x := View(), Metering();
      ghost var order := StopAll(services[name]);
      TrimFade(s, t, View(), snapshot, todo);
      WithinTables(t, View());
      ServicesWithin(t, View());
      if Metered(x, missed) { BesideMetered(x, Metering(), services[name], missed); }
      PreservedStop(s.graph, t.graph, Objects(), snapshot, todo, name);
    }

    method DropName(name: string)
      requires name in services && services[name] in svcs
      modifies `services, `listeners, `sockets
      ensures View() == Steps.Drop(old(View()), name)
      ensures old(Observed()) ==> Observed()
    {
      hide Metered;
      if Metered(Metering(), missed) { DropMetered(Metering(), name, missed); }
      CloseListener(svcs[services[name]].listener);
      services := services - {name};
    }

    method TrimServices(snapshot: Snapshot)
      requires Good(View())
      requires Gauged()
      modifies this
      ensures Trimmed(old(View()), View(), snapshot, {}) && Preserved(old(Objects()), Objects(), snapshot, {})
      ensures old(Observed()) ==> Observed()
      ensures Onward() && Gauged()
    {
      hide Trimmed, Good, Preserved, Gauged, Metered, Shows, Beside, SameServices;
      ghost var s := View();
      TrimmedStarts(s, snapshot);
      TrimmedGraphs(s, s, snapshot, services.Keys);
      PreservedStarts(s.graph, snapshot);
      var todo := services.Keys;
      while todo != {}
        invariant Trimmed(s, View(), snapshot, todo) && Preserved(s.graph, Objects(), snapshot, todo)
        invariant todo <= s.graph.services.Keys
        invariant Onward() && Gauged() && (old(Observed()) ==> Observed())
        decreases |todo|
      {
        var name :| name in todo;
        TrimService(snapshot, name, s, todo);
        todo := todo - {name};
      }
    }

    /** One round of the installing loop; `g` is the graph that apply began with. */
    method InstallService(snapshot: Snapshot, staged: map<string, nat>, name: string, ghost s: State, ghost g: Graph,
              ghost todo: set<string>)
      requires Prepared(s, snapshot, staged) && Installing(s, View(), snapshot, staged, todo) && name in todo
      requires name in snapshot
      requires missed <= gauges.Keys
      requires snapshot[name].Valid() && snapshot[name].name == name
      requires Named(g) && SameNames(g, s.graph, snapshot) && Preserved(g, Objects(), snapshot, {})
      modifies `services, `svcs, `procs, `listeners
      ensures Installing(s, View(), snapshot, staged, todo - {name}) && Preserved(g, Objects(), snapshot, {})
      ensures old(Observed()) ==> Observed()
    {
      hide Installing, Prepared, Good, Steps.Install, Preserved, Named, Metered;
      InstallingGood(s, View(), snapshot, staged, todo);
      InstallingNames(s, View(), snapshot, staged, todo, name);
      if name in services && svcs[services[name]].config == snapshot[name] {
        InstallSkip(s, View(), snapshot, staged, todo, name);
        return;
      }
      var v := Allocate();
      ReadyToInstall(s, View(), snapshot, staged, todo, name, v);
      InstallOne(s, View(), snapshot, staged, todo, name, v);
      StillChanged(g, s, View(), snapshot, staged, todo, name);
      PreservedInstall(g, View(), snapshot, name, snapshot[name], v, ListenerFor(Objects(), staged, name));
      if Metered(Metering(), missed) {
        InstallMetered(Metering(), View(), name, snapshot[name], v, ListenerFor(Objects(), staged, name), missed);
      }
      Install(name, snapshot[name], v, ListenerFor(Objects(), staged, name));
    }

    /** The new service object takes over its predecessor's listener and workers. */
    method Install(name: string, app: App, v: nat, listener: Option<nat>)
      modifies `services, `svcs, `procs, `listeners
      ensures View() == Steps.Install(old(View()), name, app, v, listener)
    {
      hide Steps.Inherited, Steps.Adopted;
      var inherited := Steps.Inherited(Objects(), name);
      if name in services {
        svcs := svcs - {services[name]};
      }
      Adopt(inherited, v);
      services := services[name := v];
      svcs := svcs[v := Service(name, app, listener, inherited, false, false, app.plan.Next(clock), None, None, 0,
          None, clock)];
      if listener.Some? {
        listeners := listeners[listener.value := v];
      }
    }

    method Adopt(inherited: set<nat>, v: nat)
      modifies `procs
      ensures procs == Steps.Adopted(old(procs), inherited, v)
    {
      procs := map p | p in procs :: if p in inherited then procs[p].(service := v) else procs[p];
    }

    method InstallServices(snapshot: Snapshot, staged: map<string, nat>, ghost g: Graph)
      requires missed <= gauges.Keys
      requires Good(View()) && Prepared(View(), snapshot, staged) && Loaded(snapshot)
      requires Named(g) && SameNames(g, Objects(), snapshot) && Preserved(g, Objects(), snapshot, {})
      modifies `services, `svcs, `procs, `listeners
      ensures Installing(old(View()), View(), snapshot, staged, {}) && Preserved(g, Objects(), snapshot, {})
      ensures old(Observed()) ==> Observed()
    {
      hide Installing, Prepared, Good, Dependencies.Sound, Preserved, Named, SameNames, Metered;
      ghost var s := View();
      InstallingStarts(s, snapshot, staged);
      var todo := snapshot.Keys;
      while todo != {}
        invariant todo <= snapshot.Keys && Installing(s, View(), snapshot, staged, todo)
        invariant Preserved(g, Objects(), snapshot, {}) && (old(Observed()) ==> Observed())
        decreases |todo|
      {
        var name :| name in todo;
        InstallService(snapshot, staged, name, s, g, todo);
        todo := todo - {name};
      }
    }

    /** apply: either the snapshot takes effect, or nothing has happened but the use
        of some listener identifiers. */
    method Apply(snapshot: Snapshot) returns (ok: bool)
      requires Valid() && Loaded(snapshot)
      modifies this
      ensures !ok ==> View() == old(View()).(nextListener := nextListener)
      ensures ok ==> Applied(old(View()), View(), snapshot)
      ensures Continues(old(View()), View()) && Valid()
      ensures Onward()
    {
      hide Good, Staged, Covers, Trimmed, Prepared, Installing, Continues, Dependencies.Sound, Installed, Applied,
           Preserved, SameNames, Named, Gauged, Inv, Bounded, Reserved, Wired, Metered;
      ghost var s := View();
      var staged: map<string, nat>;
      staged, ok := OpenListeners(snapshot);
      // Socket permissions are finished after the listeners are open; they may fail too.
      var permitted: bool := *;
      ok := ok && permitted;
      if !ok {
        CloseStaged(staged, s);
        ContinuesGood(s, View());
        return;
      }
      TakeEffect(snapshot, staged, s);
    }

    /** The snapshot takes effect, once its listeners are open. */
    method TakeEffect(snapshot: Snapshot, staged: map<string, nat>, ghost s: State)
      requires Good(s) && s.sockets == s.listeners.Keys && Dependencies.Sound(Installed(s.graph))
      requires Loaded(snapshot) && Staged(s, View(), staged) && Covers(s.graph, snapshot, staged)
      requires Gauged()
      modifies this
      ensures Applied(s, View(), snapshot) && Continues(s, View())
      ensures Good(View()) && sockets == listeners.Keys && Dependencies.Sound(Installed(Objects()))
      ensures old(Observed()) ==> Observed()
      ensures Onward() && Gauged()
    {
      hide Good, Staged, Covers, Trimmed, Prepared, Installing, Continues, Dependencies.Sound, Installed, Applied,
           Preserved, SameNames, Named, Gauged, Inv, Bounded, Reserved, Wired, Metered;
      ghost var t := View();
      StagedContinues(s, t, staged);
      ContinuesGood(s, t);
      TrimServices(snapshot);
      ghost var u := View();
      TrimmedContinues(t, u, snapshot, {});
      StagedGraph(s, t, staged);
      PreparedBy(s, t, u, snapshot, staged);
      TrimmedNames(t, u, snapshot);
      GaugedTracks();
      InstallServices(snapshot, staged, s.graph);
      InstallingGood(u, View(), snapshot, staged, {});
      ApplyDone(s, t, u, View(), snapshot, staged);
      ContinuesThrough(s, t, u);
      ContinuesThrough(s, u, View());
      AppliedValid(s, View(), snapshot);
    }

    // ------------------------------------------------ the rest of the loop

    constructor (now: int)
      ensures View() == Initial(now) && Valid() && !fatal
    {
      clock, services, svcs, workers, procs, cycles := now, map[], map[], {}, map[], map[];
      runs, begun, inflight, actionTasks := map[], {}, multiset{}, 0;
      listeners, nextListener, sockets, fatal, stopping := map[], 0, {}, false, false;
      gauges, record, passed, missed := map[], [], [], {};
      new;
      hide Good, AllTrack, AllIntegrate, Dependencies.Sound, ReadingOf;
      ManagerRuns.InitialGood(now);
      NothingTracked(now);
      NothingIntegrated(now);
      NothingInstalled(Objects());
    }

    /** The next turn reads a time that is not earlier. */
    method Wake(now: int)
      requires Valid() && clock <= now
      modifies `clock, `passed, `missed
      ensures View() == old(View()).(clock := now) && ManagerRuns.Path(old(View()), View()) && Valid()
      ensures passed == old(passed) + [Span(old(clock), now, Objects())] && old(missed) <= missed
      ensures ManagerStopping.TurnTaken(old(View()), ManagerStopping.Waking(now), View())
    {
      hide Good, ManagerRuns.Path, Dependencies.Sound, Installed, AllTrack, AllIntegrate, AllShow, NoneMissed,
           Missing;
      WakePath(View(), now);
      WakeTracks(gauges, record, clock, now);
      WakeAllIntegrate(gauges, passed, missed, clock, now, Objects());
      if !stopping { NoneMissedAwake(gauges, Objects(), missed); }
      passed := passed + [Span(clock, now, Objects())];
      missed := missed + Missing(gauges, Objects());
      clock := now;
    }

    /** Files changed: restart the services whose configuration is still the watched one. */
    method FilesChanged(restarts: map<string, App>)
      requires Valid()
      modifies this
      ensures Restarted(old(Objects()), Objects(), restarts, {})
      ensures Within(old(View()), View()) && Valid()
      ensures Onward()
    {
      hide Good, Within, Dependencies.Sound, Installed, Restarted, Spared, StopEach, Enumerates, ServiceLists,
           Gauged, Metered, Shows, Beside, SameServices;
      ghost var s := View();
      WithinReflexive(s);
      RestartedStarts(s.graph, restarts);
      var todo := restarts.Keys;
      while todo != {}
        invariant todo <= restarts.Keys && Within(s, View()) && Restarted(s.graph, Objects(), restarts, todo)
        invariant Onward() && Gauged() && (old(Observed()) ==> Observed())
        decreases |todo|
      {
        var name :| name in todo;
        ghost var t, x := View(), Metering();
        WithinGood(s, t);
        WatchedNow(s, t, restarts, name);
        if name in services && svcs[services[name]].config == restarts[name] {
          ghost var order := Restart(services[name]);
          WithinTransitive(s, t, View());
          ServicesWithin(t, View());
          if Metered(x, missed) { BesideMetered(x, Metering(), services[name], missed); }
          RestartedStep(s.graph, t.graph, Objects(), restarts, todo, name);
        } else {
          RestartedSkip(s.graph, t.graph, restarts, todo, name);
        }
        todo := todo - {name};
      }
      WithinValid(s, View());
    }

    method Unlisten(v: nat)
      requires v in svcs
      modifies `svcs, `listeners, `sockets
      ensures View() == Steps.Unlisten(old(View()), v)
      ensures old(Observed()) ==> Observed()
    {
      hide Metered;
      if Metered(Metering(), missed) { UnlistenMetered(gauges, View(), v, missed); }
      CloseListener(svcs[v].listener);
      svcs := svcs[v := svcs[v].(listener := None)];
    }

    method CloseOne(name: string, ghost s: State, ghost todo: set<string>)
      requires name in todo && todo <= services.Keys && ManagerApply.Closing(s, View(), todo)
      modifies `svcs, `listeners, `sockets
      ensures ManagerApply.Closing(s, View(), todo - {name})
      ensures old(Observed()) ==> Observed()
    {
      hide Good, ManagerApply.Closing, Steps.Unlisten, Metered;
      ClosingService(s, View(), todo, name);
      var v := services[name];
      if svcs[v].listener.Some? {
        ClosingStep(s, View(), todo, name);
        Unlisten(v);
      } else {
        ClosingSkip(s, View(), todo, name);
      }
    }

    /** shutdown's loop over the services. */
    method CloseListeners()
      requires Valid()
      modifies `svcs, `listeners, `sockets
      ensures View() == Unlistened(old(View())) && Valid()
      ensures Continues(old(View()), View())
    {
      hide Good, Continues, Dependencies.Sound, Installed, ManagerApply.Closing, Steps.Unlisten, Metered, Gauged,
           Inv, SameServices;
      ghost var s := View();
      ClosingStarts(s);
      var todo := services.Keys;
      while todo != {}
        invariant todo <= services.Keys && ManagerApply.Closing(s, View(), todo)
        invariant old(Observed()) ==> Observed()
        decreases |todo|
      {
        var name :| name in todo;
        CloseOne(name, s, todo);
        todo := todo - {name};
      }
      ClosingEnds(s, View());
    }

    /** shutdown: the listeners close, and a first tick of the stopping loop follows. */
    method Shutdown(reading: Schedule.Reading) returns (ghost account: Account)
      requires Valid()
      modifies this
      ensures Explains(account, Unlistened(old(View())), View(), true, reading)
      ensures stopping && listeners == map[] && sockets == {}
      ensures workers == {} || workers < old(workers) || exists w <- workers :: w in procs && !procs[w].Active()
      ensures Continues(old(View()), View()) && Valid()
      ensures clock == old(clock) && passed == old(passed) && old(record) <= record
    {
      hide Good, Continues, Within, Dependencies.Sound, Installed, Explains, Unlistened, Gauged, Metered;
      ghost var s := View();
      CloseListeners();
      UnlistenedTables(s);
      ghost var t := View();
      stopping := true;
      account := Tick(reading, false);
      WithinContinues(s, t, View());
      WithinTables(t, View());
    }

    /** Between any two turns of a running loop a followed service's window shows what its
        workers do, and holds the integral of what they did since it began. */
    lemma WindowMeasures(v: nat)
      requires Valid() && !stopping && Continuous(Objects(), v)
      ensures Matches(WindowOf(gauges, v), ReadingOf(Objects(), v))
      ensures var w := WindowOf(gauges, v);
        && (w.Window? ==> Integrated(w, passed, v, clock))
        && (w.Window? ==> 0.0 <= w.area + Pressure.Swept(w.value, w.last, clock) <= (clock - w.since) as real)
    {
      hide Good, Dependencies.Sound, Installed, Metered, AllIntegrate, AllTrack, Matches, ReadingOf, Integrated;
      WindowsMeasure(Metering(), passed, missed, clock, v);
    }

    /** The condition on which the loop returns. */
    predicate Done()
      reads this
    {
      stopping && workers == {} && actionTasks == 0
    }

    /** The stopping loop returns exactly when a shutdown is over. */
    lemma DoneMeansOver()
      requires Valid() && stopping
      ensures Done() <==> !ManagerShutdown.Busy(View())
    {
      hide Dependencies.Sound, Gauged, Observed;
      ManagerStopping.TasksCounted(View());
    }
  }

  /** Reaching a phase of one scope leaves the answers of another alone. */
  lemma OtherScope(b: Board, scope: Scope, reached: Scope, event: Event, bindings: seq<Binding>, now: int)
    requires scope != reached
    ensures PhaseOk(Reach(b, reached, event, bindings, now), scope, event) == PhaseOk(b, scope, event)
  {
    var c := Reach(b, reached, event, bindings, now);
    assert forall r <- b.runs | r.scope == scope :: r in c.runs && c.runs[r] == b.runs[r];
    assert forall r <- c.runs | r.scope == scope :: r in b.runs;
  }
}
