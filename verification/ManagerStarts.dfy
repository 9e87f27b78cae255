/** When a process may be started: only by a tick, only while the dependencies of its
    service are ready, and a scheduled one only when there is room for it. */
module ManagerStarts {
  import opened ActionBoard
  import opened ManagerState
  import opened ManagerSteps
  import opened ManagerInvariant
  import opened ManagerHistory
  import opened ManagerTable
  import opened ManagerTick
  import opened Activation

  /** How far a process has come: not known, reserved, or created. */
  function Progress(g: Graph, p: nat): nat {
    if p in g.procs then 1 + g.procs[p].starts else 0
  }

  /** `p` has been reserved, or created by the system, on the way from `g` to `h`. */
  predicate Starts(g: Graph, h: Graph, p: nat) {
    Progress(g, p) < Progress(h, p)
  }

  lemma NoneStartedReflexive(g: Graph)
    ensures NoneStarted(g, g)
  {
  }

  // ------------------------------------------------- what does not start anything

  lemma LifecycleStarts(s: State, p: nat, now: int)
    requires Linked(s.graph, p)
    ensures NoneStarted(s.graph, Lifecycle(s, p, now).graph)
  {
    hide LifecycleExited, LifecycleStopping, LifecycleActive;
  }

  lemma HaltStarts(s: State, p: nat, now: int, failed: bool)
    requires Linked(s.graph, p)
    ensures NoneStarted(s.graph, Halt(s, p, now, failed).graph)
  {
    hide Withdraw;
  }

  lemma StopStarts(s: State, p: nat, now: int, failed: bool)
    requires Linked(s.graph, p)
    ensures NoneStarted(s.graph, Stop(s, p, now, failed).graph)
  {
    hide Halt, Lifecycle, NoneStarted;
    if s.graph.procs[p].stopping.Some? {
      assert NoneStarted(s.graph, Stop(s, p, now, failed).graph) by { MarkStarts(s, p, now, failed); }
    } else {
      HaltStarts(s, p, now, failed);
      LifecycleStarts(Halt(s, p, now, failed), p, now);
      NoneStartedTransitive(s.graph, Halt(s, p, now, failed).graph, Stop(s, p, now, failed).graph);
    }
  }

  lemma MarkStarts(s: State, p: nat, now: int, failed: bool)
    requires Linked(s.graph, p) && s.graph.procs[p].stopping.Some?
    ensures NoneStarted(s.graph, Stop(s, p, now, failed).graph)
  {
  }

  lemma {:induction false} StopEachStarts(s: State, order: seq<nat>, failed: bool)
    ensures NoneStarted(s.graph, StopEach(s, order, failed).graph)
    decreases |order|
  {
    hide Stop, NoneStarted;
    if order == [] {
      NoneStartedReflexive(s.graph);
    } else {
      var rest, p := order[..|order| - 1], order[|order| - 1];
      var t := StopEach(s, rest, failed);
      StopEachStarts(s, rest, failed);
      if Linked(t.graph, p) {
        StopStarts(t, p, s.clock, failed);
        NoneStartedTransitive(s.graph, t.graph, Stop(t, p, s.clock, failed).graph);
      }
    }
  }

  lemma StopIfStarts(s: State, p: nat, now: int, reason: bool)
    requires Linked(s.graph, p)
    ensures NoneStarted(s.graph, StopIf(s, p, now, reason).graph)
  {
    hide Stop, NoneStarted;
    if reason { StopStarts(s, p, now, true); } else { NoneStartedReflexive(s.graph); }
  }

  lemma SmallStarts(s: State, p: nat, now: int)
    requires Linked(s.graph, p)
    ensures NoneStarted(s.graph, KillOverdue(s, p, now).graph) && NoneStarted(s.graph, Probe(s, p, now).graph)
    ensures NoneStarted(s.graph, Settle(s, p, now).graph)
  {
  }

  lemma InspectStarts(s: State, p: nat, now: int)
    requires Linked(s.graph, p)
    ensures NoneStarted(s.graph, Inspect(s, p, now).graph)
  {
    hide Lifecycle, Stop, InspectActive, KillOverdue, NoneStarted, Exhausted, Confined, OnlyWorkers, SameMarks;
    var t := Lifecycle(s, p, now);
    LifecycleStarts(s, p, now);
    assert Linked(t.graph, p) by { LifecycleLinked(s, p, now); }
    var child := t.graph.procs[p];
    if child.exited {
    } else {
      if child.stopping.Some? {
        SmallStarts(t, p, now);
      } else if Exhausted(child, now) {
        StopStarts(t, p, now, true);
      } else {
        InspectActiveStarts(t, p, now);
      }
      NoneStartedTransitive(s.graph, t.graph, Inspect(s, p, now).graph);
    }
  }

  lemma LifecycleLinked(s: State, p: nat, now: int)
    requires Linked(s.graph, p)
    ensures Linked(Lifecycle(s, p, now).graph, p)
  {
    hide Lifecycle;
  }

  lemma InspectActiveStarts(s: State, p: nat, now: int)
    requires Linked(s.graph, p)
    ensures NoneStarted(s.graph, InspectActive(s, p, now).graph)
  {
    hide StopIf, Probe, Settle, Late, Stuck, NoneStarted;
    var u := StopIf(s, p, now, Late(s.graph.procs[p], now));
    StopIfStarts(s, p, now, Late(s.graph.procs[p], now));
    var v := Probe(u, p, now);
    SmallStarts(u, p, now);
    NoneStartedTransitive(s.graph, u.graph, v.graph);
    var w := StopIf(v, p, now, Stuck(v.graph.procs[p], now));
    StopIfStarts(v, p, now, Stuck(v.graph.procs[p], now));
    NoneStartedTransitive(s.graph, v.graph, w.graph);
    SmallStarts(w, p, now);
    NoneStartedTransitive(s.graph, w.graph, Settle(w, p, now).graph);
  }

  lemma {:induction false} InspectAllStarts(s: State, order: seq<nat>)
    ensures NoneStarted(s.graph, InspectAll(s, order).graph)
    decreases |order|
  {
    hide Inspect, NoneStarted;
    if order == [] {
      NoneStartedReflexive(s.graph);
    } else {
      var rest, p := order[..|order| - 1], order[|order| - 1];
      var t := InspectAll(s, rest);
      InspectAllStarts(s, rest);
      if Linked(t.graph, p) {
        InspectStarts(t, p, s.clock);
        NoneStartedTransitive(s.graph, t.graph, Inspect(t, p, s.clock).graph);
      }
    }
  }

  lemma {:induction false} ScanAllStarts(s: State, order: seq<nat>)
    ensures NoneStarted(s.graph, ScanAll(s, order).graph)
    decreases |order|
  {
    hide Stop, HasDependent, NoneStarted;
    if order == [] {
      NoneStartedReflexive(s.graph);
    } else {
      var rest, p := order[..|order| - 1], order[|order| - 1];
      var t := ScanAll(s, rest);
      ScanAllStarts(s, rest);
      if Linked(t.graph, p) {
        StopStarts(t, p, s.clock, false);
        NoneStartedTransitive(s.graph, t.graph, Stop(t, p, s.clock, false).graph);
      }
    }
  }

  /** A stopping loop starts nothing. */
  lemma StoppingStartsNothing(a: Account, s: State, t: State, reading: Schedule.Reading)
    requires Explains(a, s, t, true, reading)
    ensures NoneStarted(s.graph, t.graph)
  {
    hide InspectAll, ScanAll, NoneStarted;
    InspectAllStarts(s, a.order);
    ScanAllStarts(a.inspected, a.scan);
    NoneStartedTransitive(s.graph, a.inspected.graph, t.graph);
  }

  lemma AnswerStarts(s: State, msg: Message)
    requires msg.AboutProcess() && Linked(s.graph, msg.process)
    ensures NoneStarted(s.graph, Answer(s, msg).graph)
  {
    hide Stop, ProcessExit, ProbeResult, Handshake, StreamError, RequestStart, RequestEnd, NoneStarted;
    var p := msg.process;
    match msg
    case Exited(_) => ExitStarts(s, p);
    case Probed(_, ready) => ProbeStarts(s, p, ready);
    case Hello(_, ready) => HelloStarts(s, p, ready);
    case Started(_, id) => RequestStarts(s, p, id);
    case Ended(_, id) => RequestStarts(s, p, id);
    case Broken(_) => BrokenStarts(s, p);
    case ReadyAgain(_) => StopStarts(s, p, s.clock, true);
  }

  lemma LostStarts(s: State, p: nat, now: int)
    requires Linked(s.graph, p)
    ensures NoneStarted(s.graph, Lost(s, p, now).graph)
  {
    hide Withdraw;
  }

  lemma ExitStarts(s: State, p: nat)
    requires Linked(s.graph, p)
    ensures NoneStarted(s.graph, ProcessExit(s, p, s.clock).graph)
  {
    hide Lifecycle, Lost, NoneStarted;
    LostStarts(s, p, s.clock);
    assert Linked(Lost(s, p, s.clock).graph, p) by { LostLinked(s, p); }
    LifecycleStarts(Lost(s, p, s.clock), p, s.clock);
    NoneStartedTransitive(s.graph, Lost(s, p, s.clock).graph, ProcessExit(s, p, s.clock).graph);
  }

  lemma LostLinked(s: State, p: nat)
    requires Linked(s.graph, p)
    ensures Linked(Lost(s, p, s.clock).graph, p)
  {
    hide Withdraw;
  }

  lemma ProbeStarts(s: State, p: nat, ready: bool)
    requires Linked(s.graph, p)
    ensures NoneStarted(s.graph, ProbeResult(s, p, ready, s.clock).graph)
  {
  }

  lemma HelloStarts(s: State, p: nat, ready: bool)
    requires Linked(s.graph, p)
    ensures NoneStarted(s.graph, Handshake(s, p, ready, s.clock).graph)
  {
    hide Stop;
    StopStarts(WithProc(s, p, Greeted(s.graph.procs[p], ready, s.clock)), p, s.clock, true);
  }

  lemma BrokenStarts(s: State, p: nat)
    requires Linked(s.graph, p)
    ensures NoneStarted(s.graph, StreamError(s, p, s.clock).graph)
  {
    hide Stop;
    StopStarts(s, p, s.clock, true);
  }

  lemma RequestStarts(s: State, p: nat, id: string)
    requires Linked(s.graph, p)
    ensures NoneStarted(s.graph, RequestStart(s, p, id, s.clock).graph)
    ensures NoneStarted(s.graph, RequestEnd(s, p, id, s.clock).graph)
  {
    hide Stop;
    StopStarts(s, p, s.clock, true);
  }

  /** Messages start nothing either: demand waits for the next tick. */
  lemma MessagesStartNothing(s: State, t: State, msg: Message, order: seq<nat>)
    requires Handled(s, t, msg, order)
    ensures NoneStarted(s.graph, t.graph)
  {
    hide Answer, Collect, StopEach, NoneStarted, Retires;
    NoneStartedReflexive(s.graph);
    match msg
    case ActionDone(r, ok) =>
      var u := s.(board := Collect(s.board, r, ok, s.clock));
      StopEachStarts(u, order, true);
    case Readable(_) => assert NoneStarted(s.graph, t.graph) by { SameProcesses(s.graph, t.graph); }
    case PollFailed =>
    case _ => if Linked(s.graph, msg.process) { AnswerStarts(s, msg); }
  }

  lemma SameProcesses(g: Graph, h: Graph)
    requires h.procs == g.procs
    ensures NoneStarted(g, h)
  {
  }

  // ---------------------------------------------------------- what starts one

  lemma StartOneStarts(s: State, p: nat, ok: bool)
    ensures var h := StartOne(s, p, ok).graph;
      && h.procs.Keys == s.graph.procs.Keys
      && forall q <- s.graph.procs ::
           h.procs[q].service == s.graph.procs[q].service && (q != p ==> h.procs[q] == s.graph.procs[q])
  {
    hide StartPending;
  }

  lemma {:induction false} StartEachStarts(s: State, order: seq<nat>, granted: set<nat>)
    ensures var h := StartEach(s, order, granted).graph;
      && h.procs.Keys == s.graph.procs.Keys
      && forall q <- s.graph.procs ::
           h.procs[q].service == s.graph.procs[q].service && (q !in order ==> h.procs[q] == s.graph.procs[q])
    decreases |order|
  {
    hide StartOne;
    if order != [] {
      StartEachStarts(s, order[..|order| - 1], granted);
      StartOneStarts(StartEach(s, order[..|order| - 1], granted), order[|order| - 1], order[|order| - 1] in granted);
    }
  }

  lemma SpawnStarts(s: State, v: nat, p: nat, c: nat, now: int, ok: bool)
    requires v in s.graph.svcs && p !in s.graph.procs
    ensures var h := Spawn(s, v, p, c, now, ok).graph;
      && h.procs.Keys == s.graph.procs.Keys + {p} && h.procs[p].service == v
      && forall q <- s.graph.procs :: h.procs[q] == s.graph.procs[q]
  {
    hide Admitted;
    var r := s.(graph := Reserve(s.graph, v, p, c, now));
    assert Linked(r.graph, p) && Confined(r.graph, Admitted(r, p, now, ok).graph, p);
  }

  /** Only processes of service `v` have been started. */
  ghost predicate OnlyOf(g: Graph, h: Graph, v: nat) {
    && g.procs.Keys <= h.procs.Keys
    && forall p <- h.procs :: if p in g.procs then h.procs[p].starts != g.procs[p].starts ==> g.procs[p].service == v
         else h.procs[p].service == v
  }

  lemma OnlyOfJoin(g: Graph, h: Graph, k: Graph, v: nat)
    requires OnlyOf(g, h, v) && OnlyOf(h, k, v) && SameHomes(g, h) && SameHomes(h, k)
    ensures OnlyOf(g, k, v) && SameHomes(g, k)
  {
  }

  /** A process keeps its service. */
  ghost predicate SameHomes(g: Graph, h: Graph) {
    forall p <- g.procs :: p in h.procs && h.procs[p].service == g.procs[p].service
  }

  lemma QuietOnly(g: Graph, h: Graph, v: nat)
    requires NoneStarted(g, h)
    ensures OnlyOf(g, h, v)
  {
  }

  lemma ServiceMembers(s: State, v: nat)
    requires Good(s) && v in s.graph.svcs
    ensures forall p <- s.graph.svcs[v].workers :: p in s.graph.procs && s.graph.procs[p].service == v
  {
  }

  lemma ResumedOnly(turn: Turn, v: nat)
    requires Good(turn.before) && v in turn.before.graph.svcs
    requires Enumerates(turn.order, turn.before.graph.svcs[v].workers)
    requires turn.started == StartEach(turn.before, turn.order, turn.granted)
    ensures OnlyOf(turn.before.graph, turn.started.graph, v) && SameHomes(turn.before.graph, turn.started.graph)
  {
    hide StartEach, Good;
    StartEachStarts(turn.before, turn.order, turn.granted);
    ServiceMembers(turn.before, v);
  }

  lemma {:induction false} StopEachHomes(s: State, order: seq<nat>, failed: bool)
    ensures SameHomes(s.graph, StopEach(s, order, failed).graph)
    decreases |order|
  {
    hide Stop;
    if order != [] { StopEachHomes(s, order[..|order| - 1], failed); }
  }

  lemma SpawnOnly(s: State, v: nat, p: nat, c: nat, now: int, ok: bool)
    requires v in s.graph.svcs && p !in s.graph.procs
    ensures OnlyOf(s.graph, Spawn(s, v, p, c, now, ok).graph, v) && SameHomes(s.graph, Spawn(s, v, p, c, now, ok).graph)
  {
    hide Spawn;
    SpawnStarts(s, v, p, c, now, ok);
  }

  lemma PoolOnly(s: State, t: State, v: nat, wanted: bool, required: bool, c: Change)
    requires PoolTurn(s, t, v, wanted, required, c)
    ensures OnlyOf(s.graph, t.graph, v) && SameHomes(s.graph, t.graph)
  {
    hide Spawn, SpawnFails, StopEach, Grows, Retired, IdleOnlyIn, Enumerates, Pool, CycleFor, NoneStarted;
    SpawnOnly(s, v, c.address, CycleFor(s.graph, v, c.address), s.clock, c.answer);
    hide Joins, Reserve;
    StopEachStarts(c.grown, c.gone, false);
    StopEachHomes(c.grown, c.gone, false);
    QuietOnly(c.grown.graph, t.graph, v);
    OnlyOfJoin(s.graph, c.grown.graph, t.graph, v);
  }

  lemma ScheduleOnly(s: State, t: State, v: nat, c: Change)
    requires ScheduleTurn(s, t, v, c)
    ensures OnlyOf(s.graph, t.graph, v) && SameHomes(s.graph, t.graph)
  {
    hide Spawn;
    if s.graph.svcs[v].scheduled {
      SpawnOnly(s.(graph := PutService(s.graph, v, s.graph.svcs[v].(scheduled := false))), v, c.address, c.address,
          s.clock, c.answer);
    }
  }

  /** A round of a tick reserves or creates processes of its service only, and only when
      the dependencies of the service are ready. */
  lemma RoundStarts(turn: Turn, v: nat, wanted: bool, required: bool, p: nat)
    requires ServiceTurn(turn, v, wanted, required) && Starts(turn.before.graph, turn.after.graph, p)
    ensures ManagerState.DependenciesReady(turn.before.graph, turn.before.graph.svcs[v].config, false)
    ensures v in turn.before.graph.svcs && p in turn.after.graph.procs && turn.after.graph.procs[p].service == v
  {
    hide Good, StopEach, NoneStarted, ManagerState.DependenciesReady, ReservationsDone, PoolTurn, ScheduleTurn,
         StartEach, OnlyOf, SameHomes, Starts;
    if !ManagerState.DependenciesReady(turn.before.graph, turn.before.graph.svcs[v].config, false) {
      var t := Wanting(turn.before, v);
      SameProcesses(turn.before.graph, t.graph);
      StopEachStarts(t, turn.order, false);
      NoneStartedTransitive(turn.before.graph, t.graph, turn.after.graph);
      NothingStarts(turn.before.graph, turn.after.graph, p);
    } else {
      ResumedOnly(turn, v);
      if turn.before.graph.svcs[v].config.Scheduled() {
        ScheduleOnly(turn.started, turn.after, v, turn.change);
      } else {
        PoolOnly(turn.started, turn.after, v, wanted, required, turn.change);
      }
      OnlyOfJoin(turn.before.graph, turn.started.graph, turn.after.graph, v);
      OnlyOne(turn.before.graph, turn.after.graph, v, p);
    }
  }

  lemma NothingStarts(g: Graph, h: Graph, p: nat)
    requires NoneStarted(g, h)
    ensures !Starts(g, h, p)
  {
  }

  lemma OnlyOne(g: Graph, h: Graph, v: nat, p: nat)
    requires OnlyOf(g, h, v) && SameHomes(g, h) && Starts(g, h, p)
    ensures p in h.procs && h.procs[p].service == v
  {
  }

  /** The start belongs to one of the rounds. */
  lemma {:induction false} SomeRound(s: State, turns: seq<Turn>, t: State, wanted: set<string>, required: set<string>,
            p: nat) returns (i: nat)
    requires Turns(s, turns, t, wanted, required) && Starts(s.graph, t.graph, p)
    ensures i < |turns| && Starts(turns[i].before.graph, turns[i].after.graph, p)
    decreases |turns|
  {
    hide Turned, Progress;
    var last := turns[|turns| - 1];
    if Starts(last.before.graph, last.after.graph, p) {
      i := |turns| - 1;
    } else {
      i := SomeRound(s, turns[..|turns| - 1], last.before, wanted, required, p);
    }
  }

  /** A tick reserves or creates a process only in the round of its service, and only
      while every dependency of that service that has to be started has a worker which
      runs, and every one that has to be ready has a worker which is. */
  lemma TickStarts(a: Account, s: State, t: State, reading: Schedule.Reading, p: nat) returns (turn: Turn)
    requires Explains(a, s, t, false, reading) && Starts(s.graph, t.graph, p)
    ensures turn in a.turns && turn.name in turn.before.graph.services
    ensures var v := turn.before.graph.services[turn.name];
      && v in turn.before.graph.svcs
           && ManagerState.DependenciesReady(turn.before.graph, turn.before.graph.svcs[v].config, false)
      && p in turn.after.graph.procs && turn.after.graph.procs[p].service == v
  {
    hide InspectAll, ServiceTurn, NoneStarted, Activated, Roots, Installed, Enumerates, ConsideredService,
         ManagerState.DependenciesReady;
    InspectAllStarts(s, a.order);
    SameProcesses(a.inspected.graph, a.considered.graph);
    NoneStartedTransitive(s.graph, a.inspected.graph, a.considered.graph);
    SameProgress(s.graph, a.considered.graph, p);
    var i := SomeRound(a.considered, a.turns, t, a.wanted, a.required, p);
    turn := a.turns[i];
    RoundStarts(turn, turn.before.graph.services[turn.name], turn.name in a.wanted, turn.name in a.required, p);
  }

  lemma SameProgress(g: Graph, h: Graph, p: nat)
    requires NoneStarted(g, h)
    ensures Progress(g, p) == Progress(h, p)
  {
  }

  /** A scheduled service starts an execution only when fewer than its limit are
      unfinished: none at all, if it does not overlap. This holds whatever the
      application was configured to be before. */
  lemma ScheduledStartFindsRoom(turn: Turn, v: nat, wanted: bool, required: bool, p: nat)
    requires ServiceTurn(turn, v, wanted, required) && turn.before.graph.svcs[v].config.Scheduled()
    requires p !in turn.started.graph.procs && Starts(turn.started.graph, turn.after.graph, p)
    ensures v in turn.started.graph.svcs && turn.started.graph.svcs[v].config == turn.before.graph.svcs[v].config
    ensures var service := turn.started.graph.svcs[v];
      && |Executions(turn.started.graph, service.name)| < service.config.Limit()
      && (!service.config.overlap ==> Executions(turn.started.graph, service.name) == {})
  {
    hide StartEach, Enumerates, Spawn, PoolTurn, ManagerPending.StartedOrWaits, Inv, Wired, Bounded, Executions,
         Good, StopEach, ManagerState.DependenciesReady, NoneStarted;
    assert ManagerState.DependenciesReady(turn.before.graph, turn.before.graph.svcs[v].config, false) by {
      if !ManagerState.DependenciesReady(turn.before.graph, turn.before.graph.svcs[v].config, false) {
        RoundStarts(turn, v, wanted, required, p);
      }
    }
    ScheduledFlag(turn, v);
    assert Reserved(turn.started.graph) by { GoodReserved(turn.started); }
  }

  lemma GoodReserved(s: State)
    requires Good(s)
    ensures Reserved(s.graph)
  {
    hide Inv;
  }

  lemma ScheduledFlag(turn: Turn, v: nat)
    requires v in turn.before.graph.svcs && Live(turn.before.graph, v)
    requires ReservationsDone(turn.before, turn.started, v, {})
    ensures v in turn.started.graph.svcs && Live(turn.started.graph, v)
    ensures turn.started.graph.svcs[v].config == turn.before.graph.svcs[v].config
  {
    hide ManagerPending.StartedOrWaits;
    assert SameService(turn.before.graph.svcs[v], turn.started.graph.svcs[v]);
  }
}
