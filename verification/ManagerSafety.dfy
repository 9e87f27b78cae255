/** Every operation of the manager keeps the invariant. */
module ManagerSafety {
  import opened Config
  import opened ActionBoard
  import opened ManagerState
  import opened ManagerSteps
  import opened ManagerInvariant

  // --------------------------------------------- hooks, on an unchanged graph

  lemma BackedStays(g: Graph, b: Board, c: Board, p: nat)
    requires p in g.procs && Backed(g, b, p) && BoardLater(b, c)
    ensures Backed(g, c, p)
  {
    forall scope: Scope, event: Event | HooksPassed(b, scope, event) && event != Health
        ensures HooksPassed(c, scope, event) {
      PassedStays(b, c, scope, event);
    }
  }

  lemma GatedStays(g: Graph, b: Board, c: Board)
    requires Gated(g, b) && BoardLater(b, c)
    ensures Gated(g, c)
  {
    forall p <- g.procs ensures Backed(g, c, p) { BackedStays(g, b, c, p); }
  }

  /** When the source reaches a phase: checks of scopes that count, stop hooks of
      scopes that retire, last hooks of scopes that have exited. */
  predicate Allowed(g: Graph, scope: Scope, event: Event) {
    Reached(g, scope, event) && (event.Check() ==> ScopeActive(g, scope))
  }

  lemma PhaseFitted(s: State, scope: Scope, event: Event, now: int)
    requires Fitted(s.graph, s.board) && Complete(s.graph, s.board)
    ensures Fitted(s.graph, Phase(s, scope, event, now).board)
    ensures Complete(s.graph, Phase(s, scope, event, now).board)
  {
    hide Passed;
    var bindings := BindingsOf(s.graph, scope, event);
    var o := Opened(s.board, scope, event, bindings);
    assert Fitted(s.graph, o) by {
      forall r <- o.runs ensures Fits(s.graph, r, o.runs[r].binding) {
        if r in s.board.runs { assert Fits(s.graph, r, s.board.runs[r].binding); }
      }
    }
    assert Complete(s.graph, o);
    assert Phase(s, scope, event, now).board.runs.Keys == o.runs.Keys;
  }

  lemma PhaseSilenced(s: State, scope: Scope, event: Event, now: int)
    requires Silenced(s.graph, s.board) && Allowed(s.graph, scope, event)
    ensures Silenced(s.graph, Phase(s, scope, event, now).board)
  {
  }

  lemma PhaseKeeps(s: State, scope: Scope, event: Event, now: int)
    requires Inv(s) && Allowed(s.graph, scope, event)
    ensures Inv(Phase(s, scope, event, now))
  {
    var t := Phase(s, scope, event, now);
    ReachSound(s.board, scope, event, BindingsOf(s.graph, scope, event), now);
    ReachLater(s.board, scope, event, BindingsOf(s.graph, scope, event), now);
    PhaseFitted(s, scope, event, now);
    PhaseSilenced(s, scope, event, now);
    GatedStays(s.graph, s.board, t.board);
  }

  lemma CancelKeeps(s: State, scope: Scope, events: set<Event>)
    requires PostStop !in events && Inv(s)
    ensures Inv(s.(board := Cancel(s.board, scope, events)))
  {
    var b := Cancel(s.board, scope, events);
    CancelSound(s.board, scope, events);
    CancelLater(s.board, scope, events);
    GatedStays(s.graph, s.board, b);
    assert Fitted(s.graph, b);
  }

  lemma CollectKeeps(s: State, r: RunRef, ok: bool, now: int)
    requires Inv(s) && r in s.board.inflight
    ensures r in s.board.runs
    ensures Inv(s.(board := Collect(s.board, r, ok, now)))
  {
    assert r in s.board.runs;
    var b := Collect(s.board, r, ok, now);
    CollectSound(s.board, r, ok, now);
    CollectLater(s.board, r, ok, now);
    GatedStays(s.graph, s.board, b);
    assert Fits(s.graph, r, s.board.runs[r].binding);
    assert Fitted(s.graph, b);
  }

  // --------------------------------------------- the graph, on an unchanged board

  /** Whatever a scope has reached, it keeps, and so do its bindings. */
  ghost predicate Follows(g: Graph, h: Graph) {
    forall scope: Scope :: Known(g, scope) ==> Known(h, scope) && SameBindings(g, h, scope) && KeepsReached(g, h, scope)
  }

  ghost predicate SameBindings(g: Graph, h: Graph, scope: Scope) {
    forall event: Event :: BindingsOf(h, scope, event) == BindingsOf(g, scope, event)
  }

  ghost predicate KeepsReached(g: Graph, h: Graph, scope: Scope) {
    forall event: Event :: Reached(g, scope, event) ==> Reached(h, scope, event)
  }

  lemma FollowsKeeps(g: Graph, h: Graph, b: Board)
    requires Follows(g, h) && Fitted(g, b) && Complete(g, b) && Ordered(g, b) && BoardInv(b)
    ensures Fitted(h, b) && Complete(h, b) && Ordered(h, b)
  {
    forall r <- b.runs ensures Fits(h, r, b.runs[r].binding) {
      assert Sound(b, r) && Reached(g, r.scope, r.event) && Known(g, r.scope);
      assert Fits(g, r, b.runs[r].binding);
    }
    forall x <- b.begun ensures Reached(h, x.0, x.1) && SameBindings(g, h, x.0) {
      assert Reached(g, x.0, x.1) && Known(g, x.0);
    }
  }

  lemma PutProcFollows(g: Graph, p: nat, child: Process)
    requires p in g.procs && Onward(g.procs[p], child)
    ensures Follows(g, PutProc(g, p, child))
  {
    var h := PutProc(g, p, child);
    forall scope | Known(g, scope) ensures Known(h, scope) && SameBindings(g, h, scope) && KeepsReached(g, h, scope) {
      if scope.OfCycle? && AllExited(g, scope.cycle) { assert AllExited(h, scope.cycle); }
    }
  }

  lemma DeactivateFollows(g: Graph, p: nat, child: Process)
    requires p in g.procs && Onward(g.procs[p], child)
    ensures Follows(g, Deactivate(g, p, child))
  {
    var h := Deactivate(g, p, child);
    forall scope | Known(g, scope) ensures Known(h, scope) && SameBindings(g, h, scope) && KeepsReached(g, h, scope) {
      if scope.OfCycle? && AllExited(g, scope.cycle) { assert AllExited(h, scope.cycle); }
    }
  }

  lemma RemoveFollows(g: Graph, p: nat)
    requires Linked(g, p)
    ensures Follows(g, Remove(g, p))
  {
    var h := Remove(g, p);
    forall scope | Known(g, scope) ensures Known(h, scope) && SameBindings(g, h, scope) && KeepsReached(g, h, scope) {
      if scope.OfCycle? && AllExited(g, scope.cycle) { assert AllExited(h, scope.cycle); }
    }
  }

  lemma ReserveFollows(g: Graph, v: nat, p: nat, c: nat, now: int)
    requires CycleLists(g) && Admissible(g, v, p, c)
    ensures Follows(g, Reserve(g, v, p, c, now))
  {
    var h := Reserve(g, v, p, c, now);
    forall scope | Known(g, scope) ensures Known(h, scope) && SameBindings(g, h, scope) && KeepsReached(g, h, scope) {
      if scope.OfCycle? && scope.cycle != c && AllExited(g, scope.cycle) {
        forall m <- h.cycles[scope.cycle].members ensures m in g.procs && h.procs[m].exited { }
      }
    }
  }

  // One process object is updated and counts as before.

  /** The end of a request may be recorded, at the current time at the latest. */
  predicate Punctual(s: State, child: Process, next: Process) {
    next.busyUntil == child.busyUntil || (next.busyUntil.Some? && next.busyUntil.value <= s.clock)
  }

  lemma WithProcSilenced(g: Graph, b: Board, p: nat, child: Process)
    requires Silenced(g, b) && p in g.procs && child.Active() == g.procs[p].Active()
    ensures Silenced(PutProc(g, p, child), b)
  {
    PutProcActivity(g, p, child);
    forall r <- b.runs ensures ScopeActive(PutProc(g, p, child), r.scope) == ScopeActive(g, r.scope) { }
  }

  lemma WithProcGated(g: Graph, b: Board, p: nat, child: Process)
    requires Gated(g, b) && p in g.procs && Backed(PutProc(g, p, child), b, p)
    ensures Gated(PutProc(g, p, child), b)
  {
    var h := PutProc(g, p, child);
    forall q <- h.procs ensures Backed(h, b, q) { if q != p { assert Backed(g, b, q); } }
  }

  lemma WithProcTimely(s: State, p: nat, child: Process)
    requires Timely(s.graph, s.clock) && p in s.graph.procs && Punctual(s, s.graph.procs[p], child)
    ensures Timely(PutProc(s.graph, p, child), s.clock) && Timely(Deactivate(s.graph, p, child), s.clock)
  {
  }

  lemma WithProcKeeps(s: State, p: nat, child: Process)
    requires Inv(s) && p in s.graph.procs && Onward(s.graph.procs[p], child)
    requires child.Active() == s.graph.procs[p].Active() && Consistent(child)
    requires Backed(PutProc(s.graph, p, child), s.board, p) && Punctual(s, s.graph.procs[p], child)
    ensures Inv(WithProc(s, p, child))
  {
    PutProcKeeps(s.graph, p, child);
    PutProcFollows(s.graph, p, child);
    FollowsKeeps(s.graph, PutProc(s.graph, p, child), s.board);
    WithProcSilenced(s.graph, s.board, p, child);
    WithProcGated(s.graph, s.board, p, child);
    WithProcTimely(s, p, child);
  }

  // One service object is updated.

  lemma ServiceScopes(g: Graph, b: Board, v: nat, service: Service)
    requires Silenced(g, b) && Gated(g, b)
    ensures Silenced(PutService(g, v, service), b) && Gated(PutService(g, v, service), b)
    ensures Follows(g, PutService(g, v, service))
  {
    var h := PutService(g, v, service);
    forall r <- b.runs ensures ScopeActive(h, r.scope) == ScopeActive(g, r.scope) { }
    forall q <- h.procs ensures Backed(h, b, q) { assert Backed(g, b, q); }
  }

  lemma ServiceKeeps(s: State, v: nat, service: Service)
    requires Inv(s) && v in s.graph.svcs
    requires service.name == s.graph.svcs[v].name && service.workers == s.graph.svcs[v].workers
    requires service.config == s.graph.svcs[v].config && service.cycle == s.graph.svcs[v].cycle
    ensures Inv(s.(graph := PutService(s.graph, v, service)))
  {
    PutServiceKeeps(s.graph, v, service);
    ServiceScopes(s.graph, s.board, v, service);
    FollowsKeeps(s.graph, PutService(s.graph, v, service), s.board);
  }

  // One process stops counting.

  lemma WithdrawSilenced(s: State, p: nat, child: Process)
    requires Silenced(s.graph, s.board) && CycleLists(s.graph) && p in s.graph.procs
    requires SameObject(s.graph.procs[p], child) && !child.Active()
    ensures Silenced(Withdraw(s, p, child).graph, Withdraw(s, p, child).board)
  {
    var t := Withdraw(s, p, child);
    DeactivateActivity(s.graph, p, child);
    forall r <- t.board.runs | r.event.Check() && !ScopeActive(t.graph, r.scope) ensures t.board.runs[r].cancelled {
      if ScopeActive(s.graph, r.scope) {
        assert r.scope == OfWorker(p) || r.scope == OfCycle(child.cycle);
      }
    }
  }

  lemma DeactivateGated(g: Graph, b: Board, p: nat, child: Process)
    requires Gated(g, b) && p in g.procs && p in g.workers && SameObject(g.procs[p], child)
    requires !child.ready && child.pending == g.procs[p].pending
    ensures Gated(Deactivate(g, p, child), b)
  {
    var h := Deactivate(g, p, child);
    forall q <- h.procs ensures Backed(h, b, q) { assert Backed(g, b, q); }
  }

  /** What does not depend on which scopes count. */
  ghost predicate Steady(g: Graph, b: Board) {
    BoardInv(b) && Fitted(g, b) && Complete(g, b) && Ordered(g, b) && Gated(g, b)
  }

  lemma CancelSteady(g: Graph, b: Board, scope: Scope)
    requires Steady(g, b)
    ensures Steady(g, Cancel(b, scope, CHECKS))
  {
    var c := Cancel(b, scope, CHECKS);
    CancelSound(b, scope, CHECKS);
    CancelLater(b, scope, CHECKS);
    GatedStays(g, b, c);
    assert Fitted(g, c);
  }

  lemma WithdrawKeeps(s: State, p: nat, child: Process)
    requires Inv(s) && p in s.graph.workers && p in s.graph.procs && Onward(s.graph.procs[p], child)
    requires !child.Active() && !child.ready && Consistent(child) && child.pending == s.graph.procs[p].pending
    requires child.busyUntil == s.graph.procs[p].busyUntil
    ensures Inv(Withdraw(s, p, child))
  {
    hide BoardInv, Fitted, Complete, Silenced, Ordered, Gated, ActionBoard.Cancel;
    var g, h := s.graph, Deactivate(s.graph, p, child);
    DeactivateKeeps(g, p, child);
    DeactivateFollows(g, p, child);
    FollowsKeeps(g, h, s.board);
    DeactivateGated(g, s.board, p, child);
    CancelSteady(h, s.board, OfWorker(p));
    CancelSteady(h, Cancel(s.board, OfWorker(p), CHECKS), OfCycle(child.cycle));
    WithdrawSilenced(s, p, child);
    WithProcTimely(s, p, child);
  }

  // One process leaves.

  lemma RemoveSilenced(g: Graph, b: Board, p: nat)
    requires Silenced(g, b) && Linked(g, p) && !g.procs[p].Active()
    ensures Silenced(Remove(g, p), b)
  {
    RemoveActivity(g, p);
    forall r <- b.runs ensures ScopeActive(Remove(g, p), r.scope) == ScopeActive(g, r.scope) { }
  }

  /** The last hooks of the process passed, and the app's too if it leaves nobody behind. */
  ghost predicate MayLeave(g: Graph, b: Board, p: nat)
    requires Linked(g, p)
  {
    && HooksPassed(b, OfWorker(p), PostStop)
    && (g.cycles[g.procs[p].cycle].members - {p} == {} ==> HooksPassed(b, OfCycle(g.procs[p].cycle), PostStop))
  }

  lemma RemoveGated(g: Graph, b: Board, p: nat)
    requires Gated(g, b) && Linked(g, p) && MayLeave(g, b, p)
    ensures Gated(Remove(g, p), b)
  {
    var h := Remove(g, p);
    forall q <- h.procs ensures Backed(h, b, q) { assert Backed(g, b, q); }
  }

  lemma LeaveKeeps(s: State, p: nat)
    requires Inv(s) && Linked(s.graph, p) && s.graph.procs[p].exited && MayLeave(s.graph, s.board, p)
    ensures Inv(s.(graph := Remove(s.graph, p)))
  {
    RemoveKeeps(s.graph, p);
    RemoveFollows(s.graph, p);
    FollowsKeeps(s.graph, Remove(s.graph, p), s.board);
    RemoveSilenced(s.graph, s.board, p);
    RemoveGated(s.graph, s.board, p);
  }

  // One process is reserved.

  /** A reservation stops nothing from counting. */
  lemma ReserveScope(g: Graph, v: nat, p: nat, c: nat, now: int, scope: Scope)
    requires Indexed(g) && Retirement(g) && Admissible(g, v, p, c)
    ensures ScopeActive(g, scope) ==> ScopeActive(Reserve(g, v, p, c, now), scope)
  {
    ReserveRetirement(g, v, p, c, now);
    hide Indexed, Retirement, CycleActive;
  }

  lemma ReserveSilenced(g: Graph, b: Board, v: nat, p: nat, c: nat, now: int)
    requires Indexed(g) && Retirement(g) && Silenced(g, b) && Admissible(g, v, p, c)
    ensures Silenced(Reserve(g, v, p, c, now), b)
  {
    hide Indexed, Retirement, ScopeActive, Reserve;
    forall r <- b.runs | r.event.Check() && !ScopeActive(Reserve(g, v, p, c, now), r.scope)
        ensures b.runs[r].cancelled {
      ReserveScope(g, v, p, c, now, r.scope);
    }
  }

  lemma ReserveGated(g: Graph, b: Board, v: nat, p: nat, c: nat, now: int)
    requires CycleLists(g) && Gated(g, b) && Admissible(g, v, p, c)
    ensures Gated(Reserve(g, v, p, c, now), b)
  {
    var h := Reserve(g, v, p, c, now);
    forall q <- h.procs ensures Backed(h, b, q) {
      if q != p { assert Backed(g, b, q); }
    }
  }

  lemma ReserveTimely(g: Graph, v: nat, p: nat, c: nat, now: int, clock: int)
    requires Timely(g, clock) && v in g.svcs
    ensures Timely(Reserve(g, v, p, c, now), clock)
  {
  }

  lemma AdmitKeeps(s: State, v: nat, p: nat, c: nat, now: int)
    requires Inv(s) && Admissible(s.graph, v, p, c)
    ensures Inv(s.(graph := Reserve(s.graph, v, p, c, now)))
  {
    ReserveKeeps(s.graph, v, p, c, now);
    ReserveFollows(s.graph, v, p, c, now);
    FollowsKeeps(s.graph, Reserve(s.graph, v, p, c, now), s.board);
    assert forall r <- s.board.runs :: Sound(s.board, r);
    ReserveSilenced(s.graph, s.board, v, p, c, now);
    ReserveGated(s.graph, s.board, v, p, c, now);
    ReserveTimely(s.graph, v, p, c, now, s.clock);
  }
}
