/** Reservations in a tick: no operation of the loop answers an action, so a start hook
    that is awaited stays awaited until its result arrives. */
module ManagerPending {
  import opened Config
  import opened ActionBoard
  import opened ManagerState
  import opened ManagerSteps

  /** No run has got a result: what was awaited is still awaited. */
  ghost predicate Unanswered(b: Board, c: Board) {
    && b.begun <= c.begun
    && forall r <- b.runs :: (r.scope, r.event) in b.begun ==> r in c.runs && SameResult(b.runs[r], c.runs[r])
  }

  predicate SameResult(run: Run, next: Run) {
    next.binding == run.binding && next.done == run.done && next.success == run.success && next.failures == run.failures
  }

  lemma UnansweredJoin(b: Board, c: Board, d: Board)
    requires Unanswered(b, c) && Unanswered(c, d)
    ensures Unanswered(b, d)
  {
  }

  lemma PhaseUnanswered(s: State, x: Scope, e: Event, now: int)
    ensures Unanswered(s.board, Phase(s, x, e, now).board)
  {
  }

  lemma CancelUnanswered(s: State, x: Scope, events: set<Event>)
    ensures Unanswered(s.board, Cancel(s.board, x, events))
  {
  }

  lemma WithdrawUnanswered(s: State, p: nat, child: Process)
    ensures Unanswered(s.board, Withdraw(s, p, child).board)
  {
    hide Cancel, Unanswered;
    CancelUnanswered(s, OfWorker(p), CHECKS);
    var t := CancelChecks(s, OfWorker(p)).(graph := Deactivate(s.graph, p, child));
    CancelUnanswered(t, OfCycle(child.cycle), CHECKS);
    UnansweredJoin(s.board, t.board, CancelChecks(t, OfCycle(child.cycle)).board);
  }

  lemma BothUnanswered(s: State, p: nat, e: Event, now: int)
    requires p in s.graph.procs
    ensures Unanswered(s.board, Both(s, p, e, now).board)
  {
    hide Phase, Unanswered;
    PhaseUnanswered(s, OfWorker(p), e, now);
    PhaseUnanswered(Phase(s, OfWorker(p), e, now), OfCycle(s.graph.procs[p].cycle), e, now);
    UnansweredJoin(s.board, Phase(s, OfWorker(p), e, now).board, Both(s, p, e, now).board);
  }

  lemma ActiveUnanswered(s: State, p: nat, now: int)
    requires p in s.graph.procs
    ensures Unanswered(s.board, LifecycleActive(s, p, now).board)
  {
    hide Both, BothOk, Unanswered, ManagerState.DependenciesReady;
    var t := Both(s, p, PostStart, now);
    BothUnanswered(s, p, PostStart, now);
    var u := Both(t, p, Readiness, now);
    BothUnanswered(t, p, Readiness, now);
    UnansweredJoin(s.board, t.board, u.board);
    BothUnanswered(u, p, Health, now);
    UnansweredJoin(s.board, u.board, Both(u, p, Health, now).board);
  }

  lemma CancelThenPhase(s: State, x: Scope, now: int)
    ensures Unanswered(s.board, Phase(CancelPhase(s, x, PreStop), x, PostStop, now).board)
  {
    hide Phase, Cancel, Unanswered;
    var t := CancelPhase(s, x, PreStop);
    CancelUnanswered(s, x, {PreStop});
    PhaseUnanswered(t, x, PostStop, now);
    UnansweredJoin(s.board, t.board, Phase(t, x, PostStop, now).board);
  }

  lemma ExitedUnanswered(s: State, p: nat, now: int)
    requires Linked(s.graph, p)
    ensures Unanswered(s.board, LifecycleExited(s, p, now).board)
  {
    hide CancelPhase, PhaseOk, Unanswered, AllExited, Reach;
    var c := s.graph.procs[p].cycle;
    var s1 := Phase(CancelPhase(s, OfWorker(p), PreStop), OfWorker(p), PostStop, now);
    CancelThenPhase(s, OfWorker(p), now);
    CancelThenPhase(s1, OfCycle(c), now);
    UnansweredJoin(s.board, s1.board, Phase(CancelPhase(s1, OfCycle(c), PreStop), OfCycle(c), PostStop, now).board);
  }

  lemma StoppingUnanswered(s: State, p: nat, now: int)
    requires Linked(s.graph, p) && s.graph.procs[p].stopping.Some?
    ensures Unanswered(s.board, LifecycleStopping(s, p, now).board)
  {
    hide PhaseOk, Unanswered, Reach, StopHooksOk;
    var t := Phase(s, OfWorker(p), PreStop, now);
    PhaseUnanswered(s, OfWorker(p), PreStop, now);
    PhaseUnanswered(t, OfCycle(s.graph.procs[p].cycle), PreStop, now);
    UnansweredJoin(s.board, t.board, Phase(t, OfCycle(s.graph.procs[p].cycle), PreStop, now).board);
  }

  lemma UnansweredSelf(b: Board)
    ensures Unanswered(b, b)
  {
  }

  lemma LifecycleUnanswered(s: State, p: nat, now: int)
    requires Linked(s.graph, p)
    ensures Unanswered(s.board, Lifecycle(s, p, now).board)
  {
    hide LifecycleExited, LifecycleStopping, LifecycleActive, Unanswered;
    UnansweredSelf(s.board);
    if s.graph.procs[p].exited {
      ExitedUnanswered(s, p, now);
    } else if s.graph.procs[p].stopping.Some? {
      StoppingUnanswered(s, p, now);
    } else {
      ActiveUnanswered(s, p, now);
    }
  }

  lemma StopUnanswered(s: State, p: nat, now: int, failed: bool)
    requires Linked(s.graph, p)
    ensures Unanswered(s.board, Stop(s, p, now, failed).board)
  {
    hide Lifecycle, Withdraw, Unanswered;
    UnansweredSelf(s.board);
    var t := Halt(s, p, now, failed);
    WithdrawUnanswered(s, p, Stopped(s.graph.procs[p], now, failed));
    LifecycleUnanswered(t, p, now);
    UnansweredJoin(s.board, t.board, Lifecycle(t, p, now).board);
  }

  lemma StartPendingUnanswered(s: State, p: nat, now: int, ok: bool)
    requires Linked(s.graph, p)
    ensures Unanswered(s.board, PreStarted(s, p, now).board) && Unanswered(s.board, StartPending(s, p, now, ok).board)
  {
    hide Lifecycle, Stop, Unanswered, Reach, BothOk;
    var c := s.graph.procs[p].cycle;
    var s1 := Phase(s, OfCycle(c), PreStart, now);
    PhaseUnanswered(s, OfCycle(c), PreStart, now);
    PhaseUnanswered(s1, OfWorker(p), PreStart, now);
    UnansweredJoin(s.board, s1.board, PreStarted(s, p, now).board);
    var t := PreStarted(s, p, now);
    LifecycleUnanswered(Started(t, p, now), p, now);
    StopUnanswered(t, p, now, true);
    UnansweredJoin(s.board, t.board, Begin(t, p, now).board);
    UnansweredJoin(s.board, t.board, Stop(t, p, now, true).board);
  }

  /** A start hook that is not passed stays so until some result arrives. */
  lemma StillUnpassed(b: Board, c: Board, x: Scope, e: Event)
    requires Unanswered(b, c) && (x, e) in b.begun && !PhaseOk(b, x, e)
    ensures !PhaseOk(c, x, e)
  {
    var r :| r in b.runs && r.scope == x && r.event == e && !Passed(b.runs[r], e);
    assert r in c.runs && SameResult(b.runs[r], c.runs[r]);
  }

  /** The reservation waits for a start hook, its own or its application's. */
  ghost predicate Waits(s: State, p: nat)
    requires p in s.graph.procs
  {
    && (OfWorker(p), PreStart) in s.board.begun && (OfCycle(s.graph.procs[p].cycle), PreStart) in s.board.begun
    && !BothOk(s, p, PreStart)
  }

  ghost predicate StartedOrWaits(s: State, p: nat) {
    p in s.graph.procs && (s.graph.procs[p].pending && s.graph.procs[p].Active() ==> Waits(s, p))
  }

  lemma StartPendingResult(s: State, p: nat, now: int, ok: bool)
    requires Linked(s.graph, p)
    ensures StartedOrWaits(StartPending(s, p, now, ok), p)
  {
    var t := PreStarted(s, p, now);
    hide Lifecycle, Stop, Unanswered, BothOk;
    PreStartedBegun(s, p, now);
    if BothOk(t, p, PreStart) && ok { BeginStarted(t, p, now); }
  }

  lemma PreStartedBegun(s: State, p: nat, now: int)
    requires Linked(s.graph, p)
    ensures var t := PreStarted(s, p, now);
      (OfWorker(p), PreStart) in t.board.begun && (OfCycle(s.graph.procs[p].cycle), PreStart) in t.board.begun
  {
  }

  lemma BeginStarted(s: State, p: nat, now: int)
    requires Linked(s.graph, p)
    ensures !Begin(s, p, now).graph.procs[p].pending
  {
    hide LifecycleExited, LifecycleStopping, LifecycleActive;
  }
}
