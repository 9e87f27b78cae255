/** What a shutdown has left to do: a measure that no operation on the existing workers
    raises, what lowers it, and that there is always something that does. */
module ManagerShutdown {
  import opened Config
  import opened ActionBoard
  import opened ManagerState
  import opened ManagerSteps
  import opened ManagerInvariant
  import opened ManagerHistory
  import opened ManagerOperations
  import opened ManagerTable
  import opened ManagerRuns
  import opened ManagerTick
  import opened Sets

  // ------------------------------------------------------------- the measure

  ghost function Alive(g: Graph): set<nat> {
    set w | w in g.workers && w in g.procs && !g.procs[w].exited
  }

  ghost function Unasked(g: Graph): set<nat> {
    set w | w in g.workers && w in g.procs && !g.procs[w].exited && !g.procs[w].stopSent
  }

  ghost function Unkilled(g: Graph): set<nat> {
    set w | w in g.workers && w in g.procs && !g.procs[w].exited && !g.procs[w].killed
  }

  ghost function Unretired(g: Graph): set<nat> {
    set w | w in g.workers && w in g.procs && g.procs[w].stopping.None?
  }

  /** What is left to be done with the workers. */
  ghost function WorkLeft(g: Graph): nat {
    |g.workers| + |Alive(g)| + |Unasked(g)| + |Unkilled(g)| + |Unretired(g)|
  }

  const STOP_EVENTS: set<Event> := {PreStop, PostStop}

  ghost function Scopes(g: Graph): set<Scope> {
    (set p | p in g.procs :: OfWorker(p)) + (set c | c in g.cycles :: OfCycle(c))
  }

  /** The stop hooks that have not been invoked. */
  ghost function HooksLeft(g: Graph, b: Board): set<RunRef> {
    set x, e, i | x in Scopes(g) && e in STOP_EVENTS && 0 <= i < |BindingsOf(g, x, e)|
      && (RunRef(x, e, i) in b.runs ==> b.runs[RunRef(x, e, i)].launches == 0) :: RunRef(x, e, i)
  }

  /** The answers still owed to scopes that no longer count. */
  ghost function Owed(g: Graph, b: Board): set<RunRef> {
    set r | r in b.runs && r in b.inflight && Dead(g, r.scope)
  }

  ghost function CallsLeft(g: Graph, b: Board): nat {
    2 * |HooksLeft(g, b)| + |Owed(g, b)|
  }

  ghost predicate Falls(s: State, t: State) {
    || WorkLeft(t.graph) < WorkLeft(s.graph)
    || (WorkLeft(t.graph) == WorkLeft(s.graph) && CallsLeft(t.graph, t.board) < CallsLeft(s.graph, s.board))
  }

  ghost predicate NotRisen(s: State, t: State) {
    || Falls(s, t)
    || (WorkLeft(t.graph) == WorkLeft(s.graph) && CallsLeft(t.graph, t.board) == CallsLeft(s.graph, s.board))
  }

  // --------------------------------------------------- the part about workers

  /** A later state without new workers has no more to do with them. */
  lemma WorkShrinks(g: Graph, h: Graph)
    requires Listed(g) && GraphLater(g, h) && h.workers <= g.workers
    ensures Alive(h) <= Alive(g) && Unasked(h) <= Unasked(g) && Unkilled(h) <= Unkilled(g)
    ensures Unretired(h) <= Unretired(g)
    ensures WorkLeft(h) <= WorkLeft(g)
  {
    forall w <- h.workers ensures w in g.procs && w in h.procs && Onward(g.procs[w], h.procs[w]) {
      assert Linked(g, w);
    }
    SubsetSize(h.workers, g.workers);
    SubsetSize(Alive(h), Alive(g));
    SubsetSize(Unasked(h), Unasked(g));
    SubsetSize(Unkilled(h), Unkilled(g));
    SubsetSize(Unretired(h), Unretired(g));
  }

  lemma WorkSame(g: Graph, h: Graph)
    requires Listed(g) && GraphLater(g, h) && h.workers <= g.workers && WorkLeft(h) == WorkLeft(g)
    ensures h.workers == g.workers && Alive(h) == Alive(g) && Unretired(h) == Unretired(g)
    ensures Unasked(h) == Unasked(g) && Unkilled(h) == Unkilled(g)
  {
    hide Alive, Unasked, Unkilled, Unretired;
    WorkShrinks(g, h);
    SubsetSize(h.workers, g.workers);
    SubsetSize(Alive(h), Alive(g));
    SubsetSize(Unasked(h), Unasked(g));
    SubsetSize(Unkilled(h), Unkilled(g));
    SubsetSize(Unretired(h), Unretired(g));
    EqualSize(h.workers, g.workers);
    EqualSize(Alive(h), Alive(g));
    EqualSize(Unasked(h), Unasked(g));
    EqualSize(Unkilled(h), Unkilled(g));
    EqualSize(Unretired(h), Unretired(g));
  }

  lemma SameWorkSameActive(g: Graph, h: Graph, w: nat)
    requires Listed(g) && GraphLater(g, h) && h.workers <= g.workers && WorkLeft(h) == WorkLeft(g)
    ensures ActiveWorker(h, w) == ActiveWorker(g, w)
  {
    WorkSame(g, h);
    hide WorkLeft, GraphLater, Listed;
    assert ActiveWorker(g, w) <==> w in Alive(g) && w in Unretired(g);
    assert ActiveWorker(h, w) <==> w in Alive(h) && w in Unretired(h);
  }

  lemma SameActivity(g: Graph, h: Graph, c: nat)
    requires Indexed(g) && Indexed(h) && GraphLater(g, h) && h.workers == g.workers
    requires forall w :: ActiveWorker(h, w) == ActiveWorker(g, w)
    ensures c in g.cycles ==> CycleActive(h, c) == CycleActive(g, c)
  {
    if c in g.cycles && CycleActive(g, c) {
      var m :| m in g.cycles[c].members && m in g.procs && g.procs[m].Active();
      assert ActiveWorker(g, m) && ActiveWorker(h, m) && Linked(h, m) && h.procs[m].cycle == c;
    }
    if c in g.cycles && CycleActive(h, c) {
      var m :| m in h.cycles[c].members && m in h.procs && h.procs[m].Active();
      assert ActiveWorker(h, m) && ActiveWorker(g, m) && Linked(g, m) && Onward(g.procs[m], h.procs[m])
          && g.procs[m].cycle == c;
    }
  }

  /** While there is as much to do with the workers, the same scopes count. */
  lemma SameWorkSameDead(s: State, t: State, x: Scope)
    requires Inv(s) && Leads(s, t) && WorkLeft(t.graph) == WorkLeft(s.graph)
    ensures Dead(t.graph, x) == Dead(s.graph, x)
  {
    hide Inv, Leads, WorkLeft, GraphLater, Indexed, Listed, CycleActive, ActiveWorker;
    LeadsParts(s, t);
    forall w ensures ActiveWorker(t.graph, w) == ActiveWorker(s.graph, w) { SameWorkSameActive(s.graph, t.graph, w); }
    WorkSame(s.graph, t.graph);
    if x.OfCycle? { SameActivity(s.graph, t.graph, x.cycle); }
  }

  lemma LeadsParts(s: State, t: State)
    requires Inv(s) && Leads(s, t)
    ensures Inv(t) && Indexed(s.graph) && Indexed(t.graph) && Listed(s.graph) && Retirement(s.graph)
    ensures Retirement(t.graph)
    ensures GraphLater(s.graph, t.graph) && t.graph.workers <= s.graph.workers
    ensures BoardLater(s.board, t.board) && BegunLater(s.graph, s.board, t.board)
    ensures t.graph.procs.Keys == s.graph.procs.Keys && t.graph.cycles.Keys == s.graph.cycles.Keys
  {
  }

  // ------------------------------------------------------ the part about calls

  lemma SameScopes(g: Graph, h: Graph, x: Scope, e: Event)
    requires GraphLater(g, h) && h.procs.Keys == g.procs.Keys && h.cycles.Keys == g.cycles.Keys
    ensures x in Scopes(h) <==> x in Scopes(g)
    ensures BindingsOf(h, x, e) == BindingsOf(g, x, e)
  {
    if x.OfWorker? && x.worker in g.procs { assert Onward(g.procs[x.worker], h.procs[x.worker]); }
  }

  predicate HookLeft(g: Graph, b: Board, r: RunRef) {
    && Known(g, r.scope) && r.event in STOP_EVENTS && r.index < |BindingsOf(g, r.scope, r.event)|
    && (r in b.runs ==> b.runs[r].launches == 0)
  }

  lemma InHooksLeft(g: Graph, b: Board, r: RunRef)
    ensures r in HooksLeft(g, b) <==> HookLeft(g, b, r)
  {
    assert Known(g, r.scope) <==> r.scope in Scopes(g);
    assert r == RunRef(r.scope, r.event, r.index);
  }

  lemma HooksShrink(s: State, t: State)
    requires Inv(s) && Leads(s, t)
    ensures HooksLeft(t.graph, t.board) <= HooksLeft(s.graph, s.board)
  {
    hide HooksLeft, Inv, Leads, GraphLater, Indexed, Retirement, BegunLater;
    LeadsParts(s, t);
    forall r <- HooksLeft(t.graph, t.board) ensures r in HooksLeft(s.graph, s.board) {
      InHooksLeft(t.graph, t.board, r);
      InHooksLeft(s.graph, s.board, r);
      SameScopes(s.graph, t.graph, r.scope, r.event);
    }
  }

  lemma DeadInactive(g: Graph, x: Scope)
    requires Retirement(g) && Dead(g, x)
    ensures !ScopeActive(g, x) && Known(g, x)
  {
  }

  /** A new answer that is owed to a scope which does not count comes from a stop
      hook that had not been invoked before. */
  lemma NewlyOwed(s: State, t: State, r: RunRef)
    requires Inv(s) && Leads(s, t) && WorkLeft(t.graph) == WorkLeft(s.graph)
    requires r in Owed(t.graph, t.board) && r !in Owed(s.graph, s.board)
    ensures r in HooksLeft(s.graph, s.board) && r !in HooksLeft(t.graph, t.board)
  {
    hide HooksLeft, Inv, Leads, GraphLater, Indexed, Retirement, WorkLeft, Dead, ScopeActive, BindingsOf, Known;
    SameWorkSameDead(s, t, r.scope);
    LeadsParts(s, t);
    DeadInactive(s.graph, r.scope);
    InHooksLeft(s.graph, s.board, r);
    InHooksLeft(t.graph, t.board, r);
    SameScopes(s.graph, t.graph, r.scope, r.event);
    RunOf(t, r);
    if r in s.board.runs {
      RunOf(s, r);
      assert Later(s.board.runs[r], t.board.runs[r], r.event);
      if r.event.Check() { SilencedRun(s, r); }
    }
  }

  lemma RunOf(s: State, r: RunRef)
    requires Inv(s) && r in s.board.runs
    ensures Sound(s.board, r) && Fits(s.graph, r, s.board.runs[r].binding)
  {
  }

  lemma SilencedRun(s: State, r: RunRef)
    requires Inv(s) && r in s.board.runs && r.event.Check() && !ScopeActive(s.graph, r.scope)
    ensures s.board.runs[r].cancelled
  {
  }

  lemma CallsArithmetic(hooks: set<RunRef>, hooks': set<RunRef>, owed: set<RunRef>, owed': set<RunRef>)
    requires hooks' <= hooks && owed' - owed <= hooks - hooks'
    ensures 2 * |hooks'| + |owed'| <= 2 * |hooks| + |owed|
    ensures hooks' < hooks || owed - owed' != {} ==> 2 * |hooks'| + |owed'| < 2 * |hooks| + |owed|
  {
    var called := hooks - hooks';
    assert hooks == hooks' + called;
    assert owed' == (owed' * owed) + (owed' - owed) && owed == (owed * owed') + (owed - owed');
    assert owed' * owed == owed * owed';
    SubsetSize(owed' - owed, called);
    if hooks' < hooks { assert called != {}; }
  }

  /** No operation on the workers that exist raises the measure; it falls when a stop
      hook is invoked or an owed answer is handled. */
  lemma LeadsNotRisen(s: State, t: State)
    requires Inv(s) && Leads(s, t)
    ensures NotRisen(s, t)
    ensures WorkLeft(t.graph) <= WorkLeft(s.graph)
    ensures HooksLeft(t.graph, t.board) < HooksLeft(s.graph, s.board) ==> Falls(s, t)
    ensures Owed(s.graph, s.board) - Owed(t.graph, t.board) != {} ==> Falls(s, t)
  {
    hide WorkLeft, HooksLeft, Owed, Leads, Inv;
    LeadsParts(s, t);
    WorkShrinks(s.graph, t.graph);
    if WorkLeft(t.graph) == WorkLeft(s.graph) {
      HooksShrink(s, t);
      forall r <- Owed(t.graph, t.board) - Owed(s.graph, s.board)
          ensures r in HooksLeft(s.graph, s.board) - HooksLeft(t.graph, t.board) {
        NewlyOwed(s, t, r);
      }
      CallsArithmetic(HooksLeft(s.graph, s.board), HooksLeft(t.graph, t.board), Owed(s.graph, s.board),
          Owed(t.graph, t.board));
    }
  }

  // -------------------------------------------------------- moves of a shutdown

  /** What happens while the loop is stopping: no start, no reload. */
  predicate Shutting(m: Move) {
    (OnProcess(m) && !m.Starting?) || m.Wake? || m.Tuning? || m.Unlistening? || m.Closing?
  }

  lemma SameMeasure(s: State, t: State)
    requires t.board == s.board && t.graph.workers == s.graph.workers && t.graph.procs == s.graph.procs
    requires t.graph.cycles == s.graph.cycles
    ensures NotRisen(s, t) && WorkLeft(t.graph) == WorkLeft(s.graph)
    ensures CallsLeft(t.graph, t.board) == CallsLeft(s.graph, s.board)
  {
    assert Alive(t.graph) == Alive(s.graph) && Unasked(t.graph) == Unasked(s.graph);
    assert Unkilled(t.graph) == Unkilled(s.graph) && Unretired(t.graph) == Unretired(s.graph);
    SameHooks(s, t);
  }

  lemma SameHooks(s: State, t: State)
    requires t.board == s.board && t.graph.workers == s.graph.workers && t.graph.procs == s.graph.procs
    requires t.graph.cycles == s.graph.cycles
    ensures HooksLeft(t.graph, t.board) == HooksLeft(s.graph, s.board)
    ensures Owed(t.graph, t.board) == Owed(s.graph, s.board)
  {
    forall r ensures r in HooksLeft(t.graph, t.board) <==> r in HooksLeft(s.graph, s.board) {
      hide HooksLeft;
      InHooksLeft(t.graph, t.board, r);
      InHooksLeft(s.graph, s.board, r);
    }
    assert forall r <- s.board.runs :: Dead(t.graph, r.scope) == Dead(s.graph, r.scope);
  }

  // ------------------------------------------------------------ what lowers it

  lemma WorkFalls(s: State, t: State, w: nat)
    requires Inv(s) && Leads(s, t)
    requires || (w in s.graph.workers && w !in t.graph.workers)
             || (w in Alive(s.graph) && w !in Alive(t.graph))
             || (w in Unasked(s.graph) && w !in Unasked(t.graph))
             || (w in Unkilled(s.graph) && w !in Unkilled(t.graph))
             || (w in Unretired(s.graph) && w !in Unretired(t.graph))
    ensures Falls(s, t)
  {
    hide WorkLeft, Alive, Unasked, Unkilled, Unretired, Inv, Leads;
    LeadsParts(s, t);
    WorkShrinks(s.graph, t.graph);
    if WorkLeft(t.graph) == WorkLeft(s.graph) { WorkSame(s.graph, t.graph); }
  }

  /** An answer that is owed to a scope which no longer counts. */
  lemma AnswerFalls(s: State, r: RunRef, ok: bool)
    requires Inv(s) && r in s.board.inflight && r in s.board.runs && Dead(s.graph, r.scope)
    ensures Falls(s, s.(board := Collect(s.board, r, ok, s.clock)))
  {
    var t := s.(board := Collect(s.board, r, ok, s.clock));
    RunOf(s, r);
    assert r in Owed(s.graph, s.board) - Owed(t.graph, t.board);
    CollectLeads(s, r, ok, s.clock);
    hide Inv, Leads, Falls, Owed, HooksLeft, Collect;
    LeadsNotRisen(s, t);
  }

  lemma ExitFalls(s: State, p: nat)
    requires Inv(s) && Speaks(s, p)
    ensures Falls(s, ProcessExit(s, p, s.clock))
  {
    hide Inv, Leads, Falls, Lifecycle;
    ProcessExitLeads(s, p, s.clock);
    LostExited(s, p, s.clock);
    WorkFalls(s, ProcessExit(s, p, s.clock), p);
  }

  lemma LostExited(s: State, p: nat, now: int)
    requires Linked(s.graph, p)
    ensures var t := Lost(s, p, now); Linked(t.graph, p) && t.graph.procs[p].exited
  {
  }

  lemma StopFalls(s: State, p: nat)
    requires Inv(s) && Stoppable(s, p, false) && s.graph.procs[p].stopping.None?
    ensures Falls(s, Stop(s, p, s.clock, false))
  {
    hide Inv, Leads, Falls, Stop;
    StopLeads(s, p, s.clock, false);
    WorkFalls(s, Stop(s, p, s.clock, false), p);
  }

  lemma OverdueFalls(s: State, p: nat)
    requires Inv(s) && p in s.graph.workers && Linked(s.graph, p) && !s.graph.procs[p].exited
    requires Overdue(s.graph.procs[p], s.clock) && !s.graph.procs[p].stopSent
    ensures Falls(s, Lifecycle(s, p, s.clock))
  {
    hide Inv, Leads, Falls, Lifecycle;
    LifecycleLeads(s, p, s.clock);
    WorkFalls(s, Lifecycle(s, p, s.clock), p);
  }

  lemma KillFalls(s: State, p: nat)
    requires Inv(s) && p in s.graph.workers && p in s.graph.procs && !s.graph.procs[p].exited
    requires s.graph.procs[p].stopSent && !s.graph.procs[p].pending && !s.graph.procs[p].killed
    ensures Falls(s, Kill(s, p))
  {
    hide Inv, Leads, Falls;
    KillLeads(s, p);
    WorkFalls(s, Kill(s, p), p);
  }

  /** After its last hooks were reached, each of them is running or lets the phase pass. */
  lemma LastHookState(b: Board, x: Scope, bindings: seq<Binding>, now: int, r: RunRef)
    requires BoardInv(b) && r.scope == x && r.event == PostStop && r in Reach(b, x, PostStop, bindings, now).runs
    requires ValidBinding(PostStop, Reach(b, x, PostStop, bindings, now).runs[r].binding)
    ensures var run := Reach(b, x, PostStop, bindings, now).runs[r]; run.running || Passed(run, PostStop)
  {
    ReachSound(b, x, PostStop, bindings, now);
    OpenedSound(b, x, PostStop, bindings);
    var o := Opened(b, x, PostStop, bindings);
    var c := Reach(b, x, PostStop, bindings, now);
    assert Sound(c, r) && Sound(o, r);
    assert !c.runs[r].running ==> r !in Due(o, x, PostStop, now) && c.runs[r] == o.runs[r];
  }

  /** A last hook that runs now, and did not before, was left to be invoked. */
  lemma HookInvoked(s: State, t: State, r: RunRef)
    requires Inv(s) && Leads(s, t) && r.event == PostStop && r !in s.board.inflight
    requires r in t.board.runs && t.board.runs[r].running
    ensures HooksLeft(t.graph, t.board) < HooksLeft(s.graph, s.board)
  {
    hide HooksLeft, Inv, Leads, GraphLater, Indexed, Retirement, WorkLeft, BindingsOf;
    LeadsParts(s, t);
    InHooksLeft(s.graph, s.board, r);
    InHooksLeft(t.graph, t.board, r);
    SameScopes(s.graph, t.graph, r.scope, r.event);
    RunOf(t, r);
    ScopeKnown(t, r);
    if r in s.board.runs {
      RunOf(s, r);
      assert Later(s.board.runs[r], t.board.runs[r], r.event);
    }
    HooksShrink(s, t);
  }

  lemma ScopeKnown(s: State, r: RunRef)
    requires Inv(s) && r in s.board.runs
    ensures Known(s.graph, r.scope)
  {
    RunOf(s, r);
  }

  /** The part of an exit that concerns one scope. */
  lemma ReachedHooks(s: State, x: Scope, now: int) returns (r: RunRef)
    requires Inv(s) && Inv(Phase(CancelPhase(s, x, PreStop), x, PostStop, now))
    requires BoardInv(CancelPhase(s, x, PreStop).board)
    requires !PhaseOk(Phase(CancelPhase(s, x, PreStop), x, PostStop, now).board, x, PostStop)
    ensures var t := Phase(CancelPhase(s, x, PreStop), x, PostStop, now);
      r in t.board.runs && r.scope == x && r.event == PostStop && t.board.runs[r].running
  {
    var b := CancelPhase(s, x, PreStop).board;
    var t := Phase(CancelPhase(s, x, PreStop), x, PostStop, now);
    r :| r in t.board.runs && r.scope == x && r.event == PostStop && !Passed(t.board.runs[r], PostStop);
    RunOf(t, r);
    BindingOfRun(t, r);
    hide Inv;
    LastHookState(b, x, BindingsOf(s.graph, x, PostStop), now, r);
  }

  lemma BindingOfRun(s: State, r: RunRef)
    requires Inv(s) && r in s.board.runs
    ensures ValidBinding(r.event, s.board.runs[r].binding)
  {
    RunOf(s, r);
    BindingValid(s.graph, r);
  }

  /** Nothing is still running for an exited worker, nor for its generation if that is over. */
  ghost predicate Quiescent(s: State, p: nat)
    requires Linked(s.graph, p)
  {
    && (forall r <- s.board.inflight :: r.scope != OfWorker(p))
    && (AllExited(s.graph, s.graph.procs[p].cycle) ==> forall r <- s.board.inflight ::
         r.scope != OfCycle(s.graph.procs[p].cycle))
  }

  ghost predicate HasExited(s: State, p: nat) {
    p in s.graph.workers && Linked(s.graph, p) && s.graph.procs[p].exited
  }

  lemma WorkerHooksFall(s: State, p: nat)
    requires Inv(s) && HasExited(s, p) && Quiescent(s, p)
    requires !PhaseOk(Phase(CancelPhase(s, OfWorker(p), PreStop), OfWorker(p), PostStop, s.clock).board, OfWorker(p),
        PostStop)
    ensures Falls(s, LifecycleExited(s, p, s.clock))
  {
    hide Inv, Leads, Falls, HooksLeft, BoardInv, PhaseOk, Owed, Phase, CancelPhase, LastHooks;
    var c := s.graph.procs[p].cycle;
    var s1 := Phase(CancelPhase(s, OfWorker(p), PreStop), OfWorker(p), PostStop, s.clock);
    WorkerLastHooksLeads(s, p, s.clock);
    LeadsInv(s, s1);
    CancelledBoard(s, OfWorker(p));
    var r := ReachedHooks(s, OfWorker(p), s.clock);
    HookInvoked(s, s1, r);
    LeadsParts(s, s1);
    LastHooksLeads(s1, c, s.clock);
    HooksShrink(s1, LastHooks(s1, c, s.clock));
    LifecycleExitedLeads(s, p, s.clock);
    LeadsNotRisen(s, LifecycleExited(s, p, s.clock));
  }

  lemma AppHooksFall(s: State, p: nat)
    requires Inv(s) && HasExited(s, p) && Quiescent(s, p) && AllExited(s.graph, s.graph.procs[p].cycle)
    requires var s1 := Phase(CancelPhase(s, OfWorker(p), PreStop), OfWorker(p), PostStop, s.clock);
      !PhaseOk(LastHooks(s1, s.graph.procs[p].cycle, s.clock).board, OfCycle(s.graph.procs[p].cycle), PostStop)
    ensures Falls(s, LifecycleExited(s, p, s.clock))
  {
    hide Inv, Leads, Falls, HooksLeft, BoardInv, PhaseOk, Owed;
    var c := s.graph.procs[p].cycle;
    var s1 := Phase(CancelPhase(s, OfWorker(p), PreStop), OfWorker(p), PostStop, s.clock);
    var s2 := LastHooks(s1, c, s.clock);
    WorkerLastHooksLeads(s, p, s.clock);
    LeadsInv(s, s1);
    LastHooksLeads(s1, c, s.clock);
    LeadsTransitive(s, s1, s2);
    LeadsInv(s1, s2);
    CancelledBoard(s1, OfCycle(c));
    var r := ReachedHooks(s1, OfCycle(c), s.clock);
    HookInvoked(s, s2, r);
    LifecycleExitedLeads(s, p, s.clock);
    LeadsNotRisen(s, LifecycleExited(s, p, s.clock));
  }

  lemma CancelledBoard(s: State, x: Scope)
    requires Inv(s)
    ensures BoardInv(CancelPhase(s, x, PreStop).board)
  {
    CancelSound(s.board, x, {PreStop});
  }

  /** An exited worker for which nothing runs any more: its last hooks start, or it leaves. */
  lemma ExitedFalls(s: State, p: nat)
    requires Inv(s) && HasExited(s, p) && Quiescent(s, p)
    ensures Falls(s, Lifecycle(s, p, s.clock))
  {
    hide Inv, Leads, Falls, PhaseOk, LastHooks, AllExited, Quiescent;
    var c := s.graph.procs[p].cycle;
    var s1 := Phase(CancelPhase(s, OfWorker(p), PreStop), OfWorker(p), PostStop, s.clock);
    var s2 := LastHooks(s1, c, s.clock);
    if !PhaseOk(s1.board, OfWorker(p), PostStop) {
      WorkerHooksFall(s, p);
    } else if AllExited(s.graph, c) && !PhaseOk(s2.board, OfCycle(c), PostStop) {
      AppHooksFall(s, p);
    } else {
      LifecycleExitedLeads(s, p, s.clock);
      WorkFalls(s, LifecycleExited(s, p, s.clock), p);
    }
  }

  // ------------------------------------------------------------ the main result

  /** Something is left that keeps the loop from returning. */
  predicate Busy(s: State) {
    s.graph.workers != {} || s.board.tasks > 0
  }

  /** The steps that a stopping loop or its environment owes: an answer, the exit of
      a killed process, or what the next tick does. A tick asks a worker to stop only
      when nobody depends on it. */
  ghost predicate Forthcoming(s: State, m: Move) {
    && Enabled(s, m) && Shutting(m)
    && (m.Halting? ==> !m.failed && Linked(s.graph, m.p) && !HasDependent(s.graph, m.p))
    && (m.Exiting? ==> m.p in s.graph.procs && s.graph.procs[m.p].killed)
    && (m.Finishing? || m.Exiting? || m.Review? || m.Killing? || m.Halting?)
  }

  function At(s: State, now: int): State {
    s.(clock := now)
  }

  lemma AtGood(s: State, now: int)
    requires Good(s) && s.clock <= now
    ensures Good(At(s, now)) && WorkLeft(At(s, now).graph) == WorkLeft(s.graph)
    ensures CallsLeft(At(s, now).graph, At(s, now).board) == CallsLeft(s.graph, s.board)
  {
    WakeKeepsGood(s, now);
    SameMeasure(s, At(s, now));
  }

  lemma ReviewDue(s: State, p: nat)
    requires p in s.graph.workers && Linked(s.graph, p)
    ensures Forthcoming(s, Review(p)) && Result(s, Review(p)) == Lifecycle(s, p, s.clock)
  {
    hide Lifecycle;
  }

  lemma KillingDue(s: State, p: nat)
    requires p in s.graph.workers && p in s.graph.procs && s.graph.procs[p].stopSent && !s.graph.procs[p].pending
    requires !s.graph.procs[p].killed
    ensures Forthcoming(s, Killing(p)) && Result(s, Killing(p)) == Kill(s, p)
  {
  }

  lemma ExitingDue(s: State, p: nat)
    requires Speaks(s, p) && s.graph.procs[p].killed
    ensures Forthcoming(s, Exiting(p)) && Result(s, Exiting(p)) == ProcessExit(s, p, s.clock)
  {
    hide ProcessExit;
  }

  lemma HaltingDue(s: State, p: nat)
    requires Stoppable(s, p, false) && !HasDependent(s.graph, p)
    ensures Forthcoming(s, Halting(p, false)) && Result(s, Halting(p, false)) == Stop(s, p, s.clock, false)
  {
    hide Stop;
  }

  lemma FinishingDue(s: State, r: RunRef, ok: bool)
    requires r in s.board.inflight && r in s.board.runs
    ensures Forthcoming(s, Finishing(r, ok))
    ensures Result(s, Finishing(r, ok)) == s.(board := Collect(s.board, r, ok, s.clock))
  {
    hide Collect;
  }

  ghost predicate NothingOwed(s: State) {
    forall r <- s.board.inflight :: r in s.board.runs ==> !Dead(s.graph, r.scope)
  }

  /** An exited worker, when no answer is owed to a scope that no longer counts. */
  lemma ExitedDue(s: State, p: nat)
    requires Good(s) && HasExited(s, p) && NothingOwed(s)
    ensures Forthcoming(s, Review(p)) && Falls(s, Result(s, Review(p)))
  {
    hide Inv, Falls, Lifecycle, Forthcoming, Result, Good, Quiescent;
    GoodInv(s);
    ReviewDue(s, p);
    ExitedQuiescent(s, p);
    ExitedFalls(s, p);
  }

  lemma ExitedQuiescent(s: State, p: nat)
    requires Good(s) && HasExited(s, p) && NothingOwed(s)
    ensures Quiescent(s, p)
  {
    hide Good;
    InflightRuns(s);
    if AllExited(s.graph, s.graph.procs[p].cycle) { ExitedRetires(s, s.graph.procs[p].cycle); }
  }

  lemma InflightRuns(s: State)
    requires Good(s)
    ensures forall r <- s.board.inflight :: r in s.board.runs
  {
  }

  lemma ExitedRetires(s: State, c: nat)
    requires Good(s) && c in s.graph.cycles && AllExited(s.graph, c)
    ensures s.graph.cycles[c].retiring
  {
    assert !CycleActive(s.graph, c);
  }

  /** A worker that was asked to retire: its deadline brings the stop, then the kill,
      then its exit. */
  lemma RetiringDue(s: State, p: nat) returns (m: Move)
    requires Good(s) && p in s.graph.workers && Linked(s.graph, p) && !s.graph.procs[p].exited
    requires Overdue(s.graph.procs[p], s.clock)
    ensures Forthcoming(s, m) && Falls(s, Result(s, m))
  {
    hide Good, Inv, Falls, Lifecycle, ProcessExit, Kill, Forthcoming, Result;
    GoodInv(s);
    ConsistentWorker(s, p);
    if !s.graph.procs[p].stopSent {
      m := Review(p);
      ReviewDue(s, p);
      OverdueFalls(s, p);
    } else if !s.graph.procs[p].killed {
      m := Killing(p);
      KillingDue(s, p);
      KillFalls(s, p);
    } else {
      m := Exiting(p);
      ExitingDue(s, p);
      ExitFalls(s, p);
    }
  }

  lemma ConsistentWorker(s: State, p: nat)
    requires Inv(s) && p in s.graph.procs
    ensures Consistent(s.graph.procs[p]) && s.graph.procs[p].config.Valid()
  {
  }

  /** Workers are left and all of them count: one of them is free to go. */
  lemma ActiveDue(s: State) returns (p: nat)
    requires Good(s) && Dependencies.Sound(Installed(s.graph)) && s.graph.workers != {}
    requires forall w <- s.graph.workers :: w in s.graph.procs ==> s.graph.procs[w].Active()
    ensures Forthcoming(s, Halting(p, false)) && Falls(s, Result(s, Halting(p, false)))
  {
    hide Good, Inv, Falls, Stop, Forthcoming, Result, HasDependent, AllHeld;
    GoodInv(s);
    p := FreeToGo(s);
    HaltingDue(s, p);
    StopFalls(s, p);
  }

  lemma FreeToGo(s: State) returns (p: nat)
    requires Inv(s) && Dependencies.Sound(Installed(s.graph)) && s.graph.workers != {}
    requires forall w <- s.graph.workers :: w in s.graph.procs ==> s.graph.procs[w].Active()
    ensures Stoppable(s, p, false) && s.graph.procs[p].stopping.None? && !HasDependent(s.graph, p)
  {
    hide HasDependent, Dependencies.Sound;
    if AllHeld(s.graph) {
      NotWedged(s.graph);
      assert false;
    }
    p :| p in s.graph.workers && Linked(s.graph, p) && s.graph.procs[p].stopping.None? && !HasDependent(s.graph, p);
  }

  /** Nobody is left: every answer is owed to a scope that no longer counts. */
  lemma OnlyAnswersLeft(s: State, r: RunRef)
    requires Good(s) && s.graph.workers == {} && r in s.board.inflight
    ensures r in s.board.runs && Dead(s.graph, r.scope)
  {
    ScopeKnown(s, r);
    if r.scope.OfCycle? { assert !CycleActive(s.graph, r.scope.cycle); }
  }

  /** A shutdown that is not over is never stuck: an answer is owed, a killed process
      is about to exit, or the next tick, at the latest at some deadline, acts. Each
      of these lowers the measure. */
  lemma ShutdownProgress(s: State) returns (now: int, m: Move)
    requires Good(s) && Dependencies.Sound(Installed(s.graph)) && Busy(s)
    ensures s.clock <= now && Forthcoming(At(s, now), m) && Falls(s, Result(At(s, now), m))
  {
    hide Good, Inv, Falls, Forthcoming, Result, Dead, WorkLeft, CallsLeft, Dependencies.Sound;
    now := s.clock;
    assert At(s, now) == s;
    GoodInv(s);
    if !NothingOwed(s) {
      var r :| r in s.board.inflight && r in s.board.runs && Dead(s.graph, r.scope);
      m := Finishing(r, true);
      FinishingDue(s, r, true);
      AnswerFalls(s, r, true);
    } else if p :| p in s.graph.workers && HasExited(s, p) {
      m := Review(p);
      ExitedDue(s, p);
    } else if p :| p in s.graph.workers && p in s.graph.procs && s.graph.procs[p].stopping.Some?
                   && !s.graph.procs[p].exited {
      now := Deadline(s, p);
      WorkerKnown(s, p);
      AtGood(s, now);
      m := RetiringDue(At(s, now), p);
      DueEnabled(At(s, now), m);
      SameFall(s, At(s, now), Result(At(s, now), m));
    } else if s.graph.workers != {} {
      AllCount(s);
      var p := ActiveDue(s);
      m := Halting(p, false);
    } else {
      TasksOwed(s);
      var r :| r in s.board.inflight;
      OnlyAnswersLeft(s, r);
      assert false;
    }
  }

  lemma DueEnabled(s: State, m: Move)
    requires Forthcoming(s, m)
    ensures Enabled(s, m)
  {
  }

  function Deadline(s: State, p: nat): (now: int)
    requires p in s.graph.procs && s.graph.procs[p].stopping.Some?
    ensures s.clock <= now && Overdue(s.graph.procs[p], now)
  {
    var deadline := s.graph.procs[p].stopping.value + s.graph.procs[p].config.stopTimeout;
    if s.clock < deadline then deadline else s.clock
  }

  lemma SameFall(s: State, t: State, u: State)
    requires WorkLeft(t.graph) == WorkLeft(s.graph) && CallsLeft(t.graph, t.board) == CallsLeft(s.graph, s.board)
    requires Falls(t, u)
    ensures Falls(s, u)
  {
  }

  lemma WorkerKnown(s: State, p: nat)
    requires Good(s) && p in s.graph.workers
    ensures Linked(s.graph, p)
  {
  }

  lemma AllCount(s: State)
    requires Good(s) && (forall p <- s.graph.workers :: !HasExited(s, p))
    requires forall p <- s.graph.workers :: p in s.graph.procs && s.graph.procs[p].stopping.Some? ==>
        s.graph.procs[p].exited
    ensures forall w <- s.graph.workers :: w in s.graph.procs ==> s.graph.procs[w].Active()
  {
    forall w <- s.graph.workers ensures w in s.graph.procs ==> s.graph.procs[w].Active() { assert Linked(s.graph, w); }
  }

  lemma TasksOwed(s: State)
    requires Good(s) && s.board.tasks > 0
    ensures s.board.inflight != multiset{}
  {
  }

  lemma LinkedWorker(s: State, p: nat)
    requires Inv(s) && p in s.graph.workers
    ensures Linked(s.graph, p)
  {
  }

  lemma ForthcomingInstalled(s: State, m: Move)
    requires Good(s) && Forthcoming(s, m)
    ensures Good(Result(s, m)) && Installed(Result(s, m).graph) == Installed(s.graph)
  {
    hide Good, Enabled, Result, Installed;
    WithinReflexive(s);
    WithinStep(s, s, m);
    WithinInstalled(s, Result(s, m));
    WithinGood(s, Result(s, m));
  }

  lemma TwoMoves(s: State, now: int, m: Move, rest: seq<Move>)
    requires s.clock <= now && Enabled(At(s, now), m) && Legal(Result(At(s, now), m), rest)
    ensures var moves := [Wake(now), m] + rest; Legal(s, moves) && After(s, moves) == After(Result(At(s, now), m), rest)
  {
    var moves := [Wake(now), m] + rest;
    assert moves[1..] == [m] + rest && ([m] + rest)[1..] == rest;
    assert Legal(At(s, now), [m] + rest);
  }

  /** From every reachable state a shutdown runs to its end: no worker and no action
      task is left. Each round delivers one thing that is owed, so the measure bounds
      the rounds. */
  lemma {:induction false} ShutdownCompletes(s: State) returns (moves: seq<Move>)
    requires Good(s) && Dependencies.Sound(Installed(s.graph))
    ensures Legal(s, moves) && !Busy(After(s, moves)) && forall m <- moves :: Shutting(m)
    decreases WorkLeft(s.graph), CallsLeft(s.graph, s.board)
  {
    hide Good, Result, Installed, Enabled, WorkLeft, CallsLeft, Dependencies.Sound;
    moves := [];
    if Busy(s) {
      var now, m := ShutdownProgress(s);
      AtGood(s, now);
      ForthcomingInstalled(At(s, now), m);
      SameInstalled(s, now);
      var rest := ShutdownCompletes(Result(At(s, now), m));
      TwoMoves(s, now, m, rest);
      moves := [Wake(now), m] + rest;
    }
  }

  lemma SameInstalled(s: State, now: int)
    ensures Installed(At(s, now).graph) == Installed(s.graph)
  {
  }
}
