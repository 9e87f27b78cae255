/** The hooks and checks of every scope: which were reached, which are running,
    and whose results are still to come. */
module ActionBoard {
  import opened Options
  import opened Config

  /** An actionScope: the hooks of one worker process or of one generation. */
  datatype Scope = OfWorker(worker: nat) | OfCycle(cycle: nat)
  {
    function Kind(): Kind {
      if OfWorker? then ForWorker else ForApp
    }
  }

  /** One actionRun: the binding at `index` of a scope's list for `event`. */
  datatype RunRef = RunRef(scope: Scope, event: Event, index: nat)

  /** `launches` is a history variable: how often the run was invoked. */
  datatype Run = Run(
    binding: Binding,
    running: bool,
    done: bool,
    success: bool,
    cancelled: bool,
    failures: nat,
    next: Option<int>,
    launches: nat
  )

  /** `begun` holds the phases a scope has reached; `inflight` has one entry for
      each launched action whose result has not been handled; `tasks` is the
      loop's own count of them. */
  datatype Board = Board(runs: map<RunRef, Run>, begun: set<(Scope, Event)>, inflight: multiset<RunRef>, tasks: int)

  const EMPTY_BOARD := Board(map[], {}, multiset{}, 0)

  // ------------------------------------------------------------- operations

  predicate Launchable(run: Run, event: Event, now: int) {
    && !run.running && !run.cancelled
    && (run.next.None? || run.next.value <= now)
    && (!run.done || event == Health || (event == Readiness && !run.success))
  }

  function FreshRun(binding: Binding): Run {
    Run(binding, false, false, false, false, 0, None, 0)
  }

  /** The runs a scope gets when one of its phases is reached for the first time. */
  function FreshRuns(scope: Scope, event: Event, bindings: seq<Binding>): map<RunRef, Run> {
    map i: nat | i < |bindings| && bindings[i].kind == scope.Kind() :: RunRef(scope, event, i) := FreshRun(bindings[i])
  }

  function Opened(b: Board, scope: Scope, event: Event, bindings: seq<Binding>): Board {
    if (scope, event) in b.begun then b
    else b.(runs := b.runs + FreshRuns(scope, event, bindings), begun := b.begun + {(scope, event)})
  }

  /** The runs that reaching a phase at `now` invokes. */
  function Due(b: Board, scope: Scope, event: Event, now: int): set<RunRef> {
    set r | r in b.runs && r.scope == scope && r.event == event && Launchable(b.runs[r], event, now)
  }

  function Launched(run: Run): Run {
    run.(running := true, launches := run.launches + 1)
  }

  function Launch(b: Board, due: set<RunRef>): Board {
    b.(runs := map r | r in b.runs :: if r in due then Launched(b.runs[r]) else b.runs[r],
       inflight := b.inflight + multiset(due),
       tasks := b.tasks + |due|)
  }

  /** phase: open it on its first visit, then invoke whatever is due. */
  function Reach(b: Board, scope: Scope, event: Event, bindings: seq<Binding>, now: int): Board {
    var o := Opened(b, scope, event, bindings);
    Launch(o, Due(o, scope, event, now))
  }

  /** Whether an awaited run lets its phase pass. */
  predicate Passed(run: Run, event: Event) {
    || !run.binding.awaited
    || (event == Health && run.failures < run.binding.threshold)
    || (event != Health && run.done && run.success)
    || (!event.Periodic() && run.done && run.binding.onFailure == Log)
  }

  /** What `phase` returns, read off the board it leaves. */
  predicate PhaseOk(b: Board, scope: Scope, event: Event) {
    forall r <- b.runs :: r.scope == scope && r.event == event ==> Passed(b.runs[r], event)
  }

  function Cancelled(run: Run): Run {
    run.(cancelled := true)
  }

  /** cancelPhase for each of `events`. */
  function Cancel(b: Board, scope: Scope, events: set<Event>): Board {
    b.(runs := map r | r in b.runs :: if r.scope == scope && r.event in events then Cancelled(b.runs[r]) else b.runs[r])
  }

  const CHECKS: set<Event> := {PreStart, PostStart, Readiness, Health}

  /** The run after its result: a cancelled one only stops running. */
  function Finished(run: Run, ok: bool, now: int): Run {
    var idle := run.(running := false);
    if run.cancelled then idle
    else idle.(done := true, success := ok, next := Some(now + run.binding.interval),
               failures := if ok then 0 else run.failures + 1)
  }

  /** The bookkeeping part of actionResult. */
  function Collect(b: Board, r: RunRef, ok: bool, now: int): Board
    requires r in b.runs
  {
    b.(runs := b.runs[r := Finished(b.runs[r], ok, now)], inflight := b.inflight - multiset{r}, tasks := b.tasks - 1)
  }

  /** Whether a result retires the processes of the run's scope. */
  predicate Retires(before: Run, ok: bool) {
    && !before.cancelled && !ok
    && before.binding.awaited && before.binding.onFailure == Restart
    && before.failures + 1 >= before.binding.threshold
  }

  // -------------------------------------------------------------- invariant

  /** The counters of one run: a start or stop hook is invoked at most once, a
      readiness check never again after it succeeded. */
  predicate Counted(run: Run, event: Event) {
    && (run.launches == 0 ==> !run.running && !run.done && run.next.None?)
    && (event == PostStop ==> !run.cancelled)
    && (!run.running && !run.done && !run.cancelled ==> run.launches == 0)
    && (!event.Periodic() ==> run.launches <= 1 && !(run.running && run.done))
    && (run.success ==> run.done)
    && (event == Readiness && run.success ==> !run.running)
  }

  predicate Sound(b: Board, r: RunRef)
    requires r in b.runs
  {
    && (r.scope, r.event) in b.begun
    && Counted(b.runs[r], r.event)
    && b.inflight[r] == (if b.runs[r].running then 1 else 0)
  }

  /** The results still to come are exactly those of the running runs, each once. */
  ghost predicate BoardInv(b: Board) {
    && (forall r <- b.runs :: Sound(b, r))
    && (forall r <- b.inflight :: r in b.runs)
    && b.tasks == |b.inflight|
  }

  /** What happened to a run since an earlier board: a cancelled run or a
      readiness check that succeeded is never invoked again. */
  predicate Later(run: Run, next: Run, event: Event) {
    && next.binding == run.binding
    && run.launches <= next.launches
    && (next.running && !run.running ==> run.launches < next.launches)
    && (run.cancelled ==>
         next.cancelled && next.launches == run.launches && next.failures == run.failures && next.done == run.done)
    && (run.done ==> next.done)
    && (event == Readiness && run.success ==> next.success && next.launches == run.launches)
    && (!event.Periodic() && run.done ==> next.success == run.success)
  }

  ghost predicate BoardLater(b: Board, c: Board) {
    && b.begun <= c.begun
    && (forall r <- b.runs :: r in c.runs && Later(b.runs[r], c.runs[r], r.event))
    && (forall r <- c.runs :: r !in b.runs ==> (r.scope, r.event) !in b.begun)
  }

  // ------------------------------------------------------------------ proofs

  lemma OpenedSound(b: Board, scope: Scope, event: Event, bindings: seq<Binding>)
    requires BoardInv(b)
    ensures BoardInv(Opened(b, scope, event, bindings))
  {
    var o := Opened(b, scope, event, bindings);
    forall r <- o.runs ensures Sound(o, r) {
      if r in b.runs { assert Sound(b, r); } else { assert r !in b.inflight; }
    }
  }

  lemma LaunchSound(b: Board, scope: Scope, event: Event, now: int)
    requires BoardInv(b)
    ensures BoardInv(Launch(b, Due(b, scope, event, now)))
  {
    var due := Due(b, scope, event, now);
    var c := Launch(b, due);
    forall r <- c.runs ensures Sound(c, r) {
      assert Sound(b, r);
      assert c.inflight[r] == b.inflight[r] + (if r in due then 1 else 0);
    }
    forall r <- c.inflight ensures r in c.runs {
      assert r in b.inflight || r in due;
    }
  }

  lemma ReachSound(b: Board, scope: Scope, event: Event, bindings: seq<Binding>, now: int)
    requires BoardInv(b)
    ensures BoardInv(Reach(b, scope, event, bindings, now))
  {
    OpenedSound(b, scope, event, bindings);
    LaunchSound(Opened(b, scope, event, bindings), scope, event, now);
  }

  lemma CancelSound(b: Board, scope: Scope, events: set<Event>)
    requires BoardInv(b) && PostStop !in events
    ensures BoardInv(Cancel(b, scope, events))
  {
    var c := Cancel(b, scope, events);
    forall r <- c.runs ensures Sound(c, r) { assert Sound(b, r); }
  }

  lemma CollectSound(b: Board, r: RunRef, ok: bool, now: int)
    requires BoardInv(b) && r in b.inflight && r in b.runs
    ensures BoardInv(Collect(b, r, ok, now))
  {
    var c := Collect(b, r, ok, now);
    assert Sound(b, r);
    forall q <- c.runs ensures Sound(c, q) { assert Sound(b, q); }
    forall q <- c.inflight ensures q in c.runs { assert q in b.inflight; }
  }

  /** Every awaited hook of a phase that was reached let it pass. */
  ghost predicate HooksPassed(b: Board, scope: Scope, event: Event) {
    (scope, event) in b.begun && PhaseOk(b, scope, event)
  }

  lemma LaterTransitive(a: Board, b: Board, c: Board)
    requires BoardLater(a, b) && BoardLater(b, c)
    ensures BoardLater(a, c)
  {
    forall r <- a.runs ensures r in c.runs && Later(a.runs[r], c.runs[r], r.event) {
      assert r in b.runs && Later(a.runs[r], b.runs[r], r.event) && Later(b.runs[r], c.runs[r], r.event);
    }
  }

  lemma ReachLater(b: Board, scope: Scope, event: Event, bindings: seq<Binding>, now: int)
    requires BoardInv(b)
    ensures BoardLater(b, Reach(b, scope, event, bindings, now))
    ensures Reach(b, scope, event, bindings, now).begun == b.begun + {(scope, event)}
  {
    var o := Opened(b, scope, event, bindings);
    assert BoardLater(b, o);
    OpenedSound(b, scope, event, bindings);
    LaunchLater(o, scope, event, now);
    LaterTransitive(b, o, Reach(b, scope, event, bindings, now));
  }

  lemma LaunchLater(b: Board, scope: Scope, event: Event, now: int)
    requires BoardInv(b)
    ensures BoardLater(b, Launch(b, Due(b, scope, event, now)))
  {
    forall r <- b.runs ensures Later(b.runs[r], Launch(b, Due(b, scope, event, now)).runs[r], r.event) {
      assert Sound(b, r);
    }
  }

  lemma CancelLater(b: Board, scope: Scope, events: set<Event>)
    ensures BoardLater(b, Cancel(b, scope, events))
  {
  }

  lemma CollectLater(b: Board, r: RunRef, ok: bool, now: int)
    requires BoardInv(b) && r in b.inflight && r in b.runs
    ensures BoardLater(b, Collect(b, r, ok, now))
  {
    assert Sound(b, r);
  }

  /** A phase that passed stays passed, whatever is reached, cancelled or finished later. */
  lemma PassedStays(b: Board, c: Board, scope: Scope, event: Event)
    requires BoardLater(b, c) && HooksPassed(b, scope, event) && event != Health
    ensures HooksPassed(c, scope, event)
  {
    forall r <- c.runs | r.scope == scope && r.event == event ensures Passed(c.runs[r], event) {
      assert r in b.runs && Passed(b.runs[r], event) && Later(b.runs[r], c.runs[r], event);
    }
  }
}
