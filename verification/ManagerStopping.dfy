/** The stopping loop: whatever it does and in whatever order its messages come, the
    measure of ManagerShutdown does not rise, and each round of fair turns lowers it. */
module ManagerStopping {
  import opened Config
  import opened ActionBoard
  import opened ManagerState
  import opened ManagerSteps
  import opened ManagerInvariant
  import opened ManagerHistory
  import opened ManagerOperations
  import opened ManagerTable
  import opened ManagerRuns
  import opened ManagerTick
  import opened ManagerShutdown
  import opened Sets

  // ------------------------------------------------- a tick only leads onward

  lemma StopIfLeads(s: State, p: nat, reason: bool)
    requires Inv(s) && Stoppable(s, p, true)
    ensures Leads(s, StopIf(s, p, s.clock, reason))
  {
    hide Inv, Leads, Stop;
    if reason { StopLeads(s, p, s.clock, true); } else { LeadsReflexive(s); }
  }

  lemma ProbeLeads(s: State, p: nat)
    requires Inv(s) && p in s.graph.workers && Linked(s.graph, p)
    ensures Leads(s, Probe(s, p, s.clock))
  {
    hide Inv, Leads;
    if Probeable(s.graph.procs[p], s.clock) { ProbingLeads(s, p); } else { LeadsReflexive(s); }
  }

  lemma SettleLeads(s: State, p: nat)
    requires Inv(s) && Linked(s.graph, p)
    ensures Leads(s, Settle(s, p, s.clock))
  {
    hide Inv, Leads;
    var v := s.graph.procs[p].service;
    if Steady(s.graph.procs[p], s.clock) { ServiceLeads(s, v, s.graph.svcs[v].(failures := 0)); } else {
      LeadsReflexive(s);
    }
  }

  lemma KillOverdueLeads(s: State, p: nat)
    requires Inv(s) && p in s.graph.workers && Linked(s.graph, p)
    requires Overdue(s.graph.procs[p], s.clock) ==> s.graph.procs[p].stopSent
    ensures Leads(s, KillOverdue(s, p, s.clock))
  {
    hide Inv, Leads, Kill;
    var child := s.graph.procs[p];
    if !child.pending && !child.killed && Overdue(child, s.clock) { KillLeads(s, p); } else { LeadsReflexive(s); }
  }

  lemma LeadsClock(s: State, t: State)
    requires Leads(s, t)
    ensures t.clock == s.clock && Inv(t)
  {
    hide Inv;
  }

  lemma InspectActiveLeads(s: State, p: nat)
    requires Inv(s) && ActiveWorker(s.graph, p) && Linked(s.graph, p)
    ensures Leads(s, InspectActive(s, p, s.clock))
  {
    hide Inv, Leads, Stop, Probe, Stuck, Late, Settle;
    var u := StopIf(s, p, s.clock, Late(s.graph.procs[p], s.clock));
    StopIfLeads(s, p, Late(s.graph.procs[p], s.clock));
    LeadsClock(s, u);
    var v := Probe(u, p, u.clock);
    ProbeLeads(u, p);
    LeadsClock(u, v);
    LeadsTransitive(s, u, v);
    ProbeRecord(u, p, u.clock);
    var w := StopIf(v, p, v.clock, Stuck(v.graph.procs[p], v.clock));
    StopIfLeads(v, p, Stuck(v.graph.procs[p], v.clock));
    LeadsClock(v, w);
    LeadsTransitive(s, v, w);
    SettleLeads(w, p);
    LeadsTransitive(s, w, Settle(w, p, w.clock));
  }

  /** A worker that is still there after its lifecycle. */
  lemma Reviewed(s: State, p: nat)
    requires Inv(s) && p in s.graph.workers
    ensures Linked(s.graph, p)
    ensures var t := Lifecycle(s, p, s.clock);
      && Leads(s, t) && Linked(t.graph, p) && Consistent(t.graph.procs[p])
      && (!t.graph.procs[p].exited ==> p in t.graph.workers)
  {
    LifecycleLeads(s, p, s.clock);
    hide Lifecycle, Leads;
    LeadsClock(s, Lifecycle(s, p, s.clock));
  }

  lemma InspectLeads(s: State, p: nat)
    requires Inv(s) && p in s.graph.workers
    ensures Linked(s.graph, p) && Leads(s, Inspect(s, p, s.clock))
  {
    hide Inv, Leads, Lifecycle, Stop, InspectActive, KillOverdue, Consistent;
    Reviewed(s, p);
    var t := Lifecycle(s, p, s.clock);
    LeadsClock(s, t);
    var child := t.graph.procs[p];
    if child.exited {
    } else if child.stopping.Some? {
      StillOverdue(s, p);
      KillOverdueLeads(t, p);
      LeadsTransitive(s, t, KillOverdue(t, p, t.clock));
    } else if Exhausted(child, t.clock) {
      StopLeads(t, p, t.clock, true);
      LeadsTransitive(s, t, Stop(t, p, t.clock, true));
    } else {
      InspectActiveLeads(t, p);
      LeadsTransitive(s, t, InspectActive(t, p, t.clock));
    }
  }

  /** The lifecycle of an overdue process sends its stop. */
  lemma StillOverdue(s: State, p: nat)
    requires Linked(s.graph, p) && !Lifecycle(s, p, s.clock).graph.procs[p].exited
    ensures var child := Lifecycle(s, p, s.clock).graph.procs[p];
      && child.stopping == s.graph.procs[p].stopping && (Overdue(child, s.clock) ==> child.stopSent)
  {
    hide LifecycleExited, LifecycleStopping, LifecycleActive;
  }

  lemma {:induction false} InspectAllLeads(s: State, order: seq<nat>)
    requires Inv(s)
    ensures Leads(s, InspectAll(s, order))
    decreases |order|
  {
    hide Inv, Leads, Inspect;
    if order == [] {
      LeadsReflexive(s);
    } else {
      var rest, p := order[..|order| - 1], order[|order| - 1];
      var t := InspectAll(s, rest);
      InspectAllLeads(s, rest);
      LeadsClock(s, t);
      if p in t.graph.workers && Linked(t.graph, p) {
        InspectLeads(t, p);
        LeadsTransitive(s, t, Inspect(t, p, t.clock));
      }
    }
  }

  lemma ScanOneLeads(s: State, p: nat)
    requires Inv(s) && p in s.graph.workers && Linked(s.graph, p)
    ensures Leads(s, Stop(s, p, s.clock, false))
  {
    hide Inv, Leads, Stop;
    StopLeads(s, p, s.clock, false);
  }

  lemma {:induction false} ScanAllLeads(s: State, order: seq<nat>)
    requires Inv(s)
    ensures Leads(s, ScanAll(s, order))
    decreases |order|
  {
    hide Inv, Leads, Stop, HasDependent;
    if order == [] {
      LeadsReflexive(s);
    } else {
      var rest, p := order[..|order| - 1], order[|order| - 1];
      var t := ScanAll(s, rest);
      ScanAllLeads(s, rest);
      LeadsClock(s, t);
      if p in t.graph.workers && Linked(t.graph, p) && !HasDependent(t.graph, p) {
        ScanOneLeads(t, p);
        LeadsTransitive(s, t, Stop(t, p, t.clock, false));
      }
    }
  }

  lemma TickLeads(a: Account, s: State, t: State, reading: Schedule.Reading)
    requires Inv(s) && Explains(a, s, t, true, reading)
    ensures Leads(s, a.inspected) && Leads(a.inspected, t) && Leads(s, t)
  {
    hide Inv, Leads, InspectAll, ScanAll, Enumerates;
    InspectAllLeads(s, a.order);
    LeadsClock(s, a.inspected);
    ScanAllLeads(a.inspected, a.scan);
    LeadsTransitive(s, a.inspected, t);
  }

  /** No stopping tick raises the measure. */
  lemma TickNotRisen(a: Account, s: State, t: State, reading: Schedule.Reading)
    requires Inv(s) && Explains(a, s, t, true, reading)
    ensures NotRisen(s, t)
  {
    hide Inv, Leads, Explains, NotRisen, Falls;
    TickLeads(a, s, t, reading);
    LeadsNotRisen(s, t);
  }

  // ------------------------------------------------------ while nothing falls

  /** Of what the measure counts nothing has changed, and nobody's deadline moved. */
  ghost predicate Calm(s: State, t: State) {
    && s.clock <= t.clock && t.graph.workers == s.graph.workers
    && Alive(t.graph) == Alive(s.graph) && Unretired(t.graph) == Unretired(s.graph)
    && Unkilled(t.graph) == Unkilled(s.graph)
    && Owed(t.graph, t.board) == Owed(s.graph, s.board)
    && forall p <- s.graph.workers ::
         p in s.graph.procs && p in t.graph.procs && SameTerms(s.graph.procs[p], t.graph.procs[p])
  }

  predicate SameTerms(child: Process, next: Process) {
    next.config == child.config && (child.stopping.Some? ==> next.stopping == child.stopping)
  }

  lemma CalmReflexive(s: State)
    requires Inv(s)
    ensures Calm(s, s)
  {
  }

  lemma CalmTransitive(s: State, t: State, u: State)
    requires Calm(s, t) && Calm(t, u)
    ensures Calm(s, u)
  {
    hide Alive, Unretired, Unkilled, Owed;
  }

  lemma FallsOnward(s: State, t: State, u: State)
    requires (Falls(s, t) && NotRisen(t, u)) || (NotRisen(s, t) && Falls(t, u))
    ensures Falls(s, u)
  {
    hide WorkLeft, CallsLeft;
  }

  lemma NotRisenOnward(s: State, t: State, u: State)
    requires NotRisen(s, t) && NotRisen(t, u)
    ensures NotRisen(s, u)
  {
    hide WorkLeft, CallsLeft;
  }

  lemma LeadsCalm(s: State, t: State)
    requires Inv(s) && Leads(s, t) && !Falls(s, t)
    ensures Calm(s, t)
  {
    hide Inv, Leads, WorkLeft, CallsLeft, HooksLeft, Owed, Alive, Unasked, Unkilled, Unretired, BegunLater,
         BoardLater, Retirement;
    LeadsNotRisen(s, t);
    LeadsParts(s, t);
    LeadsClock(s, t);
    WorkSame(s.graph, t.graph);
    HooksShrink(s, t);
    forall r <- Owed(t.graph, t.board) ensures r in Owed(s.graph, s.board) {
      if r !in Owed(s.graph, s.board) { NewlyOwed(s, t, r); }
    }
    forall r <- Owed(s.graph, s.board) ensures r in Owed(t.graph, t.board) {
      assert r !in Owed(s.graph, s.board) - Owed(t.graph, t.board);
    }
    hide Indexed;
    SameTermsKept(s.graph, t.graph);
  }

  lemma SameTermsKept(g: Graph, h: Graph)
    requires Listed(g) && GraphLater(g, h)
    ensures forall p <- g.workers :: p in g.procs && p in h.procs && SameTerms(g.procs[p], h.procs[p])
  {
    forall p <- g.workers ensures p in g.procs && p in h.procs && SameTerms(g.procs[p], h.procs[p]) {
      assert Linked(g, p);
      assert Onward(g.procs[p], h.procs[p]);
    }
  }

  lemma OwedNothing(s: State)
    ensures Owed(s.graph, s.board) == {} <==> NothingOwed(s)
  {
    hide Dead;
    assert forall r <- s.board.inflight :: r in s.board.runs && Dead(s.graph, r.scope) <==> r in Owed(s.graph, s.board);
  }

  // ----------------------------------------------------- what a tick brings on

  /** The next visit of a tick acts on this worker: its last hooks start or it leaves, or
      it is told to stop, or it is killed. */
  predicate DueVisit(s: State, p: nat) {
    && p in s.graph.workers && Linked(s.graph, p)
    && (s.graph.procs[p].exited || (Overdue(s.graph.procs[p], s.clock) && !s.graph.procs[p].killed))
  }

  lemma CalmDue(s: State, t: State, p: nat)
    requires Calm(s, t) && DueVisit(s, p) && Linked(t.graph, p)
    ensures DueVisit(t, p)
  {
    hide Owed, Unretired;
    assert p in Alive(s.graph) <==> p in Alive(t.graph);
    assert p in Unkilled(s.graph) <==> p in Unkilled(t.graph);
  }

  lemma VisitFalls(s: State, p: nat)
    requires Good(s) && DueVisit(s, p) && NothingOwed(s)
    ensures Falls(s, Inspect(s, p, s.clock))
  {
    hide Good, Inv, Falls, Lifecycle, KillOverdue, NothingOwed, HasExited, Leads;
    GoodInv(s);
    var t := Lifecycle(s, p, s.clock);
    if s.graph.procs[p].exited {
      VisitExited(s, p);
    } else {
      LifecycleLeads(s, p, s.clock);
      LeadsNotRisen(s, t);
      InspectLeads(s, p);
      ConsistentWorker(s, p);
      if !s.graph.procs[p].stopSent {
        OverdueFalls(s, p);
        LeadsClock(s, t);
        InspectTail(s, p);
        LeadsNotRisen(t, Inspect(s, p, s.clock));
        FallsOnward(s, t, Inspect(s, p, s.clock));
      } else {
        InspectKills(s, p);
        WorkFalls(s, Inspect(s, p, s.clock), p);
      }
    }
  }

  lemma VisitExited(s: State, p: nat)
    requires Good(s) && p in s.graph.workers && Linked(s.graph, p) && s.graph.procs[p].exited && NothingOwed(s)
    ensures Falls(s, Inspect(s, p, s.clock))
  {
    hide Good, Inv, Falls, Lifecycle, NothingOwed, Quiescent;
    GoodInv(s);
    ExitedQuiescent(s, p);
    ExitedFalls(s, p);
    assert SameMarks(s.graph.procs[p], Lifecycle(s, p, s.clock).graph.procs[p]);
  }

  /** What follows the lifecycle of a retiring worker. */
  lemma InspectTail(s: State, p: nat)
    requires Inv(s) && p in s.graph.workers && Linked(s.graph, p) && !s.graph.procs[p].exited
    requires s.graph.procs[p].stopping.Some?
    ensures Leads(Lifecycle(s, p, s.clock), Inspect(s, p, s.clock))
  {
    hide Inv, Leads, Lifecycle, KillOverdue, Consistent;
    Reviewed(s, p);
    var t := Lifecycle(s, p, s.clock);
    LeadsClock(s, t);
    assert SameMarks(s.graph.procs[p], t.graph.procs[p]);
    if t.graph.procs[p].exited {
      LeadsReflexive(t);
    } else {
      StillOverdue(s, p);
      KillOverdueLeads(t, p);
    }
  }

  /** An overdue worker that was asked to stop is killed, unless it is found to have gone. */
  lemma InspectKills(s: State, p: nat)
    requires Inv(s) && p in s.graph.workers && Linked(s.graph, p) && Consistent(s.graph.procs[p])
    requires Overdue(s.graph.procs[p], s.clock) && s.graph.procs[p].stopSent && !s.graph.procs[p].exited
    requires !s.graph.procs[p].killed
    ensures var h := Inspect(s, p, s.clock).graph; p in Unkilled(s.graph) && p !in Unkilled(h)
  {
    hide Inv, Lifecycle;
    AskedToStop(s, p);
  }

  lemma AskedToStop(s: State, p: nat)
    requires Linked(s.graph, p) && Consistent(s.graph.procs[p]) && !s.graph.procs[p].exited
    requires Overdue(s.graph.procs[p], s.clock) && s.graph.procs[p].stopSent
    ensures Lifecycle(s, p, s.clock).graph.procs[p] == s.graph.procs[p] && !s.graph.procs[p].pending
  {
  }

  /** A visit that is due lowers the measure wherever it comes in the order. */
  lemma {:induction false} InspectAllFalls(s: State, order: seq<nat>, p: nat)
    requires Good(s) && DueVisit(s, p) && NothingOwed(s) && p in order
    ensures Falls(s, InspectAll(s, order))
    decreases |order|
  {
    hide Good, Inv, Leads, Falls, NotRisen, Inspect, DueVisit, NothingOwed, Calm;
    GoodInv(s);
    var rest, q := order[..|order| - 1], order[|order| - 1];
    var t := InspectAll(s, rest);
    InspectAllLeads(s, rest);
    LeadsClock(s, t);
    LeadsNotRisen(s, t);
    if p in rest {
      InspectAllFalls(s, rest, p);
    }
    if Falls(s, t) {
      if q in t.graph.workers && Linked(t.graph, q) {
        InspectLeads(t, q);
        LeadsNotRisen(t, Inspect(t, q, t.clock));
        FallsOnward(s, t, Inspect(t, q, t.clock));
      }
    } else {
      assert q == p;
      LeadsCalm(s, t);
      CalmVisit(s, t, p);
      VisitFalls(t, p);
      FallsOnward(s, t, Inspect(t, p, t.clock));
    }
  }

  lemma CalmVisit(s: State, t: State, p: nat)
    requires Good(s) && Leads(s, t) && Calm(s, t) && DueVisit(s, p) && NothingOwed(s)
    ensures Good(t) && DueVisit(t, p) && NothingOwed(t) && p in t.graph.workers && Linked(t.graph, p)
  {
    hide Owed, Leads, NothingOwed;
    LeadsKeepsGood(s, t);
    OwedNothing(s);
    OwedNothing(t);
    WorkerKnown(t, p);
    hide Good;
    CalmDue(s, t, p);
  }

  // The scan.

  lemma DependentsSame(g: Graph, h: Graph, p: nat)
    requires Listed(g) && GraphLater(g, h) && h.workers == g.workers && p in g.workers && Linked(g, p) && Linked(h, p)
    ensures HasDependent(h, p) ==> HasDependent(g, p)
  {
    if HasDependent(h, p) {
      var d :| d in h.workers && d in h.procs && h.svcs[h.procs[p].service].name in h.procs[d].config.dependencies;
      assert Linked(g, d);
      assert Onward(g.procs[d], h.procs[d]) && Onward(g.procs[p], h.procs[p]);
      assert SameService(g.svcs[g.procs[p].service], h.svcs[h.procs[p].service]);
    }
  }

  lemma ScanVisitFalls(s: State, p: nat)
    requires Inv(s) && p in s.graph.workers && Linked(s.graph, p) && s.graph.procs[p].stopping.None?
    ensures Falls(s, Stop(s, p, s.clock, false))
  {
    hide Inv, Falls, Stop;
    StopFalls(s, p);
  }

  /** A worker that counts and that nobody depends on is stopped wherever it comes. */
  lemma {:induction false} ScanAllFalls(s: State, order: seq<nat>, p: nat)
    requires Inv(s) && p in order && p in s.graph.workers && Linked(s.graph, p)
    requires s.graph.procs[p].stopping.None? && !HasDependent(s.graph, p)
    ensures Falls(s, ScanAll(s, order))
    decreases |order|
  {
    hide Inv, Leads, Falls, NotRisen, Stop, HasDependent, Calm;
    var rest, q := order[..|order| - 1], order[|order| - 1];
    var t := ScanAll(s, rest);
    ScanAllLeads(s, rest);
    LeadsClock(s, t);
    LeadsNotRisen(s, t);
    if p in rest {
      ScanAllFalls(s, rest, p);
    }
    if Falls(s, t) {
      if q in t.graph.workers && Linked(t.graph, q) && !HasDependent(t.graph, q) {
        ScanOneLeads(t, q);
        LeadsNotRisen(t, Stop(t, q, t.clock, false));
        FallsOnward(s, t, Stop(t, q, t.clock, false));
      }
    } else {
      assert q == p;
      LeadsCalm(s, t);
      CalmScan(s, t, p);
      ScanVisitFalls(t, p);
      FallsOnward(s, t, Stop(t, p, t.clock, false));
    }
  }

  lemma CalmScan(s: State, t: State, p: nat)
    requires Inv(s) && Leads(s, t) && Calm(s, t) && p in s.graph.workers && Linked(s.graph, p)
    requires s.graph.procs[p].stopping.None? && !HasDependent(s.graph, p)
    ensures p in t.graph.workers && Linked(t.graph, p) && t.graph.procs[p].stopping.None? && !HasDependent(t.graph, p)
  {
    hide Inv, Leads, HasDependent, Owed, Alive, Unkilled, GraphLater, BegunLater, BoardLater, Retirement, Indexed,
         Listed;
    LeadsParts(s, t);
    LinkedWorker(t, p);
    assert p in Unretired(s.graph) && p in Unretired(t.graph);
    DependentsSame(s.graph, t.graph, p);
  }

  ghost predicate AllActive(s: State) {
    forall w <- s.graph.workers :: w in s.graph.procs ==> s.graph.procs[w].Active()
  }

  lemma CalmActive(s: State, t: State)
    requires Calm(s, t) && AllActive(s)
    ensures AllActive(t)
  {
    hide Owed, Unkilled;
    forall w <- t.graph.workers | w in t.graph.procs ensures t.graph.procs[w].Active() {
      assert w in Alive(s.graph) && w in Unretired(s.graph);
      assert w in Alive(t.graph) && w in Unretired(t.graph);
    }
  }

  lemma LeadsInstalled(s: State, t: State)
    requires Leads(s, t)
    ensures Installed(t.graph) == Installed(s.graph)
  {
    hide Inv, ProcsLater, CyclesLater, BoardLater, BegunLater;
    EvolvesTables(s, t);
  }

  /** A stopping tick lowers the measure, if no answer is owed, as soon as some worker has
      exited or is past its deadline and not killed, or as soon as all of them count. */
  lemma TickFalls(a: Account, s: State, t: State, reading: Schedule.Reading)
    requires Good(s) && Dependencies.Sound(Installed(s.graph)) && Explains(a, s, t, true, reading)
    requires NothingOwed(s) && s.graph.workers != {}
    requires (exists p :: DueVisit(s, p)) || AllActive(s)
    ensures Falls(s, t)
  {
    hide Good, Inv, Leads, Falls, NotRisen, InspectAll, ScanAll, DueVisit, NothingOwed, AllActive, Calm,
         Dependencies.Sound, Installed;
    GoodInv(s);
    TickLeads(a, s, t, reading);
    LeadsClock(s, a.inspected);
    LeadsNotRisen(s, a.inspected);
    LeadsNotRisen(a.inspected, t);
    if p :| DueVisit(s, p) {
      assert p in s.graph.workers by { DueWorker(s, p); }
      InspectAllFalls(s, a.order, p);
      FallsOnward(s, a.inspected, t);
    } else if Falls(s, a.inspected) {
      FallsOnward(s, a.inspected, t);
    } else {
      LeadsCalm(s, a.inspected);
      CalmActive(s, a.inspected);
      CalmWorkers(s, a.inspected);
      LeadsInstalled(s, a.inspected);
      ScanFalls(a.inspected, a.scan);
      FallsOnward(s, a.inspected, t);
    }
  }

  lemma DueWorker(s: State, p: nat)
    requires DueVisit(s, p)
    ensures p in s.graph.workers
  {
  }

  lemma CalmWorkers(s: State, t: State)
    requires Calm(s, t)
    ensures t.graph.workers == s.graph.workers && s.clock <= t.clock
  {
  }

  lemma ScanFalls(s: State, scan: seq<nat>)
    requires Inv(s) && Dependencies.Sound(Installed(s.graph)) && s.graph.workers != {} && AllActive(s)
    requires Enumerates(scan, s.graph.workers)
    ensures Falls(s, ScanAll(s, scan))
  {
    hide Inv, Falls, ScanAll, HasDependent, Dependencies.Sound, Installed;
    var p := FreeToGo(s);
    ScanAllFalls(s, scan, p);
  }

  // ----------------------------------------------------------------- messages

  /** Stopping workers one after another leads onward, and no worker disappears before
      its turn. */
  lemma {:induction false} StopEachLeads(s: State, order: seq<nat>, failed: bool)
    requires Inv(s) && (forall i | 0 <= i < |order| :: order[i] in s.graph.workers)
    requires forall i, j | 0 <= i < j < |order| :: order[i] != order[j]
    ensures var t := StopEach(s, order, failed);
      Leads(s, t) && forall p <- s.graph.workers :: p !in order ==>
          p in t.graph.workers && p in s.graph.procs && t.graph.procs[p] == s.graph.procs[p]
    decreases |order|
  {
    hide Inv, Leads, Stop;
    if order == [] {
      LeadsReflexive(s);
      forall p <- s.graph.workers ensures p in s.graph.procs { LinkedWorker(s, p); }
    } else {
      var rest, p := order[..|order| - 1], order[|order| - 1];
      var t := StopEach(s, rest, failed);
      StopEachLeads(s, rest, failed);
      LeadsClock(s, t);
      assert p !in rest;
      if Linked(t.graph, p) && (failed ==> t.graph.procs[p].Active()) {
        UnfailedStop(s, t, p, failed);
        StopLeads(t, p, t.clock, failed);
        LeadsTransitive(s, t, Stop(t, p, t.clock, failed));
        assert Confined(t.graph, Stop(t, p, t.clock, failed).graph, p);
      }
    }
  }

  lemma UnfailedStop(s: State, t: State, p: nat, failed: bool)
    requires p in t.graph.workers && Linked(t.graph, p) && (failed ==> t.graph.procs[p].Active())
    ensures Stoppable(t, p, failed)
  {
  }

  /** The demands that a round of listener events raises. */
  function Raise(s: State, called: set<nat>): State {
    s.(graph := s.graph.(svcs := map v | v in s.graph.svcs :: if v in called then s.graph.svcs[v].(demand := true)
        else s.graph.svcs[v]))
  }

  lemma {:induction false} RaiseLeads(s: State, called: set<nat>)
    requires Inv(s) && called <= s.graph.svcs.Keys
    ensures Leads(s, Raise(s, called))
    decreases |called|
  {
    hide Inv, Leads;
    if called == {} {
      assert Raise(s, {}).graph.svcs == s.graph.svcs;
      LeadsReflexive(s);
    } else {
      var v :| v in called;
      var t := Raise(s, called - {v});
      RaiseLeads(s, called - {v});
      LeadsClock(s, t);
      var u := t.(graph := PutService(t.graph, v, t.graph.svcs[v].(demand := true)));
      ServiceLeads(t, v, t.graph.svcs[v].(demand := true));
      LeadsTransitive(s, t, u);
      assert u.graph.svcs == Raise(s, called).graph.svcs;
    }
  }

  lemma ReadableLeads(s: State, t: State, events: seq<(nat, bool)>)
    requires Inv(s) && t == s.(graph := s.graph.(svcs := t.graph.svcs))
    requires Raised(s.graph.svcs, t.graph.svcs, s.listeners, events)
    ensures Leads(s, t)
  {
    hide Inv, Leads, Called;
    var called := set v | v in s.graph.svcs && Called(s.listeners, events, v);
    RaiseLeads(s, called);
    assert t.graph.svcs == Raise(s, called).graph.svcs;
  }

  lemma TargetsWork(s: State, scope: Scope)
    requires Inv(s) && ScopeActive(s.graph, scope)
    ensures Targets(s.graph, scope) <= s.graph.workers
  {
    hide Inv;
    MembersWork(s);
    if scope.OfCycle? { assert scope.cycle in s.graph.cycles; }
  }

  lemma MembersWork(s: State)
    requires Inv(s)
    ensures CycleLists(s.graph)
  {
  }

  lemma ConcludedLeads(s: State, t: State, r: RunRef, ok: bool, order: seq<nat>)
    requires Inv(s) && r in s.board.inflight && r in s.board.runs && Concluded(s, t, r, ok, order)
    ensures Leads(s, t)
  {
    hide Inv, Leads, Collect, StopEach, Retires, ScopeActive, Targets;
    var u := s.(board := Collect(s.board, r, ok, s.clock));
    CollectLeads(s, r, ok, s.clock);
    LeadsClock(s, u);
    RetiresActive(s, r, ok);
    if Retires(s.board.runs[r], ok) {
      TargetsWork(s, r.scope);
      forall i | 0 <= i < |order| ensures order[i] in u.graph.workers { assert order[i] in order; }
      StopEachLeads(u, order, true);
      LeadsTransitive(s, u, t);
    }
  }

  lemma AnswerLeads(s: State, msg: Message)
    requires Inv(s) && msg.AboutProcess() && Expected(s, msg) && msg.process in s.graph.workers
    ensures Linked(s.graph, msg.process) && Leads(s, Answer(s, msg))
  {
    hide Inv, Leads, Enabled, Result, Answer;
    AnswerEnabled(s, msg);
    AnswerIsMove(s, msg);
    ProcessMoveLeads(s, MoveOf(msg));
  }

  /** Whatever message the loop handles, the measure does not rise. */
  lemma HandledLeads(s: State, t: State, msg: Message, order: seq<nat>)
    requires Inv(s) && Expected(s, msg) && Handled(s, t, msg, order)
    ensures Leads(s, t)
  {
    hide Inv, Leads, Concluded, Answer, Raised;
    match msg
    case ActionDone(r, ok) => ConcludedLeads(s, t, r, ok, order);
    case Readable(events) => ReadableLeads(s, t, events);
    case PollFailed => LeadsReflexive(s);
    case _ => if msg.process in s.graph.workers { AnswerLeads(s, msg); } else { LeadsReflexive(s); }
  }

  /** An owed answer lowers it, whether the action succeeded or not. */
  lemma AnswerHandledFalls(s: State, t: State, r: RunRef, ok: bool, order: seq<nat>)
    requires Good(s) && Expected(s, ActionDone(r, ok)) && Handled(s, t, ActionDone(r, ok), order)
    requires r in Owed(s.graph, s.board)
    ensures Falls(s, t)
  {
    hide Inv, Falls, Collect, Retires, ScopeActive, StopEach;
    GoodInv(s);
    RetiresActive(s, r, ok);
    assert !ScopeActive(s.graph, r.scope) by { DeadScope(s, r.scope); }
    AnswerFalls(s, r, ok);
  }

  lemma DeadScope(s: State, scope: Scope)
    requires Inv(s) && Dead(s.graph, scope)
    ensures !ScopeActive(s.graph, scope)
  {
    DeadInactive(s.graph, scope);
  }

  /** So does the exit of a process that is still a worker. */
  lemma ExitHandledFalls(s: State, t: State, p: nat, order: seq<nat>)
    requires Good(s) && p in s.graph.workers && Expected(s, Exited(p)) && Handled(s, t, Exited(p), order)
    ensures Falls(s, t)
  {
    hide Inv, Falls, ProcessExit;
    GoodInv(s);
    ExitFalls(s, p);
  }

  // -------------------------------------------------------------------- turns

  /** One turn of the stopping loop, as the methods of the manager describe it: time
      passes, a message is handled, or the ticker fires. */
  datatype LoopTurn =
    | Waking(now: int)
    | Taking(msg: Message, order: seq<nat>)
    | Ticking(account: Account, reading: Schedule.Reading)

  ghost predicate TurnTaken(s: State, turn: LoopTurn, t: State) {
    match turn
    case Waking(now) => s.clock <= now && t == At(s, now)
    case Taking(msg, order) => Expected(s, msg) && Handled(s, t, msg, order)
    case Ticking(account, reading) => Explains(account, s, t, true, reading)
  }

  /** The hooks and checks that there can be. They do not change in a shutdown. */
  ghost function Refs(g: Graph): set<RunRef> {
    set x, e, i | x in Scopes(g) && e in ALL_EVENTS && 0 <= i < |BindingsOf(g, x, e)| :: RunRef(x, e, i)
  }

  const ALL_EVENTS: set<Event> := {PreStart, PostStart, Readiness, Health, PreStop, PostStop}

  lemma AnyEvent(e: Event)
    ensures e in ALL_EVENTS
  {
  }

  lemma InRefs(g: Graph, r: RunRef)
    ensures r in Refs(g) <==> Known(g, r.scope) && r.index < |BindingsOf(g, r.scope, r.event)|
  {
    assert Known(g, r.scope) <==> r.scope in Scopes(g);
    AnyEvent(r.event);
    assert r == RunRef(r.scope, r.event, r.index);
  }

  lemma LeadsRefs(s: State, t: State)
    requires Inv(s) && Leads(s, t)
    ensures Refs(t.graph) == Refs(s.graph)
  {
    hide Inv, Leads, Refs, GraphLater, Indexed, Retirement, BoardLater, BegunLater;
    LeadsParts(s, t);
    forall r ensures r in Refs(t.graph) <==> r in Refs(s.graph) {
      InRefs(s.graph, r);
      InRefs(t.graph, r);
      SameScopes(s.graph, t.graph, r.scope, r.event);
    }
  }

  /** What every turn keeps. */
  ghost predicate Kept(s: State, t: State) {
    && Good(t) && NotRisen(s, t) && Installed(t.graph) == Installed(s.graph) && Refs(t.graph) == Refs(s.graph)
    && (Falls(s, t) || Calm(s, t))
  }

  lemma LeadsKept(s: State, t: State)
    requires Good(s) && Leads(s, t)
    ensures Kept(s, t)
  {
    hide Good, Inv, Leads, Falls, NotRisen, Calm, Installed, Refs;
    GoodInv(s);
    LeadsKeepsGood(s, t);
    LeadsNotRisen(s, t);
    LeadsInstalled(s, t);
    LeadsRefs(s, t);
    if !Falls(s, t) { LeadsCalm(s, t); }
  }

  lemma WakeKept(s: State, now: int)
    requires Good(s) && s.clock <= now
    ensures Kept(s, At(s, now))
  {
    hide Good, Falls, WorkLeft, CallsLeft;
    WakeKeepsGood(s, now);
    SameMeasure(s, At(s, now));
    WakeCalm(s, now);
  }

  lemma WakeCalm(s: State, now: int)
    requires Good(s) && s.clock <= now
    ensures Calm(s, At(s, now))
  {
    forall p <- s.graph.workers ensures p in s.graph.procs { assert Linked(s.graph, p); }
  }

  lemma TurnKept(s: State, turn: LoopTurn, t: State)
    requires Good(s) && TurnTaken(s, turn, t)
    ensures Kept(s, t)
  {
    hide Good, Inv, Leads, Kept, Handled, Explains, Expected;
    GoodInv(s);
    match turn
    case Waking(now) => WakeKept(s, now);
    case Taking(msg, order) =>
      HandledLeads(s, t, msg, order);
      LeadsKept(s, t);
    case Ticking(account, reading) =>
      TickLeads(account, s, t, reading);
      LeadsKept(s, t);
  }

  lemma KeptReflexive(s: State)
    requires Good(s)
    ensures Kept(s, s)
  {
    hide Good, Inv;
    GoodInv(s);
    CalmReflexive(s);
  }

  lemma KeptTransitive(s: State, t: State, u: State)
    requires Kept(s, t) && Kept(t, u)
    ensures Kept(s, u)
  {
    hide Good, Falls, NotRisen, Calm, Installed, Refs;
    NotRisenOnward(s, t, u);
    if Falls(s, t) || Falls(t, u) { FallsOnward(s, t, u); } else { CalmTransitive(s, t, u); }
  }

  // --------------------------------------------------------------------- runs

  datatype Stride = Stride(turn: LoopTurn, after: State)

  function Before(s: State, run: seq<Stride>, i: nat): State
    requires i <= |run|
  {
    if i == 0 then s else run[i - 1].after
  }

  /** The turns follow one another from `s`. */
  ghost predicate Follows(s: State, run: seq<Stride>) {
    forall i | 0 <= i < |run| :: TurnTaken(Before(s, run, i), run[i].turn, run[i].after)
  }

  function EndOf(s: State, run: seq<Stride>): State {
    Before(s, run, |run|)
  }

  lemma {:induction false} RunKept(s: State, run: seq<Stride>, i: nat, j: nat)
    requires Good(s) && Follows(s, run) && i <= j <= |run| && (i > 0 ==> Good(Before(s, run, i)))
    ensures Kept(Before(s, run, i), Before(s, run, j))
    decreases j
  {
    hide Good, TurnTaken, Kept;
    if i == j {
      KeptReflexive(Before(s, run, i));
    } else {
      RunKept(s, run, i, j - 1);
      var t := Before(s, run, j - 1);
      KeptGood(Before(s, run, i), t);
      TurnKept(t, run[j - 1].turn, run[j - 1].after);
      KeptTransitive(Before(s, run, i), t, run[j - 1].after);
    }
  }

  lemma KeptGood(s: State, t: State)
    requires Kept(s, t)
    ensures Good(t) && NotRisen(s, t) && Installed(t.graph) == Installed(s.graph) && Refs(t.graph) == Refs(s.graph)
    ensures (Falls(s, t) || Calm(s, t))
  {
    hide Good, Falls, NotRisen, Calm, Installed, Refs;
  }

  /** A turn that would lower the measure in every state as calm as `s` lowers it in
      every run in which it occurs. */
  lemma OneFalls(s: State, run: seq<Stride>, i: nat)
    requires Good(s) && Follows(s, run) && i < |run|
    requires Calm(s, Before(s, run, i)) ==> Falls(Before(s, run, i), run[i].after)
    ensures Falls(s, EndOf(s, run))
  {
    hide Good, TurnTaken, Kept, Falls, NotRisen, Calm, Installed, Refs;
    var t, u, end := Before(s, run, i), Before(s, run, i + 1), EndOf(s, run);
    RunKept(s, run, 0, i);
    KeptGood(s, t);
    RunKept(s, run, 0, i + 1);
    KeptGood(s, u);
    RunKept(s, run, i + 1, |run|);
    KeptGood(u, end);
    if !Falls(s, t) { FallsOnward(s, t, u); } else {
      TurnKept(t, run[i].turn, u);
      KeptGood(t, u);
      FallsOnward(s, t, u);
    }
    FallsOnward(s, u, end);
  }

  // ----------------------------------------------------------------- fairness

  /** Processes that were killed and whose exit has not been reported. */
  ghost function Doomed(g: Graph): set<nat> {
    Alive(g) - Unkilled(g)
  }

  /** The tick comes when every deadline that was running at `s` has passed. */
  predicate PastDeadlines(s: State, now: int) {
    forall p <- s.graph.workers :: p in s.graph.procs && s.graph.procs[p].stopping.Some? ==>
        Overdue(s.graph.procs[p], now)
  }

  ghost predicate AnswerComes(s: State, run: seq<Stride>) {
    exists i ::
        0 <= i < |run| && run[i].turn.Taking? && run[i].turn.msg.ActionDone?
            && run[i].turn.msg.run in Owed(s.graph, s.board)
  }

  ghost predicate ExitComes(s: State, run: seq<Stride>) {
    exists i ::
        0 <= i < |run| && run[i].turn.Taking? && run[i].turn.msg.Exited? && run[i].turn.msg.process in Doomed(s.graph)
  }

  ghost predicate TickComes(s: State, run: seq<Stride>) {
    exists i :: 0 <= i < |run| && run[i].turn.Ticking? && PastDeadlines(s, Before(s, run, i).clock)
  }

  /** A round of turns in which the loop and its environment do their part: if answers
      are owed one of them comes, if a killed process has not exited one exits, and the
      ticker fires after the deadlines that were running. Anything else may happen in
      between, in any order and any number. */
  ghost predicate Fair(s: State, run: seq<Stride>) {
    && Follows(s, run)
    && (Owed(s.graph, s.board) != {} ==> AnswerComes(s, run))
    && (Doomed(s.graph) != {} ==> ExitComes(s, run))
    && TickComes(s, run)
  }

  lemma AnswerRoundFalls(s: State, run: seq<Stride>)
    requires Good(s) && Follows(s, run) && AnswerComes(s, run)
    ensures Falls(s, EndOf(s, run))
  {
    hide Good, Kept, Falls, Owed, Handled, Explains, Expected;
    var i :| 0 <= i < |run| && run[i].turn.Taking? && run[i].turn.msg.ActionDone?
        && run[i].turn.msg.run in Owed(s.graph, s.board);
    var t, turn := Before(s, run, i), run[i].turn;
    assert TurnTaken(t, turn, run[i].after);
    if Calm(s, t) {
      RunKept(s, run, 0, i);
      assert Good(t) by { KeptGood(s, t); }
      AnswerHandledFalls(t, run[i].after, turn.msg.run, turn.msg.ok, turn.order);
    }
    hide TurnTaken, Calm;
    OneFalls(s, run, i);
  }

  lemma ExitRoundFalls(s: State, run: seq<Stride>)
    requires Good(s) && Follows(s, run) && ExitComes(s, run)
    ensures Falls(s, EndOf(s, run))
  {
    hide Good, Kept, Falls, Owed, Handled, Explains, Expected, Doomed;
    var i :| 0 <= i < |run| && run[i].turn.Taking? && run[i].turn.msg.Exited?
        && run[i].turn.msg.process in Doomed(s.graph);
    var t, turn := Before(s, run, i), run[i].turn;
    assert TurnTaken(t, turn, run[i].after);
    if Calm(s, t) {
      RunKept(s, run, 0, i);
      assert Good(t) by { KeptGood(s, t); }
      DoomedWorks(s.graph, turn.msg.process);
      ExitHandledFalls(t, run[i].after, turn.msg.process, turn.order);
    }
    hide TurnTaken, Calm;
    OneFalls(s, run, i);
  }

  lemma DoomedWorks(g: Graph, p: nat)
    requires p in Doomed(g)
    ensures p in g.workers
  {
  }

  /** No answer is owed and no killed process is left: there is work for the next tick. */
  lemma TickHasWork(s: State, t: State)
    requires Good(s) && Good(t) && Calm(s, t) && Busy(s) && Owed(s.graph, s.board) == {} && Doomed(s.graph) == {}
    requires PastDeadlines(s, t.clock)
    ensures NothingOwed(t) && t.graph.workers != {} && ((exists p :: DueVisit(t, p)) || AllActive(t))
  {
    hide Good, Owed, Dead;
    OwedNothing(s);
    OwedNothing(t);
    WorkersLeft(s);
    if !AllActive(t) {
      var p :| p in t.graph.workers && p in t.graph.procs && !t.graph.procs[p].Active();
      WorkerKnown(t, p);
      assert p in Alive(s.graph) <==> p in Alive(t.graph);
      assert p in Unretired(s.graph) <==> p in Unretired(t.graph);
      assert p in Unkilled(s.graph) <==> p in Unkilled(t.graph);
      assert p !in Doomed(s.graph);
      assert DueVisit(t, p);
    }
  }

  lemma WorkersLeft(s: State)
    requires Good(s) && Busy(s) && NothingOwed(s)
    ensures s.graph.workers != {}
  {
    hide Good, Dead;
    if s.graph.workers == {} {
      TasksOwed(s);
      var r :| r in s.board.inflight;
      OnlyAnswersLeft(s, r);
      assert false;
    }
  }

  lemma TickRoundFalls(s: State, run: seq<Stride>)
    requires Good(s) && Dependencies.Sound(Installed(s.graph)) && Busy(s) && Follows(s, run) && TickComes(s, run)
    requires Owed(s.graph, s.board) == {} && Doomed(s.graph) == {}
    ensures Falls(s, EndOf(s, run))
  {
    hide Good, Kept, Falls, Owed, Explains, Doomed, Dependencies.Sound, Installed, PastDeadlines, NothingOwed,
         AllActive, DueVisit, Calm;
    var i :| 0 <= i < |run| && run[i].turn.Ticking? && PastDeadlines(s, Before(s, run, i).clock);
    var t, turn := Before(s, run, i), run[i].turn;
    assert TurnTaken(t, turn, run[i].after);
    if Calm(s, t) {
      RunKept(s, run, 0, i);
      assert Good(t) && Installed(t.graph) == Installed(s.graph) by { KeptGood(s, t); }
      TickHasWork(s, t);
      TickFalls(turn.account, t, run[i].after, turn.reading);
    }
    hide TurnTaken;
    OneFalls(s, run, i);
  }

  /** Every fair round of a shutdown that is not over lowers the measure. */
  lemma FairRoundFalls(s: State, run: seq<Stride>)
    requires Good(s) && Dependencies.Sound(Installed(s.graph)) && Busy(s) && Fair(s, run)
    ensures Falls(s, EndOf(s, run))
  {
    hide Good, Falls, Owed, Doomed, Dependencies.Sound, Installed, Follows, AnswerComes, ExitComes, TickComes;
    if Owed(s.graph, s.board) != {} {
      AnswerRoundFalls(s, run);
    } else if Doomed(s.graph) != {} {
      ExitRoundFalls(s, run);
    } else {
      TickRoundFalls(s, run);
    }
  }

  // ----------------------------------------------------------- how many rounds

  /** The measure as a number: as many calls can be left as there are hooks and checks. */
  ghost function Rank(s: State): nat {
    WorkLeft(s.graph) * (3 * |Refs(s.graph)| + 1) + CallsLeft(s.graph, s.board)
  }

  lemma CallsBounded(s: State)
    requires Good(s)
    ensures CallsLeft(s.graph, s.board) <= 3 * |Refs(s.graph)|
  {
    hide HooksLeft, Owed, Refs, Good, Inv, Dead;
    GoodInv(s);
    forall r <- HooksLeft(s.graph, s.board) ensures r in Refs(s.graph) {
      InHooksLeft(s.graph, s.board, r);
      InRefs(s.graph, r);
    }
    forall r <- Owed(s.graph, s.board) ensures r in Refs(s.graph) {
      OwedRun(s, r);
      InRefs(s.graph, r);
    }
    SubsetSize(HooksLeft(s.graph, s.board), Refs(s.graph));
    SubsetSize(Owed(s.graph, s.board), Refs(s.graph));
  }

  lemma OwedRun(s: State, r: RunRef)
    requires Inv(s) && r in Owed(s.graph, s.board)
    ensures Known(s.graph, r.scope) && r.index < |BindingsOf(s.graph, r.scope, r.event)|
  {
    RunOf(s, r);
    ScopeKnown(s, r);
  }

  lemma RankFalls(s: State, t: State)
    requires Good(t) && Falls(s, t) && Refs(t.graph) == Refs(s.graph)
    ensures Rank(t) < Rank(s)
  {
    hide Good, WorkLeft, CallsLeft, Refs;
    CallsBounded(t);
    var size := 3 * |Refs(s.graph)| + 1;
    Lower(WorkLeft(t.graph), WorkLeft(s.graph), size);
  }

  lemma Lower(a: nat, b: nat, size: nat)
    ensures a < b ==> a * size + size <= b * size
  {
    if a < b {
      assert (a + 1) * size <= b * size by {
        assert (b - a - 1) * size >= 0;
        assert b * size == (a + 1) * size + (b - a - 1) * size;
      }
      assert (a + 1) * size == a * size + size;
    }
  }

  /** Where the k-th round begins. */
  function RoundStart(s: State, rounds: seq<seq<Stride>>, k: nat): State
    requires k <= |rounds|
    decreases k
  {
    if k == 0 then s else EndOf(RoundStart(s, rounds, k - 1), rounds[k - 1])
  }

  lemma {:induction false} LaterRounds(s: State, rounds: seq<seq<Stride>>, k: nat)
    requires 1 <= k <= |rounds|
    ensures RoundStart(s, rounds, k) == RoundStart(EndOf(s, rounds[0]), rounds[1..], k - 1)
    decreases k
  {
    hide EndOf;
    if k > 1 { LaterRounds(s, rounds, k - 1); }
  }

  /** Every shutdown ends. Take any run of the stopping loop, cut into rounds each of
      which is fair as long as there is something left to do: before more rounds have
      passed than the rank of the first state, no worker and no action task is left. */
  lemma {:induction false} ShutdownEnds(s: State, rounds: seq<seq<Stride>>) returns (k: nat)
    requires Good(s) && Dependencies.Sound(Installed(s.graph)) && |rounds| >= Rank(s)
    requires forall i | 0 <= i < |rounds| :: Busy(RoundStart(s, rounds, i)) ==>
        Fair(RoundStart(s, rounds, i), rounds[i])
    ensures k <= Rank(s) && !Busy(RoundStart(s, rounds, k))
    decreases Rank(s)
  {
    hide Good, Dependencies.Sound, Installed, Rank, Busy, Fair, EndOf;
    k := 0;
    if Busy(s) {
      assert RoundStart(s, rounds, 0) == s;
      RankPositive(s);
      var t, later := EndOf(s, rounds[0]), rounds[1..];
      FairRound(s, rounds[0]);
      forall i | 0 <= i < |later| ensures Busy(RoundStart(t, later, i)) ==> Fair(RoundStart(t, later, i), later[i]) {
        LaterRounds(s, rounds, i + 1);
      }
      k := ShutdownEnds(t, later);
      LaterRounds(s, rounds, k + 1);
      k := k + 1;
    }
  }

  lemma FairRound(s: State, run: seq<Stride>)
    requires Good(s) && Dependencies.Sound(Installed(s.graph)) && Busy(s) && Fair(s, run)
    ensures Good(EndOf(s, run)) && Installed(EndOf(s, run).graph) == Installed(s.graph) && Rank(EndOf(s, run)) < Rank(s)
  {
    hide Good, Kept, Falls, Dependencies.Sound, Installed, Rank, Refs, Busy, Follows;
    FairRoundFalls(s, run);
    RunKept(s, run, 0, |run|);
    KeptGood(s, EndOf(s, run));
    RankFalls(s, EndOf(s, run));
  }

  /** Something is left to do only while the measure is not yet zero. */
  lemma RankPositive(s: State)
    requires Good(s) && Busy(s)
    ensures 0 < Rank(s)
  {
    hide Good, Refs;
    if s.graph.workers == {} {
      TasksOwed(s);
      var r :| r in s.board.inflight;
      OnlyAnswersLeft(s, r);
      assert r in Owed(s.graph, s.board);
    } else {
      Lower(0, WorkLeft(s.graph), 3 * |Refs(s.graph)| + 1);
    }
  }

  /** A shutdown that is over stays over. */
  lemma OverStays(s: State, turn: LoopTurn, t: State)
    requires Good(s) && !Busy(s) && TurnTaken(s, turn, t)
    ensures !Busy(t)
  {
    hide Inv, Good, Explains, Concluded, Answer;
    TasksCounted(s);
    match turn
    case Waking(_) =>
    case Taking(msg, order) => NoTasks(s);
    case Ticking(account, reading) => NobodyThere(s, account, t, reading);
  }

  lemma TasksCounted(s: State)
    requires Good(s)
    ensures s.board.tasks >= 0
  {
  }

  lemma NoTasks(s: State)
    requires Good(s) && !Busy(s)
    ensures s.board.inflight == multiset{}
  {
  }

  lemma FirstOf<T>(order: seq<T>)
    ensures order != [] ==> order[0] in order
  {
  }

  lemma NobodyThere(s: State, a: Account, t: State, reading: Schedule.Reading)
    requires s.graph.workers == {} && Explains(a, s, t, true, reading)
    ensures t == s
  {
    FirstOf(a.order);
    FirstOf(a.scan);
  }
}
