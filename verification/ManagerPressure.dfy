/** Pressure in the manager: what a service's window measures of its workers and of
    the time that passes, and when it may ask for another worker. */
module ManagerPressure {
  import opened Config
  import opened ManagerState
  import opened ManagerInvariant
  import opened ManagerReload
  import opened ManagerTable
  import opened ManagerTick
  import opened Options
  import Steps = ManagerSteps
  import Pressure

  // ------------------------------------------------------- the measurement

  /** The workers that observePressure counts. */
  function Unretired(procs: map<nat, Process>, workers: set<nat>): set<nat> {
    set w | w in workers && w in procs && procs[w].stopping.None?
  }

  ghost function Pick(counted: set<nat>): (w: nat)
    requires counted != {}
    ensures w in counted
  {
    var w :| w in counted; w
  }

  /** The requests in progress, each worker's up to the concurrency. */
  ghost function Requests(procs: map<nat, Process>, counted: set<nat>, concurrency: Positive): (n: nat)
    requires counted <= procs.Keys
    ensures n <= |counted| * concurrency
  {
    if counted == {} then 0
    else
      var w := Pick(counted);
      assert |counted| == |counted - {w}| + 1;
      assert (|counted - {w}| + 1) * concurrency == |counted - {w}| * concurrency + concurrency;
      Requests(procs, counted - {w}, concurrency) + Pressure.Min(|procs[w].requests|, concurrency)
  }

  ghost predicate AllReport(procs: map<nat, Process>, counted: set<nat>) {
    forall w <- counted :: w in procs && procs[w].ready && procs[w].telemetry
  }

  /** The present occupancy of a pool; none without workers, or if one cannot report. */
  ghost function Reading(procs: map<nat, Process>, workers: set<nat>, concurrency: Positive): (m: Pressure.Measure)
    ensures m.Valid()
  {
    var counted := Unretired(procs, workers);
    if counted == {} || !AllReport(procs, counted) then Pressure.Unusable
    else Pressure.Measured(|counted|, Requests(procs, counted, concurrency), concurrency)
  }

  ghost function ReadingOf(g: Graph, v: nat): (m: Pressure.Measure)
    ensures m.Valid()
  {
    if v in g.svcs then Reading(g.procs, g.svcs[v].workers, g.svcs[v].config.concurrency) else Pressure.Unusable
  }

  /** In whatever order the workers are taken, the requests add up alike. */
  lemma {:induction false} RequestsWithout(procs: map<nat, Process>, counted: set<nat>, concurrency: Positive, w: nat)
    requires counted <= procs.Keys && w in counted
    ensures Requests(procs, counted, concurrency) ==
        Requests(procs, counted - {w}, concurrency) + Pressure.Min(|procs[w].requests|, concurrency)
    decreases |counted|
  {
    var u := Pick(counted);
    if u != w {
      RequestsWithout(procs, counted - {u}, concurrency, w);
      RequestsWithout(procs, counted - {w}, concurrency, u);
      assert counted - {u} - {w} == counted - {w} - {u};
    }
  }

  function LoadOf(procs: map<nat, Process>, p: nat): Pressure.Load {
    if p in procs then Pressure.Load(procs[p].stopping.Some?, procs[p].ready, procs[p].telemetry, |procs[p].requests|)
    else Pressure.Load(true, false, false, 0)
  }

  function Loads(procs: map<nat, Process>, order: seq<nat>): seq<Pressure.Load> {
    seq(|order|, i requires 0 <= i < |order| => LoadOf(procs, order[i]))
  }

  lemma LoadsMore(procs: map<nat, Process>, order: seq<nat>, p: nat)
    ensures Loads(procs, order + [p]) == Loads(procs, order) + [LoadOf(procs, p)] && Loads(procs, []) == []
  {
  }

  /** So the loop over the workers reads the same occupancy in any order. */
  lemma SurveyReads(procs: map<nat, Process>, order: seq<nat>, workers: set<nat>, concurrency: Positive)
    requires Enumerates(order, workers)
    ensures Pressure.MeasureOf(Loads(procs, order), concurrency) == Reading(procs, workers, concurrency)
  {
    hide Enumerates, Requests;
    SurveyCounts(procs, order, workers, concurrency);
    var counted := Unretired(procs, workers);
    assert counted == {} <==> |counted| == 0;
  }

  lemma {:induction false} SurveyCounts(procs: map<nat, Process>, order: seq<nat>, workers: set<nat>,
                                        concurrency: Positive)
    requires Enumerates(order, workers)
    ensures var loads, counted := Loads(procs, order), Unretired(procs, workers);
      && Pressure.Unretired(loads) == |counted|
      && Pressure.Busy(loads, concurrency) == Requests(procs, counted, concurrency)
      && (Pressure.AllReport(loads) <==> AllReport(procs, counted))
    decreases |order|
  {
    hide Enumerates, AllReport, Pressure.AllReport, LoadOf, Requests, Unretired;
    if order == [] {
      NobodyListed(procs, workers, concurrency);
    } else {
      var rest, p := order[..|order| - 1], order[|order| - 1];
      assert order == rest + [p];
      EnumeratesRest(order, workers);
      SurveyCounts(procs, rest, workers - {p}, concurrency);
      LoadsMore(procs, rest, p);
      var loads := Loads(procs, order);
      assert loads[..|loads| - 1] == Loads(procs, rest) && loads[|loads| - 1] == LoadOf(procs, p);
      SurveyOne(procs, rest, workers, p, concurrency);
    }
  }

  lemma NobodyListed(procs: map<nat, Process>, workers: set<nat>, concurrency: Positive)
    requires Enumerates([], workers)
    ensures Unretired(procs, workers) == {} && AllReport(procs, {}) && Requests(procs, {}, concurrency) == 0
    ensures Pressure.AllReport(Loads(procs, []))
  {
    assert workers == {};
  }

  lemma EnumeratesRest(order: seq<nat>, workers: set<nat>)
    requires Enumerates(order, workers) && order != []
    ensures var p := order[|order| - 1]; p in workers && Enumerates(order[..|order| - 1], workers - {p})
  {
    var p, rest := order[|order| - 1], order[..|order| - 1];
    assert p in order && p !in rest;
    forall x ensures x in rest <==> x in workers - {p} {
      if x in workers - {p} { assert x in order; }
      if x in rest { assert x in order; }
    }
  }

  lemma SurveyOne(procs: map<nat, Process>, rest: seq<nat>, workers: set<nat>, p: nat, concurrency: Positive)
    requires p in workers
    ensures var counted, less := Unretired(procs, workers), Unretired(procs, workers - {p});
      && var load := LoadOf(procs, p);
      && |counted| == |less| + (if load.stopping then 0 else 1)
      && Requests(procs, counted, concurrency) == Requests(procs, less, concurrency)
          + (if load.stopping then 0 else Pressure.Min(load.requests, concurrency))
      && (AllReport(procs, counted) <==> AllReport(procs, less) && (load.stopping || Pressure.Reports(load)))
      && (Pressure.AllReport(Loads(procs, rest) + [load]) <==>
            Pressure.AllReport(Loads(procs, rest)) && (load.stopping || Pressure.Reports(load)))
  {
    var counted, less, load := Unretired(procs, workers), Unretired(procs, workers - {p}), LoadOf(procs, p);
    if load.stopping {
      assert counted == less;
    } else {
      assert counted - {p} == less;
      RequestsWithout(procs, counted, concurrency, p);
    }
    var loads := Loads(procs, rest);
    assert forall x :: x in loads + [load] <==> x in loads || x == load;
  }

  // ----------------------------------------------- windows and their services

  /** The windows of the services, beside the services themselves. */
  datatype Meters = Meters(gauges: map<nat, Pressure.Window>, graph: Graph)

  function WindowOf(gauges: map<nat, Pressure.Window>, v: nat): Pressure.Window {
    if v in gauges then gauges[v] else Pressure.Empty
  }

  /** The window goes on from exactly this occupancy, or from none. */
  ghost predicate Matches(w: Pressure.Window, m: Pressure.Measure)
    requires m.Valid()
  {
    if m.Unusable? then w.Empty? else w.Window? && w.workers == m.workers && w.value == m.Level()
  }

  ghost predicate Shows(x: Meters, v: nat) {
    Matches(WindowOf(x.gauges, v), ReadingOf(x.graph, v))
  }

  /** The services whose pressure is followed. */
  predicate Continuous(g: Graph, v: nat) {
    Live(g, v) && !g.svcs[v].config.Scheduled()
  }

  /** Every followed service's window shows its present occupancy. */
  ghost predicate AllShow(x: Meters) {
    forall v: nat :: Continuous(x.graph, v) ==> Shows(x, v)
  }

  /** Nobody is left to measure, or somebody exited without being asked to. */
  ghost predicate Blank(g: Graph, v: nat) {
    v in g.svcs ==>
      var counted := Unretired(g.procs, g.svcs[v].workers);
      counted == {} || exists w <- counted :: g.procs[w].exited && !g.procs[w].ready
  }

  /** What is left of a fit while the workers' readiness is being updated. */
  ghost predicate Dull(x: Meters, v: nat) {
    Blank(x.graph, v) ==> WindowOf(x.gauges, v).Empty?
  }

  ghost predicate AllDull(x: Meters) {
    forall v: nat :: Continuous(x.graph, v) ==> Dull(x, v)
  }

  lemma BlankUnusable(g: Graph, v: nat)
    requires Blank(g, v)
    ensures ReadingOf(g, v).Unusable?
  {
  }

  lemma ShowsDull(x: Meters, v: nat)
    requires Shows(x, v)
    ensures Dull(x, v)
  {
    hide Blank, ReadingOf;
    if Blank(x.graph, v) { BlankUnusable(x.graph, v); }
  }

  /** Only service `v` and its window differ. */
  ghost predicate Beside(x: Meters, y: Meters, v: nat) {
    forall u: nat | u != v ::
      && WindowOf(y.gauges, u) == WindowOf(x.gauges, u)
      && ReadingOf(y.graph, u) == ReadingOf(x.graph, u) && Blank(y.graph, u) == Blank(x.graph, u)
  }

  ghost predicate OnlyWindow(before: map<nat, Pressure.Window>, after: map<nat, Pressure.Window>, v: nat) {
    forall u: nat | u != v :: WindowOf(after, u) == WindowOf(before, u)
  }

  /** No other window differs, and what is left of a fit stays. */
  ghost predicate DullStays(x: Meters, y: Meters, v: nat) {
    OnlyWindow(x.gauges, y.gauges, v) && (Dull(x, v) ==> Dull(y, v))
  }

  lemma DullStaysReflexive(x: Meters, v: nat)
    ensures DullStays(x, x, v)
  {
  }

  lemma DullStaysTransitive(x: Meters, y: Meters, z: Meters, v: nat)
    requires DullStays(x, y, v) && DullStays(y, z, v)
    ensures DullStays(x, z, v)
  {
    hide Dull;
  }

  lemma BesideReflexive(x: Meters, v: nat)
    ensures Beside(x, x, v)
  {
  }

  lemma BesideTransitive(x: Meters, y: Meters, z: Meters, v: nat)
    requires Beside(x, y, v) && Beside(y, z, v)
    ensures Beside(x, z, v)
  {
    hide ReadingOf, Blank;
  }

  lemma BesideShows(x: Meters, y: Meters, v: nat)
    requires AllShow(x) && Beside(x, y, v) && SameServices(x.graph, y.graph)
    requires Continuous(y.graph, v) ==> Shows(y, v)
    ensures AllShow(y)
  {
    hide ReadingOf, Blank;
    forall u: nat | Continuous(y.graph, u) ensures Shows(y, u) {
      if u != v { assert Continuous(x.graph, u) && Shows(x, u); }
    }
  }

  lemma BesideDull(x: Meters, y: Meters, v: nat)
    requires AllDull(x) && Beside(x, y, v) && SameServices(x.graph, y.graph)
    requires Continuous(y.graph, v) ==> Dull(y, v)
    ensures AllDull(y)
  {
    hide ReadingOf, Blank;
    forall u: nat | Continuous(y.graph, u) ensures Dull(y, u) {
      if u != v { assert Continuous(x.graph, u) && Dull(x, u); }
    }
  }

  lemma AllShowDull(x: Meters)
    requires AllShow(x)
    ensures AllDull(x)
  {
    hide ReadingOf, Blank, Shows, Dull;
    forall v: nat | Continuous(x.graph, v) ensures Dull(x, v) { ShowsDull(x, v); }
  }

  /** After an observation the window shows what was observed. */
  lemma ObservedShows(x: Meters, v: nat, clock: int)
    ensures var y := x.(gauges := x.gauges[v :=
        Pressure.Observe(WindowOf(x.gauges, v), clock, ReadingOf(x.graph, v))]);
      Shows(y, v) && Beside(x, y, v)
  {
    hide ReadingOf, Blank;
  }

  lemma EvaluatedShows(x: Meters, v: nat, clock: int, window: Positive)
    requires Shows(x, v)
    ensures var y := x.(gauges := x.gauges[v := Pressure.Evaluate(WindowOf(x.gauges, v), clock, window)]);
      Shows(y, v) && Beside(x, y, v)
  {
    hide ReadingOf, Blank;
  }

  /** A step on one process leaves the readings of all other services alone. */
  lemma ConfinedBeside(gauges: map<nat, Pressure.Window>, g: Graph, h: Graph, p: nat, v: nat)
    requires Steps.Confined(g, h, p) && forall u <- g.svcs | u != v :: p !in g.svcs[u].workers
    requires forall u <- g.svcs :: h.svcs[u].config == g.svcs[u].config
    ensures Beside(Meters(gauges, g), Meters(gauges, h), v)
  {
    hide ReadingOf, Blank;
    forall u: nat | u != v ensures ReadingOf(h, u) == ReadingOf(g, u) && Blank(h, u) == Blank(g, u) {
      if u in g.svcs { SameReading(g, h, u); } else { NoReading(g, h, u); }
    }
  }

  lemma NoReading(g: Graph, h: Graph, u: nat)
    requires u !in g.svcs && u !in h.svcs
    ensures ReadingOf(h, u) == ReadingOf(g, u) && Blank(h, u) == Blank(g, u)
  {
  }

  /** The same, for a step of the manager that may change this service's window. */
  lemma StepBeside(s: State, t: State, u: State, p: nat, gauges: map<nat, Pressure.Window>,
                   after: map<nat, Pressure.Window>)
    requires Within(s, t) && Within(s, u) && Steps.Confined(t.graph, u.graph, p) && p in t.graph.procs
    requires OnlyWindow(gauges, after, t.graph.procs[p].service)
    ensures Beside(Meters(gauges, t.graph), Meters(after, u.graph), t.graph.procs[p].service)
  {
    hide Steps.Confined, Within, ServiceLists, OnlyWindow, Beside;
    StepConfigs(s, t, u);
    OtherServices(t.graph, p);
    ConfinedBeside(gauges, t.graph, u.graph, p, t.graph.procs[p].service);
    WindowBeside(t.graph, u.graph, gauges, after, t.graph.procs[p].service);
  }

  lemma OtherServices(g: Graph, p: nat)
    requires ServiceLists(g) && p in g.procs
    ensures forall u <- g.svcs | u != g.procs[p].service :: p !in g.svcs[u].workers
  {
  }

  lemma ServicesWithin(s: State, t: State)
    requires Within(s, t)
    ensures SameServices(s.graph, t.graph)
  {
    WithinTables(s, t);
  }

  lemma StepConfigs(s: State, t: State, u: State)
    requires Within(s, t) && Within(s, u)
    ensures SameServices(t.graph, u.graph) && ServiceLists(t.graph)
    ensures forall v <- t.graph.svcs :: v in u.graph.svcs && u.graph.svcs[v].config == t.graph.svcs[v].config
  {
    WithinInv(s, t);
    WithinTables(s, t);
    WithinTables(s, u);
    hide Within;
  }

  lemma WindowBeside(g: Graph, h: Graph, gauges: map<nat, Pressure.Window>, after: map<nat, Pressure.Window>, v: nat)
    requires Beside(Meters(gauges, g), Meters(gauges, h), v) && OnlyWindow(gauges, after, v)
    ensures Beside(Meters(gauges, g), Meters(after, h), v)
  {
    hide ReadingOf, Blank;
  }

  /** What a reading depends on. */
  predicate SameLoad(child: Process, next: Process) {
    && next.stopping == child.stopping && next.ready == child.ready && next.exited == child.exited
    && next.telemetry == child.telemetry && |next.requests| == |child.requests|
  }

  lemma SameReading(g: Graph, h: Graph, u: nat)
    requires u in g.svcs && u in h.svcs && h.svcs[u].workers == g.svcs[u].workers
    requires h.svcs[u].config.concurrency == g.svcs[u].config.concurrency
    requires forall w <- g.svcs[u].workers :: w in h.procs <==> w in g.procs
    requires forall w <- g.svcs[u].workers :: w in g.procs ==> SameLoad(g.procs[w], h.procs[w])
    ensures ReadingOf(h, u) == ReadingOf(g, u) && Blank(h, u) == Blank(g, u)
  {
    var a, b := Unretired(g.procs, g.svcs[u].workers), Unretired(h.procs, h.svcs[u].workers);
    assert a == b;
    SameRequests(g.procs, h.procs, a, g.svcs[u].config.concurrency);
  }

  /** A change of one process that no reading depends on. */
  lemma LoadStays(gauges: map<nat, Pressure.Window>, g: Graph, h: Graph, p: nat, v: nat)
    requires p in g.procs && p in h.procs && h.procs == g.procs[p := h.procs[p]] && SameLoad(g.procs[p], h.procs[p])
    requires h.svcs.Keys == g.svcs.Keys
    requires v in g.svcs ==>
        h.svcs[v].workers == g.svcs[v].workers && h.svcs[v].config.concurrency == g.svcs[v].config.concurrency
    ensures ReadingOf(h, v) == ReadingOf(g, v) && Blank(h, v) == Blank(g, v)
    ensures DullStays(Meters(gauges, g), Meters(gauges, h), v)
  {
    hide ReadingOf, Blank;
    if v in g.svcs { SameReading(g, h, v); } else { NoReading(g, h, v); }
  }

  /** A lifecycle visit publishes readiness, or takes an exited process away. */
  lemma LifecycleDull(gauges: map<nat, Pressure.Window>, s: State, p: nat, now: int)
    requires Linked(s.graph, p) && (s.graph.procs[p].exited ==> !s.graph.procs[p].ready)
    ensures DullStays(Meters(gauges, s.graph), Meters(gauges, Steps.Lifecycle(s, p, now).graph),
        s.graph.procs[p].service)
  {
    var t, v := Steps.Lifecycle(s, p, now), s.graph.procs[p].service;
    LifecycleExit(s, p, now);
    hide Steps.Lifecycle;
    if Blank(t.graph, v) {
      var before, after := Unretired(s.graph.procs, s.graph.svcs[v].workers),
          Unretired(t.graph.procs, t.graph.svcs[v].workers);
      if w :| w in after && t.graph.procs[w].exited && !t.graph.procs[w].ready {
        assert w in before && s.graph.procs[w].exited;
      } else if w :| w in before {
        assert w !in after && w == p && s.graph.procs[p].exited;
      }
      assert Blank(s.graph, v);
    }
  }

  lemma LifecycleLinked(s: State, p: nat, now: int)
    requires Linked(s.graph, p)
    ensures var g := Steps.Lifecycle(s, p, now).graph;
      Linked(g, p) && g.procs[p].service == s.graph.procs[p].service
  {
    hide Steps.Lifecycle;
  }

  lemma LifecycleExit(s: State, p: nat, now: int)
    requires Linked(s.graph, p)
    ensures var child, next := s.graph.procs[p], Steps.Lifecycle(s, p, now).graph.procs[p];
      && (child.exited ==> next == child) && (child.stopping.None? ==> next.exited == child.exited)
  {
    hide Steps.Confined, Steps.OnlyWorkers;
  }

  lemma NotReadyExited(s: State, p: nat)
    requires Inv(s) && p in s.graph.workers
    ensures p in s.graph.procs && (s.graph.procs[p].exited ==> !s.graph.procs[p].ready)
  {
    assert Consistent(s.graph.procs[p]);
  }

  /** One worker is inspected within a tick. */
  lemma InspectedDull(s: State, t: State, p: nat, gauges: map<nat, Pressure.Window>, after: map<nat, Pressure.Window>)
    requires Within(s, t) && Linked(t.graph, p) && Within(s, Inspect(t, p, t.clock))
    requires DullStays(Meters(gauges, t.graph), Meters(after, Inspect(t, p, t.clock).graph), t.graph.procs[p].service)
    ensures AllDull(Meters(gauges, t.graph)) ==> AllDull(Meters(after, Inspect(t, p, t.clock).graph))
  {
    hide Inspect, Within, Dull, Beside, Steps.Confined;
    var u, v := Inspect(t, p, t.clock), t.graph.procs[p].service;
    var x, y := Meters(gauges, t.graph), Meters(after, u.graph);
    StepBeside(s, t, u, p, gauges, after);
    StepConfigs(s, t, u);
    if AllDull(x) {
      assert Continuous(y.graph, v) ==> Continuous(x.graph, v);
      BesideDull(x, y, v);
    }
  }

  /** One worker of a service is stopped. */
  lemma StoppedBeside(s: State, t: State, v: nat, p: nat, gauges: map<nat, Pressure.Window>,
                      after: map<nat, Pressure.Window>)
    requires Within(s, t) && Linked(t.graph, p) && Within(s, Steps.Stop(t, p, t.clock, false))
    requires v in t.graph.svcs && p in t.graph.svcs[v].workers
    requires after == gauges[t.graph.procs[p].service := WindowOf(after, t.graph.procs[p].service)]
    ensures Beside(Meters(gauges, t.graph), Meters(after, Steps.Stop(t, p, t.clock, false).graph), v)
    ensures t.graph.procs[p].service == v
  {
    hide Steps.Stop, Within, Beside, Steps.Confined;
    StepConfigs(s, t, t);
    StepBeside(s, t, Steps.Stop(t, p, t.clock, false), p, gauges, after);
  }

  /** Counters, times and demands of a service do not enter its reading. */
  lemma TunedBeside(x: Meters, v: nat, service: Service)
    requires v in x.graph.svcs
    requires service.workers == x.graph.svcs[v].workers && service.config == x.graph.svcs[v].config
    ensures var y := x.(graph := PutService(x.graph, v, service));
      && Beside(x, y, v) && ReadingOf(y.graph, v) == ReadingOf(x.graph, v)
      && (Shows(x, v) ==> Shows(y, v)) && (Dull(x, v) ==> Dull(y, v))
  {
    hide ReadingOf, Blank;
    var h := PutService(x.graph, v, service);
    forall u: nat ensures ReadingOf(h, u) == ReadingOf(x.graph, u) && Blank(h, u) == Blank(x.graph, u) {
      if u in x.graph.svcs { SameReading(x.graph, h, u); } else { NoReading(x.graph, h, u); }
    }
  }

  lemma {:induction false} SameRequests(procs: map<nat, Process>, more: map<nat, Process>, counted: set<nat>,
                                        concurrency: Positive)
    requires counted <= procs.Keys && counted <= more.Keys
    requires forall w <- counted :: |more[w].requests| == |procs[w].requests|
    ensures Requests(more, counted, concurrency) == Requests(procs, counted, concurrency)
    decreases |counted|
  {
    if w :| w in counted {
      RequestsWithout(procs, counted, concurrency, w);
      RequestsWithout(more, counted, concurrency, w);
      SameRequests(procs, more, counted - {w}, concurrency);
    }
  }

  // ---------------------------------------------------- between two turns

  /** The occupancy of a followed service is measured all the time. */
  ghost predicate NoneMissed(g: Graph, missed: set<nat>) {
    forall v: nat :: Continuous(g, v) ==> v !in missed
  }

  lemma NoneMissedOn(g: Graph, h: Graph, missed: set<nat>)
    requires NoneMissed(g, missed) && SameServices(g, h)
    ensures NoneMissed(h, missed)
  {
    forall v: nat | Continuous(h, v) ensures v !in missed { assert Continuous(g, v); }
  }

  /** Every followed service's window shows its present occupancy, and always did when
      time passed. */
  ghost predicate Metered(x: Meters, missed: set<nat>) {
    AllShow(x) && NoneMissed(x.graph, missed)
  }

  lemma BesideMetered(x: Meters, y: Meters, v: nat, missed: set<nat>)
    requires Metered(x, missed) && Beside(x, y, v) && SameServices(x.graph, y.graph)
    requires Continuous(y.graph, v) && Shows(x, v) ==> Shows(y, v)
    ensures Metered(y, missed)
  {
    hide Beside, Shows;
    NoneMissedOn(x.graph, y.graph, missed);
    assert Continuous(y.graph, v) ==> Continuous(x.graph, v);
    BesideShows(x, y, v);
  }

  /** A worker is stopped, and its service is observed. */
  lemma StopMetered(s: State, t: State, p: nat, failed: bool, gauges: map<nat, Pressure.Window>,
                    after: map<nat, Pressure.Window>, missed: set<nat>)
    requires Within(s, t) && Linked(t.graph, p) && Within(s, Steps.Stop(t, p, t.clock, failed))
    requires var v := t.graph.procs[p].service;
      OnlyWindow(gauges, after, v) && Shows(Meters(after, Steps.Stop(t, p, t.clock, failed).graph), v)
    ensures Metered(Meters(gauges, t.graph), missed) ==>
        Metered(Meters(after, Steps.Stop(t, p, t.clock, failed).graph), missed)
  {
    hide Steps.Stop, Within, Beside, Shows, Steps.Confined, Metered;
    var u := Steps.Stop(t, p, t.clock, failed);
    StepBeside(s, t, u, p, gauges, after);
    StepConfigs(s, t, u);
    if Metered(Meters(gauges, t.graph), missed) {
      BesideMetered(Meters(gauges, t.graph), Meters(after, u.graph), t.graph.procs[p].service, missed);
    }
  }

  lemma ConfinedTransitive(g: Graph, h: Graph, k: Graph, p: nat)
    requires Steps.Confined(g, h, p) && Steps.Confined(h, k, p) && p in g.procs
    ensures Steps.Confined(g, k, p)
  {
  }

  lemma GreetedConfined(s: State, p: nat, child: Process)
    requires p in s.graph.procs && SameObject(s.graph.procs[p], child)
    ensures Steps.Confined(s.graph, Steps.WithProc(s, p, child).graph, p)
  {
  }

  /** Whatever a message says, only its own process and service are concerned. */
  lemma AnswerConfined(s: State, msg: Message)
    requires msg.AboutProcess() && Linked(s.graph, msg.process)
    ensures Steps.Confined(s.graph, Answer(s, msg).graph, msg.process)
  {
    hide Steps.Confined, Steps.Stop, Steps.Lifecycle, Steps.OnlyWorkers;
    var p, now := msg.process, s.clock;
    var child := s.graph.procs[p];
    match msg
    case Exited(_) =>
      LostConfined(s, p, now);
      ConfinedTransitive(s.graph, Steps.Lost(s, p, now).graph, Answer(s, msg).graph, p);
    case Probed(_, ready) => GreetedConfined(s, p, Steps.Probed(child, ready, now));
    case Hello(_, ready) =>
      var t := Steps.WithProc(s, p, Steps.Greeted(child, ready, now));
      GreetedConfined(s, p, Steps.Greeted(child, ready, now));
      if Linked(t.graph, p) { ConfinedTransitive(s.graph, t.graph, Steps.Stop(t, p, now, true).graph, p); }
    case Broken(_) => ConfinedReflexive(s.graph, p);
    case ReadyAgain(_) =>
    case Started(_, id) => GreetedConfined(s, p, Steps.Busier(child, id, now));
    case Ended(_, id) => GreetedConfined(s, p, Steps.Freer(child, id, now));
  }

  lemma ConfinedReflexive(g: Graph, p: nat)
    ensures Steps.Confined(g, g, p)
  {
  }

  lemma LostConfined(s: State, p: nat, now: int)
    requires Linked(s.graph, p)
    ensures Steps.Confined(s.graph, Steps.Lost(s, p, now).graph, p) && Linked(Steps.Lost(s, p, now).graph, p)
  {
    hide Steps.Charge, Steps.MarkExited;
    var t := Steps.MarkExited(s, p);
    if s.graph.procs[p].stopping.None? {
      ConfinedTransitive(s.graph, t.graph, Steps.Charge(t, p, now).graph, p);
    }
  }

  lemma AnswerBeside(s: State, msg: Message, gauges: map<nat, Pressure.Window>, after: map<nat, Pressure.Window>)
    requires msg.AboutProcess() && Linked(s.graph, msg.process) && Good(s) && Within(s, Answer(s, msg))
    requires OnlyWindow(gauges, after, s.graph.procs[msg.process].service)
    ensures Beside(Meters(gauges, s.graph), Meters(after, Answer(s, msg).graph),
        s.graph.procs[msg.process].service)
    ensures SameServices(s.graph, Answer(s, msg).graph)
  {
    hide Answer, Within, Beside, Steps.Confined, Good;
    AnswerConfined(s, msg);
    WithinReflexive(s);
    StepBeside(s, s, Answer(s, msg), msg.process, gauges, after);
    StepConfigs(s, s, Answer(s, msg));
  }

  /** Listeners that become readable change no reading. */
  lemma RaisedMetered(x: Meters, svcs: map<nat, Service>, listeners: map<nat, nat>, events: seq<(nat, bool)>,
                      missed: set<nat>)
    requires Metered(x, missed) && Raised(x.graph.svcs, svcs, listeners, events)
    ensures Metered(x.(graph := x.graph.(svcs := svcs)), missed)
  {
    hide Called;
    QuietMetered(x, svcs, missed);
  }

  /** So do changes of counters, times and demands of any number of services. */
  lemma QuietReadings(g: Graph, svcs: map<nat, Service>)
    requires svcs.Keys == g.svcs.Keys && forall v <- svcs ::
      svcs[v].name == g.svcs[v].name && svcs[v].config == g.svcs[v].config && svcs[v].workers == g.svcs[v].workers
    ensures var h := g.(svcs := svcs);
      forall v: nat :: ReadingOf(h, v) == ReadingOf(g, v) && Blank(h, v) == Blank(g, v)
          && Continuous(h, v) == Continuous(g, v)
  {
    hide ReadingOf, Blank;
    var h := g.(svcs := svcs);
    forall v: nat ensures ReadingOf(h, v) == ReadingOf(g, v) && Blank(h, v) == Blank(g, v) {
      if v in g.svcs { SameReading(g, h, v); } else { NoReading(g, h, v); }
    }
  }

  lemma QuietMetered(x: Meters, svcs: map<nat, Service>, missed: set<nat>)
    requires Metered(x, missed) && svcs.Keys == x.graph.svcs.Keys && forall v <- svcs ::
      && svcs[v].name == x.graph.svcs[v].name && svcs[v].config == x.graph.svcs[v].config
      && svcs[v].workers == x.graph.svcs[v].workers
    ensures Metered(x.(graph := x.graph.(svcs := svcs)), missed)
  {
    hide ReadingOf, Blank;
    QuietReadings(x.graph, svcs);
    hide Continuous;
  }

  lemma UnlistenMetered(gauges: map<nat, Pressure.Window>, s: State, v: nat, missed: set<nat>)
    requires Metered(Meters(gauges, s.graph), missed) && v in s.graph.svcs
    ensures Metered(Meters(gauges, Steps.Unlisten(s, v).graph), missed)
  {
    hide Metered;
    QuietMetered(Meters(gauges, s.graph), Steps.Unlisten(s, v).graph.svcs, missed);
  }

  /** Noting due occurrences neither. */
  lemma ConsideredDull(s: State, t: State, reading: Schedule.Reading, wanted: set<string>, required: set<string>,
                       gauges: map<nat, Pressure.Window>)
    requires Considered(s, t, reading, wanted, required) && AllDull(Meters(gauges, s.graph))
    ensures AllDull(Meters(gauges, t.graph))
  {
    hide ReadingOf, Blank, Activation.Activated, Roots, Installed;
    forall v <- t.graph.svcs
        ensures t.graph.svcs[v].name == s.graph.svcs[v].name && t.graph.svcs[v].config == s.graph.svcs[v].config
        ensures t.graph.svcs[v].workers == s.graph.svcs[v].workers {
      assert t.graph.svcs[v] == ConsideredService(s, v, reading);
    }
    QuietReadings(s.graph, t.graph.svcs);
    hide Continuous;
  }

  /** A snapshot forgets a service. */
  lemma DropMetered(x: Meters, name: string, missed: set<nat>)
    requires Metered(x, missed)
    ensures Metered(x.(graph := x.graph.(services := x.graph.services - {name})), missed)
  {
    hide Reading;
    var h := x.graph.(services := x.graph.services - {name});
    forall v: nat | Continuous(h, v) ensures Shows(Meters(x.gauges, h), v) && v !in missed {
      assert Continuous(x.graph, v) && Shows(x, v);
    }
  }

  /** A snapshot puts a new service in the place of a drained one, or of none. */
  lemma InstallMetered(x: Meters, s: State, name: string, app: App, v: nat, listener: Option<nat>,
                       missed: set<nat>)
    requires Metered(x, missed) && x.graph == s.graph && Drained(s.graph, name)
    requires v !in x.gauges && v !in missed && v !in s.graph.svcs
    ensures Metered(Meters(x.gauges, Steps.Install(s, name, app, v, listener).graph), missed)
  {
    hide ReadingOf, Blank;
    var h := Steps.Install(s, name, app, v, listener).graph;
    forall u: nat | Continuous(h, u) ensures Shows(Meters(x.gauges, h), u) && u !in missed {
      if u == v {
        assert Unretired(h.procs, h.svcs[v].workers) == {};
        BlankUnusable(h, v);
      } else {
        assert h.svcs[u].name != name && Continuous(s.graph, u) && Shows(x, u);
        SameReading(s.graph, h, u);
      }
    }
  }

  /** The last thing on the record is an observation of this service, as it is now. */
  ghost predicate JustObserved(record: Pressure.Record, v: nat, clock: int, g: Graph) {
    record != [] && record[|record| - 1] == (v, Pressure.Observing(clock, ReadingOf(g, v)))
  }

  // ------------------------------------------------------- a service's turn

  /** A reservation of the service is tried. */
  lemma ReservedBeside(s: State, t: State, v: nat, p: nat, ok: bool, gauges: map<nat, Pressure.Window>,
                       after: map<nat, Pressure.Window>)
    requires Within(s, t) && Linked(t.graph, p) && v in t.graph.svcs && p in t.graph.svcs[v].workers
    requires Within(s, Steps.StartPending(t, p, t.clock, ok))
    requires OnlyWindow(gauges, after, t.graph.procs[p].service)
    ensures Beside(Meters(gauges, t.graph), Meters(after, Steps.StartPending(t, p, t.clock, ok).graph), v)
  {
    hide Steps.StartPending, Within, Beside, Steps.Confined;
    StepConfigs(s, t, t);
    StepBeside(s, t, Steps.StartPending(t, p, t.clock, ok), p, gauges, after);
  }

  lemma ReserveBeside(gauges: map<nat, Pressure.Window>, g: Graph, v: nat, p: nat, c: nat, now: int)
    requires v in g.svcs && p !in g.procs && ServiceLists(g)
    ensures Beside(Meters(gauges, g), Meters(gauges, Reserve(g, v, p, c, now)), v)
    ensures forall u <- g.svcs | u != v :: p !in Reserve(g, v, p, c, now).svcs[u].workers
  {
    hide ReadingOf, Blank;
    var h := Reserve(g, v, p, c, now);
    forall u: nat | u != v ensures ReadingOf(h, u) == ReadingOf(g, u) && Blank(h, u) == Blank(g, u) {
      if u in g.svcs { SameReading(g, h, u); } else { NoReading(g, h, u); }
    }
  }

  /** The service gets a new process, or tries to. */
  lemma SpawnBeside(gauges: map<nat, Pressure.Window>, s: State, v: nat, p: nat, c: nat, ok: bool)
    requires v in s.graph.svcs && p !in s.graph.procs && ServiceLists(s.graph)
    requires SameServices(s.graph, Steps.Spawn(s, v, p, c, s.clock, ok).graph)
    ensures Beside(Meters(gauges, s.graph), Meters(gauges, Steps.Spawn(s, v, p, c, s.clock, ok).graph), v)
  {
    hide Steps.Admitted, Beside, Steps.Confined, ServiceLists;
    var r := s.(graph := Reserve(s.graph, v, p, c, s.clock));
    var t := Steps.Admitted(r, p, s.clock, ok);
    ReserveBeside(gauges, s.graph, v, p, c, s.clock);
    ConfinedBeside(gauges, r.graph, t.graph, p, v);
    BesideTransitive(Meters(gauges, s.graph), Meters(gauges, r.graph), Meters(gauges, t.graph), v);
  }

  lemma TunedServices(g: Graph, h: Graph, v: nat, service: Service)
    requires v in g.svcs && SameServices(g, h)
    requires service.name == g.svcs[v].name && service.config == g.svcs[v].config
    requires service.listener == g.svcs[v].listener
    ensures SameServices(PutService(g, v, service), h)
  {
  }

  lemma TunedLists(g: Graph, v: nat, service: Service)
    requires v in g.svcs && ServiceLists(g) && service.workers == g.svcs[v].workers
    ensures ServiceLists(PutService(g, v, service))
  {
  }

  /** A noted occurrence starts. */
  lemma ScheduledBeside(s: State, u: State, x: Meters, v: nat, p: nat, ok: bool)
    requires Good(s) && v in s.graph.svcs && x.graph == s.graph && p !in s.graph.procs && Within(s, u)
    requires u == Steps.Spawn(s.(graph := PutService(s.graph, v, s.graph.svcs[v].(scheduled := false))), v, p, p,
        s.clock, ok)
    ensures Beside(x, x.(graph := u.graph), v)
  {
    hide Within, Good, Steps.Spawn, Beside, Inv, SameServices, ServiceLists;
    WithinReflexive(s);
    StepConfigs(s, s, u);
    var service := s.graph.svcs[v].(scheduled := false);
    var t := s.(graph := PutService(s.graph, v, service));
    TunedServices(s.graph, u.graph, v, service);
    TunedLists(s.graph, v, service);
    TunedBeside(x, v, service);
    SpawnBeside(x.gauges, t, v, p, p, ok);
    BesideTransitive(x, x.(graph := t.graph), x.(graph := u.graph), v);
  }

  /** One worker more, or a delay after a failed start. */
  lemma GrownBeside(gauges: map<nat, Pressure.Window>, s: State, v: nat, p: nat, ok: bool)
    requires Good(s) && v in s.graph.svcs && p !in s.graph.procs
    requires Within(s, Grown(s, v, p, ok))
    ensures Beside(Meters(gauges, s.graph), Meters(gauges, Grown(s, v, p, ok).graph), v)
  {
    hide Within, Good, Steps.Spawn, Steps.SpawnFails, Beside, Steps.Confined, CycleFor;
    GoodInv(s);
    var c := CycleFor(s.graph, v, p);
    var t, u := Steps.Spawn(s, v, p, c, s.clock, ok), Grown(s, v, p, ok);
    WithinReflexive(s);
    StepConfigs(s, s, u);
    GrownServices(s, v, p, ok);
    SpawnBeside(gauges, s, v, p, c, ok);
    if u != t {
      TunedBeside(Meters(gauges, t.graph), v, Steps.Backoff(t.graph.svcs[v], s.clock));
      BesideTransitive(Meters(gauges, s.graph), Meters(gauges, t.graph), Meters(gauges, u.graph), v);
    }
  }

  lemma GrownServices(s: State, v: nat, p: nat, ok: bool)
    requires v in s.graph.svcs && SameServices(s.graph, Grown(s, v, p, ok).graph)
    ensures SameServices(s.graph, Steps.Spawn(s, v, p, CycleFor(s.graph, v, p), s.clock, ok).graph)
  {
    hide Steps.Spawn, Steps.SpawnFails;
  }

  /** A service without workers has nothing to show. */
  lemma DesertedShows(x: Meters, v: nat)
    requires v in x.graph.svcs && x.graph.svcs[v].workers == {} && Dull(x, v)
    ensures Shows(x, v)
  {
    assert Unretired(x.graph.procs, {}) == {};
    BlankUnusable(x.graph, v);
    hide ReadingOf;
  }

  lemma TurnReady(x: Meters, v: nat, missed: set<nat>)
    requires AllDull(x) && NoneMissed(x.graph, missed)
    ensures Continuous(x.graph, v) ==> Dull(x, v) && v !in missed
  {
    hide Dull;
  }

  /** The services whose turn in this tick is over show their occupancy. */
  ghost predicate ShownBut(x: Meters, todo: set<string>) {
    forall v: nat :: Continuous(x.graph, v) && x.graph.svcs[v].name !in todo ==> Shows(x, v)
  }

  lemma ShownNone(x: Meters)
    ensures ShownBut(x, x.graph.services.Keys)
  {
  }

  lemma ShownAll(x: Meters)
    requires ShownBut(x, {})
    ensures AllShow(x)
  {
    hide Shows;
  }

  lemma TurnShows(x: Meters, y: Meters, v: nat, todo: set<string>)
    requires AllDull(x) && v in x.graph.svcs && Live(x.graph, v)
    requires ShownBut(x, todo + {x.graph.svcs[v].name}) && Beside(x, y, v) && SameServices(x.graph, y.graph)
    requires Continuous(y.graph, v) ==> Shows(y, v)
    ensures AllDull(y) && ShownBut(y, todo)
  {
    hide ReadingOf, Blank;
    forall u: nat | Continuous(y.graph, u) ensures Dull(y, u) && (y.graph.svcs[u].name !in todo ==> Shows(y, u)) {
      if u == v {
        ShowsDull(y, v);
      } else {
        assert Continuous(x.graph, u) && Dull(x, u) && x.graph.svcs[u].name != x.graph.svcs[v].name;
      }
    }
  }

  // --------------------------------------------------- the time that passes

  /** Between two turns of the loop time passes and nothing else happens. */
  datatype Span = Span(from: int, to: int, graph: Graph)

  /** The beginning of span number `i`; now, if it has not begun. */
  function StartOf(passed: seq<Span>, i: nat, clock: int): int {
    if i < |passed| then passed[i].from else clock
  }

  /** Spans without a gap, up to now. */
  ghost predicate Gapless(passed: seq<Span>, clock: int) {
    forall i | 0 <= i < |passed| :: passed[i].from <= passed[i].to == StartOf(passed, i + 1, clock)
  }

  ghost function LevelOf(g: Graph, v: nat): real {
    var m := ReadingOf(g, v);
    if m.Unusable? then 0.0 else m.Level()
  }

  /** The integral of the occupancy of `v` over the spans from number `i` on. */
  ghost function Occupied(passed: seq<Span>, i: nat, v: nat): real
    decreases |passed|
  {
    if |passed| <= i then 0.0
    else
      var last := passed[|passed| - 1];
      Occupied(passed[..|passed| - 1], i, v) + Pressure.Swept(LevelOf(last.graph, v), last.from, last.to)
  }

  /** In all these spans the service had `n` unretired workers, and each could report. */
  ghost predicate Constant(passed: seq<Span>, i: nat, v: nat, n: nat) {
    forall j | i <= j < |passed| ::
      ReadingOf(passed[j].graph, v).Measured? && ReadingOf(passed[j].graph, v).workers == n
  }

  /** The window began with span number `i`, and its area, brought up to now, is the
      integral of the occupancy since then. */
  ghost predicate Integrates(w: Pressure.Window, passed: seq<Span>, i: nat, v: nat, clock: int) {
    && w.Window? && i <= |passed| && w.since == StartOf(passed, i, clock) && Constant(passed, i, v, w.workers)
    && w.area + Pressure.Swept(w.value, w.last, clock) == Occupied(passed, i, v)
  }

  ghost predicate Integrated(w: Pressure.Window, passed: seq<Span>, v: nat, clock: int) {
    exists i: nat :: Integrates(w, passed, i, v, clock)
  }

  /** Every window covers the time since it began; but not those in `missed`, for which
      time has passed while they did not show the occupancy. */
  ghost predicate AllIntegrate(gauges: map<nat, Pressure.Window>, passed: seq<Span>, missed: set<nat>, clock: int) {
    && Gapless(passed, clock) && missed <= gauges.Keys
    && forall v <- gauges :: v !in missed && gauges[v].Window? ==> Integrated(gauges[v], passed, v, clock)
  }

  lemma NothingIntegrated(clock: int)
    ensures AllIntegrate(map[], [], {}, clock)
  {
  }

  lemma IntegralStarts(passed: seq<Span>, v: nat, clock: int, value: real, workers: nat)
    requires Gapless(passed, clock)
    ensures Integrated(Pressure.Window(clock, clock, value, 0.0, workers), passed, v, clock)
  {
    Pressure.SweptNothing(value, clock);
    assert Integrates(Pressure.Window(clock, clock, value, 0.0, workers), passed, |passed|, v, clock);
  }

  lemma ObserveIntegrates(w: Pressure.Window, passed: seq<Span>, v: nat, clock: int, m: Pressure.Measure)
    requires Gapless(passed, clock) && m.Valid() && (w.Window? ==> Integrated(w, passed, v, clock))
    requires Pressure.Observe(w, clock, m).Window?
    ensures Integrated(Pressure.Observe(w, clock, m), passed, v, clock)
  {
    hide Pressure.Swept, Occupied, Constant, Gapless;
    var t := Pressure.Observe(w, clock, m);
    Pressure.SweptNothing(t.value, clock);
    Pressure.SweptNothing(0.0, clock);
    if w.Empty? || w.workers != m.workers {
      IntegralStarts(passed, v, clock, t.value, t.workers);
    } else {
      var i: nat :| Integrates(w, passed, i, v, clock);
      assert Integrates(t, passed, i, v, clock);
    }
  }

  lemma ObserveAllIntegrate(gauges: map<nat, Pressure.Window>, passed: seq<Span>, missed: set<nat>, clock: int, v: nat,
                        m: Pressure.Measure)
    requires AllIntegrate(gauges, passed, missed, clock) && m.Valid()
    ensures AllIntegrate(gauges[v := Pressure.Observe(WindowOf(gauges, v), clock, m)], passed, missed, clock)
  {
    hide Pressure.Observe, Integrated, Gapless;
    if v !in missed && Pressure.Observe(WindowOf(gauges, v), clock, m).Window? {
      ObserveIntegrates(WindowOf(gauges, v), passed, v, clock, m);
    }
  }

  /** A full window that has just been observed starts again at once. */
  lemma EvaluateAllIntegrate(gauges: map<nat, Pressure.Window>, passed: seq<Span>, missed: set<nat>, clock: int, v: nat,
                         window: Positive)
    requires AllIntegrate(gauges, passed, missed, clock) && v in gauges
    requires gauges[v].Window? ==> gauges[v].last == clock
    ensures AllIntegrate(gauges[v := Pressure.Evaluate(gauges[v], clock, window)], passed, missed, clock)
  {
    hide Integrated, Gapless;
    if Pressure.Ripe(gauges[v], clock, window) {
      IntegralStarts(passed, v, clock, gauges[v].value, gauges[v].workers);
    }
  }

  /** Time passes: whatever shows the present occupancy goes on covering. */
  lemma WakeIntegrates(w: Pressure.Window, passed: seq<Span>, v: nat, clock: int, now: int, g: Graph)
    requires Gapless(passed, clock) && clock <= now && Integrated(w, passed, v, clock) && Matches(w, ReadingOf(g, v))
    ensures Integrated(w, passed + [Span(clock, now, g)], v, now)
  {
    hide ReadingOf, Pressure.Swept, Gapless;
    var i: nat :| Integrates(w, passed, i, v, clock);
    var more := passed + [Span(clock, now, g)];
    assert more[..|more| - 1] == passed;
    SweptJoins(w.value, w.last, clock, now);
    assert Integrates(w, more, i, v, now);
  }

  lemma SweptJoins(level: real, from: int, mid: int, to: int)
    ensures Pressure.Swept(level, from, mid) + Pressure.Swept(level, mid, to) == Pressure.Swept(level, from, to)
  {
    assert level * ((mid - from) as real + (to - mid) as real)
        == level * (mid - from) as real + level * (to - mid) as real;
  }

  /** The services whose windows do not show the occupancy when time passes. */
  ghost function Missing(gauges: map<nat, Pressure.Window>, g: Graph): set<nat> {
    set v | v in gauges && !Shows(Meters(gauges, g), v)
  }

  lemma WakeAllIntegrate(gauges: map<nat, Pressure.Window>, passed: seq<Span>, missed: set<nat>, clock: int, now: int,
                     g: Graph)
    requires AllIntegrate(gauges, passed, missed, clock) && clock <= now
    ensures AllIntegrate(gauges, passed + [Span(clock, now, g)], missed + Missing(gauges, g), now)
  {
    hide Integrated, Matches, ReadingOf;
    var more, absent := passed + [Span(clock, now, g)], missed + Missing(gauges, g);
    GaplessMore(passed, clock, now, g);
    forall v <- gauges | v !in absent && gauges[v].Window? ensures Integrated(gauges[v], more, v, now) {
      assert Shows(Meters(gauges, g), v);
      WakeIntegrates(gauges[v], passed, v, clock, now, g);
    }
  }

  lemma GaplessMore(passed: seq<Span>, clock: int, now: int, g: Graph)
    requires Gapless(passed, clock) && clock <= now
    ensures Gapless(passed + [Span(clock, now, g)], now)
  {
    var more := passed + [Span(clock, now, g)];
    forall i | 0 <= i < |more| ensures more[i].from <= more[i].to == StartOf(more, i + 1, now) {
      if i < |passed| { assert more[i] == passed[i] && passed[i].to == StartOf(passed, i + 1, clock); }
    }
  }

  /** A window as long as `window` ends now; in all of it the same number of workers
      reported, and their occupancy averaged at least the threshold, in percent. */
  ghost predicate AtThreshold(passed: seq<Span>, v: nat, clock: int, window: int, threshold: real) {
    exists i: nat, n: nat :: Average(passed, i, v, n, clock, window, threshold)
  }

  ghost predicate Average(passed: seq<Span>, i: nat, v: nat, n: nat, clock: int, window: int, threshold: real) {
    var length := clock - StartOf(passed, i, clock);
    && 0 < window <= length && i <= |passed| && Constant(passed, i, v, n)
    && 100.0 * Occupied(passed, i, v) / length as real >= threshold
  }

  lemma PressesAtThreshold(w: Pressure.Window, passed: seq<Span>, v: nat, clock: int, window: Positive, threshold: real)
    requires Integrated(w, passed, v, clock) && w.last == clock && Pressure.Presses(w, clock, window, threshold)
    ensures AtThreshold(passed, v, clock, window, threshold)
  {
    hide Constant, Occupied, Pressure.Swept;
    var i: nat :| Integrates(w, passed, i, v, clock);
    Pressure.SweptNothing(w.value, clock);
    assert Average(passed, i, v, w.workers, clock, window, threshold);
  }

  /** Growth is asked for exactly if this window is full and the occupancy since it began
      averaged at least the threshold. */
  ghost predicate Decides(w: Pressure.Window, passed: seq<Span>, v: nat, clock: int, app: App, grow: bool) {
    if w.Empty? then !grow
    else exists i: nat ::
        && Integrates(w, passed, i, v, clock)
        && (grow <==> Average(passed, i, v, w.workers, clock, app.scaleWindow, app.scaleAt))
  }

  lemma PressesDecides(gauges: map<nat, Pressure.Window>, passed: seq<Span>, missed: set<nat>, clock: int, v: nat,
                       app: App)
    requires AllIntegrate(gauges, passed, missed, clock) && v in gauges
    requires gauges[v].Window? ==> gauges[v].last == clock
    ensures v !in missed ==> Decides(gauges[v], passed, v, clock, app,
        Pressure.Presses(gauges[v], clock, app.scaleWindow, app.scaleAt))
  {
    hide Gapless, Constant, Occupied, Pressure.Swept;
    var w := gauges[v];
    if v !in missed && w.Window? {
      var i: nat :| Integrates(w, passed, i, v, clock);
      Pressure.SweptNothing(w.value, clock);
      assert Integrates(w, passed, i, v, clock);
    }
  }

  lemma PressesAverage(gauges: map<nat, Pressure.Window>, passed: seq<Span>, missed: set<nat>, clock: int, v: nat,
                       window: Positive, threshold: real)
    requires AllIntegrate(gauges, passed, missed, clock) && v in gauges
    requires gauges[v].Window? ==> gauges[v].last == clock
    ensures v !in missed && Pressure.Presses(gauges[v], clock, window, threshold) ==>
        AtThreshold(passed, v, clock, window, threshold)
  {
    hide Integrated, AtThreshold, Gapless;
    if v !in missed && Pressure.Presses(gauges[v], clock, window, threshold) {
      PressesAtThreshold(gauges[v], passed, v, clock, window, threshold);
    }
  }

  lemma NoneMissedAwake(gauges: map<nat, Pressure.Window>, g: Graph, missed: set<nat>)
    requires AllShow(Meters(gauges, g)) && NoneMissed(g, missed)
    ensures NoneMissed(g, missed + Missing(gauges, g))
  {
    hide Shows;
  }

  // ----------------------------------------------------------- what was decided

  /** The record holds a decision made between these two moments. */
  ghost predicate PressedOnce(before: Pressure.Record, after: Pressure.Record, v: nat, now: int, window: int) {
    Pressure.Decided(Pressure.CallsOf(before, v), Pressure.CallsOf(after, v), Pressure.Decision(now, window))
  }

  ghost predicate AllTrack(gauges: map<nat, Pressure.Window>, record: Pressure.Record, clock: int) {
    forall v: nat :: Pressure.Tracks(WindowOf(gauges, v), Pressure.CallsOf(record, v), clock)
  }

  lemma WakeTracks(gauges: map<nat, Pressure.Window>, record: Pressure.Record, clock: int, now: int)
    requires AllTrack(gauges, record, clock) && clock <= now
    ensures AllTrack(gauges, record, now)
  {
    hide Pressure.CallsOf, Pressure.Disciplined, Pressure.After;
    forall v: nat ensures Pressure.Tracks(WindowOf(gauges, v), Pressure.CallsOf(record, v), now) {
      assert Pressure.Tracks(WindowOf(gauges, v), Pressure.CallsOf(record, v), clock);
    }
  }

  lemma NothingTracked(clock: int)
    ensures AllTrack(map[], [], clock)
  {
  }

  lemma RecordedTracks(gauges: map<nat, Pressure.Window>, record: Pressure.Record, v: nat, clock: int,
            w: Pressure.Window, call: Pressure.Call)
    requires AllTrack(gauges, record, clock) && Pressure.Tracks(w, Pressure.CallsOf(record, v) + [call], clock)
    ensures AllTrack(gauges[v := w], record + [(v, call)], clock)
  {
    hide Pressure.Tracks;
    forall u: nat
        ensures Pressure.Tracks(WindowOf(gauges[v := w], u), Pressure.CallsOf(record + [(v, call)], u), clock) {
      Pressure.CallsMore(record, v, call, u);
    }
  }

  lemma ObservedTracks(gauges: map<nat, Pressure.Window>, record: Pressure.Record, v: nat, clock: int,
            measure: Pressure.Measure)
    requires AllTrack(gauges, record, clock) && measure.Valid()
    ensures AllTrack(gauges[v := Pressure.Observe(WindowOf(gauges, v), clock, measure)],
        record + [(v, Pressure.Observing(clock, measure))], clock)
  {
    hide Pressure.Tracks, Pressure.Observe;
    Pressure.TracksMore(WindowOf(gauges, v), Pressure.CallsOf(record, v), clock, Pressure.Observing(clock, measure));
    RecordedTracks(gauges, record, v, clock, Pressure.Observe(WindowOf(gauges, v), clock, measure),
        Pressure.Observing(clock, measure));
  }

  lemma EvaluatedTracks(gauges: map<nat, Pressure.Window>, record: Pressure.Record, v: nat, clock: int,
            measure: Pressure.Measure, window: Positive, threshold: real)
    requires AllTrack(gauges, record, clock) && v in gauges
    requires record != [] && record[|record| - 1] == (v, Pressure.Observing(clock, measure))
    ensures var w, more := Pressure.Evaluate(gauges[v], clock, window),
        record + [(v, Pressure.Evaluating(clock, window))];
      && AllTrack(gauges[v := w], more, clock)
      && (Pressure.Presses(gauges[v], clock, window, threshold) ==> PressedOnce(record, more, v, clock, window))
  {
    hide Pressure.Evaluate, Pressure.Presses, Pressure.Decided, Pressure.Disciplined, Pressure.Tracks;
    var calls, call := Pressure.CallsOf(record, v), Pressure.Evaluating(clock, window);
    assert calls != [] && calls[|calls| - 1] == Pressure.Observing(clock, measure);
    assert Pressure.Tracks(WindowOf(gauges, v), calls, clock);
    Pressure.TracksMore(gauges[v], calls, clock, call);
    RecordedTracks(gauges, record, v, clock, Pressure.Evaluate(gauges[v], clock, window), call);
    Pressure.CallsMore(record, v, call, v);
    if Pressure.Presses(gauges[v], clock, window, threshold) {
      TracksPossible(gauges[v], calls, clock);
      Pressure.DecisionMade(calls, clock, window, threshold);
    }
  }

  lemma PressedOnward(earlier: Pressure.Record, before: Pressure.Record, after: Pressure.Record, later: Pressure.Record,
                      gauges: map<nat, Pressure.Window>, clock: int, v: nat, window: int)
    requires earlier <= before && after <= later && AllTrack(gauges, later, clock)
    requires PressedOnce(before, after, v, clock, window)
    ensures PressedOnce(earlier, later, v, clock, window)
  {
    hide Pressure.Decided, Pressure.Tracks, Pressure.AllPossible;
    assert Pressure.Tracks(WindowOf(gauges, v), Pressure.CallsOf(later, v), clock);
    TracksPossible(WindowOf(gauges, v), Pressure.CallsOf(later, v), clock);
    Pressure.CallsExtend(earlier, before, v);
    Pressure.CallsExtend(after, later, v);
    Pressure.DecidedOnward(Pressure.CallsOf(earlier, v), Pressure.CallsOf(before, v), Pressure.CallsOf(after, v),
        Pressure.CallsOf(later, v), Pressure.Decision(clock, window));
  }

  /** A growth under pressure rests on a decision of its own, and on an average
      occupancy that reached the threshold over a full window. */
  ghost predicate Pressed(before: Pressure.Record, after: Pressure.Record, passed: seq<Span>, v: nat, now: int,
                          app: App) {
    PressedOnce(before, after, v, now, app.scaleWindow) && AtThreshold(passed, v, now, app.scaleWindow, app.scaleAt)
  }

  lemma PressedLater(earlier: Pressure.Record, before: Pressure.Record, after: Pressure.Record, later: Pressure.Record,
                     passed: seq<Span>, gauges: map<nat, Pressure.Window>, clock: int, v: nat, app: App)
    requires earlier <= before && after <= later && AllTrack(gauges, later, clock)
    requires Pressed(before, after, passed, v, clock, app)
    ensures Pressed(earlier, later, passed, v, clock, app)
  {
    hide PressedOnce, AtThreshold, AllTrack;
    PressedOnward(earlier, before, after, later, gauges, clock, v, app.scaleWindow);
  }

  ghost predicate AllPressed(turns: seq<Turn>, before: Pressure.Record, after: Pressure.Record, passed: seq<Span>,
                             now: int) {
    forall i | 0 <= i < |turns| :: turns[i].change.pressing ==> TurnPressed(turns[i], before, after, passed, now)
  }

  ghost predicate TurnPressed(turn: Turn, before: Pressure.Record, after: Pressure.Record, passed: seq<Span>,
                              now: int) {
    var g := turn.before.graph;
    && turn.name in g.services && g.services[turn.name] in g.svcs
    && Pressed(before, after, passed, g.services[turn.name], now, g.svcs[g.services[turn.name]].config)
  }

  lemma PressedAlone(turn: Turn, before: Pressure.Record, after: Pressure.Record, passed: seq<Span>, now: int)
    requires turn.change.pressing ==> TurnPressed(turn, before, after, passed, now)
    ensures AllPressed([turn], before, after, passed, now)
  {
  }

  lemma PressedJoin(turns: seq<Turn>, more: seq<Turn>, first: Pressure.Record, mid: Pressure.Record,
                    last: Pressure.Record, passed: seq<Span>, gauges: map<nat, Pressure.Window>, clock: int)
    requires AllPressed(turns, first, mid, passed, clock) && AllPressed(more, mid, last, passed, clock)
    requires first <= mid <= last && AllTrack(gauges, last, clock)
    ensures AllPressed(turns + more, first, last, passed, clock)
  {
    hide AllTrack, PressedOnce, AtThreshold;
    var all := turns + more;
    forall i | 0 <= i < |all| && all[i].change.pressing ensures TurnPressed(all[i], first, last, passed, clock) {
      var g := all[i].before.graph;
      if i < |turns| {
        assert all[i] == turns[i];
        PressedOnward(first, first, mid, last, gauges, clock, g.services[all[i].name],
            g.svcs[g.services[all[i].name]].config.scaleWindow);
      } else {
        assert all[i] == more[i - |turns|];
        PressedOnward(first, mid, last, last, gauges, clock, g.services[all[i].name],
            g.svcs[g.services[all[i].name]].config.scaleWindow);
      }
    }
  }

  lemma TracksPossible(w: Pressure.Window, calls: seq<Pressure.Call>, clock: int)
    requires Pressure.Tracks(w, calls, clock)
    ensures Pressure.AllPossible(calls) && Pressure.Disciplined(calls) && w == Pressure.After(calls)
  {
  }

  /** In the manager, two growths of one service under pressure lie at least a window
      apart, whatever happens in between. */
  lemma PressuresApart(c0: Pressure.Record, c1: Pressure.Record, c2: Pressure.Record, c3: Pressure.Record,
                       gauges: map<nat, Pressure.Window>, clock: int, v: nat, first: int, window: int, second: int,
                           window': int)
    requires PressedOnce(c0, c1, v, first, window) && c1 <= c2 && PressedOnce(c2, c3, v, second, window')
    requires AllTrack(gauges, c3, clock)
    ensures first + window' <= second
  {
    hide Pressure.Decided, Pressure.Tracks, Pressure.AllPossible, Pressure.Disciplined;
    assert Pressure.Tracks(WindowOf(gauges, v), Pressure.CallsOf(c3, v), clock);
    TracksPossible(WindowOf(gauges, v), Pressure.CallsOf(c3, v), clock);
    Pressure.CallsExtend(c1, c2, v);
    Pressure.GrowthsApart(Pressure.CallsOf(c0, v), Pressure.CallsOf(c1, v), Pressure.CallsOf(c2, v),
        Pressure.CallsOf(c3, v),
                          Pressure.Decision(first, window), Pressure.Decision(second, window'));
  }

  // -------------------------------------------------- what a window measures

  lemma {:induction false} OccupiedBounded(passed: seq<Span>, i: nat, v: nat, clock: int)
    requires Gapless(passed, clock) && i <= |passed|
    ensures 0.0 <= Occupied(passed, i, v) <= (clock - StartOf(passed, i, clock)) as real
    decreases |passed|
  {
    hide Pressure.Swept, LevelOf;
    if i < |passed| {
      var rest, last := passed[..|passed| - 1], passed[|passed| - 1];
      GaplessLess(passed, clock);
      OccupiedBounded(rest, i, v, last.from);
      LevelBounded(last.graph, v);
      Pressure.SweptBounded(LevelOf(last.graph, v), last.from, last.to);
    }
  }

  lemma LevelBounded(g: Graph, v: nat)
    ensures 0.0 <= LevelOf(g, v) <= 1.0
  {
    hide ReadingOf;
    if ReadingOf(g, v).Measured? { Pressure.LevelFraction(ReadingOf(g, v)); }
  }

  lemma GaplessLess(passed: seq<Span>, clock: int)
    requires Gapless(passed, clock) && passed != []
    ensures var last := passed[|passed| - 1];
      Gapless(passed[..|passed| - 1], last.from) && last.from <= last.to == clock
  {
    var rest, last := passed[..|passed| - 1], passed[|passed| - 1];
    assert last.from <= last.to == StartOf(passed, |passed|, clock);
    forall i | 0 <= i < |rest| ensures rest[i].from <= rest[i].to == StartOf(rest, i + 1, last.from) {
      assert passed[i].from <= passed[i].to == StartOf(passed, i + 1, clock);
    }
  }

  lemma {:induction false} SpansInOrder(passed: seq<Span>, j: nat, i: nat, clock: int)
    requires Gapless(passed, clock) && j < i <= |passed|
    ensures passed[j].to <= StartOf(passed, i, clock)
    decreases i
  {
    assert passed[j].to == StartOf(passed, j + 1, clock);
    if j + 1 < i {
      SpansInOrder(passed, j, i - 1, clock);
      assert passed[i - 1].from <= passed[i - 1].to == StartOf(passed, i, clock);
    }
  }

  /** The window of a followed service shows its present occupancy, and its area, brought
      up to now, is the integral of its occupancy over the spans since it began; that
      never exceeds the whole capacity. */
  lemma WindowsMeasure(x: Meters, passed: seq<Span>, missed: set<nat>, clock: int, v: nat)
    requires Metered(x, missed) && AllIntegrate(x.gauges, passed, missed, clock) && Continuous(x.graph, v)
    ensures Matches(WindowOf(x.gauges, v), ReadingOf(x.graph, v))
    ensures var w := WindowOf(x.gauges, v);
      && (w.Window? ==> Integrated(w, passed, v, clock))
      && (w.Window? ==> 0.0 <= w.area + Pressure.Swept(w.value, w.last, clock) <= (clock - w.since) as real)
  {
    hide Matches, ReadingOf, Occupied, Gapless;
    assert Shows(x, v) && v !in missed;
    var w := WindowOf(x.gauges, v);
    if w.Window? {
      var i: nat :| Integrates(w, passed, i, v, clock);
      OccupiedBounded(passed, i, v, clock);
    }
  }

  /** So whenever the number of its workers was another, or one of them could not report,
      the window began after that. */
  lemma ChangeRestarts(x: Meters, passed: seq<Span>, missed: set<nat>, clock: int, v: nat, j: nat)
    requires Metered(x, missed) && AllIntegrate(x.gauges, passed, missed, clock) && Continuous(x.graph, v)
    requires j < |passed| && WindowOf(x.gauges, v).Window?
    requires var m := ReadingOf(passed[j].graph, v);
      m.Unusable? || m.workers != ReadingOf(x.graph, v).workers
    ensures passed[j].to <= WindowOf(x.gauges, v).since
  {
    hide ReadingOf, Occupied, Gapless, AllIntegrate;
    WindowsMeasure(x, passed, missed, clock, v);
    var w := WindowOf(x.gauges, v);
    var i: nat :| Integrates(w, passed, i, v, clock);
    AllGapless(x.gauges, passed, missed, clock);
    if j < i { SpansInOrder(passed, j, i, clock); }
  }

  lemma AllGapless(gauges: map<nat, Pressure.Window>, passed: seq<Span>, missed: set<nat>, clock: int)
    requires AllIntegrate(gauges, passed, missed, clock)
    ensures Gapless(passed, clock)
  {
  }

  /** No average exceeds the whole capacity: a higher threshold is never reached. */
  lemma NeverAboveWhole(passed: seq<Span>, v: nat, clock: int, window: int, threshold: real)
    requires Gapless(passed, clock) && AtThreshold(passed, v, clock, window, threshold)
    ensures threshold <= 100.0
  {
    hide Gapless, Occupied, Constant;
    var i: nat, n: nat :| Average(passed, i, v, n, clock, window, threshold);
    OccupiedBounded(passed, i, v, clock);
    AtMostWhole(Occupied(passed, i, v), (clock - StartOf(passed, i, clock)) as real);
  }

  lemma AtMostWhole(area: real, length: real)
    requires 0.0 < length && area <= length
    ensures 100.0 * area / length <= 100.0
  {
  }

  /** The windows that the manager holds follow each other likewise. */
  lemma WindowsTile(gauges: map<nat, Pressure.Window>, record: Pressure.Record, clock: int, v: nat)
    requires AllTrack(gauges, record, clock) && WindowOf(gauges, v).Window?
    ensures var calls := Pressure.CallsOf(record, v);
      Pressure.AllPossible(calls) && WindowOf(gauges, v) == Pressure.After(calls)
          && exists k: nat :: Pressure.BeganWith(calls, k)
  {
    var calls := Pressure.CallsOf(record, v);
    assert Pressure.Tracks(WindowOf(gauges, v), calls, clock);
    TracksPossible(WindowOf(gauges, v), calls, clock);
    hide AllTrack, Pressure.After, Pressure.CallsOf;
    Pressure.WindowsTile(calls);
  }
}
