/** The configured services, their listeners and the bounds on their pools. */
module ManagerTable {
  import opened Options
  import opened ManagerState
  import opened ManagerSteps
  import opened ManagerInvariant
  import opened ManagerHistory
  import opened ManagerOperations
  import opened Sets

  // ------------------------------------------------------------------ pools

  /** A later graph with no new workers. */
  ghost predicate Fewer(g: Graph, h: Graph) {
    Listed(g) && ServiceLists(h) && GraphLater(g, h) && h.workers <= g.workers
  }

  lemma PoolMember(g: Graph, h: Graph, v: nat, w: nat)
    requires Fewer(g, h) && v in h.svcs && w in Pool(h, v)
    ensures v in g.svcs && w in Pool(g, v)
  {
    assert w in h.workers && w in g.workers && w in g.procs;
    assert Onward(g.procs[w], h.procs[w]);
  }

  lemma PoolShrinks(g: Graph, h: Graph, v: nat)
    requires Fewer(g, h) && v in h.svcs
    ensures v in g.svcs && |Pool(h, v)| <= |Pool(g, v)|
  {
    forall w <- Pool(h, v) ensures w in Pool(g, v) { PoolMember(g, h, v, w); }
    SubsetSize(Pool(h, v), Pool(g, v));
  }

  lemma ExecutionsShrink(g: Graph, h: Graph, name: string)
    requires Fewer(g, h)
    ensures |Executions(h, name)| <= |Executions(g, name)|
  {
    forall w <- Executions(h, name) ensures w in Executions(g, name) {
      assert w in g.workers && w in g.procs;
      assert Onward(g.procs[w], h.procs[w]);
    }
    SubsetSize(Executions(h, name), Executions(g, name));
  }

  /** Steps without a new reservation keep the bounds. */
  lemma FewerKeepsBounds(g: Graph, h: Graph)
    requires Fewer(g, h) && Bounded(g) && Reserved(g)
    ensures Bounded(h) && Reserved(h)
  {
    forall v <- h.svcs ensures |Pool(h, v)| <= h.svcs[v].config.maxWorkers { PoolShrinks(g, h, v); }
    forall v <- h.svcs | Live(h, v) && h.svcs[v].scheduled
      ensures h.svcs[v].config.Scheduled() && |Executions(h, h.svcs[v].name)| < h.svcs[v].config.Limit()
    {
      assert Live(g, v);
      ExecutionsShrink(g, h, h.svcs[v].name);
    }
  }

  /** A service may start one more worker now. */
  ghost predicate HasRoom(g: Graph, v: nat)
    requires v in g.svcs
  {
    && |Pool(g, v)| < g.svcs[v].config.maxWorkers
    && !g.svcs[v].scheduled
    && (g.svcs[v].config.Scheduled() ==> |Executions(g, g.svcs[v].name)| < g.svcs[v].config.Limit())
  }

  lemma ReservePool(g: Graph, v: nat, p: nat, c: nat, now: int, u: nat)
    requires ServiceLists(g) && Listed(g) && Admissible(g, v, p, c) && u in g.svcs
    ensures Pool(Reserve(g, v, p, c, now), u) == if u == v then Pool(g, v) + {p} else Pool(g, u)
  {
    assert p !in g.workers && p !in g.svcs[u].workers;
  }

  lemma ReserveExecutions(g: Graph, v: nat, p: nat, c: nat, now: int, name: string)
    requires Listed(g) && Admissible(g, v, p, c)
    ensures Executions(Reserve(g, v, p, c, now), name) == Executions(g, name) +
        (if name == g.svcs[v].name then {p} else {})
  {
    assert p !in g.workers;
  }

  lemma ReserveBounded(g: Graph, v: nat, p: nat, c: nat, now: int)
    requires Indexed(g) && Bounded(g) && Admissible(g, v, p, c) && HasRoom(g, v)
    ensures Bounded(Reserve(g, v, p, c, now))
  {
    var h := Reserve(g, v, p, c, now);
    forall u <- h.svcs ensures |Pool(h, u)| <= h.svcs[u].config.maxWorkers { ReservePool(g, v, p, c, now, u); }
  }

  lemma ReserveReserved(g: Graph, v: nat, p: nat, c: nat, now: int)
    requires Indexed(g) && Reserved(g) && Admissible(g, v, p, c) && HasRoom(g, v)
    ensures Reserved(Reserve(g, v, p, c, now))
  {
    var h := Reserve(g, v, p, c, now);
    forall u <- h.svcs | Live(h, u) && h.svcs[u].scheduled
      ensures h.svcs[u].config.Scheduled() && |Executions(h, h.svcs[u].name)| < h.svcs[u].config.Limit()
    {
      assert Live(g, u);
      ReserveExecutions(g, v, p, c, now, h.svcs[u].name);
    }
  }

  // -------------------------------------------------------------- listeners

  /** Every listener belongs to the configured service that owns its socket, and
      to no other; only identifiers that were handed out are in use. */
  ghost predicate Wired(s: State) {
    && (forall id <- s.listeners ::
         id in s.sockets && Live(s.graph, s.listeners[id]) && s.graph.svcs[s.listeners[id]].listener == Some(id))
    && (forall v <- s.graph.svcs :: Live(s.graph, v) && s.graph.svcs[v].listener.Some? ==>
          s.graph.svcs[v].listener.value in s.listeners && s.listeners[s.graph.svcs[v].listener.value] == v)
    && (forall id <- s.sockets :: id <= s.nextListener)
  }

  lemma EvolvesKeepsWired(s: State, t: State)
    requires Wired(s) && Evolves(s, t)
    ensures Wired(t)
  {
    forall v <- t.graph.svcs ensures Live(t.graph, v) == Live(s.graph, v) { }
  }

  /** Everything that holds in every state of a run. */
  ghost predicate Good(s: State) {
    Inv(s) && Bounded(s.graph) && Reserved(s.graph) && Wired(s)
  }

  lemma LeadsKeepsGood(s: State, t: State)
    requires Good(s) && Leads(s, t)
    ensures Good(t)
  {
    FewerKeepsBounds(s.graph, t.graph);
    EvolvesKeepsWired(s, t);
  }

  lemma SpawnKeepsGood(s: State, v: nat, p: nat, c: nat, ok: bool)
    requires Good(s) && Admissible(s.graph, v, p, c) && HasRoom(s.graph, v)
    ensures Good(Spawn(s, v, p, c, s.clock, ok)) && Evolves(s, Spawn(s, v, p, c, s.clock, ok))
  {
    var r := s.(graph := Reserve(s.graph, v, p, c, s.clock));
    SpawnLeads(s, v, p, c, s.clock, ok);
    ReserveBounded(s.graph, v, p, c, s.clock);
    ReserveReserved(s.graph, v, p, c, s.clock);
    EvolvesKeepsWired(s, r);
    LeadsKeepsGood(r, Spawn(s, v, p, c, s.clock, ok));
    EvolvesTransitive(s, r, Spawn(s, v, p, c, s.clock, ok));
  }
}
