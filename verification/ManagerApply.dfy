/** Replacing the configuration all or nothing: what holds between the steps of apply. */
module ManagerApply {
  import opened Options
  import opened Config
  import opened ManagerState
  import opened ManagerSteps
  import opened ManagerInvariant
  import opened ManagerTable
  import opened ManagerReload
  import opened ManagerRuns
  import opened ManagerTick

  type Snapshot = map<string, App>

  /** A snapshot that Load accepted. */
  ghost predicate Loaded(snapshot: Snapshot) {
    Dependencies.Sound(snapshot) && forall n <- snapshot :: snapshot[n].Valid() && snapshot[n].name == n
  }

  // ------------------------------------------------------ staged listeners

  predicate HasService(g: Graph, name: string) {
    name in g.services && g.services[name] in g.svcs
  }

  /** The name's service, if there is one, listens where the snapshot says. */
  predicate SameListen(g: Graph, snapshot: Snapshot, name: string) {
    && name in snapshot && name in g.services && g.services[name] in g.svcs
    && g.svcs[g.services[name]].config.listen == snapshot[name].listen
  }

  predicate NeedsListener(g: Graph, snapshot: Snapshot, name: string) {
    name in snapshot && snapshot[name].listen.Some? && !SameListen(g, snapshot, name)
  }

  ghost predicate Distinct(staged: map<string, nat>) {
    forall a <- staged, b <- staged :: staged[a] == staged[b] ==> a == b
  }

  /** From `s` to `t` only the staged listeners were opened. */
  ghost predicate Staged(s: State, t: State, staged: map<string, nat>) {
    && Continues(s, t) && s.nextListener <= t.nextListener
    && t == s.(nextListener := t.nextListener, sockets := t.sockets)
    && (forall id :: id in t.sockets <==> id in s.sockets || id in staged.Values)
    && Distinct(staged) && (forall n <- staged :: staged[n] !in s.sockets && staged[n] !in s.listeners)
  }

  lemma StagedStarts(s: State)
    requires Good(s)
    ensures Staged(s, s, map[])
  {
    ContinuesReflexive(s);
  }

  lemma FreshListener(s: State, t: State)
    requires Continues(s, t)
    ensures t.nextListener + 1 !in t.sockets && t.nextListener + 1 !in t.listeners && Continues(s, OpenSocket(t))
  {
    hide Continues, Inv, Path, Bounded, Reserved;
    ContinuesGood(s, t);
    NewIdentifier(t);
    hide Good, Wired;
    ContinuesStep(s, t, Opening);
  }

  lemma NewIdentifier(s: State)
    requires Wired(s)
    ensures s.nextListener + 1 !in s.sockets && s.nextListener + 1 !in s.listeners
  {
  }

  lemma StageStep(s: State, t: State, staged: map<string, nat>, name: string)
    requires Staged(s, t, staged) && name !in staged
    ensures Staged(s, OpenSocket(t), staged[name := t.nextListener + 1])
  {
    hide Continues;
    FreshListener(s, t);
    var more := staged[name := t.nextListener + 1];
    forall id ensures id in more.Values <==> id in staged.Values || id == t.nextListener + 1 {
      if id == t.nextListener + 1 { assert more[name] == id; }
      if id in staged.Values { var n :| n in staged && staged[n] == id; assert more[n] == id; }
    }
    forall n <- staged ensures staged[n] in t.sockets { assert staged[n] in staged.Values; }
  }

  lemma UnstageStep(s: State, t: State, staged: map<string, nat>, name: string)
    requires Staged(s, t, staged) && name in staged
    ensures Staged(s, CloseSocket(t, staged[name]), staged - {name})
  {
    hide Continues;
    assert staged[name] in staged.Values;
    ContinuesStep(s, t, Move.Closing(staged[name]));
    var fewer := staged - {name};
    forall id ensures id in fewer.Values <==> id in staged.Values && id != staged[name] {
      if id in staged.Values && id != staged[name] { var n :| n in staged && staged[n] == id; assert fewer[n] == id; }
      if id in fewer.Values { var n :| n in fewer && fewer[n] == id; assert staged[n] == id; }
    }
  }

  lemma UnstagedAll(s: State, t: State)
    requires Staged(s, t, map[])
    ensures t == s.(nextListener := t.nextListener)
  {
    assert t.sockets == s.sockets;
  }

  // ------------------------------------------------ services that must go

  lemma FadingDrained(g: Graph, h: Graph, name: string)
    requires Fading(g, h) && Drained(g, name) && (name in g.services ==> g.services[name] in g.svcs)
    requires name in h.services ==> name in g.services && h.services[name] == g.services[name]
    ensures Drained(h, name)
  {
  }

  /** The service of this name stays or is succeeded; its listener is reused. */
  ghost predicate Visited(s: State, t: State, snapshot: Snapshot, name: string) {
    && (name in t.graph.services <==> SameListen(s.graph, snapshot, name))
    && (name in t.graph.services && HasService(s.graph, name) && !Unchanged(s.graph, snapshot, name) ==>
         Drained(t.graph, name))
  }

  /** The stopping loop of apply has visited all but `todo` of the services of `s`. */
  ghost predicate Trimmed(s: State, t: State, snapshot: Snapshot, todo: set<string>) {
    && Continues(s, t) && SameDefinitions(s.graph, t.graph) && t.nextListener == s.nextListener
    && (forall n <- t.graph.services :: n in s.graph.services && t.graph.services[n] == s.graph.services[n])
    && (forall n <- s.graph.services :: n in todo ==> n in t.graph.services)
    && (forall n <- s.graph.services :: n !in todo ==> Visited(s, t, snapshot, n))
    && (forall id <- t.listeners :: id in s.listeners)
    && (forall id :: id in t.sockets <==> id in s.sockets && (id in s.listeners ==> id in t.listeners))
  }

  lemma TrimmedStarts(s: State, snapshot: Snapshot)
    requires Good(s)
    ensures Trimmed(s, s, snapshot, s.graph.services.Keys)
  {
    ContinuesReflexive(s);
  }

  lemma FadingDefinitions(g: Graph, h: Graph)
    requires Fading(g, h)
    ensures SameDefinitions(g, h)
  {
  }

  lemma TrimFade(s: State, t: State, u: State, snapshot: Snapshot, todo: set<string>)
    requires Trimmed(s, t, snapshot, todo) && Within(t, u) && Fading(t.graph, u.graph) && Named(t.graph)
    ensures Trimmed(s, u, snapshot, todo)
  {
    hide Good, Path, Drained, Continues, Within, Fading, Named;
    WithinContinues(s, t, u);
    WithinTables(t, u);
    FadingDefinitions(t.graph, u.graph);
    NamedServices(t.graph);
    forall n <- s.graph.services | n !in todo ensures Visited(s, u, snapshot, n) {
      assert Visited(s, t, snapshot, n);
      if n in t.graph.services && Drained(t.graph, n) { FadingDrained(t.graph, u.graph, n); }
    }
  }

  /** A service that stays, unchanged or with all its workers retiring. */
  lemma TrimKeep(s: State, t: State, snapshot: Snapshot, todo: set<string>, name: string)
    requires Trimmed(s, t, snapshot, todo) && name in todo && name in s.graph.services
    requires SameListen(s.graph, snapshot, name)
    requires s.graph.svcs[s.graph.services[name]].config == snapshot[name] || Drained(t.graph, name)
    ensures Trimmed(s, t, snapshot, todo - {name})
  {
    hide Continues, Drained;
    forall n <- s.graph.services | n !in todo - {name} ensures Visited(s, t, snapshot, n) {
      if n != name { assert Visited(s, t, snapshot, n); }
    }
  }

  /** A service that is gone or listens elsewhere is forgotten. */
  lemma TrimDrop(s: State, t: State, snapshot: Snapshot, todo: set<string>, name: string)
    requires Trimmed(s, t, snapshot, todo) && name in todo && name in s.graph.services
    requires !SameListen(s.graph, snapshot, name)
    requires Named(t.graph) && Wired(t) && Drained(t.graph, name)
    ensures name in t.graph.services && t.graph.services[name] in t.graph.svcs
    ensures Trimmed(s, Drop(t, name), snapshot, todo - {name})
  {
    hide Continues, Drained, Named, Wired, SameListen, Disconnect;
    NamedServices(t.graph);
    DropContinues(s, t, name);
    DropTables(t, name);
    forall n <- s.graph.services | n !in todo - {name} ensures Visited(s, Drop(t, name), snapshot, n) {
      hide Visited, Drop;
      VisitedDrop(s, t, Drop(t, name), snapshot, name, n);
    }
  }

  lemma NamedServices(g: Graph)
    requires Named(g)
    ensures forall n <- g.services :: g.services[n] in g.svcs
  {
  }

  lemma VisitedDrop(s: State, t: State, u: State, snapshot: Snapshot, name: string, n: string)
    requires u.graph == t.graph.(services := t.graph.services - {name})
    requires n in t.graph.services ==> t.graph.services[n] in t.graph.svcs
    requires if n == name then !SameListen(s.graph, snapshot, name) else Visited(s, t, snapshot, n)
    ensures Visited(s, u, snapshot, n)
  {
    hide Drained;
    if n != name && n in t.graph.services && Drained(t.graph, n) { StillDrained(t.graph, u.graph, n); }
  }

  lemma DropContinues(s: State, t: State, name: string)
    requires Continues(s, t) && name in t.graph.services && t.graph.services[name] in t.graph.svcs
    requires Drained(t.graph, name)
    ensures Continues(s, Drop(t, name))
  {
    hide Continues;
    ContinuesStep(s, t, Dropping(name));
  }

  lemma StillDrained(g: Graph, h: Graph, n: string)
    requires Drained(g, n) && h.svcs == g.svcs && h.procs == g.procs && n in g.services && n in h.services
    requires h.services[n] == g.services[n]
    ensures Drained(h, n)
  {
  }

  lemma DropTables(s: State, name: string)
    requires Named(s.graph) && Wired(s) && name in s.graph.services
    ensures var t := Drop(s, name);
      && t.graph == s.graph.(services := s.graph.services - {name}) && t.nextListener == s.nextListener
      && (forall id <- t.listeners :: id in s.listeners)
      && (forall id :: id in t.sockets <==> id in s.sockets && (id in s.listeners ==> id in t.listeners))
  {
  }

  // ------------------------------------------- services that do not change

  predicate Unchanged(g: Graph, snapshot: Snapshot, name: string) {
    && name in snapshot && name in g.services && g.services[name] in g.svcs
    && g.svcs[g.services[name]].config == snapshot[name]
  }

  /** The service and the processes of its workers are as they were. */
  ghost predicate Untouched(g: Graph, h: Graph, v: nat) {
    && v in g.svcs && v in h.svcs && h.svcs[v] == g.svcs[v]
    && forall w <- g.svcs[v].workers :: w in g.procs && w in h.procs && h.procs[w] == g.procs[w]
  }

  /** What apply has not visited, or does not change, is untouched; it starts nothing. */
  ghost predicate Preserved(g: Graph, h: Graph, snapshot: Snapshot, todo: set<string>) {
    && NoneStarted(g, h)
    && forall n <- g.services :: n in todo || Unchanged(g, snapshot, n) ==> Untouched(g, h, g.services[n])
  }

  lemma PreservedStarts(g: Graph, snapshot: Snapshot)
    requires Indexed(g)
    ensures Preserved(g, g, snapshot, g.services.Keys)
  {
  }

  lemma PreservedStop(g: Graph, h: Graph, k: Graph, snapshot: Snapshot, todo: set<string>, name: string)
    requires Preserved(g, h, snapshot, todo) && Named(g) && ServiceLists(h) && name in g.services
    requires !Unchanged(g, snapshot, name)
    requires Spared(h, k, g.services[name]) && NoneStarted(h, k)
    ensures Preserved(g, k, snapshot, todo - {name})
  {
    var v := g.services[name];
    forall n <- g.services | n in todo - {name} || Unchanged(g, snapshot, n) ensures Untouched(g, k, g.services[n]) {
      assert g.services[n] != v && Untouched(g, h, g.services[n]);
      forall w <- g.svcs[g.services[n]].workers ensures k.procs[w] == g.procs[w] {
        assert w in h.svcs[g.services[n]].workers && w !in h.svcs[v].workers;
      }
    }
  }

  lemma PreservedKeep(g: Graph, h: Graph, k: Graph, snapshot: Snapshot, todo: set<string>, name: string)
    requires Preserved(g, h, snapshot, todo) && k.svcs == h.svcs && k.procs == h.procs
    ensures Preserved(g, k, snapshot, todo - {name})
  {
  }

  lemma PreservedInstall(g: Graph, t: State, snapshot: Snapshot, name: string, app: App, v: nat, listener: Option<nat>)
    requires Preserved(g, t.graph, snapshot, {}) && Named(g) && Named(t.graph) && ServiceLists(t.graph)
    requires v !in t.graph.svcs
    requires !Unchanged(g, snapshot, name)
    requires name in t.graph.services ==> name in g.services && t.graph.services[name] == g.services[name]
    ensures Preserved(g, Install(t, name, app, v, listener).graph, snapshot, {})
  {
    var k := Install(t, name, app, v, listener).graph;
    forall n <- g.services | Unchanged(g, snapshot, n) ensures Untouched(g, k, g.services[n]) {
      var u := g.services[n];
      assert Untouched(g, t.graph, u) && n != name && (name in g.services ==> g.services[name] != u);
      forall w <- g.svcs[u].workers ensures w in k.procs && k.procs[w] == g.procs[w] {
        assert w in t.graph.svcs[u].workers && t.graph.procs[w].service == u;
      }
    }
  }

  // -------------------------------------------------- services that are new

  /** Nothing but draining workers is handed on to a new service. */
  predicate IsNew(s: State, service: Service, name: string, app: App) {
    service == NewService(name, app, service.listener, service.workers, s.clock)
  }

  /** What apply leaves under a name: the configuration, on the listener that was
      reused or staged, in the same object if nothing changed. */
  ghost predicate Configures(s: State, t: State, snapshot: Snapshot, staged: map<string, nat>, n: string)
    requires n in snapshot
  {
    && n in t.graph.services && t.graph.services[n] in t.graph.svcs
    && var service := t.graph.svcs[t.graph.services[n]];
    && service.config == snapshot[n]
    && (Unchanged(s.graph, snapshot, n) || (IsNew(s, service, n, snapshot[n]) && Drained(t.graph, n)))
    && (if n in s.graph.services && s.graph.services[n] in s.graph.svcs
        then service.listener == s.graph.svcs[s.graph.services[n]].listener
             && (s.graph.svcs[s.graph.services[n]].config == snapshot[n] ==> t.graph.services[n] == s.graph.services[n])
        else service.listener == if n in staged then Some(staged[n]) else None)
  }

  ghost predicate Awaits(s: State, t: State, snapshot: Snapshot, staged: map<string, nat>, n: string)
    requires n in snapshot
  {
    if n in s.graph.services && s.graph.services[n] in s.graph.svcs
    then n in t.graph.services && t.graph.services[n] == s.graph.services[n] && t.graph.services[n] in t.graph.svcs
         && t.graph.svcs[t.graph.services[n]] == s.graph.svcs[s.graph.services[n]]
         && (s.graph.svcs[s.graph.services[n]].config != snapshot[n] ==> Drained(t.graph, n))
    else n !in t.graph.services && (n in staged ==> staged[n] !in t.listeners)
  }

  /** The installing loop of apply has all but `todo` of the snapshot behind it. */
  ghost predicate Installing(s: State, t: State, snapshot: Snapshot, staged: map<string, nat>, todo: set<string>) {
    && todo <= snapshot.Keys
    && t.nextListener == s.nextListener && t.sockets == s.sockets
    && (forall id <- s.listeners :: id in t.listeners)
    && (forall n <- t.graph.services :: n in snapshot)
    && (forall n <- snapshot :: if n in todo then Awaits(s, t, snapshot, staged, n)
         else Configures(s, t, snapshot, staged, n))
    && Continues(s, t)
  }

  /** What the stopping loop leaves for the installing one. */
  ghost predicate Prepared(s: State, snapshot: Snapshot, staged: map<string, nat>) {
    && (forall n <- s.graph.services :: n in snapshot)
    && (forall n <- s.graph.services ::
         s.graph.services[n] in s.graph.svcs && s.graph.svcs[s.graph.services[n]].config != snapshot[n] ==>
             Drained(s.graph, n))
    && (forall n <- staged :: n !in s.graph.services && staged[n] in s.sockets && staged[n] !in s.listeners)
    && (forall n <- s.graph.services ::
         s.graph.services[n] in s.graph.svcs && s.graph.svcs[s.graph.services[n]].listener.Some? ==>
          s.graph.svcs[s.graph.services[n]].listener.value in s.listeners)
    && Distinct(staged)
  }

  lemma InstallingStarts(s: State, snapshot: Snapshot, staged: map<string, nat>)
    requires Good(s) && Prepared(s, snapshot, staged)
    ensures Installing(s, s, snapshot, staged, snapshot.Keys)
  {
    ContinuesReflexive(s);
    hide Continues;
    forall n <- snapshot ensures Awaits(s, s, snapshot, staged, n) { if n in s.graph.services { ServiceOf(s, n); } }
  }

  /** An unchanged service is skipped. */
  lemma InstallSkip(s: State, t: State, snapshot: Snapshot, staged: map<string, nat>, todo: set<string>, name: string)
    requires Installing(s, t, snapshot, staged, todo) && name in todo
    requires name in t.graph.services && t.graph.services[name] in t.graph.svcs
    requires t.graph.svcs[t.graph.services[name]].config == snapshot[name]
    ensures Installing(s, t, snapshot, staged, todo - {name})
  {
    hide Continues, Drained;
    forall n <- snapshot
        ensures if n in todo - {name} then Awaits(s, t, snapshot, staged, n)
            else Configures(s, t, snapshot, staged, n) {
      if n == name { assert Awaits(s, t, snapshot, staged, n); }
    }
  }

  function ListenerFor(g: Graph, staged: map<string, nat>, name: string): Option<nat> {
    if name in g.services && g.services[name] in g.svcs then g.svcs[g.services[name]].listener
    else if name in staged then Some(staged[name]) else None
  }

  lemma ReadyToInstall(s: State, t: State, snapshot: Snapshot, staged: map<string, nat>, todo: set<string>,
            name: string, v: nat)
    requires Prepared(s, snapshot, staged) && Installing(s, t, snapshot, staged, todo) && name in todo
    requires v !in t.graph.svcs
    requires snapshot[name].Valid() && snapshot[name].name == name
    requires name in t.graph.services && t.graph.services[name] in t.graph.svcs ==>
        t.graph.svcs[t.graph.services[name]].config != snapshot[name]
    ensures Installable(t, name, snapshot[name], v, ListenerFor(t.graph, staged, name))
  {
    hide Continues;
    assert Awaits(s, t, snapshot, staged, name);
  }

  /** The name stands for the same unchanged service. */
  ghost predicate SameUnder(g: Graph, h: Graph, n: string) {
    if n !in g.services then n !in h.services
    else n in h.services && h.services[n] == g.services[n] && g.services[n] in g.svcs && g.services[n] in h.svcs
         && h.svcs[g.services[n]] == g.svcs[g.services[n]] && (Drained(g, n) ==> Drained(h, n))
  }

  /** Installing one service leaves the others where they are. */
  lemma OthersKept(t: State, name: string, app: App, v: nat, listener: Option<nat>, n: string)
    requires Named(t.graph) && v !in t.graph.svcs && n != name
    ensures SameUnder(t.graph, Install(t, name, app, v, listener).graph, n)
  {
  }

  lemma InstallOne(s: State, t: State, snapshot: Snapshot, staged: map<string, nat>, todo: set<string>, name: string,
            v: nat)
    requires Prepared(s, snapshot, staged) && Installing(s, t, snapshot, staged, todo) && name in todo
    requires v !in t.graph.svcs && Named(t.graph)
    requires Installable(t, name, snapshot[name], v, ListenerFor(t.graph, staged, name))
    requires name in t.graph.services && t.graph.services[name] in t.graph.svcs ==>
        t.graph.svcs[t.graph.services[name]].config != snapshot[name]
    ensures Installing(s, Install(t, name, snapshot[name], v, ListenerFor(t.graph, staged, name)), snapshot,
        staged, todo - {name})
  {
    hide Continues, Drained, Installable, Install, Awaits, Configures, SameUnder, Prepared, ListenerFor, Named;
    var listener := ListenerFor(t.graph, staged, name);
    var u := Install(t, name, snapshot[name], v, listener);
    InstallingNames(s, t, snapshot, staged, todo, name);
    InstallContinues(s, t, name, snapshot[name], v, listener);
    InstalledTables(t, name, snapshot[name], v, listener);
    forall n | n != name ensures SameUnder(t.graph, u.graph, n) {
      OthersKept(t, name, snapshot[name], v, listener, n);
    }
    forall n <- snapshot
        ensures if n in todo - {name} then Awaits(s, u, snapshot, staged, n)
            else Configures(s, u, snapshot, staged, n) {
      InstalledOther(s, t, u, snapshot, staged, todo, name, n);
    }
    forall n <- u.graph.services ensures n in snapshot { if n != name { SameName(t.graph, u.graph, n); } }
  }

  lemma SameName(g: Graph, h: Graph, n: string)
    requires SameUnder(g, h, n)
    ensures n in h.services <==> n in g.services
  {
  }

  lemma InstalledOther(s: State, t: State, u: State, snapshot: Snapshot, staged: map<string, nat>, todo: set<string>,
            name: string, n: string)
    requires n in snapshot && name in todo && name in snapshot && Prepared(s, snapshot, staged)
    requires if n in todo then Awaits(s, t, snapshot, staged, n) else Configures(s, t, snapshot, staged, n)
    requires Awaits(s, t, snapshot, staged, name)
    requires n != name ==> SameUnder(t.graph, u.graph, n)
    requires n == name ==>
      && name in u.graph.services && u.graph.services[name] in u.graph.svcs
           && u.graph.svcs[u.graph.services[name]].config == snapshot[name]
      && u.graph.svcs[u.graph.services[name]].listener == ListenerFor(t.graph, staged, name)
      && IsNew(s, u.graph.svcs[u.graph.services[name]], name, snapshot[name]) && Drained(u.graph, name)
      && (name in t.graph.services && t.graph.services[name] in t.graph.svcs ==>
           t.graph.svcs[t.graph.services[name]].config != snapshot[name])
    requires forall id <- u.listeners :: id in t.listeners || ListenerFor(t.graph, staged, name) == Some(id)
    ensures if n in todo - {name} then Awaits(s, u, snapshot, staged, n) else Configures(s, u, snapshot, staged, n)
  {
    hide Drained;
  }

  lemma InstallContinues(s: State, t: State, name: string, app: App, v: nat, listener: Option<nat>)
    requires Continues(s, t) && Installable(t, name, app, v, listener)
    ensures Continues(s, Install(t, name, app, v, listener))
  {
    hide Continues, Installable, Install;
    ContinuesStep(s, t, Move.Installing(name, app, v, listener));
  }

  lemma InstalledTables(t: State, name: string, app: App, v: nat, listener: Option<nat>)
    ensures var u := Install(t, name, app, v, listener);
      && u.nextListener == t.nextListener && u.sockets == t.sockets
      && name in u.graph.services && u.graph.services[name] == v && v in u.graph.svcs
      && u.graph.svcs[v] == NewService(name, app, listener, Inherited(t.graph, name), t.clock)
      && (Installable(t, name, app, v, listener) ==> Drained(u.graph, name))
      && (forall id <- t.listeners :: id in u.listeners)
      && (forall id <- u.listeners :: id in t.listeners || listener == Some(id))
  {
  }

  /** The listeners that were staged are those the snapshot needs. */
  ghost predicate Covers(g: Graph, snapshot: Snapshot, staged: map<string, nat>) {
    forall n :: n in staged <==> NeedsListener(g, snapshot, n)
  }

  lemma PreparedBy(s: State, t: State, u: State, snapshot: Snapshot, staged: map<string, nat>)
    requires Staged(s, t, staged) && Covers(s.graph, snapshot, staged) && Trimmed(t, u, snapshot, {})
    requires Named(u.graph) && Wired(u)
    ensures Prepared(u, snapshot, staged)
  {
    hide Continues, Drained;
    forall n <- u.graph.services
        ensures n in snapshot && (u.graph.svcs[u.graph.services[n]].config != snapshot[n] ==> Drained(u.graph, n)) {
      assert Visited(t, u, snapshot, n) && t.graph.services[n] in t.graph.svcs;
    }
    forall n <- staged ensures n !in u.graph.services && staged[n] in u.sockets && staged[n] !in u.listeners {
      assert staged[n] in staged.Values && NeedsListener(s.graph, snapshot, n);
      if n in t.graph.services { assert Visited(t, u, snapshot, n); }
    }
    forall n <- u.graph.services | u.graph.svcs[u.graph.services[n]].listener.Some?
      ensures u.graph.svcs[u.graph.services[n]].listener.value in u.listeners
    {
      assert Live(u.graph, u.graph.services[n]);
    }
  }

  /** What a successful apply has done to the services and their listeners. */
  ghost predicate Applied(s: State, t: State, snapshot: Snapshot) {
    && t.graph.services.Keys == snapshot.Keys && Installed(t.graph) == snapshot
    && (forall n <- snapshot :: Retained(s, t, snapshot, n) && Renewed(s, t, snapshot, n))
    && Preserved(s.graph, t.graph, snapshot, {})
    && t.sockets == t.listeners.Keys
  }

  /** An unchanged listener is reused, and an unchanged service is the same object. */
  ghost predicate Retained(s: State, t: State, snapshot: Snapshot, n: string)
    requires n in snapshot
  {
    SameListen(s.graph, snapshot, n) ==>
      && n in t.graph.services && t.graph.services[n] in t.graph.svcs
      && t.graph.svcs[t.graph.services[n]].listener == s.graph.svcs[s.graph.services[n]].listener
      && (s.graph.svcs[s.graph.services[n]].config == snapshot[n] ==> t.graph.services[n] == s.graph.services[n])
  }

  /** A changed or new service begins afresh, and what it inherits only drains. */
  ghost predicate Renewed(s: State, t: State, snapshot: Snapshot, n: string)
    requires n in snapshot
  {
    Unchanged(s.graph, snapshot, n)
    || (n in t.graph.services && t.graph.services[n] in t.graph.svcs
        && IsNew(s, t.graph.svcs[t.graph.services[n]], n, snapshot[n]) && Drained(t.graph, n))
  }

  lemma AppliedRenews(s: State, t: State, u: State, v: State, snapshot: Snapshot, staged: map<string, nat>, n: string)
    requires t.graph == s.graph && t.clock == s.clock && Trimmed(t, u, snapshot, {})
    requires Installing(u, v, snapshot, staged, {}) && n in snapshot
    ensures Renewed(s, v, snapshot, n)
  {
    hide Drained;
    assert u.clock == t.clock;
    hide Continues;
    assert Configures(u, v, snapshot, staged, n);
  }

  lemma AppliedServices(s: State, t: State, snapshot: Snapshot, staged: map<string, nat>)
    requires Installing(s, t, snapshot, staged, {})
    ensures t.graph.services.Keys == snapshot.Keys && Installed(t.graph) == snapshot
  {
    hide Continues;
    forall n <- snapshot
        ensures n in t.graph.services && t.graph.services[n] in t.graph.svcs
        ensures t.graph.svcs[t.graph.services[n]].config == snapshot[n] {
      assert Configures(s, t, snapshot, staged, n);
    }
  }

  lemma AppliedRetains(s: State, t: State, u: State, snapshot: Snapshot, staged: map<string, nat>, n: string)
    requires Trimmed(s, t, snapshot, {}) && Installing(t, u, snapshot, staged, {}) && n in snapshot
    ensures Retained(s, u, snapshot, n)
  {
    hide Continues, Drained;
    if SameListen(s.graph, snapshot, n) {
      assert Visited(s, t, snapshot, n) && Configures(t, u, snapshot, staged, n);
    }
  }

  lemma AppliedSockets(s: State, t: State, u: State, v: State, snapshot: Snapshot, staged: map<string, nat>)
    requires Staged(s, t, staged) && s.sockets == s.listeners.Keys && Covers(s.graph, snapshot, staged)
    requires Trimmed(t, u, snapshot, {}) && Prepared(u, snapshot, staged) && Installing(u, v, snapshot, staged, {})
    requires Wired(v) && Named(v.graph)
    ensures v.sockets == v.listeners.Keys
  {
    hide Continues, Drained;
    forall id <- v.sockets ensures id in v.listeners {
      if id in staged.Values {
        var n :| n in staged && staged[n] == id;
        assert NeedsListener(s.graph, snapshot, n) && Configures(u, v, snapshot, staged, n);
        assert Live(v.graph, v.graph.services[n]);
      }
    }
  }

  lemma ApplyDone(s: State, t: State, u: State, v: State, snapshot: Snapshot, staged: map<string, nat>)
    requires Staged(s, t, staged) && s.sockets == s.listeners.Keys && Covers(s.graph, snapshot, staged)
    requires Trimmed(t, u, snapshot, {}) && Prepared(u, snapshot, staged) && Installing(u, v, snapshot, staged, {})
    requires Wired(v) && Named(v.graph)
    requires Preserved(s.graph, v.graph, snapshot, {})
    ensures Applied(s, v, snapshot)
  {
    StagedGraph(s, t, staged);
    hide Continues, Drained, Named, Wired, Prepared, Covers, Trimmed, Installing, Retained, Renewed, Installed,
         Staged, Preserved;
    AppliedServices(u, v, snapshot, staged);
    AppliedSockets(s, t, u, v, snapshot, staged);
    forall n <- snapshot ensures Retained(s, v, snapshot, n) && Renewed(s, v, snapshot, n) {
      AppliedRetains(t, u, v, snapshot, staged, n);
      SameRetained(s, t, v, snapshot, n);
      AppliedRenews(s, t, u, v, snapshot, staged, n);
    }
  }

  lemma SameRetained(s: State, t: State, v: State, snapshot: Snapshot, n: string)
    requires t.graph == s.graph && n in snapshot && Retained(t, v, snapshot, n)
    ensures Retained(s, v, snapshot, n)
  {
  }

  lemma ContinuesThrough(s: State, t: State, u: State)
    requires Continues(s, t) && Continues(t, u)
    ensures Continues(s, u)
  {
    PathTransitive(s, t, u);
  }

  lemma StagedContinues(s: State, t: State, staged: map<string, nat>)
    requires Staged(s, t, staged)
    ensures Continues(s, t)
  {
    hide Continues;
  }

  lemma StagedGraph(s: State, t: State, staged: map<string, nat>)
    requires Staged(s, t, staged)
    ensures t.graph == s.graph && t.listeners == s.listeners && t.clock == s.clock
  {
    hide Continues;
  }

  lemma TrimmedContinues(s: State, t: State, snapshot: Snapshot, todo: set<string>)
    requires Trimmed(s, t, snapshot, todo)
    ensures Continues(s, t) && Good(t) && Named(t.graph) && Wired(t)
  {
  }

  lemma TrimmedService(s: State, t: State, snapshot: Snapshot, todo: set<string>, name: string)
    requires Trimmed(s, t, snapshot, todo) && name in todo && name in s.graph.services
    ensures Good(t) && Named(t.graph) && Wired(t)
    ensures name in t.graph.services && t.graph.services[name] == s.graph.services[name]
    ensures var v := s.graph.services[name];
      v in s.graph.svcs && v in t.graph.svcs && t.graph.svcs[v].config == s.graph.svcs[v].config
  {
  }

  lemma TrimmedGraphs(s: State, t: State, snapshot: Snapshot, todo: set<string>)
    requires Good(s) && Trimmed(s, t, snapshot, todo)
    ensures Named(s.graph) && Indexed(s.graph) && ServiceLists(t.graph)
    ensures forall n <- t.graph.services :: n in s.graph.services && t.graph.services[n] == s.graph.services[n]
  {
  }

  lemma InstallingNames(s: State, t: State, snapshot: Snapshot, staged: map<string, nat>, todo: set<string>,
            name: string)
    requires Installing(s, t, snapshot, staged, todo) && name in todo
    ensures name in t.graph.services ==> name in s.graph.services && t.graph.services[name] == s.graph.services[name]
    ensures ServiceLists(t.graph) && t.clock == s.clock
  {
    assert Awaits(s, t, snapshot, staged, name);
    hide Awaits, Configures;
  }

  /** The names that are left stand for the same services, with the same configuration. */
  ghost predicate SameNames(g: Graph, h: Graph, snapshot: Snapshot) {
    && SameDefinitions(g, h)
    && (forall n <- h.services :: n in g.services && h.services[n] == g.services[n])
    && (forall n <- g.services :: Unchanged(g, snapshot, n) ==> n in h.services)
  }

  lemma TrimmedNames(s: State, t: State, snapshot: Snapshot)
    requires Good(s) && Trimmed(s, t, snapshot, {})
    ensures Named(s.graph) && SameNames(s.graph, t.graph, snapshot)
  {
    hide Continues, Drained;
    assert Named(s.graph);
    forall n <- s.graph.services | Unchanged(s.graph, snapshot, n) ensures n in t.graph.services {
      assert Visited(s, t, snapshot, n);
    }
  }

  lemma DropKeeps(s: State, name: string)
    requires name in s.graph.services && s.graph.services[name] in s.graph.svcs
    ensures Drop(s, name).graph == s.graph.(services := s.graph.services - {name})
  {
  }

  lemma StillChanged(g: Graph, s: State, t: State, snapshot: Snapshot, staged: map<string, nat>, todo: set<string>,
            name: string)
    requires SameNames(g, s.graph, snapshot) && Installing(s, t, snapshot, staged, todo) && name in todo
    requires !(name in t.graph.services && t.graph.services[name] in t.graph.svcs
        && t.graph.svcs[t.graph.services[name]].config == snapshot[name])
    ensures !Unchanged(g, snapshot, name)
    ensures name in t.graph.services ==> name in g.services && t.graph.services[name] == g.services[name]
  {
    hide Continues, Drained;
    assert Awaits(s, t, snapshot, staged, name);
  }

  lemma InstallingGood(s: State, t: State, snapshot: Snapshot, staged: map<string, nat>, todo: set<string>)
    requires Installing(s, t, snapshot, staged, todo)
    ensures Continues(s, t) && Good(t) && Named(t.graph) && Wired(t)
    ensures forall n <- t.graph.services :: t.graph.services[n] in t.graph.svcs
  {
  }

  lemma AppliedValid(s: State, t: State, snapshot: Snapshot)
    requires Continues(s, t) && Applied(s, t, snapshot) && Loaded(snapshot)
    ensures Good(t) && t.sockets == t.listeners.Keys && Dependencies.Sound(Installed(t.graph))
  {
    hide Good, Path, Dependencies.Sound, Retained, Renewed, Preserved;
  }

  // ---------------------------------------------------------------- shutdown

  /** Every configured service has lost its listener; nothing else has changed. */
  ghost function Unlistened(s: State): State {
    s.(graph := s.graph.(svcs := map v | v in s.graph.svcs :: if Live(s.graph, v)
        then s.graph.svcs[v].(listener := None) else s.graph.svcs[v]),
       listeners := map[], sockets := {})
  }

  ghost predicate Muted(g: Graph, h: Graph, todo: set<string>) {
    && h.svcs.Keys == g.svcs.Keys
    && forall v <- g.svcs :: h.svcs[v] == if Live(g, v) && g.svcs[v].name !in todo then g.svcs[v].(listener := None)
         else g.svcs[v]
  }

  lemma MutedStep(g: Graph, h: Graph, todo: set<string>, name: string)
    requires Muted(g, h, todo) && h.services == g.services && name in h.services && Live(h, h.services[name])
    requires h.svcs[h.services[name]].name == name
    ensures var v := h.services[name]; Muted(g, PutService(h, v, h.svcs[v].(listener := None)), todo - {name})
  {
    var v := h.services[name];
    forall u <- g.svcs | Live(g, u) && g.svcs[u].name == name ensures u == v { }
  }

  lemma MutedSkip(g: Graph, h: Graph, todo: set<string>, name: string)
    requires Muted(g, h, todo) && h.services == g.services && name in h.services && Live(h, h.services[name])
    requires h.svcs[h.services[name]].name == name
    requires h.svcs[h.services[name]].listener.None?
    ensures Muted(g, h, todo - {name})
  {
    var v := h.services[name];
    assert h.svcs[v].(listener := None) == h.svcs[v];
    assert PutService(h, v, h.svcs[v].(listener := None)).svcs == h.svcs;
    MutedStep(g, h, todo, name);
  }

  /** The loop of shutdown has closed the listeners of all services but `todo`. */
  ghost predicate Closing(s: State, t: State, todo: set<string>) {
    && Continues(s, t)
         && t == s.(graph := s.graph.(svcs := t.graph.svcs), listeners := t.listeners, sockets := t.sockets)
    && t.sockets == t.listeners.Keys && Muted(s.graph, t.graph, todo)
    && Installed(t.graph) == Installed(s.graph)
    && (forall n <- t.graph.services ::
         t.graph.services[n] in t.graph.svcs && (n !in todo ==> t.graph.svcs[t.graph.services[n]].listener.None?))
  }

  lemma MutedAll(s: State, t: State)
    requires Muted(s.graph, t.graph, {})
    ensures t == s.(graph := s.graph.(svcs := t.graph.svcs), listeners := map[], sockets := {}) ==> t == Unlistened(s)
  {
    assert t.graph.svcs == Unlistened(s).graph.svcs;
  }

  lemma ClosingStarts(s: State)
    requires Good(s) && s.sockets == s.listeners.Keys
    ensures Closing(s, s, s.graph.services.Keys)
  {
    ContinuesReflexive(s);
  }

  lemma ClosingService(s: State, t: State, todo: set<string>, name: string)
    requires Closing(s, t, todo) && name in t.graph.services
    ensures t.graph.services[name] in t.graph.svcs && Live(t.graph, t.graph.services[name])
    ensures t.graph.svcs[t.graph.services[name]].name == name
  {
  }

  lemma ClosingSkip(s: State, t: State, todo: set<string>, name: string)
    requires Closing(s, t, todo) && name in t.graph.services && t.graph.services[name] in t.graph.svcs
    requires t.graph.svcs[t.graph.services[name]].listener.None?
    ensures Closing(s, t, todo - {name})
  {
    ClosingService(s, t, todo, name);
    MutedSkip(s.graph, t.graph, todo, name);
    hide Continues, Installed, Muted;
  }

  lemma UnlistenContinues(s: State, t: State, v: nat)
    requires Continues(s, t) && Live(t.graph, v)
    ensures Continues(s, Unlisten(t, v))
  {
    hide Continues, Unlisten;
    ContinuesStep(s, t, Unlistening(v));
  }

  lemma ClosingStep(s: State, t: State, todo: set<string>, name: string)
    requires Closing(s, t, todo) && name in t.graph.services && t.graph.services[name] in t.graph.svcs
    ensures Closing(s, Unlisten(t, t.graph.services[name]), todo - {name})
  {
    hide Continues, Installed, Muted, Live;
    var v := t.graph.services[name];
    ClosingService(s, t, todo, name);
    MutedStep(s.graph, t.graph, todo, name);
    UnlistenContinues(s, t, v);
    UnlistenInstalled(t, v);
  }

  lemma UnlistenInstalled(s: State, v: nat)
    requires v in s.graph.svcs
    ensures Installed(Unlisten(s, v).graph) == Installed(s.graph)
  {
  }

  lemma NoListener(s: State, id: nat)
    requires Wired(s)
    requires forall n <- s.graph.services ::
        s.graph.services[n] in s.graph.svcs && s.graph.svcs[s.graph.services[n]].listener.None?
    ensures id !in s.listeners
  {
  }

  lemma ClosingEnds(s: State, t: State)
    requires Closing(s, t, {})
    ensures t == Unlistened(s) && Continues(s, t) && Good(t) && Installed(t.graph) == Installed(s.graph)
  {
    hide Continues, Installed, Muted, Unlistened, Inv, Bounded, Reserved;
    ContinuesGood(s, t);
    MutedAll(s, t);
    assert Good(t) && t.listeners.Keys == {} by { forall id ensures id !in t.listeners { NoListener(t, id); } }
  }

  lemma UnlistenedTables(s: State)
    ensures Unlistened(s).listeners == map[] && Unlistened(s).sockets == {}
    ensures Unlistened(s).graph.workers == s.graph.workers
  {
  }

  lemma WakePath(s: State, now: int)
    requires Good(s) && s.clock <= now
    ensures Good(s.(clock := now)) && Path(s, s.(clock := now))
  {
    PathReflexive(s);
    hide Good, Path;
    PathStep(s, s, Wake(now));
    WakeKeepsGood(s, now);
  }

  lemma NothingInstalled(g: Graph)
    requires g.services == map[]
    ensures Dependencies.Sound(Installed(g))
  {
    assert Installed(g) == map[];
    Dependencies.RankedAcyclic(map[], map[]);
  }
}
