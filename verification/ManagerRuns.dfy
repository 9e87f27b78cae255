/** Runs of the manager: every interleaving of messages, ticks, reloads, file
    restarts and shutdown is a sequence of the moves below. */
module ManagerRuns {
  import opened Options
  import opened Config
  import opened ActionBoard
  import opened ManagerState
  import opened ManagerSteps
  import opened ManagerInvariant
  import opened ManagerHistory
  import opened ManagerOperations
  import opened ManagerTable
  import opened ManagerReload

  /** One operation of the event loop. What the operating system, the workers and
      the actions answer is part of the move. */
  datatype Move =
    | Wake(now: int)
    | Review(p: nat)
    | Halting(p: nat, failed: bool)
    | Killing(p: nat)
    | Starting(p: nat, ok: bool)
    | Spawning(v: nat, p: nat, c: nat, ok: bool)
    | Exiting(p: nat)
    | Probing(p: nat)
    | Answering(p: nat, ready: bool)
    | Greeting(p: nat, ready: bool)
    | Failing(p: nat)
    | Requesting(p: nat, id: string)
    | Responding(p: nat, id: string)
    | Finishing(r: RunRef, ok: bool)
    | Tuning(v: nat, service: Service)
    | Opening
    | Closing(socket: nat)
    | Dropping(name: string)
    | Installing(name: string, app: App, v: nat, listener: Option<nat>)
    | Unlistening(v: nat)

  /** When the event loop, or its environment, makes the move. */
  ghost predicate Enabled(s: State, m: Move) {
    match m
    case Wake(now) => s.clock <= now
    case Review(p) => p in s.graph.workers && Linked(s.graph, p)
    case Halting(p, failed) => Stoppable(s, p, failed)
    case Killing(p) => p in s.graph.workers && p in s.graph.procs && s.graph.procs[p].stopSent
        && !s.graph.procs[p].pending && !s.graph.procs[p].killed
    case Starting(p, _) => ActiveWorker(s.graph, p) && Linked(s.graph, p) && s.graph.procs[p].pending
    case Spawning(v, p, c, _) => Admissible(s.graph, v, p, c) && HasRoom(s.graph, v)
    case Exiting(p) => Speaks(s, p)
    case Probing(p) => HasRun(s, p)
    case Answering(p, _) => HasRun(s, p)
    case Greeting(p, _) => Speaks(s, p)
    case Failing(p) => Speaks(s, p)
    case Requesting(p, _) => Speaks(s, p)
    case Responding(p, _) => Speaks(s, p)
    case Finishing(r, _) => r in s.board.inflight && r in s.board.runs
    case Tuning(v, service) => v in s.graph.svcs && Tunable(s.graph, v, service, s.clock)
    case Opening => true
    case Closing(id) => id !in s.listeners
    case Dropping(name) => name in s.graph.services && s.graph.services[name] in s.graph.svcs && Drained(s.graph, name)
    case Installing(name, app, v, listener) => Installable(s, name, app, v, listener)
    case Unlistening(v) => Live(s.graph, v)
  }

  function Result(s: State, m: Move): State
    requires Enabled(s, m)
  {
    match m
    case Wake(now) => s.(clock := now)
    case Review(p) => Lifecycle(s, p, s.clock)
    case Halting(p, failed) => Stop(s, p, s.clock, failed)
    case Killing(p) => Kill(s, p)
    case Starting(p, ok) => StartPending(s, p, s.clock, ok)
    case Spawning(v, p, c, ok) => Spawn(s, v, p, c, s.clock, ok)
    case Exiting(p) => ProcessExit(s, p, s.clock)
    case Probing(p) => WithProc(s, p, s.graph.procs[p].(probing := true))
    case Answering(p, ready) => ProbeResult(s, p, ready, s.clock)
    case Greeting(p, ready) => Handshake(s, p, ready, s.clock)
    case Failing(p) => StreamError(s, p, s.clock)
    case Requesting(p, id) => RequestStart(s, p, id, s.clock)
    case Responding(p, id) => RequestEnd(s, p, id, s.clock)
    case Finishing(r, ok) => s.(board := Collect(s.board, r, ok, s.clock))
    case Tuning(v, service) => s.(graph := PutService(s.graph, v, service))
    case Opening => OpenSocket(s)
    case Closing(id) => CloseSocket(s, id)
    case Dropping(name) => Drop(s, name)
    case Installing(name, app, v, listener) => Install(s, name, app, v, listener)
    case Unlistening(v) => Unlisten(s, v)
  }

  lemma WakeKeepsGood(s: State, now: int)
    requires Good(s) && s.clock <= now
    ensures Good(s.(clock := now)) && Since(s, s.(clock := now))
  {
    WakeSince(s, now);
  }

  lemma WakeSince(s: State, now: int)
    requires Wired(s) && s.clock <= now
    ensures Since(s, s.(clock := now))
  {
    EvolvesReflexive(s);
    EvolvesSince(s, s);
  }

  lemma LeadsGood(s: State, t: State)
    requires Good(s) && Leads(s, t)
    ensures Good(t) && Since(s, t)
  {
    LeadsKeepsGood(s, t);
    EvolvesSince(s, t);
  }

  /** The moves on a process that exists already. */
  predicate OnProcess(m: Move) {
    m.Review? || m.Halting? || m.Killing? || m.Starting? || m.Probing? || m.Finishing? || Spoken(m)
  }

  lemma ProcessMoveLeads(s: State, m: Move)
    requires Inv(s) && OnProcess(m) && Enabled(s, m)
    ensures Leads(s, Result(s, m))
  {
    hide Inv, Leads, Lifecycle, Stop, Kill, StartPending, Collect;
    if Spoken(m) {
      MessageLeads(s, m);
    } else {
      match m
      case Review(p) => LifecycleLeads(s, p, s.clock);
      case Halting(p, failed) => StopLeads(s, p, s.clock, failed);
      case Killing(p) => KillLeads(s, p);
      case Starting(p, ok) => StartPendingLeads(s, p, s.clock, ok);
      case Probing(p) => ProbingLeads(s, p);
      case Finishing(r, ok) => CollectLeads(s, r, ok, s.clock);
    }
  }

  /** The moves that handle a message about a process. */
  predicate Spoken(m: Move) {
    m.Exiting? || m.Answering? || m.Greeting? || m.Failing? || m.Requesting? || m.Responding?
  }

  lemma MessageLeads(s: State, m: Move)
    requires Inv(s) && Spoken(m) && Enabled(s, m)
    ensures Leads(s, Result(s, m))
  {
    hide Inv, Leads, ProcessExit, ProbeResult, Handshake, StreamError, RequestStart, RequestEnd;
    match m
    case Exiting(p) => ProcessExitLeads(s, p, s.clock);
    case Answering(p, ready) => ProbeResultLeads(s, p, ready, s.clock);
    case Greeting(p, ready) => HandshakeLeads(s, p, ready, s.clock);
    case Failing(p) => StreamErrorLeads(s, p, s.clock);
    case Requesting(p, id) => RequestStartLeads(s, p, id, s.clock);
    case Responding(p, id) => RequestEndLeads(s, p, id, s.clock);
  }

  lemma ProcessMove(s: State, m: Move)
    requires Good(s) && OnProcess(m) && Enabled(s, m)
    ensures Good(Result(s, m)) && Since(s, Result(s, m))
  {
    assert Inv(s);
    hide Inv, Good, Leads, Enabled, Result, Since;
    ProcessMoveLeads(s, m);
    LeadsGood(s, Result(s, m));
  }

  lemma MoveKeepsGood(s: State, m: Move)
    requires Good(s) && Enabled(s, m)
    ensures Good(Result(s, m)) && Since(s, Result(s, m))
  {
    if OnProcess(m) {
      ProcessMove(s, m);
    } else {
      hide Inv, Bounded, Reserved, Wired, Since, Spawn, Tunable, Installable;
      match m
      case Wake(now) => WakeKeepsGood(s, now);
      case Spawning(v, p, c, ok) => SpawnKeepsGood(s, v, p, c, ok); EvolvesSince(s, Result(s, m));
      case Tuning(v, service) => TuneKeepsGood(s, v, service);
      case Opening => OpenSocketKeepsGood(s);
      case Closing(id) => CloseSocketKeepsGood(s, id);
      case Dropping(name) => DropKeepsGood(s, name);
      case Installing(name, app, v, listener) => InstallKeepsGood(s, name, app, v, listener);
      case Unlistening(v) => UnlistenKeepsGood(s, v);
    }
  }

  // ------------------------------------------------------------------- runs

  /** The moves can be made one after another. */
  ghost predicate Legal(s: State, moves: seq<Move>)
    decreases |moves|
  {
    moves != [] ==> Enabled(s, moves[0]) && Legal(Result(s, moves[0]), moves[1..])
  }

  ghost function After(s: State, moves: seq<Move>): State
    requires Legal(s, moves)
    decreases |moves|
  {
    if moves == [] then s else After(Result(s, moves[0]), moves[1..])
  }

  /** Some sequence of moves leads from one state to the other. */
  ghost predicate Path(s: State, t: State) {
    exists moves: seq<Move> :: Legal(s, moves) && After(s, moves) == t
  }

  lemma InitialGood(clock: int)
    ensures Good(Initial(clock))
  {
  }

  lemma SinceReflexive(s: State)
    requires Wired(s)
    ensures Since(s, s)
  {
    EvolvesReflexive(s);
    EvolvesSince(s, s);
  }

  /** Every run keeps the invariant, and its states are ordered by Since. */
  lemma {:induction false} RunKeepsGood(s: State, moves: seq<Move>)
    requires Good(s) && Legal(s, moves)
    ensures Good(After(s, moves)) && Since(s, After(s, moves))
    decreases |moves|
  {
    if moves == [] {
      SinceReflexive(s);
    } else {
      var t := Result(s, moves[0]);
      MoveKeepsGood(s, moves[0]);
      RunKeepsGood(t, moves[1..]);
      SinceTransitive(s, t, After(s, moves));
    }
  }

  lemma {:induction false} RunsJoin(s: State, first: seq<Move>, second: seq<Move>)
    requires Legal(s, first) && Legal(After(s, first), second)
    ensures Legal(s, first + second) && After(s, first + second) == After(After(s, first), second)
    decreases |first|
  {
    if first == [] {
      assert first + second == second;
    } else {
      assert (first + second)[1..] == first[1..] + second;
      RunsJoin(Result(s, first[0]), first[1..], second);
    }
  }

  lemma PathReflexive(s: State)
    ensures Path(s, s)
  {
    assert Legal(s, []) && After(s, []) == s;
  }

  lemma PathTransitive(s: State, t: State, u: State)
    requires Path(s, t) && Path(t, u)
    ensures Path(s, u)
  {
    var first :| Legal(s, first) && After(s, first) == t;
    var second :| Legal(t, second) && After(t, second) == u;
    RunsJoin(s, first, second);
  }

  lemma PathStep(s: State, t: State, m: Move)
    requires Path(s, t) && Enabled(t, m)
    ensures Path(s, Result(t, m))
  {
    var u := Result(t, m);
    assert [m][1..] == [] && Legal(u, []) && After(u, []) == u;
    assert Legal(t, [m]) && After(t, [m]) == u;
    PathTransitive(s, t, Result(t, m));
  }

  lemma PathKeepsGood(s: State, t: State)
    requires Good(s) && Path(s, t)
    ensures Good(t) && Since(s, t)
  {
    var moves :| Legal(s, moves) && After(s, moves) == t;
    RunKeepsGood(s, moves);
  }
}
