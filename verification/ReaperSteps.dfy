/** Reaping orphans beside managed children: the process owner, its signal goroutine
    and any number of waits, interleaved with a kernel that reuses process numbers. */
module ReaperSteps {
  import opened Options

  type Pid = nat

  /** A direct child of the supervisor: started for a command, or adopted. */
  datatype Child = Child(command: Option<nat>, dead: bool)

  /** Who holds the owner's mutex: a Start between its fork and its registration, or a
      scan that has the children in `left` still to look at. `final` marks the scan
      of Close. */
  datatype Lock = Free | Forked(command: nat) | Scanning(left: set<Pid>, final: bool)

  /** The signal goroutine waits for a signal, or for the mutex. */
  datatype Handler = Listening | Signalled

  datatype Phase = Open | Closing | Closed

  /** `children` is the kernel's table and `managed` the owner's; `signal` says that a
      SIGCHLD is queued. A command is in `waiting` until its cmd.Wait returns and in
      `returned` from then until Wait has taken the mutex. `reaped` is a history
      variable: what scans have collected. */
  datatype State = State(
    children: map<Pid, Child>,
    managed: map<Pid, nat>,
    pids: map<nat, Pid>,
    waiting: set<nat>,
    returned: set<nat>,
    signal: bool,
    handler: Handler,
    lock: Lock,
    phase: Phase,
    reaped: seq<Pid>
  )

  const INITIAL := State(map[], map[], map[], {}, {}, false, Listening, Free, Open, [])

  datatype Step =
    | Adopt(pid: Pid, dead: bool)
    | Exit(pid: Pid)
    | Fork(command: nat, pid: Pid)
    | Register
    | Collect(command: nat)
    | EnterWait(command: nat)
    | Receive
    | EnterHandler
    | Look(pid: Pid)
    | Leave
    | StopSignals
    | EnterClose

  predicate Enabled(s: State, step: Step) {
    match step
    case Adopt(pid, _) => pid !in s.children
    case Exit(pid) => pid in s.children && !s.children[pid].dead
    case Fork(command, pid) => s.lock.Free? && command !in s.pids && pid !in s.children
    case Register => s.lock.Forked? && s.lock.command in s.pids
    case Collect(command) => command in s.waiting && !(s.lock.Forked? && s.lock.command == command)
        && command in s.pids && s.pids[command] in s.children
             && s.children[s.pids[command]] == Child(Some(command), true)
    case EnterWait(command) => s.lock.Free? && command in s.returned && command in s.pids
    case Receive => s.signal && s.handler.Listening?
    case EnterHandler => s.lock.Free? && s.handler.Signalled?
    case Look(pid) => s.lock.Scanning? && pid in s.lock.left
    case Leave => s.lock.Scanning? && s.lock.left == {}
    case StopSignals => s.phase.Open?
    case EnterClose => s.phase.Closing? && s.lock.Free? && !s.signal && s.handler.Listening?
  }

  /** What a scan does with one listed child: an unmanaged one is collected if it is dead. */
  function LookAt(s: State, pid: Pid): State
    requires s.lock.Scanning?
  {
    var t := s.(lock := Scanning(s.lock.left - {pid}, s.lock.final));
    if pid in s.managed || pid !in s.children || !s.children[pid].dead then t
    else t.(children := s.children - {pid}, reaped := s.reaped + [pid])
  }

  /** A command's entry goes unless a newer command has taken its number. */
  function Forget(managed: map<Pid, nat>, pid: Pid, command: nat): map<Pid, nat> {
    if pid in managed && managed[pid] == command then managed - {pid} else managed
  }

  /** A signal is noted while the channel is connected; a second one coalesces. */
  function Notify(s: State): State {
    if s.phase.Open? then s.(signal := true) else s
  }

  function Next(s: State, step: Step): State
    requires Enabled(s, step)
  {
    match step
    case Adopt(pid, dead) => 
      var t := s.(children := s.children[pid := Child(None, dead)]);
      if dead then Notify(t) else t
    case Exit(pid) => Notify(s.(children := s.children[pid := s.children[pid].(dead := true)]))
    case Fork(command, pid) =>
      s.(children := s.children[pid := Child(Some(command), false)], pids := s.pids[command := pid],
          waiting := s.waiting + {command}, lock := Forked(command))
    case Register => s.(managed := s.managed[s.pids[s.lock.command] := s.lock.command], lock := Free)
    case Collect(command) =>
      s.(children := s.children - {s.pids[command]}, waiting := s.waiting - {command},
          returned := s.returned + {command})
    case EnterWait(command) =>
      s.(managed := Forget(s.managed, s.pids[command], command), returned := s.returned - {command},
          lock := Scanning(s.children.Keys, false))
    case Receive => s.(signal := false, handler := Signalled)
    case EnterHandler => s.(handler := Listening, lock := Scanning(s.children.Keys, false))
    case Look(pid) => LookAt(s, pid)
    case Leave => s.(lock := Free, phase := if s.lock.final then Closed else s.phase)
    case StopSignals => s.(phase := Closing)
    case EnterClose => s.(lock := Scanning(s.children.Keys, true))
  }

  // --------------------------------------------------------------- invariant

  /** A child started for a command is registered, unless its Start is not over. */
  predicate Registered(s: State, pid: Pid)
    requires pid in s.children
  {
    s.children[pid].command.Some? ==>
      var command := s.children[pid].command.value;
      && command in s.waiting && command in s.pids && s.pids[command] == pid
      && (s.lock == Forked(command) || (pid in s.managed && s.managed[pid] == command))
  }

  /** An entry is the child's own, or that of a Wait on its way to remove it. */
  predicate Accounted(s: State, pid: Pid)
    requires pid in s.managed
  {
    var command := s.managed[pid];
    && command in s.pids && s.pids[command] == pid
    && (command in s.returned
         || (command in s.waiting && pid in s.children && s.children[pid].command == Some(command)))
  }

  /** A Wait that has not returned will find its child, dead or alive. */
  predicate Present(s: State, command: nat)
  {
    && command in s.pids && s.pids[command] in s.children && s.children[s.pids[command]].command == Some(command)
  }

  /** The last scan, that of Close, has begun. */
  predicate Ending(s: State) {
    s.phase.Closed? || (s.lock.Scanning? && s.lock.final)
  }

  predicate Zombie(s: State, pid: Pid) {
    pid in s.children && s.children[pid] == Child(None, true)
  }

  /** A dead adopted child: a signal is queued, a scan is due or will come to it, or a
      Wait still has to drop the entry that hides it. */
  predicate Noticed(s: State, pid: Pid) {
    Zombie(s, pid) && !Ending(s) ==>
      || s.signal || s.handler.Signalled? || s.phase.Closing?
      || (s.lock.Scanning? && pid in s.lock.left)
      || (pid in s.managed && s.managed[pid] in s.returned)
  }

  ghost predicate Inv(s: State) {
    && (forall pid <- s.children :: Registered(s, pid) && Noticed(s, pid))
    && (forall pid <- s.managed :: Accounted(s, pid))
    && (forall command <- s.waiting :: Present(s, command))
    && (forall command <- s.returned :: command in s.pids && command !in s.waiting)
    && (s.lock.Forked? ==> s.lock.command in s.waiting)
    && (s.lock.Scanning? && s.lock.final ==> s.phase.Closing?)
  }

  lemma KeepsRegistered(s: State, step: Step, pid: Pid)
    requires Inv(s) && Enabled(s, step) && pid in Next(s, step).children
    ensures Registered(Next(s, step), pid)
  {
    if pid in s.children { assert Registered(s, pid); }
    if step.EnterWait? && s.pids[step.command] in s.managed { assert Accounted(s, s.pids[step.command]); }
  }

  lemma KeepsNoticed(s: State, step: Step, pid: Pid)
    requires Inv(s) && Enabled(s, step) && pid in Next(s, step).children
    ensures Noticed(Next(s, step), pid)
  {
    if pid in s.children { assert Registered(s, pid) && Noticed(s, pid); }
    if pid in s.managed { assert Accounted(s, pid); }
  }

  lemma KeepsAccounted(s: State, step: Step, pid: Pid)
    requires Inv(s) && Enabled(s, step) && pid in Next(s, step).managed
    ensures Accounted(Next(s, step), pid)
  {
    hide Noticed;
    if pid in s.managed { assert Accounted(s, pid); }
    if pid in s.children { assert Registered(s, pid); }
  }

  lemma KeepsPresent(s: State, step: Step, command: nat)
    requires Inv(s) && Enabled(s, step) && command in Next(s, step).waiting
    ensures Present(Next(s, step), command)
  {
    if command in s.waiting { assert Present(s, command) && Registered(s, s.pids[command]); }
  }

  lemma StepKeeps(s: State, step: Step)
    requires Inv(s) && Enabled(s, step)
    ensures Inv(Next(s, step))
  {
    var t := Next(s, step);
    KeepsLocks(s, step);
    hide Registered, Noticed, Accounted, Present, Next, Enabled;
    forall pid <- t.children ensures Registered(t, pid) && Noticed(t, pid) {
      KeepsRegistered(s, step, pid);
      KeepsNoticed(s, step, pid);
    }
    forall pid <- t.managed ensures Accounted(t, pid) { KeepsAccounted(s, step, pid); }
    forall command <- t.waiting ensures Present(t, command) { KeepsPresent(s, step, command); }
  }

  lemma KeepsLocks(s: State, step: Step)
    requires Inv(s) && Enabled(s, step)
    ensures var t := Next(s, step);
      && (forall command <- t.returned :: command in t.pids && command !in t.waiting)
      && (t.lock.Forked? ==> t.lock.command in t.waiting)
      && (t.lock.Scanning? && t.lock.final ==> t.phase.Closing?)
  {
  }

  // --------------------------------------------------------------------- runs

  predicate Legal(s: State, steps: seq<Step>)
    decreases |steps|
  {
    steps != [] ==> Enabled(s, steps[0]) && Legal(Next(s, steps[0]), steps[1..])
  }

  function After(s: State, steps: seq<Step>): State
    requires Legal(s, steps)
    decreases |steps|
  {
    if steps == [] then s else After(Next(s, steps[0]), steps[1..])
  }

  lemma {:induction false} RunKeeps(s: State, steps: seq<Step>)
    requires Inv(s) && Legal(s, steps)
    ensures Inv(After(s, steps))
    decreases |steps|
  {
    hide Inv;
    if steps == [] {
    } else {
      StepKeeps(s, steps[0]);
      RunKeeps(Next(s, steps[0]), steps[1..]);
    }
  }

  /** Only its own cmd.Wait takes a command's child out of the kernel's table: no scan
      ever collects the exit status of a managed child. */
  lemma StatusNotStolen(steps: seq<Step>, step: Step, command: nat)
    requires Legal(INITIAL, steps)
    requires var s := After(INITIAL, steps); Enabled(s, step) && command in s.waiting && step != Collect(command)
    ensures var s, t := After(INITIAL, steps), Next(After(INITIAL, steps), step);
      && command in s.pids && s.pids[command] in s.children && s.children[s.pids[command]].command == Some(command)
      && command in t.waiting && t.pids[command] == s.pids[command]
      && s.pids[command] in t.children && t.children[s.pids[command]].command == Some(command)
  {
    RunKeeps(INITIAL, steps);
    var s := After(INITIAL, steps);
    assert Present(s, command) && Registered(s, s.pids[command]);
  }

  /** A late Wait never removes the entry of a newer command with the same number. */
  lemma LateWaitKeepsNewer(steps: seq<Step>, late: nat, command: nat)
    requires Legal(INITIAL, steps)
    requires var s := After(INITIAL, steps); Enabled(s, EnterWait(late)) && command in s.waiting
    ensures var t := Next(After(INITIAL, steps), EnterWait(late));
      command in t.pids && t.pids[command] in t.managed && t.managed[t.pids[command]] == command
  {
    RunKeeps(INITIAL, steps);
    var s := After(INITIAL, steps);
    assert Present(s, command) && Registered(s, s.pids[command]);
  }

  /** A dead orphan is not forgotten: unless Close has begun, something that will scan
      is queued, is waiting for the mutex, or is at work and comes to it. */
  lemma ZombieNotLost(steps: seq<Step>, pid: Pid)
    requires Legal(INITIAL, steps) && Zombie(After(INITIAL, steps), pid) && After(INITIAL, steps).phase.Open?
    ensures var s := After(INITIAL, steps);
      || s.signal || s.handler.Signalled?
      || (s.lock.Scanning? && pid in s.lock.left)
      || (pid in s.managed && s.managed[pid] in s.returned)
  {
    RunKeeps(INITIAL, steps);
    assert Noticed(After(INITIAL, steps), pid);
  }

  /** Everything that was going to scan has done so: then no dead orphan is left. */
  lemma QuietMeansCollected(steps: seq<Step>, pid: Pid)
    requires Legal(INITIAL, steps)
    requires var s := After(INITIAL,
        steps); s.phase.Open? && s.lock.Free? && !s.signal && s.handler.Listening? && s.returned == {}
    ensures !Zombie(After(INITIAL, steps), pid)
  {
    RunKeeps(INITIAL, steps);
    assert pid in After(INITIAL, steps).children ==> Noticed(After(INITIAL, steps), pid);
  }

  /** A scan takes every dead orphan it comes to, unless a stale entry hides it; then
      the Wait that owns the entry scans again after dropping it. */
  lemma LookCollects(steps: seq<Step>, pid: Pid)
    requires Legal(INITIAL, steps)
    requires var s := After(INITIAL, steps); Enabled(s, Look(pid)) && Zombie(s, pid)
    ensures var s, t := After(INITIAL, steps), Next(After(INITIAL, steps), Look(pid));
      if pid in s.managed then s.managed[pid] in s.returned && t.children == s.children
          else t.children == s.children - {pid}
  {
    RunKeeps(INITIAL, steps);
    var s := After(INITIAL, steps);
    if pid in s.managed { assert Accounted(s, pid) && Registered(s, pid); }
  }

  /** After its stale entry is dropped, the waiting scan covers the number again. */
  lemma StaleEntryRescanned(steps: seq<Step>, command: nat)
    requires Legal(INITIAL, steps) && Enabled(After(INITIAL, steps), EnterWait(command))
    ensures var s, t := After(INITIAL, steps), Next(After(INITIAL, steps), EnterWait(command));
      forall pid <- t.children ::
          pid in t.lock.left && (Zombie(t, pid) && pid in t.managed ==> t.managed[pid] in t.returned)
  {
    RunKeeps(INITIAL, steps);
    StepKeeps(After(INITIAL, steps), EnterWait(command));
    var t := Next(After(INITIAL, steps), EnterWait(command));
    forall pid <- t.children ensures Zombie(t, pid) && pid in t.managed ==> t.managed[pid] in t.returned {
      assert Registered(t, pid);
      if pid in t.managed { assert Accounted(t, pid); }
    }
  }

  // -------------------------------------------------- parts of a longer run

  ghost predicate Reaches(s: State, t: State) {
    exists steps: seq<Step> :: Legal(s, steps) && After(s, steps) == t
  }

  lemma ReachesSelf(s: State)
    ensures Reaches(s, s)
  {
    assert Legal(s, []) && After(s, []) == s;
  }

  lemma {:induction false} RunsJoin(s: State, first: seq<Step>, second: seq<Step>)
    requires Legal(s, first) && Legal(After(s, first), second)
    ensures Legal(s, first + second) && After(s, first + second) == After(After(s, first), second)
    decreases |first|
  {
    if first == [] {
      assert first + second == second;
    } else {
      assert (first + second)[1..] == first[1..] + second;
      RunsJoin(Next(s, first[0]), first[1..], second);
    }
  }

  lemma ReachesJoin(s: State, t: State, u: State)
    requires Reaches(s, t) && Reaches(t, u)
    ensures Reaches(s, u)
  {
    hide Next, Enabled;
    var first :| Legal(s, first) && After(s, first) == t;
    var second :| Legal(t, second) && After(t, second) == u;
    RunsJoin(s, first, second);
  }

  lemma ReachesStep(s: State, t: State, step: Step)
    requires Inv(s) && Reaches(s, t) && Enabled(t, step)
    ensures Reaches(s, Next(t, step)) && Inv(Next(t, step))
  {
    hide Next, Enabled, Inv;
    assert [step][1..] == [] && Legal(Next(t, step), []) && After(Next(t, step), []) == Next(t, step);
    assert Legal(t, [step]) && After(t, [step]) == Next(t, step);
    ReachesJoin(s, t, Next(t, step));
    ReachesKeeps(s, Next(t, step));
  }

  lemma ReachesKeeps(s: State, t: State)
    requires Inv(s) && Reaches(s, t)
    ensures Inv(t)
  {
    hide Next, Enabled, Inv;
    var steps :| Legal(s, steps) && After(s, steps) == t;
    RunKeeps(s, steps);
  }
}
