/** The process owner's critical sections, with the kernel and other waits at work
    between and inside them. */
module ProcessOwner {
  import opened Options
  import opened ReaperSteps
  import opened Sets

  class Owner {
    var children: map<Pid, Child>
    var managed: map<Pid, nat>
    var pids: map<nat, Pid>
    var waiting: set<nat>
    var returned: set<nat>
    var signal: bool
    var handler: Handler
    var lock: Lock
    var phase: Phase
    ghost var reaped: seq<Pid>

    ghost function View(): State
      reads this
    {
      State(children, managed, pids, waiting, returned, signal, handler, lock, phase, reaped)
    }

    ghost predicate Valid()
      reads this
    {
      Inv(View())
    }

    constructor ()
      ensures View() == INITIAL && Valid()
    {
      children, managed, pids, waiting, returned := map[], map[], map[], {}, {};
      signal, handler, lock, phase, reaped := false, Listening, Free, Open, [];
    }

    /** What needs no mutex: children exit, orphans arrive, and cmd.Wait calls return. */
    method Kernel()
      requires Valid()
      modifies `children, `waiting, `returned, `signal
      ensures Valid() && Reaches(old(View()), View())
      ensures !phase.Open? ==> signal == old(signal)
      ensures !lock.Forked? ==> Kept(old(children), children, managed)
    {
      hide Inv;
      ghost var s := View();
      ReachesSelf(s);
      var events: nat := *;
      while events > 0
        invariant Valid() && Reaches(s, View()) && (!phase.Open? ==> signal == s.signal)
        invariant !lock.Forked? ==> Kept(s.children, children, managed)
      {
        events := events - 1;
        KernelEvent(s);
      }
    }

    method KernelEvent(ghost s: State)
      requires Inv(s) && Valid() && Reaches(s, View())
      modifies `children, `waiting, `returned, `signal
      ensures Valid() && Reaches(s, View()) && (!phase.Open? ==> signal == old(signal))
      ensures !lock.Forked? ==> Kept(old(children), children, managed)
    {
      hide Inv, Reaches, Kept;
      KeptSame(children, managed);
      var pid: Pid, command: nat, arrival: bool, dead: bool := *, *, *, *;
      if arrival && pid !in children {
        Arrive(pid, dead, s);
      } else if pid in children && !children[pid].dead {
        Die(pid, s);
      } else if command in waiting && lock != Forked(command) && command in pids && pids[command] in children
          && children[pids[command]] == Child(Some(command), true) {
        Collect(command, s);
      }
    }

    method Arrive(pid: Pid, dead: bool, ghost s: State)
      requires Inv(s) && Valid() && Reaches(s, View()) && pid !in children
      modifies `children, `signal
      ensures Valid() && Reaches(s, View()) && (!phase.Open? ==> signal == old(signal))
      ensures Kept(old(children), children, managed)
    {
      hide Inv, Reaches;
      ReachesStep(s, View(), Adopt(pid, dead));
      children := children[pid := Child(None, dead)];
      if dead && phase.Open? {
        signal := true;
      }
    }

    method Die(pid: Pid, ghost s: State)
      requires Inv(s) && Valid() && Reaches(s, View()) && pid in children && !children[pid].dead
      modifies `children, `signal
      ensures Valid() && Reaches(s, View()) && (!phase.Open? ==> signal == old(signal))
      ensures Kept(old(children), children, managed)
    {
      hide Inv, Reaches;
      ReachesStep(s, View(), Exit(pid));
      children := children[pid := children[pid].(dead := true)];
      if phase.Open? {
        signal := true;
      }
    }

    /** A cmd.Wait returns: the kernel's table loses the child, the owner's not yet. */
    method Collect(command: nat, ghost s: State)
      requires Inv(s) && Valid() && Reaches(s, View()) && Enabled(View(), Step.Collect(command))
      modifies `children, `waiting, `returned
      ensures Valid() && Reaches(s, View()) && (!lock.Forked? ==> Kept(old(children), children, managed))
    {
      CollectableManaged(View());
      hide Inv, Reaches;
      ReachesStep(s, View(), Step.Collect(command));
      children := children - {pids[command]};
      waiting := waiting - {command};
      returned := returned + {command};
    }

    /** Start: the fork and the registration under one mutex. */
    method Start(command: nat) returns (pid: Pid)
      requires Valid() && lock.Free? && command !in pids
      modifies this
      ensures Valid() && lock.Free? && Reaches(old(View()), View())
      ensures command in pids && pids[command] == pid && pid in managed && managed[pid] == command
      ensures pid !in old(children) && managed == old(managed)[pid := command]
    {
      hide Inv;
      ghost var s := View();
      ReachesSelf(s);
      pid := Number();
      ReachesStep(s, View(), Fork(command, pid));
      children := children[pid := Child(Some(command), false)];
      pids := pids[command := pid];
      waiting := waiting + {command};
      lock := Forked(command);
      ghost var t := View();
      Kernel();
      ReachesJoin(s, t, View());
      ReachesStep(s, View(), Register);
      managed := managed[pid := command];
      lock := Free;
    }

    /** A number that no child has: the kernel's choice. */
    method Number() returns (pid: Pid)
      ensures pid !in children
    {
      ghost var free := FreeNumber(children.Keys);
      assert free !in children.Keys;
      pid :| pid !in children.Keys;
    }

    /** The rest of Wait, once cmd.Wait has returned: a newer command keeps its entry,
        and every child that is dead and unmanaged then is collected. */
    method Wait(command: nat)
      requires Valid() && lock.Free? && command in returned && command in pids
      modifies this
      ensures Valid() && lock.Free? && Reaches(old(View()), View())
      ensures pids == old(pids) && managed == Forget(old(managed), pids[command], command)
      ensures old(reaped) <= reaped && Cleared(old(children), managed, reaped[|old(reaped)|..])
    {
      hide Inv;
      ghost var s := View();
      ReachesSelf(s);
      ReachesStep(s, s, EnterWait(command));
      var pid := pids[command];
      if pid in managed && managed[pid] == command {
        managed := managed - {pid};
      }
      returned := returned - {command};
      lock := Scanning(children.Keys, false);
      ghost var t := View();
      Reap();
      ReachesJoin(s, t, View());
    }

    /** The signal goroutine takes one queued signal and scans once for all it stands
        for: whatever was dead and unmanaged when it took the signal is collected. */
    method HandleSignal()
      requires Valid() && lock.Free? && signal && handler.Listening?
      modifies this
      ensures Valid() && lock.Free? && Reaches(old(View()), View()) && managed == old(managed)
      ensures phase == old(phase) && handler.Listening? && (!phase.Open? ==> !signal)
      ensures old(reaped) <= reaped && Cleared(old(children), managed, reaped[|old(reaped)|..])
    {
      hide Inv;
      ghost var s := View();
      ReachesSelf(s);
      ReachesStep(s, s, Receive);
      signal, handler := false, Signalled;
      ghost var t := View();
      Kernel();
      ReachesJoin(s, t, View());
      ReachesStep(s, View(), EnterHandler);
      handler, lock := Listening, Scanning(children.Keys, false);
      ghost var u := View();
      Reap();
      ReachesJoin(s, u, View());
    }

    /** Close: signals stop, the goroutine drains, and one last scan is made, so that
        nothing stays that was dead and unmanaged before. */
    method Close()
      requires Valid() && lock.Free? && phase.Open? && handler.Listening?
      modifies this
      ensures Valid() && lock.Free? && phase.Closed? && Reaches(old(View()), View())
      ensures old(reaped) <= reaped && Cleared(old(children), managed, reaped[|old(reaped)|..])
    {
      hide Inv;
      ghost var s := View();
      ReachesSelf(s);
      ReachesStep(s, s, StopSignals);
      phase := Closing;
      if signal {
        ghost var t := View();
        HandleSignal();
        ReachesJoin(s, t, View());
      }
      ReachesStep(s, View(), EnterClose);
      lock := Scanning(children.Keys, true);
      ghost var u := View();
      Reap();
      ReachesJoin(s, u, View());
    }

    method LookAtChild(pid: Pid, ghost s: State) returns (taken: bool)
      requires Inv(s) && Valid() && Reaches(s, View()) && lock.Scanning? && pid in lock.left
      modifies `children, `lock, `reaped
      ensures Valid() && Reaches(s, View()) && lock == Scanning(old(lock).left - {pid}, old(lock).final)
      ensures taken <==> pid !in managed && pid in old(children) && old(children)[pid].dead
      ensures children == if taken then old(children) - {pid} else old(children)
      ensures reaped == if taken then old(reaped) + [pid] else old(reaped)
    {
      hide Inv, Reaches;
      ReachesStep(s, View(), Look(pid));
      lock := Scanning(lock.left - {pid}, lock.final);
      taken := pid !in managed && pid in children && children[pid].dead;
      if taken {
        children := children - {pid};
        reaped := reaped + [pid];
      }
    }

    /** One child is looked at, and then the kernel and the other waits go on. */
    method ReapOne(pid: Pid, ghost s: State)
      requires Inv(s) && Valid() && Reaches(s, View()) && lock.Scanning? && pid in lock.left && s.reaped <= reaped
      requires ClearedBut(s.children, managed, children, lock.left, reaped[|s.reaped|..])
      modifies `children, `waiting, `returned, `signal, `lock, `reaped
      ensures Valid() && Reaches(s, View()) && lock == Scanning(old(lock).left - {pid}, old(lock).final)
      ensures s.reaped <= reaped && (!phase.Open? ==> signal == old(signal))
      ensures ClearedBut(s.children, managed, children, lock.left, reaped[|s.reaped|..])
    {
      hide Inv, Reaches, ClearedBut, Kept;
      ghost var before, took, left := children, reaped, lock.left;
      var taken := LookAtChild(pid, s);
      assert reaped[|s.reaped|..] == took[|s.reaped|..] + if taken then [pid] else [];
      ClearedLook(s.children, managed, before, left, took[|s.reaped|..], pid);
      ghost var t, looked := View(), children;
      Kernel();
      ClearedKept(s.children, managed, looked, children, lock.left, reaped[|s.reaped|..]);
      ReachesJoin(s, t, View());
    }

    /** reap, over the children that were listed when the scan began. It takes every one
        that was dead and unmanaged then, and never a managed one. */
    method Reap()
      requires Valid() && lock.Scanning? && lock.left == children.Keys
      modifies `children, `waiting, `returned, `signal, `lock, `phase, `reaped
      ensures Valid() && lock.Free? && Reaches(old(View()), View())
      ensures phase == if old(lock).final then Closed else old(phase)
      ensures !old(phase).Open? ==> signal == old(signal)
      ensures old(reaped) <= reaped && Cleared(old(children), managed, reaped[|old(reaped)|..])
    {
      hide Inv, Reaches, ClearedBut, Kept;
      ghost var s := View();
      ReachesSelf(s);
      ClearedStarts(children, managed);
      assert reaped[|reaped|..] == [];
      while lock.left != {}
        invariant Valid() && Reaches(s, View()) && lock.Scanning? && lock.final == s.lock.final && phase == s.phase
        invariant !phase.Open? ==> signal == s.signal
        invariant s.reaped <= reaped
        invariant ClearedBut(s.children, managed, children, lock.left, reaped[|s.reaped|..])
        decreases |lock.left|
      {
        var pid :| pid in lock.left;
        ReapOne(pid, s);
      }
      ReachesStep(s, View(), Leave);
      ClearedAll(s.children, managed, children, reaped[|s.reaped|..]);
      phase := if lock.final then Closed else phase;
      lock := Free;
    }
  }

  /** A scan has taken every child that was dead and unmanaged, and no managed one. */
  predicate Cleared(before: map<Pid, Child>, managed: map<Pid, nat>, taken: seq<Pid>) {
    && (forall pid <- taken :: pid !in managed)
    && (forall pid <- before :: before[pid].dead && pid !in managed ==> pid in taken)
  }

  /** The same, but for those in `left`, which are still to be looked at. */
  predicate ClearedBut(before: map<Pid, Child>, managed: map<Pid, nat>, children: map<Pid, Child>, left: set<Pid>,
                       taken: seq<Pid>) {
    && (forall pid <- taken :: pid !in managed)
    && (forall pid <- before :: before[pid].dead && pid !in managed ==>
         pid in taken || (pid in left && pid in children && children[pid].dead))
  }

  lemma ClearedStarts(children: map<Pid, Child>, managed: map<Pid, nat>)
    ensures ClearedBut(children, managed, children, children.Keys, [])
  {
  }

  lemma ClearedAll(before: map<Pid, Child>, managed: map<Pid, nat>, children: map<Pid, Child>, taken: seq<Pid>)
    requires ClearedBut(before, managed, children, {}, taken)
    ensures Cleared(before, managed, taken)
  {
  }

  lemma ClearedLook(before: map<Pid, Child>, managed: map<Pid, nat>, children: map<Pid, Child>, left: set<Pid>,
                    taken: seq<Pid>, pid: Pid)
    requires ClearedBut(before, managed, children, left, taken)
    ensures if pid !in managed && pid in children && children[pid].dead
        then ClearedBut(before, managed, children - {pid}, left - {pid}, taken + [pid])
        else ClearedBut(before, managed, children, left - {pid}, taken)
  {
  }

  lemma ClearedKept(before: map<Pid, Child>, managed: map<Pid, nat>, children: map<Pid, Child>,
                    later: map<Pid, Child>, left: set<Pid>, taken: seq<Pid>)
    requires ClearedBut(before, managed, children, left, taken) && Kept(children, later, managed)
    ensures ClearedBut(before, managed, later, left, taken)
  {
  }

  /** Dead children that nobody manages wait for a scan. */
  predicate Kept(before: map<Pid, Child>, after: map<Pid, Child>, managed: map<Pid, nat>) {
    forall pid <- before :: before[pid].dead && pid !in managed ==> pid in after && after[pid].dead
  }

  lemma KeptSame(children: map<Pid, Child>, managed: map<Pid, nat>)
    ensures Kept(children, children, managed)
  {
  }

  /** What a cmd.Wait may collect is managed. */
  lemma CollectableManaged(s: State)
    requires Inv(s)
    ensures forall pid <- s.children :: s.children[pid].command.Some? && !s.lock.Forked? ==> pid in s.managed
  {
    forall pid <- s.children ensures Registered(s, pid) { }
  }
}
