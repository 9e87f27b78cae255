/** The port object: every method body is one critical section under its mutex, or a
    sequence of such sections between which other threads make control calls. */
module Epoll {
  import opened Options
  import opened EpollSteps
  import opened EpollTheorems
  import Steps = EpollSteps

  class Poller {
    var registrations: map<nat, Registration>
    var made: nat
    var asked: nat
    var sockets: map<int, nat>
    var pending: map<nat, Request>
    var rearm: seq<nat>
    var closed: bool
    var released: bool
    var clock: nat
    var batch: nat
    ghost var log: seq<Delivery>
    ghost var starved: set<nat>

    ghost function View(): Port
      reads this
    {
      Port(registrations, made, asked, sockets, pending, rearm, closed, clock, batch, log, starved)
    }

    /** Holds whenever the mutex is free. */
    ghost predicate Valid()
      reads this
    {
      PortInv(View()) && (released ==> closed && pending == map[])
    }

    constructor ()
      ensures Valid() && View() == EMPTY_PORT && !released
    {
      registrations, made, asked, sockets, pending := map[], 0, 0, map[], map[];
      rearm, closed, released, clock, batch, log, starved := [], false, false, 0, 0, [], {};
    }

    method Submit(r: nat) returns (ok: bool)
      requires r in registrations
      modifies `registrations, `pending, `asked, `starved
      ensures View() == Steps.Submit(old(View()), r, ok)
    {
      ok := *;
      if !ok {
        starved := starved + {r};
        return;
      }
      var reg := registrations[r];
      pending := pending[asked := Request(r, reg.generation, clock, batch)];
      registrations := registrations[r := reg.(pending := Some(asked))];
      asked := asked + 1;
      starved := starved - {r};
    }

    /** EpollCtl. */
    method Control(op: Op, fd: int, event: Option<Event>) returns (error: Option<Errno>, ghost a: Answers)
      requires Valid()
      modifies this
      ensures View() == Steps.Control(old(View()), op, fd, event, a) && error == Reply(old(View()), op, fd, event, a)
      ensures released == old(released)
      ensures Valid()
    {
      ghost var p := View();
      SocketsRegistered(p);
      hide PortInv, Steps.Control, Reply;
      error, a := Perform(op, fd, event);
      ControlKeeps(p, op, fd, event, a);
    }

    method Perform(op: Op, fd: int, event: Option<Event>) returns (error: Option<Errno>, ghost a: Answers)
      requires forall x <- sockets :: sockets[x] in registrations
      modifies `registrations, `made, `asked, `pending, `sockets, `starved, `clock
      ensures View() == Steps.Control(old(View()), op, fd, event, a) && error == Reply(old(View()), op, fd, event, a)
    {
      hide Steps.AddSocket, Steps.ModSocket, Steps.DelSocket;
      clock := clock + 1;
      a := Answers(true, true, true);
      error := None;
      if closed {
        error := Some(BadFile);
      } else if op == Unknown || (op != Del && (event.None? || event.value.other)) {
        error := Some(Invalid);
      } else if op == Add {
        error, a := Enter(fd, event.value);
      } else if fd !in sockets {
        error := Some(NoEntry);
      } else {
        error, a := Change(op, fd, event);
      }
    }

    method Enter(fd: int, event: Event) returns (error: Option<Errno>, ghost a: Answers)
      modifies `registrations, `made, `asked, `pending, `sockets, `starved
      ensures error == if fd in old(sockets) then Some(Exists) else if !(a.socketOk && a.submitOk) then Some(Failure)
          else None
      ensures View() == if error.None? then Steps.AddSocket(old(View()), fd, event) else old(View())
    {
      hide Steps.AddSocket;
      var socketOk: bool := *;
      a := Answers(socketOk, true, true);
      if fd in sockets {
        return Some(Exists), a;
      }
      if !socketOk {
        return Some(Failure), a;
      }
      var ok := AddSocket(fd, event);
      a := a.(submitOk := ok);
      error := if ok then None else Some(Failure);
    }

    method Change(op: Op, fd: int, event: Option<Event>) returns (error: Option<Errno>, ghost a: Answers)
      requires fd in sockets && sockets[fd] in registrations && (op == Del || (op == Mod && event.Some?))
      modifies `registrations, `asked, `pending, `sockets, `starved
      ensures var reg := old(registrations)[old(sockets)[fd]];
        if reg.pending.Some? && !a.cancelOk then error == Some(Failure) && View() == old(View())
        else if op == Del then error == None && View() == Steps.DelSocket(old(View()), fd)
        else error == (if reg.pending.None? && !a.submitOk then Some(Failure)
            else None) && View() == Steps.ModSocket(old(View()), fd, event.value, a)
    {
      hide Steps.ModSocket, Steps.DelSocket;
      var cancelOk: bool := *;
      a := Answers(true, cancelOk, true);
      if registrations[sockets[fd]].pending.Some? && !cancelOk {
        return Some(Failure), a;
      }
      error := None;
      if op == Del {
        DelSocket(fd);
      } else {
        error, a := ModSocket(fd, event.value, a);
      }
    }

    method DelSocket(fd: int)
      requires fd in sockets && sockets[fd] in registrations
      modifies `registrations, `sockets
      ensures View() == Steps.DelSocket(old(View()), fd)
    {
      var r := sockets[fd];
      registrations := registrations[r := registrations[r].(generation := registrations[r].generation + 1,
          enabled := false)];
      sockets := sockets - {fd};
    }

    method AddSocket(fd: int, event: Event) returns (ok: bool)
      modifies `registrations, `made, `asked, `pending, `sockets, `starved
      ensures if ok then View() == Steps.AddSocket(old(View()), fd, event) else View() == old(View())
    {
      ok := *;
      if ok {
        var reg := Registration(fd, event.flags, event.data, 0, true, Some(asked), clock);
        registrations := registrations[made := reg];
        pending := pending[asked := Request(made, 0, clock, batch)];
        sockets := sockets[fd := made];
        starved := starved - {made};
        made, asked := made + 1, asked + 1;
      }
    }

    method ModSocket(fd: int, event: Event, ghost given: Answers) returns (error: Option<Errno>, ghost a: Answers)
      requires fd in sockets && sockets[fd] in registrations
      modifies `registrations, `asked, `pending, `starved
      ensures a == given.(submitOk := a.submitOk) && View() == Steps.ModSocket(old(View()), fd, event, a)
      ensures error == if old(registrations)[sockets[fd]].pending.None? && !a.submitOk then Some(Failure) else None
    {
      var r := sockets[fd];
      var reg := registrations[r].(generation := registrations[r].generation + 1, flags := event.flags,
          data := event.data, enabled := true, since := clock);
      registrations := registrations[r := reg];
      error, a := None, given;
      if reg.pending.None? {
        var ok := Submit(r);
        a := given.(submitOk := ok);
        error := if ok then None else Some(Failure);
      }
    }

    /** complete: what becomes of one finished request. */
    method Complete(q: nat, outcome: Outcome) returns (event: Option<Ready>, ok: bool)
      requires Valid() && q in pending
      modifies this
      ensures old(pending)[q].registration in old(registrations)
      ensures View() == Steps.Complete(old(View()), q, outcome, ok)
      ensures event == match FateOf(old(View()), q, outcome) case Delivered(e) => Some(e) case _ => None
      ensures event.Some? ==> ok
      ensures released == old(released)
      ensures Valid()
    {
      ghost var p := View();
      RequestOwned(p, q);
      hide PortInv, Steps.Complete, FateOf;
      event, ok := Finish(q, outcome);
      CompleteKeeps(p, q, outcome, ok);
    }

    method Finish(q: nat, outcome: Outcome) returns (event: Option<Ready>, ok: bool)
      requires q in pending && pending[q].registration in registrations
      modifies `registrations, `asked, `sockets, `pending, `rearm, `log, `starved
      ensures View() == Steps.Complete(old(View()), q, outcome, ok)
      ensures event == match FateOf(old(View()), q, outcome) case Delivered(e) => Some(e) case _ => None
      ensures event.Some? ==> ok
    {
      hide Steps.Submit, Meaning, Steps.Deliver;
      event, ok := None, true;
      var request := pending[q];
      var r := request.registration;
      pending := pending - {q};
      registrations := registrations[r := registrations[r].(pending := None)];
      var reg := registrations[r];
      var mask := if outcome.failed || outcome.count == 0 then {} else outcome.mask;
      var flags := Meaning(mask, outcome.failed) * (reg.flags + {Err, Hup});
      if closed || !(reg.socket in sockets && sockets[reg.socket] == r) {
      } else if request.generation != reg.generation || outcome.cancelled {
        ok := Submit(r);
      } else if LocalClose in mask {
        sockets := sockets - {reg.socket};
      } else if flags == {} {
        ok := Submit(r);
      } else {
        event := Some(Ready(flags, reg.data));
        Deliver(r, event.value);
      }
    }

    /** An event was found: disarm an oneshot registration, or queue it for the next
        wait so that it cannot fill the present batch. */
    method Deliver(r: nat, event: Ready)
      requires r in registrations
      modifies `registrations, `rearm, `log
      ensures View() == Steps.Deliver(old(View()), r, event)
    {
      var reg := registrations[r];
      log := log + [Delivery(r, reg, batch, event)];
      if Oneshot in reg.flags {
        registrations := registrations[r := reg.(enabled := false)];
      } else {
        rearm := rearm + [r];
      }
    }

    /** A queued registration gets a request if it is still armed and has none. */
    method RearmOne(r: nat) returns (ok: bool)
      modifies `registrations, `asked, `pending, `starved
      ensures ok ==> View() == Rearm(old(View()), r, true)
      ensures !ok ==> Rearms(old(View()), r) && View() == Steps.Submit(old(View()), r, false)
    {
      hide Steps.Submit;
      ok := true;
      if r in registrations && registrations[r].enabled && registrations[r].pending.None?
         && registrations[r].socket in sockets && sockets[registrations[r].socket] == r {
        ok := Submit(r);
      }
    }

    /** The loop at the start of a wait. */
    method RearmQueue() returns (ok: bool, ghost oks: seq<bool>)
      requires Valid() && !closed
      modifies this
      ensures |oks| == |old(rearm)| && View() == StartWait(old(View()), oks)
      ensures released == old(released)
      ensures Valid()
    {
      hide PortInv, Steps.Submit, Rearms, RearmAll;
      ghost var p := View();
      clock, batch := clock + 1, batch + 1;
      ghost var start, all := View(), rearm;
      ok := true;
      var i := 0;
      while i < |rearm|
        invariant rearm == all && i <= |all| && View() == Rearmed(start, all[..i])
        invariant !closed && released == old(released)
      {
        assert all[..i + 1][..i] == all[..i];
        ok := RearmOne(rearm[i]);
        if !ok {
          oks := seq(|all|, k => k != i);
          RearmStops(start, all, oks, i);
          StartWaitKeeps(p, oks);
          return;
        }
        i := i + 1;
      }
      assert all[..i] == all;
      oks := seq(|all|, k => true);
      RearmStops(start, all, oks, i);
      StartWaitKeeps(p, oks);
      rearm := [];
    }

    /** Other threads make control calls while the mutex is free. */
    method Interfere()
      requires Valid()
      modifies this
      ensures closed == old(closed) && released == old(released) && log == old(log) && batch == old(batch)
      ensures old(closed) ==> pending == old(pending) && asked == old(asked)
      ensures Valid()
    {
      hide PortInv, Steps.Control, Reply;
      var calls: nat := *;
      while calls > 0
        invariant closed == old(closed) && released == old(released) && log == old(log) && batch == old(batch)
        invariant Valid()
        invariant old(closed) ==> pending == old(pending) && asked == old(asked)
      {
        var op: Op, fd: int, event: Option<Event> := *, *, *;
        ghost var p := View();
        var error, a := Control(op, fd, event);
        ControlQuiet(p, op, fd, event, a);
        calls := calls - 1;
      }
    }

    /** One round of a wait: other threads act, perhaps closing the port, and then a
        finished request may be dequeued. */
    method Dequeue() returns (event: Option<Ready>, granted: bool)
      requires Valid()
      modifies this
      ensures Valid() && batch == old(batch)
      ensures event.None? ==> log == old(log)
      ensures event.Some? ==> !closed && granted && |log| == |old(log)| + 1 && log[..|old(log)|] == old(log)
      ensures event.Some? ==> log[|old(log)|].batch == batch && log[|old(log)|].event == event.value
      ensures event.Some? ==> Current(View(), log[|old(log)|].registration)
    {
      hide PortInv, Steps.Complete, FateOf;
      event, granted := None, true;
      Interfere();
      var closing: bool := *;
      if closing && !closed {
        BeginClose();
      }
      var dequeued: bool := *;
      if dequeued && pending != map[] {
        var q :| q in pending;
        var outcome: Outcome := *;
        ghost var p := View();
        event, granted := Complete(q, outcome);
        CompleteLog(p, q, outcome, granted);
      }
    }

    /** EpollWait. No two events of one call belong to the same setting of a
        registration, whatever other threads do to it meanwhile. */
    method Wait(max: nat, msec: int) returns (events: seq<Ready>, error: Option<Errno>)
      requires Valid()
      modifies this
      ensures max == 0 || msec < -1 ==> events == [] && error == Some(Invalid) && View() == old(View())
      ensures |events| <= max && |old(log)| <= |log| && log[..|old(log)|] == old(log)
      ensures Events(log[|old(log)|..]) == events
      ensures forall i | |old(log)| <= i < |log| :: log[i].Justified()
      ensures forall i, j | |old(log)| <= i < j < |log| ::
          !(log[i].registration == log[j].registration && log[i].generation == log[j].generation)
      ensures Valid()
    {
      hide PortInv, Steps.Complete, StartWait, FateOf;
      events, error := [], None;
      if max == 0 || msec < -1 {
        return [], Some(Invalid);
      }
      Interfere();
      if closed {
        return [], Some(BadFile);
      }
      ghost var start := View();
      var ok, oks := RearmQueue();
      StartWaitQuiet(start, oks);
      if !ok {
        return [], Some(Failure);
      }
      ghost var before := log;
      var patience: nat := *;
      while |events| < max && patience > 0
        invariant |events| <= max && |before| <= |log| && log[..|before|] == before && Events(log[|before|..]) == events
        invariant forall k | |before| <= k < |log| :: log[k].batch == batch
        invariant Valid()
        decreases patience
      {
        patience := patience - 1;
        ghost var earlier := log;
        var event, granted := Dequeue();
        EventsMore(earlier, log, |before|);
        if closed {
          break;
        }
        if !granted {
          error := Some(Failure);
          break;
        }
        if event.Some? {
          events := events + [event.value];
        }
      }
      if closed {
        error := Some(BadFile);
      }
      EventsOfOneBatch(View(), |before|);
    }

    method BeginClose()
      requires Valid() && !closed
      modifies `closed, `clock
      ensures View() == StartClose(old(View())) && Valid()
    {
      StartCloseKeeps(View());
      clock := clock + 1;
      closed := true;
    }

    /** EpollClose: the handles are released only when every request has completed, no
        request is submitted on the way, and the loop ends: each packet it takes is a
        completion or one of the wake-ups that were posted. */
    method Close() returns (error: Option<Errno>)
      requires Valid()
      modifies this
      ensures asked == old(asked) && log == old(log)
      ensures error.None? ==> released && pending == map[]
      ensures old(closed) ==> error == Some(BadFile) && View() == old(View())
      ensures Valid()
    {
      hide PortInv, Steps.Complete, FateOf;
      error := None;
      if closed {
        return Some(BadFile);
      }
      var cancelled: bool, posted: bool := *, *;
      if !cancelled || !posted {
        return Some(Failure);
      }
      BeginClose();
      Interfere();
      var wakeups: nat := 1;
      while pending != map[]
        invariant closed && asked == old(asked) && log == old(log)
        invariant Valid()
        decreases |pending| + wakeups
      {
        var wakeup: bool, broken: bool := *, *;
        if wakeup && wakeups > 0 {
          wakeups := wakeups - 1;
        } else if broken {
          return Some(Failure);
        } else {
          var q :| q in pending;
          var outcome: Outcome := *;
          ghost var p := View();
          var event, granted := Complete(q, outcome);
          ClosedCompletes(p, q, outcome, granted);
        }
        Interfere();
      }
      released := true;
    }
  }

  lemma ControlQuiet(p: Port, op: Op, fd: int, event: Option<Event>, a: Answers)
    ensures var t := Steps.Control(p, op, fd, event, a);
      && t.closed == p.closed && t.log == p.log && t.batch == p.batch
      && (p.closed ==> t.pending == p.pending && t.asked == p.asked)
  {
  }

  lemma {:induction false} RearmAllQuiet(p: Port, queue: seq<nat>, oks: seq<bool>)
    requires |oks| == |queue|
    ensures var t := RearmAll(p, queue, oks); t.closed == p.closed && t.log == p.log && t.batch == p.batch
    decreases |queue|
  {
    if queue == [] {
    } else {
      RearmAllQuiet(Rearm(p, queue[0], oks[0]), queue[1..], oks[1..]);
    }
  }

  lemma StartWaitQuiet(p: Port, oks: seq<bool>)
    requires |oks| == |p.rearm|
    ensures StartWait(p, oks).closed == p.closed && StartWait(p, oks).log == p.log
  {
    RearmAllQuiet(BeginWait(p), p.rearm, oks);
  }

  lemma CompleteLog(p: Port, q: nat, outcome: Outcome, ok: bool)
    requires q in p.pending && p.pending[q].registration in p.registrations
    ensures var t := Steps.Complete(p, q, outcome, ok);
      && t.closed == p.closed && t.batch == p.batch
      && (if FateOf(p, q, outcome).Delivered?
          then |t.log| == |p.log| + 1 && t.log[..|p.log|] == p.log && t.log[|p.log|].batch == p.batch
              && t.log[|p.log|].event == FateOf(p, q, outcome).event
               && Current(t, t.log[|p.log|].registration)
          else t.log == p.log)
      && (p.closed ==> !FateOf(p, q, outcome).Delivered?)
  {
  }

  /** The events of a stretch of the log. */
  function Events(log: seq<Delivery>): seq<Ready> {
    seq(|log|, i requires 0 <= i < |log| => log[i].event)
  }

  lemma EventsMore(log: seq<Delivery>, more: seq<Delivery>, from: nat)
    requires from <= |log|
    ensures more == log ==> Events(more[from..]) == Events(log[from..])
    ensures |more| == |log| + 1 && more[..|log|] == log ==>
        Events(more[from..]) == Events(log[from..]) + [more[|log|].event]
  {
    if |more| == |log| + 1 && more[..|log|] == log {
      assert forall i | from <= i < |log| :: more[i] == more[..|log|][i];
      assert Events(more[from..]) == Events(log[from..]) + [more[|log|].event];
    }
  }

  /** Events of one batch are of different settings. */
  lemma EventsOfOneBatch(p: Port, from: nat)
    requires PortInv(p) && from <= |p.log| && forall k | from <= k < |p.log| :: p.log[k].batch == p.batch
    ensures forall i | from <= i < |p.log| :: p.log[i].Justified()
    ensures forall i, j | from <= i < j < |p.log| ::
        !(p.log[i].registration == p.log[j].registration && p.log[i].generation == p.log[j].generation)
  {
    forall i | from <= i < |p.log| ensures p.log[i].Justified() { assert Past(p, p.log[i]); }
    forall i, j | from <= i < j < |p.log|
        ensures !(p.log[i].registration == p.log[j].registration && p.log[i].generation == p.log[j].generation) {
      assert Apart(p.log[i], p.log[j]);
    }
  }

  lemma RequestOwned(p: Port, q: nat)
    requires PortInv(p) && q in p.pending
    ensures p.pending[q].registration in p.registrations
  {
    assert Owned(p, q);
  }
}
