/** What holds over every run of the port: any interleaving of control calls, waits,
    completions and a close. */
module EpollTheorems {
  import opened Options
  import opened EpollSteps

  // ------------------------------------------------------------- single events

  /** No event is stale: it answers a request that was submitted for the socket's
      present registration after its last ADD or MOD, carries that call's data, and
      shows nothing that was not asked for but errors and hang-ups. */
  lemma EventIsFresh(p: Port, q: nat, outcome: Outcome)
    requires PortInv(p) && q in p.pending && p.pending[q].registration in p.registrations
    requires FateOf(p, q, outcome).Delivered?
    ensures var reg, request, event := p.registrations[p.pending[q].registration], p.pending[q],
        FateOf(p, q, outcome).event;
      && reg.socket in p.sockets && p.sockets[reg.socket] == request.registration
      && request.generation == reg.generation && reg.since <= request.at
      && reg.enabled && !p.closed
      && ShownBy(event, reg)
  {
    var r := p.pending[q].registration;
    assert Owned(p, q) && Kept(p, r) && Armed(p, r);
  }

  // ------------------------------------------------ the table a caller sees

  /** One entry of the simple machine: what is watched, and whether it is armed. */
  datatype Interest = Interest(flags: set<Flag>, data: int, armed: bool)

  function Table(p: Port): map<int, Interest>
    requires forall fd <- p.sockets :: p.sockets[fd] in p.registrations
  {
    map fd | fd in p.sockets :: var reg := p.registrations[p.sockets[fd]]; Interest(reg.flags, reg.data, reg.enabled)
  }

  /** The error that EpollCtl returns. */
  function Reply(p: Port, op: Op, fd: int, event: Option<Event>, a: Answers): Option<Errno> {
    var refusal := Refusal(p, op, fd, event, a);
    if refusal.Some? then refusal
    else if op == Mod && fd in p.sockets && p.sockets[fd] in p.registrations
        && p.registrations[p.sockets[fd]].pending.None? && !a.submitOk
    then Some(Failure)
    else None
  }

  function Changed(table: map<int, Interest>, op: Op, fd: int, event: Option<Event>): map<int, Interest> {
    if op == Del then table - {fd}
    else if event.Some? then table[fd := Interest(event.value.flags, event.value.data, true)]
    else table
  }

  /** A control call that is not refused does to the table what its name says, and
      a refused one nothing. A MOD whose request the kernel refuses has changed the
      table all the same, and says so. */
  lemma ControlRefines(p: Port, op: Op, fd: int, event: Option<Event>, a: Answers)
    requires PortInv(p)
    ensures var t := Control(p, op, fd, event, a);
      && PortInv(t)
      && Table(t) == (if Refusal(p, op, fd, event, a).None? then Changed(Table(p), op, fd, event) else Table(p))
      && (Reply(p, op, fd, event, a).Some? && Table(t) != Table(p) ==>
           op == Mod && fd in t.sockets && t.sockets[fd] in t.starved)
  {
    hide PortInv, AddSocket, ModSocket, DelSocket, Table;
    ControlKeeps(p, op, fd, event, a);
    var t := p.(clock := p.clock + 1);
    SocketsRegistered(p);
    assert Table(t) == Table(p) by { TickTable(p, t); }
    if Refusal(p, op, fd, event, a).Some? {
    } else if op == Add {
      AddTable(p, t, fd, event.value);
    } else if op == Mod {
      ModTable(p, t, fd, event.value, a);
    } else {
      DelTable(p, t, fd);
    }
  }

  lemma SocketsRegistered(p: Port)
    requires PortInv(p)
    ensures forall fd <- p.sockets :: p.sockets[fd] in p.registrations
  {
  }

  lemma TickTable(p: Port, t: Port)
    requires (forall fd <- p.sockets :: p.sockets[fd] in p.registrations) && t == p.(clock := t.clock)
    ensures Table(t) == Table(p)
  {
  }

  lemma AddTable(p: Port, t: Port, fd: int, event: Event)
    requires PortInv(p) && t == p.(clock := t.clock) && fd !in p.sockets && PortInv(AddSocket(t, fd, event))
    ensures Table(AddSocket(t, fd, event)) == Table(p)[fd := Interest(event.flags, event.data, true)]
  {
    assert forall r <- p.registrations :: Kept(p, r) && r < p.made;
    hide PortInv, Kept;
    var u, want := AddSocket(t, fd, event), Table(p)[fd := Interest(event.flags, event.data, true)];
    assert Table(u).Keys == want.Keys;
    forall x <- want ensures Table(u)[x] == want[x] { }
  }

  lemma ModTable(p: Port, t: Port, fd: int, event: Event, a: Answers)
    requires PortInv(p) && t == p.(clock := t.clock) && fd in p.sockets && p.sockets[fd] in p.registrations
    requires PortInv(ModSocket(t, fd, event, a))
    ensures var u := ModSocket(t, fd, event, a);
      && Table(u) == Table(p)[fd := Interest(event.flags, event.data, true)] && fd in u.sockets
      && (p.registrations[p.sockets[fd]].pending.None? && !a.submitOk ==> u.sockets[fd] in u.starved)
  {
    OtherSockets(p, fd);
    var u, want := ModSocket(t, fd, event, a), Table(p)[fd := Interest(event.flags, event.data, true)];
    assert Table(u).Keys == want.Keys;
    forall x <- want ensures Table(u)[x] == want[x] { }
  }

  lemma DelTable(p: Port, t: Port, fd: int)
    requires PortInv(p) && t == p.(clock := t.clock) && fd in p.sockets && p.sockets[fd] in p.registrations
    requires PortInv(DelSocket(t, fd))
    ensures Table(DelSocket(t, fd)) == Table(p) - {fd}
  {
    OtherSockets(p, fd);
    var u, want := DelSocket(t, fd), Table(p) - {fd};
    assert Table(u).Keys == want.Keys;
    forall x <- want ensures Table(u)[x] == want[x] { }
  }

  lemma OtherSockets(p: Port, fd: int)
    requires PortInv(p) && fd in p.sockets
    ensures forall x <- p.sockets :: x != fd ==> p.sockets[x] != p.sockets[fd]
  {
  }

  /** A completion delivers only what is armed, and disarms it if it was oneshot. It
      changes nothing else, unless the socket was closed under the port. */
  lemma CompleteRefines(p: Port, q: nat, outcome: Outcome, ok: bool)
    requires PortInv(p) && q in p.pending
    ensures p.pending[q].registration in p.registrations && PortInv(Complete(p, q, outcome, ok))
    ensures var fd := p.registrations[p.pending[q].registration].socket;
      match FateOf(p, q, outcome)
      case Delivered(event) =>
        && fd in p.sockets && Table(p)[fd].armed && event.data == Table(p)[fd].data
             && event.flags <= Table(p)[fd].flags + {Err, Hup}
        && Table(Complete(p, q, outcome, ok)) == Table(p)[fd := Table(p)[fd].(armed := Oneshot !in Table(p)[fd].flags)]
      case Forgotten => Table(Complete(p, q, outcome, ok)) == Table(p) - {fd}
      case _ => Table(Complete(p, q, outcome, ok)) == Table(p)
  {
    CompleteKeeps(p, q, outcome, ok);
    assert Owned(p, q);
    if FateOf(p, q, outcome).Delivered? {
      EventIsFresh(p, q, outcome);
      DeliveredTable(p, q, FateOf(p, q, outcome).event);
    }
  }

  lemma DeliveredTable(p: Port, q: nat, event: Ready)
    requires PortInv(p) && q in p.pending && p.pending[q].registration in p.registrations
    requires Current(p, p.pending[q].registration)
    requires p.registrations[p.pending[q].registration].enabled
    ensures var t, fd := Deliver(Release(p, q), p.pending[q].registration, event),
        p.registrations[p.pending[q].registration].socket;
      && (forall x <- t.sockets :: t.sockets[x] in t.registrations)
      && Table(t) == Table(p)[fd := Table(p)[fd].(armed := Oneshot !in Table(p)[fd].flags)]
  {
    var fd := p.registrations[p.pending[q].registration].socket;
    OtherSockets(p, fd);
    var u, want := Deliver(Release(p, q), p.pending[q].registration, event),
        Table(p)[fd := Table(p)[fd].(armed := Oneshot !in Table(p)[fd].flags)];
    assert Table(u).Keys == want.Keys;
    forall x <- want ensures Table(u)[x] == want[x] { }
  }

  lemma RearmTable(p: Port, r: nat, ok: bool)
    requires PortInv(p) && PortInv(Rearm(p, r, ok))
    ensures Table(Rearm(p, r, ok)) == Table(p)
  {
  }

  /** Beginning a wait arms nothing that was disarmed, and forgets nothing. */
  lemma {:induction false} RearmAllTable(p: Port, queue: seq<nat>, oks: seq<bool>)
    requires PortInv(p) && NewBatch(p) && |oks| == |queue| && !p.closed && Requeued(p, queue)
    ensures PortInv(RearmAll(p, queue, oks)) && Table(RearmAll(p, queue, oks)) == Table(p)
    decreases |queue|
  {
    RearmAllKeeps(p, queue, oks);
    if queue == [] {
    } else if Rearms(p, queue[0]) && !oks[0] {
      RearmKeeps(p, queue[0], false);
      RearmTable(p, queue[0], false);
    } else {
      RearmKeeps(p, queue[0], oks[0]);
      RearmTable(p, queue[0], oks[0]);
      RequeuedRest(p, queue, oks[0]);
      hide PortInv, Requeued, NewBatch, Rearm;
      RearmAllTable(Rearm(p, queue[0], oks[0]), queue[1..], oks[1..]);
    }
  }

  // --------------------------------------------------------------------- runs

  datatype Call =
    | Controlling(op: Op, fd: int, event: Option<Event>, a: Answers)
    | Waiting(oks: seq<bool>)
    | Completing(q: nat, outcome: Outcome, ok: bool)
    | Closing

  predicate Possible(p: Port, call: Call) {
    match call
    case Controlling(_, _, _, _) => true
    case Waiting(oks) => |oks| == |p.rearm|
    case Completing(q, _, _) => q in p.pending && p.pending[q].registration in p.registrations
    case Closing => true
  }

  function Step(p: Port, call: Call): Port
    requires Possible(p, call)
  {
    match call
    case Controlling(op, fd, event, a) => Control(p, op, fd, event, a)
    case Waiting(oks) => StartWait(p, oks)
    case Completing(q, outcome, ok) => Complete(p, q, outcome, ok)
    case Closing => StartClose(p)
  }

  lemma StepKeeps(p: Port, call: Call)
    requires PortInv(p) && Possible(p, call)
    ensures PortInv(Step(p, call))
  {
    hide PortInv, Control, StartWait, Complete, StartClose;
    match call
    case Controlling(op, fd, event, a) => ControlKeeps(p, op, fd, event, a);
    case Waiting(oks) => StartWaitKeeps(p, oks);
    case Completing(q, outcome, ok) => CompleteKeeps(p, q, outcome, ok);
    case Closing => StartCloseKeeps(p);
  }

  predicate Legal(p: Port, calls: seq<Call>)
    decreases |calls|
  {
    calls != [] ==> Possible(p, calls[0]) && Legal(Step(p, calls[0]), calls[1..])
  }

  function After(p: Port, calls: seq<Call>): Port
    requires Legal(p, calls)
    decreases |calls|
  {
    if calls == [] then p else After(Step(p, calls[0]), calls[1..])
  }

  lemma {:induction false} RunKeeps(p: Port, calls: seq<Call>)
    requires PortInv(p) && Legal(p, calls)
    ensures PortInv(After(p, calls))
    decreases |calls|
  {
    hide PortInv, Step;
    if calls == [] {
    } else {
      StepKeeps(p, calls[0]);
      RunKeeps(Step(p, calls[0]), calls[1..]);
    }
  }

  /** Over any run, two events of one setting of a registration lie in different
      waits, and an oneshot setting yields only one. */
  lemma EventsApart(calls: seq<Call>, i: nat, j: nat)
    requires Legal(EMPTY_PORT, calls) && i < j < |After(EMPTY_PORT, calls).log|
    ensures var log := After(EMPTY_PORT, calls).log;
      log[i].registration == log[j].registration && log[i].generation == log[j].generation ==>
          !log[i].oneshot && log[i].batch < log[j].batch
  {
    RunKeeps(EMPTY_PORT, calls);
    assert Apart(After(EMPTY_PORT, calls).log[i], After(EMPTY_PORT, calls).log[j]);
  }

  /** Over any run, an event carries the data that its registration was set with when it
      was delivered, and shows nothing that was not asked for then; so also now, if the
      registration has not been set anew. */
  lemma EventsAnswer(calls: seq<Call>, i: nat)
    requires Legal(EMPTY_PORT, calls) && i < |After(EMPTY_PORT, calls).log|
    ensures var p, d := After(EMPTY_PORT, calls), After(EMPTY_PORT, calls).log[i];
      d.Justified() && d.registration in p.registrations
          && (d.generation == p.registrations[d.registration].generation ==>
               ShownBy(d.event, p.registrations[d.registration]))
  {
    RunKeeps(EMPTY_PORT, calls);
    var p := After(EMPTY_PORT, calls);
    assert p.log[i] in p.log && Past(p, p.log[i]);
  }

  /** Requests and registrations point at each other, and no registration has two. */
  lemma PendingBijective(calls: seq<Call>, q: nat, q': nat)
    requires Legal(EMPTY_PORT, calls)
    ensures var p := After(EMPTY_PORT, calls);
      && (q in p.pending ==>
           p.pending[q].registration in p.registrations
               && p.registrations[p.pending[q].registration].pending == Some(q))
      && (q in p.pending && q' in p.pending && p.pending[q].registration == p.pending[q'].registration ==> q == q')
      && (forall r <- p.registrations :: p.registrations[r].pending.Some? ==>
           p.registrations[r].pending.value in p.pending)
  {
    RunKeeps(EMPTY_PORT, calls);
    var p := After(EMPTY_PORT, calls);
    assert q in p.pending ==> Owned(p, q);
    assert q' in p.pending ==> Owned(p, q');
    forall r <- p.registrations
        ensures p.registrations[r].pending.Some? ==> p.registrations[r].pending.value in p.pending {
      assert Kept(p, r);
    }
  }

  /** The kernel refuses no request. */
  predicate Granted(calls: seq<Call>) {
    forall call <- calls ::
      && (call.Controlling? ==> call.a.submitOk)
      && (call.Waiting? ==> forall i | 0 <= i < |call.oks| :: call.oks[i])
      && (call.Completing? ==> call.ok)
  }

  lemma {:induction false} RearmAllGranted(p: Port, queue: seq<nat>, oks: seq<bool>)
    requires |oks| == |queue| && (forall i | 0 <= i < |oks| :: oks[i]) && p.starved == {}
    ensures RearmAll(p, queue, oks).starved == {}
    decreases |queue|
  {
    if queue == [] {
    } else {
      RearmAllGranted(Rearm(p, queue[0], oks[0]), queue[1..], oks[1..]);
    }
  }

  lemma {:induction false} GrantedRun(p: Port, calls: seq<Call>)
    requires Legal(p, calls) && Granted(calls) && p.starved == {}
    ensures After(p, calls).starved == {}
    decreases |calls|
  {
    if calls == [] {
    } else {
      var call := calls[0];
      assert call in calls;
      if call.Waiting? { RearmAllGranted(BeginWait(p), p.rearm, call.oks); }
      hide StartWait, Control, Complete;
      StepGranted(p, call);
      assert forall c <- calls[1..] :: c in calls;
      GrantedRun(Step(p, call), calls[1..]);
    }
  }

  lemma StepGranted(p: Port, call: Call)
    requires Possible(p, call) && Granted([call]) && p.starved == {}
    ensures Step(p, call).starved == {}
  {
    assert call in [call];
    if call.Waiting? { RearmAllGranted(BeginWait(p), p.rearm, call.oks); }
  }

  /** While the kernel grants requests, nothing that is armed is ever forgotten: it
      has a request or gets one when the next wait begins. What is disarmed has none. */
  lemma NothingLost(calls: seq<Call>, fd: int)
    requires Legal(EMPTY_PORT, calls) && Granted(calls) && !After(EMPTY_PORT, calls).closed
    requires fd in After(EMPTY_PORT, calls).sockets
    ensures var p := After(EMPTY_PORT, calls);
      && p.sockets[fd] in p.registrations
      && var reg := p.registrations[p.sockets[fd]];
         if reg.enabled then reg.pending.Some? || p.sockets[fd] in p.rearm else reg.pending.None?
  {
    RunKeeps(EMPTY_PORT, calls);
    GrantedRun(EMPTY_PORT, calls);
    var p := After(EMPTY_PORT, calls);
    assert Armed(p, p.sockets[fd]);
  }

  // -------------------------------------------------------------------- close

  /** On a closed port a completion only takes its request away. */
  lemma ClosedCompletes(p: Port, q: nat, outcome: Outcome, ok: bool)
    requires p.closed && q in p.pending && p.pending[q].registration in p.registrations
    ensures var t := Complete(p, q, outcome, ok);
      && t.pending == p.pending - {q} && |t.pending| == |p.pending| - 1
      && t.closed && t.log == p.log && t.asked == p.asked && t.sockets == p.sockets
  {
    assert p.pending.Keys == (p.pending - {q}).Keys + {q};
  }

  /** After a close no request is ever submitted again and no event delivered. */
  lemma {:induction false} ClosedForGood(p: Port, calls: seq<Call>)
    requires PortInv(p) && p.closed && Legal(p, calls)
    ensures var t := After(p,
        calls); t.closed && t.asked == p.asked && t.log == p.log && t.pending.Keys <= p.pending.Keys
    decreases |calls|
  {
    if calls == [] {
    } else {
      var call := calls[0];
      if call.Completing? { ClosedCompletes(p, call.q, call.outcome, call.ok); }
      ClosedStep(p, call);
      StepKeeps(p, call);
      hide PortInv, Step;
      ClosedForGood(Step(p, call), calls[1..]);
    }
  }

  lemma ClosedStep(p: Port, call: Call)
    requires p.closed && Possible(p, call)
    ensures var t := Step(p, call); t.closed && t.asked == p.asked && t.log == p.log && t.pending.Keys <= p.pending.Keys
  {
  }
}
