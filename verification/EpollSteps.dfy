/** The Windows emulation of epoll: registrations, native poll requests and their
    completions, as functions on the port's state. */
module EpollSteps {
  import opened Options

  datatype Flag = In | Pri | Out | Err | Hup | RdHup | Oneshot

  /** The result bits of a native poll. */
  datatype Native = Receive | Expedited | Send | Disconnect | Abort | LocalClose | Accept | ConnectFail

  /** A caller's event; `other` says that a bit outside the known flags is set. */
  datatype Event = Event(flags: set<Flag>, other: bool, data: int)

  datatype Ready = Ready(flags: set<Flag>, data: int)

  datatype Errno = BadFile | Invalid | Exists | NoEntry | Failure

  datatype Op = Add | Mod | Del | Unknown

  /** `since` is a history variable: when ADD or MOD last set the registration. */
  datatype Registration = Registration(
    socket: int, flags: set<Flag>, data: int, generation: nat, enabled: bool, pending: Option<nat>, since: nat)

  /** `at` and `batch` are history variables: when the request was submitted, and
      how many waits had begun. */
  datatype Request = Request(registration: nat, generation: nat, at: nat, batch: nat)

  /** How the kernel completes a request. */
  datatype Outcome = Outcome(cancelled: bool, failed: bool, count: nat, mask: set<Native>)

  /** One event handed to a waiter, for the history: `source` is what the registration
      was then. */
  datatype Delivery = Delivery(registration: nat, source: Registration, batch: nat, event: Ready)
  {
    const generation := source.generation
    const oneshot := Oneshot in source.flags

    /** The socket was armed, and had asked for what it was shown. */
    predicate Justified() {
      source.enabled && source.pending.None? && ShownBy(event, source)
    }
  }

  /** Registrations and requests are objects of the heap, known by numbers that are
      given out in turn (`made` and `asked` are the next ones). `sockets`, `pending`,
          `rearm` and `closed` are the port's fields; `clock`,
      `batch`, `log` and `starved` are history: calls so far, waits so far, events
      delivered, and registrations whose latest native submission failed. */
  datatype Port = Port(
    registrations: map<nat, Registration>,
    made: nat,
    asked: nat,
    sockets: map<int, nat>,
    pending: map<nat, Request>,
    rearm: seq<nat>,
    closed: bool,
    clock: nat,
    batch: nat,
    log: seq<Delivery>,
    starved: set<nat>
  )

  const EMPTY_PORT := Port(map[], 0, 0, map[], map[], [], false, 0, 0, [], {})

  // --------------------------------------------------------------- requests

  /** submit; `ok` is the kernel's answer. */
  function Submit(p: Port, r: nat, ok: bool): Port
    requires r in p.registrations
  {
    if !ok then p.(starved := p.starved + {r})
    else
      var reg := p.registrations[r];
      p.(registrations := p.registrations[r := reg.(pending := Some(p.asked))],
         pending := p.pending[p.asked := Request(r, reg.generation, p.clock, p.batch)],
         asked := p.asked + 1,
         starved := p.starved - {r})
  }

  /** The registration that a socket currently has. */
  predicate Current(p: Port, r: nat) {
    r in p.registrations && p.registrations[r].socket in p.sockets && p.sockets[p.registrations[r].socket] == r
  }

  /** What the native result bits mean to the caller. */
  function Meaning(mask: set<Native>, failed: bool): set<Flag> {
    (if failed then {Err} else {})
    + (if Receive in mask || Accept in mask then {In} else {})
    + (if Expedited in mask then {Pri} else {})
    + (if Send in mask then {Out} else {})
    + (if Disconnect in mask then {In, RdHup} else {})
    + (if Abort in mask then {Hup} else {})
    + (if ConnectFail in mask then {In, Out, Err, RdHup} else {})
  }

  /** An unsuccessful completion can leave the input mask untouched. */
  function Result(outcome: Outcome): set<Native> {
    if outcome.failed || outcome.count == 0 then {} else outcome.mask
  }

  function Shown(reg: Registration, outcome: Outcome): set<Flag> {
    Meaning(Result(outcome), outcome.failed) * (reg.flags + {Err, Hup})
  }

  // -------------------------------------------------------------- completion

  /** The request is released, whatever becomes of its result. */
  function Release(p: Port, q: nat): Port
    requires q in p.pending && p.pending[q].registration in p.registrations
  {
    var r := p.pending[q].registration;
    p.(registrations := p.registrations[r := p.registrations[r].(pending := None)], pending := p.pending - {q})
  }

  function Deliver(p: Port, r: nat, event: Ready): Port
    requires r in p.registrations
  {
    var reg := p.registrations[r];
    var logged := p.(log := p.log + [Delivery(r, reg, p.batch, event)]);
    if Oneshot in reg.flags then logged.(registrations := p.registrations[r := reg.(enabled := false)])
    else logged.(rearm := p.rearm + [r])
  }

  datatype Fate = Ignored | Resubmitted | Forgotten | Delivered(event: Ready)

  /** What complete does with a result. */
  function FateOf(p: Port, q: nat, outcome: Outcome): Fate
    requires q in p.pending && p.pending[q].registration in p.registrations
  {
    var r := p.pending[q].registration;
    var reg := p.registrations[r];
    if p.closed || !Current(p, r) then Ignored
    else if p.pending[q].generation != reg.generation || outcome.cancelled then Resubmitted
    else if LocalClose in Result(outcome) then Forgotten
    else if Shown(reg, outcome) == {} then Resubmitted
    else Delivered(Ready(Shown(reg, outcome), reg.data))
  }

  /** complete, for request `q`; `ok` answers a resubmission. */
  function Complete(p: Port, q: nat, outcome: Outcome, ok: bool): Port
    requires q in p.pending && p.pending[q].registration in p.registrations
  {
    var r := p.pending[q].registration;
    var freed := Release(p, q);
    match FateOf(p, q, outcome)
    case Ignored => freed
    case Resubmitted => Submit(freed, r, ok)
    case Forgotten => freed.(sockets := freed.sockets - {p.registrations[r].socket})
    case Delivered(event) => Deliver(freed, r, event)
  }

  // ----------------------------------------------------------------- control

  predicate BadEvent(op: Op, event: Option<Event>) {
    op != Del && (event.None? || event.value.other)
  }

  /** What the system answers in the course of a control call. */
  datatype Answers = Answers(socketOk: bool, cancelOk: bool, submitOk: bool)

  /** The errors that leave everything as it was. */
  function Refusal(p: Port, op: Op, fd: int, event: Option<Event>, a: Answers): Option<Errno> {
    if p.closed then Some(BadFile)
    else if op == Unknown || BadEvent(op, event) then Some(Invalid)
    else if op == Add && fd in p.sockets then Some(Exists)
    else if op == Add && !(a.socketOk && a.submitOk) then Some(Failure)
    else if op != Add && fd !in p.sockets then Some(NoEntry)
    else if op != Add && p.sockets[fd] in p.registrations && p.registrations[p.sockets[fd]].pending.Some?
        && !a.cancelOk then Some(Failure)
    else None
  }

  function AddSocket(p: Port, fd: int, event: Event): Port {
    var reg := Registration(fd, event.flags, event.data, 0, true, None, p.clock);
    var made := p.(registrations := p.registrations[p.made := reg], made := p.made + 1);
    var submitted := Submit(made, p.made, true);
    submitted.(sockets := submitted.sockets[fd := p.made])
  }

  function ModSocket(p: Port, fd: int, event: Event, a: Answers): Port
    requires fd in p.sockets && p.sockets[fd] in p.registrations
  {
    var r := p.sockets[fd];
    var reg := p.registrations[r].(generation := p.registrations[r].generation + 1, flags := event.flags,
        data := event.data, enabled := true, since := p.clock);
    var changed := p.(registrations := p.registrations[r := reg]);
    if reg.pending.None? then Submit(changed, r, a.submitOk) else changed
  }

  function DelSocket(p: Port, fd: int): Port
    requires fd in p.sockets && p.sockets[fd] in p.registrations
  {
    var r := p.sockets[fd];
    var reg := p.registrations[r].(generation := p.registrations[r].generation + 1, enabled := false);
    p.(registrations := p.registrations[r := reg], sockets := p.sockets - {fd})
  }

  /** EpollCtl: the new state. */
  function Control(p: Port, op: Op, fd: int, event: Option<Event>, a: Answers): Port {
    var t := p.(clock := p.clock + 1);
    if Refusal(p, op, fd, event, a).Some? then t
    else if op == Add && event.Some? then AddSocket(t, fd, event.value)
    else if fd !in p.sockets || p.sockets[fd] !in p.registrations then t
    else if op == Mod && event.Some? then ModSocket(t, fd, event.value, a)
    else if op == Del then DelSocket(t, fd)
    else t
  }

  // -------------------------------------------------------------------- wait

  /** Whether a queued registration is to be submitted again. */
  predicate Rearms(p: Port, r: nat) {
    Current(p, r) && p.registrations[r].enabled && p.registrations[r].pending.None?
  }

  function Rearm(p: Port, r: nat, ok: bool): Port {
    if Rearms(p, r) then Submit(p, r, ok) else p
  }

  function BeginWait(p: Port): Port {
    p.(clock := p.clock + 1, batch := p.batch + 1)
  }

  /** The loop over the queue: it ends early, and leaves the queue, when a
      submission fails. `oks` answers the submissions. */
  function RearmAll(p: Port, queue: seq<nat>, oks: seq<bool>): Port
    requires |oks| == |queue|
    decreases |queue|
  {
    if queue == [] then p.(rearm := [])
    else if Rearms(p, queue[0]) && !oks[0] then Submit(p, queue[0], false)
    else RearmAll(Rearm(p, queue[0], oks[0]), queue[1..], oks[1..])
  }

  /** EpollWait up to its first dequeue. */
  function StartWait(p: Port, oks: seq<bool>): Port
    requires |oks| == |p.rearm|
  {
    if p.closed then p.(clock := p.clock + 1) else RearmAll(BeginWait(p), p.rearm, oks)
  }

  /** EpollClose up to its draining loop, when no cancellation fails. */
  function StartClose(p: Port): Port {
    p.(clock := p.clock + 1, closed := true)
  }

  // --------------------------------------------------------------- invariant

  /** A request belongs to the registration that names it. */
  predicate Owned(p: Port, q: nat)
    requires q in p.pending
  {
    var r := p.pending[q].registration;
    q < p.asked && r in p.registrations && p.registrations[r].pending == Some(q)
  }

  /** What is true of one registration. */
  ghost predicate Kept(p: Port, r: nat)
    requires r in p.registrations
  {
    var reg := p.registrations[r];
    && r < p.made && reg.since <= p.clock
    && (reg.pending.Some? ==> reg.pending.value in p.pending && p.pending[reg.pending.value].registration == r)
    && (reg.pending.Some? ==> Timely(p, reg, p.pending[reg.pending.value]))
  }

  /** An enabled registration of a socket has a request, or is queued for the next
      wait, unless the kernel refused its latest request; a disabled one has none. */
  predicate Armed(p: Port, r: nat)
    requires r in p.registrations
  {
    var reg := p.registrations[r];
    Current(p, r) && !p.closed ==>
      if reg.enabled then reg.pending.Some? || r in p.rearm || r in p.starved else reg.pending.None?
  }

  /** A request of the current generation was submitted after the registration was
      last set. */
  predicate Timely(p: Port, reg: Registration, request: Request) {
    && request.generation <= reg.generation && request.batch <= p.batch && request.at <= p.clock
    && (request.generation == reg.generation ==> reg.since <= request.at)
  }

  /** An event that a registration may show: something that it asked for, or an error
      or a hang-up, with the data that it was set with. */
  predicate ShownBy(event: Ready, reg: Registration) {
    event.data == reg.data && event.flags != {} && event.flags <= reg.flags + {Err, Hup} && Oneshot !in event.flags
  }

  /** What an event of the past says about its registration now. */
  ghost predicate Past(p: Port, d: Delivery) {
    && d.batch <= p.batch && d.registration in p.registrations && d.Justified()
    && var reg := p.registrations[d.registration];
    && d.generation <= reg.generation
    && (d.generation == reg.generation ==> ShownBy(d.event, reg))
    && (d.generation == reg.generation && reg.enabled ==> !d.oneshot)
    && (d.generation == reg.generation && reg.pending.Some? ==> Later(p, reg.pending.value, d))
  }

  /** The pending request can only produce a new event in a later wait. */
  predicate Later(p: Port, q: nat, d: Delivery) {
    q in p.pending && p.pending[q].generation == d.generation && d.batch < p.pending[q].batch && !d.oneshot
  }

  /** One event at a time: a oneshot registration once per setting, any other once per
      setting and wait. */
  predicate Apart(d: Delivery, e: Delivery) {
    d.registration == e.registration && d.generation == e.generation ==> !d.oneshot && d.batch < e.batch
  }

  ghost predicate Core(p: Port) {
    && (forall q <- p.pending :: Owned(p, q))
    && (forall r <- p.registrations :: Kept(p, r))
    && (forall fd <- p.sockets :: p.sockets[fd] in p.registrations && p.registrations[p.sockets[fd]].socket == fd)
    && (forall r <- p.rearm :: r in p.registrations)
    && (forall d <- p.log :: Past(p, d))
    && (forall i, j | 0 <= i < j < |p.log| :: Apart(p.log[i], p.log[j]))
  }

  ghost predicate PortInv(p: Port) {
    Core(p) && forall r <- p.registrations :: Armed(p, r)
  }

  // ------------------------------------------------------------------ proofs

  /** A request may be submitted when every event of this setting lies in an earlier wait. */
  ghost predicate Submittable(p: Port, r: nat)
    requires r in p.registrations
  {
    && p.registrations[r].pending.None? && (Current(p, r) ==> p.registrations[r].enabled)
    && forall d <- p.log :: d.registration == r && d.generation == p.registrations[r].generation ==>
         !d.oneshot && d.batch < p.batch
  }

  lemma SubmitCore(p: Port, r: nat, ok: bool)
    requires Core(p) && r in p.registrations && Submittable(p, r)
    ensures Core(Submit(p, r, ok))
  {
    var t := Submit(p, r, ok);
    assert forall q <- p.pending :: Owned(p, q) && q < p.asked;
    forall q <- t.pending ensures Owned(t, q) { if q in p.pending { assert Owned(p, q); } }
    forall x <- t.registrations ensures Kept(t, x) { assert Kept(p, x); }
    forall d <- t.log ensures Past(t, d) { assert Past(p, d); }
  }

  lemma SubmitArmed(p: Port, r: nat, ok: bool)
    requires Core(p) && r in p.registrations && Submittable(p, r) && forall x <- p.registrations :: x != r ==>
        Armed(p, x)
    ensures forall x <- Submit(p, r, ok).registrations :: Armed(Submit(p, r, ok), x)
  {
    var t := Submit(p, r, ok);
    forall x <- t.registrations ensures Armed(t, x) { if x != r { assert Armed(p, x); } }
  }

  lemma ReleaseCore(p: Port, q: nat)
    requires Core(p) && q in p.pending && p.pending[q].registration in p.registrations
    ensures Core(Release(p, q))
  {
    var t := Release(p, q);
    forall x <- t.pending ensures Owned(t, x) { assert Owned(p, x) && Owned(p, q); }
    forall x <- t.registrations ensures Kept(t, x) { assert Kept(p, x) && Owned(p, q); }
    forall d <- t.log ensures Past(t, d) { assert Past(p, d); }
  }

  lemma DeliverCore(p: Port, r: nat, event: Ready)
    requires Core(p) && r in p.registrations && Submittable(p, r) && p.registrations[r].enabled
    requires ShownBy(event, p.registrations[r])
    ensures Core(Deliver(p, r, event))
  {
    var t := Deliver(p, r, event);
    forall q <- t.pending ensures Owned(t, q) { assert Owned(p, q); }
    forall x <- t.registrations ensures Kept(t, x) { assert Kept(p, x); }
    forall d <- t.log ensures Past(t, d) { DeliverPast(p, r, event, d); }
    DeliverApart(p, r, event);
  }

  lemma DeliverPast(p: Port, r: nat, event: Ready, d: Delivery)
    requires Core(p) && r in p.registrations && Submittable(p, r) && p.registrations[r].enabled
    requires ShownBy(event, p.registrations[r]) && d in Deliver(p, r, event).log
    ensures Past(Deliver(p, r, event), d)
  {
    if d in p.log { assert Past(p, d); }
  }

  lemma DeliverApart(p: Port, r: nat, event: Ready)
    requires Core(p) && r in p.registrations && Submittable(p, r)
    ensures var log := Deliver(p, r, event).log; forall i, j | 0 <= i < j < |log| :: Apart(log[i], log[j])
  {
    hide Owned, Kept, Past;
    var log := Deliver(p, r, event).log;
    forall i, j | 0 <= i < j < |log| ensures Apart(log[i], log[j]) {
      if j < |p.log| { assert Apart(p.log[i], p.log[j]); } else { assert p.log[i] in p.log; }
    }
  }

  /** A completed request leaves its registration ready for another one. */
  lemma ReleasedSubmittable(p: Port, q: nat)
    requires PortInv(p) && q in p.pending && p.pending[q].registration in p.registrations && !p.closed
    ensures Submittable(Release(p, q), p.pending[q].registration)
  {
    var r := p.pending[q].registration;
    assert Owned(p, q) && Kept(p, r) && Armed(p, r);
    forall d <- p.log | d.registration == r && d.generation == p.registrations[r].generation
        ensures !d.oneshot && d.batch < p.batch {
      assert Past(p, d);
    }
  }

  lemma ReleasedOthers(p: Port, q: nat)
    requires PortInv(p) && q in p.pending && p.pending[q].registration in p.registrations
    ensures forall x <- p.registrations :: x != p.pending[q].registration ==> Armed(Release(p, q), x)
  {
    forall x <- p.registrations | x != p.pending[q].registration ensures Armed(Release(p, q), x) { assert Armed(p, x); }
  }

  lemma CompleteKeeps(p: Port, q: nat, outcome: Outcome, ok: bool)
    requires PortInv(p) && q in p.pending
    ensures p.pending[q].registration in p.registrations && PortInv(Complete(p, q, outcome, ok))
  {
    assert Owned(p, q);
    var r := p.pending[q].registration;
    var freed := Release(p, q);
    ReleaseCore(p, q);
    ReleasedOthers(p, q);
    var t := Complete(p, q, outcome, ok);
    match FateOf(p, q, outcome)
    case Ignored =>
      assert Armed(freed, r);
    case Resubmitted =>
      ReleasedSubmittable(p, q);
      SubmitCore(freed, r, ok);
      SubmitArmed(freed, r, ok);
    case Forgotten =>
      ForgetKeeps(freed, r);
    case Delivered(event) =>
      ReleasedSubmittable(p, q);
      DeliverCore(freed, r, event);
      DeliverArmed(freed, r, event);
  }

  lemma ForgetKeeps(p: Port, r: nat)
    requires Core(p) && Current(p, r) && forall x <- p.registrations :: x != r ==> Armed(p, x)
    ensures PortInv(p.(sockets := p.sockets - {p.registrations[r].socket}))
  {
    var t := p.(sockets := p.sockets - {p.registrations[r].socket});
    forall q <- t.pending ensures Owned(t, q) { assert Owned(p, q); }
    forall x <- t.registrations ensures Kept(t, x) { assert Kept(p, x); }
    forall d <- t.log ensures Past(t, d) { assert Past(p, d); }
    forall x <- t.registrations ensures Armed(t, x) { if x != r { assert Armed(p, x); } }
  }

  lemma DeliverArmed(p: Port, r: nat, event: Ready)
    requires Core(p) && r in p.registrations && Submittable(p, r) && forall x <- p.registrations :: x != r ==>
        Armed(p, x)
    ensures forall x <- Deliver(p, r, event).registrations :: Armed(Deliver(p, r, event), x)
  {
    var t := Deliver(p, r, event);
    forall x <- t.registrations ensures Armed(t, x) { if x != r { assert Armed(p, x); } }
  }

  // Control calls.

  lemma TickKeeps(p: Port, more: nat)
    requires PortInv(p)
    ensures PortInv(p.(clock := p.clock + 1, batch := p.batch + more))
  {
    var t := p.(clock := p.clock + 1, batch := p.batch + more);
    forall q <- t.pending ensures Owned(t, q) { assert Owned(p, q); }
    forall x <- t.registrations ensures Kept(t, x) && Armed(t, x) { assert Kept(p, x) && Armed(p, x); }
    forall d <- t.log ensures Past(t, d) { assert Past(p, d); }
  }

  lemma MakeCore(p: Port, reg: Registration)
    requires Core(p) && reg.pending.None? && reg.since <= p.clock
    ensures var t := p.(registrations := p.registrations[p.made := reg],
        made := p.made + 1); Core(t) && Submittable(t, p.made) && !Current(t, p.made)
  {
    var t := p.(registrations := p.registrations[p.made := reg], made := p.made + 1);
    assert forall x <- p.registrations :: Kept(p, x) && x < p.made;
    forall q <- t.pending ensures Owned(t, q) { assert Owned(p, q); }
    forall x <- t.registrations ensures Kept(t, x) { if x != p.made { assert Kept(p, x); } }
    forall d <- t.log ensures Past(t, d) && d.registration != p.made { assert Past(p, d); }
  }

  lemma MakeArmed(p: Port, reg: Registration)
    requires PortInv(p)
    ensures var t := p.(registrations := p.registrations[p.made := reg],
        made := p.made + 1); forall x <- t.registrations :: x != p.made ==> Armed(t, x)
  {
    var t := p.(registrations := p.registrations[p.made := reg], made := p.made + 1);
    assert forall x <- p.registrations :: Kept(p, x) && x < p.made;
    forall x <- t.registrations | x != p.made ensures Armed(t, x) { assert Armed(p, x); }
  }

  lemma BindKeeps(p: Port, fd: int, r: nat)
    requires Core(p) && fd !in p.sockets && r in p.registrations && p.registrations[r].socket == fd
    requires p.registrations[r].enabled && p.registrations[r].pending.Some? && forall x <- p.registrations ::
        x != r ==> Armed(p, x)
    ensures PortInv(p.(sockets := p.sockets[fd := r]))
  {
    var t := p.(sockets := p.sockets[fd := r]);
    forall q <- t.pending ensures Owned(t, q) { assert Owned(p, q); }
    forall x <- t.registrations
        ensures Kept(t, x) && Armed(t, x) { assert Kept(p, x); if x != r { assert Armed(p, x); } }
    forall d <- t.log ensures Past(t, d) { assert Past(p, d); }
  }

  lemma AddKeeps(p: Port, fd: int, event: Event)
    requires PortInv(p) && fd !in p.sockets
    ensures PortInv(AddSocket(p, fd, event))
  {
    var reg := Registration(fd, event.flags, event.data, 0, true, None, p.clock);
    var made := p.(registrations := p.registrations[p.made := reg], made := p.made + 1);
    hide Core, Submittable, Armed, Submit, Current;
    MakeCore(p, reg);
    MakeArmed(p, reg);
    SubmitCore(made, p.made, true);
    SubmitArmed(made, p.made, true);
    BindKeeps(Submit(made, p.made, true), fd, p.made);
  }

  /** A registration is set anew: nothing that was submitted or delivered before
      belongs to the new setting. */
  lemma SetCore(p: Port, r: nat, next: Registration)
    requires Core(p) && r in p.registrations && next.generation == p.registrations[r].generation + 1
    requires next.socket == p.registrations[r].socket && next.pending == p.registrations[r].pending
    requires next.since <= p.clock
    ensures Core(p.(registrations := p.registrations[r := next]))
    ensures next.pending.None? && next.enabled ==> Submittable(p.(registrations := p.registrations[r := next]), r)
  {
    var t := p.(registrations := p.registrations[r := next]);
    forall q <- t.pending ensures Owned(t, q) { assert Owned(p, q); }
    forall x <- t.registrations ensures Kept(t, x) { assert Kept(p, x); }
    forall d <- t.log ensures Past(t, d) && (d.registration == r ==> d.generation < next.generation) {
      assert Past(p, d);
    }
  }

  lemma SetArmed(p: Port, r: nat, next: Registration)
    requires PortInv(p) && r in p.registrations && next.socket == p.registrations[r].socket
    ensures forall x <- p.registrations :: x != r ==> Armed(p.(registrations := p.registrations[r := next]), x)
  {
    var t := p.(registrations := p.registrations[r := next]);
    forall x <- p.registrations | x != r ensures Armed(t, x) { assert Armed(p, x); }
  }

  lemma ModKeeps(p: Port, fd: int, event: Event, a: Answers)
    requires PortInv(p) && fd in p.sockets && p.sockets[fd] in p.registrations
    ensures PortInv(ModSocket(p, fd, event, a))
  {
    var r := p.sockets[fd];
    var reg := p.registrations[r].(generation := p.registrations[r].generation + 1, flags := event.flags,
        data := event.data, enabled := true, since := p.clock);
    var t := p.(registrations := p.registrations[r := reg]);
    SetCore(p, r, reg);
    SetArmed(p, r, reg);
    hide Core;
    if reg.pending.None? {
      SubmitCore(t, r, a.submitOk);
      SubmitArmed(t, r, a.submitOk);
    } else {
      assert Armed(t, r);
    }
  }

  lemma UnbindCore(p: Port, fd: int)
    requires Core(p)
    ensures Core(p.(sockets := p.sockets - {fd}))
  {
    var t := p.(sockets := p.sockets - {fd});
    forall q <- t.pending ensures Owned(t, q) { assert Owned(p, q); }
    forall x <- t.registrations ensures Kept(t, x) { assert Kept(p, x); }
    forall d <- t.log ensures Past(t, d) { assert Past(p, d); }
  }

  lemma DelKeeps(p: Port, fd: int)
    requires PortInv(p) && fd in p.sockets && p.sockets[fd] in p.registrations
    ensures PortInv(DelSocket(p, fd))
  {
    var r := p.sockets[fd];
    var reg := p.registrations[r].(generation := p.registrations[r].generation + 1, enabled := false);
    var t := p.(registrations := p.registrations[r := reg]);
    assert p.registrations[r].socket == fd && Kept(p, r);
    SetCore(p, r, reg);
    SetArmed(p, r, reg);
    UnbindCore(t, fd);
    var u := DelSocket(p, fd);
    assert u == t.(sockets := t.sockets - {fd});
    forall x <- u.registrations ensures Armed(u, x) { if x != r { assert Armed(t, x); } }
  }

  lemma ControlKeeps(p: Port, op: Op, fd: int, event: Option<Event>, a: Answers)
    requires PortInv(p)
    ensures PortInv(Control(p, op, fd, event, a))
  {
    hide PortInv, AddSocket, ModSocket, DelSocket;
    var t := p.(clock := p.clock + 1);
    TickKeeps(p, 0);
    assert PortInv(t) by { assert t == p.(clock := p.clock + 1, batch := p.batch + 0); }
    if Refusal(p, op, fd, event, a).Some? {
    } else if op == Add && event.Some? {
      AddKeeps(t, fd, event.value);
    } else if fd !in p.sockets || p.sockets[fd] !in p.registrations {
    } else if op == Mod && event.Some? {
      ModKeeps(t, fd, event.value, a);
    } else if op == Del {
      DelKeeps(t, fd);
    }
  }

  // Waits.

  /** Everything delivered so far was delivered in an earlier wait. */
  predicate NewBatch(p: Port) {
    forall d <- p.log :: d.batch < p.batch
  }

  /** All of the queue but `rest` has been dealt with. */
  ghost predicate Requeued(p: Port, rest: seq<nat>) {
    forall r <- p.registrations :: Current(p, r) && p.registrations[r].enabled ==>
        p.registrations[r].pending.Some? || r in rest || r in p.starved
  }

  lemma NewBatchSubmittable(p: Port, r: nat)
    requires PortInv(p) && NewBatch(p) && Rearms(p, r)
    ensures Submittable(p, r)
  {
    forall d <- p.log | d.registration == r && d.generation == p.registrations[r].generation ensures !d.oneshot {
      assert Past(p, d);
    }
  }

  lemma RearmKeeps(p: Port, r: nat, ok: bool)
    requires PortInv(p) && NewBatch(p)
    ensures PortInv(Rearm(p, r, ok)) && NewBatch(Rearm(p, r, ok))
  {
    if Rearms(p, r) {
      NewBatchSubmittable(p, r);
      SubmitCore(p, r, ok);
      SubmitArmed(p, r, ok);
    }
  }

  lemma {:induction false} RearmAllKeeps(p: Port, queue: seq<nat>, oks: seq<bool>)
    requires PortInv(p) && NewBatch(p) && |oks| == |queue| && !p.closed && Requeued(p, queue)
    ensures PortInv(RearmAll(p, queue, oks))
    decreases |queue|
  {
    if queue == [] {
      ClearQueue(p);
    } else if Rearms(p, queue[0]) && !oks[0] {
      RearmKeeps(p, queue[0], false);
    } else {
      RearmKeeps(p, queue[0], oks[0]);
      RequeuedRest(p, queue, oks[0]);
      hide PortInv, Requeued, NewBatch, Rearm;
      RearmAllKeeps(Rearm(p, queue[0], oks[0]), queue[1..], oks[1..]);
    }
  }

  lemma RequeuedRest(p: Port, queue: seq<nat>, ok: bool)
    requires queue != [] && Requeued(p, queue) && (Rearms(p, queue[0]) ==> ok)
    ensures Requeued(Rearm(p, queue[0], ok), queue[1..]) && Rearm(p, queue[0], ok).closed == p.closed
  {
    var t := Rearm(p, queue[0], ok);
    forall r <- t.registrations | Current(t, r) && t.registrations[r].enabled
        ensures t.registrations[r].pending.Some? || r in queue[1..] || r in t.starved {
      assert Current(p, r) && p.registrations[r].enabled;
      assert r in queue ==> r == queue[0] || r in queue[1..];
    }
  }

  lemma ClearQueue(p: Port)
    requires PortInv(p) && Requeued(p, [])
    ensures PortInv(p.(rearm := []))
  {
    var t := p.(rearm := []);
    forall q <- t.pending ensures Owned(t, q) { assert Owned(p, q); }
    forall x <- t.registrations ensures Kept(t, x) && Armed(t, x) { assert Kept(p, x) && Armed(p, x); }
    forall d <- t.log ensures Past(t, d) { assert Past(p, d); }
  }

  lemma StartWaitKeeps(p: Port, oks: seq<bool>)
    requires PortInv(p) && |oks| == |p.rearm|
    ensures PortInv(StartWait(p, oks))
  {
    if p.closed {
      TickKeeps(p, 0);
    } else {
      TickKeeps(p, 1);
      var t := BeginWait(p);
      forall d <- t.log ensures d.batch < t.batch { assert Past(p, d); }
      forall r <- t.registrations | Current(t, r) && t.registrations[r].enabled
        ensures t.registrations[r].pending.Some? || r in p.rearm || r in t.starved
      {
        assert Armed(p, r);
      }
      RearmAllKeeps(t, p.rearm, oks);
    }
  }

  lemma StartCloseKeeps(p: Port)
    requires PortInv(p)
    ensures PortInv(StartClose(p))
  {
    TickKeeps(p, 0);
    var s, t := p.(clock := p.clock + 1), StartClose(p);
    forall q <- t.pending ensures Owned(t, q) { assert Owned(s, q); }
    forall x <- t.registrations ensures Kept(t, x) && Armed(t, x) { assert Kept(s, x); }
    forall d <- t.log ensures Past(t, d) { assert Past(s, d); }
  }

  /** The queue so far, when the kernel has granted every request. */
  function Rearmed(p: Port, queue: seq<nat>): Port
    decreases |queue|
  {
    if queue == [] then p else Rearm(Rearmed(p, queue[..|queue| - 1]), queue[|queue| - 1], true)
  }

  lemma {:induction false} RearmPrefix(p: Port, queue: seq<nat>, oks: seq<bool>, i: nat)
    requires |oks| == |queue| && i <= |queue| && forall k | 0 <= k < i :: oks[k]
    ensures RearmAll(p, queue, oks) == RearmAll(Rearmed(p, queue[..i]), queue[i..], oks[i..])
    decreases i
  {
    if i == 0 {
      assert queue[0..] == queue && oks[0..] == oks;
    } else {
      RearmPrefix(p, queue, oks, i - 1);
      assert queue[..i][..i - 1] == queue[..i - 1];
      assert queue[i - 1..][1..] == queue[i..] && oks[i - 1..][1..] == oks[i..];
    }
  }

  /** The loop ends at the first request that the kernel refuses, or at the end. */
  lemma RearmStops(p: Port, queue: seq<nat>, oks: seq<bool>, i: nat)
    requires |oks| == |queue| && i <= |queue| && (forall k | 0 <= k < i :: oks[k])
    requires i < |queue| ==> Rearms(Rearmed(p, queue[..i]), queue[i]) && !oks[i]
    ensures RearmAll(p, queue, oks) == if i < |queue| then Submit(Rearmed(p, queue[..i]), queue[i], false)
        else Rearmed(p, queue[..i]).(rearm := [])
  {
    hide Submit, Rearms, Rearm;
    RearmPrefix(p, queue, oks, i);
  }
}
