/** Occupancy of a service over time: what its pressure window measures, and when the
    measurement may start another worker. */
module Pressure {
  import opened Config

  /** What one worker contributes. */
  datatype Load = Load(stopping: bool, ready: bool, telemetry: bool, requests: nat)

  /** A measurement of the unretired workers; none if there are none or one of them
      cannot report. */
  datatype Measure = Unusable | Measured(workers: nat, active: nat, concurrency: Positive)
  {
    /** No more requests count than the workers can handle at once. */
    predicate Valid() {
      Measured? ==> 0 < workers && active <= workers * concurrency
    }

    /** The part of the capacity that is in use. */
    function Level(): real
      requires Measured? && Valid()
    {
      Product(workers, concurrency);
      active as real / (workers * concurrency) as real
    }
  }

  lemma Product(a: int, b: int)
    requires 0 < a && 0 < b
    ensures 0 < a * b
  {
  }

  function Min(a: nat, b: nat): nat {
    if a < b then a else b
  }

  predicate Reports(load: Load) {
    load.ready && load.telemetry
  }

  function Unretired(loads: seq<Load>): (n: nat)
    ensures n <= |loads|
  {
    if loads == [] then 0 else Unretired(loads[..|loads| - 1]) + (if loads[|loads| - 1].stopping then 0 else 1)
  }

  function Busy(loads: seq<Load>, concurrency: Positive): nat {
    if loads == [] then 0
    else Busy(loads[..|loads| - 1], concurrency) + (if loads[|loads| - 1].stopping then 0
        else Min(loads[|loads| - 1].requests, concurrency))
  }

  lemma {:induction false} BusyBounded(loads: seq<Load>, concurrency: Positive)
    ensures Busy(loads, concurrency) <= Unretired(loads) * concurrency
    decreases |loads|
  {
    if loads == [] {
    } else {
      BusyBounded(loads[..|loads| - 1], concurrency);
      var n := Unretired(loads[..|loads| - 1]);
      assert (n + 1) * concurrency == n * concurrency + concurrency;
    }
  }

  predicate AllReport(loads: seq<Load>) {
    forall load <- loads :: load.stopping || Reports(load)
  }

  function MeasureOf(loads: seq<Load>, concurrency: Positive): (measure: Measure)
    ensures measure.Valid()
  {
    BusyBounded(loads, concurrency);
    if !AllReport(loads) || Unretired(loads) == 0 then Unusable
        else Measured(Unretired(loads), Busy(loads, concurrency), concurrency)
  }

  /** The loop of observePressure over a service's workers, in any order. */
  method Survey(loads: seq<Load>, concurrency: Positive) returns (measure: Measure)
    ensures measure == MeasureOf(loads, concurrency)
  {
    var count, active := 0, 0;
    for i := 0 to |loads|
      invariant count == Unretired(loads[..i]) && active == Busy(loads[..i], concurrency) && AllReport(loads[..i])
    {
      assert loads[..i + 1][..i] == loads[..i];
      var load := loads[i];
      if !load.stopping {
        if !load.ready || !load.telemetry {
          assert load in loads;
          return Unusable;
        }
        count := count + 1;
        active := active + Min(load.requests, concurrency);
      }
    }
    assert loads[..|loads|] == loads;
    measure := if count == 0 then Unusable else Measured(count, active, concurrency);
  }

  // ---------------------------------------------------------------- the window

  datatype Window = Empty | Window(since: int, last: int, value: real, area: real, workers: nat)

  /** The area under a level between two moments. */
  function Swept(level: real, from: int, to: int): real {
    level * (to - from) as real
  }

  /** observePressure, given what it measures. */
  function Observe(w: Window, now: int, measure: Measure): Window
    requires measure.Valid()
  {
    if measure.Unusable? then Empty
    else
      var v := if w.Empty? || w.workers != measure.workers then Window(now, now, 0.0, 0.0, measure.workers) else w;
      v.(area := v.area + Swept(v.value, v.last, now), last := now, value := measure.Level())
  }

  predicate Ripe(w: Window, now: int, window: int) {
    w.Window? && now - w.since >= window
  }

  /** evaluate: the window starts again once it is full; the answer is whether the
      average of it, in percent, reached the threshold. */
  function Evaluate(w: Window, now: int, window: int): Window {
    if Ripe(w, now, window) then w.(since := now, area := 0.0) else w
  }

  predicate Presses(w: Window, now: int, window: int, threshold: real)
    requires 0 < window
  {
    Ripe(w, now, window) && 100.0 * w.area / (now - w.since) as real >= threshold
  }

  /** evaluate: the window that is left, and whether to grow. */
  method Decide(w: Window, now: int, window: int, threshold: real) returns (left: Window, grow: bool)
    requires 0 < window
    ensures left == Evaluate(w, now, window) && grow == Presses(w, now, window, threshold)
  {
    left, grow := w, false;
    if w.Window? && now - w.since >= window {
      var average := 100.0 * w.area / (now - w.since) as real;
      left := w.(since := now, area := 0.0);
      grow := average >= threshold;
    }
  }

  // ------------------------------------------------------- what it measures

  /** From `time` on the occupancy is `level`. */
  datatype Point = Point(time: int, level: real)

  /** The integral of the step function through `points`, up to `end`. */
  function Integral(points: seq<Point>, end: int): real {
    if points == [] then 0.0
    else
      var p := points[|points| - 1];
      Integral(points[..|points| - 1], p.time) + Swept(p.level, p.time, end)
  }

  predicate Chronicle(points: seq<Point>) {
    && (forall i, j | 0 <= i < j < |points| :: points[i].time <= points[j].time)
    && (forall i | 0 <= i < |points| :: 0.0 <= points[i].level <= 1.0)
  }

  datatype Call = Observing(now: int, measure: Measure) | Evaluating(now: int, window: int)

  predicate Possible(call: Call) {
    && (call.Observing? ==> call.measure.Valid())
    && (call.Evaluating? ==> 0 < call.window)
  }

  predicate AllPossible(calls: seq<Call>) {
    forall i | 0 <= i < |calls| :: Possible(calls[i])
  }

  /** The calls a service gets: time does not run backwards, and an evaluation follows
      an observation of the same moment. */
  predicate Disciplined(calls: seq<Call>) {
    && AllPossible(calls)
    && (forall i, j | 0 <= i < j < |calls| :: calls[i].now <= calls[j].now)
    && (forall i | 0 <= i < |calls| :: calls[i].Evaluating? ==>
         i > 0 && calls[i - 1].Observing? && calls[i - 1].now == calls[i].now)
  }

  function Step(w: Window, call: Call): Window
    requires Possible(call)
  {
    match call
    case Observing(now, measure) => Observe(w, now, measure)
    case Evaluating(now, window) => Evaluate(w, now, window)
  }

  function After(calls: seq<Call>): Window
    requires AllPossible(calls)
  {
    if calls == [] then Empty else Step(After(calls[..|calls| - 1]), calls[|calls| - 1])
  }

  /** A window is what its calls have made of it, none of them in the future. */
  ghost predicate Tracks(w: Window, calls: seq<Call>, clock: int) {
    Disciplined(calls) && w == After(calls) && (calls != [] ==> calls[|calls| - 1].now <= clock)
  }

  lemma TracksMore(w: Window, calls: seq<Call>, clock: int, call: Call)
    requires Tracks(w, calls, clock) && Possible(call) && call.now == clock
    requires call.Evaluating? ==> calls != [] && calls[|calls| - 1].Observing? && calls[|calls| - 1].now == clock
    ensures Tracks(Step(w, call), calls + [call], clock) && calls <= calls + [call]
  {
    var more := calls + [call];
    assert more[..|more| - 1] == calls;
    forall i, j | 0 <= i < j < |more| ensures more[i].now <= more[j].now {
      if j == |calls| { assert more[i].now <= calls[|calls| - 1].now; }
    }
  }

  /** The observations of the present window, taken from the calls alone. */
  function History(calls: seq<Call>): seq<Point>
    requires AllPossible(calls)
  {
    if calls == [] then []
    else
      var before, call := History(calls[..|calls| - 1]), calls[|calls| - 1];
      var w := After(calls[..|calls| - 1]);
      assert Possible(call);
      match call
      case Observing(now, Unusable) => []
      case Observing(now, measure) =>
        (if w.Empty? || w.workers != measure.workers then [] else before) + [Point(now, measure.Level())]
      case Evaluating(now, window) =>
        if Ripe(w, now, window) && before != [] then [Point(now, before[|before| - 1].level)] else before
  }

  lemma LevelFraction(measure: Measure)
    requires measure.Measured? && measure.Valid()
    ensures 0.0 <= measure.Level() <= 1.0
  {
    Product(measure.workers, measure.concurrency);
    Fraction(measure.active, measure.workers * measure.concurrency);
  }

  lemma Fraction(part: nat, whole: int)
    requires 0 < whole && part <= whole
    ensures 0.0 <= part as real / whole as real <= 1.0
  {
    assert part as real <= whole as real;
  }

  lemma SweptBounded(level: real, from: int, to: int)
    requires 0.0 <= level <= 1.0 && from <= to
    ensures 0.0 <= Swept(level, from, to) <= (to - from) as real
  {
    var span := (to - from) as real;
    NotNegative(level, span);
    NotNegative(1.0 - level, span);
    assert (1.0 - level) * span == span - level * span;
  }

  lemma NotNegative(x: real, y: real)
    requires 0.0 <= x && 0.0 <= y
    ensures 0.0 <= x * y
  {
  }

  lemma SweptNothing(level: real, at: int)
    ensures Swept(level, at, at) == 0.0
  {
  }

  lemma IntegralSplit(points: seq<Point>, p: Point)
    ensures Integral(points + [p], p.time) == Integral(points, p.time)
  {
    SweptNothing(p.level, p.time);
    hide Swept;
    assert (points + [p])[..|points|] == points;
  }

  /** What the window of a history holds. */
  ghost predicate Measures(w: Window, points: seq<Point>, now: int) {
    if w.Empty? then points == []
    else
      && points != [] && Chronicle(points) && points[0].time == w.since
           && points[|points| - 1] == Point(w.last, w.value)
      && w.last <= now && w.area == Integral(points, w.last)
  }

  /** The area of a window is the integral of the occupancy since the window began. */
  lemma {:induction false} AreaIsIntegral(calls: seq<Call>)
    requires Disciplined(calls)
    ensures calls != [] ==> Measures(After(calls), History(calls), calls[|calls| - 1].now)
    decreases |calls|
  {
    hide Swept;
    if calls == [] {
    } else {
      var rest, call := calls[..|calls| - 1], calls[|calls| - 1];
      AreaIsIntegral(rest);
      var w, points := After(rest), History(rest);
      assert Possible(call);
      if call.Observing? {
        ObserveMeasures(w, points, call, if rest == [] then call.now else rest[|rest| - 1].now);
      } else {
        assert rest[|rest| - 1].Observing? && rest[|rest| - 1].now == call.now;
        if w.Window? {
          LastObserved(rest);
          EvaluateMeasures(w, points, call.now, call.window);
        }
      }
    }
  }

  lemma EvaluateMeasures(w: Window, points: seq<Point>, now: int, window: int)
    requires w.Window? && w.last == now && Measures(w, points, now)
    ensures Measures(Evaluate(w, now, window), if Ripe(w, now, window) then [Point(now, points[|points| - 1].level)]
        else points, now)
  {
    if Ripe(w, now, window) {
      SweptNothing(w.value, now);
      assert [points[|points| - 1]][..0] == [];
    }
  }

  lemma LastObserved(calls: seq<Call>)
    requires Disciplined(calls) && calls != [] && calls[|calls| - 1].Observing? && After(calls).Window?
    ensures After(calls).last == calls[|calls| - 1].now
  {
  }

  lemma ObserveMeasures(w: Window, points: seq<Point>, call: Call, before: int)
    requires call.Observing? && Possible(call) && before <= call.now && Measures(w, points, before)
    ensures var more := if call.measure.Unusable? then []
        else (if w.Empty? || w.workers != call.measure.workers then []
            else points) + [Point(call.now, call.measure.Level())];
      Measures(Observe(w, call.now, call.measure), more, call.now)
  {
    if call.measure.Measured? {
      LevelFraction(call.measure);
      var p := Point(call.now, call.measure.Level());
      hide Measures, Swept;
      SweptNothing(0.0, call.now);
      if w.Empty? || w.workers != call.measure.workers {
        assert [] + [p] == [p];
        FirstPoint(p, call.measure.workers);
      } else {
        NextPoint(w, points, p, before);
      }
    }
  }

  lemma FirstPoint(p: Point, workers: nat)
    requires 0.0 <= p.level <= 1.0
    ensures Measures(Window(p.time, p.time, p.level, 0.0, workers), [p], p.time)
  {
    SweptNothing(p.level, p.time);
    assert [p][..0] == [];
  }

  lemma NextPoint(w: Window, points: seq<Point>, p: Point, before: int)
    requires w.Window? && Measures(w, points, before) && before <= p.time && 0.0 <= p.level <= 1.0
    ensures Measures(w.(area := w.area + Swept(w.value, w.last, p.time), last := p.time, value := p.level),
        points + [p], p.time)
  {
    hide Swept, Integral, Chronicle;
    var q := points[|points| - 1];
    assert points[..|points| - 1] + [q] == points;
    IntegralSplit(points, p);
    Extend(points[..|points| - 1], q, p.time);
    Recorded(points, p);
  }

  lemma Recorded(points: seq<Point>, p: Point)
    requires Chronicle(points) && 0.0 <= p.level <= 1.0 && (points != [] ==> points[|points| - 1].time <= p.time)
    ensures Chronicle(points + [p])
  {
  }

  lemma Extend(points: seq<Point>, q: Point, end: int)
    ensures Integral(points + [q], end) == Integral(points + [q], q.time) + Swept(q.level, q.time, end)
  {
    SweptNothing(q.level, q.time);
    hide Swept;
    assert (points + [q])[..|points|] == points;
  }

  /** A window begins with this call: the one before it was full, or there was none, or
      it was one of another number of workers. */
  predicate Begins(calls: seq<Call>, k: nat)
    requires AllPossible(calls) && k < |calls|
  {
    var before := After(calls[..k]);
    match calls[k]
    case Observing(now, measure) => measure.Measured? && (before.Empty? || before.workers != measure.workers)
    case Evaluating(now, window) => Ripe(before, now, window)
  }

  /** A window goes on over this call: the same number of workers reported, or it was
      not full. */
  predicate GoesOn(calls: seq<Call>, k: nat)
    requires AllPossible(calls) && k < |calls|
  {
    var before := After(calls[..k]);
    match calls[k]
    case Observing(now, measure) => measure.Measured? && before.Window? && before.workers == measure.workers
    case Evaluating(now, window) => !Ripe(before, now, window)
  }

  /** The window began with call number `k`, and has gone on since. */
  ghost predicate BeganWith(calls: seq<Call>, k: nat)
    requires AllPossible(calls)
  {
    && k < |calls| && After(calls).Window? && Begins(calls, k) && calls[k].now == After(calls).since
    && forall j | k < j < |calls| :: GoesOn(calls, j)
  }

  /** Windows follow each other without overlap: each began where a full one ended, or
      when the number of workers had changed or they could report again. */
  lemma {:induction false} WindowsTile(calls: seq<Call>)
    requires AllPossible(calls) && After(calls).Window?
    ensures exists k: nat :: BeganWith(calls, k)
    decreases |calls|
  {
    var rest, last := calls[..|calls| - 1], |calls| - 1;
    assert Possible(calls[last]);
    if Begins(calls, last) {
      assert BeganWith(calls, last);
    } else {
      assert After(rest).Window? && GoesOn(calls, last);
      WindowsTile(rest);
      var k: nat :| BeganWith(rest, k);
      assert rest[..k] == calls[..k];
      forall j | k < j < |calls| ensures GoesOn(calls, j) {
        if j < last { assert rest[..j] == calls[..j] && GoesOn(rest, j); }
      }
      assert BeganWith(calls, k);
    }
  }

  // --------------------------------------------------- how often it decides

  /** A moment at which a full window was evaluated, and how long the window had to be. */
  datatype Decision = Decision(now: int, window: int)

  function Decisions(calls: seq<Call>): seq<Decision>
    requires AllPossible(calls)
  {
    if calls == [] then []
    else
      var before, call := Decisions(calls[..|calls| - 1]), calls[|calls| - 1];
      if call.Evaluating? && Ripe(After(calls[..|calls| - 1]), call.now, call.window)
          then before + [Decision(call.now, call.window)] else before
  }

  /** A window begins no earlier than the last decision; so two decisions to grow lie
      at least a window apart, whatever is observed between them. */
  lemma {:induction false} DecisionsApart(calls: seq<Call>)
    requires Disciplined(calls)
    ensures var made := Decisions(calls);
      && (forall i | 0 <= i < |made| - 1 :: made[i].now + made[i + 1].window <= made[i + 1].now)
      && (made != [] ==> calls != [] && made[|made| - 1].now <= calls[|calls| - 1].now)
      && (made != [] && After(calls).Window? ==> made[|made| - 1].now <= After(calls).since)
    decreases |calls|
  {
    if calls == [] {
    } else {
      var rest := calls[..|calls| - 1];
      DecisionsApart(rest);
      assert Possible(calls[|calls| - 1]);
      assert rest != [] ==> rest[|rest| - 1].now <= calls[|calls| - 1].now;
    }
  }

  /** A decision to grow is the last one on the record, and made now. */
  lemma PressingDecides(calls: seq<Call>, now: int, window: int, threshold: real)
    requires AllPossible(calls) && 0 < window && Presses(After(calls), now, window, threshold)
    ensures var more := calls + [Evaluating(now, window)];
      AllPossible(more) && Decisions(more) == Decisions(calls) + [Decision(now, window)]
  {
    var more := calls + [Evaluating(now, window)];
    assert more[..|more| - 1] == calls;
  }

  /** The record only grows, so earlier decisions stay on it. */
  lemma {:induction false} DecisionsStay(calls: seq<Call>, more: seq<Call>)
    requires AllPossible(more) && calls <= more
    ensures AllPossible(calls) && Decisions(calls) <= Decisions(more)
    decreases |more|
  {
    if calls == more {
    } else {
      var rest := more[..|more| - 1];
      assert calls <= rest;
      DecisionsStay(calls, rest);
    }
  }

  /** A decision that is on the later record and not yet on the earlier one. */
  ghost predicate Decided(before: seq<Call>, after: seq<Call>, d: Decision) {
    && AllPossible(before) && AllPossible(after) && before <= after
    && exists i | |Decisions(before)| <= i < |Decisions(after)| :: Decisions(after)[i] == d
  }

  lemma DecidedOnward(earlier: seq<Call>, before: seq<Call>, after: seq<Call>, later: seq<Call>, d: Decision)
    requires AllPossible(later) && earlier <= before && after <= later && Decided(before, after, d)
    ensures Decided(earlier, later, d)
  {
    DecisionsStay(earlier, before);
    DecisionsStay(after, later);
    var i :| |Decisions(before)| <= i < |Decisions(after)| && Decisions(after)[i] == d;
    assert Decisions(later)[i] == d;
    assert earlier <= before <= after <= later;
    assert earlier <= later;
  }

  /** Two decisions to grow the same service, with anything in between, lie at least a
      window apart. */
  lemma GrowthsApart(c0: seq<Call>, c1: seq<Call>, c2: seq<Call>, c3: seq<Call>, first: Decision, second: Decision)
    requires Disciplined(c3) && Decided(c0, c1, first) && c1 <= c2 && Decided(c2, c3, second)
    ensures first.now + second.window <= second.now
  {
    DecisionsStay(c1, c2);
    DecisionsStay(c2, c3);
    DecisionsApart(c3);
    WindowsPositive(c3);
    var i :| |Decisions(c0)| <= i < |Decisions(c1)| && Decisions(c1)[i] == first;
    var j :| |Decisions(c2)| <= j < |Decisions(c3)| && Decisions(c3)[j] == second;
    assert Decisions(c2)[i] == first && Decisions(c3)[i] == first;
    LaterDecisions(Decisions(c3), i, j);
  }

  // ------------------------------------------------- the calls of all services

  /** A record of the calls of many services, each with its owner. */
  type Record = seq<(nat, Call)>

  /** The part of the record that belongs to `v`. */
  function CallsOf(record: Record, v: nat): seq<Call> {
    if record == [] then []
    else
      var before, last := CallsOf(record[..|record| - 1], v), record[|record| - 1];
      if last.0 == v then before + [last.1] else before
  }

  lemma CallsMore(record: Record, u: nat, call: Call, v: nat)
    ensures CallsOf(record + [(u, call)], v) == if u == v then CallsOf(record, v) + [call] else CallsOf(record, v)
  {
    assert (record + [(u, call)])[..|record|] == record;
  }

  lemma {:induction false} CallsExtend(record: Record, more: Record, v: nat)
    requires record <= more
    ensures CallsOf(record, v) <= CallsOf(more, v)
    decreases |more|
  {
    if record != more {
      assert record <= more[..|more| - 1];
      CallsExtend(record, more[..|more| - 1], v);
    }
  }

  lemma DecisionMade(calls: seq<Call>, now: int, window: int, threshold: real)
    requires AllPossible(calls) && 0 < window && Presses(After(calls), now, window, threshold)
    ensures Decided(calls, calls + [Evaluating(now, window)], Decision(now, window))
  {
    PressingDecides(calls, now, window, threshold);
    var more := calls + [Evaluating(now, window)];
    assert Decisions(more)[|Decisions(calls)|] == Decision(now, window);
  }

  lemma {:induction false} WindowsPositive(calls: seq<Call>)
    requires AllPossible(calls)
    ensures forall k | 0 <= k < |Decisions(calls)| :: 0 < Decisions(calls)[k].window
    decreases |calls|
  {
    if calls != [] {
      WindowsPositive(calls[..|calls| - 1]);
      assert Possible(calls[|calls| - 1]);
    }
  }

  lemma {:induction false} LaterDecisions(made: seq<Decision>, i: nat, j: nat)
    requires i < j < |made| && forall k | 0 <= k < |made| - 1 :: made[k].now + made[k + 1].window <= made[k + 1].now
    requires forall k | 0 <= k < |made| :: 0 < made[k].window
    ensures made[i].now + made[j].window <= made[j].now
    decreases j
  {
    if i < j - 1 { LaterDecisions(made, i, j - 1); }
  }
}
