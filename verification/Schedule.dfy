/** Schedules: five cron fields or an elapsed interval. A field's 64-bit mask is
    the set of the numbers of its one bits. */
module Schedule {
  import opened Options
  import opened Text

  type Mask = set<int>

  datatype Rule = Rule(minutes: Mask, hours: Mask, days: Mask, months: Mask, weekdays: Mask, wildDay: bool,
      wildWeekday: bool)
  {
    /** Every field selects something. */
    predicate Selective() {
      minutes != {} && hours != {} && days != {} && months != {} && weekdays != {}
    }
  }

  /** One reading of a wall clock; Sunday is weekday 0. */
  datatype Reading = Reading(minute: int, hour: int, day: int, month: int, weekday: int)

  function LowerChar(c: char): char {
    if 'A' <= c <= 'Z' then (c as int - 'A' as int + 'a' as int) as char else c
  }

  function Lower(text: string): string {
    seq(|text|, i requires 0 <= i < |text| => LowerChar(text[i]))
  }

  function NameIndex(names: seq<string>, text: string): (i: Option<nat>)
    ensures i.Some? ==> i.value < |names| && names[i.value] == text
    ensures i.None? ==> text !in names
  {
    if names == [] then None
    else if names[0] == text then Some(0)
    else match NameIndex(names[1..], text) case None => None case Some(k) => Some(k + 1)
  }

  // ------------------------------------------------------------- cron fields

  datatype Bounds = Bounds(minimum: nat, maximum: nat, names: seq<string>)
  {
    /** Every name stands for a number of the field. */
    predicate Valid() {
      minimum <= maximum && minimum + |names| <= maximum + 1
    }
  }

  const MAX_STEP := 0x7fff_ffff_ffff_ffff

  /** A name or a decimal number of the field. */
  function Value(text: string, bounds: Bounds): (v: Option<int>)
    requires bounds.Valid()
    ensures v.Some? ==> bounds.minimum <= v.value <= bounds.maximum
  {
    var name := NameIndex(bounds.names, Lower(text));
    if name.Some? then Some(bounds.minimum + name.value)
    else if Digits(text) && bounds.minimum <= Number(text) <= bounds.maximum then Some(Number(text))
    else None
  }

  function Step(text: Option<string>): (step: Option<int>)
    ensures step.Some? ==> 1 <= step.value
  {
    match text
    case None => Some(1)
    case Some(digits) => if Digits(digits) && 1 <= Number(digits) <= MAX_STEP then Some(Number(digits)) else None
  }

  datatype Range = Range(first: int, last: int, step: int)
  {
    /** Every step-th number of the range, from its first. */
    ghost predicate Selects(n: int)
      requires 1 <= step
    {
      first <= n <= last && (n - first) % step == 0
    }
  }

  /** One item of a comma-separated field: `*`, a value or a range, then a step. */
  function Item(text: string, bounds: Bounds): (r: Option<Range>)
    requires bounds.Valid()
    ensures r.Some? ==> bounds.minimum <= r.value.first <= r.value.last <= bounds.maximum && 1 <= r.value.step
  {
    var (base, stepText) := Cut(text, '/');
    var step := Step(stepText);
    if step.None? then None
    else if base == "*" then Some(Range(bounds.minimum, bounds.maximum, step.value))
    else
      var (start, end) := Cut(base, '-');
      var first := Value(start, bounds);
      if first.None? then None
      else match end
        case None => if stepText.Some? then None else Some(Range(first.value, first.value, step.value))
        case Some(text) =>
          var last := Value(text, bounds);
          if last.None? || last.value < first.value then None else Some(Range(first.value, last.value, step.value))
  }

  predicate WellFormed(items: seq<string>, bounds: Bounds)
    requires bounds.Valid()
  {
    forall item <- items :: Item(item, bounds).Some?
  }

  ghost predicate Selected(items: seq<string>, bounds: Bounds, n: int)
    requires bounds.Valid() && WellFormed(items, bounds)
  {
    exists item <- items :: Item(item, bounds).value.Selects(n)
  }

  /** What a list of items selects: the union of their numbers. */
  ghost function Union(items: seq<string>, bounds: Bounds): Mask
    requires bounds.Valid() && WellFormed(items, bounds)
  {
    set n | bounds.minimum <= n <= bounds.maximum && Selected(items, bounds, n)
  }

  lemma UnionNotEmpty(items: seq<string>, bounds: Bounds)
    requires bounds.Valid() && |items| >= 1 && WellFormed(items, bounds)
    ensures Union(items, bounds) != {}
  {
    var range := Item(items[0], bounds).value;
    assert items[0] in items && range.Selects(range.first);
    assert range.first in Union(items, bounds);
  }

  /** Between two neighbours of a range no number belongs to it. */
  lemma NextNumber(range: Range, number: int, n: int)
    requires 1 <= range.step && (number - range.first) % range.step == 0 && number < n < number + range.step
    ensures !range.Selects(n)
  {
    var q := (number - range.first) / range.step;
    assert number - range.first == q * range.step;
    Remainder(q, n - number, range.step);
  }

  lemma NextAligned(range: Range, number: int)
    requires 1 <= range.step && (number - range.first) % range.step == 0
    ensures (number + range.step - range.first) % range.step == 0
  {
    var q := (number - range.first) / range.step;
    assert number - range.first == q * range.step;
    assert (q + 1) * range.step == q * range.step + range.step;
    Remainder(q + 1, 0, range.step);
  }

  lemma Remainder(q: int, k: int, step: int)
    requires 0 <= k < step
    ensures (q * step + k) % step == k && (q * step + k) / step == q
  {
    var n := q * step + k;
    var d := n / step - q;
    assert n == (n / step) * step + n % step;
    assert d * step == k - n % step by { assert (n / step - q) * step == (n / step) * step - q * step; }
    Apart(d, step);
  }

  lemma Apart(d: int, step: int)
    requires 0 < step
    ensures d >= 1 ==> d * step >= step
    ensures d <= -1 ==> d * step <= -step
  {
  }

  /** The innermost loop: mark every step-th number without passing the end. */
  method Mark(mask: Mask, range: Range) returns (marked: Mask)
    requires range.first <= range.last && 1 <= range.step
    ensures forall n :: n in marked <==> n in mask || range.Selects(n)
  {
    marked := mask;
    var number := range.first;
    while number <= range.last
      invariant range.first <= number <= range.last && range.Selects(number)
      invariant forall n :: n in marked <==> n in mask || (range.Selects(n) && n < number)
      decreases range.last - number
    {
      forall n | range.Selects(n) && number < n ensures number + range.step <= n {
        if n < number + range.step { NextNumber(range, number, n); }
      }
      NextAligned(range, number);
      marked := marked + {number};
      if range.step > range.last - number {
        break;
      }
      number := number + range.step;
    }
  }

  /** cronField: the mask of one field. */
  method CronField(field: string, bounds: Bounds) returns (mask: Option<Mask>)
    requires bounds.Valid()
    ensures mask.Some? <==> WellFormed(Split(field, ','), bounds)
    ensures mask.Some? ==> mask.value == Union(Split(field, ','), bounds) && mask.value != {}
  {
    var items := Split(field, ',');
    var marked: Mask := {};
    for i := 0 to |items|
      invariant WellFormed(items[..i], bounds) && marked == Union(items[..i], bounds)
    {
      assert items[..i + 1] == items[..i] + [items[i]];
      var range := Item(items[i], bounds);
      if range.None? {
        assert items[i] in items;
        return None;
      }
      marked := Mark(marked, range.value);
      UnionGrows(items[..i], items[i], bounds);
    }
    assert items[..|items|] == items;
    UnionNotEmpty(items, bounds);
    mask := Some(marked);
  }

  lemma UnionGrows(items: seq<string>, item: string, bounds: Bounds)
    requires bounds.Valid() && WellFormed(items, bounds) && Item(item, bounds).Some?
    ensures WellFormed(items + [item], bounds)
    ensures forall n :: n in Union(items + [item], bounds) <==>
        n in Union(items, bounds) || Item(item, bounds).value.Selects(n)
  {
    assert forall x :: x in items + [item] <==> x in items || x == item;
  }

  const LIMITS: seq<Bounds> := [
    Bounds(0, 59, []),
    Bounds(0, 23, []),
    Bounds(1, 31, []),
    Bounds(1, 12, ["jan", "feb", "mar", "apr", "may", "jun", "jul", "aug", "sep", "oct", "nov", "dec"]),
    Bounds(0, 7, ["sun", "mon", "tue", "wed", "thu", "fri", "sat"])
  ]

  predicate Accepted(text: string, bounds: Bounds) {
    bounds.Valid() && WellFormed(Split(text, ','), bounds)
  }

  /** The text selects exactly these numbers, and at least one. */
  ghost predicate Denotes(text: string, bounds: Bounds, mask: Mask) {
    Accepted(text, bounds) && mask == Union(Split(text, ','), bounds) && mask != {}
  }

  lemma LimitsValid()
    ensures |LIMITS| == 5 && forall k | 0 <= k < 5 :: LIMITS[k].Valid()
    ensures LIMITS[2].minimum == 1 && LIMITS[2].maximum == 31 && LIMITS[4].minimum == 0 && LIMITS[4].maximum == 7
  {
  }

  /** A cron field beginning with a star, even one with a step, is a wildcard. */
  predicate Wild(text: string) {
    text != "" && text[0] == '*'
  }

  /** The loop of parseSchedule over the fields. */
  method ParseFields(fields: seq<string>, limits: seq<Bounds>) returns (masks: Option<seq<Mask>>)
    requires |fields| == |limits| && forall k | 0 <= k < |limits| :: limits[k].Valid()
    ensures masks.Some? <==> forall k | 0 <= k < |limits| :: Accepted(fields[k], limits[k])
    ensures masks.Some? ==> |masks.value| == |limits| && forall k | 0 <= k < |limits| ::
        Denotes(fields[k], limits[k], masks.value[k])
  {
    var found: seq<Mask> := [];
    for k := 0 to |limits|
      invariant |found| == k
      invariant forall i | 0 <= i < k :: Denotes(fields[i], limits[i], found[i])
    {
      var mask := CronField(fields[k], limits[k]);
      if mask.None? {
        assert !Accepted(fields[k], limits[k]);
        return None;
      }
      found := found + [mask.value];
    }
    masks := Some(found);
  }

  /** What the rule of five accepted fields consists of. */
  ghost predicate Parses(fields: seq<string>, rule: Rule) {
    && |fields| == 5
    && Denotes(fields[0], LIMITS[0], rule.minutes) && Denotes(fields[1], LIMITS[1], rule.hours)
    && Denotes(fields[2], LIMITS[2], rule.days) && Denotes(fields[3], LIMITS[3], rule.months)
    && Denotes(fields[4], LIMITS[4], rule.weekdays)
    && rule.wildDay == Wild(fields[2]) && rule.wildWeekday == Wild(fields[4])
  }

  /** parseSchedule on the five fields of a cron expression. */
  method ParseRule(fields: seq<string>) returns (rule: Option<Rule>)
    requires |fields| == 5
    ensures rule.Some? <==> forall k | 0 <= k < 5 :: Accepted(fields[k], LIMITS[k])
    ensures rule.Some? ==> Parses(fields, rule.value) && rule.value.Selective()
  {
    LimitsValid();
    var limits := LIMITS;
    var masks := ParseFields(fields, limits);
    match masks
    case None => rule := None;
    case Some(m) => rule := Some(Rule(m[0], m[1], m[2], m[3], m[4], Wild(fields[2]), Wild(fields[4])));
  }

  datatype Parsed = Never | Each(interval: int) | Cron(rule: Rule)

  const ALIASES: map<string, string> := map[
    "@yearly" := "0 0 1 1 *", "@annually" := "0 0 1 1 *",
    "@monthly" := "0 0 1 * *", "@weekly" := "0 0 * * 0",
    "@daily" := "0 0 * * *", "@midnight" := "0 0 * * *", "@hourly" := "0 * * * *"
  ]

  function FieldsOf(expression: string): seq<string> {
    Words(if expression in ALIASES then ALIASES[expression] else expression)
  }

  predicate FiveFields(expression: string) {
    |FieldsOf(expression)| == 5 && forall k | 0 <= k < 5 :: Accepted(FieldsOf(expression)[k], LIMITS[k])
  }

  /** parseSchedule; `duration` is what the expression means to time.ParseDuration. None
      stands for the error. */
  method ParseSchedule(expression: string, duration: Option<int>) returns (plan: Option<Parsed>)
    ensures plan == Some(Never) <==> expression == ""
    ensures plan.Some? && plan.value.Each? <==> expression != "" && duration.Some? && 0 < duration.value
    ensures plan.Some? && plan.value.Each? ==> plan.value.interval == duration.value
    ensures plan.Some? && plan.value.Cron? <==> expression != "" && duration.None? && FiveFields(expression)
    ensures plan.Some? && plan.value.Cron? ==>
        Parses(FieldsOf(expression), plan.value.rule) && plan.value.rule.Selective()
  {
    hide Words, Accepted, Denotes, Parses;
    if expression == "" {
      return Some(Never);
    }
    if duration.Some? {
      return if duration.value <= 0 then None else Some(Each(duration.value));
    }
    var fields := FieldsOf(expression);
    if |fields| != 5 {
      return None;
    }
    var rule := ParseRule(fields);
    plan := if rule.Some? then Some(Cron(rule.value)) else None;
  }

  // --------------------------------------------------------------- matching

  /** schedule.matches: which minutes a rule selects. */
  predicate Matches(rule: Rule, t: Reading) {
    var day := t.day in rule.days;
    var weekday := t.weekday in rule.weekdays || (t.weekday == 0 && 7 in rule.weekdays);
    t.minute in rule.minutes && t.hour in rule.hours && t.month in rule.months
    && if !rule.wildDay && !rule.wildWeekday then day || weekday else day && weekday
  }

  predicate OnClock(t: Reading) {
    0 <= t.minute <= 59 && 0 <= t.hour <= 23 && 1 <= t.day <= 31 && 1 <= t.month <= 12 && 0 <= t.weekday <= 6
  }

  /** One item of the field's text selects the number. */
  ghost predicate Selects(text: string, bounds: Bounds, n: int) {
    Accepted(text, bounds) && Selected(Split(text, ','), bounds, n)
  }

  /** Sunday may be written 0 or 7. */
  ghost predicate SelectsWeekday(text: string, weekday: int) {
    Selects(text, LIMITS[4], weekday) || (weekday == 0 && Selects(text, LIMITS[4], 7))
  }

  /** The day part: two fields that do not begin with a star are alternatives; else the
      day has to be in both. */
  ghost predicate DaySelected(fields: seq<string>, t: Reading)
    requires |fields| == 5
  {
    if !Wild(fields[2]) && !Wild(fields[4])
    then Selects(fields[2], LIMITS[2], t.day) || SelectsWeekday(fields[4], t.weekday)
    else Selects(fields[2], LIMITS[2], t.day) && SelectsWeekday(fields[4], t.weekday)
  }

  /** From the text to the minute: a rule matches exactly what its five fields select. */
  lemma MatchesText(fields: seq<string>, rule: Rule, t: Reading)
    requires Parses(fields, rule) && OnClock(t)
    ensures Matches(rule, t) <==>
      && Selects(fields[0], LIMITS[0], t.minute) && Selects(fields[1], LIMITS[1], t.hour)
      && Selects(fields[3], LIMITS[3], t.month) && DaySelected(fields, t)
  {
    InMask(fields[0], LIMITS[0], rule.minutes, t.minute);
    InMask(fields[1], LIMITS[1], rule.hours, t.hour);
    InMask(fields[2], LIMITS[2], rule.days, t.day);
    InMask(fields[3], LIMITS[3], rule.months, t.month);
    InMask(fields[4], LIMITS[4], rule.weekdays, t.weekday);
    InMask(fields[4], LIMITS[4], rule.weekdays, 7);
    hide Denotes, Selects, Wild;
  }

  lemma InMask(text: string, bounds: Bounds, mask: Mask, n: int)
    requires Denotes(text, bounds, mask) && bounds.minimum <= n <= bounds.maximum
    ensures n in mask <==> Selects(text, bounds, n)
  {
  }

  /** A text without commas is one item. */
  lemma OneItem(text: string, bounds: Bounds, n: int)
    requires bounds.Valid() && ',' !in text
    ensures Accepted(text, bounds) <==> Item(text, bounds).Some?
    ensures Selects(text, bounds, n) <==> Item(text, bounds).Some? && Item(text, bounds).value.Selects(n)
  {
    assert Join([text], ',') == text;
    SplitOfJoin([text], ',');
  }

  /** A list selects what its items select. */
  lemma ListSelects(items: seq<string>, bounds: Bounds, n: int)
    requires bounds.Valid() && |items| >= 1 && forall i | 0 <= i < |items| :: ',' !in items[i]
    ensures Accepted(Join(items, ','), bounds) <==> forall i | 0 <= i < |items| :: Accepted(items[i], bounds)
    ensures Accepted(Join(items, ','), bounds) ==>
      (Selects(Join(items, ','), bounds, n) <==> exists i | 0 <= i < |items| :: Selects(items[i], bounds, n))
  {
    hide Item;
    SplitOfJoin(items, ',');
    forall i | 0 <= i < |items|
      ensures Accepted(items[i], bounds) <==> Item(items[i], bounds).Some?
      ensures Selects(items[i], bounds, n) <==> Item(items[i], bounds).Some? && Item(items[i], bounds).value.Selects(n)
    {
      OneItem(items[i], bounds, n);
    }
    hide Accepted, Selects;
    ListItems(items, bounds, n);
  }

  lemma ListItems(items: seq<string>, bounds: Bounds, n: int)
    requires bounds.Valid()
    ensures WellFormed(items, bounds) <==> forall i | 0 <= i < |items| :: Item(items[i], bounds).Some?
    ensures WellFormed(items, bounds) ==>
      (Selected(items, bounds, n) <==> exists i | 0 <= i < |items| :: Item(items[i], bounds).value.Selects(n))
  {
    hide Item;
    if WellFormed(items, bounds) {
      assert forall i | 0 <= i < |items| :: items[i] in items;
    }
  }

  /** A bare star selects every number of its field. */
  lemma StarSelectsAll(bounds: Bounds, n: int)
    requires bounds.Valid() && bounds.minimum <= n <= bounds.maximum
    ensures Selects("*", bounds, n)
  {
    OneItem("*", bounds, n);
    assert Item("*", bounds) == Some(Range(bounds.minimum, bounds.maximum, 1));
  }

  /** A star with a step selects every step-th number from the field's least on. */
  lemma SteppedStarSelects(bounds: Bounds, step: nat, n: int)
    requires bounds.Valid() && 1 <= step <= MAX_STEP
    ensures Selects("*/" + Decimal(step), bounds, n) <==>
        bounds.minimum <= n <= bounds.maximum && (n - bounds.minimum) % step == 0
  {
    var text := "*/" + Decimal(step);
    DecimalNumber(step);
    DigitsOnly(Decimal(step));
    hide Decimal, Digits, Number;
    CutOfJoin("*", '/', Some(Decimal(step)));
    assert text == "*" + ['/'] + Decimal(step);
    OneItem(text, bounds, n);
    assert Item(text, bounds) == Some(Range(bounds.minimum, bounds.maximum, step));
  }

  lemma DigitsOnly(text: string)
    requires Digits(text)
    ensures ',' !in text && '/' !in text
  {
  }

  /** Where one day field is a bare star the other alone decides. */
  lemma BareStarDropsOut(fields: seq<string>, t: Reading)
    requires |fields| == 5 && OnClock(t)
    ensures fields[2] == "*" ==> (DaySelected(fields, t) <==> SelectsWeekday(fields[4], t.weekday))
    ensures fields[4] == "*" ==> (DaySelected(fields, t) <==> Selects(fields[2], LIMITS[2], t.day))
  {
    LimitsValid();
    StarSelectsAll(LIMITS[2], t.day);
    StarSelectsAll(LIMITS[4], t.weekday);
    hide Selects;
  }

  /** A stepped star does not drop out: it still restricts, and the other field too. */
  lemma SteppedStarRestricts(fields: seq<string>, step: nat, t: Reading)
    requires |fields| == 5 && OnClock(t) && 1 <= step <= MAX_STEP
    ensures fields[2] == "*/" + Decimal(step) ==>
      (DaySelected(fields, t) <==> (t.day - 1) % step == 0 && SelectsWeekday(fields[4], t.weekday))
    ensures fields[4] == "*/" + Decimal(step) ==>
      (DaySelected(fields, t) <==> Selects(fields[2], LIMITS[2], t.day) && t.weekday % step == 0)
  {
    hide Selects, SelectsWeekday, Decimal, Wild;
    LimitsValid();
    SteppedStarWild(step);
    if fields[2] == "*/" + Decimal(step) {
      SteppedStarSelects(LIMITS[2], step, t.day);
    }
    if fields[4] == "*/" + Decimal(step) {
      SteppedStarWeekday(step, t.weekday);
    }
  }

  lemma SteppedStarWeekday(step: nat, weekday: int)
    requires 1 <= step <= MAX_STEP && 0 <= weekday <= 6
    ensures SelectsWeekday("*/" + Decimal(step), weekday) <==> weekday % step == 0
  {
    hide Selects, Decimal;
    LimitsValid();
    SteppedStarSelects(LIMITS[4], step, weekday);
    assert weekday - LIMITS[4].minimum == weekday;
    Remainder(0, 0, step);
    assert weekday == 0 ==> weekday % step == 0;
  }

  lemma SteppedStarWild(step: nat)
    ensures Wild("*/" + Decimal(step))
  {
  }

  lemma SundayTwice(rule: Rule, t: Reading)
    requires OnClock(t) && (0 in rule.weekdays || 7 in rule.weekdays)
    ensures Matches(rule, t) == Matches(rule.(weekdays := rule.weekdays + {0, 7}), t)
  {
  }

  // ---------------------------------------------------------- the next check

  const MINUTE := 60_000_000_000

  /** schedule.next for a calendar rule: the start of the following minute. */
  function NextMinute(now: int): (next: int)
    ensures now < next <= now + MINUTE && next % MINUTE == 0 && next / MINUTE == now / MINUTE + 1
  {
    (now / MINUTE + 1) * MINUTE
  }

  /** scheduleDue for an interval: the next point of the cadence after `now`. */
  function NextPoint(due: int, period: int, now: int): (next: int)
    requires 1 <= period && due <= now
    ensures now < next <= now + period
  {
    now + (period - (now - due) % period)
  }

  /** How many points of the cadence have passed since `due`, counting it. */
  ghost function Passed(due: int, period: int, now: int): (k: nat)
    requires 1 <= period && due <= now
    ensures k >= 1
  {
    (now - due) / period + 1
  }

  lemma NextPointIsLeast(due: int, period: int, now: int)
    requires 1 <= period && due <= now
    ensures NextPoint(due, period, now) == due + Passed(due, period, now) * period
    ensures forall k: int :: now < due + k * period ==> Passed(due, period, now) <= k
  {
    var q := (now - due) / period;
    assert now - due == q * period + (now - due) % period;
    assert (q + 1) * period == q * period + period;
    forall k: int | now < due + k * period ensures q + 1 <= k {
      Apart(k - q, period);
      assert (k - q) * period == k * period - q * period;
    }
  }

  /** The due time after ticks at `times`. */
  function DueAfter(due: int, period: int, times: seq<int>): int
    requires 1 <= period
    decreases |times|
  {
    if times == [] then due
    else if times[0] < due then DueAfter(due, period, times[1..])
    else DueAfter(NextPoint(due, period, times[0]), period, times[1..])
  }

  /** How many of the ticks found the schedule due. */
  function Occurrences(due: int, period: int, times: seq<int>): nat
    requires 1 <= period
    decreases |times|
  {
    if times == [] then 0
    else if times[0] < due then Occurrences(due, period, times[1..])
    else 1 + Occurrences(NextPoint(due, period, times[0]), period, times[1..])
  }

  /** Whatever the ticks and however many points they miss, the due time stays on
      the installed cadence, and each point that passes yields at most one occurrence. */
  lemma {:induction false} CadenceKept(due: int, period: int, times: seq<int>) returns (k: nat)
    requires 1 <= period
    ensures DueAfter(due, period, times) == due + k * period && Occurrences(due, period, times) <= k
    ensures forall t <- times :: t < DueAfter(due, period, times)
    decreases |times|
  {
    if times == [] {
      k := 0;
    } else if times[0] < due {
      k := CadenceKept(due, period, times[1..]);
      assert k * period >= 0;
      assert forall t <- times :: t == times[0] || t in times[1..];
    } else {
      var next := NextPoint(due, period, times[0]);
      NextPointIsLeast(due, period, times[0]);
      var rest := CadenceKept(next, period, times[1..]);
      k := Passed(due, period, times[0]) + rest;
      assert k * period == Passed(due, period, times[0]) * period + rest * period && rest * period >= 0;
      assert forall t <- times :: t == times[0] || t in times[1..];
    }
  }

  /** The instants at which a calendar rule is compared with the clock. */
  function Checks(due: int, times: seq<int>): seq<int>
    decreases |times|
  {
    if times == [] then []
    else if times[0] < due then Checks(due, times[1..])
    else [times[0]] + Checks(NextMinute(times[0]), times[1..])
  }

  lemma {:induction false} ChecksLater(due: int, times: seq<int>, i: nat)
    requires i < |Checks(due, times)|
    ensures due <= Checks(due, times)[i]
    decreases |times|
  {
    if times[0] < due {
      ChecksLater(due, times[1..], i);
    } else if i > 0 {
      ChecksLater(NextMinute(times[0]), times[1..], i - 1);
    }
  }

  /** No calendar minute is checked twice. */
  lemma {:induction false} MinutesCheckedOnce(due: int, times: seq<int>, i: nat, j: nat)
    requires i < j < |Checks(due, times)|
    ensures Checks(due, times)[i] / MINUTE < Checks(due, times)[j] / MINUTE
    decreases |times|
  {
    if times[0] < due {
      MinutesCheckedOnce(due, times[1..], i, j);
    } else if i > 0 {
      MinutesCheckedOnce(NextMinute(times[0]), times[1..], i - 1, j - 1);
    } else {
      ChecksLater(NextMinute(times[0]), times[1..], j - 1);
    }
  }
}
