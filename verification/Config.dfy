/** Validated application records: what Load hands to the manager. */
module Config {
  import opened Options
  import Schedule

  /** The six trigger names of an application's `triggers` table. */
  datatype Event = PreStart | PostStart | Readiness | Health | PreStop | PostStop {
    /** Readiness and health bindings may be invoked repeatedly. */
    predicate Periodic() {
      Readiness? || Health?
    }

    /** The triggers that retirement cancels: everything but the two stop hooks. */
    predicate Check() {
      !PreStop? && !PostStop?
    }
  }

  datatype Kind = ForApp | ForWorker

  datatype OnFailure = Log | Restart

  datatype Binding = Binding(kind: Kind, awaited: bool, interval: nat, threshold: nat, onFailure: OnFailure)

  datatype Condition = WhenStarted | WhenReady | WhenParallel

  datatype ReadyMode = OnEvent | OnStart | OnProbe

  /** An elapsed interval, or five calendar fields, or neither. */
  datatype Plan = Unscheduled | Every(period: int) | Calendar(rule: Schedule.Rule)
  {
    /** schedule.next: the first time at which an occurrence is considered. */
    function Next(now: int): (next: Option<int>)
      ensures next.Some? && (Every? ==> 0 < period) ==> now < next.value
    {
      match this
      case Unscheduled => None
      case Every(period) => Some(now + period)
      case Calendar(rule) => if rule.minutes != {} then Some(Schedule.NextMinute(now)) else None
    }
  }

  type Socket = string

  type Positive = x: int | 0 < x witness 1

  datatype App = App(
    name: string,
    dependencies: map<string, Condition>,
    triggers: map<Event, seq<Binding>>,
    plan: Plan,
    overlap: bool,
    maxExecTime: int,
    startup: bool,
    readyMode: ReadyMode,
    listen: Option<Socket>,
    minWorkers: nat,
    maxWorkers: nat,
    concurrency: Positive,
    scaleAt: real,
    scaleWindow: Positive,
    idleTimeout: int,
    startTimeout: int,
    stopTimeout: int,
    requestTimeout: int
  )
  {
    predicate Scheduled() {
      plan != Unscheduled
    }

    /** The bindings of one trigger, in configuration order. */
    function Bindings(event: Event): seq<Binding> {
      if event in triggers then triggers[event] else []
    }

    /** The most unfinished executions a scheduled app may have when it starts one. */
    function Limit(): nat {
      if overlap then maxWorkers else 1
    }

    /** What validate, validateActions and parseSchedule guarantee and the manager relies on. */
    predicate Valid() {
      && minWorkers <= maxWorkers
      && 1 <= maxWorkers
      && 0 < idleTimeout && 0 < startTimeout && 0 < stopTimeout
      && 0 <= maxExecTime && 0 <= requestTimeout
      && (plan.Every? ==> 0 < plan.period)
      && (plan.Calendar? ==> plan.rule.Selective())
      && (Scheduled() ==> listen.None? && !startup && minWorkers == 0)
      && (overlap ==> Scheduled())
      && (forall e <- triggers, b <- triggers[e] :: ValidBinding(e, b))
    }
  }

  predicate ValidBinding(event: Event, binding: Binding) {
    && 1 <= binding.threshold
    && (!event.Periodic() ==> binding.interval == 0 && binding.threshold == 1)
    && (binding.onFailure == Restart ==> binding.awaited && event.Check())
  }
}
