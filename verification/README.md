# ooth: the supervisor's protocols, modelled and proved

ooth supervises services: it starts their worker processes, runs hooks around them,
reloads their configuration, grows and shrinks their pools, and shuts everything down in
the order of their dependencies. Almost all of that is one event loop over the state of
`manager` in `src/main.go`. This project models the loop, the two concurrent protocols
beside it, and the algorithms it relies on, and proves what they promise over whole runs.

How the files fit together:

- `Manager.dfy` is the event loop's object (module `Supervisor`): its methods change its
  tables step by step, in any order of the maps, and are proved against the functions of
  `ManagerSteps`. `ActionBoard` holds the hooks and checks, `ManagerState` the records.
- `ManagerInvariant`, `ManagerSafety`, `ManagerHistory`, `ManagerOperations`,
  `ManagerTable` and `ManagerReload` prove what every operation keeps; `ManagerRuns` and
  `ManagerTheorems` what holds in and between the states of every run.
- `ManagerTick` and `ManagerApply` tell a tick and a reload exactly, `ManagerStarts` says
  when a process may start, `ManagerPending` what waits for a hook.
- `ManagerPressure` ties the pressure windows to the workers and to the time that passes.
- `ManagerShutdown` defines what a shutdown has left to do, and `ManagerStopping` proves
  that every fair run of the stopping loop ends.
- `Pressure`, `Schedule`, `Dependencies`, `Activation`, `Glob`, `EventLine` (with `Text`)
  are the algorithms; `Epoll*` the Windows emulation of epoll; `ReaperSteps` and
  `ProcessOwner` the reaping of orphans on Linux.

Assumptions about the environment are part of the contracts: an invoked action answers
once; a process speaks only between its start and its exit, except for a late probe; the
kernel completes each submitted poll request once; time read by the loop does not run
backwards.

Some results differ from what one would expect at first: a cron day field such as `*/2`
counts as a wildcard and still restricts, so both day fields must match
(`Schedule.SteppedStarRestricts`); an epoll MOD whose poll request the kernel refuses
reports an error but has changed the interest all the same (`EpollTheorems.ControlRefines`).

## Model

| member | source | states |
|---|---|---|
| `ActionBoard.ReachSound` | src/main.go:1819-1865 | reaching a phase invokes no run twice at a time, no start or stop hook a second time and no readiness check after its success, and keeps the task count equal to the results outstanding |
| `ActionBoard.CancelSound` | src/main.go:1788-1815 | cancelling keeps those counters, and no last hook is ever cancelled |
| `ActionBoard.ReachLater` | src/main.go:1819-1865 | reaching a phase only adds runs for phases that were not begun; a cancelled run is not invoked and its failures are not counted |
| `ActionBoard.PassedStays` | src/main.go:1852-1864 | a start, readiness or stop phase that let its scope pass goes on letting it pass, whatever is reached, cancelled or answered later |
| `Supervisor.Manager.Phase` | src/main.go:1819-1865 | opens the phase at its first visit, invokes exactly the runs that are due, in any order, and answers whether every awaited run lets it pass |
| `Supervisor.Manager.Cancel` | src/main.go:1788-1815 | exactly the runs of the scope and the given events become cancelled |
| `Supervisor.Manager.ActionResult` | src/main.go:1867-1902 | records the result; exactly an uncancelled awaited restart failure that reaches its threshold stops the worker, or every active member of the generation in some order, and the scope no longer counts afterwards |
| `Supervisor.Manager.LifecycleExited` | src/main.go:1909-1927 | cancels stop hooks, reaches the last hooks of the worker and, once every member has exited, of the app, and removes the worker from all three indexes exactly when they passed |
| `Supervisor.Manager.LifecycleStopping` | src/main.go:1928-1943 | reaches the stop hooks of the worker, and of the app when its generation retires; sends one stop when they passed or stop_timeout is over |
| `Supervisor.Manager.LifecycleActive` | src/main.go:1944-1964 | publishes readiness exactly when the base, start, readiness and health checks and all dependencies allow it |
| `Supervisor.Manager.DependenciesReady` | src/main.go:1967-1989 | true exactly when every dependency that counts has an active started worker that meets its condition; a parallel one counts only for readiness |
| `Supervisor.Manager.StopUnobserved` | src/main.go:2593-2639 | the whole effect of a stop: nothing for a retiring process but the failure mark; else it retires, its checks and perhaps its generation's end, its service is charged if it failed, and its lifecycle goes on |
| `Supervisor.Manager.Stop` | src/main.go:2593-2624 | the same, and afterwards the window of the service is that of an observation of the stopped state: it shows the occupancy that is left |
| `Supervisor.Manager.Spawn` | src/main.go:2034-2063 | joins the current generation unless that retires or the app is scheduled, runs the start hooks, then creates the process or leaves no trace of it; says which |
| `Supervisor.Manager.StartPending` | src/main.go:2900-2914 | a reservation whose hooks have passed is created, or stopped as failed if the system refuses |
| `ManagerOperations.LifecycleLeads` | src/main.go:1904-1965 | a lifecycle visit keeps the whole invariant and moves every process, generation and run only forward |
| `ManagerOperations.StopLeads` | src/main.go:2593-2639 | so does a stop |
| `ManagerOperations.SpawnLeads` | src/main.go:2034-2063 | so does a spawn, after its reservation |
| `ManagerOperations.ProcessExitLeads` | src/main.go:2672-2704 | so does an exit |
| `ManagerRuns.RunKeepsGood` | src/main.go:2303-2418 | every legal sequence of the loop's operations keeps the invariant, and its states are ordered: nothing that only moves forward ever moves back |
| `ManagerTheorems.GenerationLifecycle` | src/main.go:1713-1735 | in every reachable state a generation is retiring exactly when no member is active; its stop hooks follow that, its last hooks the exit of every member |
| `ManagerTheorems.GenerationNeverRevives` | src/main.go:2034-2063 | a retiring generation never gains a member, begins no further check and invokes none again |
| `ManagerTheorems.WorkerNeverRevives` | src/main.go:1788-1803 | the same for a worker that stopped or exited |
| `ManagerTheorems.ActionsOnce` | src/main.go:1840-1852 | in every reachable state no binding has two invocations in flight, a start or stop hook has had at most one, and the task counter equals the number of results outstanding |
| `ManagerTheorems.NothingOutstanding` | src/main.go:2363-2365 | when the task counter is zero nothing runs |
| `ManagerTheorems.NeverInvokedAgain` | src/main.go:1840-1880 | a cancelled run and a readiness check that succeeded are never invoked again, and a cancelled run is never counted |
| `ManagerTheorems.ProcessOnce` | src/main.go:1991-2017 | each process object is created, stopped, killed and charged at most once, and what was never created is neither stopped nor killed |
| `ManagerTheorems.ProcessForward` | src/main.go:1991-2017 | pending, stopping, exited, stopSent and killed only move forward over any run, and a process that left does not return |
| `ManagerTheorems.HooksInOrder` | src/main.go:1904-1965 | no process runs before its start hooks passed, is ready before its post-start hooks and readiness checks passed, or leaves before its last hooks passed |
| `ManagerTheorems.IndexesAgree` | src/main.go:2034-2063 | every worker is listed by its own service and generation, and an active one runs the configuration installed under its name |
| `ManagerTheorems.IndexesHoldWorkersOnly` | src/main.go:1921-1925 | a service lists only workers, and only its own |
| `ManagerTheorems.PoolBounded` | src/main.go:2927-2948 | the active workers of every service never exceed max_workers |
| `ManagerTheorems.OccurrenceFindsNobody` | src/main.go:957-987 | while an occurrence of a non-overlapping app is noted, no unfinished execution of that name exists |
| `ManagerTheorems.NeverTwoExecutionsFromStart` | src/main.go:2510-2543 | an app that is always scheduled without overlap never has two unfinished executions, whatever is reloaded, removed and added again |
| `ManagerTheorems.IdentifiersNotReused` | src/main.go:2447-2486 | a listener identifier that was handed out and closed is never open again |
| `ManagerTheorems.EventsStayWithTheirApp` | src/main.go:2651-2655 | a queued listener event reaches the app that the identifier was opened for, or nobody |
| `ManagerTheorems.ListenersBijective` | src/main.go:2520-2543 | identifiers and the services that own them determine each other |
| `ManagerTheorems.IdleSinceIsSet` | src/main.go:2736-2762 | a telemetry worker without requests has an idle time, and no request was in progress after it |
| `ManagerTheorems.RequestPaired` | src/main.go:2741-2760 | a request that starts and ends leaves the whole state as it was but for the times at which the worker was last busy and became idle |
| `ManagerTheorems.RequestUnpaired` | src/main.go:2741-2760 | a request that starts twice, or ends without having started, stops its worker as failed |
| `ManagerTheorems.BackoffDoubles` | src/main.go:2765-2769 | a first failure delays the next start by 250 ms, each further one twice as long as the one before, up to 32 s |
| `Supervisor.Manager.Tick` | src/main.go:2771-2978 | a complete account of one tick: every worker inspected in some order; then, when stopping, the shutdown scan, else due occurrences noted, demand followed, and each service given exactly one turn; afterwards no stopping worker is past its deadline alive and unkilled, every followed service's window shows its occupancy again, and whatever grew under pressure had reached its threshold |
| `Supervisor.Manager.TickWorkers` | src/main.go:2783-2833 | after the loop no active worker is past a time limit and no stopping one outlives stop_timeout unkilled |
| `ManagerTick.InspectInTime` | src/main.go:2783-2833 | the visit of one worker leaves it within its limits, or stopped, or killed |
| `Supervisor.Manager.ExpireRequests` | src/main.go:2822-2829 | any overdue request stops the worker as failed, once |
| `Supervisor.Manager.ShutdownScan` | src/main.go:2834-2848 | a worker is stopped only when no worker left depends on its service; if none left and none is retiring, some worker is stopped now |
| `ManagerTick.NotWedged` | src/main.go:2834-2848 | workers that are all depended upon cannot all be active, because the installed dependencies are acyclic |
| `Supervisor.Manager.FollowDemand` | src/main.go:2858-2888 | each scheduled service notes its occurrence, and the wanted and required sets are exactly those that the demanded services reach |
| `Supervisor.Manager.ScheduleDue` | src/main.go:957-987 | advances the due time and notes an occurrence exactly when the plan is due, matches, and fewer than the limit are unfinished |
| `ManagerTick.NotedDue` | src/main.go:957-987 | an interval's due time stays on its cadence and a calendar's moves to the next minute |
| `Supervisor.Manager.TickService` | src/main.go:2890-2976 | the turn of one service, told exactly: lost dependencies stop its workers; else its reservations start, then its due execution, or what its pool needs; its window shows its occupancy afterwards and no other window changes |
| `Supervisor.Manager.StartReserved` | src/main.go:2900-2914 | every reservation is tried; one that still counts afterwards waits for a start hook |
| `Supervisor.Manager.Grow` | src/main.go:2925-2948 | starts at most one worker, exactly under the growth rule, and delays after a refused start |
| `Supervisor.Manager.RetireIdle` | src/main.go:2957-2976 | only ready and idle workers retire, never below the floor, and above the floor no idle one is left |
| `ManagerTick.IdleMeansQuiet` | src/main.go:2965-2970 | a telemetry worker retired as idle had no request in progress for the last idle_timeout |
| `Supervisor.Manager.TickPool` | src/main.go:2925-2976 | growth, demand and retirement of a pool; unless measured resources block it, pressure asks for growth exactly if the window is full and the occupancy of the states since it began averaged at least scale_at |
| `ManagerStarts.TickStarts` | src/main.go:2891-2948 | whatever process a tick reserves or creates, it does so in the round of its own service while every dependency of that service is ready |
| `ManagerStarts.ScheduledStartFindsRoom` | src/main.go:2916-2924 | an execution starts only when fewer than the limit are unfinished, and none at all without overlap, however the app was configured before |
| `ManagerStarts.MessagesStartNothing` | src/main.go:2641-2763 | no message reserves or creates a process |
| `ManagerStarts.StoppingStartsNothing` | src/main.go:2834-2850 | no stopping tick does |
| `Supervisor.Manager.Handle` | src/main.go:2641-2763 | what every message does, case by case; messages about processes that left are ignored; after any other one about a process its service has just been observed, and every followed service's window still shows its occupancy |
| `Supervisor.Manager.ProcessExit` | src/main.go:2672-2704 | an unexpected exit is charged to the service; the generation retires with its last active member |
| `Supervisor.Manager.Handshake` | src/main.go:2714-2727 | records telemetry and idleness, and stops an event-mode worker without a handshake |
| `Supervisor.Manager.ListenersReadable` | src/main.go:2646-2665 | exactly the services whose current listener reported get a demand |
| `Supervisor.Manager.Apply` | src/main.go:2435-2547 | on failure nothing but used identifiers has changed; on success the services are the snapshot, unchanged ones and their workers are untouched, listeners are reused where the address stays, changed services begin afresh and inherit only draining workers |
| `Supervisor.Manager.OpenListeners` | src/main.go:2447-2486 | stages exactly the listeners that the snapshot needs anew |
| `Supervisor.Manager.CloseStaged` | src/main.go:2472-2486 | a rejected snapshot leaves no listener open |
| `Supervisor.Manager.TrimServices` | src/main.go:2505-2519 | changed services stop all their workers and are forgotten if gone or listening elsewhere; the others are left alone |
| `Supervisor.Manager.InstallServices` | src/main.go:2520-2543 | every changed or new name gets a fresh service object on its reused or staged listener |
| `ManagerApply.ApplyDone` | src/main.go:2435-2547 | the three steps together make the table the snapshot, with no open socket outside it |
| `ManagerReload.InstallKeepsGood` | src/main.go:2520-2543 | replacing a service keeps the invariant, the pool bounds and the reserved places |
| `ManagerReload.ReplaceExecutions` | src/main.go:2520-2543 | a reload loses no execution of any name |
| `Supervisor.Manager.FilesChanged` | src/main.go:2398-2403 | exactly the services whose configuration is still the watched one stop all their workers |
| `Supervisor.Manager.Restart` | src/main.go:2420-2433 | stops every worker and clears the delay exactly if one was not yet retiring |
| `Supervisor.Manager.Shutdown` | src/main.go:2583-2591 | every listener closes, nothing else changes before the first stopping tick |
| `ManagerStopping.TickNotRisen` | src/main.go:2834-2848 | no stopping tick raises the measure of what a shutdown has left to do |
| `ManagerStopping.TickFalls` | src/main.go:2783-2848 | with no answer owed, a stopping tick lowers it as soon as a worker has exited, or is past its deadline and not killed, or all workers are active |
| `ManagerStopping.HandledLeads` | src/main.go:2641-2763 | whatever message a stopping loop handles keeps the invariant and moves everything forward, so the measure does not rise |
| `ManagerStopping.AnswerHandledFalls` | src/main.go:1867-1902 | an answer owed to a scope that no longer counts lowers it, success or failure |
| `ManagerStopping.ExitHandledFalls` | src/main.go:2672-2704 | so does every exit of a worker |
| `ManagerStopping.FairRoundFalls` | src/main.go:2361-2417 | any round in which an owed answer, the exit of a killed process and a tick after the running deadlines come, with anything in between, lowers it |
| `ManagerStopping.ShutdownEnds` | src/main.go:2361-2417 | every run of the stopping loop cut into fair rounds reaches zero workers and zero action tasks within as many rounds as its first state's rank |
| `ManagerStopping.OverStays` | src/main.go:2363-2365 | a shutdown that is over stays over |
| `ManagerShutdown.ShutdownProgress` | src/main.go:2834-2848 | a shutdown that is not over always has a step that lowers the measure |
| `ManagerShutdown.ShutdownCompletes` | src/main.go:2361-2417 | from every state of a run some sequence of owed steps ends it |
| `Supervisor.Manager.DoneMeansOver` | src/main.go:2363-2365 | the loop's exit condition is exactly the end of a shutdown |
| `Supervisor.Manager.ObservePressure` | src/main.go:2246-2270 | the new window integrates the step before and shows the present occupancy of exactly this service; a worker that cannot report ends it |
| `Pressure.Survey` | src/main.go:2247-2262 | the measurement over the workers in any order, each capped by the concurrency |
| `ManagerPressure.SurveyReads` | src/main.go:2247-2262 | in whatever order the loop takes the workers, it reads the number of unretired ones and the sum of their capped requests |
| `Supervisor.Manager.Press` | src/main.go:2925-2946 | unless measured resources block it, asks for another worker exactly if the window is full and the occupancy of the states since it began averaged at least scale_at; what it grants rests on a decision of its own |
| `Supervisor.Manager.WindowMeasures` | src/main.go:2238-2270 | between any two turns of a running loop the window of every unscheduled service is empty exactly if its occupancy cannot be read; else it shows the present number of workers and level, and its area is the integral of the levels of the states the loop was in since the window began, at most the whole capacity |
| `ManagerPressure.ChangeRestarts` | src/main.go:2264-2266 | whenever time passed with another number of workers, or with one that could not report, the window began after that |
| `Supervisor.Manager.Wake` | src/main.go:2404-2417 | time passes in the state the last turn left, and keeps every window the integral |
| `Pressure.WindowsTile` | src/main.go:2264-2279 | windows follow each other without overlap: each began at the evaluation of a full one, or at an observation that found another number of workers or none before, and has gone on since |
| `ManagerPressure.WindowsTile` | src/main.go:2264-2279 | the same of every window that the manager holds |
| `ManagerPressure.NeverAboveWhole` | src/main.go:2276-2278 | no average exceeds the whole capacity: a threshold above 100 percent is never reached |
| `Pressure.AreaIsIntegral` | src/main.go:2246-2270 | over every sequence of observations and evaluations the area is the integral of the levels observed since the window began |
| `ManagerPressure.PressuresApart` | src/main.go:2925-2948 | two growths of one service under pressure lie at least a window apart, whatever happens between them |
| `Dependencies.ValidateDependencies` | src/main.go:1129-1161 | for any map order: no error exactly when all dependencies exist, none is scheduled and the graph is acyclic; an error names a real fault |
| `Dependencies.SoundIffRanked` | src/main.go:1129-1161 | that is the case exactly when the names are known and continuous and a topological rank exists |
| `Activation.Activate` | src/main.go:2860-2876 | the recursion adds only what its name needs, and follows all of it |
| `Activation.ActivateRoot` | src/main.go:2858-2888 | activating the demanded roots one by one computes exactly the services they reach and exactly their dependencies |
| `Schedule.CronField` | src/main.go:874-929 | accepts exactly well-formed lists, and the mask is the non-empty union of their ranges and steps |
| `Schedule.ParseRule` | src/main.go:855-871 | accepts exactly five acceptable fields |
| `Schedule.ParseSchedule` | src/main.go:831-872 | empty, positive duration, alias or five fields, and nothing else |
| `Schedule.MatchesText` | src/main.go:931-945 | from text to minute: a rule matches exactly when its fields select the minute, hour and month and the day fields agree as alternatives, or both when one begins with a star |
| `Schedule.ListSelects` | src/main.go:887-928 | a comma list selects exactly what its items select |
| `Schedule.BareStarDropsOut` | src/main.go:936-943 | where one day field is a bare star the other alone decides |
| `Schedule.SteppedStarRestricts` | src/main.go:869-871 | a stepped star still restricts: both day fields have to match |
| `Schedule.SundayTwice` | src/main.go:937-939 | Sunday may be written 0 or 7 |
| `Schedule.NextPointIsLeast` | src/main.go:957-970 | the next due time is the least point of the cadence after now |
| `Schedule.CadenceKept` | src/main.go:957-970 | over any ticks the due time stays on the installed cadence and each passed point yields at most one occurrence |
| `ManagerTheorems.DueOnCadence` | src/main.go:957-970 | in every state of every run the due time of an interval is a point of the cadence that began when its service was installed, and that of a calendar a full minute |
| `Schedule.MinutesCheckedOnce` | src/main.go:947-987 | no calendar minute is checked twice |
| `Glob.MatchGlob` | src/main.go:1256-1280 | the loop and its recursion decide the match relation |
| `Glob.MatchIffSegmentable` | src/main.go:1256-1280 | a match is a segmentation of the path, one part for each component |
| `Glob.Matches` | src/main.go:796-815 | a rule restarts exactly for its events on a path that the glob, or for structural changes a parent of it, matches |
| `Glob.DirectoriesNoticed` | src/main.go:799-806 | a rule that watches a file restarts when any directory above it but the root is created, removed or renamed, exactly if one of these changes is among the rule's events |
| `Glob.OtherChangesExact` | src/main.go:796-815 | any other change restarts exactly if it is among the rule's events and the glob itself matches the path |
| `EventLine.ParseFields` | src/main.go:1608-1621 | the loop computes the field map, or rejects |
| `EventLine.CollectMeans` | src/main.go:1608-1621 | it rejects exactly malformed or repeated fields, and holds exactly what was written |
| `EventLine.RoundTrip` | src/main.go:1557-1606 | for every well-formed event, reading what was written gives it back |
| `EventLine.AcceptedIsWellFormed` | src/main.go:1572-1606 | an accepted line has exactly the fields of its type, each once, and says a well-formed event |
| `EventLine.OrderIndependent` | src/main.go:1572-1621 | the order of the tokens does not matter |
| `EventLine.DuplicateRejected` | src/main.go:1608-1621 | a repeated key is always rejected |
| `EpollTheorems.EventIsFresh` | golang_patch/patches/epoll_windows.txt:239-297 | a delivered event answers a request of the socket's current registration submitted after its last ADD or MOD, carries its data, and shows only what it asked for or an error or hang-up |
| `EpollTheorems.EventsAnswer` | golang_patch/patches/epoll_windows.txt:239-297 | over any run every event carries the data and interest of the registration as it was when the event was dequeued, and of its current setting if that has not changed |
| `EpollTheorems.EventsApart` | golang_patch/patches/epoll_windows.txt:288-297 | over any run a oneshot setting yields one event, any other at most one per wait |
| `EpollTheorems.ControlRefines` | golang_patch/patches/epoll_windows.txt:187-237 | every control call does to the table of interests what its name says, or is refused and does nothing |
| `EpollTheorems.CompleteRefines` | golang_patch/patches/epoll_windows.txt:239-297 | a completion delivers only what is armed, disarms oneshot, and changes nothing else in the table |
| `EpollTheorems.RearmAllTable` | golang_patch/patches/epoll_windows.txt:315-323 | the loop at the start of a wait arms nothing that was disarmed and forgets nothing |
| `EpollTheorems.PendingBijective` | golang_patch/patches/epoll_windows.txt:143-185 | requests and registrations point at each other, at most one each |
| `EpollTheorems.NothingLost` | golang_patch/patches/epoll_windows.txt:143-323 | while the kernel grants requests, every armed registration has one or is queued for the next wait, and a disarmed one has none |
| `EpollTheorems.ClosedCompletes` | golang_patch/patches/epoll_windows.txt:239-250 | on a closed port a completion only takes its request away |
| `EpollTheorems.ClosedForGood` | golang_patch/patches/epoll_windows.txt:373-417 | after a close no request is submitted and no event delivered |
| `Epoll.Poller.Control` | golang_patch/patches/epoll_windows.txt:187-237 | the new state and the error of every control call |
| `Epoll.Poller.Complete` | golang_patch/patches/epoll_windows.txt:239-297 | what becomes of a finished request and which event it yields |
| `Epoll.Poller.Wait` | golang_patch/patches/epoll_windows.txt:299-371 | the events returned are those delivered in this call, each justified when dequeued, no two of one setting, under any interference |
| `Epoll.Poller.Close` | golang_patch/patches/epoll_windows.txt:373-417 | the handles are released only when every request has completed, nothing is submitted meanwhile, and the loop ends |
| `ReaperSteps.RunKeeps` | src/job_linux.go:369-469 | every interleaving of starts, waits, scans, exits and adoptions keeps the invariant under reuse of process numbers |
| `ReaperSteps.StatusNotStolen` | src/job_linux.go:443-469 | only its own wait takes a command's child away |
| `ReaperSteps.LateWaitKeepsNewer` | src/job_linux.go:410-420 | a late wait never removes the entry of a newer command with the same number |
| `ReaperSteps.ZombieNotLost` | src/job_linux.go:353-365 | a dead orphan always has a signal queued, a scan due or coming to it, or a wait that will drop the entry hiding it |
| `ReaperSteps.QuietMeansCollected` | src/job_linux.go:443-469 | when nothing of that is left, no dead orphan is |
| `ReaperSteps.LookCollects` | src/job_linux.go:455-468 | a scan takes every dead orphan it meets unless a stale entry hides it |
| `ReaperSteps.StaleEntryRescanned` | src/job_linux.go:410-420 | the wait that drops a stale entry scans the number again |
| `ProcessOwner.Owner.Start` | src/job_linux.go:369-408 | fork and registration under one lock: the new child is managed when it ends |
| `ProcessOwner.Owner.Wait` | src/job_linux.go:410-420 | removes its own entry only, then collects every child that was dead and unmanaged, and no managed one |
| `ProcessOwner.Owner.HandleSignal` | src/job_linux.go:353-365 | takes one queued signal and collects every child that was dead and unmanaged at that moment, and no managed one |
| `ProcessOwner.Owner.Reap` | src/job_linux.go:443-469 | takes every child that was dead and unmanaged when the scan began, and never a managed one |
| `ProcessOwner.Owner.Close` | src/job_linux.go:422-441 | signals stop, the goroutine drains, and a last scan leaves nothing that was dead and unmanaged before |

## Left out

- Objects are records in tables under identifiers; aliasing of pointers is not modelled. A replaced service object is dropped from the table because nothing refers to it any more.
- Supervisor.Manager.ListenersReadable: does not model `rearmAt`, the time at which a listener that reported is armed again. Only which listeners are open and whom their events reach is modelled.
- Supervisor.Manager.Tick: does not model the rearm loop at its head with the MOD calls it makes, nor the resource samples that it compares with their limits.
- Resource samples and limits: whether the measured CPU and memory block the growth of pools is a parameter of a tick.
- `fatal` is set where the source sets it for listeners and the poller; a failed cleanup of a worker is not modelled, nor the shutdown that the loop starts from it, beyond what any shutdown does.
- The loop's select: its cases are the methods Tick, Handle, Apply, FilesChanged, Shutdown and Wake, in any order. The retry of a rejected snapshot is one more call of Apply.
- Supervisor.Manager.Apply: socket permissions and opening a listener are yes-or-no answers; addresses are compared as opaque values.
- Schedule.ParseSchedule: what an expression means to time.ParseDuration is given. Instants are integers; time zones, daylight saving and the calendar behind a reading are not modelled, and names are folded to lower case in ASCII only.
- Glob.MatchGlob: matching one component is a parameter, paths are lists of cleaned components, and Windows volumes are not modelled.
- Occupancy, percentages and averages are reals; rounding of floating point is not modelled.
- Epoll.Poller.Wait: the deadline is an arbitrary number of rounds. EpollCreate, the native calls, padding, edge triggering and the wrap-around of a 64-bit generation are not modelled.
- ProcessOwner.Owner.Start: a failed fork is not modelled, nor the retry without a cgroup (`groupUnavailable`); the list of children that a scan reads is one snapshot.
- Action I/O, YAML, templates, the Identity of workers and passwords, cgroup paths, process creation beyond success or failure, and logging.
- EpollTheorems.NothingLost: holds while the kernel grants requests; after a refused request the registration waits for the next MOD, which EpollSteps.Armed records.
- ManagerTheorems.NeverTwoExecutionsFromStart: concerns apps that never were overlapping or unscheduled; for any other history ManagerStarts.ScheduledStartFindsRoom says what a start finds.
