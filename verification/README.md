# Verified model of zDash's session machinery

zDash is a dashboard that is meant to cost nothing while nobody looks. Two coupled state machines
carry that promise, and this project models both, proves what they guarantee under every
interleaving of their goroutines, and shows where a documented guarantee has a gap:

- **the session-scoped cache** (`refresher.go`): a singleflight TTL cache with a session
  generation, a stop channel and a background loop per session, and an in-flight table that
  outlives sessions;
- **the idle gate** (`idle.go`): an atomic connection counter read outside the mutex, a live
  connection map, a grace timer, a session-cap timer, deep sleep and exit on idle;
- **their composition**: the sleep callback ends the cache's session, the wake callback opens one.

Two text components are modelled as well: the ARC kstat parser (`arc.go`) and the uptime printer
(`sysinfo.go`).

## How the model is built

`Refresher` and `IdleGate` hold the mutable state of the two source types twice: as a class whose
methods are the critical sections (and atomic updates), and as a value on which functions say what
each section does; every method is proved against its function. `CacheMachine` and `GateMachine`
turn those functions into transition systems with one step per critical section. Goroutine
positions are part of the state: a fetch is spawned, running, holding its result, past the guarded
store, past publication, past removal, past closing `done`; an accept hook is counted but not yet
awake, not yet in the live map, served, and so on. A fired timer callback may run any time later,
`Stop` does not reach it, and the gate mutex stays held across the sleep and wake callbacks. A run
is any sequence of enabled steps; `Reachable` states are those a run leads to. Fields named as
history (time stamps, event log, `handed`, `modes`) are read by no guard.

| file | contents |
|---|---|
| `Base.dfy` | options, close-only channels, weights for termination measures |
| `Refresher.dfy` | sections of `refresher.go` as functions and as the class `Cache` |
| `CacheMachine.dfy`, `CacheTheorems.dfy` | the cache under concurrency, and what it promises |
| `CacheRuns.dfy` | what one step of a caller, a fetch or a loop comes to over whole runs |
| `IdleGate.dfy` | sections of `idle.go` as functions and as the class `Gate` |
| `GateMachine.dfy`, `GateTheorems.dfy` | the gate under concurrency, its guarantees, and exactly when cap and grace fail |
| `GateRuns.dfy` | what one step of the gate comes to over whole runs: windows, forced closes, exit |
| `SessionCap.dfy` | the gate when hooks do not overlap: cap, deadline and grace hold |
| `GateDrain.dfy` | termination measure of the gate |
| `ZeroCost.dfy`, `ZeroCostTheorems.dfy` | the composition, zero idle cost, drain of the whole system |
| `Text.dfy`, `ArcStats.dfy`, `Uptime.dfy` | text helpers, kstat parser, uptime printer |

Environment assumptions: a connection is served only after its accept hook returned and reports one
close or hijack after that; `BootSleep` runs once, before any accept; HTTP requests come from served
connections; the clock never runs backwards; the final counter read of the grace callback and the
exit are one step. The composition also assumes the one `Serve` loop of `cmd/zdash/main.go:72`: the
accept hook of a connection returns before the next connection is accepted. `GateMachine` by itself
does not, so what is proved of it holds for any number of accept loops; the runs that show a leak
keep to one (`GateMachine.SeriallyReachable`).

## Where code and documentation disagree

- *"A continuously connected client is capped"* (`README.md:179`, and the comment at
  `idle.go:278-282`) does not hold under interleaving. `GateTheorems.LateScheduleLeaks` and
  `GateTheorems.EmptyTakeoverLeaks` are runs that end awake with a served connection and no timer
  left. `GateTheorems.CapExact` says exactly which steps lose the cap, and
  `SessionCap.SessionCapHolds` proves it for runs in which hooks do not overlap.
- *"last client gone for 3s"* (`README.md:152`): a delayed close hook can make the gate park the
  moment the last client leaves (`GateTheorems.ParkMayComeEarly`). `GateTheorems.TimelyExact` says
  exactly which close breaks the grace, `GateTheorems.EarlyParkExactly` from which states an early
  park can follow; every other run waits the whole grace (`GateTheorems.GraceOverRuns`), runs without
  overlapping hooks among them (`SessionCap.ParksAfterGrace`).
- *a compact "2d 3h 14m" string* (comment at `sysinfo.go:489`): the printer always appends the
  seconds as well (`Uptime.FormatShowsClock`).
- *No subprocess in deep sleep* (`README.md:174`): the session check guards the registration of a
  fetch, so a producer registered before the end may still be started after it
  (`CacheTheorems.ProducerMayStartAfterTheEnd`). `ZeroCostTheorems.ParkedProducersExactly` says that
  it can happen for exactly the fetches registered but not yet running at the park; no other producer
  is started asleep, from boot on (`ZeroCostTheorems.DeepSleepIsFree`).

## Model

| member | source | states |
|---|---|---|
| Refresher.StaleIsNotHit | refresher.go:146-161 | a refresh round asks for exactly the keys whose lookup would not be a cache hit |
| Refresher.Cache.constructor | refresher.go:78-91 | a new refresher is inactive, empty, at generation 0 and without a stop channel |
| Refresher.Cache.SetActive | refresher.go:94-121 | activation opens a fresh stop channel and spawns a loop unless already active; deactivation bumps the generation, leaves the channel closed, never closing it twice, and drops the entries |
| Refresher.Cache.Get | refresher.go:166-196 | hit, join, unknown endpoint, session over or new registered fetch, in that order, and the state each leaves; who waits, waits for the registered call |
| Refresher.Cache.StoreResult | refresher.go:208-215 | a result is stored, stamped with the current time, only under the generation its fetch started in |
| Refresher.Cache.PublishResult | refresher.go:216 | the shared call carries body and status |
| Refresher.Cache.RemoveCall | refresher.go:202-204 | the key leaves the in-flight table |
| Refresher.Cache.CloseDone | refresher.go:205 | the call's channel is closed; closing twice would panic |
| Refresher.Cache.Cancelled | refresher.go:227-234 | a cancelled waiter is answered with the snapshot, else the timeout error |
| Refresher.Cache.Scan | refresher.go:147-155 | every missing or expired key, once each, which are the keys whose lookup would miss |
| Refresher.Cache.Flush | refresher.go:239-243 | all entries are dropped and nothing else changes |
| CacheMachine.StepInv | refresher.go:93-236 | the invariant of the cache is kept by every step of every goroutine |
| CacheMachine.ReachableInv | refresher.go:93-236 | the invariant holds in every reachable state |
| CacheTheorems.Singleflight | refresher.go:173-206 | at most one fetch per key between registration and removal, it is the registered one, and a removal takes out its own call only |
| CacheTheorems.EntriesAreHistory | refresher.go:166-219 | the entry map equals the map computed from the event log: the last run that began this session and ended since the last clear; an older run never overwrites a newer one |
| CacheTheorems.CacheRefinesHistory | refresher.go:166-236 | in every reachable state a lookup, and the answer of a cancelled waiter, are what the event log alone determines |
| CacheTheorems.EndedIsEmpty | refresher.go:106-120 | with no session open nothing is cached, all fetches are of older generations, no lookup hits or starts a fetch, and it is refused exactly for a produced key not in flight |
| CacheTheorems.EndedStaysIdle | refresher.go:182-192 | over any run without an activation an ended cache stays empty and registers no fetch |
| CacheTheorems.SessionIsolation | refresher.go:209-214 | from the second session on every entry comes from a fetch registered in that session |
| CacheTheorems.SessionStartsEmpty | refresher.go:97-105 | a session opened after an earlier one starts empty, with only older fetches around |
| CacheTheorems.RunsApart | refresher.go:166-214 | two runs of a key under one generation, without a flush between, start at least its lifetime apart |
| CacheTheorems.FetchRate | refresher.go:166-214 | any window of length T starts at most floor(T/ttl)+1 runs of a key |
| CacheTheorems.RepliesAreRight | refresher.go:166-236 | judged by the event log alone, every answer ever given is: at once, a result younger than its lifetime, 404 exactly for unknown keys, or 503 with the session over and nothing fresh or in flight; by waiting, the complete result of the very fetch joined or started; on cancellation, what was stored at that moment, else 503 |
| CacheTheorems.FetchProgress | refresher.go:200-217 | over any run a fetch gets closer to closing `done` by exactly its own steps |
| CacheTheorems.WaiterRelease | refresher.go:223-226 | a waiter's fetch can always go on until `done` is closed, and then the waiter gets the complete result |
| CacheTheorems.ChannelsCloseOnce | refresher.go:108-117 | no channel is closed twice; the one open stop channel belongs to the active session and its loop is alive |
| CacheTheorems.LoopWindsDown | refresher.go:125-144 | after its stop channel closed a loop begins at most one more round, ever |
| CacheTheorems.LateProducersExactly | refresher.go:182-207 | after a session end and before the next session, a run can call the producer of a fetch exactly if that fetch was registered and not yet running |
| CacheTheorems.ProducerMayStartAfterTheEnd | refresher.go:182-207 | a reachable state in which an ended session's fetch is about to call its producer |
| CacheTheorems.JoinsOldExactly | refresher.go:173-176 | in an open session a lookup waits for an older fetch exactly if nothing fresh is stored and the run in flight did not begin in this session |
| CacheTheorems.OldFetchMayServeNewSession | refresher.go:173-176 | a reachable state in which a caller of a new session waits for an older fetch |
| CacheRuns.SettingsStay | refresher.go:78-91 | over every run a refresher keeps the lifetimes and producers it was built with |
| CacheRuns.ShippedLifetimes | refresher.go:12-22 | the shipped endpoints and their lifetimes in nanoseconds |
| CacheRuns.EnvironmentIsFree | refresher.go:94-121 | a flush or a session end is possible at any time and leaves no hit; after a session end of a cache that had one no lookup starts a fetch |
| CacheRuns.HttpGetAsks | refresher.go:166-168 | a request is taken at any time, for the key asked for and at that moment |
| CacheRuns.HttpCallerMayCancel | refresher.go:223-236 | over every run, a caller over HTTP can give up until it is answered, and then gets what was last stored for its key, else 503 |
| CacheRuns.LoopCallerWaits | refresher.go:158-159 | a caller of the background loop asks for the loop's key and never gives up |
| CacheRuns.ResultReachesWaiters | refresher.go:207-217 | what a producer returns is the result of its fetch for ever, and every caller that waited for that fetch is answered with it |
| CacheRuns.StartIsWhenCalled | refresher.go:207 | the start time the rate bound counts is when the producer was called |
| CacheRuns.DoneClosesOnce | refresher.go:205 | a fetch closes its channel while it is open and, over every run, never again; a second close would panic |
| CacheRuns.SessionStartsLoop | refresher.go:99-105 | a session that opens spawns a loop whose first round is due |
| CacheRuns.OpenTwiceIsOnce | refresher.go:98-100 | opening an open session changes nothing |
| CacheRuns.TickLeadsToScan | refresher.go:129-142 | a tick makes the next round of an open session due; the loop of a closed one ends, with or without a tick |
| CacheRuns.ScanStaysDue | refresher.go:126-142 | a due round stays due over every run until it begins |
| CacheRuns.RoundIsTheStaleKeys | refresher.go:146-156 | a round sets out for exactly the registered keys that the log says would not be a hit |
| CacheRuns.RoundAsksForAll | refresher.go:146-161 | over every run a round asks for its stale keys and no others, each can be asked for until it is, and the round ends only when each was asked for and answered |
| IdleGate.Gate.constructor | idle.go:60-77 | a new gate is awake, without connections or timers |
| IdleGate.Gate.CountNew | idle.go:147 | the counter goes up; the first connection is reported |
| IdleGate.Gate.CountGone | idle.go:154 | the counter goes down; the last connection is reported |
| IdleGate.Gate.AddLive | idle.go:150-152 | the connection enters the live map |
| IdleGate.Gate.RemoveLive | idle.go:157-159 | the connection leaves the live map |
| IdleGate.Gate.StopGrace | idle.go:179-182 | a referenced grace timer that has not fired is stopped, and the reference dropped |
| IdleGate.Gate.StopSession | idle.go:215-218 | a referenced session timer that has not fired is stopped, and the reference dropped |
| IdleGate.Gate.ArmSessionLocked | idle.go:169-173 | exactly if none is referenced and the gate is awake, a window is opened and referenced, due `maxSession` from now |
| IdleGate.Gate.Wake | idle.go:176-197 | the grace timer is stopped, the gate awake, a window referenced, a new one if there was none; the wake callback follows exactly if it slept |
| IdleGate.Gate.ScheduleSleep | idle.go:201-208 | exactly if none is referenced and the gate is awake, a grace timer is armed and referenced, due the grace from now |
| IdleGate.Gate.TrySleep | idle.go:211-224 | both timer references are dropped, the window stopped, and the gate parks exactly if awake without connections |
| IdleGate.Gate.MayExit | idle.go:229-232 | the process exits exactly if exit on idle is set and the counter is zero |
| IdleGate.Gate.RequestExitOnIdle | idle.go:127-131 | only the exit flag changes |
| IdleGate.Gate.EnterSleep | idle.go:237-253 | pending timers are cancelled and the gate sleeps; the callback follows exactly if it was awake |
| IdleGate.Gate.EndSession | idle.go:260-268 | the window reference is dropped and every live connection is taken over, once each |
| GateMachine.StepInv | idle.go:135-286 | the invariant of the gate is kept by every step of every hook and callback |
| GateTheorems.ConnectionConservation | idle.go:142-161 | the counter is the number of counted connections, a served one is in the live map or handed to a force-close, a gone one never in the map |
| GateTheorems.NoLostPark | idle.go:201-233 | awake without connections, a grace callback is armed or fired or a close hook is yet to schedule |
| GateTheorems.NoLostWake | idle.go:142-197 | asleep with a counted connection, exactly one accept hook made the 0-to-1 transition and has yet to wake the gate |
| GateTheorems.ArrivalUndoesPark | idle.go:137-233 | asleep with a counted connection, one connection is to wake the gate: over every run until its wake section, the gate stays asleep and the process does not exit, the section's turn comes, and it leaves the gate awake with a window armed |
| GateTheorems.ExitSafety | idle.go:225-232 | the process exits only if told to, in deep sleep, after a connection was accepted and with none counted |
| GateTheorems.CapExact | idle.go:163-173 | from a capped state a step leads to an uncapped one exactly if it is a grace callback or an empty session end that gives up the last window |
| GateTheorems.CapOverRuns | idle.go:163-286 | a run keeps the cap in every state, with windows due within `maxSession`, exactly if it takes no such step |
| GateTheorems.LateScheduleLeaks | idle.go:211-221 | a run that ends awake with a served connection and no timer left |
| GateTheorems.EmptyTakeoverLeaks | idle.go:260-271 | another such run |
| GateTheorems.TimelyExact | idle.go:142-208 | from a state in which no grace callback is early, a step leads to one with an early callback exactly if it closes the last connection of an awake gate while a callback of an earlier close is armed for too soon or fired |
| GateTheorems.GraceOverRuns | idle.go:142-224 | a run stays without early callbacks exactly if no close is of that kind, and then every park has waited the whole grace |
| GateTheorems.EarlyParkExactly | idle.go:201-224 | before another connection closes, the gate can park before the grace is over exactly from a state with an early callback |
| GateTheorems.ParkMayComeEarly | idle.go:201-208 | a run that parks at the very moment the last connection closes |
| GateRuns.WindowOpens | idle.go:163-197 | exactly a wake and a session end on an awake gate open a window, only if none is referenced: one, referenced, due after exactly `maxSession` |
| GateRuns.WindowLasts | idle.go:163-173 | over every run, a window fires and force-closes no earlier than `maxSession` after it was opened |
| GateRuns.GraceArmsOnce | idle.go:201-208 | a grace timer is armed exactly by a last close on an awake gate that references none, due after exactly the grace; no pending one is doubled or moved |
| GateRuns.EveryTakenIsClosed | idle.go:260-286 | over every run, a session end can close each connection it took over until it has, and goes on to re-arm only when all are closed |
| GateRuns.ExitsExactly | idle.go:225-232 | the last look of a park ends the process exactly if it was told to exit on idle and every accepted connection is counted out |
| GateRuns.OnlyParksExit | idle.go:225-232 | nothing else ends the process |
| GateRuns.FlagStays | idle.go:127-131 | being told to exit is never taken back |
| GateRuns.RequestIsHeard | idle.go:121-131 | asking for it works whenever the mutex is free: for the running session, or from the next connection on if the gate is parked |
| GateRuns.MustExit | idle.go:121-232 | told to exit while awake, wherever a run takes the process, it has exited or its next park is still ahead |
| GateRuns.CountingNeedsNoMutex | idle.go:135-161 | connections are counted in and out, and due timers fire, whoever holds the mutex |
| GateRuns.AcceptIsStamped | idle.go:142-147 | the accept time the cap counts from is when the connection was accepted |
| GateRuns.RearmIsStamped | idle.go:283-285 | the re-arm time the cap counts from moves exactly when a session end opens a window |
| SessionCap.SessionCapHolds | idle.go:163-286 | without overlapping hooks an awake gate with a connection always has its one window armed or is about to re-arm it, due at most `maxSession` after any open connection's accept or the last re-arm, and exactly `maxSession` after the one that opened it |
| SessionCap.DeadlineFixed | idle.go:163-173 | without overlapping hooks an armed deadline never moves while a connection stays |
| SessionCap.ParksAfterGrace | idle.go:201-224 | without overlapping hooks a gate parks only after the whole grace without connections |
| SessionCap.SessionEndTakesAll | idle.go:260-268 | without overlapping hooks a session end takes over every served connection |
| GateDrain.DrainLightens | idle.go:142-286 | every remaining hook, timer, callback and force-close step, the re-arm included, makes the gate lighter |
| GateDrain.DrainEndsAsleep | idle.go:142-286 | a gate that has run out of steps is asleep with no connection, live map entry or timer left |
| ZeroCost.StepInv | idle.go:295-307 | the invariant of the composition is kept by every step |
| ZeroCostTheorems.CacheFollowsGate | idle.go:295-307 | callbacks alternate starting with sleep, the generation counts sleeps and the stop channels wakes, the cache is active exactly when the gate is awake, nothing is fetched before the first wake |
| ZeroCostTheorems.DeepSleepIsFree | idle.go:295-307 | deep sleep, the boot park included, holds no entry, serves no connection and takes no request; no step taken asleep registers a fetch |
| ZeroCostTheorems.ServedInSession | idle.go:295-307 | whenever a connection is served the gate is awake and the cache active, so no client is refused with 503 for an ended session |
| ZeroCostTheorems.EntriesAreOfThisSession | refresher.go:209-214 | every entry comes from a fetch registered in the open session, the first session included |
| ZeroCostTheorems.ParkedProducersExactly | refresher.go:182-207 | a parked process can call a producer before it is woken exactly for the fetches registered and not yet running |
| ZeroCostTheorems.AsleepStartExactly | refresher.go:182-192 | asleep, a lookup would start a fetch exactly if no session was ever opened and the key is produced; nobody is there to make it |
| ZeroCostTheorems.SessionFetchBudget | refresher.go:12-22 | four minutes of a session start at most 41 runs of each fast endpoint and 5 SMART sweeps |
| ZeroCostTheorems.DrainIsFinite | idle.go:142-286 | when no further connection is accepted, however requests of open connections, cache steps and time interleave, the remaining hook, timer, callback and force-close steps are bounded |
| ZeroCostTheorems.DrainReachesRest | idle.go:142-307 | from every state after boot the system can be run to rest, or to the exit, without accepting a connection |
| ZeroCostTheorems.DrainEndsExactly | idle.go:142-307 | gate and cache can move no more, now or later, exactly if they are at rest: asleep, no connection or timer, the cache inactive and empty, no goroutine left |
| ZeroCostTheorems.DrainEndsParked | idle.go:142-307 | when the gate has run out of steps it is asleep and the cache inactive and empty, even with fetches running |
| ZeroCostTheorems.ParkedSettles | refresher.go:123-219 | a parked system takes boundedly many further cache steps, however time passes between them, and stays parked |
| ZeroCostTheorems.SettledIsGone | refresher.go:123-236 | the cache stands still exactly if every fetch is through, every caller answered, every loop gone and nothing in flight |
| ZeroCostTheorems.ExitIsReached | idle.go:121-307 | a process told to exit on idle while awake never comes to rest parked, and without further connections there is a run to its exit |
| ZeroCostTheorems.CacheMovesFreely | idle.go:295-307 | every goroutine of the cache moves in the whole system as it does alone |
| ZeroCostTheorems.GateMovesFreely | idle.go:295-307 | so does every hook and callback of the gate; exactly the wake callback opens a session, exactly the sleep callback ends one |
| ZeroCostTheorems.TimeIsShared | idle.go:295-307 | time passes for gate and cache alike |
| ZeroCostTheorems.ServeAsks | refresher.go:166-168 | exactly a served connection can make a request, at any moment, and it reaches the cache for the key asked for |
| ArcStats.ParseARCStats | arc.go:95-154 | the loop computes the counters of the data rows, later rows winning |
| ArcStats.ParseInvertsLayout | arc.go:86-151 | the documented layout parses back to the same counters, in any row order, with any rows to skip in between, a counter without a row being zero |
| ArcStats.KstatParses | arc.go:86-151 | character by character: names of letters, digits and underscores, gaps of spaces and tabs, types and values in decimal up to the 64-bit limits, odd and short lines in between, the counters parse back |
| Text.Uint64Exactly | arc.go:111 | exactly the decimals below 2^64, leading zeros allowed, are read, each as its number |
| Text.Int64Exactly | arc.go:108 | exactly the optionally signed decimals within 64 bits, leading zeros allowed, count as a type |
| Text.ParseDecimal | arc.go:111-114 | a decimal is read as its number below 2^64 and refused from there on |
| Text.SpaceExactly | arc.go:96-103 | white space, code point by code point |
| ArcStats.RowOfPrint | arc.go:103-115 | a counter row defines its name and value; short, untyped and out-of-range rows define nothing |
| ArcStats.OverflowIsSkipped | arc.go:111-114 | a value of 2^64 or more is skipped, never wrapped |
| ArcStats.KVOfPrint | arc.go:101-116 | of rows with the same name the last valid one wins |
| ArcStats.TruncatedExactly | arc.go:96-99 | parsing fails exactly if no newline stands between two characters that are not white space |
| Uptime.FormatUptime | sysinfo.go:491-511 | below one second a dash, else a text that reads back as the whole seconds |
| Uptime.FormatShowsClock | sysinfo.go:495-509 | the text is the one clock reading with h<24, m<60, s<60, leading zero units left out, words one space apart |
| Uptime.ReadInvertsFormat | sysinfo.go:491-511 | reading the text back gives the same seconds |
| Uptime.FormatInjective | sysinfo.go:491-511 | different whole seconds never print alike |

## Left out

- Subprocesses, file reads, JSON, HTTP handlers and listeners: I/O plumbing; a producer is an arbitrary result.
- Producer panics, and accepts that land between the last counter read and the exit of the process.
- Runtime tuning (GC, GOMAXPROCS, FreeOSMemory) and logging: only the position of the sleep and wake callbacks is kept.
- The 64-bit widths of the session generation and the connection counter: both are unbounded here; wrapping takes 2^63 sleeps or connections.
- The ticker period of the background loop: a tick may come at any moment, so its pacing is not modelled.
- Object identity of fetch calls, channels and timers: they are indices into tables of everything ever allocated.
- SMART parsing, the remaining `/proc` scanners and the dashboard page: field copying, or shallow.
- Uptime.FormatUptime: seconds are reals, not floats; NaN is not modelled, and what 2^64 or more converts to is a parameter, because Go leaves it to the platform.
- ArcStats.ParseARCStats: the input is decoded text; invalid UTF-8 is not modelled.
- GateTheorems.CapOverRuns: the documentation promises the cap for every run; the two losing steps break it, so it holds for exactly the runs without them.
- SessionCap.ParksAfterGrace: states the grace for runs whose hooks do not overlap; the exact condition for all runs is GateTheorems.TimelyExact.
