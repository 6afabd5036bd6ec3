# Verified model of the unattended speed-test machinery

This project models the parts of the speed tester that run without anybody
watching, in Dafny, and proves what they promise:

* the scheduler: cron expressions, the search for the next firing, and the
  scheduler's loop with its concurrent callers;
* the web server around it: the one-run-at-a-time slot, the once-only record of
  each run, cancellation by id, and concurrent configuration changes;
* the history file the runs end up in;
* the algorithms of one batch: the dispatch loop, the byte cap shared by the
  download streams, the peak sampler, ranking and filtering, the SOCKS5 client
  and the port allocator.

`dafny verify dfyconfig.toml` checks everything.

## How the files fit together

| file | what it models |
|---|---|
| `Basics.dfy`, `Text.dfy` | shared vocabulary; the string helpers of Go that the parser uses |
| `Calendar.dfy` | the Gregorian calendar in UTC: day numbers, dates, weekdays |
| `Cron.dfy` | the day rule, the bounded minute search, and when the search is complete |
| `CronParser.dfy`, `CronText.dfy` | the expression parser, and round trips from written-out expressions |
| `Scheduler.dfy` | the scheduler object: its guarded state and each section under its mutex |
| `SchedulerProtocol.dfy` | every interleaving of the loop with RunOnce, SetSpec, Stop and Start callers; slot and channel safety |
| `SchedulerGuarantees.dfy` | the advertised plan, fired instants, stopping |
| `SchedulerWakes.dfy` | which changes of plan reach the loop and which are lost, and what the loop waits for |
| `SchedulerAccounting.dfy` | runs and skipped ticks of a fixed interval |
| `SchedulerTicks.dfy` | what the skipped counter counts, and which ticks are lost uncounted |
| `ServerRuns.dfy` | run ids, the busy slot, the once-only finish with panic recovery |
| `ConfigSync.dfy` | saving and applying a configuration, one call and many |
| `WaitCycle.dfy` | the wait cycle between a config change, the scheduler and a finishing run |
| `History.dfy` | the record file as bytes, refining a list |
| `Dispatch.dfy`, `Download.dfy`, `Ranking.dfy`, `Summary.dfy` | one batch: tests in flight, bytes, order, figures |
| `Socks.dfy` | the SOCKS5 client against decoders written from RFC 1928 and RFC 1929 |
| `AdminPort.dfy` | the wrapping port counter |

Objects whose methods update their fields are classes, and each section that
runs under a mutex is a method proved equal to a function on a value of the
same shape. A protocol is a state machine whose events are those sections, the
channel operations and the clock readings, one at a time; its theorems are
about every state of every run. A select with several ready cases may take any
of them. Floating-point measurements are reals; 32-bit and 64-bit wrap-around
is written out where it matters (port counter, `@every` products, the loop
variable of a stepped cron range, the run counter).

## Where the code and its documentation disagree

The model follows the code. Each of these is proved:

* `internal/schedule/schedule.go:253-257` says four years are enough for a
  leap-day schedule. They are not across a century year that is not a leap
  year (`Cron.FourYearsIsNotEnough`); `Cron.WindowComplete` says exactly which
  specifications find no firing, and from where.
* `internal/schedule/scheduler.go:63-68` says a plan change wakes the loop. It
  does exactly when the channel is swapped while the loop is parked on it
  (`SchedulerWakes.SwapWakesParkedLoop`, `SchedulerWakes.SwapElsewhereIsLost`).
  As long as no swap falls between the loop's planning and its parking, the
  loop waits for the instant it advertises
  (`SchedulerWakes.WaitsForWhatItAdvertises`); a swap that does fall there is
  lost (`SchedulerWakes.SwapInGapIsLost`), and `SchedulerWakes.LostWake` is a
  run in which an hour passes that way. The park of a schedule without a firing
  does not listen at all (`SchedulerWakes.IdleParkIgnoresSetSpec`), and a run
  reaches it and then changes to a schedule that fires
  (`SchedulerWakes.IdleParkMissesPlan`). The comment there speaks of two years
  where the search covers four times 366 days.
* `internal/schedule/scheduler.go:14-15` says a job's context is cancelled when
  the scheduler stops. `Stop` does not cancel it; with the server around it, the
  call that switches a schedule off can wait for a run that waits for it
  (`WaitCycle.DeadlockReachable`). `WaitCycle.SwitchOffOutcome` is the exact
  condition: as the stop is requested the loop waits for a scheduled run that
  has not got past its status broadcast, or the job has claimed its tick and is
  then given the busy slot. The second case is not settled at the stop but by
  `startRun`: a run started by hand that holds the slot lets the call return
  (`WaitCycle.StartRunDecides`, `WaitCycle.HandStartedRunSpares`).
* `internal/schedule/scheduler.go:125` takes the run count for the number of runs
  started. A job that finds the server busy starts nothing and is counted, and
  its tick is not counted as skipped (`WaitCycle.RunsCountRefusals`).
* The skipped counter is not the number of dropped ticks
  (`internal/schedule/scheduler.go:15-17`, `132`). `SchedulerTicks.SkippedTotal` says
  what it is over every run. It is more: a stop can add one
  (`SchedulerTicks.RefusalsAfterStop`, `SchedulerTicks.StopCountsATick`), and so
  can runs started by hand (`SchedulerTicks.RunOnceCountsTicks`). And it is less:
  under a clock schedule nothing is counted however long a job takes
  (`SchedulerTicks.ClockSkipsAreNotCounted`, `SchedulerTicks.UncountedTicks`);
  `SchedulerTicks.TicksLost` says exactly which ticks are lost.
* A job that takes exactly one interval eats no tick although one whole
  interval passed (`Scheduler.MissedIsWholeIntervals`).
* `internal/store/store.go:259-260` says a negative limit keeps every record; so
  does zero (`History.KeepLast`, used by `History.HistoryFile.AppendRun`).
* `@every` products wrap in 64 bits, so `@every 18446744134s`, some 585 years,
  is accepted as 60.29 seconds (`CronText.EveryWrapsAround`,
  `CronParser.EveryIsExactIffItFits`).
* A missing ping is ranked by a placeholder of 2^30 ms, not as the worst value
  (`Ranking.MissingPingRanksLast`).
* Ports are unique for 17296 consecutive calls, not for 30000, when the 32-bit
  counter wraps among them (`AdminPort.CollisionLaw`, `AdminPort.BoundIsTight`).
* An empty SOCKS password or a credential longer than 255 bytes is sent in a
  form the proxy cannot read back (`Socks.AuthRoundTrip`), and so is a host
  name longer than 255 bytes (`Socks.RequestRoundTrip`).
* The SOCKS client does not look at the version of the credentials' status nor
  at the reserved byte of the reply, which the RFCs fix
  (`Socks.GrantsUpToIgnoredBytes`, `Socks.MoreThanRfcAccepted`).
* `cmd/yggspeedtest/main.go:37` offers an unlimited duration. Without a limit the
  download's cancel does nothing, so a call that has met its byte cap still
  waits until the peer test's own context ends (`Download.ReturnsIffLimited`,
  `Download.UnlimitedWaitsForCaller`).

## Main results

* `Cron.WindowComplete`: exactly which schedules find no firing, and from where.
* `Cron.DayRule`: which days a schedule names.
* `CronParser.AcceptsIffWellWritten`, `CronParser.ClockIsAsWritten`, `CronParser.ItemReads`: the parser
  against a grammar that does not mention it, in both directions, with `ErrorNamesFirstBadField`.
* `SchedulerProtocol.SafeOverRuns` with `NeverOverlaps` and `NoDoubleClose`: slot and channel safety
  in every interleaving.
* `SchedulerGuarantees.FiredInstantsIncrease`, `AdvertisedPlanMatches`, `StopIsFinal`, `StoppedLoopExits`.
* `SchedulerWakes.WaitsForWhatItAdvertises` with `SwapInGapIsLost`: when a change of plan is heard;
  `SchedulerWakes.TimerRingsOnTime`: when the loop fires.
* `SchedulerAccounting.IntervalAccounting`, `SchedulerTicks.CadenceHolds`, `SchedulerTicks.SkippedTotal`,
  `SchedulerTicks.TicksLost`.
* `ServerRuns.RecordedOnceBeforeRelease`, `ServerRuns.CancelledOnlyByOwnId`.
* `ConfigProtocol.Converges`, `CallOutcome` and `NeverStuck`: any number of concurrent configuration changes.
* `WaitCycle.SwitchOffOutcome`: when switching a schedule off hangs.
* `History.HistoryRefinesList` with `IdsOfHistory`; `Ranking.SubsequenceRanksAlike` and `StableSortUnique`.
* `Dispatch.ReturnsOnePerPeer`; `Download.TotalWithinCap`, `EveryByteCounted` and `ReturnsIffLimited`;
  `Summary.RecordsAreConsistent`.
* `Socks.Connect` with `ConnectsIffGranted` and `TunnelIsUntouched`; `AdminPort.CollisionLaw`.

## Model

| member | source | states |
|---|---|---|
| Calendar.CivilOf | internal/schedule/schedule.go:232-251 | the date the match looks at exists in the calendar and is the date of that day number |
| Calendar.DayNumberInjective | internal/schedule/schedule.go:232-251 | two dates that exist have different day numbers |
| Calendar.CivilOfDayNumber | internal/schedule/schedule.go:232-251 | a date's day number leads back to that date |
| Calendar.UnixEpoch | internal/schedule/schedule.go:240 | the weekdays agree with Thursday 1 January 1970 |
| Cron.DayRule | internal/schedule/schedule.go:239-251 | on every valid date: with both day fields restricted the days matched are the union of those matched with either field freed; with one restricted, exactly the days it allows in the allowed months; with none, every day of an allowed month |
| Cron.MatchesAt | internal/schedule/schedule.go:232-251 | an instant given by date, hour and minute matches exactly when the date does and the hour and the minute are allowed, whatever its seconds |
| Cron.NextAfter | internal/schedule/schedule.go:258-270 | the truncate-and-step loop returns the first matching minute of its window, or the interval's next instant |
| Cron.NextFiringIsLeast | internal/schedule/schedule.go:253-270 | a firing is the least matching whole minute strictly after t and within the window; none means no minute of the window matches |
| Cron.FailsIffNoDay | internal/schedule/schedule.go:258-270 | the search fails exactly when no allowed hour and minute meets a matching day among the window's days |
| Cron.CommonSpecRecurs | internal/schedule/schedule.go:239-251 | a specification with a common date, with both day fields free, or with a restricted day of week matches within the window from anywhere |
| Cron.LeapDayRecurs | internal/schedule/schedule.go:253-257 | a window that is not inside a century gap contains a 29 February |
| Cron.CenturyGapHasNoLeapDay | internal/schedule/schedule.go:253-257 | a window inside a century gap contains none |
| Cron.RareMatchIsLeapDay | internal/schedule/schedule.go:232-251 | a specification without a common date can match only on 29 February |
| Cron.WindowComplete | internal/schedule/schedule.go:253-270 | NextAfter reports none exactly when only the day of month restricts, no allowed date exists in common years, and either 29 February is not allowed or the whole window lies in a century gap |
| Cron.LeapDayFoundAwayFromCenturies | internal/schedule/schedule.go:253-257 | 29 February is found from every t whose window touches no century year that is not a leap year |
| Cron.FourYearsIsNotEnough | internal/schedule/schedule.go:253-257 | from 1 March 2096 the leap-day schedule reports no firing although 29 February 2104 matches |
| Cron.ImpossibleDatesNeverFire | internal/schedule/schedule.go:258-270 | a specification whose dates exist in no year never matches and never finds a firing |
| Cron.NextFiringIsLater | internal/schedule/schedule.go:258-270 | every firing is strictly later than t and matches |
| CronParser.ExpandItem | internal/schedule/schedule.go:175-180 | the stepping loop over 64-bit integers adds exactly the item's stepped range, or fails exactly when the step overflows |
| CronParser.ParseField | internal/schedule/schedule.go:153-186 | the loops return an error exactly when some item is not well written, the first one's, and otherwise exactly the union of what is written, a non-empty subset of the range |
| Text.JoinSplit | internal/schedule/schedule.go:155 | splitting at the commas takes the text apart at every comma and nowhere else |
| CronParser.ItemReads | internal/schedule/schedule.go:156-229 | an item is read as start, end and step exactly when it is written as a star, a value or a range, with an optional step; a value is a number with optional sign and leading zeros or a name in any letter case, in range |
| CronParser.RejectsIffBadItem | internal/schedule/schedule.go:153-186 | a field is accepted exactly when every item of its comma list is written that way with a step that cannot overflow |
| CronParser.MeansWhatItems | internal/schedule/schedule.go:153-186 | an accepted field means exactly the union of the stepped ranges written in it |
| CronParser.CanonicalRoundTrip | internal/schedule/schedule.go:153-186 | the comma list of any non-empty set of values in range parses back to that set |
| CronParser.Parse | internal/schedule/schedule.go:64-125 | the specification of an expression or its first error; what is accepted is well formed and an interval is at least a minute |
| CronParser.EveryReads | internal/schedule/schedule.go:44 | the interval pattern takes apart exactly the texts written as the word, white space, digits and a unit |
| CronParser.EveryTextMeaning | internal/schedule/schedule.go:79-93 | what any interval text means, however it is spaced and padded with zeros |
| CronParser.AcceptsIffWellWritten | internal/schedule/schedule.go:64-125 | for every expression: an interval text is accepted exactly when it is long enough in 64-bit arithmetic, any other text exactly when it has five fields, each well written for its range and names |
| CronParser.ClockIsAsWritten | internal/schedule/schedule.go:97-125 | each set of an accepted expression holds exactly what its field writes, Sunday written 0 or 7, and a day field is free exactly when it is a bare star |
| CronParser.FieldRefusal | internal/schedule/schedule.go:155-229 | a refused field reports what is wrong with its first item that is not well written: blank, no positive step, an end that is no number or out of range, a descending range, or a step that wraps |
| CronParser.ErrorNamesFirstBadField | internal/schedule/schedule.go:65-116 | what is reported for a text that is no interval: that it is empty, has not five fields, or the first field that is not well written and why |
| CronParser.SundaySynonym | internal/schedule/schedule.go:117-119 | weekday 7 matches exactly when weekday 0 does |
| CronParser.EveryIsExactIffItFits | internal/schedule/schedule.go:80-93 | an accepted @every interval is the requested one exactly when it fits in 64 bits of nanoseconds |
| CronText.ItemRoundTrip | internal/schedule/schedule.go:155-173 | any value, range or stepped range reads back from its text |
| CronText.FieldRoundTrip | internal/schedule/schedule.go:153-186 | a field of such items, or a star, means exactly the set they describe |
| CronText.ExpressionRoundTrip | internal/schedule/schedule.go:64-125 | a whole five-field expression means exactly what its fields describe, with Sunday folded and the free day fields marked |
| CronText.EveryMeaning | internal/schedule/schedule.go:79-93 | @every with n units means their product in 64-bit arithmetic, or is refused |
| CronText.UnitsAgree | internal/schedule/schedule.go:127-149 | n of a unit mean what the same time in the next smaller unit does: a minute is 60 seconds, up to a month of 30 days and a year of 365 |
| CronText.EveryRoundTrip | internal/schedule/schedule.go:79-93 | @every with n units means that interval when it is at least a minute and fits, and is refused when it is shorter |
| CronText.EveryWrapsAround | internal/schedule/schedule.go:89-93 | `@every 18446744134s` is accepted as 60.29 seconds |
| CronText.ShorthandRoundTrip | internal/schedule/schedule.go:52-60 | each named shorthand, in any letter case, means its five fields |
| Scheduler.MissedIsWholeIntervals | internal/schedule/scheduler.go:327-332 | the missed count is the number of whole intervals outlived, except at exactly one interval, and never charges more time than passed |
| Scheduler.PlanIsAhead | internal/schedule/scheduler.go:271-291 | planNext only plans instants strictly after now that match the specification, and reports no firing only when the search finds none |
| Scheduler.Scheduler.Next | internal/schedule/scheduler.go:102-109 | the next firing is shown exactly while not stopped and planned |
| Scheduler.Scheduler.StartLocked | internal/schedule/scheduler.go:180-189 | the first Start makes the three channels, a later one changes nothing |
| Scheduler.Scheduler.SetSpecLocked | internal/schedule/scheduler.go:68-77 | the new specification is always taken; the plan is dropped exactly while live |
| Scheduler.Scheduler.StopLocked | internal/schedule/scheduler.go:161-169 | only the first Stop of a started scheduler takes effect |
| Scheduler.Scheduler.PlanNext | internal/schedule/scheduler.go:271-291 | a plan still ahead is kept, otherwise the next firing from now is planned |
| Scheduler.Scheduler.Advance | internal/schedule/scheduler.go:295-302 | the tick after the fired one is planned |
| Scheduler.Scheduler.Claim | internal/schedule/scheduler.go:305-313 | the slot is taken exactly when free and not stopped |
| Scheduler.Scheduler.Finish | internal/schedule/scheduler.go:320-338 | the slot is freed, the run counted and the eaten ticks charged by the specification now in force |
| SchedulerProtocol.SafeOverRuns | internal/schedule/scheduler.go:68-97 | every state of every interleaving satisfies the slot, structure, channel, parking and counting invariants |
| SchedulerProtocol.NeverOverlaps | internal/schedule/scheduler.go:305-338 | the threads between claim and finish are one if running and none otherwise, and claims equal runs plus that number |
| SchedulerProtocol.NoDoubleClose | internal/schedule/scheduler.go:83-97 | whatever closes a channel in any interleaving closes one that was made and is open, and no channel is closed twice |
| SchedulerProtocol.OneWakePerChange | internal/schedule/scheduler.go:83-97 | the replan channel in place is open, and the loop wakes at most once per delivered wake |
| SchedulerGuarantees.AdvertisedPlanMatches | internal/schedule/scheduler.go:68-81 | while not stopped an advertised instant satisfies the current specification, across SetSpec and advance races |
| SchedulerGuarantees.SpecIsLastSet | internal/schedule/scheduler.go:68-77 | the specification in force is the one set last, started or not, stopped or not |
| SchedulerGuarantees.FiredInstantsIncrease | internal/schedule/scheduler.go:251-263 | fired instants strictly increase and none fires early |
| SchedulerGuarantees.RunOnceOutcome | internal/schedule/scheduler.go:195-205 | RunOnce runs the job exactly when nothing was in flight and nothing had stopped the scheduler at its claim |
| SchedulerGuarantees.LoopJobTime | internal/schedule/scheduler.go:263-265 | what finish is given is the time from the start of the loop's job to its end |
| SchedulerGuarantees.OnceJobTime | internal/schedule/scheduler.go:201-203 | and of the job of a RunOnce |
| SchedulerGuarantees.StoppedForGood | internal/schedule/scheduler.go:305-313 | once stopped, always stopped, and no claim succeeds any more |
| SchedulerGuarantees.StopIsFinal | internal/schedule/scheduler.go:160-174 | after a Stop returned true the loop has exited, no later claim succeeds and no other Stop returns true |
| SchedulerGuarantees.StopOutcome | internal/schedule/scheduler.go:160-174 | a Stop takes effect exactly when it finds the scheduler started and not stopped; any other has returned false |
| SchedulerGuarantees.StopReturnsAtExit | internal/schedule/scheduler.go:168-173 | a Stop that waits can return exactly once the loop has exited |
| SchedulerGuarantees.StoppedLoopProgresses | internal/schedule/scheduler.go:207-267 | every step of a stopped loop, whichever select case it takes, brings its exit closer |
| SchedulerGuarantees.StoppedLoopCanMove | internal/schedule/scheduler.go:207-267 | a stopped loop that has not exited always has a step to take |
| SchedulerGuarantees.StoppedLoopExits | internal/schedule/scheduler.go:207-267 | a stopped loop takes a bounded number of further steps, however the run goes on |
| SchedulerWakes.SwapWakesParkedLoop | internal/schedule/scheduler.go:234-248 | a SetSpec that swaps while the loop is parked always wakes it |
| SchedulerWakes.SwapElsewhereIsLost | internal/schedule/scheduler.go:89-97 | a SetSpec that swaps while the loop is not parked on the channel in place takes out a channel that never wakes it |
| SchedulerWakes.WaitsForWhatItAdvertises | internal/schedule/scheduler.go:211-251 | unless a swap falls between planning and parking, the loop waits for exactly the advertised instant, or the instant has come, the scheduler is stopped, or a change under way will wake it |
| SchedulerWakes.TimerRingsOnTime | internal/schedule/scheduler.go:228-232 | from the step that arms it the timer is ready exactly from the planned instant on, or a millisecond later when that had already come |
| SchedulerWakes.SwapInGapIsLost | internal/schedule/scheduler.go:213-241 | after a swap between planning and parking the loop parks with no wake sent or on its way, unless another swap follows |
| SchedulerWakes.IdleParkIgnoresSetSpec | internal/schedule/scheduler.go:217-226 | the park without a firing is left only by a stop or a cancelled context |
| SchedulerWakes.IdleParkMissesPlan | internal/schedule/scheduler.go:217-226 | a reachable state in which the loop sits in that park although the schedule now fires in a minute and every call has returned |
| SchedulerWakes.LostWake | internal/schedule/scheduler.go:213-241 | a reachable state in which every call has returned, the plan is due in a minute, and the loop is parked for an hour with no wake pending |
| SchedulerTicks.SkippedTotal | internal/schedule/scheduler.go:253-257 | over every run skipped is the number of refused ticks plus the ticks eaten by finished jobs, those of RunOnce included |
| SchedulerTicks.RefusalsAfterStop | internal/schedule/scheduler.go:253-257 | after a stop at most one more tick is refused and counted |
| SchedulerTicks.StopCountsATick | internal/schedule/scheduler.go:253-257 | a run in which a stop between the timer and the claim counts a tick though nothing ever ran |
| SchedulerTicks.RunOnceCountsTicks | internal/schedule/scheduler.go:195-205 | a run in which a job by hand adds two although the scheduler was never started |
| SchedulerTicks.TicksLost | internal/schedule/scheduler.go:271-302 | under a fixed clock schedule, of the instants due after one firing those before the next are exactly those that had come when the loop planned it, and none is counted |
| SchedulerTicks.CadenceHolds | internal/schedule/scheduler.go:259-302 | under a fixed interval the next firing is one interval after this one, however long the job took, unless that instant had come when the loop planned; only then does the cadence shift, to one interval from the planning |
| SchedulerTicks.ClockSkipsAreNotCounted | internal/schedule/scheduler.go:329 | with clock schedules only and no RunOnce or Stop, skipped stays zero |
| SchedulerTicks.UncountedTicks | internal/schedule/scheduler.go:320-338 | a run in which a job of three days loses three midnights and nothing is counted |
| SchedulerAccounting.IntervalAccounting | internal/schedule/scheduler.go:295-338 | the interval times runs plus skipped fits between the first firing and the next planned one, and while a job is in flight between the first firing and the one being run, for any job lengths and wake-up delays |
| RunSlot.Server.StartRunLocked | internal/web/server.go:251-265 | a run is accepted exactly when none is in flight, and a refused start changes nothing |
| RunSlot.Server.ReleaseRun | internal/web/server.go:320-326 | the slot is handed back whole |
| RunSlot.Server.CancelRun | internal/web/server.go:343-354 | it answers for the id in flight only, and cancels that run's context only |
| RunId.IdsClash | internal/web/server.go:871-876 | two ids are equal exactly when their seconds are and their counters agree in 16 bits |
| RunId.IdsAreUnique | internal/web/server.go:871-876 | ids are unique below 65536 draws in a second, across the 64-bit wrap |
| RunId.LabelsRepeat | internal/web/server.go:874-875 | 65536 draws apart in one second the id repeats |
| ServerRuns.SoundOverRuns | internal/web/server.go:251-303 | the slot, flag, history and cancellation invariants hold in every state of every run |
| ServerRuns.OneInFlight | internal/web/server.go:251-265 | at most one run is in flight, and busy says whether there is one |
| ServerRuns.RecordedOnceBeforeRelease | internal/web/server.go:270-302 | a run that has handed back its slot or closed its channel has had exactly one append attempt, panics or not, and the history is in the order of the starts |
| ServerRuns.PanicIsRecordedOnce | internal/web/server.go:270-302 | a run that panics while it executes is recorded by its unwinding; one that panics in its status broadcast is not recorded again |
| ServerRuns.StartIffIdle | internal/web/server.go:251-265 | a start is always answered: accepted exactly when no run is in flight, and a refused one changes nothing |
| ServerRuns.CancelHitsItsRun | internal/web/server.go:335-354 | CancelRun answers true exactly for the run in flight with that id, cancels its context, drops the cancel function and touches no other run |
| ServerRuns.CancelledOnlyByOwnId | internal/web/server.go:343-354 | no cancellation asked for one run reaches another, unless 65536 runs started in one second |
| ServerRuns.RunAlwaysEnds | internal/web/server.go:281-302 | every event of a run brings it closer to its end and a run that has not ended can always move |
| ConfigSync.Server.constructor | internal/web/server.go:90-107 | a new server records the plan of the configuration it was given and runs a scheduler exactly when that is enabled with a schedule that parses |
| ConfigSync.Server.ReconcileScheduler | internal/web/server.go:176-222 | a scheduler exists exactly when the configuration in memory is enabled and has a schedule that parses, runs what that schedule means, and is the old one, with its channel exchanged, if there was one; the recorded plan is that meaning, switched on or off with it |
| ConfigSync.Server.SetConfig | internal/web/server.go:130-169 | a configuration is rejected exactly when its parameters or its schedule do not hold up; a rejected or unsaved one changes nothing; an applied one is in the file, in memory and in force, with a scheduler exactly when it is enabled and has a schedule |
| ConfigProtocol.SoundOverRuns | internal/web/server.go:130-222 | the lock, file, plan and scheduler invariants hold in every state of any number of concurrent calls |
| ConfigProtocol.FileAgrees | internal/web/server.go:149-160 | whenever no call holds storeMu after the first save, memory is what was saved last |
| ConfigProtocol.Converges | internal/web/server.go:130-231 | once all calls have returned, memory and plan are those of the last saved configuration, and a scheduler runs what its schedule means exactly when it is enabled with a schedule that parses, and no other is left running |
| ConfigProtocol.OneScheduler | internal/web/server.go:210-231 | at most one scheduler runs at any time |
| ConfigProtocol.RefusedChangesNothing | internal/web/server.go:130-156 | a call that returns an error changes nothing shared at any of its steps |
| ConfigProtocol.OnlyAcceptableSaved | internal/web/server.go:133-156 | a configuration that does not hold up never reaches the file |
| ConfigProtocol.CallOutcome | internal/web/server.go:130-169 | a call that returns normally has had a configuration that holds up saved; one that returns an error had one that does not, or its write failed |
| ConfigProtocol.CallProgresses | internal/web/server.go:130-222 | each step of a call brings its end closer, at most eleven, and nothing else moves it |
| ConfigProtocol.NeverStuck | internal/web/server.go:130-222 | while some call has not ended some call can act, or somebody else who holds a mutex can hand it back |
| WaitCycle.DeadlockReachable | internal/web/server.go:176-231 | a run in which a config change holds schedMu waiting for the loop, the loop waits for the run, and the run wants schedMu |
| WaitCycle.OnlyCancelHelps | internal/web/server.go:307-318 | nothing but Server.Cancel leaves that cycle |
| WaitCycle.StuckIffDeadlocked | internal/schedule/scheduler.go:161-174 | the threads are stuck exactly when they have all finished or all but the three in that cycle have |
| WaitCycle.HungForGood | internal/web/server.go:224-231 | a call that waits for a loop that waits for a run short of its status broadcast never returns without Cancel |
| WaitCycle.SparedForGood | internal/web/server.go:224-231 | with no such run, and none that can still be started, the cycle is never reached, whatever happens |
| WaitCycle.StartRunDecides | internal/web/server.go:251-255 | every other stop has caught the job about to ask for the busy slot, and the answer decides: hung if accepted, spared if refused |
| WaitCycle.SwitchOffOutcome | internal/web/server.go:224-231 | over whole runs, the call hangs exactly when the loop waits for such a run as the stop is requested or the job is given the busy slot after it; if not, all threads can finish |
| WaitCycle.HandStartedRunSpares | internal/web/server.go:307-311 | a run in which the job is refused because a run started by hand holds the slot, and the call returns |
| WaitCycle.RunsCountRefusals | internal/schedule/scheduler.go:333-337 | between jobs the scheduler's runs are at least the scheduled runs started, and exactly those when no job found the server busy |
| WaitCycle.LoopStepsAreSeen | internal/schedule/scheduler.go:209-267 | every step of the scheduler's loop in any reachable state is none or one of the loop's steps of this model, which waits for the run where the scheduler waits for its job |
| WaitCycle.CancelResolves | internal/web/server.go:112-115 | after Cancel some thread can move until all have finished |
| WaitCycle.StepsAreBounded | internal/web/server.go:412-428 | once a stop was requested the threads take a bounded number of steps, five more for each run started by hand |
| History.RoundTrip | internal/store/store.go:228-257 | loading what was written gives every record, rounded, in order, one line each, each ended by a newline |
| History.LoadConcat | internal/store/store.go:234-254 | loading is local to lines: a malformed line removes only itself |
| History.CountVersusLoad | internal/store/store.go:299-324 | counting never undercounts, and is exact precisely when every line holds a record |
| History.HistoryFile.LoadRuns | internal/store/store.go:225-257 | the byte loop returns the decodable lines in order |
| History.HistoryFile.CountRuns | internal/store/store.go:299-324 | the byte loop returns the number of lines |
| History.HistoryFile.WriteRuns | internal/store/store.go:353-365 | the file becomes the records' lines, or stays as it was |
| History.HistoryFile.AppendRun | internal/store/store.go:259-271 | the file becomes the last `limit` of the loaded records and the new one, or stays as it was |
| History.HistoryFile.FindRun | internal/store/store.go:273-285 | the first record with the id, or none exactly when there is none |
| History.HistoryFile.LatestRun | internal/store/store.go:287-297 | the last record, or none when the file holds none |
| History.HistoryFile.DeleteRun | internal/store/store.go:326-351 | the file loses exactly the records with the id; found tells whether there was one and the rewrite succeeded |
| History.KeepsNewest | internal/store/store.go:266-269 | what is kept is the newest end of the history with the new record last, as many as the limit allows |
| History.WithoutConcat | internal/store/store.go:335-350 | deleting works on every part of the history alike and leaves a history without the id alone |
| History.OperationRefines | internal/store/store.go:259-351 | each operation on the file is the same operation on the list it reads as |
| History.HistoryRefinesList | internal/web/server.go:709-715 | any sequence of whole operations, failed ones included, leaves a file that reads as the list they make |
| History.IdsOfOperation | internal/store/store.go:259-351 | by id an append keeps the last limit with the new one at the end, a delete takes the id out, and a failed or empty operation changes nothing |
| History.IdsOfHistory | internal/store/store.go:259-351 | over any mix of appends with limits and deletes, the ids are what the operations that took effect make of them in turn |
| History.CountsOwnFiles | internal/store/store.go:299-324 | counting lines is exact on every file the operations can make from none |
| History.NoLostUpdate | internal/web/server.go:412-418 | successful appends without a limit keep every earlier record and add each new one in order |
| Ranking.LessIsStrictWeak | internal/engine/results.go:29-53 | the comparison is a strict weak order for every key |
| Ranking.SortIsStable | internal/engine/results.go:23-27 | the specified sort is in order and keeps the sequence within ties |
| Ranking.StableSortUnique | internal/engine/results.go:23-27 | there is only one such arrangement |
| Ranking.SortResults | internal/engine/results.go:16-27 | the slice is stably sorted in place by the chosen key |
| Ranking.StringLessIsLexicographic | internal/engine/results.go:34 | the order of the peers is Go's: a proper prefix comes first, and otherwise the first character that differs decides |
| Ranking.SortFilter | internal/engine/engine.go:494-512 | filtering commutes with sorting |
| Ranking.SubsequenceRanksAlike | internal/engine/results.go:16-27 | an interrupted run and a full run rank their common results alike |
| Ranking.FinishRun | internal/engine/engine.go:494-518 | the result is the stable ranking of the failures and of the results that pass the thresholds |
| Ranking.FilterThenSort | internal/engine/engine.go:494-518 | thresholds before or after ranking make no difference, and every failure survives |
| Ranking.RankedIffQualified | internal/engine/results.go:55-71 | a result is in the ranking exactly when it was measured and failed or meets every threshold that is set |
| Ranking.RankedByMeasure | internal/engine/results.go:43-52 | among the successes the measurement named by the sort key never gets worse down the ranking, a missing speed counting as zero and a missing time as 2^30 ms |
| Ranking.TiesAre | internal/engine/results.go:29-53 | a tie, whose test order is kept, is two failures of one peer or two successes with the same named measurement, a missing one counting as its placeholder |
| Ranking.FailuresAreTheTail | internal/engine/results.go:30-41 | failures come last, and none precedes an earlier one lexicographically by peer |
| Ranking.MissingPingRanksLast | internal/engine/results.go:74-79 | a missing ping ranks after a measured one exactly below 2^30 ms |
| Dispatch.SoundOverRuns | internal/engine/engine.go:397-489 | the slot, result and completion invariants hold in every state of every interleaving |
| Dispatch.ConcurrencyBound | internal/engine/engine.go:404-419 | never more than Concurrency peer tests are in flight |
| Dispatch.ReturnsOnePerPeer | internal/engine/engine.go:411-489 | on return exactly one result and one OnResult call for each peer of a prefix, the whole list unless cancelled, and checkpoint lines in the results' order |
| Dispatch.CancelIsHeard | internal/engine/engine.go:404-409 | once cancelled the loop can always leave and start no further peer |
| Dispatch.RankDecreases | internal/engine/engine.go:411-489 | every step but a cancel brings the return closer |
| Dispatch.NeverStuck | internal/engine/engine.go:404-488 | until it returns some step is always possible |
| Download.TotalWithinCap | internal/engine/download.go:116-185 | in any interleaving the total is the sum of the reads and at most maxBytes - 1 + 32768 for each stream |
| Download.EveryByteCounted | internal/engine/download.go:161-174 | not a byte is lost or counted twice: what the reads returned is what has been added and what is about to be |
| Download.CapIsTight | internal/engine/download.go:162-171 | that bound is reached |
| Download.CapCancels | internal/engine/download.go:162-174 | with a time limit, once every stream has stopped with the cap met, the download's context is done |
| Download.StreamsStop | internal/engine/download.go:149-185 | once the context is done or the cap is met each step of a stream brings its stop closer, five at most; a time limit can always end the context |
| Download.KeepsDownloading | internal/engine/download.go:149-185 | nothing but an error of its own, the end of the context or the cap stops a stream |
| Download.ReturnsIffLimited | internal/engine/download.go:187-192 | once all streams have stopped the call can return on its own exactly when it has a time limit or the caller's context is done |
| Download.UnlimitedWaitsForCaller | internal/engine/download.go:66 | without a limit the call never returns before the caller's context is done |
| Download.CallerEndsIt | internal/engine/download.go:187-192 | with all streams stopped the end of the caller's context always lets the call return |
| Download.ReturnsLast | internal/engine/download.go:187-195 | when the call returns its streams and its sampler have ended, and its total is every byte read |
| Download.SamplePeak | internal/engine/download.go:73-111 | the peak bounds the bits between consecutive ticks, in millions a second, and some two ticks reach it unless it is zero |
| Download.PeakBoundsAverage | internal/engine/download.go:73-111 | peak times the time sampled is at least the bits sampled, in millions |
| Download.Finish | internal/engine/download.go:208-217 | average times duration is eight bits a byte in millions, or zero without a duration, and the peak is the larger of the sampled peak and the average |
| Summary.Round3 | internal/web/types.go:74-79 | a non-negative value is rounded half up to within half a thousandth |
| Summary.Summarise | internal/web/server.go:484-512 | the figures are the rounded mean speed, highest peak and mean ping of the successful results that have them |
| Summary.MeanIsMean | internal/web/server.go:486-512 | the mean times the count is the sum of what was measured, and zero without any |
| Summary.MeasuredConcat | internal/web/server.go:486-505 | what is measured is taken result by result: a success counts each figure it has once, nothing else counts (with `MeasuredOne`) |
| Summary.AverageBelowMaximum | internal/web/server.go:486-512 | if peaks bound speeds, the recorded average is at most the recorded maximum, rounding included |
| Summary.RecordsAreConsistent | internal/engine/test.go:500-517 | every record built from results of the download has AvgMbps at most MaxMbps |
| Socks.AuthRoundTrip | internal/engine/test.go:247-250 | the proxy reads back the credentials exactly when RFC 1929 can carry them |
| Socks.RequestRoundTrip | internal/engine/test.go:274-289 | the proxy reads back address and port exactly when a name fits its length byte |
| Socks.ChooseMethod | internal/engine/test.go:223-265 | how the choice of a method ends and how much it consumes, and that it has written the greeting, and the credentials exactly when they are asked for and there are some, as far as the writes go through |
| Socks.ReadGrant | internal/engine/test.go:292-322 | success exactly on a reply of RFC 1928 section 6 with code 0, whatever its reserved byte, consuming exactly that reply; otherwise the error the reply deserves |
| Socks.Connect | internal/engine/test.go:223-323 | the outcome by the proxy's bytes and the writes that go through; however it ends it has written greeting, credentials and request as far as the proxy let it get and the writes went through; on success exactly the replies are consumed |
| Socks.RfcGrantsAccepted | internal/engine/test.go:223-323 | every grant by the RFCs is taken for one and read to its last byte |
| Socks.GrantsUpToIgnoredBytes | internal/engine/test.go:223-323 | what the client takes for a grant is exactly what is one by the RFCs once the status version and the reserved byte are put right |
| Socks.MoreThanRfcAccepted | internal/engine/test.go:256-265 | a status of version 7 and a reserved byte of 99 are accepted though they are no grant |
| Socks.ConnectsIffGranted | internal/engine/test.go:223-323 | the client connects exactly when the target is usable, the bytes are a grant by the RFCs up to those two bytes, and every write goes through |
| Socks.FailuresExplained | internal/engine/test.go:223-323 | exactly when each failure is reported, told from the proxy's bytes, the target and the writes that go through |
| Socks.TunnelIsUntouched | internal/engine/test.go:292-322 | what is left on the stream after a grant is what the proxy wrote after it |
| AdminPort.Allocator.GetUniqueAdminPort | internal/engine/parse.go:52-63 | the counter goes up by one with 32-bit wrap-around and its residue is the port, in range |
| AdminPort.CollisionLaw | internal/engine/parse.go:52-63 | two calls fewer than 30000 apart collide exactly when the wrap falls between them and they are 17296 apart |
| AdminPort.DistinctAcrossWrap | internal/engine/parse.go:52-63 | any 17296 consecutive calls give distinct ports |
| AdminPort.DistinctWithoutWrap | internal/engine/engine.go:38-39 | any 30000 consecutive calls do when no wrap falls among them |
| AdminPort.BoundIsTight | internal/engine/parse.go:52-63 | 17297 calls can repeat a port |

## Left out

- Network and protocol stacks, TLS, QUIC, WebSocket, DNS and the HTTP client: a peer test, a request or a read is a step with any outcome.
- HTTP handlers, event streams, the page, the command line, logging, table and Markdown rendering: plumbing around the core.
- Record encoding: a codec whose lines hold no newline and whose decoding of an encoding is a rounding that happens once; `History.ValidCodec` states what is taken from it.
- File replacement through a temporary file: one step that happens or fails.
- Edits of the configuration or history file by other programs while the server runs.
- Configuration contents: normalisation is assumed done and the checks of the run parameters are one flag; `engine.SetDebug` runs outside the locks and is not part of the agreement proved.
- Time zones, daylight saving and wall-clock jumps: UTC and a clock that never goes back.
- `lastRun`, `lastErr`, `peersRun` and `skipID` of the scheduler, and the texts of errors and records.
- A panic inside the scheduler's job, and `Stop` called from inside a job.
- A panic inside the persisting call itself, between the swap of the once-only flag and the append, and a panic inside the panic guard.
- A panic of a run between its append and its status broadcast, in the wait cycle only: it skips the broadcast, so such a run cannot hold up a stop.
- Of two runs in the wait cycle only the latest scheduled one and the latest started by hand are followed; an earlier one has handed back its slot and is only about to close its channel.
- Fairness: that a thread which can move does move; the theorems say that it can, and how often at most.
- `ParseByteSize` and the formatting of numbers: floating-point parsing.
- Floating-point rounding and the overflow of float-to-integer conversions in the rounding of figures: measurements are reals.
- Lower-casing outside ASCII and invalid UTF-8 in schedule expressions and sort keys.
- Splitting the SOCKS target into host and port and recognising IP literals: a parameter of the client.
- Ranking.SortResults: the library's stable sort is modelled by insertion steps, since the stable arrangement is unique.
- Socks.ChooseMethod: the first half of the client as a method of its own, with the same steps in the same order.
- Dispatch.ReturnsOnePerPeer: a run without a checkpoint file is one whose checkpoint writes are all lost.
- Download.SamplePeak: the compare-and-swap loop is one comparison, since only the sampler writes the peak.
- Summary.Round3: a negative figure, which no measurement gives, loses its sign in the code and in the model; nothing is stated about it.
- ConfigProtocol.NeverStuck: stopping the old scheduler is one step there; what can hold it up is the subject of `WaitCycle`.
- ServerRuns.RecordedOnceBeforeRelease: it counts attempts to append; whether the write succeeds is up to the disk, and `History` says what it then leaves.
