// What the skipped counter counts, and which ticks are lost without being
// counted.

module SchedulerTicks {
  import opened Options
  import opened Calendar
  import opened Cron
  import opened Scheduler
  import opened SchedulerProtocol
  import opened SchedulerGuarantees
  import opened SchedulerAccounting
  import SchedulerWakes

  // ----- what counts as skipped ---------------------------------------------

  /** The loop counts a tick it was refused. */
  predicate Refuses(s: State, e: Event) {
    e.LoopActs? && s.loop.Skipping?
  }

  /** How long the job has taken that this event finishes, the loop's or a RunOnce's. */
  function FinishedJob(s: State, e: Event): Option<int>
  {
    match e
    case LoopActs(_) => if s.loop.Finishing? then Some(s.loop.elapsed) else None
    case CallActs(t) => if t in s.calls && s.calls[t].OnceFinishing? then Some(s.calls[t].elapsed) else None
    case _ => None
  }

  /** The ticks the finished job has eaten, by the specification in force at its end. */
  function Eaten(s: State, e: Event): nat {
    match FinishedJob(s, e) case None => 0 case Some(elapsed) => Missed(s.g.spec, elapsed)
  }

  ghost function Refusals(ss: seq<State>, es: seq<Event>, i: nat, j: nat): nat
    requires i <= j <= |es| < |ss|
  {
    if i == j then 0 else Refusals(ss, es, i, j - 1) + if Refuses(ss[j - 1], es[j - 1]) then 1 else 0
  }

  ghost function EatenTicks(ss: seq<State>, es: seq<Event>, n: nat): nat
    requires n <= |es| < |ss|
  {
    if n == 0 then 0 else EatenTicks(ss, es, n - 1) + Eaten(ss[n - 1], es[n - 1])
  }

  lemma SkippedLoop(s: State, b: Branch)
    requires LoopCanAct(s, b)
    ensures LoopStep(s, b).g.skipped
         == s.g.skipped + Eaten(s, LoopActs(b)) + if Refuses(s, LoopActs(b)) then 1 else 0
  {
    hide PlanNextSection, AdvanceSection, Missed;
    PlanKeeps(s.g, s.now);
    if s.loop.Advancing? {
      AdvanceKeeps(s.g, s.loop.fire);
    }
  }

  lemma SkippedCall(s: State, t: nat)
    requires CallCanAct(s, t)
    ensures CallStep(s, t).g.skipped == s.g.skipped + Eaten(s, CallActs(t))
  {
    hide PlanNextSection, Missed;
    PlanKeeps(s.g, s.now);
  }

  lemma SkippedStep(s: State, e: Event)
    requires Enabled(s, e)
    ensures Apply(s, e).g.skipped == s.g.skipped + Eaten(s, e) + if Refuses(s, e) then 1 else 0
  {
    hide LoopStep, CallStep, Missed;
    match e
    case LoopActs(b) => SkippedLoop(s, b);
    case CallActs(t) => SkippedCall(s, t);
    case _ =>
  }

  /** Over every run the skipped counter is the number of ticks the loop was refused, by a job in flight or by
      a stop, plus the ticks eaten by finished jobs, those of RunOnce included. */
  lemma {:induction false} SkippedTotal(ss: seq<State>, es: seq<Event>, n: nat)
    requires IsRun(ss, es) && n < |ss|
    ensures ss[n].g.skipped == Refusals(ss, es, 0, n) + EatenTicks(ss, es, n)
  {
    hide IsRun, Enabled, Apply, Refuses, Eaten;
    RunStart(ss, es);
    if n > 0 {
      SkippedTotal(ss, es, n - 1);
      RunStep(ss, es, n - 1);
      SkippedStep(ss[n - 1], es[n - 1]);
    }
  }

  /** Whether a stopped loop can still be refused a tick. */
  function RefusalsLeft(pc: LoopPc): nat {
    if pc.Arm? || pc.Timed? || pc.Parked? || pc.Claiming? || pc.Skipping? then 1 else 0
  }

  lemma RefusalsLeftStep(s: State, e: Event)
    requires Safe(s) && s.g.stopped && Enabled(s, e)
    ensures RefusalsLeft(Apply(s, e).loop) + (if Refuses(s, e) then 1 else 0) <= RefusalsLeft(s.loop)
  {
    hide PlanNextSection, AdvanceSection, Slot, ParkSound, CountSound, ChannelsSound;
    PlanStopped(s.g, s.now);
  }

  /** After a stop at most one more tick is refused and counted, and none once the loop is past its claim. */
  lemma {:induction false} RefusalsAfterStop(ss: seq<State>, es: seq<Event>, i: nat, j: nat)
    requires IsRun(ss, es) && i <= j < |ss| && ss[i].g.stopped
    ensures |ss| == |es| + 1
    ensures Refusals(ss, es, i, j) + RefusalsLeft(ss[j].loop) <= RefusalsLeft(ss[i].loop) <= 1
  {
    hide IsRun, Enabled, Apply, Safe, Refuses;
    RunStart(ss, es);
    if i < j {
      RefusalsAfterStop(ss, es, i, j - 1);
      RunStep(ss, es, j - 1);
      SafeOverRuns(ss, es, j - 1);
      StoppedForGood(ss, es, i, j - 1);
      RefusalsLeftStep(ss[j - 1], es[j - 1]);
    }
  }

  /** Started every minute, the loop has woken for its first tick. */
  const TICKING := State(
    Guarded(SchedulerWakes.MINUTELY, false, false, Some(0), Some(1), Some(2), MINUTE, true, 0, 0),
    Claiming(MINUTE), map[1 := StartReturned], Channels(3, {}, false), MINUTE, false, History(0, {}, 0, 0, []))

  lemma ReachParked() returns (ss: seq<State>, es: seq<Event>)
    ensures IsRun(ss, es) && |ss| == |es| + 1
    ensures ss[|es|] == TICKING.(loop := Parked(MINUTE, MINUTE, Some(2)), now := 0)
  {
    var init := State(New(SchedulerWakes.MINUTELY), NotStarted, map[], Channels(0, {}, false), 0, false, History(0, {}, 0, 0, []));
    var planned := TICKING.(loop := Plan, now := 0);
    SchedulerWakes.FirstRun(init);
    ss, es := SchedulerWakes.Extend([init], [], Call(1, StartCall));
    ss, es := SchedulerWakes.Extend(ss, es, CallActs(1));
    assert ss[|es|].calls == map[1 := StartPlan];
    ss, es := SchedulerWakes.Extend(ss, es, CallActs(1));
    assert ss[|es|].calls == map[1 := StartGo];
    ss, es := SchedulerWakes.Extend(ss, es, CallActs(1));
    assert ss[|es|] == planned;
    ss, es := SchedulerWakes.Extend(ss, es, LoopActs(Go));
    assert ss[|es|] == planned.(loop := Arm(MINUTE));
    ss, es := SchedulerWakes.Extend(ss, es, LoopActs(Go));
    ss, es := SchedulerWakes.Extend(ss, es, LoopActs(Go));
  }

  lemma ReachTicking() returns (ss: seq<State>, es: seq<Event>)
    ensures IsRun(ss, es) && |ss| == |es| + 1 && ss[|es|] == TICKING
  {
    hide IsRun;
    ss, es := ReachParked();
    ss, es := SchedulerWakes.Extend(ss, es, Tick(MINUTE));
    ss, es := SchedulerWakes.Extend(ss, es, LoopActs(ByTimer));
  }

  /** A tick counted as skipped though nothing was running: a stop came between the timer and the claim. */
  lemma StopCountsATick() returns (ss: seq<State>, es: seq<Event>)
    ensures IsRun(ss, es) && |ss| == |es| + 1
    ensures ss[|es|].g.skipped == 1 && ss[|es|].h.claims == 0
  {
    hide IsRun;
    ss, es := ReachTicking();
    ss, es := SchedulerWakes.Extend(ss, es, Call(2, StopSection));
    assert ss[|es|] == TICKING.(calls := map[1 := StartReturned, 2 := StopSection]);
    ss, es := SchedulerWakes.Extend(ss, es, CallActs(2));
    ss, es := SchedulerWakes.Extend(ss, es, LoopActs(Go));
    ss, es := SchedulerWakes.Extend(ss, es, LoopActs(Go));
  }

  /** Ticks counted as skipped though the scheduler was never started: a run by hand outlasted the interval. */
  lemma RunOnceCountsTicks() returns (ss: seq<State>, es: seq<Event>)
    ensures IsRun(ss, es) && |ss| == |es| + 1
    ensures ss[|es|].g.skipped == 2 && ss[|es|].g.stopCh.None?
  {
    hide IsRun;
    var init := State(New(SchedulerWakes.MINUTELY), NotStarted, map[], Channels(0, {}, false), 0, false, History(0, {}, 0, 0, []));
    SchedulerWakes.FirstRun(init);
    ss, es := SchedulerWakes.Extend([init], [], Call(1, OnceClaim));
    ss, es := SchedulerWakes.Extend(ss, es, CallActs(1));
    assert ss[|es|].calls == map[1 := OnceStarting];
    ss, es := SchedulerWakes.Extend(ss, es, CallActs(1));
    assert ss[|es|].calls == map[1 := OnceWorking(0)];
    ss, es := SchedulerWakes.Extend(ss, es, Tick(2 * MINUTE));
    ss, es := SchedulerWakes.Extend(ss, es, CallActs(1));
    assert ss[|es|].calls == map[1 := OnceFinishing(2 * MINUTE)];
    ss, es := SchedulerWakes.Extend(ss, es, CallActs(1));
  }

  // ----- a clock schedule: ticks lost and never counted ---------------------

  /** Nothing but Start, and SetSpec with clock schedules, is called. */
  ghost predicate ClockOnly(es: seq<Event>) {
    forall i | 0 <= i < |es| && es[i].Call? :: es[i].pc.StartCall? || (es[i].pc.SetSection? && es[i].pc.spec.Clock?)
  }

  ghost predicate ClockQuiet(s: State) {
    && s.g.spec.Clock? && !s.g.stopped && s.g.skipped == 0 && !s.loop.Skipping?
    && (s.g.running <==> LoopInFlight(s.loop))
    && forall t | t in s.calls ::
         && !IsOnce(s.calls[t]) && !IsStop(s.calls[t]) && !s.calls[t].StopReturned?
         && (s.calls[t].SetSection? ==> s.calls[t].spec.Clock?)
  }

  lemma ClockQuietLoop(s: State, b: Branch)
    requires ClockQuiet(s) && LoopCanAct(s, b)
    ensures ClockQuiet(LoopStep(s, b))
  {
    hide PlanNextSection, AdvanceSection;
    PlanKeeps(s.g, s.now);
    if s.loop.Advancing? {
      AdvanceKeeps(s.g, s.loop.fire);
    }
  }

  lemma ClockQuietCall(s: State, t: nat)
    requires Structure(s) && ClockQuiet(s) && CallCanAct(s, t)
    ensures ClockQuiet(CallStep(s, t))
  {
    hide PlanNextSection, Structure;
    PlanKeeps(s.g, s.now);
    if s.calls[t].StartGo? {
      LaunchIsFirst(s, t);
    }
  }

  lemma ClockQuietStep(s: State, e: Event)
    requires Structure(s) && ClockQuiet(s) && Enabled(s, e)
    requires e.Call? ==> e.pc.StartCall? || (e.pc.SetSection? && e.pc.spec.Clock?)
    ensures ClockQuiet(Apply(s, e))
  {
    hide Structure, LoopStep, CallStep;
    match e
    case LoopActs(b) => ClockQuietLoop(s, b);
    case CallActs(t) => ClockQuietCall(s, t);
    case _ =>
  }

  lemma StructureOfSafe(s: State)
    requires Safe(s)
    ensures Structure(s)
  {
  }

  lemma {:induction false} ClockQuietOverRuns(ss: seq<State>, es: seq<Event>, i: nat)
    requires IsRun(ss, es) && ClockOnly(es) && ss[0].g.spec.Clock? && i < |ss|
    ensures ClockQuiet(ss[i])
  {
    hide IsRun, Enabled, Apply, Safe, Structure;
    RunStart(ss, es);
    if i > 0 {
      ClockQuietOverRuns(ss, es, i - 1);
      RunStep(ss, es, i - 1);
      SafeOverRuns(ss, es, i - 1);
      StructureOfSafe(ss[i - 1]);
      ClockQuietStep(ss[i - 1], es[i - 1]);
    }
  }

  /** With clock schedules only, and no RunOnce and no Stop, nothing is ever counted as skipped, however many
      minutes a job has outlasted. */
  lemma ClockSkipsAreNotCounted(ss: seq<State>, es: seq<Event>, i: nat)
    requires IsRun(ss, es) && ClockOnly(es) && ss[0].g.spec.Clock? && i < |ss|
    ensures ss[i].g.skipped == 0
  {
    hide IsRun;
    ClockQuietOverRuns(ss, es, i);
  }

  /** An instant at which a clock schedule fires. */
  predicate Due(spec: Spec, u: int) {
    u % MINUTE == 0 && Match(spec, u)
  }

  /** After a tick has fired and the next has been planned: the instant recorded is the least tick after it, or
      there is none in reach and what is recorded has come. */
  predicate NextAfterLast(s: State) {
    s.h.fired != [] ==>
      match NextFiring(s.g.spec, Last(s.h.fired))
      case Some(nx) => s.g.nextSet && s.g.next == nx
      case None => s.g.nextSet ==> s.g.next <= s.now
  }

  predicate AfterJob(pc: LoopPc) {
    pc.Starting? || pc.Working? || pc.Finishing? || pc.Plan?
  }

  /** The recorded plan follows the last firing, in a run in which only Start is called: nothing stops the
      scheduler and only its loop holds the slot. */
  ghost predicate PlanFollows(s: State) {
    && !s.g.stopped && (s.g.running <==> LoopInFlight(s.loop))
    && (forall t | t in s.calls :: IsStart(s.calls[t]) || s.calls[t].StartReturned?)
    && s.h.delivered == 0 && !s.loop.Skipping? && !s.loop.Refresh?
    && (Pending(s.loop).Some? ==> s.g.nextSet && s.g.next == Pending(s.loop).value)
    && (s.loop.Advancing? ==>
          s.g.nextSet && s.g.next == s.loop.fire <= s.now && s.h.fired != [] && Last(s.h.fired) == s.loop.fire)
    && (AfterJob(s.loop) ==> NextAfterLast(s))
    && (s.loop.NotStarted? ==> s.h.fired == [])
  }

  lemma FollowsWait(s: State, b: Branch)
    requires Safe(s) && PlanFollows(s) && LoopCanAct(s, b) && !Firing(s.loop)
    ensures PlanFollows(WaitStep(s, b))
  {
    hide Safe, PlanNextSection, NextAfterLast;
    if s.loop.Parked? {
      NoWakeWithoutSetSpec(s);
    }
    PlanKeeps(s.g, s.now);
    SchedulerWakes.PlanKeepsInstant(s.g, s.now, 0);
    PlanStopped(s.g, s.now);
    if s.loop.Plan? {
      var plan := PlanNextSection(s.g, s.now).1;
      assert plan.Fire? ==> WaitStep(s, b).loop == Arm(plan.at);
      assert !plan.Fire? ==> Pending(WaitStep(s, b).loop).None?;
    }
  }

  lemma FollowsFire(s: State)
    requires FireSound(s) && PlanFollows(s) && LoopCanAct(s, Go) && Firing(s.loop)
    ensures PlanFollows(FireStep(s))
  {
    hide NextFiring, Missed;
  }

  lemma FollowsCall(s: State, t: nat)
    requires Structure(s) && PlanFollows(s) && CallCanAct(s, t)
    ensures PlanFollows(CallStep(s, t))
  {
    hide PlanNextSection, Structure, NextFiring;
    QuietStart(s);
    PlanKeeps(s.g, s.now);
    if s.calls[t].StartGo? {
      LaunchIsFirst(s, t);
    }
  }

  lemma FollowsStep(s: State, e: Event)
    requires Safe(s) && FireSound(s) && PlanFollows(s) && Enabled(s, e)
    requires e.Call? ==> e.pc.StartCall?
    ensures PlanFollows(Apply(s, e))
  {
    hide Safe, FireSound, WaitStep, FireStep, CallStep, NextFiring;
    match e
    case LoopActs(b) =>
      if Firing(s.loop) {
        FollowsFire(s);
      } else {
        FollowsWait(s, b);
      }
    case CallActs(t) =>
      StructureOfSafe(s);
      FollowsCall(s, t);
    case _ =>
  }

  lemma StartOnlyRun(ss: seq<State>, es: seq<Event>)
    requires StartOnly(es)
    ensures ClockOnly(es)
    ensures IsRun(ss, es) && Positive(ss[0].g.spec) ==> PositiveRun(ss, es)
  {
    hide IsRun;
  }

  lemma {:induction false} FollowsOverRuns(ss: seq<State>, es: seq<Event>, i: nat)
    requires IsRun(ss, es) && StartOnly(es) && Positive(ss[0].g.spec) && i < |ss|
    ensures FireSound(ss[i]) && Safe(ss[i]) && PlanFollows(ss[i])
  {
    hide IsRun, Enabled, Apply, Safe, FireSound, PlanSound, PositiveSpecs;
    RunStart(ss, es);
    StartOnlyRun(ss, es);
    SafeOverRuns(ss, es, i);
    PlannedOverRuns(ss, es, i);
    if i > 0 {
      FollowsOverRuns(ss, es, i - 1);
      RunStep(ss, es, i - 1);
      FollowsStep(ss[i - 1], es[i - 1]);
    }
  }

  /** What planning after a job leaves out. */
  lemma PlanLeavesOut(s: State, u: int)
    requires s.loop.Plan? && s.g.spec.Clock? && s.h.fired != [] && NextAfterLast(s) && !s.g.stopped
    requires WaitStep(s, Go).loop.Arm? && Due(s.g.spec, u) && Last(s.h.fired) < u
    ensures u < WaitStep(s, Go).loop.fire <==> u <= s.now
  {
    hide NextFiring, Match;
    NextFiringIsLeast(s.g.spec, Last(s.h.fired));
    NextFiringIsLeast(s.g.spec, s.now);
  }

  /** The instant a plan waits for is the next to fire. */
  predicate FiresNext(s: State, fired: seq<int>, at: int) {
    || (s.h.fired == fired && (Pending(s.loop) == Some(at) || s.loop.Leaving? || s.loop.ClosingDone? || s.loop.Exited?))
    || (|s.h.fired| > |fired| && s.h.fired[..|fired|] == fired && s.h.fired[|fired|] == at)
  }

  lemma FiresNextStep(s: State, e: Event, fired: seq<int>, at: int)
    requires Safe(s) && PlanFollows(s) && Enabled(s, e) && FiresNext(s, fired, at)
    ensures FiresNext(Apply(s, e), fired, at)
  {
    hide Safe, PlanNextSection, AdvanceSection, NextAfterLast;
    StructureOfSafe(s);
    QuietStart(s);
    if s.loop.Parked? {
      NoWakeWithoutSetSpec(s);
    }
  }

  lemma {:induction false} FiresNextOverRuns(ss: seq<State>, es: seq<Event>, i: nat, j: nat, fired: seq<int>, at: int)
    requires IsRun(ss, es) && StartOnly(es) && Positive(ss[0].g.spec) && i <= j < |ss| && FiresNext(ss[i], fired, at)
    ensures FiresNext(ss[j], fired, at)
  {
    hide IsRun, Enabled, Apply, Safe, FireSound, PlanFollows, FiresNext;
    RunStart(ss, es);
    if i < j {
      FiresNextOverRuns(ss, es, i, j - 1, fired, at);
      FollowsOverRuns(ss, es, j - 1);
      RunStep(ss, es, j - 1);
      FiresNextStep(ss[j - 1], es[j - 1], fired, at);
    }
  }

  lemma {:induction false} SpecStays(ss: seq<State>, es: seq<Event>, i: nat)
    requires IsRun(ss, es) && StartOnly(es) && Positive(ss[0].g.spec) && i < |ss|
    ensures ss[i].g.spec == ss[0].g.spec
  {
    hide IsRun, Enabled, Apply, Safe, FireSound;
    RunStart(ss, es);
    if i > 0 {
      SpecStays(ss, es, i - 1);
      FollowsOverRuns(ss, es, i - 1);
      RunStep(ss, es, i - 1);
      SpecStep(ss[i - 1], es[i - 1]);
    }
  }

  /** Which ticks are lost under a fixed clock schedule: of the instants after one firing, those before the next
      are exactly those that had come when the loop planned it, and none of them is ever counted. */
  lemma TicksLost(ss: seq<State>, es: seq<Event>, i: nat, j: nat, u: int)
    requires IsRun(ss, es) && StartOnly(es) && ss[0].g.spec.Clock? && i < j < |ss|
    requires es[i].LoopActs? && ss[i].loop.Plan? && ss[i].h.fired != [] && |ss[j].h.fired| > |ss[i].h.fired|
    requires Due(ss[0].g.spec, u) && Last(ss[i].h.fired) < u
    ensures u < ss[j].h.fired[|ss[i].h.fired|] <==> u <= ss[i].now
    ensures ss[j].g.skipped == 0
  {
    hide IsRun, Enabled, Safe, FireSound, PlanNextSection, NextAfterLast, Due, ClockOnly;
    RunStart(ss, es);
    StartOnlyRun(ss, es);
    ClockSkipsAreNotCounted(ss, es, j);
    FollowsOverRuns(ss, es, i);
    RunStep(ss, es, i);
    SpecStays(ss, es, i);
    var s := ss[i];
    PlanStopped(s.g, s.now);
    PlanIsGo(s, es[i]);
    if ss[i + 1].loop.Arm? {
      FiresNextOverRuns(ss, es, i + 1, j, s.h.fired, ss[i + 1].loop.fire);
      PlanLeavesOut(s, u);
    } else {
      IdleFiresNothing(ss, es, i + 1, j);
    }
  }

  /** What planning after a job does with an interval. */
  lemma IntervalPlans(s: State, every: int)
    requires s.loop.Plan? && s.g.spec == Interval(every) && s.h.fired != [] && NextAfterLast(s) && !s.g.stopped
    ensures WaitStep(s, Go).loop
         == Arm(if s.now < Last(s.h.fired) + every then Last(s.h.fired) + every else s.now + every)
  {
    IntervalPlan(s.g, s.now);
  }

  /** The cadence of a fixed interval: however late the loop woke and however long the job took, the next firing is
      one interval after this one, unless that instant had come when the loop planned it; only then does the
      cadence shift, to one interval from the planning. */
  lemma CadenceHolds(ss: seq<State>, es: seq<Event>, i: nat, j: nat, every: int)
    requires IsRun(ss, es) && StartOnly(es) && ss[0].g.spec == Interval(every) && every > 0 && i < j < |ss|
    requires es[i].LoopActs? && ss[i].loop.Plan? && ss[i].h.fired != [] && |ss[j].h.fired| > |ss[i].h.fired|
    ensures var due := Last(ss[i].h.fired) + every;
      ss[j].h.fired[|ss[i].h.fired|] == if ss[i].now < due then due else ss[i].now + every
  {
    hide IsRun, Enabled, Safe, FireSound, PlanNextSection, NextAfterLast, WaitStep;
    RunStart(ss, es);
    FollowsOverRuns(ss, es, i);
    RunStep(ss, es, i);
    SpecStays(ss, es, i);
    PlanIsGo(ss[i], es[i]);
    IntervalPlans(ss[i], every);
    FiresNextOverRuns(ss, es, i + 1, j, ss[i].h.fired, ss[i + 1].loop.fire);
  }

  lemma PlanIsGo(s: State, e: Event)
    requires Enabled(s, e) && e.LoopActs? && s.loop.Plan? && !s.g.stopped
    ensures Apply(s, e) == WaitStep(s, Go) && Apply(s, e).h.fired == s.h.fired
    ensures Apply(s, e).loop.Arm? || Apply(s, e).loop.IdleParked?
  {
    hide PlanNextSection;
    PlanStopped(s.g, s.now);
    SchedulerWakes.PlanWantsStop(s.g, s.now);
  }

  lemma {:induction false} IdleFiresNothing(ss: seq<State>, es: seq<Event>, i: nat, j: nat)
    requires IsRun(ss, es) && StartOnly(es) && Positive(ss[0].g.spec) && i <= j < |ss|
    requires ss[i].loop.IdleParked?
    ensures ss[j].h.fired == ss[i].h.fired
    ensures ss[j].loop.IdleParked? || ss[j].loop.Leaving? || ss[j].loop.ClosingDone? || ss[j].loop.Exited?
  {
    hide IsRun, Enabled, Apply, Safe, FireSound;
    RunStart(ss, es);
    if i < j {
      IdleFiresNothing(ss, es, i, j - 1);
      RunStep(ss, es, j - 1);
      FollowsOverRuns(ss, es, j - 1);
      IdleStays(ss[j - 1], es[j - 1]);
    }
  }

  lemma IdleStays(s: State, e: Event)
    requires Safe(s) && Enabled(s, e)
    requires s.loop.IdleParked? || s.loop.Leaving? || s.loop.ClosingDone? || s.loop.Exited?
    ensures var t := Apply(s, e);
      && t.h.fired == s.h.fired
      && (t.loop.IdleParked? || t.loop.Leaving? || t.loop.ClosingDone? || t.loop.Exited?)
  {
    hide Safe, PlanNextSection, AdvanceSection;
    StructureOfSafe(s);
    QuietStart(s);
  }

  /** Every day at midnight. */
  const DAILY := Clock({0}, {0}, {1}, {1, 2, 3, 4, 5, 6, 7, 8, 9, 10, 11, 12}, {0}, true, true)
  const DAY := 1440 * MINUTE

  lemma DaySplit(u: int)
    ensures u % DAY == 0 <==> u % MINUTE == 0 && u / MINUTE % 1440 == 0
  {
    var n := u / MINUTE;
    assert u == n / 1440 * DAY + (n % 1440 * MINUTE + u % MINUTE);
    assert 0 <= n % 1440 * MINUTE + u % MINUTE < DAY;
  }

  lemma Midnight(n: int)
    ensures n % 1440 == 0 <==> n / 60 % 24 == 0 && n % 60 == 0
  {
    MinuteSplit(n);
  }

  lemma DailyMatches(u: int)
    ensures Due(DAILY, u) <==> u % DAY == 0
  {
    hide CivilOf;
    DaySplit(u);
    Midnight(u / MINUTE);
    assert 1 <= CivilOf(u / MINUTE / 1440).month <= 12;
  }

  lemma DayMultiple(k: int)
    ensures k * DAY % DAY == 0
  {
  }

  lemma NoDayBetween(k: int, r: int)
    requires r % DAY == 0 && k * DAY < r <= (k + 1) * DAY
    ensures r == (k + 1) * DAY
  {
  }

  lemma DailyNext(k: int)
    ensures NextFiring(DAILY, k * DAY) == Some((k + 1) * DAY)
  {
    hide NextFiring, Match;
    WindowComplete(DAILY, k * DAY);
    NextFiringIsLeast(DAILY, k * DAY);
    DayMultiple(k + 1);
    DailyMatches((k + 1) * DAY);
    var r := NextFiring(DAILY, k * DAY).value;
    DailyMatches(r);
    NoDayBetween(k, r);
  }

  /** Its first tick has fired and its job has been running for three days. */
  const LONG_JOB := State(
    Guarded(DAILY, true, false, Some(0), Some(1), Some(2), 2 * DAY, true, 0, 0),
    Working(DAY), map[1 := StartReturned], Channels(3, {}, false), 4 * DAY, false, History(1, {}, 0, 0, [DAY]))

  lemma ReachFirstMidnight() returns (ss: seq<State>, es: seq<Event>)
    ensures IsRun(ss, es) && |ss| == |es| + 1
    ensures ss[|es|] == State(
      Guarded(DAILY, false, false, Some(0), Some(1), Some(2), DAY, true, 0, 0), Timed(DAY, DAY),
      map[1 := StartReturned], Channels(3, {}, false), 0, false, History(0, {}, 0, 0, []))
  {
    hide NextFiring, IsRun;
    var init := State(New(DAILY), NotStarted, map[], Channels(0, {}, false), 0, false, History(0, {}, 0, 0, []));
    SchedulerWakes.FirstRun(init);
    DailyNext(0);
    ss, es := SchedulerWakes.Extend([init], [], Call(1, StartCall));
    ss, es := SchedulerWakes.Extend(ss, es, CallActs(1));
    assert ss[|es|].calls == map[1 := StartPlan];
    ss, es := SchedulerWakes.Extend(ss, es, CallActs(1));
    assert ss[|es|].calls == map[1 := StartGo];
    ss, es := SchedulerWakes.Extend(ss, es, CallActs(1));
    assert ss[|es|].calls == map[1 := StartReturned];
    ss, es := SchedulerWakes.Extend(ss, es, LoopActs(Go));
    ss, es := SchedulerWakes.Extend(ss, es, LoopActs(Go));
  }

  lemma ReachLongJob() returns (ss: seq<State>, es: seq<Event>)
    ensures IsRun(ss, es) && |ss| == |es| + 1 && ss[|es|] == LONG_JOB
  {
    hide NextFiring, IsRun;
    DailyNext(1);
    ss, es := ReachFirstMidnight();
    ss, es := SchedulerWakes.Extend(ss, es, LoopActs(Go));
    ss, es := SchedulerWakes.Extend(ss, es, Tick(DAY));
    ss, es := SchedulerWakes.Extend(ss, es, LoopActs(ByTimer));
    ss, es := SchedulerWakes.Extend(ss, es, LoopActs(Go));
    ss, es := SchedulerWakes.Extend(ss, es, LoopActs(Go));
    ss, es := SchedulerWakes.Extend(ss, es, LoopActs(Go));
    ss, es := SchedulerWakes.Extend(ss, es, Tick(4 * DAY));
  }

  /** Three midnights lost to a job of three days, and nothing counted: the loop waits for the fifth. */
  lemma UncountedTicks() returns (ss: seq<State>, es: seq<Event>)
    ensures IsRun(ss, es) && |ss| == |es| + 1
    ensures var s := ss[|es|];
      && s.h.fired == [DAY] && s.loop == Arm(5 * DAY) && s.g.skipped == 0
      && Due(DAILY, 2 * DAY) && Due(DAILY, 3 * DAY) && Due(DAILY, 4 * DAY)
  {
    hide NextFiring, IsRun, Due;
    DailyNext(4);
    DailyMatches(2 * DAY);
    DailyMatches(3 * DAY);
    DailyMatches(4 * DAY);
    ss, es := ReachLongJob();
    ss, es := SchedulerWakes.Extend(ss, es, LoopActs(Go));
    ss, es := SchedulerWakes.Extend(ss, es, LoopActs(Go));
    ss, es := SchedulerWakes.Extend(ss, es, LoopActs(Go));
  }
}
