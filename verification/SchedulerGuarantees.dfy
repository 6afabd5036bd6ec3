// What the scheduler guarantees over whole runs: its plan, its firings and its
// stop.

module SchedulerGuarantees {
  import opened Options
  import opened Cron
  import opened Scheduler
  import opened SchedulerProtocol

  // ----- the plan and the instants fired ------------------------------------

  /** Every specification Parse accepts has a positive interval. */
  predicate Positive(spec: Spec) {
    spec.Interval? ==> spec.every > 0
  }

  ghost predicate PositiveSpecs(s: State) {
    && Positive(s.g.spec)
    && forall t | t in s.calls && s.calls[t].SetSection? :: Positive(s.calls[t].spec)
  }

  /** While not stopped, an advertised plan satisfies the current specification. */
  ghost predicate PlanSound(s: State) {
    && (s.g.stopCh.None? ==> !s.g.nextSet)
    && (!s.g.stopped && s.g.nextSet ==> Match(s.g.spec, s.g.next))
  }

  function Pending(pc: LoopPc): Option<int> {
    match pc
    case Arm(fire) => Some(fire)
    case Timed(fire, _) => Some(fire)
    case Parked(fire, _, _) => Some(fire)
    case Claiming(fire) => Some(fire)
    case _ => None
  }

  /** Instants fire in strictly increasing order, none before its time. */
  ghost predicate FireSound(s: State) {
    var fired := s.h.fired;
    && (forall i, j :: 0 <= i < j < |fired| ==> fired[i] < fired[j])
    && (fired != [] ==> fired[|fired| - 1] <= s.now)
    && (fired != [] && Pending(s.loop).Some? ==> fired[|fired| - 1] < Pending(s.loop).value)
    && (s.loop.Timed? ==> s.loop.fire <= s.loop.deadline)
    && (s.loop.Parked? ==> s.loop.fire <= s.loop.deadline)
    && (s.loop.Claiming? ==> s.loop.fire <= s.now)
  }

  lemma FiresPlan(s: State)
    requires PositiveSpecs(s) && PlanSound(s) && FireSound(s) && s.loop.Plan?
    ensures FireSound(WaitStep(s, Go))
  {
    hide PlanNextSection, Match;
    PlanStopped(s.g, s.now);
    if !s.g.stopped {
      PlanIsAhead(s.g, s.now);
      var plan := PlanNextSection(s.g, s.now).1;
      assert plan.Fire? ==> plan.at > s.now && WaitStep(s, Go).loop == Arm(plan.at);
    }
  }

  lemma FiresWait(s: State, b: Branch)
    requires PositiveSpecs(s) && PlanSound(s) && FireSound(s) && LoopCanAct(s, b) && !Firing(s.loop)
    ensures FireSound(WaitStep(s, b))
  {
    hide PlanNextSection, Match, PlanSound, PositiveSpecs;
    if s.loop.Plan? {
      FiresPlan(s);
    }
  }

  lemma PlanStopped(g: Guarded, now: int)
    ensures g.stopped ==> PlanNextSection(g, now) == (g, WantStop)
  {
  }

  lemma PlanWait(s: State, b: Branch)
    requires PositiveSpecs(s) && PlanSound(s) && Structure(s) && LoopCanAct(s, b) && !Firing(s.loop)
    ensures PlanSound(WaitStep(s, b)) && PositiveSpecs(WaitStep(s, b))
  {
    hide PlanNextSection, Match;
    PlanSectionSound(s.g, s.now);
  }

  /** planNext keeps the advertised plan matching. */
  lemma PlanSectionSound(g: Guarded, now: int)
    requires Positive(g.spec)
    requires !g.stopped && g.nextSet ==> Match(g.spec, g.next)
    ensures var h := PlanNextSection(g, now).0;
      && (!h.stopped && h.nextSet ==> Match(h.spec, h.next)) && h == g.(next := h.next, nextSet := h.nextSet)
  {
    hide Match, NextFiring;
    PlanKeeps(g, now);
    NextFiringIsLater(g.spec, now);
  }

  /** advance keeps it matching too, whatever specification the tick was planned for. */
  lemma AdvanceSectionSound(g: Guarded, fire: int)
    requires Positive(g.spec)
    requires !g.stopped && g.nextSet ==> Match(g.spec, g.next)
    ensures var h := AdvanceSection(g, fire);
      && (!h.stopped && h.nextSet ==> Match(h.spec, h.next)) && h == g.(next := h.next, nextSet := h.nextSet)
  {
    hide Match, NextFiring;
    AdvanceKeeps(g, fire);
    NextFiringIsLater(g.spec, fire);
  }

  lemma PlanFire(s: State)
    requires PositiveSpecs(s) && PlanSound(s) && Structure(s) && LoopCanAct(s, Go) && Firing(s.loop)
    ensures PlanSound(FireStep(s)) && PositiveSpecs(FireStep(s))
  {
    hide AdvanceSection, Match;
    if s.loop.Advancing? {
      AdvanceSectionSound(s.g, s.loop.fire);
    }
  }

  lemma FiresFire(s: State)
    requires FireSound(s) && LoopCanAct(s, Go) && Firing(s.loop)
    ensures FireSound(FireStep(s))
  {
    hide AdvanceSection;
  }

  lemma PlanCall(s: State, t: nat)
    requires PositiveSpecs(s) && PlanSound(s) && Structure(s) && CallCanAct(s, t)
    ensures PlanSound(CallStep(s, t)) && PositiveSpecs(CallStep(s, t))
  {
    hide PositiveSpecs, Match, Structure, OnceStep, SetStep, StopStep, StartStep;
    if IsOnce(s.calls[t]) {
      PlanOnce(s, t);
    } else if IsSet(s.calls[t]) {
      PlanSet(s, t);
    } else if IsStop(s.calls[t]) {
      PlanStop(s, t);
    } else {
      PlanStart(s, t);
    }
  }

  lemma SpecsMove(s: State, s': State, t: nat, pc: CallPc)
    requires PositiveSpecs(s) && s'.calls == s.calls[t := pc] && Positive(s'.g.spec)
    requires pc.SetSection? ==> Positive(pc.spec)
    ensures PositiveSpecs(s')
  {
  }

  lemma PlanOnce(s: State, t: nat)
    requires PositiveSpecs(s) && PlanSound(s) && CallCanAct(s, t) && IsOnce(s.calls[t])
    ensures PlanSound(OnceStep(s, t)) && PositiveSpecs(OnceStep(s, t))
  {
    hide Match, PositiveSpecs;
    SpecIsPositive(s);
    SpecsMove(s, OnceStep(s, t), t, OnceStep(s, t).calls[t]);
  }

  lemma SpecIsPositive(s: State)
    requires PositiveSpecs(s)
    ensures Positive(s.g.spec)
    ensures forall t | t in s.calls && s.calls[t].SetSection? :: Positive(s.calls[t].spec)
  {
  }

  lemma PlanSet(s: State, t: nat)
    requires PositiveSpecs(s) && PlanSound(s) && Structure(s) && CallCanAct(s, t) && IsSet(s.calls[t])
    ensures PlanSound(SetStep(s, t)) && PositiveSpecs(SetStep(s, t))
  {
    hide Match, PositiveSpecs, PlanNextSection;
    SpecIsPositive(s);
    PlanSectionSound(s.g, s.now);
    SpecsMove(s, SetStep(s, t), t, SetStep(s, t).calls[t]);
  }

  lemma PlanStop(s: State, t: nat)
    requires PositiveSpecs(s) && PlanSound(s) && CallCanAct(s, t) && IsStop(s.calls[t])
    ensures PlanSound(StopStep(s, t)) && PositiveSpecs(StopStep(s, t))
  {
    hide Match, PositiveSpecs;
    SpecIsPositive(s);
    SpecsMove(s, StopStep(s, t), t, StopStep(s, t).calls[t]);
  }

  lemma PlanStart(s: State, t: nat)
    requires PositiveSpecs(s) && PlanSound(s) && Structure(s) && CallCanAct(s, t) && IsStart(s.calls[t])
    ensures PlanSound(StartStep(s, t)) && PositiveSpecs(StartStep(s, t))
  {
    hide Match, PositiveSpecs, PlanNextSection;
    SpecIsPositive(s);
    PlanSectionSound(s.g, s.now);
    SpecsMove(s, StartStep(s, t), t, StartStep(s, t).calls[t]);
  }

  lemma FiresCall(s: State, t: nat)
    requires FireSound(s) && CallCanAct(s, t)
    requires s.calls[t].StartGo? ==> s.loop.NotStarted?
    ensures FireSound(CallStep(s, t))
  {
    hide PlanNextSection;
  }

  /** Only positive specifications are passed to the scheduler during the run. */
  ghost predicate PositiveRun(ss: seq<State>, es: seq<Event>) {
    && IsRun(ss, es)
    && Positive(ss[0].g.spec)
    && forall i | 0 <= i < |es| && es[i].Call? && es[i].pc.SetSection? :: Positive(es[i].pc.spec)
  }

  lemma PlannedKept(s: State, e: Event)
    requires Structure(s) && PositiveSpecs(s) && PlanSound(s) && FireSound(s) && Enabled(s, e)
    requires e.Call? && e.pc.SetSection? ==> Positive(e.pc.spec)
    ensures PositiveSpecs(Apply(s, e)) && PlanSound(Apply(s, e)) && FireSound(Apply(s, e))
  {
    hide Structure, Match, WaitStep, FireStep, CallStep;
    match e
    case Tick(_) =>
    case Cancel =>
    case Call(t, pc) =>
    case CallActs(t) =>
      if s.calls[t].StartGo? {
        LaunchIsFirst(s, t);
      }
      PlanCall(s, t);
      FiresCall(s, t);
    case LoopActs(b) =>
      if Firing(s.loop) {
        PlanFire(s);
        FiresFire(s);
      } else {
        PlanWait(s, b);
        FiresWait(s, b);
      }
  }

  lemma {:induction false} PlannedOverRuns(ss: seq<State>, es: seq<Event>, i: nat)
    requires PositiveRun(ss, es) && i < |ss|
    ensures PositiveSpecs(ss[i]) && PlanSound(ss[i]) && FireSound(ss[i])
  {
    hide Apply, Enabled, IsRun, Match;
    RunStart(ss, es);
    if i > 0 {
      PlannedOverRuns(ss, es, i - 1);
      SafeOverRuns(ss, es, i - 1);
      RunStep(ss, es, i - 1);
      PlannedKept(ss[i - 1], es[i - 1]);
    }
  }

  /** A SetSpec takes its section. */
  predicate Sets(s: State, e: Event) {
    e.CallActs? && e.thread in s.calls && s.calls[e.thread].SetSection?
  }

  lemma SpecStep(s: State, e: Event)
    requires Enabled(s, e)
    ensures Apply(s, e).g.spec == if Sets(s, e) then s.calls[e.thread].spec else s.g.spec
  {
    hide PlanNextSection, AdvanceSection, Missed;
    PlanKeeps(s.g, s.now);
    if s.loop.Advancing? {
      AdvanceKeeps(s.g, s.loop.fire);
    }
  }

  /** The specification in force is the one set last, started or not, stopped or not. */
  lemma {:induction false} SpecIsLastSet(ss: seq<State>, es: seq<Event>, i: nat, j: nat)
    requires IsRun(ss, es) && i < j < |ss| && Sets(ss[i], es[i])
    requires forall k :: i < k < j ==> !Sets(ss[k], es[k])
    ensures ss[j].g.spec == ss[i].calls[es[i].thread].spec
  {
    hide IsRun, Enabled, Apply;
    RunStart(ss, es);
    RunStep(ss, es, j - 1);
    SpecStep(ss[j - 1], es[j - 1]);
    if i < j - 1 {
      SpecIsLastSet(ss, es, i, j - 1);
    }
  }

  /** The instant the status page advertises always satisfies the current specification. */
  lemma AdvertisedPlanMatches(ss: seq<State>, es: seq<Event>, i: nat)
    requires PositiveRun(ss, es) && i < |ss|
    ensures !ss[i].g.stopped && ss[i].g.nextSet ==> Match(ss[i].g.spec, ss[i].g.next)
  {
    PlannedOverRuns(ss, es, i);
  }

  /** No tick fires twice or early: the instants the loop claims strictly increase and have come. */
  lemma FiredInstantsIncrease(ss: seq<State>, es: seq<Event>, i: nat)
    requires PositiveRun(ss, es) && i < |ss|
    ensures var fired := ss[i].h.fired;
      && (forall j, k :: 0 <= j < k < |fired| ==> fired[j] < fired[k])
      && (forall j :: 0 <= j < |fired| ==> fired[j] <= ss[i].now)
  {
    hide PositiveRun;
    PlannedOverRuns(ss, es, i);
    assert FireSound(ss[i]);
  }

  // ----- RunOnce, and how long a job took -----------------------------------

  lemma LoopKeepsCalls(s: State, b: Branch)
    requires LoopCanAct(s, b)
    ensures LoopStep(s, b).calls == s.calls
  {
    hide PlanNextSection, AdvanceSection, FinishSection;
  }

  lemma CallStays(s: State, e: Event, t: nat)
    requires Enabled(s, e) && t in s.calls && e != CallActs(t)
    ensures t in Apply(s, e).calls && Apply(s, e).calls[t] == s.calls[t]
  {
    hide PlanNextSection, FinishSection, LoopStep;
    if e.LoopActs? {
      LoopKeepsCalls(s, e.branch);
    }
  }

  /** A RunOnce that has made its claim: in flight and then true, or refused. */
  predicate OnceClaimed(s: State, t: nat, ok: bool) {
    t in s.calls
    && if ok then CallInFlight(s.calls[t]) || s.calls[t] == OnceReturned(true) else s.calls[t] == OnceReturned(false)
  }

  lemma OnceClaimedStep(s: State, e: Event, t: nat, ok: bool)
    requires OnceClaimed(s, t, ok) && Enabled(s, e)
    ensures OnceClaimed(Apply(s, e), t, ok)
  {
    hide FinishSection, LoopStep, PlanNextSection;
    if e != CallActs(t) {
      CallStays(s, e, t);
    }
  }

  lemma OnceClaims(s: State, t: nat)
    requires CallCanAct(s, t) && s.calls[t].OnceClaim?
    ensures OnceClaimed(CallStep(s, t), t, !s.g.running && !s.g.stopped)
  {
  }

  /** RunOnce runs the job exactly when nothing was in flight, and nothing had stopped the scheduler, at its claim. */
  lemma {:induction false} RunOnceOutcome(ss: seq<State>, es: seq<Event>, i: nat, j: nat, t: nat)
    requires IsRun(ss, es) && i < j < |ss| && es[i] == CallActs(t) && t in ss[i].calls && ss[i].calls[t].OnceClaim?
    ensures OnceClaimed(ss[j], t, !ss[i].g.running && !ss[i].g.stopped)
  {
    hide IsRun, OnceClaimed, CallStep, LoopStep;
    RunStart(ss, es);
    RunStep(ss, es, j - 1);
    if i == j - 1 {
      OnceClaims(ss[i], t);
    } else {
      RunOnceOutcome(ss, es, i, j - 1, t);
      OnceClaimedStep(ss[j - 1], es[j - 1], t, !ss[i].g.running && !ss[i].g.stopped);
    }
  }

  /** What the loop does next stays the same until it acts, once it runs. */
  lemma LoopStays(s: State, e: Event)
    requires Safe(s) && Enabled(s, e) && !e.LoopActs? && !s.loop.NotStarted?
    ensures Apply(s, e).loop == s.loop
  {
    hide Slot, Structure, ChannelsSound, ParkSound, CountSound, PlanNextSection, Missed;
    if e.CallActs? && s.calls[e.thread].StartGo? {
      LaunchIsFirst(s, e.thread);
    }
  }

  /** The duration the loop's finish is given is the time from the start of its job to its end. */
  lemma {:induction false} LoopJobTime(ss: seq<State>, es: seq<Event>, i: nat, j: nat)
    requires IsRun(ss, es) && i < j < |ss| && es[i].LoopActs? && ss[i].loop.Starting?
    requires forall k :: i < k < j ==> !es[k].LoopActs?
    ensures ss[j].loop == Working(ss[i].now)
    ensures j < |es| && es[j].LoopActs? ==> ss[j + 1].loop == Finishing(ss[j].now - ss[i].now)
  {
    hide IsRun, Safe, CallStep;
    RunStart(ss, es);
    RunStep(ss, es, j - 1);
    if i < j - 1 {
      LoopJobTime(ss, es, i, j - 1);
      SafeOverRuns(ss, es, j - 1);
      LoopStays(ss[j - 1], es[j - 1]);
    }
    if j < |es| {
      RunStep(ss, es, j);
    }
  }

  /** The duration RunOnce's finish is given is the time from the start of its job to its end. */
  lemma {:induction false} OnceJobTime(ss: seq<State>, es: seq<Event>, i: nat, j: nat, t: nat)
    requires IsRun(ss, es) && i < j < |ss| && es[i] == CallActs(t) && t in ss[i].calls && ss[i].calls[t].OnceStarting?
    requires forall k :: i < k < j ==> es[k] != CallActs(t)
    ensures t in ss[j].calls && ss[j].calls[t] == OnceWorking(ss[i].now)
    ensures j < |es| && es[j] == CallActs(t) ==> ss[j + 1].calls[t] == OnceFinishing(ss[j].now - ss[i].now)
  {
    hide IsRun, LoopStep;
    RunStart(ss, es);
    RunStep(ss, es, j - 1);
    if i < j - 1 {
      OnceJobTime(ss, es, i, j - 1, t);
      CallStays(ss[j - 1], es[j - 1], t);
    }
    if j < |es| {
      RunStep(ss, es, j);
    }
  }

  // ----- stopping -----------------------------------------------------------

  /** A cancelled context can always end the loop's wait. */
  lemma CancelEndsWait(s: State)
    requires s.loop.Parked? || s.loop.IdleParked?
    ensures Enabled(s, Cancel) && Apply(s, Cancel) == s.(ctxDone := true)
    ensures LoopCanAct(Apply(s, Cancel), ByCtx) && LoopStep(Apply(s, Cancel), ByCtx).loop == Leaving
  {
  }

  predicate Stopping(pc: CallPc) {
    pc.StopWait? || (pc.StopReturned? && pc.ok)
  }

  /** One Stop at most takes effect, and it returns only after the loop has closed done. */
  ghost predicate StopSound(s: State) {
    && (forall t | t in s.calls && Stopping(s.calls[t]) :: s.g.stopped)
    && (forall t, u | t in s.calls && u in s.calls && Stopping(s.calls[t]) && Stopping(s.calls[u]) :: t == u)
    && (forall t | t in s.calls && s.calls[t] == StopReturned(true) :: s.loop.Exited?)
  }

  lemma StopMove(s: State, s': State, t: nat, pc: CallPc)
    requires StopSound(s) && s'.calls == s.calls[t := pc] && s'.loop == s.loop && s'.g.stopped == s.g.stopped
    requires !Stopping(pc)
    ensures StopSound(s')
  {
  }

  lemma StopCall(s: State, t: nat)
    requires Structure(s) && ChannelsSound(s) && StopSound(s) && CallCanAct(s, t)
    ensures StopSound(CallStep(s, t))
    ensures s.g.stopped ==> CallStep(s, t).g.stopped && CallStep(s, t).h.claims == s.h.claims
  {
    hide Structure, ChannelsSound, StopSound, PlanNextSection;
    PlanKeeps(s.g, s.now);
    var s' := CallStep(s, t);
    if IsStop(s.calls[t]) {
      StopStops(s, t);
    } else if s.calls[t].StartGo? {
      LaunchIsFirst(s, t);
      StopLaunch(s, t);
    } else {
      StopMove(s, s', t, s'.calls[t]);
    }
  }

  lemma StopStops(s: State, t: nat)
    requires Structure(s) && ChannelsSound(s) && StopSound(s) && CallCanAct(s, t) && IsStop(s.calls[t])
    ensures StopSound(StopStep(s, t))
  {
  }

  lemma StopLaunch(s: State, t: nat)
    requires StopSound(s) && CallCanAct(s, t) && s.calls[t].StartGo? && s.loop.NotStarted?
    ensures StopSound(StartStep(s, t))
  {
  }

  lemma StopLoop(s: State, b: Branch)
    requires StopSound(s) && LoopCanAct(s, b)
    ensures StopSound(LoopStep(s, b))
    ensures s.g.stopped ==> LoopStep(s, b).g.stopped && LoopStep(s, b).h.claims == s.h.claims
  {
    hide PlanNextSection, AdvanceSection;
    PlanKeeps(s.g, s.now);
    if s.loop.Advancing? {
      AdvanceKeeps(s.g, s.loop.fire);
    }
  }

  lemma StopKept(s: State, e: Event)
    requires Safe(s) && StopSound(s) && Enabled(s, e)
    ensures StopSound(Apply(s, e))
    ensures s.g.stopped ==> Apply(s, e).g.stopped && Apply(s, e).h.claims == s.h.claims
  {
    hide StopSound, Structure, ChannelsSound, LoopStep, CallStep;
    match e
    case Tick(_) => StopClock(s, Apply(s, e));
    case Cancel => StopClock(s, Apply(s, e));
    case Call(t, pc) => StopMove(s, Apply(s, e), t, pc);
    case CallActs(t) => StopCall(s, t);
    case LoopActs(b) => StopLoop(s, b);
  }

  lemma StopClock(s: State, s': State)
    requires StopSound(s) && s' == s.(now := s'.now, ctxDone := s'.ctxDone)
    ensures StopSound(s')
  {
  }

  lemma {:induction false} StopOverRuns(ss: seq<State>, es: seq<Event>, i: nat)
    requires IsRun(ss, es) && i < |ss|
    ensures StopSound(ss[i])
  {
    hide Apply, Safe, Enabled, IsRun;
    RunStart(ss, es);
    if i > 0 {
      StopOverRuns(ss, es, i - 1);
      SafeOverRuns(ss, es, i - 1);
      RunStep(ss, es, i - 1);
      StopKept(ss[i - 1], es[i - 1]);
    }
  }

  /** A Stop that has made its request: waiting or true if it took effect, and false if not. */
  predicate StopMade(s: State, t: nat, ok: bool) {
    t in s.calls && if ok then Stopping(s.calls[t]) else s.calls[t] == StopReturned(false)
  }

  lemma StopMadeStep(s: State, e: Event, t: nat, ok: bool)
    requires StopMade(s, t, ok) && Enabled(s, e)
    ensures StopMade(Apply(s, e), t, ok)
  {
    hide FinishSection, LoopStep, PlanNextSection;
    if e != CallActs(t) {
      CallStays(s, e, t);
    }
  }

  lemma StopMakes(s: State, t: nat)
    requires CallCanAct(s, t) && s.calls[t].StopSection?
    ensures StopMade(CallStep(s, t), t, s.g.stopCh.Some? && !s.g.stopped)
  {
  }

  lemma WaitsForExit(s: State, t: nat)
    requires Structure(s) && ChannelsSound(s) && t in s.calls && s.calls[t].StopWait?
    ensures CallCanAct(s, t) <==> s.loop.Exited?
  {
  }

  /** A Stop that waits can return exactly once the loop has exited. */
  lemma StopReturnsAtExit(ss: seq<State>, es: seq<Event>, i: nat, t: nat)
    requires IsRun(ss, es) && i < |ss| && t in ss[i].calls && ss[i].calls[t].StopWait?
    ensures CallCanAct(ss[i], t) <==> ss[i].loop.Exited?
  {
    hide IsRun;
    SafeOverRuns(ss, es, i);
    WaitsForExit(ss[i], t);
  }

  /** A Stop takes effect exactly when it finds the scheduler started and not stopped: only then does it wait and
      return true, and otherwise it has returned false. */
  lemma {:induction false} StopOutcome(ss: seq<State>, es: seq<Event>, i: nat, j: nat, t: nat)
    requires IsRun(ss, es) && i < j < |ss| && es[i] == CallActs(t) && t in ss[i].calls && ss[i].calls[t].StopSection?
    ensures StopMade(ss[j], t, ss[i].g.stopCh.Some? && !ss[i].g.stopped)
  {
    hide IsRun, StopMade, CallStep, LoopStep, CallCanAct;
    RunStart(ss, es);
    RunStep(ss, es, j - 1);
    if i == j - 1 {
      EnabledAct(ss[i], t);
      StopMakes(ss[i], t);
    } else {
      StopOutcome(ss, es, i, j - 1, t);
      StopMadeStep(ss[j - 1], es[j - 1], t, ss[i].g.stopCh.Some? && !ss[i].g.stopped);
    }
  }

  lemma EnabledAct(s: State, t: nat)
    requires Enabled(s, CallActs(t))
    ensures CallCanAct(s, t)
  {
  }

  /** Once stopped, the scheduler stays stopped and no claim succeeds any more. */
  lemma {:induction false} StoppedForGood(ss: seq<State>, es: seq<Event>, i: nat, j: nat)
    requires IsRun(ss, es) && i <= j < |ss| && ss[i].g.stopped
    ensures ss[j].g.stopped && ss[j].h.claims == ss[i].h.claims
  {
    hide Apply, Safe, Enabled, StopSound, IsRun;
    RunStart(ss, es);
    if i < j {
      RunStep(ss, es, j - 1);
      StoppedForGood(ss, es, i, j - 1);
      SafeOverRuns(ss, es, j - 1);
      StopOverRuns(ss, es, j - 1);
      StopKept(ss[j - 1], es[j - 1]);
    }
  }

  /** From when a Stop has returned true the loop has exited for good, so no job of its is in flight, no later
      claim succeeds, and no other Stop returned or will return true. */
  lemma StopIsFinal(ss: seq<State>, es: seq<Event>, i: nat, j: nat, t: nat)
    requires IsRun(ss, es) && i <= j < |ss|
    requires t in ss[i].calls && ss[i].calls[t] == StopReturned(true)
    ensures ss[j].loop.Exited? && ss[j].h.claims == ss[i].h.claims
    ensures forall u | u in ss[j].calls && ss[j].calls[u] == StopReturned(true) :: u == t
  {
    hide IsRun;
    StopOverRuns(ss, es, i);
    StopOverRuns(ss, es, j);
    assert Stopping(ss[i].calls[t]);
    StoppedForGood(ss, es, i, j);
    ReturnedStays(ss, es, i, j, t);
  }

  lemma {:induction false} ReturnedStays(ss: seq<State>, es: seq<Event>, i: nat, j: nat, t: nat)
    requires IsRun(ss, es) && i <= j < |ss| && t in ss[i].calls && Returned(ss[i].calls[t])
    ensures t in ss[j].calls && ss[j].calls[t] == ss[i].calls[t]
  {
    hide Apply, Enabled, Returned, IsRun;
    RunStart(ss, es);
    if i < j {
      RunStep(ss, es, j - 1);
      ReturnedStays(ss, es, i, j - 1, t);
      ReturnedStep(ss[j - 1], es[j - 1], t);
    }
  }

  lemma ReturnedStep(s: State, e: Event, t: nat)
    requires Enabled(s, e) && t in s.calls && Returned(s.calls[t])
    ensures t in Apply(s, e).calls && Apply(s, e).calls[t] == s.calls[t]
  {
    hide PlanNextSection, AdvanceSection;
  }

  /** How many more steps of its own a stopped loop can take. */
  function StepsLeft(pc: LoopPc): nat {
    match pc
    case NotStarted => 12
    case Arm(_) => 11
    case Timed(_, _) => 10
    case Parked(_, _, _) => 9
    case Advancing(_) => 9
    case Starting => 8
    case Working(_) => 7
    case Claiming(_) => 7
    case Refresh => 6
    case Skipping => 6
    case Finishing(_) => 6
    case Plan => 4
    case IdleParked => 4
    case Leaving => 2
    case ClosingDone(_) => 1
    case Exited => 0
  }

  /** Whichever ready case a select takes, every step of a stopped loop brings its exit closer. */
  lemma StoppedLoopProgresses(s: State, b: Branch)
    requires s.g.stopped && LoopCanAct(s, b)
    ensures StepsLeft(LoopStep(s, b).loop) < StepsLeft(s.loop)
  {
    hide PlanNextSection, AdvanceSection;
    PlanStopped(s.g, s.now);
  }

  /** A stopped loop that has started and not exited always has a step to take; only a job in progress
      makes it wait, for that job to return. */
  lemma StoppedLoopCanMove(s: State)
    requires Safe(s) && s.g.stopped && !s.loop.NotStarted? && !s.loop.Exited?
    ensures LoopCanAct(s, Go) || LoopCanAct(s, ByStop)
  {
    hide Slot, ParkSound, CountSound;
    assert IsClosed(s.chans, s.g.stopCh) by {
      StopChClosed(s);
    }
  }

  lemma StopChClosed(s: State)
    requires Structure(s) && ChannelsSound(s) && s.g.stopped
    ensures IsClosed(s.chans, s.g.stopCh)
  {
  }

  ghost function LoopSteps(es: seq<Event>): nat {
    if es == [] then 0 else LoopSteps(es[..|es| - 1]) + if es[|es| - 1].LoopActs? then 1 else 0
  }

  /** From any stopped state the loop takes at most StepsLeft more steps, however the run goes on. */
  lemma {:induction false} StoppedLoopExits(ss: seq<State>, es: seq<Event>, i: nat, j: nat)
    requires IsRun(ss, es) && i <= j < |ss| && ss[i].g.stopped
    ensures LoopSteps(es[i..j]) + StepsLeft(ss[j].loop) <= StepsLeft(ss[i].loop)
  {
    hide Safe, Apply, Enabled, IsRun, StepsLeft, LoopSteps;
    RunStart(ss, es);
    LoopStepsSplit(es, i, j);
    if i < j {
      RunStep(ss, es, j - 1);
      StoppedLoopExits(ss, es, i, j - 1);
      StoppedForGood(ss, es, i, j - 1);
      SafeOverRuns(ss, es, j - 1);
      StepsLeftStep(ss[j - 1], es[j - 1]);
    }
  }

  lemma LoopStepsSplit(es: seq<Event>, i: nat, j: nat)
    requires i <= j <= |es|
    ensures i == j ==> LoopSteps(es[i..j]) == 0
    ensures i < j ==> LoopSteps(es[i..j]) == LoopSteps(es[i..j - 1]) + if es[j - 1].LoopActs? then 1 else 0
  {
    if i < j {
      assert es[i..j][..j - i - 1] == es[i..j - 1];
    }
  }

  lemma StepsLeftStep(s: State, e: Event)
    requires Safe(s) && s.g.stopped && Enabled(s, e)
    ensures StepsLeft(Apply(s, e).loop) + (if e.LoopActs? then 1 else 0) <= StepsLeft(s.loop)
  {
    hide Safe, LoopStep, CallStep;
    match e
    case LoopActs(b) => StoppedLoopProgresses(s, b);
    case CallActs(t) => CallKeepsSteps(s, t);
    case _ =>
  }

  lemma CallKeepsSteps(s: State, t: nat)
    requires Safe(s) && CallCanAct(s, t)
    ensures StepsLeft(CallStep(s, t).loop) <= StepsLeft(s.loop)
  {
    hide PlanNextSection, Slot, ChannelsSound, ParkSound, CountSound;
    if s.calls[t].StartGo? {
      LaunchIsFirst(s, t);
    }
  }
}
