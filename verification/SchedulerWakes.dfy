// Whether a change of plan reaches the loop: the wake of a parked loop, the wake
// that is lost, and what the loop waits for.

module SchedulerWakes {
  import opened Options
  import opened Calendar
  import opened Cron
  import opened Scheduler
  import opened SchedulerProtocol
  import opened SchedulerGuarantees

  // ----- a pending wake stays pending ---------------------------------------

  lemma PendingKept(s: State, e: Event, on: Option<nat>)
    requires Safe(s) && Enabled(s, e) && WakePending(s, on)
    ensures WakePending(Apply(s, e), on)
  {
    hide Slot, ParkSound, CountSound, PlanNextSection, AdvanceSection, Structure, ChannelsSound;
    var s' := Apply(s, e);
    if e.CallActs? {
      if s.calls[e.thread].SetClose? {
        CloserHolds(s, e.thread);
      }
      CallGrowsClosed(s, e.thread);
      PendingStays(s, s', e.thread, s'.calls[e.thread], on);
    } else if e.Call? {
      PendingStays(s, s', e.thread, e.pc, on);
    } else if t :| Closing(s, t) && s.calls[t].stale == on {
      assert Closing(s', t);
    }
  }

  lemma CallGrowsClosed(s: State, t: nat)
    requires CallCanAct(s, t)
    requires s.calls[t].SetClose? ==> s.calls[t].stale.Some?
    ensures var s' := CallStep(s, t);
      && s'.calls == s.calls[t := s'.calls[t]] && s.chans.closed <= s'.chans.closed
      && (s.calls[t].SetClose? ==> IsClosed(s'.chans, s.calls[t].stale))
  {
    hide PlanNextSection;
  }

  lemma {:induction false} PendingOverRuns(ss: seq<State>, es: seq<Event>, i: nat, j: nat, on: Option<nat>)
    requires IsRun(ss, es) && i <= j < |ss| && WakePending(ss[i], on)
    ensures WakePending(ss[j], on)
  {
    hide Safe, Apply, Enabled, IsRun, WakePending;
    RunStart(ss, es);
    if i < j {
      RunStep(ss, es, j - 1);
      PendingOverRuns(ss, es, i, j - 1, on);
      SafeOverRuns(ss, es, j - 1);
      PendingKept(ss[j - 1], es[j - 1], on);
    }
  }

  /** A SetSpec whose swap lands while the loop is parked always wakes it: for as long as the loop stays
      parked the wake is pending, and once no close is outstanding the loop's replan case is ready. */
  lemma SwapWakesParkedLoop(ss: seq<State>, es: seq<Event>, i: nat, j: nat)
    requires IsRun(ss, es) && i < j < |ss|
    requires es[i].CallActs? && ss[i].calls[es[i].thread].SetSwap?
    requires ss[i].loop.Parked? && ss[j].loop == ss[i].loop
    ensures WakePending(ss[j], ss[j].loop.on)
    ensures (forall t :: !Closing(ss[j], t)) ==> LoopCanAct(ss[j], ByReplan)
  {
    hide Safe, Apply, Enabled, IsRun, WakePending;
    RunStart(ss, es);
    RunStep(ss, es, i);
    EnabledCall(ss[i], es[i]);
    SafeOverRuns(ss, es, i);
    SwapPends(ss[i], es[i].thread);
    PendingOverRuns(ss, es, i + 1, j, ss[i].loop.on);
    PendingIsReady(ss[j]);
  }

  lemma EnabledCall(s: State, e: Event)
    requires Enabled(s, e) && e.CallActs?
    ensures CallCanAct(s, e.thread)
  {
  }

  lemma SwapPends(s: State, t: nat)
    requires Safe(s) && CallCanAct(s, t) && s.calls[t].SetSwap? && s.loop.Parked?
    ensures WakePending(Apply(s, CallActs(t)), s.loop.on)
  {
    hide Slot, Structure, ChannelsSound, CountSound, WakePending, ParkSound;
    var s' := SetStep(s, t);
    ParkCall(s, s', t, s'.calls[t]);
    ReplanIsNew(s);
  }

  lemma ReplanIsNew(s: State)
    requires Safe(s)
    ensures s.g.replan != Some(s.chans.made)
  {
    hide Slot, ParkSound, CountSound;
  }

  lemma PendingIsReady(s: State)
    requires s.loop.Parked?
    ensures WakePending(s, s.loop.on) && (forall t :: !Closing(s, t)) ==> LoopCanAct(s, ByReplan)
  {
  }

  // ----- a wake is heard only where it is waited for ------------------------

  /** The channel is out of use and the loop neither has been woken by it nor waits on it. */
  predicate Unheard(s: State, c: nat) {
    && s.g.stopCh.Some? && c < s.chans.made && s.g.replan != Some(c) && c !in s.h.woken
    && !(s.loop.Parked? && s.loop.on == Some(c))
  }

  lemma UnheardLoop(s: State, b: Branch, c: nat)
    requires ParkSound(s) && LoopCanAct(s, b) && Unheard(s, c)
    ensures Unheard(LoopStep(s, b), c)
  {
    hide PlanNextSection, AdvanceSection, WakePending;
    PlanKeeps(s.g, s.now);
    if s.loop.Advancing? {
      AdvanceKeeps(s.g, s.loop.fire);
    }
  }

  lemma UnheardCall(s: State, t: nat, c: nat)
    requires CallCanAct(s, t) && Unheard(s, c)
    ensures Unheard(CallStep(s, t), c)
  {
    hide PlanNextSection;
    PlanKeeps(s.g, s.now);
  }

  lemma ParkOfSafe(s: State)
    requires Safe(s)
    ensures ParkSound(s)
  {
  }

  lemma UnheardKept(s: State, e: Event, c: nat)
    requires Safe(s) && Enabled(s, e) && Unheard(s, c)
    ensures Unheard(Apply(s, e), c)
  {
    hide Safe, ParkSound, LoopStep, CallStep;
    ParkOfSafe(s);
    match e
    case LoopActs(b) => UnheardLoop(s, b, c);
    case CallActs(t) => UnheardCall(s, t, c);
    case _ =>
  }

  lemma SwapIsUnheard(s: State, t: nat)
    requires Safe(s) && CallCanAct(s, t) && s.calls[t].SetSwap?
    requires !(s.loop.Parked? && s.loop.on == s.g.replan)
    ensures s.g.replan.Some? && Unheard(SetStep(s, t), s.g.replan.value)
  {
    hide Slot, ParkSound;
  }

  lemma {:induction false} UnheardOverRuns(ss: seq<State>, es: seq<Event>, i: nat, j: nat, c: nat)
    requires IsRun(ss, es) && i <= j < |ss| && Unheard(ss[i], c)
    ensures Unheard(ss[j], c)
  {
    hide Safe, Apply, Enabled, IsRun, Unheard;
    RunStart(ss, es);
    if i < j {
      RunStep(ss, es, j - 1);
      UnheardOverRuns(ss, es, i, j - 1, c);
      SafeOverRuns(ss, es, j - 1);
      UnheardKept(ss[j - 1], es[j - 1], c);
    }
  }

  /** The other half: a SetSpec whose swap lands while the loop is not parked on the channel in place takes
      out a channel that never wakes the loop, neither then nor later. */
  lemma SwapElsewhereIsLost(ss: seq<State>, es: seq<Event>, i: nat, j: nat)
    requires IsRun(ss, es) && i < j < |ss|
    requires es[i].CallActs? && es[i].thread in ss[i].calls && ss[i].calls[es[i].thread].SetSwap?
    requires !(ss[i].loop.Parked? && ss[i].loop.on == ss[i].g.replan)
    ensures ss[i].g.replan.Some? && ss[i].g.replan.value !in ss[j].h.woken
  {
    hide Safe, Enabled, IsRun, SetStep;
    RunStart(ss, es);
    RunStep(ss, es, i);
    EnabledCall(ss[i], es[i]);
    SafeOverRuns(ss, es, i);
    SwapIsUnheard(ss[i], es[i].thread);
    UnheardOverRuns(ss, es, i + 1, j, ss[i].g.replan.value);
  }

  // ----- what the loop waits for --------------------------------------------

  /** The loop has planned and not yet read the channel it will park on. */
  predicate InGap(pc: LoopPc) {
    pc.Arm? || pc.Timed?
  }

  predicate Waiting(pc: LoopPc) {
    InGap(pc) || pc.Parked?
  }

  predicate Replanning(s: State, t: nat) {
    t in s.calls && (s.calls[t].SetPlan? || s.calls[t].SetSwap?)
  }

  /** The instant the loop waits for is the advertised one, unless it has come, the scheduler is stopped, or
      a change of plan is still under way and will wake the loop. */
  ghost predicate WaitsForPlan(s: State) {
    Waiting(s.loop) ==>
      || s.g.stopped
      || s.loop.fire <= s.now
      || (s.g.nextSet && s.g.next == s.loop.fire)
      || (exists t :: Replanning(s, t))
      || (s.loop.Parked? && WakePending(s, s.loop.on))
  }

  /** planNext leaves a planned instant alone until it has come. */
  lemma PlanKeepsInstant(g: Guarded, now: int, fire: int)
    ensures var (h, plan) := PlanNextSection(g, now);
      && (plan.Fire? ==> h.nextSet && h.next == plan.at)
      && (g.nextSet && g.next == fire ==> (h.nextSet && h.next == fire) || fire <= now)
      && h.stopped == g.stopped
  {
    hide NextFiring;
  }

  lemma PlanWantsStop(g: Guarded, now: int)
    ensures PlanNextSection(g, now).1.WantStop? <==> g.stopped
  {
    hide NextFiring;
  }

  lemma WaitsLoop(s: State, b: Branch)
    requires WaitsForPlan(s) && LoopCanAct(s, b)
    ensures WaitsForPlan(LoopStep(s, b))
  {
    hide PlanNextSection, AdvanceSection, WakePending;
    PlanKeepsInstant(s.g, s.now, 0);
    PlanKeeps(s.g, s.now);
    if t :| Replanning(s, t) {
      assert Firing(s.loop) || s.loop.Parked? || Replanning(LoopStep(s, b), t);
    }
  }

  lemma WaitsOther(s: State, s': State, t: nat, pc: CallPc)
    requires WaitsForPlan(s) && s'.calls == s.calls[t := pc] && s'.loop == s.loop && s'.now == s.now
    requires s'.g.stopped == s.g.stopped && s.chans.closed <= s'.chans.closed
    requires s.g.nextSet && Waiting(s.loop) && s.g.next == s.loop.fire ==>
               s.loop.fire <= s.now || Replanning(s', t) || (s'.g.nextSet && s'.g.next == s.loop.fire)
    requires Replanning(s, t) ==> Replanning(s', t) || (s.loop.Parked? && WakePending(s', s.loop.on))
    requires t in s.calls && s.calls[t].SetClose? ==> IsClosed(s'.chans, s.calls[t].stale)
    ensures WaitsForPlan(s')
  {
    hide WakePending;
    if Waiting(s.loop) {
      if u :| Replanning(s, u) {
        assert u != t ==> Replanning(s', u);
      }
      if s.loop.Parked? {
        PendingStays(s, s', t, pc, s.loop.on);
      }
    }
  }

  lemma WaitsSet(s: State, t: nat)
    requires Safe(s) && WaitsForPlan(s) && CallCanAct(s, t) && IsSet(s.calls[t])
    requires s.calls[t].SetSwap? ==> !InGap(s.loop)
    ensures WaitsForPlan(SetStep(s, t))
  {
    hide WaitsForPlan, WakePending, PlanNextSection, Slot, Structure, ChannelsSound, CountSound, ParkSound;
    var s' := SetStep(s, t);
    PlanKeeps(s.g, s.now);
    if Waiting(s.loop) {
      PlanKeepsInstant(s.g, s.now, s.loop.fire);
      StartedLoop(s);
      if s.calls[t].SetSwap? {
        SwapPends(s, t);
      } else if s.calls[t].SetClose? {
        CloserHolds(s, t);
      }
      WaitsOther(s, s', t, s'.calls[t]);
    } else {
      NotWaiting(s');
    }
  }

  lemma NotWaiting(s: State)
    requires !Waiting(s.loop)
    ensures WaitsForPlan(s)
  {
  }

  lemma StartedLoop(s: State)
    requires Structure(s) && Waiting(s.loop)
    ensures s.g.stopCh.Some? && forall t | t in s.calls :: !Launching(s.calls[t])
  {
  }

  lemma WaitsCall(s: State, t: nat)
    requires Safe(s) && WaitsForPlan(s) && CallCanAct(s, t)
    requires s.calls[t].SetSwap? ==> !InGap(s.loop)
    ensures WaitsForPlan(CallStep(s, t))
  {
    hide WaitsForPlan, WakePending, PlanNextSection, Slot, ChannelsSound, CountSound, ParkSound, Structure;
    if IsSet(s.calls[t]) {
      WaitsSet(s, t);
    } else if Waiting(s.loop) {
      StartedLoop(s);
      if s.calls[t].StopSection? && Live(s.g) {
        StoppedWaits(CallStep(s, t));
      } else {
        WaitsOther(s, CallStep(s, t), t, CallStep(s, t).calls[t]);
      }
    } else {
      LaunchOnly(s, t);
      NotWaiting(CallStep(s, t));
    }
  }

  lemma StoppedWaits(s: State)
    requires s.g.stopped
    ensures WaitsForPlan(s)
  {
  }

  lemma LaunchOnly(s: State, t: nat)
    requires CallCanAct(s, t) && !IsSet(s.calls[t]) && !Waiting(s.loop)
    ensures !Waiting(CallStep(s, t).loop)
  {
    hide PlanNextSection;
  }

  lemma WaitsClock(s: State, s': State)
    requires WaitsForPlan(s) && s' == s.(now := s'.now, ctxDone := s'.ctxDone) && s.now <= s'.now
    ensures WaitsForPlan(s')
  {
    if t :| Replanning(s, t) {
      assert Replanning(s', t);
    }
    if s.loop.Parked? && WakePending(s, s.loop.on) {
      if t :| Closing(s, t) && s.calls[t].stale == s.loop.on {
        assert Closing(s', t);
      }
    }
  }

  predicate SwapInGap(s: State, e: Event) {
    e.CallActs? && e.thread in s.calls && s.calls[e.thread].SetSwap? && InGap(s.loop)
  }

  lemma WaitsKept(s: State, e: Event)
    requires Safe(s) && WaitsForPlan(s) && Enabled(s, e) && !SwapInGap(s, e)
    ensures WaitsForPlan(Apply(s, e))
  {
    hide Safe, WaitsForPlan, LoopStep, CallStep;
    match e
    case Tick(_) => WaitsClock(s, Apply(s, e));
    case Cancel => WaitsClock(s, Apply(s, e));
    case Call(t, pc) => WaitsOther(s, Apply(s, e), t, pc);
    case CallActs(t) => WaitsCall(s, t);
    case LoopActs(b) => WaitsLoop(s, b);
  }

  /** From any point at which the loop is not waiting, as when it plans, the loop waits for exactly the instant
      the scheduler advertises, or a change of plan under way will wake it, as long as no SetSpec swaps the
      channel between the loop's planning and its parking. */
  lemma {:induction false} WaitsForWhatItAdvertises(ss: seq<State>, es: seq<Event>, i: nat, j: nat)
    requires IsRun(ss, es) && i <= j < |ss| && !Waiting(ss[i].loop)
    requires forall k :: i <= k < j ==> !SwapInGap(ss[k], es[k])
    ensures WaitsForPlan(ss[j])
  {
    hide Safe, Apply, Enabled, IsRun, WaitsForPlan, SwapInGap;
    RunStart(ss, es);
    if i == j {
      NotWaiting(ss[i]);
    } else {
      RunStep(ss, es, j - 1);
      WaitsForWhatItAdvertises(ss, es, i, j - 1);
      SafeOverRuns(ss, es, j - 1);
      WaitsKept(ss[j - 1], es[j - 1]);
    }
  }

  // ----- when the timer rings -----------------------------------------------

  lemma DeadlineStays(s: State, e: Event)
    requires Safe(s) && Enabled(s, e) && (s.loop.Timed? || s.loop.Parked?)
    ensures var t := Apply(s, e);
      t.loop.Timed? || t.loop.Parked? ==> t.loop.fire == s.loop.fire && t.loop.deadline == s.loop.deadline
  {
    hide PlanNextSection, AdvanceSection, Slot, ParkSound, CountSound, ChannelsSound;
    StartedLoop(s);
  }

  lemma {:induction false} DeadlineOverRuns(ss: seq<State>, es: seq<Event>, i: nat, j: nat)
    requires IsRun(ss, es) && i <= j < |ss|
    requires forall k :: i <= k <= j ==> ss[k].loop.Timed? || ss[k].loop.Parked?
    ensures ss[j].loop.fire == ss[i].loop.fire && ss[j].loop.deadline == ss[i].loop.deadline
  {
    hide Safe, Apply, Enabled, IsRun;
    RunStart(ss, es);
    if i < j {
      RunStep(ss, es, j - 1);
      DeadlineOverRuns(ss, es, i, j - 1);
      SafeOverRuns(ss, es, j - 1);
      DeadlineStays(ss[j - 1], es[j - 1]);
    }
  }

  lemma ArmStep(s: State, e: Event)
    requires Enabled(s, e) && e.LoopActs? && s.loop.Arm?
    ensures var t := Apply(s, e).loop;
      t.Timed? && t.fire == s.loop.fire
      && t.deadline == if s.loop.fire > s.now then s.loop.fire else s.now + 1_000_000
  {
  }

  /** The timer rings at the instant the loop has armed it for, or a millisecond after arming if that had already
      come: while the loop is parked on that wait, and only from then on, its timer case is ready. */
  lemma TimerRingsOnTime(ss: seq<State>, es: seq<Event>, i: nat, j: nat)
    requires IsRun(ss, es) && i < j < |ss| && es[i].LoopActs? && ss[i].loop.Arm?
    requires forall k :: i < k <= j ==> ss[k].loop.Timed? || ss[k].loop.Parked?
    requires ss[j].loop.Parked?
    ensures ss[j].loop.fire == ss[i].loop.fire
    ensures ss[i].loop.fire > ss[i].now ==> (LoopCanAct(ss[j], ByTimer) <==> ss[j].now >= ss[i].loop.fire)
    ensures ss[i].loop.fire <= ss[i].now ==> (LoopCanAct(ss[j], ByTimer) <==> ss[j].now >= ss[i].now + 1_000_000)
  {
    hide Safe, Apply, Enabled, IsRun;
    RunStart(ss, es);
    RunStep(ss, es, i);
    ArmStep(ss[i], es[i]);
    DeadlineOverRuns(ss, es, i + 1, j);
  }

  predicate IsSwap(s: State, e: Event) {
    e.CallActs? && e.thread in s.calls && s.calls[e.thread].SetSwap?
  }

  /** The loop is on its way to park on the channel in place, or parked there. */
  predicate HeadsForReplan(s: State) {
    InGap(s.loop) || (s.loop.Parked? && s.loop.on == s.g.replan)
  }

  lemma HeadsOn(s: State, e: Event)
    requires Safe(s) && Enabled(s, e) && HeadsForReplan(s) && !IsSwap(s, e)
    ensures HeadsForReplan(Apply(s, e)) || !Waiting(Apply(s, e).loop)
  {
    hide PlanNextSection, AdvanceSection, Slot, ParkSound, CountSound, ChannelsSound;
    PlanKeeps(s.g, s.now);
  }

  lemma {:induction false} HeadsOverRuns(ss: seq<State>, es: seq<Event>, i: nat, j: nat)
    requires IsRun(ss, es) && i <= j < |ss| && HeadsForReplan(ss[i])
    requires forall k :: i < k <= j ==> Waiting(ss[k].loop)
    requires forall k :: i <= k < j ==> !IsSwap(ss[k], es[k])
    ensures HeadsForReplan(ss[j])
  {
    hide Safe, Apply, Enabled, IsRun, HeadsForReplan, IsSwap;
    RunStart(ss, es);
    if i < j {
      RunStep(ss, es, j - 1);
      HeadsOverRuns(ss, es, i, j - 1);
      SafeOverRuns(ss, es, j - 1);
      HeadsOn(ss[j - 1], es[j - 1]);
    }
  }

  lemma ReplanIsQuiet(s: State)
    requires Safe(s) && s.loop.Parked? && s.loop.on == s.g.replan
    ensures !WakePending(s, s.loop.on)
  {
    hide Slot, CountSound;
  }

  lemma GapStays(s: State, t: nat)
    requires CallCanAct(s, t) && s.calls[t].SetSwap? && InGap(s.loop)
    ensures HeadsForReplan(SetStep(s, t))
  {
  }

  /** A swap in the gap is the loss itself: unless another one follows, the loop goes on to park with no wake
      sent or on its way, and waits for its old instant. */
  lemma SwapInGapIsLost(ss: seq<State>, es: seq<Event>, i: nat, j: nat)
    requires IsRun(ss, es) && i < j < |ss| && SwapInGap(ss[i], es[i])
    requires forall k :: i < k <= j ==> Waiting(ss[k].loop)
    requires forall k :: i < k < j ==> !IsSwap(ss[k], es[k])
    ensures ss[j].loop.Parked? ==> !WakePending(ss[j], ss[j].loop.on)
  {
    hide Safe, Enabled, IsRun, SetStep, HeadsForReplan, WakePending;
    RunStart(ss, es);
    RunStep(ss, es, i);
    EnabledCall(ss[i], es[i]);
    GapStays(ss[i], es[i].thread);
    HeadsOverRuns(ss, es, i + 1, j);
    SafeOverRuns(ss, es, j);
    if ss[j].loop.Parked? {
      ParkedHead(ss[j]);
      ReplanIsQuiet(ss[j]);
    }
  }

  lemma ParkedHead(s: State)
    requires HeadsForReplan(s) && s.loop.Parked?
    ensures s.loop.on == s.g.replan
  {
  }

  // ----- runs that show what is lost ----------------------------------------

  lemma Extend(ss: seq<State>, es: seq<Event>, e: Event) returns (ss': seq<State>, es': seq<Event>)
    requires IsRun(ss, es) && Enabled(ss[|es|], e)
    ensures IsRun(ss', es') && |ss'| == |es'| + 1 && |es'| == |es| + 1 && ss'[|es'|] == Apply(ss[|es|], e)
  {
    hide Apply, Enabled;
    ss', es' := ss + [Apply(ss[|es|], e)], es + [e];
  }

  const HOURLY := Interval(60 * MINUTE)
  const MINUTELY := Interval(MINUTE)

  /** Started on the hourly plan, the loop has planned and not yet parked. */
  const ARMED := State(
    Guarded(HOURLY, false, false, Some(0), Some(1), Some(2), 60 * MINUTE, true, 0, 0),
    Arm(60 * MINUTE), map[1 := StartReturned], Channels(3, {}, false), 0, false, History(0, {}, 0, 0, []))

  function WithCall(s: State, g: Guarded, pc: CallPc): State {
    s.(g := g, calls := map[1 := StartReturned, 2 := pc])
  }

  lemma ReachPlanning() returns (ss: seq<State>, es: seq<Event>)
    ensures IsRun(ss, es) && |ss| == |es| + 1 && ss[|es|] == ARMED.(loop := Plan)
  {
    var init := State(New(HOURLY), NotStarted, map[], Channels(0, {}, false), 0, false, History(0, {}, 0, 0, []));
    ss, es := Extend([init], [], Call(1, StartCall));
    ss, es := Extend(ss, es, CallActs(1));
    assert ss[|es|].calls == map[1 := StartPlan];
    ss, es := Extend(ss, es, CallActs(1));
    assert ss[|es|].calls == map[1 := StartGo];
    ss, es := Extend(ss, es, CallActs(1));
    assert ss[|es|].calls == map[1 := StartReturned];
  }

  lemma ReachReplanned() returns (ss: seq<State>, es: seq<Event>)
    ensures IsRun(ss, es) && |ss| == |es| + 1
    ensures ss[|es|] == WithCall(ARMED, ARMED.g.(spec := MINUTELY, next := MINUTE), SetSwap)
  {
    hide IsRun;
    var g := ARMED.g;
    ss, es := ReachPlanning();
    ss, es := Extend(ss, es, LoopActs(Go));
    assert ss[|es|] == ARMED;
    ss, es := Extend(ss, es, Call(2, SetSection(MINUTELY)));
    assert ss[|es|] == WithCall(ARMED, g, SetSection(MINUTELY));
    ss, es := Extend(ss, es, CallActs(2));
    assert ss[|es|] == WithCall(ARMED, g.(spec := MINUTELY, nextSet := false), SetPlan);
    ss, es := Extend(ss, es, CallActs(2));
    assert ss[|es|].calls == map[1 := StartReturned, 2 := SetSwap];
  }

  lemma ReachReturned() returns (ss: seq<State>, es: seq<Event>)
    ensures IsRun(ss, es) && |ss| == |es| + 1
    ensures ss[|es|] == WithCall(ARMED, ARMED.g.(spec := MINUTELY, next := MINUTE, replan := Some(3)), SetReturned)
                        .(chans := Channels(4, {2}, false), h := History(0, {}, 0, 1, []))
  {
    hide IsRun;
    ss, es := ReachReplanned();
    ss, es := Extend(ss, es, CallActs(2));
    assert ss[|es|].calls == map[1 := StartReturned, 2 := SetClose(Some(2))];
    ss, es := Extend(ss, es, CallActs(2));
    assert ss[|es|].calls == map[1 := StartReturned, 2 := SetReturned];
  }

  /** The lost wake: a SetSpec that swaps between the loop's planning and its parking leaves the loop
      parked on a fresh channel until the old deadline, an hour away, though the new plan is due in a
      minute and every call has returned. */
  lemma LostWake() returns (ss: seq<State>, es: seq<Event>)
    ensures IsRun(ss, es) && |ss| == |es| + 1
    ensures var s := ss[|es|];
      && s.g.spec == MINUTELY && s.g.nextSet && s.g.next == MINUTE
      && s.loop.Parked? && s.loop.deadline == 60 * MINUTE && s.now == 0
      && !WakePending(s, s.loop.on) && !WaitsForPlan(s) && forall t | t in s.calls :: Returned(s.calls[t])
  {
    hide IsRun;
    ss, es := ReachReturned();
    ss, es := Extend(ss, es, LoopActs(Go));
    ss, es := Extend(ss, es, LoopActs(Go));
  }

  // ----- a schedule without a firing ----------------------------------------

  /** The park of a schedule without firing answers neither a new specification nor any wake: until the
      scheduler is stopped or its context cancelled, the loop stays there. */
  lemma {:induction false} IdleParkIgnoresSetSpec(ss: seq<State>, es: seq<Event>, i: nat, j: nat)
    requires IsRun(ss, es) && i <= j < |ss| && ss[i].loop.IdleParked?
    requires !ss[j].g.stopped && !ss[j].ctxDone
    ensures ss[j].loop.IdleParked?
  {
    hide Safe, Apply, Enabled, StopSound, IsRun;
    RunStart(ss, es);
    if i < j {
      RunStep(ss, es, j - 1);
      SafeOverRuns(ss, es, j - 1);
      StopOverRuns(ss, es, j - 1);
      StopKept(ss[j - 1], es[j - 1]);
      IdleStep(ss[j - 1], es[j - 1]);
      IdleParkIgnoresSetSpec(ss, es, i, j - 1);
    }
  }

  lemma IdleStep(s: State, e: Event)
    requires Safe(s) && Enabled(s, e) && !s.g.stopped
    ensures s.ctxDone ==> Apply(s, e).ctxDone
    ensures s.loop.IdleParked? ==> Apply(s, e).loop.IdleParked? || s.ctxDone
  {
    hide Slot, ParkSound, CountSound, PlanNextSection, AdvanceSection;
    if e.CallActs? && s.calls[e.thread].StartGo? {
      LaunchIsFirst(s, e.thread);
    }
  }

  /** 30 February at midnight. */
  const NEVER := Clock({0}, {0}, {30}, {2}, {0, 1, 2, 3, 4, 5, 6}, false, true)

  lemma NeverFires(now: int)
    ensures NextFiring(NEVER, now).None?
  {
    hide NextFiring;
    assert !HasCommonDate(NEVER);
    ImpossibleDatesNeverFire(NEVER, now);
  }

  const THREE_CHANNELS := Channels(3, {}, false)

  /** Started on a date that never comes, the loop has found no firing. */
  const IDLE := State(
    Guarded(NEVER, false, false, Some(0), Some(1), Some(2), 0, false, 0, 0),
    IdleParked, map[1 := StartReturned], THREE_CHANNELS, 0, false, History(0, {}, 0, 0, []))

  lemma FirstRun(s: State)
    requires Init(s)
    ensures IsRun([s], [])
  {
  }

  lemma ReachIdle() returns (ss: seq<State>, es: seq<Event>)
    ensures IsRun(ss, es) && |ss| == |es| + 1 && ss[|es|] == IDLE
  {
    hide IsRun, NextFiring;
    var init := State(New(NEVER), NotStarted, map[], Channels(0, {}, false), 0, false, History(0, {}, 0, 0, []));
    NeverFires(0);
    FirstRun(init);
    ss, es := Extend([init], [], Call(1, StartCall));
    ss, es := Extend(ss, es, CallActs(1));
    assert ss[|es|].calls == map[1 := StartPlan];
    ss, es := Extend(ss, es, CallActs(1));
    assert ss[|es|].calls == map[1 := StartGo];
    ss, es := Extend(ss, es, CallActs(1));
    assert ss[|es|] == IDLE.(loop := Plan);
    ss, es := Extend(ss, es, LoopActs(Go));
  }

  lemma MinutelyNext()
    ensures NextFiring(MINUTELY, 0) == Some(MINUTE)
  {
    hide Scan;
  }

  lemma ReachIdleReplanned() returns (ss: seq<State>, es: seq<Event>)
    ensures IsRun(ss, es) && |ss| == |es| + 1
    ensures ss[|es|] == WithCall(IDLE, IDLE.g.(spec := MINUTELY, next := MINUTE, nextSet := true), SetSwap)
  {
    hide IsRun, NextFiring;
    ss, es := ReachIdle();
    MinutelyNext();
    ss, es := Extend(ss, es, Call(2, SetSection(MINUTELY)));
    assert ss[|es|] == WithCall(IDLE, IDLE.g, SetSection(MINUTELY));
    ss, es := Extend(ss, es, CallActs(2));
    assert ss[|es|] == WithCall(IDLE, IDLE.g.(spec := MINUTELY), SetPlan);
    ss, es := Extend(ss, es, CallActs(2));
    assert ss[|es|].calls == map[1 := StartReturned, 2 := SetSwap];
  }

  /** Such a park is reached, and outlasts a change to a schedule that does fire: the operator has replaced the
      impossible date, every call has returned, the page shows the new instant a minute away, and the loop
      does not wait for it. */
  lemma IdleParkMissesPlan() returns (ss: seq<State>, es: seq<Event>)
    ensures IsRun(ss, es) && |ss| == |es| + 1
    ensures var s := ss[|es|];
      && s.loop.IdleParked? && !s.g.stopped && !s.ctxDone && s.now == 0
      && s.g.spec == MINUTELY && s.g.nextSet && s.g.next == MINUTE
      && forall t | t in s.calls :: Returned(s.calls[t])
  {
    hide IsRun;
    ss, es := ReachIdleReplanned();
    ss, es := Extend(ss, es, CallActs(2));
    assert ss[|es|].calls == map[1 := StartReturned, 2 := SetClose(Some(2))];
    ss, es := Extend(ss, es, CallActs(2));
    assert ss[|es|].calls == map[1 := StartReturned, 2 := SetReturned];
  }
}
