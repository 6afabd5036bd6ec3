// Interval accounting: with a fixed interval and no RunOnce, SetSpec or Stop,
// the runs and the skipped ticks never outnumber the intervals that have passed
// between the first firing and the next planned one.

module SchedulerAccounting {
  import opened Options
  import opened Cron
  import opened Scheduler
  import opened SchedulerProtocol
  import opened SchedulerGuarantees

  function Last(s: seq<int>): int
    requires s != []
  {
    s[|s| - 1]
  }

  /** Only Start is ever called, on a fixed interval. */
  ghost predicate Undisturbed(s: State, every: int) {
    && s.g.spec == Interval(every) && every > 0 && !s.g.stopped
    && (forall t | t in s.calls :: IsStart(s.calls[t]) || s.calls[t].StartReturned?)
    && s.h.delivered == 0
    && (s.g.running <==> LoopInFlight(s.loop))
  }

  /** The intervals charged so far, in nanoseconds. */
  function Charged(s: State, every: int): int {
    every * (s.g.runs + s.g.skipped)
  }

  /** The charge at each point of the loop: against the tick being run, or against the next plan. */
  ghost predicate Accounts(s: State, every: int) {
    var fired := s.h.fired;
    if fired == [] then s.g.runs == 0 && s.g.skipped == 0 && !LoopInFlight(s.loop) && !s.loop.Skipping?
    else
      var owed := Charged(s, every) + fired[0];
      match s.loop
      case Advancing(fire) => fire == Last(fired) && Last(fired) <= s.now && owed <= Last(fired)
      case Starting => s.g.nextSet && s.g.next == Last(fired) + every && Last(fired) <= s.now && owed <= Last(fired)
      case Working(started) =>
        && s.g.nextSet && s.g.next == Last(fired) + every
        && Last(fired) <= started <= s.now && owed <= Last(fired)
      case Finishing(elapsed) =>
        && s.g.nextSet && s.g.next == Last(fired) + every
        && 0 <= elapsed && Last(fired) + elapsed <= s.now && owed <= Last(fired)
      case Plan => s.g.nextSet && (owed <= s.g.next || (s.g.next <= s.now && owed <= s.now + every))
      case Arm(fire) => owed <= fire
      case Timed(fire, _) => owed <= fire
      case Parked(fire, _, _) => owed <= fire
      case Claiming(fire) => owed <= fire
      case Leaving => true
      case ClosingDone(_) => true
      case Exited => true
      case _ => false
  }

  lemma NoWakeWithoutSetSpec(s: State)
    requires Safe(s) && s.h.delivered == 0 && s.loop.Parked?
    ensures !IsClosed(s.chans, s.loop.on)
  {
    hide Slot, ChannelsSound, WakePending;
    assert ClosedReplans(s.g, s.chans) == {};
    assert forall c | c in s.chans.closed ::
        c in ClosedReplans(s.g, s.chans) || Some(c) == s.g.stopCh || Some(c) == s.g.done;
  }

  /** An interval plan: the planned instant if it is still ahead, or else one interval from now. */
  lemma IntervalPlan(g: Guarded, now: int)
    requires g.spec.Interval? && !g.stopped
    ensures PlanNextSection(g, now)
         == if g.nextSet && g.next > now then (g, Fire(g.next))
            else (g.(next := now + g.spec.every, nextSet := true), Fire(now + g.spec.every))
  {
    hide Scan;
  }

  lemma IntervalAdvance(g: Guarded, fire: int)
    requires g.spec.Interval?
    ensures AdvanceSection(g, fire) == g.(next := fire + g.spec.every, nextSet := true)
  {
    hide Scan;
  }

  lemma AccountsWait(s: State, every: int, b: Branch)
    requires Safe(s) && FireSound(s) && Undisturbed(s, every) && Accounts(s, every)
    requires LoopCanAct(s, b) && !Firing(s.loop)
    ensures Undisturbed(WaitStep(s, b), every) && Accounts(WaitStep(s, b), every)
  {
    hide Safe, FireSound, PlanNextSection, Charged;
    IntervalPlan(s.g, s.now);
    if s.loop.Parked? {
      NoWakeWithoutSetSpec(s);
    }
    assert Charged(WaitStep(s, b), every) == Charged(s, every) by {
      SameCharge(s, WaitStep(s, b), every);
    }
  }

  lemma SameCharge(s: State, s': State, every: int)
    requires s'.g.runs == s.g.runs && s'.g.skipped == s.g.skipped
    ensures Charged(s', every) == Charged(s, every)
  {
  }

  /** Finishing charges one interval for the run and one for each whole interval it outlived. */
  lemma FinishCharge(s: State, every: int)
    requires s.g.spec == Interval(every) && every > 0 && s.loop.Finishing? && s.loop.elapsed >= 0
    ensures var s' := FireStep(s);
      && Charged(s', every) <= Charged(s, every) + every + s.loop.elapsed
      && (s.loop.elapsed <= every ==> Charged(s', every) == Charged(s, every) + every)
  {
    var missed := Missed(s.g.spec, s.loop.elapsed);
    MissedIsWholeIntervals(every, s.loop.elapsed);
    Distribute(every, s.g.runs + s.g.skipped, missed);
    assert FireStep(s).g.runs + FireStep(s).g.skipped == s.g.runs + s.g.skipped + 1 + missed;
  }

  lemma Distribute(every: int, a: int, b: int)
    ensures every * (a + 1 + b) == every * a + every + b * every
  {
  }

  lemma AccountsFire(s: State, every: int)
    requires FireSound(s) && Undisturbed(s, every) && Accounts(s, every)
    requires LoopCanAct(s, Go) && Firing(s.loop)
    ensures Undisturbed(FireStep(s), every) && Accounts(FireStep(s), every)
  {
    hide AdvanceSection, Charged, Missed;
    var s' := FireStep(s);
    if s.loop.Advancing? {
      IntervalAdvance(s.g, s.loop.fire);
    }
    if s.loop.Finishing? {
      FinishCharge(s, every);
    } else if s.loop.Claiming? {
      assert s'.h.fired == s.h.fired + [s.loop.fire];
      SameCharge(s, s', every);
      ChargeIsZero(s, every);
    } else if !s.loop.Skipping? {
      SameCharge(s, s', every);
    }
  }

  lemma ChargeIsZero(s: State, every: int)
    ensures s.g.runs == 0 && s.g.skipped == 0 ==> Charged(s, every) == 0
  {
  }

  lemma AccountsCall(s: State, every: int, t: nat)
    requires Undisturbed(s, every) && Accounts(s, every) && Structure(s) && CallCanAct(s, t)
    requires s.h.fired != [] ==> !s.loop.NotStarted?
    ensures Undisturbed(CallStep(s, t), every) && Accounts(CallStep(s, t), every)
    ensures CallStep(s, t).h.fired == s.h.fired
  {
    hide PlanNextSection, Structure;
    IntervalPlan(s.g, s.now);
    if s.calls[t].StartGo? {
      LaunchIsFirst(s, t);
    }
    QuietStart(s);
  }

  /** Once the loop runs no Start changes the plan. */
  lemma QuietStart(s: State)
    requires Structure(s)
    ensures !s.loop.NotStarted? ==> s.g.stopCh.Some? && forall t | t in s.calls :: !Launching(s.calls[t])
  {
  }

  /** A run in which only Start is called. */
  ghost predicate StartOnly(es: seq<Event>) {
    forall i | 0 <= i < |es| && es[i].Call? :: es[i].pc.StartCall?
  }

  lemma {:induction false} AccountsOverRuns(ss: seq<State>, es: seq<Event>, every: int, i: nat)
    requires IsRun(ss, es) && StartOnly(es) && i < |ss|
    requires ss[0].g.spec == Interval(every) && every > 0
    ensures Undisturbed(ss[i], every) && Accounts(ss[i], every)
  {
    hide Accounts, Safe, FireSound, PlanSound, PositiveSpecs, Apply, Enabled, IsRun;
    RunStart(ss, es);
    if i == 0 {
      InitAccounts(ss[0], every);
    } else {
      AccountsOverRuns(ss, es, every, i - 1);
      SafeOverRuns(ss, es, i - 1);
      RunStep(ss, es, i - 1);
      assert PositiveRun(ss, es);
      PlannedOverRuns(ss, es, i - 1);
      AccountsKept(ss[i - 1], es[i - 1], every);
    }
  }

  lemma InitAccounts(s: State, every: int)
    requires Init(s) && s.g.spec == Interval(every) && every > 0
    ensures Undisturbed(s, every) && Accounts(s, every)
  {
  }

  lemma AccountsKept(s: State, e: Event, every: int)
    requires Safe(s) && FireSound(s) && Undisturbed(s, every) && Accounts(s, every) && Enabled(s, e)
    requires e.Call? ==> e.pc.StartCall?
    ensures Undisturbed(Apply(s, e), every) && Accounts(Apply(s, e), every)
  {
    hide Accounts, Undisturbed, Slot, Structure, ChannelsSound, ParkSound, CountSound, FireSound, WaitStep, FireStep, CallStep;
    match e
    case Tick(_) => AccountsClock(s, Apply(s, e), every);
    case Cancel => AccountsClock(s, Apply(s, e), every);
    case Call(t, pc) => AccountsEntry(s, t, pc, every);
    case CallActs(t) =>
      NotStartedIsFresh(s, every);
      AccountsCall(s, every, t);
    case LoopActs(b) =>
      if Firing(s.loop) {
        AccountsFire(s, every);
      } else {
        AccountsWait(s, every, b);
      }
  }

  lemma NotStartedIsFresh(s: State, every: int)
    requires Accounts(s, every)
    ensures s.h.fired != [] ==> !s.loop.NotStarted?
  {
  }

  lemma AccountsClock(s: State, s': State, every: int)
    requires Undisturbed(s, every) && Accounts(s, every)
    requires s' == s.(now := s'.now, ctxDone := s'.ctxDone) && s.now <= s'.now
    ensures Undisturbed(s', every) && Accounts(s', every)
  {
  }

  lemma AccountsEntry(s: State, t: nat, pc: CallPc, every: int)
    requires Undisturbed(s, every) && Accounts(s, every) && pc.StartCall?
    ensures Undisturbed(Move(s, t, pc), every) && Accounts(Move(s, t, pc), every)
  {
  }

  /** After any number of jobs of any lengths, and however late the loop wakes, the intervals charged to
      runs and skipped ticks fit between the first firing and the next planned one; while a job is in flight
      they fit between the first firing and the one being run, and between jobs before what is planned next. */
  lemma IntervalAccounting(ss: seq<State>, es: seq<Event>, every: int, i: nat)
    requires IsRun(ss, es) && StartOnly(es) && i < |ss|
    requires ss[0].g.spec == Interval(every) && every > 0
    ensures ss[i].h.fired == [] ==> ss[i].g.runs == 0 && ss[i].g.skipped == 0
    ensures ss[i].h.fired != [] && Pending(ss[i].loop).Some?
        ==> every * (ss[i].g.runs + ss[i].g.skipped) <= Pending(ss[i].loop).value - ss[i].h.fired[0]
    ensures ss[i].h.fired != [] && LoopInFlight(ss[i].loop)
        ==> every * (ss[i].g.runs + ss[i].g.skipped) <= Last(ss[i].h.fired) - ss[i].h.fired[0]
    ensures ss[i].h.fired != [] && ss[i].loop.Plan? && ss[i].g.nextSet && ss[i].g.next > ss[i].now
        ==> every * (ss[i].g.runs + ss[i].g.skipped) <= ss[i].g.next - ss[i].h.fired[0]
    ensures ss[i].h.fired != [] && ss[i].loop.Plan? && !(ss[i].g.nextSet && ss[i].g.next > ss[i].now)
        ==> every * (ss[i].g.runs + ss[i].g.skipped) <= ss[i].now + every - ss[i].h.fired[0]
  {
    hide IsRun, Undisturbed;
    AccountsOverRuns(ss, es, every, i);
  }
}
