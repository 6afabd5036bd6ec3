// All interleavings of the scheduler's loop with any number of RunOnce,
// SetSpec, Stop and Start callers.
//
// The loop goroutine and every call have a program counter that names what they
// do next; each action is one critical section, one channel operation or one
// clock reading.  A select with several ready cases may take any of them.  Jobs
// last as long as they like.

module SchedulerProtocol {
  import opened Options
  import opened Cron
  import opened Scheduler

  const MILLISECOND := 1_000_000

  datatype LoopPc =
    | NotStarted
    | Plan
    | Arm(fire: int)
    | Timed(fire: int, deadline: int)
    | Parked(fire: int, deadline: int, on: Option<nat>)
    | IdleParked
    | Refresh
    | Claiming(fire: int)
    | Skipping
    | Advancing(fire: int)
    | Starting
    | Working(started: int)
    | Finishing(elapsed: int)
    | Leaving
    | ClosingDone(ch: Option<nat>)
    | Exited

  datatype CallPc =
    // RunOnce
    | OnceClaim
    | OnceStarting
    | OnceWorking(started: int)
    | OnceFinishing(elapsed: int)
    | OnceReturned(ran: bool)
    // SetSpec
    | SetSection(spec: Spec)
    | SetPlan
    | SetSwap
    | SetClose(stale: Option<nat>)
    | SetReturned
    // Stop
    | StopSection
    | StopWait(channel: Option<nat>)
    | StopReturned(ok: bool)
    // Start
    | StartCall
    | StartPlan
    | StartGo
    | StartReturned

  /** The cases of the loop's selects; every other action has only one way to go. */
  datatype Branch = Go | ByStop | ByCtx | ByReplan | ByTimer

  datatype Event =
    | Tick(to: int)
    | Cancel
    | Call(thread: nat, pc: CallPc)
    | CallActs(thread: nat)
    | LoopActs(branch: Branch)

  /** What the run has done so far: successful claims, the channels that woke the loop, how often it
      woke, how many wakes SetSpec delivered, and the instants fired. */
  datatype History = History(claims: nat, woken: set<nat>, wakes: nat, delivered: nat, fired: seq<int>)

  /** Channels are numbered in the order they are made; `panicked` records a close of a nil or closed
      channel. */
  datatype Channels = Channels(made: nat, closed: set<nat>, panicked: bool)

  datatype State = State(
    g: Guarded, loop: LoopPc, calls: map<nat, CallPc>, chans: Channels, now: int, ctxDone: bool, h: History)

  predicate Init(s: State) {
    && s.g == New(s.g.spec) && s.loop == NotStarted && s.calls == map[]
    && s.chans == Channels(0, {}, false) && !s.ctxDone
    && s.h == History(0, {}, 0, 0, [])
  }

  predicate IsClosed(c: Channels, ch: Option<nat>) {
    ch.Some? && ch.value in c.closed
  }

  function Close(c: Channels, ch: Option<nat>): Channels {
    if ch.None? || ch.value in c.closed then c.(panicked := true)
    else c.(closed := c.closed + {ch.value})
  }

  predicate Entry(pc: CallPc) {
    pc.OnceClaim? || pc.SetSection? || pc.StopSection? || pc.StartCall?
  }

  predicate Returned(pc: CallPc) {
    pc.OnceReturned? || pc.SetReturned? || pc.StopReturned? || pc.StartReturned?
  }

  predicate LoopCanAct(s: State, b: Branch) {
    match s.loop
    case NotStarted => false
    case Exited => false
    case Parked(_, deadline, on) =>
      || (b == ByStop && IsClosed(s.chans, s.g.stopCh))
      || (b == ByCtx && s.ctxDone)
      || (b == ByReplan && IsClosed(s.chans, on))
      || (b == ByTimer && s.now >= deadline)
    case IdleParked => (b == ByStop && IsClosed(s.chans, s.g.stopCh)) || (b == ByCtx && s.ctxDone)
    case _ => b == Go
  }

  predicate CallCanAct(s: State, t: nat) {
    && t in s.calls
    && !Returned(s.calls[t])
    && (s.calls[t].StopWait? ==> IsClosed(s.chans, s.calls[t].channel))
  }

  predicate Enabled(s: State, e: Event) {
    match e
    case Tick(to) => s.now <= to
    case Cancel => true
    case Call(t, pc) => t !in s.calls && Entry(pc)
    case CallActs(t) => CallCanAct(s, t)
    case LoopActs(b) => LoopCanAct(s, b)
  }

  function DeadlineFor(fire: int, now: int): int {
    if fire - now <= 0 then now + MILLISECOND else fire
  }

  /** The loop up to its decision to fire. */
  function WaitStep(s: State, b: Branch): State
    requires LoopCanAct(s, b)
  {
    match s.loop
    case Plan =>
      var (g, plan) := PlanNextSection(s.g, s.now);
      s.(g := g, loop := match plan case WantStop => Leaving case NoFiring => IdleParked case Fire(at) => Arm(at))
    case Arm(fire) => s.(loop := Timed(fire, DeadlineFor(fire, s.now)))
    case Timed(fire, deadline) => s.(loop := Parked(fire, deadline, s.g.replan))
    case Parked(fire, _, on) =>
      if b == ByTimer then s.(loop := Claiming(fire))
      else if b == ByReplan then
        s.(loop := Refresh, h := s.h.(wakes := s.h.wakes + 1, woken := s.h.woken + {on.value}))
      else s.(loop := Leaving)
    case IdleParked => s.(loop := Leaving)
    case Refresh =>
      s.(g := s.g.(replan := Some(s.chans.made)), chans := s.chans.(made := s.chans.made + 1), loop := Plan)
    case Leaving => s.(loop := ClosingDone(s.g.done))
    case ClosingDone(ch) => s.(chans := if ch.None? then s.chans else Close(s.chans, ch), loop := Exited)
    case _ => s
  }

  /** The loop from its claim to the end of the job. */
  function FireStep(s: State): State
    requires LoopCanAct(s, Go)
  {
    match s.loop
    case Claiming(fire) =>
      if ClaimSucceeds(s.g) then
        s.(g := ClaimSection(s.g), loop := Advancing(fire),
           h := s.h.(claims := s.h.claims + 1, fired := s.h.fired + [fire]))
      else s.(loop := Skipping)
    case Skipping => s.(g := s.g.(skipped := s.g.skipped + 1), loop := Plan)
    case Advancing(fire) => s.(g := AdvanceSection(s.g, fire), loop := Starting)
    case Starting => s.(loop := Working(s.now))
    case Working(started) => s.(loop := Finishing(s.now - started))
    case Finishing(elapsed) => s.(g := FinishSection(s.g, elapsed), loop := Plan)
    case _ => s
  }

  predicate Firing(pc: LoopPc) {
    pc.Claiming? || pc.Skipping? || LoopInFlight(pc)
  }

  function LoopStep(s: State, b: Branch): State
    requires LoopCanAct(s, b)
  {
    if Firing(s.loop) then FireStep(s) else WaitStep(s, b)
  }

  function Move(s: State, t: nat, pc: CallPc): State {
    s.(calls := s.calls[t := pc])
  }

  function OnceStep(s: State, t: nat): State
    requires CallCanAct(s, t)
  {
    match s.calls[t]
    case OnceClaim =>
      if ClaimSucceeds(s.g)
      then Move(s.(g := ClaimSection(s.g), h := s.h.(claims := s.h.claims + 1)), t, OnceStarting)
      else Move(s, t, OnceReturned(false))
    case OnceStarting => Move(s, t, OnceWorking(s.now))
    case OnceWorking(started) => Move(s, t, OnceFinishing(s.now - started))
    case OnceFinishing(elapsed) => Move(s.(g := FinishSection(s.g, elapsed)), t, OnceReturned(true))
    case _ => s
  }

  function SetStep(s: State, t: nat): State
    requires CallCanAct(s, t)
  {
    match s.calls[t]
    case SetSection(spec) => Move(s.(g := SetSpecSection(s.g, spec)), t, if Live(s.g) then SetPlan else SetReturned)
    case SetPlan => Move(s.(g := PlanNextSection(s.g, s.now).0), t, SetSwap)
    case SetSwap =>
      Move(s.(g := s.g.(replan := Some(s.chans.made)), chans := s.chans.(made := s.chans.made + 1)),
           t, SetClose(s.g.replan))
    case SetClose(ch) =>
      if ch.None? then Move(s, t, SetReturned)
      else Move(s.(chans := Close(s.chans, ch), h := s.h.(delivered := s.h.delivered + 1)), t, SetReturned)
    case _ => s
  }

  function StopStep(s: State, t: nat): State
    requires CallCanAct(s, t)
  {
    match s.calls[t]
    case StopSection =>
      if Live(s.g) then
        Move(s.(g := s.g.(stopped := true), chans := Close(s.chans, s.g.stopCh)), t, StopWait(s.g.done))
      else Move(s, t, StopReturned(false))
    case StopWait(_) => Move(s, t, StopReturned(true))
    case _ => s
  }

  function StartStep(s: State, t: nat): State
    requires CallCanAct(s, t)
  {
    match s.calls[t]
    case StartCall =>
      if s.g.stopCh.Some? then Move(s, t, StartReturned)
      else
        Move(s.(g := StartSection(s.g, s.chans.made), chans := s.chans.(made := s.chans.made + 3)), t, StartPlan)
    case StartPlan => Move(s.(g := PlanNextSection(s.g, s.now).0), t, StartGo)
    case StartGo => Move(s.(loop := Plan), t, StartReturned)
    case _ => s
  }

  predicate IsOnce(pc: CallPc) {
    pc.OnceClaim? || pc.OnceStarting? || pc.OnceWorking? || pc.OnceFinishing?
  }

  predicate IsSet(pc: CallPc) {
    pc.SetSection? || pc.SetPlan? || pc.SetSwap? || pc.SetClose?
  }

  predicate IsStop(pc: CallPc) {
    pc.StopSection? || pc.StopWait?
  }

  function CallStep(s: State, t: nat): State
    requires CallCanAct(s, t)
  {
    if IsOnce(s.calls[t]) then OnceStep(s, t)
    else if IsSet(s.calls[t]) then SetStep(s, t)
    else if IsStop(s.calls[t]) then StopStep(s, t)
    else StartStep(s, t)
  }

  function Apply(s: State, e: Event): State
    requires Enabled(s, e)
  {
    match e
    case Tick(to) => s.(now := to)
    case Cancel => s.(ctxDone := true)
    case Call(t, pc) => Move(s, t, pc)
    case CallActs(t) => CallStep(s, t)
    case LoopActs(b) => LoopStep(s, b)
  }

  /** A run: each event is enabled and leads to the next state. */
  ghost predicate IsRun(ss: seq<State>, es: seq<Event>) {
    && |ss| == |es| + 1
    && Init(ss[0])
    && forall i :: 0 <= i < |es| ==> Enabled(ss[i], es[i]) && ss[i + 1] == Apply(ss[i], es[i])
  }

  lemma RunStep(ss: seq<State>, es: seq<Event>, i: nat)
    requires IsRun(ss, es) && i < |es|
    ensures |ss| == |es| + 1 && Enabled(ss[i], es[i]) && ss[i + 1] == Apply(ss[i], es[i])
  {
    hide Enabled, Apply;
  }

  lemma RunStart(ss: seq<State>, es: seq<Event>)
    requires IsRun(ss, es)
    ensures |ss| == |es| + 1 && Init(ss[0])
  {
    hide Enabled, Apply;
  }

  // ----- the in-flight slot -------------------------------------------------

  predicate LoopInFlight(pc: LoopPc) {
    pc.Advancing? || pc.Starting? || pc.Working? || pc.Finishing?
  }

  predicate CallInFlight(pc: CallPc) {
    pc.OnceStarting? || pc.OnceWorking? || pc.OnceFinishing?
  }

  ghost function Holders(calls: map<nat, CallPc>): set<nat> {
    set t | t in calls && CallInFlight(calls[t])
  }

  ghost function InFlightCount(s: State): nat {
    |Holders(s.calls)| + if LoopInFlight(s.loop) then 1 else 0
  }

  /** Between a successful claim and its finish there is one thread if the slot is taken and none
      otherwise; every claim is a counted run or still in flight. */
  ghost predicate Slot(s: State) {
    && InFlightCount(s) == (if s.g.running then 1 else 0)
    && s.h.claims == s.g.runs + InFlightCount(s)
  }

  lemma HoldersMove(calls: map<nat, CallPc>, t: nat, pc: CallPc)
    ensures var before := t in calls && CallInFlight(calls[t]);
      |Holders(calls[t := pc])| == |Holders(calls)| - (if before then 1 else 0) + (if CallInFlight(pc) then 1 else 0)
  {
    var rest := Holders(calls) - {t};
    if t in calls && CallInFlight(calls[t]) {
      assert Holders(calls) == rest + {t};
    } else {
      assert Holders(calls) == rest;
    }
    if CallInFlight(pc) {
      assert Holders(calls[t := pc]) == rest + {t};
    } else {
      assert Holders(calls[t := pc]) == rest;
    }
  }

  lemma PlanKeeps(g: Guarded, now: int)
    ensures var h := PlanNextSection(g, now).0; h == g.(next := h.next, nextSet := h.nextSet)
  {
    hide NextFiring;
  }

  lemma AdvanceKeeps(g: Guarded, fire: int)
    ensures var h := AdvanceSection(g, fire); h == g.(next := h.next, nextSet := h.nextSet)
  {
    hide NextFiring;
  }

  lemma SlotLoop(s: State, b: Branch)
    requires Slot(s) && LoopCanAct(s, b)
    ensures Slot(LoopStep(s, b))
  {
    hide PlanNextSection, AdvanceSection, Holders;
    PlanKeeps(s.g, s.now);
    if s.loop.Advancing? {
      AdvanceKeeps(s.g, s.loop.fire);
    }
  }

  lemma SlotOnce(s: State, t: nat)
    requires Slot(s) && CallCanAct(s, t) && IsOnce(s.calls[t])
    ensures Slot(OnceStep(s, t))
  {
    hide Holders;
    HoldersMove(s.calls, t, OnceStep(s, t).calls[t]);
  }

  lemma SlotSet(s: State, t: nat)
    requires Slot(s) && CallCanAct(s, t) && IsSet(s.calls[t])
    ensures Slot(SetStep(s, t))
  {
    hide PlanNextSection, Holders;
    PlanKeeps(s.g, s.now);
    HoldersMove(s.calls, t, SetStep(s, t).calls[t]);
  }

  lemma SlotStop(s: State, t: nat)
    requires Slot(s) && CallCanAct(s, t) && IsStop(s.calls[t])
    ensures Slot(StopStep(s, t))
  {
    hide Holders;
    HoldersMove(s.calls, t, StopStep(s, t).calls[t]);
  }

  predicate IsStart(pc: CallPc) {
    pc.StartCall? || pc.StartPlan? || pc.StartGo?
  }

  lemma SlotStart(s: State, t: nat)
    requires Slot(s) && CallCanAct(s, t) && IsStart(s.calls[t])
    requires s.calls[t].StartGo? ==> s.loop.NotStarted?
    ensures Slot(StartStep(s, t))
  {
    hide PlanNextSection, Holders;
    PlanKeeps(s.g, s.now);
    HoldersMove(s.calls, t, StartStep(s, t).calls[t]);
  }

  // ----- who may be where ---------------------------------------------------

  predicate Launching(pc: CallPc) {
    pc.StartPlan? || pc.StartGo?
  }

  predicate NeedsChannels(pc: CallPc) {
    pc.SetPlan? || pc.SetSwap? || pc.SetClose? || pc.StopWait? || Launching(pc)
  }

  /** One Start at most launches the loop, and nothing that needs the channels happens before it. */
  ghost predicate Structure(s: State) {
    && (s.g.stopCh.Some? <==> s.g.done.Some?)
    && (s.g.stopCh.Some? <==> s.g.replan.Some?)
    && (s.g.stopCh.None? ==> s.loop.NotStarted? && !s.g.stopped)
    && (forall t | t in s.calls :: NeedsChannels(s.calls[t]) ==> s.g.stopCh.Some?)
    && (forall t | t in s.calls :: Launching(s.calls[t]) ==> s.loop.NotStarted?)
    && (forall t | t in s.calls :: s.calls[t].StopWait? ==> s.calls[t].channel == s.g.done)
    && (forall t, u | t in s.calls && u in s.calls :: Launching(s.calls[t]) && Launching(s.calls[u]) ==> t == u)
    && (s.loop.ClosingDone? ==> s.loop.ch == s.g.done)
  }

  predicate SameChannels(g: Guarded, g': Guarded) {
    g'.stopCh == g.stopCh && g'.done == g.done && g'.replan == g.replan && g'.stopped == g.stopped
  }

  /** Firing touches no channel and no call. */
  lemma FireEffect(s: State)
    requires LoopCanAct(s, Go) && Firing(s.loop)
    ensures var s' := FireStep(s);
      && s'.calls == s.calls && s'.chans == s.chans && SameChannels(s.g, s'.g) && s'.now == s.now
      && s'.h.woken == s.h.woken && s'.h.wakes == s.h.wakes && s'.h.delivered == s.h.delivered
      && (Firing(s'.loop) || s'.loop.Plan?)
  {
    hide AdvanceSection;
    if s.loop.Advancing? {
      AdvanceKeeps(s.g, s.loop.fire);
    }
  }

  lemma StructureFire(s: State)
    requires Structure(s) && LoopCanAct(s, Go) && Firing(s.loop)
    ensures Structure(FireStep(s))
  {
    hide FireStep;
    FireEffect(s);
  }

  lemma StructureWait(s: State, b: Branch)
    requires Structure(s) && LoopCanAct(s, b) && !Firing(s.loop)
    ensures Structure(WaitStep(s, b))
  {
    hide PlanNextSection;
    PlanKeeps(s.g, s.now);
  }

  /** A call's move that touches no channel and needs none it did not need before. */
  predicate Harmless(s: State, s': State, t: nat, pc: CallPc) {
    && s'.calls == s.calls[t := pc] && SameChannels(s.g, s'.g) && s'.chans == s.chans && s'.loop == s.loop
    && !Launching(pc) && !pc.StopWait? && !pc.SetClose?
    && (NeedsChannels(pc) ==> s.g.stopCh.Some?)
  }

  lemma StructureHarmless(s: State, s': State, t: nat, pc: CallPc)
    requires Structure(s) && Harmless(s, s', t, pc)
    ensures Structure(s')
  {
  }

  lemma OnceIsHarmless(s: State, t: nat)
    requires CallCanAct(s, t) && IsOnce(s.calls[t])
    ensures var s' := OnceStep(s, t); Harmless(s, s', t, s'.calls[t])
  {
  }

  lemma StructureOnce(s: State, t: nat)
    requires Structure(s) && CallCanAct(s, t) && IsOnce(s.calls[t])
    ensures Structure(OnceStep(s, t))
  {
    hide Structure, OnceStep;
    OnceIsHarmless(s, t);
    StructureHarmless(s, OnceStep(s, t), t, OnceStep(s, t).calls[t]);
  }

  lemma StructureSwap(s: State, t: nat)
    requires Structure(s) && CallCanAct(s, t) && s.calls[t].SetSwap?
    ensures Structure(SetStep(s, t))
  {
  }

  lemma StructureClose(s: State, t: nat)
    requires Structure(s) && CallCanAct(s, t) && s.calls[t].SetClose?
    ensures Structure(SetStep(s, t))
  {
  }

  lemma StructureSet(s: State, t: nat)
    requires Structure(s) && CallCanAct(s, t) && IsSet(s.calls[t])
    ensures Structure(SetStep(s, t))
  {
    hide PlanNextSection, Structure;
    PlanKeeps(s.g, s.now);
    if s.calls[t].SetSwap? {
      StructureSwap(s, t);
    } else if s.calls[t].SetClose? {
      StructureClose(s, t);
    } else {
      if s.calls[t].SetPlan? {
        ChannelsExist(s, t);
      }
      StructureHarmless(s, SetStep(s, t), t, SetStep(s, t).calls[t]);
    }
  }

  lemma ChannelsExist(s: State, t: nat)
    requires Structure(s) && t in s.calls && NeedsChannels(s.calls[t])
    ensures s.g.stopCh.Some?
  {
  }

  lemma StructureStop(s: State, t: nat)
    requires Structure(s) && CallCanAct(s, t) && IsStop(s.calls[t])
    ensures Structure(StopStep(s, t))
  {
  }

  lemma StructureStart(s: State, t: nat)
    requires Structure(s) && CallCanAct(s, t) && IsStart(s.calls[t])
    ensures Structure(StartStep(s, t))
  {
    hide PlanNextSection;
    PlanKeeps(s.g, s.now);
  }

  // ----- channels -----------------------------------------------------------

  /** The calls that have taken a channel out and not yet closed it. */
  predicate Closing(s: State, t: nat) {
    t in s.calls && s.calls[t].SetClose?
  }

  /** Channels are closed at most once: the current replan channel is open, stopCh is closed exactly after
      a stop, done exactly after the loop's exit, and every channel a SetSpec is about to close is open,
      out of use and its own. */
  ghost predicate ChannelsSound(s: State) {
    && !s.chans.panicked
    && (forall c | c in s.chans.closed :: c < s.chans.made)
    && (s.g.stopCh.Some? && s.g.done.Some? && s.g.replan.Some? ==>
         && s.g.stopCh.value < s.chans.made && s.g.done.value < s.chans.made && s.g.replan.value < s.chans.made
         && s.g.stopCh != s.g.done && s.g.stopCh != s.g.replan && s.g.done != s.g.replan
         && (s.g.stopCh.value in s.chans.closed <==> s.g.stopped)
         && (s.g.done.value in s.chans.closed <==> s.loop.Exited?)
         && s.g.replan.value !in s.chans.closed)
    && (forall t | Closing(s, t) ::
         && s.calls[t].stale.Some?
         && s.calls[t].stale.value < s.chans.made && s.calls[t].stale.value !in s.chans.closed
         && s.calls[t].stale != s.g.stopCh && s.calls[t].stale != s.g.done && s.calls[t].stale != s.g.replan)
    && (forall t, u | Closing(s, t) && Closing(s, u) && t != u :: s.calls[t].stale != s.calls[u].stale)
  }

  lemma ChannelsWait(s: State, b: Branch)
    requires Structure(s) && ChannelsSound(s) && LoopCanAct(s, b) && !Firing(s.loop)
    ensures ChannelsSound(WaitStep(s, b))
  {
    hide PlanNextSection;
    PlanKeeps(s.g, s.now);
  }

  lemma ChannelsFire(s: State)
    requires ChannelsSound(s) && LoopCanAct(s, Go) && Firing(s.loop)
    ensures ChannelsSound(FireStep(s))
  {
    hide FireStep;
    FireEffect(s);
  }

  lemma ChannelsHarmless(s: State, s': State, t: nat, pc: CallPc)
    requires ChannelsSound(s) && Harmless(s, s', t, pc)
    ensures ChannelsSound(s')
  {
  }

  lemma ChannelsOnce(s: State, t: nat)
    requires ChannelsSound(s) && CallCanAct(s, t) && IsOnce(s.calls[t])
    ensures ChannelsSound(OnceStep(s, t))
  {
    hide ChannelsSound, OnceStep;
    OnceIsHarmless(s, t);
    ChannelsHarmless(s, OnceStep(s, t), t, OnceStep(s, t).calls[t]);
  }

  lemma ChannelsSwap(s: State, t: nat)
    requires Structure(s) && ChannelsSound(s) && CallCanAct(s, t) && s.calls[t].SetSwap?
    ensures ChannelsSound(SetStep(s, t))
  {
  }

  lemma ChannelsClose(s: State, t: nat)
    requires Structure(s) && ChannelsSound(s) && CallCanAct(s, t) && s.calls[t].SetClose?
    ensures ChannelsSound(SetStep(s, t))
  {
    assert Closing(s, t);
  }

  lemma ChannelsSet(s: State, t: nat)
    requires Structure(s) && ChannelsSound(s) && CallCanAct(s, t) && IsSet(s.calls[t])
    ensures ChannelsSound(SetStep(s, t))
  {
    hide PlanNextSection, ChannelsSound;
    PlanKeeps(s.g, s.now);
    if s.calls[t].SetSwap? {
      ChannelsSwap(s, t);
    } else if s.calls[t].SetClose? {
      ChannelsClose(s, t);
    } else {
      ChannelsHarmless(s, SetStep(s, t), t, SetStep(s, t).calls[t]);
    }
  }

  lemma ChannelsStop(s: State, t: nat)
    requires Structure(s) && ChannelsSound(s) && CallCanAct(s, t) && IsStop(s.calls[t])
    ensures ChannelsSound(StopStep(s, t))
  {
  }

  lemma ChannelsStart(s: State, t: nat)
    requires Structure(s) && ChannelsSound(s) && CallCanAct(s, t) && IsStart(s.calls[t])
    ensures ChannelsSound(StartStep(s, t))
  {
    hide PlanNextSection;
    PlanKeeps(s.g, s.now);
  }

  // ----- wakes --------------------------------------------------------------

  /** A wake for the channel the loop is parked on has been sent or is about to be. */
  ghost predicate WakePending(s: State, on: Option<nat>) {
    IsClosed(s.chans, on) || exists t :: Closing(s, t) && s.calls[t].stale == on
  }

  /** The loop parks on a channel that has not woken it, and misses no wake of that channel. */
  ghost predicate ParkSound(s: State) {
    s.loop.Parked? ==>
      && s.loop.on.Some? && s.loop.on.value !in s.h.woken
      && s.loop.on != s.g.stopCh && s.loop.on != s.g.done
      && (s.loop.on == s.g.replan || WakePending(s, s.loop.on))
  }

  /** What SetSpec has closed: every closed channel but stopCh and done. */
  ghost function ClosedReplans(g: Guarded, c: Channels): set<nat> {
    if g.stopCh.Some? && g.done.Some? then c.closed - {g.stopCh.value, g.done.value} else c.closed
  }

  /** Every channel SetSpec closed was delivered once, and woke the loop at most once. */
  ghost predicate CountSound(s: State) {
    && s.h.woken <= ClosedReplans(s.g, s.chans)
    && |s.h.woken| == s.h.wakes
    && |ClosedReplans(s.g, s.chans)| == s.h.delivered
    && (s.g.stopCh.None? ==> s.chans.closed == {})
  }

  /** The loop wakes at most once for each SetSpec that delivered a wake. */
  lemma WakesAtMostDelivered(s: State)
    requires CountSound(s)
    ensures s.h.wakes <= s.h.delivered
  {
    var all := ClosedReplans(s.g, s.chans);
    assert all == s.h.woken + (all - s.h.woken);
  }

  lemma ParkWait(s: State, b: Branch)
    requires Structure(s) && ChannelsSound(s) && CountSound(s) && LoopCanAct(s, b) && !Firing(s.loop)
    ensures ParkSound(WaitStep(s, b))
  {
    hide PlanNextSection;
    if s.loop.Timed? {
      assert s.g.replan.value !in s.chans.closed;
    }
  }

  lemma CountWait(s: State, b: Branch)
    requires Structure(s) && ChannelsSound(s) && ParkSound(s) && CountSound(s)
    requires LoopCanAct(s, b) && !Firing(s.loop)
    ensures CountSound(WaitStep(s, b))
  {
    hide PlanNextSection, Structure, ChannelsSound, CountSound;
    PlanKeeps(s.g, s.now);
    var s' := WaitStep(s, b);
    if s.loop.ClosingDone? {
      CountExit(s, b);
    } else if s'.loop.Refresh? {
      CountWake(s, b);
    } else {
      CountSame(s, s');
    }
  }

  lemma CountSame(s: State, s': State)
    requires CountSound(s) && s'.g.stopCh == s.g.stopCh && s'.g.done == s.g.done && s'.chans.closed == s.chans.closed
    requires s'.h.woken == s.h.woken && s'.h.wakes == s.h.wakes && s'.h.delivered == s.h.delivered
    ensures CountSound(s')
  {
  }

  lemma CountWake(s: State, b: Branch)
    requires ParkSound(s) && CountSound(s) && LoopCanAct(s, b) && s.loop.Parked? && b.ByReplan?
    ensures CountSound(WaitStep(s, b))
  {
  }

  lemma CountExit(s: State, b: Branch)
    requires Structure(s) && ChannelsSound(s) && CountSound(s) && LoopCanAct(s, b) && s.loop.ClosingDone?
    ensures CountSound(WaitStep(s, b))
  {
    assert ClosedReplans(s.g, WaitStep(s, b).chans) == ClosedReplans(s.g, s.chans);
  }

  /** Another thread's pending close stays pending. */
  lemma PendingStays(s: State, s': State, t: nat, pc: CallPc, on: Option<nat>)
    requires s'.calls == s.calls[t := pc] && s.chans.closed <= s'.chans.closed
    requires t in s.calls && s.calls[t].SetClose? ==> IsClosed(s'.chans, s.calls[t].stale)
    ensures WakePending(s, on) ==> WakePending(s', on)
  {
    if u :| Closing(s, u) && s.calls[u].stale == on {
      if u != t {
        assert Closing(s', u);
      }
    }
  }

  lemma ParkCall(s: State, s': State, t: nat, pc: CallPc)
    requires ParkSound(s) && s'.calls == s.calls[t := pc] && s.chans.closed <= s'.chans.closed
    requires t in s.calls && s.calls[t].SetClose? ==> IsClosed(s'.chans, s.calls[t].stale)
    requires s'.g.stopCh == s.g.stopCh && s'.g.done == s.g.done && s'.loop == s.loop && s'.h.woken == s.h.woken
    requires s'.g.replan == s.g.replan || (pc.SetClose? && pc.stale == s.g.replan)
    ensures ParkSound(s')
    ensures s.loop.Parked? && s'.g.replan != s.g.replan ==> WakePending(s', s.loop.on)
  {
    if s.loop.Parked? {
      PendingStays(s, s', t, pc, s.loop.on);
      if pc.SetClose? {
        assert Closing(s', t);
      }
    }
  }

  lemma WakesOnce(s: State, t: nat)
    requires ParkSound(s) && CountSound(s) && CallCanAct(s, t) && IsOnce(s.calls[t])
    ensures ParkSound(OnceStep(s, t)) && CountSound(OnceStep(s, t))
  {
    hide ParkSound, CountSound;
    var s' := OnceStep(s, t);
    CountSame(s, s');
    ParkCall(s, s', t, s'.calls[t]);
  }

  lemma CloserHolds(s: State, t: nat)
    requires Structure(s) && ChannelsSound(s) && t in s.calls && s.calls[t].SetClose?
    ensures s.g.stopCh.Some? && s.g.done.Some? && s.calls[t].stale.Some?
    ensures s.calls[t].stale.value !in s.chans.closed && s.calls[t].stale != s.g.stopCh && s.calls[t].stale != s.g.done
  {
    assert Closing(s, t);
  }

  lemma CountClose(s: State, t: nat)
    requires Structure(s) && ChannelsSound(s) && CountSound(s) && CallCanAct(s, t) && s.calls[t].SetClose?
    ensures CountSound(SetStep(s, t))
  {
    hide Structure, ChannelsSound;
    CloserHolds(s, t);
    var c := s.calls[t].stale.value;
    var before := ClosedReplans(s.g, s.chans);
    assert SetStep(s, t).chans.closed == s.chans.closed + {c};
    assert ClosedReplans(s.g, SetStep(s, t).chans) == before + {c};
    assert c !in before;
  }

  lemma WakesSet(s: State, t: nat)
    requires Structure(s) && ChannelsSound(s) && ParkSound(s) && CountSound(s)
    requires CallCanAct(s, t) && IsSet(s.calls[t])
    ensures ParkSound(SetStep(s, t)) && CountSound(SetStep(s, t))
  {
    hide PlanNextSection, Structure, ChannelsSound, ParkSound, CountSound;
    PlanKeeps(s.g, s.now);
    var s' := SetStep(s, t);
    if s.calls[t].SetClose? {
      CountClose(s, t);
      CloserHolds(s, t);
    } else {
      CountSame(s, s');
    }
    ParkCall(s, s', t, s'.calls[t]);
  }

  lemma CountStop(s: State, t: nat)
    requires CountSound(s) && Structure(s) && CallCanAct(s, t) && IsStop(s.calls[t])
    ensures CountSound(StopStep(s, t))
  {
    assert ClosedReplans(s.g, StopStep(s, t).chans) == ClosedReplans(s.g, s.chans);
  }

  lemma WakesStop(s: State, t: nat)
    requires Structure(s) && ParkSound(s) && CountSound(s) && CallCanAct(s, t) && IsStop(s.calls[t])
    ensures ParkSound(StopStep(s, t)) && CountSound(StopStep(s, t))
  {
    hide ParkSound, CountSound, Structure;
    CountStop(s, t);
    ParkCall(s, StopStep(s, t), t, StopStep(s, t).calls[t]);
  }

  lemma WakesStart(s: State, t: nat)
    requires Structure(s) && ParkSound(s) && CountSound(s) && CallCanAct(s, t) && IsStart(s.calls[t])
    ensures ParkSound(StartStep(s, t)) && CountSound(StartStep(s, t))
  {
    hide PlanNextSection;
    PlanKeeps(s.g, s.now);
    var s' := StartStep(s, t);
    if s.calls[t].StartCall? && s.g.stopCh.None? {
      assert ClosedReplans(s'.g, s'.chans) == {};
    } else if !s.calls[t].StartGo? {
      ParkCall(s, s', t, s'.calls[t]);
    }
  }

  // ----- the invariant over every run ---------------------------------------

  ghost predicate Safe(s: State) {
    Slot(s) && Structure(s) && ChannelsSound(s) && ParkSound(s) && CountSound(s)
  }

  lemma SafeLoop(s: State, b: Branch)
    requires Safe(s) && LoopCanAct(s, b)
    ensures Safe(LoopStep(s, b))
  {
    hide Slot, Structure, ChannelsSound, ParkSound, CountSound, WaitStep, FireStep;
    SlotLoop(s, b);
    if Firing(s.loop) {
      StructureFire(s);
      ChannelsFire(s);
      WakesFire(s);
    } else {
      StructureWait(s, b);
      ChannelsWait(s, b);
      ParkWait(s, b);
      CountWait(s, b);
    }
  }

  lemma WakesFire(s: State)
    requires CountSound(s) && LoopCanAct(s, Go) && Firing(s.loop)
    ensures ParkSound(FireStep(s)) && CountSound(FireStep(s))
  {
    hide FireStep;
    FireEffect(s);
  }

  lemma LaunchIsFirst(s: State, t: nat)
    requires Structure(s) && t in s.calls && s.calls[t].StartGo?
    ensures s.loop.NotStarted?
  {
  }

  lemma SafeCall(s: State, t: nat)
    requires Safe(s) && CallCanAct(s, t)
    ensures Safe(CallStep(s, t))
  {
    hide Slot, Structure, ChannelsSound, ParkSound, CountSound, OnceStep, SetStep, StopStep, StartStep;
    if IsOnce(s.calls[t]) {
      SlotOnce(s, t);
      StructureOnce(s, t);
      ChannelsOnce(s, t);
      WakesOnce(s, t);
    } else if IsSet(s.calls[t]) {
      SlotSet(s, t);
      StructureSet(s, t);
      ChannelsSet(s, t);
      WakesSet(s, t);
    } else if IsStop(s.calls[t]) {
      SlotStop(s, t);
      StructureStop(s, t);
      ChannelsStop(s, t);
      WakesStop(s, t);
    } else {
      if s.calls[t].StartGo? {
        LaunchIsFirst(s, t);
      }
      SlotStart(s, t);
      StructureStart(s, t);
      ChannelsStart(s, t);
      WakesStart(s, t);
    }
  }

  lemma SafeEntry(s: State, t: nat, pc: CallPc)
    requires Safe(s) && t !in s.calls && Entry(pc)
    ensures Safe(Move(s, t, pc))
  {
    hide Slot, Structure, ChannelsSound, ParkSound, CountSound;
    var s' := Move(s, t, pc);
    SlotMove(s, t, pc);
    StructureHarmless(s, s', t, pc);
    ChannelsHarmless(s, s', t, pc);
    CountSame(s, s');
    ParkCall(s, s', t, pc);
  }

  lemma SlotMove(s: State, t: nat, pc: CallPc)
    requires Slot(s) && t !in s.calls && Entry(pc)
    ensures Slot(Move(s, t, pc))
  {
    hide Holders;
    HoldersMove(s.calls, t, pc);
  }

  lemma SafeClock(s: State, s': State)
    requires Safe(s) && s' == s.(now := s'.now, ctxDone := s'.ctxDone)
    ensures Safe(s')
  {
    hide Slot, ChannelsSound;
    assert Slot(s') by {
      SlotClock(s, s');
    }
    assert ChannelsSound(s') by {
      ChannelsClock(s, s');
    }
    if s.loop.Parked? && WakePending(s, s.loop.on) {
      if t :| Closing(s, t) && s.calls[t].stale == s.loop.on {
        assert Closing(s', t);
      }
    }
  }

  lemma SlotClock(s: State, s': State)
    requires Slot(s) && s' == s.(now := s'.now, ctxDone := s'.ctxDone)
    ensures Slot(s')
  {
  }

  lemma ChannelsClock(s: State, s': State)
    requires ChannelsSound(s) && s' == s.(now := s'.now, ctxDone := s'.ctxDone)
    ensures ChannelsSound(s')
  {
    forall t | Closing(s', t)
      ensures Closing(s, t)
    {
    }
  }

  lemma SafeKept(s: State, e: Event)
    requires Safe(s) && Enabled(s, e)
    ensures Safe(Apply(s, e))
  {
    hide Safe, LoopStep, CallStep;
    match e
    case Tick(_) => SafeClock(s, Apply(s, e));
    case Cancel => SafeClock(s, Apply(s, e));
    case Call(t, pc) => SafeEntry(s, t, pc);
    case CallActs(t) => SafeCall(s, t);
    case LoopActs(b) => SafeLoop(s, b);
  }

  /** Every state of every run is safe. */
  lemma {:induction false} SafeOverRuns(ss: seq<State>, es: seq<Event>, i: nat)
    requires IsRun(ss, es) && i < |ss|
    ensures Safe(ss[i])
  {
    hide Safe, Apply, Enabled, IsRun;
    RunStart(ss, es);
    if i == 0 {
      InitIsSafe(ss[0]);
    } else {
      SafeOverRuns(ss, es, i - 1);
      RunStep(ss, es, i - 1);
      SafeKept(ss[i - 1], es[i - 1]);
    }
  }

  lemma InitIsSafe(s: State)
    requires Init(s)
    ensures Safe(s)
  {
    assert Holders(s.calls) == {};
  }

  /** Under every interleaving at most one job is in flight, exactly while the slot is taken, and every
      successful claim is a finished run or the one in flight. */
  lemma NeverOverlaps(ss: seq<State>, es: seq<Event>, i: nat)
    requires IsRun(ss, es) && i < |ss|
    ensures InFlightCount(ss[i]) == (if ss[i].g.running then 1 else 0)
    ensures ss[i].h.claims == ss[i].g.runs + InFlightCount(ss[i])
  {
    hide IsRun;
    SafeOverRuns(ss, es, i);
  }

  /** The channel an action closes, if it closes one. */
  function Closes(s: State, e: Event): Option<Option<nat>> {
    match e
    case CallActs(t) =>
      if t !in s.calls then None
      else if s.calls[t].SetClose? && s.calls[t].stale.Some? then Some(s.calls[t].stale)
      else if s.calls[t].StopSection? && s.g.stopCh.Some? && !s.g.stopped then Some(s.g.stopCh)
      else None
    case LoopActs(_) => if s.loop.ClosingDone? && s.loop.ch.Some? then Some(s.loop.ch) else None
    case _ => None
  }

  lemma LoopCloses(s: State, b: Branch)
    requires Structure(s) && ChannelsSound(s) && LoopCanAct(s, b)
    ensures LoopStep(s, b).chans.closed == s.chans.closed + match Closes(s, LoopActs(b)) case Some(Some(ch)) => {ch} case _ => {}
    ensures Closes(s, LoopActs(b)).Some? ==>
      Closes(s, LoopActs(b)).value.Some? && !IsClosed(s.chans, Closes(s, LoopActs(b)).value)
  {
    hide PlanNextSection, AdvanceSection, Missed;
  }

  lemma CallCloses(s: State, t: nat)
    requires Structure(s) && ChannelsSound(s) && CallCanAct(s, t)
    ensures CallStep(s, t).chans.closed == s.chans.closed + match Closes(s, CallActs(t)) case Some(Some(ch)) => {ch} case _ => {}
    ensures Closes(s, CallActs(t)).Some? ==>
      Closes(s, CallActs(t)).value.Some? && !IsClosed(s.chans, Closes(s, CallActs(t)).value)
  {
    hide PlanNextSection, AdvanceSection, Missed;
    assert s.calls[t].SetClose? ==> Closing(s, t);
  }

  lemma ClosesStep(s: State, e: Event)
    requires Safe(s) && Enabled(s, e)
    ensures Apply(s, e).chans.closed == s.chans.closed + match Closes(s, e) case Some(Some(ch)) => {ch} case _ => {}
    ensures Closes(s, e).Some? ==> Closes(s, e).value.Some? && !IsClosed(s.chans, Closes(s, e).value)
  {
    hide Structure, ChannelsSound, LoopStep, CallStep;
    match e
    case LoopActs(b) => LoopCloses(s, b);
    case CallActs(t) => CallCloses(s, t);
    case _ =>
  }

  lemma {:induction false} ClosedGrows(ss: seq<State>, es: seq<Event>, i: nat, j: nat)
    requires IsRun(ss, es) && i <= j < |ss|
    ensures ss[i].chans.closed <= ss[j].chans.closed
  {
    hide IsRun, Enabled, Apply, Safe;
    if i < j {
      RunStart(ss, es);
      ClosedGrows(ss, es, i, j - 1);
      SafeOverRuns(ss, es, j - 1);
      RunStep(ss, es, j - 1);
      ClosesStep(ss[j - 1], es[j - 1]);
    }
  }

  /** Whatever closes a channel closes one that was made and is open, and no channel is closed twice. */
  lemma NoDoubleClose(ss: seq<State>, es: seq<Event>, i: nat, j: nat)
    requires IsRun(ss, es) && i < j < |es| && Closes(ss[j], es[j]).Some?
    ensures Closes(ss[j], es[j]).value.Some? && !IsClosed(ss[j].chans, Closes(ss[j], es[j]).value)
    ensures Closes(ss[i], es[i]) != Closes(ss[j], es[j])
    ensures !ss[j + 1].chans.panicked
  {
    hide IsRun, Enabled, Apply, Safe, Closes;
    RunStart(ss, es);
    RunStep(ss, es, i);
    RunStep(ss, es, j);
    SafeOverRuns(ss, es, i);
    SafeOverRuns(ss, es, j);
    SafeOverRuns(ss, es, j + 1);
    ClosesStep(ss[i], es[i]);
    ClosesStep(ss[j], es[j]);
    ClosedGrows(ss, es, i + 1, j);
    SafeNeverPanics(ss[j + 1]);
  }

  lemma SafeNeverPanics(s: State)
    requires Safe(s)
    ensures !s.chans.panicked
  {
    hide Slot, Structure, ParkSound, CountSound;
  }

  /** The replan channel in place is open, and the loop wakes at most once per delivered wake. */
  lemma OneWakePerChange(ss: seq<State>, es: seq<Event>, i: nat)
    requires IsRun(ss, es) && i < |ss|
    ensures !IsClosed(ss[i].chans, ss[i].g.replan)
    ensures ss[i].h.wakes <= ss[i].h.delivered
  {
    hide IsRun;
    SafeOverRuns(ss, es, i);
    WakesAtMostDelivered(ss[i]);
    OpenReplan(ss[i]);
  }

  lemma OpenReplan(s: State)
    requires Structure(s) && ChannelsSound(s)
    ensures !IsClosed(s.chans, s.g.replan)
  {
  }
}
