// The scheduler inside the server: switching the schedule off while a scheduled
// run is finishing can end in a cycle of three threads waiting for each other.
//
// The SetConfig call that reconciles the scheduler, the scheduler's loop, the run
// the loop's job has started, and runs started by hand, which compete with it for
// the busy slot.

module WaitCycle {
  import Scheduler
  import Protocol = SchedulerProtocol

  /** The call that switches the schedule off. */
  datatype CallPc =
    | Idle
    | Holding    // has locked schedMu, about to call Stop
    | InStop     // has closed stopCh, waits for the loop with schedMu locked
    | Stopped    // Stop has returned
    | Freed      // has unlocked schedMu

  datatype LoopPc =
    | Parked      // on its timer select
    | Claiming
    | StartingRun // the job is about to ask for the busy slot
    | Awaiting    // the job waits for the run to end
    | Refused     // the job has got ErrBusy
    | Planning
    | Leaving     // about to close done
    | Exited

  datatype RunPc =
    | NoRun
    | Executing
    | WantStatus // finish: the record is appended, about to lock schedMu
    | InStatus   // has schedMu locked
    | Releasing  // about to hand back the busy slot
    | Closing    // about to close its done channel
    | Over

  datatype Mutex = Free | ByCall | ByRun | ByManual

  /** Of the scheduled runs: how many starts were accepted and how many refused, and how many jobs the
      scheduler has counted as runs. */
  datatype Tally = Tally(accepted: nat, refused: nat, runs: nat)

  /** `run` is the latest scheduled run, `manual` the latest run started by hand. */
  datatype State = State(
    call: CallPc, loop: LoopPc, run: RunPc, manual: RunPc, schedMu: Mutex, cancelled: bool, tally: Tally)

  const START := State(Idle, Parked, NoRun, NoRun, Free, false, Tally(0, 0, 0))

  /** The ready case a select takes; ByHolder is a claim refused to the loop by a RunOnce, which the scheduler
      offers and the server never calls. */
  datatype Branch = ByStop | ByCtx | ByReplan | ByTimer | ByDone | ByHolder | Go

  datatype Event =
    | CallActs
    | LoopActs(b: Branch)
    | RunActs
    | ManualActs
    | StartManual // an accepted start by hand
    | Cancel      // Server.Cancel
    | CancelRun   // cancels the context of a run, which only lets it execute for less long
    | ReadStatus  // another thread locks and unlocks schedMu

  predicate StopRequested(s: State) {
    s.call.InStop? || s.call.Stopped? || s.call.Freed?
  }

  /** The run holds the busy slot. */
  predicate Busy(pc: RunPc) {
    pc.Executing? || pc.WantStatus? || pc.InStatus? || pc.Releasing?
  }

  predicate Running(pc: RunPc) {
    Busy(pc) || pc.Closing?
  }

  predicate SlotFree(s: State) {
    !Busy(s.run) && !Busy(s.manual)
  }

  predicate LoopEnabled(s: State, b: Branch) {
    match s.loop
    case Parked => (b.ByStop? && StopRequested(s)) || (b.ByCtx? && s.cancelled) || b.ByReplan? || b.ByTimer?
    case Claiming => b.Go? || b.ByHolder?
    case Awaiting => (b.ByDone? && s.run.Over?) || (b.ByCtx? && s.cancelled)
    case Exited => false
    case _ => b.Go?
  }

  predicate RunEnabled(s: State, pc: RunPc) {
    Running(pc) && (pc.WantStatus? ==> s.schedMu.Free?)
  }

  predicate Enabled(s: State, e: Event) {
    match e
    case CallActs =>
      (s.call.Idle? && s.schedMu.Free?) || s.call.Holding? || (s.call.InStop? && s.loop.Exited?) || s.call.Stopped?
    case LoopActs(b) => LoopEnabled(s, b)
    case RunActs => RunEnabled(s, s.run)
    case ManualActs => RunEnabled(s, s.manual)
    case StartManual => SlotFree(s)
    case Cancel => true
    case CancelRun => true
    case ReadStatus => s.schedMu.Free?
  }

  function CallStep(s: State): State {
    match s.call
    case Idle => s.(call := Holding, schedMu := ByCall)
    case Holding => s.(call := InStop)
    case InStop => s.(call := Stopped)
    case Stopped => s.(call := Freed, schedMu := Free)
    case Freed => s
  }

  function LoopStep(s: State, b: Branch): State {
    match s.loop
    case Parked => s.(loop := if b.ByTimer? then Claiming else if b.ByReplan? then Planning else Leaving)
    case Claiming => s.(loop := if b.ByHolder? || StopRequested(s) then Planning else StartingRun)
    case StartingRun =>
      if SlotFree(s)
      then s.(loop := Awaiting, run := Executing, tally := s.tally.(accepted := s.tally.accepted + 1))
      else s.(loop := Refused, tally := s.tally.(refused := s.tally.refused + 1))
    case Awaiting => s.(loop := Planning, tally := s.tally.(runs := s.tally.runs + 1))
    case Refused => s.(loop := Planning, tally := s.tally.(runs := s.tally.runs + 1))
    case Planning => s.(loop := if StopRequested(s) then Leaving else Parked)
    case Leaving => s.(loop := Exited)
    case Exited => s
  }

  function Next(pc: RunPc): RunPc {
    match pc
    case Executing => WantStatus
    case WantStatus => InStatus
    case InStatus => Releasing
    case Releasing => Closing
    case Closing => Over
    case _ => pc
  }

  /** schedMu after a step of the run that locks it as `holder`. */
  function MutexAfter(m: Mutex, pc: RunPc, holder: Mutex): Mutex {
    if pc.WantStatus? then holder else if pc.InStatus? then Free else m
  }

  function Apply(s: State, e: Event): State {
    match e
    case CallActs => CallStep(s)
    case LoopActs(b) => LoopStep(s, b)
    case RunActs => s.(run := Next(s.run), schedMu := MutexAfter(s.schedMu, s.run, ByRun))
    case ManualActs => s.(manual := Next(s.manual), schedMu := MutexAfter(s.schedMu, s.manual, ByManual))
    case StartManual => s.(manual := Executing)
    case Cancel => s.(cancelled := true)
    case CancelRun => s
    case ReadStatus => s
  }

  ghost predicate IsRun(ss: seq<State>, es: seq<Event>) {
    && |ss| == |es| + 1 && ss[0] == START
    && forall i :: 0 <= i < |es| ==> Enabled(ss[i], es[i]) && ss[i + 1] == Apply(ss[i], es[i])
  }

  // ----- the cycle ----------------------------------------------------------

  /** The call waits for the loop, the loop for the run, and the run for the mutex the call holds. */
  predicate Deadlocked(s: State) {
    s.call.InStop? && s.schedMu.ByCall? && s.loop.Awaiting? && s.run.WantStatus? && !s.cancelled
  }

  /** The cycle is reached: the timer fires, the job starts a run, the schedule is switched off, and the run
      gets to announcing its outcome.  Cancel is still possible there. */
  lemma DeadlockReachable() returns (ss: seq<State>, es: seq<Event>)
    ensures IsRun(ss, es) && Deadlocked(ss[|es|])
    ensures Enabled(ss[|es|], Cancel) && Enabled(ss[|es|], CancelRun)
  {
    es := [LoopActs(ByTimer), LoopActs(Go), LoopActs(Go), CallActs, CallActs, RunActs];
    var s1 := Apply(START, es[0]);
    var s2 := Apply(s1, es[1]);
    var s3 := Apply(s2, es[2]);
    var s4 := Apply(s3, es[3]);
    var s5 := Apply(s4, es[4]);
    ss := [START, s1, s2, s3, s4, s5, Apply(s5, es[5])];
  }

  lemma StepAt(ss: seq<State>, es: seq<Event>, i: nat)
    requires IsRun(ss, es) && i < |es|
    ensures |ss| == |es| + 1 && Enabled(ss[i], es[i]) && ss[i + 1] == Apply(ss[i], es[i])
  {
    hide Enabled, Apply;
  }

  // ----- the invariant ------------------------------------------------------

  predicate Sound(s: State) {
    && (s.schedMu.ByCall? <==> s.call.Holding? || s.call.InStop? || s.call.Stopped?)
    && (s.schedMu.ByRun? <==> s.run.InStatus?)
    && (s.schedMu.ByManual? <==> s.manual.InStatus?)
    && (Busy(s.run) ==> !Busy(s.manual))
    && (s.loop.Awaiting? ==> !s.run.NoRun?)
    && (!s.cancelled && !s.loop.Awaiting? ==> !Running(s.run))
    && (s.call.Stopped? || s.call.Freed? ==> s.loop.Exited?)
    && (s.loop.Leaving? || s.loop.Exited? ==> StopRequested(s) || s.cancelled)
    && s.tally.accepted + s.tally.refused == s.tally.runs + if s.loop.Awaiting? || s.loop.Refused? then 1 else 0
  }

  lemma SoundKept(s: State, e: Event)
    requires Sound(s) && Enabled(s, e)
    ensures Sound(Apply(s, e))
  {
  }

  lemma {:induction false} SoundOverRuns(ss: seq<State>, es: seq<Event>, i: nat)
    requires IsRun(ss, es) && i < |ss|
    ensures Sound(ss[i])
  {
    hide Enabled, Apply;
    if i > 0 {
      SoundOverRuns(ss, es, i - 1);
      SoundKept(ss[i - 1], es[i - 1]);
    }
  }

  /** The scheduler's run count says more than its comment: besides the scheduled runs that were started it
      counts every job that found the server busy and started nothing. */
  lemma RunsCountRefusals(ss: seq<State>, es: seq<Event>, i: nat)
    requires IsRun(ss, es) && i < |ss|
    requires !ss[i].loop.Awaiting? && !ss[i].loop.Refused?
    ensures ss[i].tally.accepted <= ss[i].tally.runs
    ensures ss[i].tally.accepted == ss[i].tally.runs <==> ss[i].tally.refused == 0
  {
    hide IsRun;
    SoundOverRuns(ss, es, i);
  }

  // ----- exactly this cycle -------------------------------------------------

  lemma CycleStays(s: State, e: Event)
    requires Sound(s) && Enabled(s, e) && Deadlocked(s) && !e.Cancel?
    ensures Deadlocked(Apply(s, e))
  {
  }

  /** Nothing but Server.Cancel leaves the cycle; stopping the scheduler does not cancel the context its job
      is waiting on, and neither cancelling the run nor waiting helps. */
  lemma {:induction false} OnlyCancelHelps(ss: seq<State>, es: seq<Event>, i: nat, j: nat)
    requires IsRun(ss, es) && i <= j < |ss| && Deadlocked(ss[i])
    requires forall k :: i <= k < j ==> !es[k].Cancel?
    ensures Deadlocked(ss[j])
  {
    hide Enabled, Apply, Sound;
    if i < j {
      OnlyCancelHelps(ss, es, i, j - 1);
      SoundOverRuns(ss, es, j - 1);
      CycleStays(ss[j - 1], es[j - 1]);
    }
  }

  predicate ByThread(e: Event) {
    e.CallActs? || e.LoopActs? || e.RunActs? || e.ManualActs?
  }

  predicate AllOver(s: State) {
    s.call.Freed? && s.loop.Exited? && !Running(s.run) && !Running(s.manual)
  }

  /** In every reachable state, none of the threads can move exactly when they have all finished, or all but
      the three that wait for each other in this cycle have: there is no other deadlock among them. */
  lemma StuckIffDeadlocked(ss: seq<State>, es: seq<Event>, i: nat)
    requires IsRun(ss, es) && i < |ss|
    ensures (forall e :: ByThread(e) ==> !Enabled(ss[i], e))
       <==> (Deadlocked(ss[i]) && !Running(ss[i].manual)) || AllOver(ss[i])
  {
    hide IsRun, Sound;
    SoundOverRuns(ss, es, i);
    if !(Deadlocked(ss[i]) && !Running(ss[i].manual)) && !AllOver(ss[i]) {
      SomeThreadMoves(ss[i]);
    } else {
      NoThreadMoves(ss[i]);
    }
  }

  lemma NoThreadMoves(s: State)
    requires (Deadlocked(s) && !Running(s.manual)) || AllOver(s)
    ensures forall e :: ByThread(e) ==> !Enabled(s, e)
  {
  }

  lemma SomeThreadMoves(s: State)
    requires Sound(s) && !(Deadlocked(s) && !Running(s.manual)) && !AllOver(s)
    ensures exists e :: ByThread(e) && Enabled(s, e)
  {
    var e :=
      if Enabled(s, CallActs) then CallActs
      else if Enabled(s, RunActs) then RunActs
      else if Enabled(s, ManualActs) then ManualActs
      else match s.loop
        case Parked => LoopActs(ByTimer)
        case Awaiting => LoopActs(if s.run.Over? then ByDone else ByCtx)
        case _ => LoopActs(Go);
    assert ByThread(e) && Enabled(s, e);
  }

  // ----- when switching the schedule off gets stuck -------------------------

  /** The loop waits for a run that has not got past its status broadcast, and nothing is cancelled. */
  predicate ShortOfStatus(s: State) {
    !s.cancelled && s.loop.Awaiting? && (s.run.Executing? || s.run.WantStatus?)
  }

  /** The call waits for a loop that waits for such a run. */
  predicate Hung(s: State) {
    s.call.InStop? && ShortOfStatus(s)
  }

  /** The busy slot is not free to the loop: a run started by hand holds it and, short of its own status
      broadcast, cannot hand it back while the call is in Stop. */
  predicate SlotKept(s: State) {
    s.manual.Executing? || s.manual.WantStatus?
  }

  /** A stop that will get through: no such run is waited for, and none can be started any more. */
  predicate Spared(s: State) {
    && StopRequested(s) && !Hung(s)
    && (s.loop.StartingRun? ==> s.cancelled || SlotKept(s))
  }

  /** The job is given the busy slot. */
  predicate Accepts(s: State, e: Event) {
    e.LoopActs? && s.loop.StartingRun? && SlotFree(s)
  }

  lemma HungStep(s: State, e: Event)
    requires Sound(s) && Enabled(s, e) && StopRequested(s)
    ensures StopRequested(Apply(s, e))
    ensures !e.Cancel? ==> Apply(s, e).cancelled == s.cancelled
    ensures !e.Cancel? ==> (Hung(Apply(s, e)) <==> Hung(s) || (!s.cancelled && Accepts(s, e)))
    ensures Spared(s) ==> Spared(Apply(s, e))
  {
  }

  /** A call that is hung stays so, unless the server is cancelled. */
  lemma {:induction false} HungForGood(ss: seq<State>, es: seq<Event>, i: nat, j: nat)
    requires IsRun(ss, es) && i <= j < |ss| && Hung(ss[i])
    requires forall k :: i <= k < j ==> !es[k].Cancel?
    ensures Hung(ss[j]) && ss[j].call.InStop?
  {
    hide Enabled, Apply, Sound, Accepts;
    if i < j {
      HungForGood(ss, es, i, j - 1);
      SoundOverRuns(ss, es, j - 1);
      HungStep(ss[j - 1], es[j - 1]);
    }
  }

  /** A spared call is never hung, and never in the cycle, whatever happens. */
  lemma {:induction false} SparedForGood(ss: seq<State>, es: seq<Event>, i: nat, j: nat)
    requires IsRun(ss, es) && i <= j < |ss| && Spared(ss[i])
    ensures Spared(ss[j]) && !Hung(ss[j]) && !Deadlocked(ss[j])
  {
    hide Enabled, Apply, Sound, Accepts;
    if i < j {
      SparedForGood(ss, es, i, j - 1);
      SoundOverRuns(ss, es, j - 1);
      HungStep(ss[j - 1], es[j - 1]);
    }
  }

  /** A stop that is neither hung nor spared has caught the job about to ask for the busy slot, and the answer
      decides: hung if it is accepted, spared if it is refused. */
  lemma StartRunDecides(s: State, b: Branch)
    requires Sound(s) && StopRequested(s) && !Hung(s) && !Spared(s)
    ensures s.loop.StartingRun? && !s.cancelled && !SlotKept(s)
    ensures SlotFree(s) ==> Hung(LoopStep(s, b))
    ensures !SlotFree(s) ==> Spared(LoopStep(s, b))
  {
  }

  lemma StopCloses(ss: seq<State>, es: seq<Event>, i: nat)
    requires IsRun(ss, es) && i < |es| && es[i].CallActs? && ss[i].call.Holding?
    ensures StopRequested(ss[i + 1]) && ss[i + 1].cancelled == ss[i].cancelled
    ensures Hung(ss[i + 1]) <==> ShortOfStatus(ss[i])
  {
  }

  lemma {:induction false} HungExactly(ss: seq<State>, es: seq<Event>, i: nat, j: nat)
    requires IsRun(ss, es) && i < j < |ss| && es[i].CallActs? && ss[i].call.Holding?
    requires forall k :: i < k < j ==> !es[k].Cancel?
    ensures StopRequested(ss[j]) && ss[j].cancelled == ss[i].cancelled
    ensures Hung(ss[j]) <==>
            ShortOfStatus(ss[i]) || (!ss[i].cancelled && exists k :: i < k < j && Accepts(ss[k], es[k]))
  {
    hide Enabled, Apply, Sound, Accepts, Hung, ShortOfStatus;
    if i + 1 == j {
      StopCloses(ss, es, i);
    } else {
      HungExactly(ss, es, i, j - 1);
      SoundOverRuns(ss, es, j - 1);
      StepAt(ss, es, j - 1);
      HungStep(ss[j - 1], es[j - 1]);
    }
  }

  /** The exact outcome of switching the schedule off, without Cancel.  The call hangs exactly when, as the stop
      is requested, the loop waits for a run short of its status broadcast, or the job it has already claimed a
      tick for is then given the busy slot.  If so it never returns; if not, the threads can always move until
      they have all finished. */
  lemma SwitchOffOutcome(ss: seq<State>, es: seq<Event>, i: nat, j: nat)
    requires IsRun(ss, es) && i < j < |ss| && es[i].CallActs? && ss[i].call.Holding?
    requires forall k :: i < k < j ==> !es[k].Cancel?
    ensures Hung(ss[j]) <==>
            ShortOfStatus(ss[i]) || (!ss[i].cancelled && exists k :: i < k < j && Accepts(ss[k], es[k]))
    ensures Hung(ss[j]) ==> ss[j].call.InStop?
    ensures !Hung(ss[j]) ==> AllOver(ss[j]) || exists e :: ByThread(e) && Enabled(ss[j], e)
    ensures (forall e :: ByThread(e) ==> !Enabled(ss[j], e)) ==> (AllOver(ss[j]) <==> !Hung(ss[j]))
  {
    hide Enabled, Apply, Sound, Accepts, ShortOfStatus, IsRun;
    HungExactly(ss, es, i, j);
    SoundOverRuns(ss, es, j);
    CycleIsHung(ss[j]);
    if !AllOver(ss[j]) && !Hung(ss[j]) {
      SomeThreadMoves(ss[j]);
    }
  }

  lemma CycleIsHung(s: State)
    ensures Deadlocked(s) ==> Hung(s)
    ensures Hung(s) ==> !AllOver(s)
  {
  }

  /** The same stop can go either way: the job has claimed its tick as the stop is requested, a run started by
      hand holds the busy slot, the job is refused, and the call returns. */
  lemma HandStartedRunSpares() returns (ss: seq<State>, es: seq<Event>)
    ensures IsRun(ss, es) && |es| == 11
    ensures ss[4].loop.StartingRun? && ss[4].call.InStop? && !ss[4].cancelled && Spared(ss[5])
    ensures (forall e | e in es :: !e.Cancel?) && ss[11].call.Freed?
  {
    es := [LoopActs(ByTimer), LoopActs(Go), CallActs, CallActs, StartManual,
           LoopActs(Go), LoopActs(Go), LoopActs(Go), LoopActs(Go), CallActs, CallActs];
    var stop := State(InStop, StartingRun, NoRun, NoRun, ByCall, false, Tally(0, 0, 0));
    var spared := stop.(manual := Executing);
    var refused := spared.(loop := Refused, tally := Tally(0, 1, 0));
    var over := refused.(loop := Exited, tally := Tally(0, 1, 1));
    ss := [START, START.(loop := Claiming), START.(loop := StartingRun), stop.(call := Holding), stop, spared,
           refused, over.(loop := Planning), over.(loop := Leaving), over, over.(call := Stopped),
           over.(call := Freed, schedMu := Free)];
  }

  // ----- Cancel resolves it -------------------------------------------------

  function RunRank(pc: RunPc): nat {
    match pc
    case Executing => 5 case WantStatus => 4 case InStatus => 3 case Releasing => 2 case Closing => 1 case _ => 0
  }

  function Rank(s: State): nat {
    (match s.call case Idle => 4 case Holding => 3 case InStop => 2 case Stopped => 1 case Freed => 0)
    + (match s.loop
       case Parked => 5 case Claiming => 4 case StartingRun => 9 case Awaiting => 3 case Refused => 3
       case Planning => 2 case Leaving => 1 case Exited => 0)
    + RunRank(s.run) + RunRank(s.manual)
  }

  /** Once a stop has been requested every step of the threads brings them closer to the end. */
  lemma RankDecreases(s: State, e: Event)
    requires StopRequested(s) && ByThread(e) && Enabled(s, e)
    ensures StopRequested(Apply(s, e)) && Rank(Apply(s, e)) < Rank(s)
  {
    match e
    case LoopActs(b) => LoopRank(s, b);
    case _ =>
  }

  lemma LoopRank(s: State, b: Branch)
    requires StopRequested(s) && LoopEnabled(s, b)
    ensures StopRequested(LoopStep(s, b)) && Rank(LoopStep(s, b)) < Rank(s)
  {
  }

  /** Cancel breaks the cycle: from there on the threads can always move until they have all finished. */
  lemma CancelResolves(ss: seq<State>, es: seq<Event>, i: nat, j: nat)
    requires IsRun(ss, es) && i < j < |ss| && Deadlocked(ss[i]) && es[i].Cancel?
    ensures StopRequested(ss[j]) && ss[j].cancelled
    ensures AllOver(ss[j]) || exists e :: ByThread(e) && Enabled(ss[j], e)
  {
    hide IsRun, Sound, Enabled;
    StopAndCancelLast(ss, es, i, j);
    SoundOverRuns(ss, es, j);
    if !AllOver(ss[j]) {
      SomeThreadMoves(ss[j]);
    }
  }

  lemma {:induction false} StopAndCancelLast(ss: seq<State>, es: seq<Event>, i: nat, j: nat)
    requires IsRun(ss, es) && i < j < |ss| && StopRequested(ss[i]) && es[i].Cancel?
    ensures StopRequested(ss[j]) && ss[j].cancelled
  {
    hide Enabled, Apply;
    if i + 1 < j {
      StopAndCancelLast(ss, es, i, j - 1);
    }
    StopStays(ss[j - 1], es[j - 1]);
  }

  lemma StopStays(s: State, e: Event)
    requires StopRequested(s)
    ensures StopRequested(Apply(s, e)) && (s.cancelled || e.Cancel? ==> Apply(s, e).cancelled)
  {
  }

  /** And they can only move a bounded number of times, a run started by hand meanwhile adding at most five
      steps, whoever else reads the status. */
  lemma {:induction false} StepsAreBounded(ss: seq<State>, es: seq<Event>, i: nat, j: nat)
    requires IsRun(ss, es) && i <= j < |ss| && StopRequested(ss[i])
    ensures StopRequested(ss[j])
    ensures Rank(ss[j]) + ThreadSteps(es[i..j]) <= Rank(ss[i]) + 5 * Starts(es[i..j])
  {
    hide Rank, Enabled, Apply;
    if i == j {
      assert es[i..j] == [];
    } else {
      StepsAreBounded(ss, es, i, j - 1);
      assert es[i..j][..j - 1 - i] == es[i..j - 1];
      if ByThread(es[j - 1]) {
        RankDecreases(ss[j - 1], es[j - 1]);
      } else {
        OthersKeepRank(ss[j - 1], es[j - 1]);
      }
    }
  }

  function ThreadSteps(es: seq<Event>): nat {
    if es == [] then 0 else ThreadSteps(es[..|es| - 1]) + if ByThread(es[|es| - 1]) then 1 else 0
  }

  function Starts(es: seq<Event>): nat {
    if es == [] then 0 else Starts(es[..|es| - 1]) + if es[|es| - 1].StartManual? then 1 else 0
  }

  lemma OthersKeepRank(s: State, e: Event)
    requires StopRequested(s) && !ByThread(e)
    ensures StopRequested(Apply(s, e)) && Rank(Apply(s, e)) <= Rank(s) + if e.StartManual? then 5 else 0
  {
  }

  // ----- the loop is the scheduler's ----------------------------------------

  /** Where the scheduler's loop is, as this model tells it. */
  function Seen(pc: Protocol.LoopPc): LoopPc {
    match pc
    case Claiming(_) => Claiming
    case Advancing(_) => StartingRun
    case Starting => StartingRun
    case Working(_) => Awaiting
    case Finishing(_) => Planning
    case Skipping => Planning
    case Refresh => Planning
    case Plan => Planning
    case Leaving => Leaving
    case ClosingDone(_) => Leaving
    case Exited => Exited
    case _ => Parked
  }

  /** This state shows where the scheduler's loop is; a job that has been refused has not yet returned to the
      scheduler. */
  predicate ShowsLoop(loop: LoopPc, pc: Protocol.LoopPc) {
    loop == Seen(pc) || (loop.Refused? && pc.Working?)
  }

  /** It shows the loop, whether a stop was requested, and the context. */
  predicate Shows(s: State, p: Protocol.State) {
    ShowsLoop(s.loop, p.loop) && (StopRequested(s) <==> p.g.stopped) && s.cancelled == p.ctxDone
  }

  /** Whatever step the scheduler's loop takes in a reachable state is none or one of the loop's steps here;
      only the end of the run, which the scheduler does not explain, is waited for here. */
  lemma LoopStepsAreSeen(s: State, p: Protocol.State, b: Protocol.Branch) returns (c: Branch)
    requires Protocol.Safe(p) && Protocol.LoopCanAct(p, b) && Shows(s, p)
    ensures var after := Protocol.LoopStep(p, b).loop;
      || ShowsLoop(s.loop, after)
      || (ShowsLoop(LoopStep(s, c).loop, after) && (LoopEnabled(s, c) || s.loop.Awaiting?))
  {
    hide Scheduler.PlanNextSection, Protocol.Safe;
    StoppedPlan(p.g, p.now);
    StopChannel(p);
    c := match p.loop
      case Parked(_, _, _) =>
        if b.ByTimer? then ByTimer else if b.ByReplan? then ByReplan else if b.ByCtx? then ByCtx else ByStop
      case IdleParked => if b.ByCtx? then ByCtx else ByStop
      case Claiming(_) => if p.g.running then ByHolder else Go
      case Working(_) => if s.loop.Awaiting? then ByDone else Go
      case _ => Go;
  }

  lemma StopChannel(p: Protocol.State)
    requires Protocol.Safe(p)
    ensures Protocol.IsClosed(p.chans, p.g.stopCh) ==> p.g.stopped
  {
    hide Protocol.Slot, Protocol.ParkSound, Protocol.CountSound;
  }

  lemma StoppedPlan(g: Scheduler.Guarded, now: int)
    ensures Scheduler.PlanNextSection(g, now).1.WantStop? <==> g.stopped
  {
  }
}
