// Saving a configuration and bringing the scheduler in line with it.
//
// ConfigSync is one call at a time, as the server performs it on its own
// fields; ConfigProtocol is any number of concurrent calls.

module ConfigSync {
  import opened Options
  import opened Cron
  import CronParser
  import opened Scheduler

  /** A normalised configuration: `runnable` says whether its run parameters hold up, `settings` stands
      for everything this model does not look into. */
  datatype Config = Config(schedule: string, enabled: bool, runnable: bool, settings: nat)

  predicate HasSchedule(c: Config) {
    c.schedule != ""
  }

  /** What SetConfig lets through to the disk. */
  ghost predicate Acceptable(c: Config) {
    c.runnable && (HasSchedule(c) ==> CronParser.Meaning(c.schedule).Ok?)
  }

  /** The zero specification, recorded while there is no valid plan. */
  const NO_PLAN := Interval(0)

  datatype Recorded = Recorded(spec: Spec, planValid: bool, enabled: bool)

  /** What the server must record of a configuration. */
  ghost function PlanOf(c: Config): Recorded {
    if !HasSchedule(c) then Recorded(NO_PLAN, false, false)
    else match CronParser.Meaning(c.schedule)
      case Err(_) => Recorded(NO_PLAN, false, false)
      case Ok(spec) => Recorded(spec, true, c.enabled)
  }

  /** The recorded plan is the configuration's own: its parsed expression if it has one, armed or not, and
      switched on exactly when a scheduler is wanted. */
  ghost predicate PlanIsOf(r: Recorded, c: Config) {
    && (r.planValid <==> c.schedule != "" && CronParser.Meaning(c.schedule).Ok?)
    && (r.planValid ==> CronParser.Meaning(c.schedule) == CronParser.Ok(r.spec))
    && (!r.planValid ==> r.spec == NO_PLAN)
    && (r.enabled <==> r.planValid && c.enabled)
  }

  lemma PlanOfConfig(c: Config)
    ensures PlanIsOf(PlanOf(c), c)
    ensures forall r: Recorded :: PlanIsOf(r, c) ==> r == PlanOf(c)
  {
  }

  datatype Outcome = Rejected | SaveFailed | Applied

  /** What the status page shows as the next firing is the plan's first instant after `now`, if any. */
  ghost predicate Advertises(g: Guarded, now: int) {
    match NextFiring(g.spec, now)
    case None => !g.nextSet
    case Some(at) => g.nextSet && g.next == at
  }

  class Server {
    var file: Option<Config>
    var cfg: Config
    var spec: Spec
    var planValid: bool
    var enabled: bool
    var sched: Scheduler?

    /** A scheduler held by the server has been started and not stopped. */
    ghost predicate Valid()
      reads this, sched
    {
      sched != null ==> Live(sched.View())
    }

    ghost function Plan(): Recorded
      reads this
    {
      Recorded(spec, planValid, enabled)
    }

    /** The scheduler exists exactly when the configuration wants one and runs the configuration's schedule,
        whose next firing from `now` it advertises. */
    ghost predicate Armed(now: int)
      reads this, sched
    {
      && (sched != null <==> cfg.schedule != "" && cfg.enabled && CronParser.Meaning(cfg.schedule).Ok?)
      && (sched != null ==> CronParser.Meaning(cfg.schedule) == CronParser.Ok(sched.spec) && Advertises(sched.View(), now))
    }

    constructor (cfg: Config, now: int, id: nat)
      ensures Valid() && this.cfg == cfg && file == None && PlanIsOf(Plan(), cfg) && Armed(now)
      ensures sched != null ==> fresh(sched)
    {
      this.cfg := cfg;
      file, spec, planValid, enabled, sched := None, NO_PLAN, false, false, null;
      new;
      ReconcileScheduler(now, id);
    }

    method StopScheduler()
      requires Valid()
      modifies this`sched, sched
      ensures sched == null
      ensures old(sched) != null ==> old(sched).stopped
    {
      if sched != null {
        var _ := sched.StopLocked();
        sched := null;
      }
    }

    /** Start on a new scheduler; its channels are numbered from `id`. */
    method Arm(now: int, id: nat)
      requires sched == null
      modifies this`sched
      ensures sched != null && fresh(sched) && Valid()
      ensures sched.spec == spec && Advertises(sched.View(), now)
    {
      sched := new Scheduler(spec);
      var _ := sched.StartLocked(id);
      var _ := sched.PlanNext(now);
    }

    /** SetSpec on the scheduler there is, which exchanges the channel its loop is parked on. */
    method Replan(now: int, id: nat)
      requires Valid() && sched != null
      modifies sched
      ensures Valid() && sched.spec == spec && Advertises(sched.View(), now) && sched.replan == Some(id)
    {
      var _ := sched.SetSpecLocked(spec);
      var _ := sched.PlanNext(now);
      var _ := sched.SwapReplan(id);
    }

    method ReconcileScheduler(now: int, id: nat)
      requires Valid()
      modifies this`spec, this`planValid, this`enabled, this`sched, sched
      ensures Valid() && PlanIsOf(Plan(), cfg) && Armed(now)
      ensures sched != null <==> cfg.enabled && cfg.schedule != "" && CronParser.Meaning(cfg.schedule).Ok?
      ensures planValid <==> cfg.schedule != "" && CronParser.Meaning(cfg.schedule).Ok?
      ensures planValid ==> CronParser.Meaning(cfg.schedule) == CronParser.Ok(spec)
      ensures sched == null || (sched == old(sched) && sched.replan == Some(id)) || (old(sched) == null && fresh(sched))
      ensures old(sched) != null && sched == null ==> old(sched).stopped
    {
      if cfg.schedule == "" {
        spec, planValid, enabled := NO_PLAN, false, false;
        StopScheduler();
        return;
      }
      var parsed := CronParser.Parse(cfg.schedule);
      if parsed.Err? {
        spec, planValid, enabled := NO_PLAN, false, false;
        StopScheduler();
        return;
      }
      spec, planValid := parsed.value, true;
      if !cfg.enabled {
        enabled := false;
        StopScheduler();
        return;
      }
      enabled := true;
      if sched == null {
        Arm(now, id);
      } else {
        Replan(now, id);
      }
    }

    /** A configuration is rejected, fails to be saved, or is what the file, the process and the scheduler
        all follow; in the first two cases nothing changes. */
    method SetConfig(c: Config, saved: bool, now: int, id: nat) returns (r: Outcome)
      requires Valid()
      modifies this, sched
      ensures r.Rejected? <==> !c.runnable || (c.schedule != "" && CronParser.Meaning(c.schedule).Err?)
      ensures r.SaveFailed? ==> !saved
      ensures r.Applied? ==> saved
      ensures Valid()
      ensures !r.Applied? ==> unchanged(this) && (sched != null ==> unchanged(sched))
      ensures r.Applied? ==> file == Some(c) && cfg == c && PlanIsOf(Plan(), c) && Armed(now)
      ensures r.Applied? ==>
        && (sched != null <==> c.enabled && c.schedule != "")
        && (planValid <==> c.schedule != "") && (planValid ==> CronParser.Meaning(c.schedule) == CronParser.Ok(spec))
        && (sched != null ==> CronParser.Meaning(c.schedule) == CronParser.Ok(sched.spec))
      ensures r.Applied? ==>
        sched == null || (sched == old(sched) && sched.replan == Some(id)) || (old(sched) == null && fresh(sched))
    {
      if !c.runnable {
        return Rejected;
      }
      if c.schedule != "" {
        var parsed := CronParser.Parse(c.schedule);
        if parsed.Err? {
          return Rejected;
        }
      }
      if !saved {
        return SaveFailed;
      }
      file := Some(c);
      cfg := c;
      ReconcileScheduler(now, id);
      return Applied;
    }
  }
}

module ConfigProtocol {
  import CronParser
  import opened Options
  import opened Cron
  import opened ConfigSync

  /** A SetConfig call, named by what it does next. */
  datatype CallPc =
    | Validating(c: Config)
    | WantStore(c: Config)        // about to lock storeMu
    | Saving(c: Config)
    | Swapping(c: Config)         // the file is written, memory is next
    | UnlockStore
    | GiveUp                      // the save failed, storeMu still held
    | WantSched                   // about to lock schedMu
    | Reading
    | Recording(c: Config)
    | Stopping
    | Arming(spec: Spec)
    | Replanning(spec: Spec)
    | UnlockSched
    | WantStatus                  // scheduleStatus locks and unlocks schedMu
    | Returned
    | Refused                     // returned an error

  /** A mutex is free, held by a SetConfig call, or held by another user of it: storeMu also guards the
      history, schedMu also guards status reads. */
  datatype Mutex = Free | HeldBy(call: nat) | HeldElsewhere

  /** Everything a call can change.  `saves` lists the configurations written to the file, `plan` is what
      the server records, `sched` the scheduler it holds, by number; `specs` gives each scheduler made its
      specification and `live` the schedulers started and not yet stopped. */
  datatype Shared = Shared(
    saves: seq<Config>, mem: Config, plan: Recorded,
    sched: Option<nat>, specs: seq<Spec>, live: set<nat>)

  /** `applied` is the configuration that `plan` was recorded from. */
  datatype State = State(sh: Shared, applied: Config, store: Mutex, schedMu: Mutex, calls: map<nat, CallPc>)

  datatype Event =
    | Call(t: nat, c: Config)
    | Act(t: nat, ok: bool)
    | OtherLocksStore
    | OtherUnlocksStore
    | OtherLocksSched
    | OtherUnlocksSched

  /** The server as New leaves it: the configuration it was given is in force. */
  ghost predicate Init(s: State) {
    && s.sh.saves == [] && s.applied == s.sh.mem && s.sh.plan == PlanOf(s.sh.mem)
    && SchedulerMatches(s.sh)
    && s.store == Free && s.schedMu == Free && s.calls == map[]
  }

  ghost predicate SchedulerMatches(sh: Shared) {
    && (sh.sched.Some? <==> sh.plan.enabled)
    && (sh.sched.Some? ==> sh.sched.value < |sh.specs| && sh.specs[sh.sched.value] == sh.plan.spec)
    && OnlyLive(sh)
  }

  /** No scheduler but the one the server holds is left running. */
  ghost predicate OnlyLive(sh: Shared) {
    && sh.live == (if sh.sched.Some? then {sh.sched.value} else {})
    && (sh.sched.Some? ==> sh.sched.value < |sh.specs|)
  }

  predicate Ends(pc: CallPc) {
    pc.Returned? || pc.Refused?
  }

  ghost predicate Enabled(s: State, e: Event) {
    match e
    case Call(t, _) => t !in s.calls
    case Act(t, _) =>
      && t in s.calls && !Ends(s.calls[t])
      && (s.calls[t].WantStore? ==> s.store.Free?)
      && (s.calls[t].WantSched? || s.calls[t].WantStatus? ==> s.schedMu.Free?)
    case OtherLocksStore => s.store.Free?
    case OtherUnlocksStore => s.store.HeldElsewhere?
    case OtherLocksSched => s.schedMu.Free?
    case OtherUnlocksSched => s.schedMu.HeldElsewhere?
  }

  function Move(s: State, t: nat, pc: CallPc): State {
    s.(calls := s.calls[t := pc])
  }

  /** Up to the unlock of storeMu; `ok` is whether the file could be written. */
  ghost function SaveStep(s: State, t: nat, ok: bool): State
    requires t in s.calls
  {
    match s.calls[t]
    case Validating(c) => Move(s, t, if Acceptable(c) then WantStore(c) else Refused)
    case WantStore(c) => Move(s.(store := HeldBy(t)), t, Saving(c))
    case Saving(c) =>
      if ok then Move(s.(sh := s.sh.(saves := s.sh.saves + [c])), t, Swapping(c)) else Move(s, t, GiveUp)
    case Swapping(c) => Move(s.(sh := s.sh.(mem := c)), t, UnlockStore)
    case UnlockStore => Move(s.(store := Free), t, WantSched)
    case GiveUp => Move(s.(store := Free), t, Refused)
    case _ => s
  }

  /** What is left to do once the plan is recorded. */
  function AfterRecording(sh: Shared): CallPc {
    if !sh.plan.enabled then Stopping
    else if sh.sched.None? then Arming(sh.plan.spec)
    else Replanning(sh.plan.spec)
  }

  /** reconcileScheduler and the status broadcast. */
  ghost function ReconcileStep(s: State, t: nat): State
    requires t in s.calls
  {
    match s.calls[t]
    case WantSched => Move(s.(schedMu := HeldBy(t)), t, Reading)
    case Reading => Move(s, t, Recording(s.sh.mem))
    case Recording(c) =>
      var sh := s.sh.(plan := PlanOf(c));
      Move(s.(sh := sh, applied := c), t, AfterRecording(sh))
    case Stopping =>
      Move(s.(sh := s.sh.(sched := None, live := if s.sh.sched.Some? then s.sh.live - {s.sh.sched.value} else s.sh.live)),
           t, UnlockSched)
    case Arming(spec) =>
      var id := |s.sh.specs|;
      Move(s.(sh := s.sh.(sched := Some(id), specs := s.sh.specs + [spec], live := s.sh.live + {id})),
           t, UnlockSched)
    case Replanning(spec) =>
      if s.sh.sched.Some? && s.sh.sched.value < |s.sh.specs|
      then Move(s.(sh := s.sh.(specs := s.sh.specs[s.sh.sched.value := spec])), t, UnlockSched)
      else s
    case UnlockSched => Move(s.(schedMu := Free), t, WantStatus)
    case WantStatus => Move(s, t, Returned)
    case _ => s
  }

  predicate InSave(pc: CallPc) {
    pc.Validating? || pc.WantStore? || pc.Saving? || pc.Swapping? || pc.UnlockStore? || pc.GiveUp?
  }

  ghost function Apply(s: State, e: Event): State
    requires Enabled(s, e)
  {
    match e
    case Call(t, c) => Move(s, t, Validating(c))
    case Act(t, ok) => if InSave(s.calls[t]) then SaveStep(s, t, ok) else ReconcileStep(s, t)
    case OtherLocksStore => s.(store := HeldElsewhere)
    case OtherUnlocksStore => s.(store := Free)
    case OtherLocksSched => s.(schedMu := HeldElsewhere)
    case OtherUnlocksSched => s.(schedMu := Free)
  }

  ghost predicate IsRun(ss: seq<State>, es: seq<Event>) {
    && |ss| == |es| + 1 && Init(ss[0])
    && forall i :: 0 <= i < |es| ==> Enabled(ss[i], es[i]) && ss[i + 1] == Apply(ss[i], es[i])
  }

  // ----- the invariant ------------------------------------------------------

  predicate HoldsStore(pc: CallPc) {
    pc.Saving? || pc.Swapping? || pc.UnlockStore? || pc.GiveUp?
  }

  predicate HoldsSched(pc: CallPc) {
    pc.Reading? || pc.Recording? || Adjusting(pc) || pc.UnlockSched?
  }

  /** The plan is recorded and the scheduler is about to follow. */
  predicate Adjusting(pc: CallPc) {
    pc.Stopping? || pc.Arming? || pc.Replanning?
  }

  /** Each mutex is held by the one call whose position says so. */
  ghost predicate LocksSound(s: State) {
    && (s.store.HeldBy? ==> s.store.call in s.calls)
    && (s.schedMu.HeldBy? ==> s.schedMu.call in s.calls)
    && forall t :: t in s.calls ==>
      && (HoldsStore(s.calls[t]) <==> s.store == HeldBy(t))
      && (HoldsSched(s.calls[t]) <==> s.schedMu == HeldBy(t))
  }

  /** Some call has written the file and not yet swapped memory. */
  predicate InSwap(s: State) {
    s.store.HeldBy? && s.store.call in s.calls && s.calls[s.store.call].Swapping?
  }

  /** The file and memory differ only between the write and the swap, under storeMu. */
  ghost predicate FileSound(s: State) {
    if InSwap(s) then s.sh.saves != [] && s.calls[s.store.call].c == s.sh.saves[|s.sh.saves| - 1]
    else s.sh.saves != [] ==> s.sh.mem == s.sh.saves[|s.sh.saves| - 1]
  }

  /** The call has swapped its configuration in and is still to read the configuration in force. */
  predicate WillRead(pc: CallPc) {
    pc.UnlockStore? || pc.WantSched? || pc.Reading?
  }

  predicate Covers(s: State, t: nat) {
    t in s.calls && (WillRead(s.calls[t]) || (s.calls[t].Recording? && s.calls[t].c == s.sh.mem))
  }

  /** Some call is about to record a configuration that has been replaced since it was read. */
  predicate Stale(s: State) {
    && s.schedMu.HeldBy? && s.schedMu.call in s.calls
    && s.calls[s.schedMu.call].Recording? && s.calls[s.schedMu.call].c != s.sh.mem
  }

  /** The plan follows the configuration in memory and will go on doing so, or some call is on its way to
      make it so. */
  ghost predicate PlanSound(s: State) {
    && s.sh.plan == PlanOf(s.applied)
    && ((s.applied == s.sh.mem && !Stale(s)) || exists t :: Covers(s, t))
  }

  /** Some call has recorded a plan that the scheduler does not follow yet. */
  predicate InAdjustment(s: State) {
    s.schedMu.HeldBy? && s.schedMu.call in s.calls && Adjusting(s.calls[s.schedMu.call])
  }

  /** The scheduler follows the plan, or the holder of schedMu is about to make it so. */
  ghost predicate SchedSound(s: State) {
    && OnlyLive(s.sh)
    && if InAdjustment(s) then s.calls[s.schedMu.call] == AfterRecording(s.sh) else SchedulerMatches(s.sh)
  }

  ghost predicate Sound(s: State) {
    LocksSound(s) && FileSound(s) && PlanSound(s) && SchedSound(s)
  }

  lemma LocksAfterSaveStep(s: State, t: nat, ok: bool)
    requires LocksSound(s) && Enabled(s, Act(t, ok)) && InSave(s.calls[t])
    ensures LocksSound(SaveStep(s, t, ok))
  {
    hide Acceptable;
  }

  lemma LocksAfterReconcileStep(s: State, t: nat)
    requires LocksSound(s) && Enabled(s, Act(t, true)) && !InSave(s.calls[t])
    ensures LocksSound(ReconcileStep(s, t))
  {
    hide PlanOf;
  }

  lemma LocksKept(s: State, e: Event)
    requires LocksSound(s) && Enabled(s, e)
    ensures LocksSound(Apply(s, e))
  {
    hide SaveStep, ReconcileStep;
    if e.Act? {
      if InSave(s.calls[e.t]) {
        LocksAfterSaveStep(s, e.t, e.ok);
      } else {
        LocksAfterReconcileStep(s, e.t);
      }
    }
  }

  lemma FileKept(s: State, e: Event)
    requires LocksSound(s) && FileSound(s) && Enabled(s, e)
    ensures FileSound(Apply(s, e))
  {
    hide Acceptable, PlanOf;
  }

  lemma PlanAfterSaveStep(s: State, t: nat, ok: bool)
    requires LocksSound(s) && PlanSound(s) && Enabled(s, Act(t, ok)) && InSave(s.calls[t])
    ensures PlanSound(SaveStep(s, t, ok))
  {
    hide Acceptable, PlanOf;
    var n := SaveStep(s, t, ok);
    if s.calls[t].Swapping? {
      assert Covers(n, t);
    } else if c :| Covers(s, c) {
      assert Covers(n, c);
    }
  }

  lemma PlanAfterReconcileStep(s: State, t: nat)
    requires LocksSound(s) && PlanSound(s) && Enabled(s, Act(t, true)) && !InSave(s.calls[t])
    ensures PlanSound(ReconcileStep(s, t))
  {
    hide PlanOf;
    var n := ReconcileStep(s, t);
    if c :| Covers(s, c) {
      assert Covers(n, c) || (n.applied == n.sh.mem && !Stale(n));
    }
  }

  lemma PlanKept(s: State, e: Event)
    requires LocksSound(s) && PlanSound(s) && Enabled(s, e)
    ensures PlanSound(Apply(s, e))
  {
    hide SaveStep, ReconcileStep, PlanOf;
    if e.Act? {
      if InSave(s.calls[e.t]) {
        PlanAfterSaveStep(s, e.t, e.ok);
      } else {
        PlanAfterReconcileStep(s, e.t);
      }
    } else if c :| Covers(s, c) {
      assert Covers(Apply(s, e), c);
    }
  }

  lemma SchedKept(s: State, e: Event)
    requires LocksSound(s) && SchedSound(s) && Enabled(s, e)
    ensures SchedSound(Apply(s, e))
  {
    hide Acceptable, PlanOf;
  }

  lemma SoundKept(s: State, e: Event)
    requires Sound(s) && Enabled(s, e)
    ensures Sound(Apply(s, e))
  {
    hide LocksSound, FileSound, PlanSound, SchedSound, Enabled, Apply;
    LocksKept(s, e);
    FileKept(s, e);
    PlanKept(s, e);
    SchedKept(s, e);
  }

  lemma SoundStart(s: State)
    requires Init(s)
    ensures Sound(s)
  {
    hide PlanOf;
  }

  lemma {:induction false} SoundOverRuns(ss: seq<State>, es: seq<Event>, i: nat)
    requires IsRun(ss, es) && i < |ss|
    ensures Sound(ss[i])
  {
    hide Enabled, Apply, Sound, Init;
    if i == 0 {
      SoundStart(ss[0]);
    } else {
      SoundOverRuns(ss, es, i - 1);
      SoundKept(ss[i - 1], es[i - 1]);
    }
  }

  // ----- convergence --------------------------------------------------------

  /** Whenever no call holds storeMu after the first save, file and memory hold the same configuration. */
  lemma FileAgrees(ss: seq<State>, es: seq<Event>, i: nat)
    requires IsRun(ss, es) && i < |ss|
    requires !ss[i].store.HeldBy? && ss[i].sh.saves != []
    ensures ss[i].sh.mem == ss[i].sh.saves[|ss[i].sh.saves| - 1]
  {
    hide IsRun;
    SoundOverRuns(ss, es, i);
  }

  /** Once every call has returned, the plan is that of the configuration saved last, a scheduler exists
      exactly when that plan is enabled, it runs that plan, and no other scheduler is left running. */
  lemma Converges(ss: seq<State>, es: seq<Event>, i: nat)
    requires IsRun(ss, es) && i < |ss|
    requires forall t :: t in ss[i].calls ==> Ends(ss[i].calls[t])
    requires ss[i].sh.saves != []
    ensures var sh := ss[i].sh; var last := sh.saves[|sh.saves| - 1];
      && sh.mem == last && PlanIsOf(sh.plan, last)
      && (sh.sched.Some? <==> last.enabled && HasSchedule(last) && CronParser.Meaning(last.schedule).Ok?)
      && (sh.sched.Some? ==> sh.sched.value < |sh.specs|
                             && CronParser.Meaning(last.schedule) == CronParser.Ok(sh.specs[sh.sched.value]))
      && sh.live == (if sh.sched.Some? then {sh.sched.value} else {})
  {
    hide IsRun, PlanOf, Sound, SchedulerMatches, OnlyLive, CronParser.Meaning;
    SoundOverRuns(ss, es, i);
    AtRest(ss[i]);
    PlanOfConfig(ss[i].sh.mem);
    MatchesPlan(ss[i].sh);
  }

  lemma AtRest(s: State)
    requires Sound(s) && s.sh.saves != [] && forall t :: t in s.calls ==> Ends(s.calls[t])
    ensures s.sh.mem == s.sh.saves[|s.sh.saves| - 1] && s.sh.plan == PlanOf(s.sh.mem) && SchedulerMatches(s.sh)
  {
    hide PlanOf, SchedulerMatches, OnlyLive;
  }

  lemma MatchesPlan(sh: Shared)
    requires SchedulerMatches(sh)
    ensures sh.sched.Some? <==> sh.plan.enabled
    ensures sh.sched.Some? ==> sh.sched.value < |sh.specs| && sh.specs[sh.sched.value] == sh.plan.spec
    ensures sh.live == if sh.sched.Some? then {sh.sched.value} else {}
  {
  }

  /** There is never more than one scheduler running, whoever is in the middle of whatever. */
  lemma OneScheduler(ss: seq<State>, es: seq<Event>, i: nat)
    requires IsRun(ss, es) && i < |ss|
    ensures |ss[i].sh.live| <= 1
  {
    hide IsRun;
    SoundOverRuns(ss, es, i);
  }

  // ----- a refused configuration --------------------------------------------

  /** Positions from which a call can still be refused. */
  predicate Refusable(pc: CallPc) {
    pc.Validating? || pc.WantStore? || pc.Saving? || pc.GiveUp? || pc.Refused?
  }

  predicate ByCall(e: Event, t: nat) {
    (e.Call? || e.Act?) && e.t == t
  }

  lemma RefusableStep(s: State, e: Event, t: nat)
    requires Enabled(s, e)
    requires t in Apply(s, e).calls && Refusable(Apply(s, e).calls[t])
    ensures t in s.calls ==> Refusable(s.calls[t])
    ensures t !in s.calls ==> ByCall(e, t)
    ensures ByCall(e, t) ==> Apply(s, e).sh == s.sh && Apply(s, e).applied == s.applied
  {
    hide Acceptable, PlanOf;
  }

  /** A call that returned an error changed nothing that is shared, at any of its steps. */
  lemma {:induction false} RefusedChangesNothing(ss: seq<State>, es: seq<Event>, i: nat, t: nat, k: nat)
    requires IsRun(ss, es) && k < i < |ss|
    requires t in ss[i].calls && Refusable(ss[i].calls[t]) && ByCall(es[k], t)
    ensures ss[k + 1].sh == ss[k].sh && ss[k + 1].applied == ss[k].applied
  {
    hide Enabled, Apply, Init, Refusable;
    RefusableStep(ss[i - 1], es[i - 1], t);
    if k < i - 1 {
      CalledOnce(ss, es, k, i - 1, t);
      RefusedChangesNothing(ss, es, i - 1, t, k);
    }
  }

  lemma CallStays(s: State, e: Event, t: nat)
    requires Enabled(s, e) && (t in s.calls || ByCall(e, t))
    ensures t in Apply(s, e).calls
  {
    hide Acceptable, PlanOf;
  }

  lemma {:induction false} CalledOnce(ss: seq<State>, es: seq<Event>, k: nat, i: nat, t: nat)
    requires IsRun(ss, es) && k < i < |ss| && ByCall(es[k], t)
    ensures t in ss[i].calls
    decreases i
  {
    hide Enabled, Apply, Init;
    if k < i - 1 {
      CalledOnce(ss, es, k, i - 1, t);
    }
    CallStays(ss[i - 1], es[i - 1], t);
  }

  // ----- every call ends ----------------------------------------------------

  function StepsLeft(pc: CallPc): nat {
    match pc
    case Validating(_) => 11
    case WantStore(_) => 10
    case Saving(_) => 9
    case Swapping(_) => 8
    case UnlockStore => 7
    case WantSched => 6
    case Reading => 5
    case Recording(_) => 4
    case Stopping => 3
    case Arming(_) => 3
    case Replanning(_) => 3
    case UnlockSched => 2
    case WantStatus => 1
    case GiveUp => 1
    case Returned => 0
    case Refused => 0
  }

  lemma ReplansWhatItHolds(s: State, t: nat)
    requires LocksSound(s) && SchedSound(s) && t in s.calls && s.calls[t].Replanning?
    ensures s.sh.sched.Some? && s.sh.sched.value < |s.sh.specs|
  {
  }

  /** Each step of a call brings its end closer, and no other event moves it: a call takes at most eleven. */
  lemma CallProgresses(ss: seq<State>, es: seq<Event>, i: nat, t: nat)
    requires IsRun(ss, es) && i < |es| && t in ss[i].calls
    ensures t in ss[i + 1].calls
    ensures if es[i].Act? && es[i].t == t then StepsLeft(ss[i + 1].calls[t]) < StepsLeft(ss[i].calls[t]) <= 11
            else ss[i + 1].calls[t] == ss[i].calls[t]
  {
    hide PlanOf, Acceptable, LocksSound, SchedSound, FileSound, PlanSound;
    SoundOverRuns(ss, es, i);
    if ss[i].calls[t].Replanning? {
      ReplansWhatItHolds(ss[i], t);
    }
  }

  /** A call acts, or somebody else hands back a mutex. */
  ghost predicate Moves(s: State, e: Event)
    requires Enabled(s, e)
  {
    || e.Act?
    || (e.OtherUnlocksStore? && s.store.HeldElsewhere? && Apply(s, e).store.Free?)
    || (e.OtherUnlocksSched? && s.schedMu.HeldElsewhere? && Apply(s, e).schedMu.Free?)
  }

  /** The two mutexes cannot lock the calls out: while some call has not ended, some call can act or somebody else
      who holds a mutex can hand it back.  (Stopping the old scheduler is one step here; what can hold that up is
      in WaitCycle.) */
  lemma NeverStuck(ss: seq<State>, es: seq<Event>, i: nat, t: nat)
    requires IsRun(ss, es) && i < |ss| && t in ss[i].calls && !Ends(ss[i].calls[t])
    ensures exists e :: Enabled(ss[i], e) && Moves(ss[i], e)
  {
    hide IsRun, FileSound, PlanSound, SchedSound;
    SoundOverRuns(ss, es, i);
    var s := ss[i];
    var wantsStore := s.calls[t].WantStore?;
    var wantsSched := s.calls[t].WantSched? || s.calls[t].WantStatus?;
    var e :=
      if wantsStore && s.store.HeldElsewhere? then OtherUnlocksStore
      else if wantsStore && s.store.HeldBy? then Act(s.store.call, true)
      else if wantsSched && s.schedMu.HeldElsewhere? then OtherUnlocksSched
      else if wantsSched && s.schedMu.HeldBy? then Act(s.schedMu.call, true)
      else Act(t, true);
    assert Enabled(s, e) && Moves(s, e);
  }

  // ----- how a call ends ----------------------------------------------------

  /** The write of the call's configuration to the file fails. */
  predicate Fails(s: State, e: Event, t: nat) {
    e == Act(t, false) && t in s.calls && s.calls[t].Saving?
  }

  /** What a call that was given c has achieved at each of its positions. */
  ghost predicate Tracks(s: State, t: nat, c: Config, failed: bool) {
    t in s.calls
    && match s.calls[t]
       case Validating(d) => d == c
       case WantStore(d) => d == c && Acceptable(c)
       case Saving(d) => d == c && Acceptable(c)
       case Swapping(d) => d == c && Acceptable(c) && c in s.sh.saves
       case GiveUp => failed
       case Refused => failed || !Acceptable(c)
       case _ => Acceptable(c) && c in s.sh.saves
  }

  lemma TracksSave(s: State, u: nat, ok: bool, t: nat, c: Config, failed: bool)
    requires Tracks(s, t, c, failed) && u in s.calls && InSave(s.calls[u])
    ensures Tracks(SaveStep(s, u, ok), t, c, failed || Fails(s, Act(u, ok), t))
  {
    hide Acceptable;
  }

  lemma TracksReconcile(s: State, u: nat, t: nat, c: Config, failed: bool)
    requires Tracks(s, t, c, failed) && u in s.calls && !InSave(s.calls[u])
    ensures Tracks(ReconcileStep(s, u), t, c, failed)
  {
    hide Acceptable, PlanOf;
  }

  lemma TracksStep(s: State, e: Event, t: nat, c: Config, failed: bool)
    requires Tracks(s, t, c, failed) && Enabled(s, e)
    ensures Tracks(Apply(s, e), t, c, failed || Fails(s, e, t))
  {
    hide Acceptable, SaveStep, ReconcileStep;
    if e.Act? {
      if InSave(s.calls[e.t]) {
        TracksSave(s, e.t, e.ok, t, c, failed);
      } else {
        TracksReconcile(s, e.t, t, c, failed);
      }
    }
  }

  ghost predicate Failed(ss: seq<State>, es: seq<Event>, t: nat, j: nat)
    requires j <= |es| < |ss|
  {
    exists k :: 0 <= k < j && Fails(ss[k], es[k], t)
  }

  lemma {:induction false} TracksOverRuns(ss: seq<State>, es: seq<Event>, i: nat, j: nat, t: nat, c: Config)
    requires IsRun(ss, es) && i < j < |ss| && es[i] == Call(t, c)
    ensures Tracks(ss[j], t, c, Failed(ss, es, t, j))
  {
    hide Enabled, Apply, Init, Tracks, Fails;
    if i == j - 1 {
      TracksCall(ss[i], t, c, Failed(ss, es, t, j));
    } else {
      TracksOverRuns(ss, es, i, j - 1, t, c);
      TracksStep(ss[j - 1], es[j - 1], t, c, Failed(ss, es, t, j - 1));
    }
  }

  lemma TracksCall(s: State, t: nat, c: Config, failed: bool)
    requires Enabled(s, Call(t, c))
    ensures Tracks(Apply(s, Call(t, c)), t, c, failed)
  {
  }

  /** A call that returns normally has had its configuration saved, and it holds up; one that returns an error had a
      configuration that does not, or its write to the file failed. */
  lemma CallOutcome(ss: seq<State>, es: seq<Event>, i: nat, j: nat, t: nat, c: Config)
    requires IsRun(ss, es) && i < j < |ss| && es[i] == Call(t, c)
    ensures var holdsUp := c.runnable && (c.schedule != "" ==> CronParser.Meaning(c.schedule).Ok?);
      && t in ss[j].calls
      && (ss[j].calls[t].Returned? ==> holdsUp && c in ss[j].sh.saves)
      && (ss[j].calls[t].Refused? && holdsUp ==> exists k :: 0 <= k < j && Fails(ss[k], es[k], t))
  {
    hide IsRun, Fails;
    TracksOverRuns(ss, es, i, j, t, c);
  }

  ghost predicate SavesSound(s: State) {
    && (forall c | c in s.sh.saves :: Acceptable(c))
    && (forall t :: t in s.calls && (s.calls[t].WantStore? || s.calls[t].Saving?) ==> Acceptable(s.calls[t].c))
  }

  lemma SavesAfterSaveStep(s: State, t: nat, ok: bool)
    requires SavesSound(s) && Enabled(s, Act(t, ok)) && InSave(s.calls[t])
    ensures SavesSound(SaveStep(s, t, ok))
  {
    hide Acceptable;
  }

  lemma SavesAfterReconcileStep(s: State, t: nat)
    requires SavesSound(s) && Enabled(s, Act(t, true)) && !InSave(s.calls[t])
    ensures SavesSound(ReconcileStep(s, t))
  {
    hide Acceptable, PlanOf;
  }

  lemma SavesKept(s: State, e: Event)
    requires SavesSound(s) && Enabled(s, e)
    ensures SavesSound(Apply(s, e))
  {
    hide Acceptable, SaveStep, ReconcileStep;
    if e.Act? {
      if InSave(s.calls[e.t]) {
        SavesAfterSaveStep(s, e.t, e.ok);
      } else {
        SavesAfterReconcileStep(s, e.t);
      }
    }
  }

  lemma {:induction false} SavesOverRuns(ss: seq<State>, es: seq<Event>, i: nat)
    requires IsRun(ss, es) && i < |ss|
    ensures SavesSound(ss[i])
  {
    hide Enabled, Apply, Acceptable;
    if i > 0 {
      SavesOverRuns(ss, es, i - 1);
      SavesKept(ss[i - 1], es[i - 1]);
    }
  }

  /** A configuration that does not hold up never reaches the file. */
  lemma OnlyAcceptableSaved(ss: seq<State>, es: seq<Event>, i: nat, k: nat)
    requires IsRun(ss, es) && i < |ss| && k < |ss[i].sh.saves|
    ensures var c := ss[i].sh.saves[k]; c.runnable && (c.schedule != "" ==> CronParser.Meaning(c.schedule).Ok?)
  {
    hide IsRun;
    SavesOverRuns(ss, es, i);
    assert Acceptable(ss[i].sh.saves[k]);
  }
}
