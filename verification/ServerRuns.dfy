// The life of a run on the server: the busy slot, cancellation by id, the
// once-only finish with its panic guard, and the order of the deferred calls.

module RunSlot {
  import opened Options

  /** What jobMu guards.  A run's context is known by the number of the run. */
  datatype Slot = Slot(busy: bool, current: string, cancel: Option<nat>)

  const FREE := Slot(false, "", None)

  function StartSection(s: Slot, id: string, run: nat): Slot {
    if s.busy then s else Slot(true, id, Some(run))
  }

  function ReleaseSection(s: Slot): Slot {
    FREE
  }

  predicate Answers(s: Slot, id: string) {
    s.busy && s.current == id
  }

  /** The slot after CancelRun, and the context it cancels, if any. */
  function CancelSection(s: Slot, id: string): (Slot, Option<nat>) {
    if Answers(s, id) then (s.(cancel := None), s.cancel) else (s, None)
  }

  class Server {
    var busy: bool
    var current: string
    var currentCancel: Option<nat>
    var cancelled: set<nat>

    ghost function View(): Slot
      reads this
    {
      Slot(busy, current, currentCancel)
    }

    constructor ()
      ensures View() == FREE && cancelled == {}
    {
      busy, current, currentCancel, cancelled := false, "", None, {};
    }

    /** startRun's section; the caller gets ErrBusy when it is refused. */
    method StartRunLocked(id: string, run: nat) returns (accepted: bool)
      modifies this
      ensures accepted == !old(busy) && cancelled == old(cancelled)
      ensures View() == StartSection(old(View()), id, run)
    {
      if busy {
        return false;
      }
      busy := true;
      current := id;
      currentCancel := Some(run);
      return true;
    }

    method ReleaseRun()
      modifies this
      ensures View() == ReleaseSection(old(View())) && cancelled == old(cancelled)
    {
      busy := false;
      current := "";
      currentCancel := None;
    }

    method CancelCurrent()
      modifies this
      ensures View() == old(View()).(cancel := None)
      ensures cancelled == old(cancelled) + match old(currentCancel) case None => {} case Some(c) => {c}
    {
      if currentCancel.Some? {
        cancelled := cancelled + {currentCancel.value};
        currentCancel := None;
      }
    }

    method CancelRun(id: string) returns (found: bool)
      modifies this
      ensures found == Answers(old(View()), id)
      ensures found <==> old(busy) && old(current) == id
      ensures busy == old(busy) && current == old(current)
      ensures currentCancel == if found then None else old(currentCancel)
      ensures var (slot, hit) := CancelSection(old(View()), id);
        && View() == slot
        && cancelled == old(cancelled) + match hit case None => {} case Some(c) => {c}
    {
      if busy && current == id {
        CancelCurrent();
        return true;
      }
      return false;
    }
  }
}

module RunId {
  /** The run counter is an unsigned 64-bit number that wraps. */
  const COUNTER_SPAN := 0x1_0000_0000_0000_0000
  const LABELS := 0x1_0000

  const DIGITS := "0123456789abcdef"

  function Hex4(n: nat): (s: string)
    requires n < LABELS
    ensures |s| == 4
  {
    [DIGITS[n / 16 / 16 / 16], DIGITS[n / 16 / 16 % 16], DIGITS[n / 16 % 16], DIGITS[n % 16]]
  }

  /** The id given to the run that takes the counter to `n` at the second written `stamp`. */
  function NewRunId(stamp: string, n: nat): string {
    "run-" + stamp + "-" + Hex4(n % LABELS)
  }

  lemma DigitsDiffer(i: nat, j: nat)
    requires i < 16 && j < 16 && DIGITS[i] == DIGITS[j]
    ensures i == j
  {
  }

  lemma HexInjective(a: nat, b: nat)
    requires a < LABELS && b < LABELS && Hex4(a) == Hex4(b)
    ensures a == b
  {
    hide DIGITS;
    DigitsDiffer(a / 16 / 16 / 16, b / 16 / 16 / 16);
    DigitsDiffer(a / 16 / 16 % 16, b / 16 / 16 % 16);
    DigitsDiffer(a / 16 % 16, b / 16 % 16);
    DigitsDiffer(a % 16, b % 16);
  }

  /** Two ids are the same exactly when their seconds are and their counters agree in the low 16 bits. */
  lemma IdsClash(stamp: string, n: nat, stamp': string, n': nat)
    ensures NewRunId(stamp, n) == NewRunId(stamp', n') <==> stamp == stamp' && n % 65536 == n' % 65536
  {
    var a, b := NewRunId(stamp, n), NewRunId(stamp', n');
    if a == b {
      assert a[|a| - 4..] == Hex4(n % LABELS) && b[|b| - 4..] == Hex4(n' % LABELS);
      HexInjective(n % LABELS, n' % LABELS);
      assert a[4..|a| - 5] == stamp && b[4..|b| - 5] == stamp';
    }
  }

  /** The `k`th id drawn after the counter stood at `base`. */
  function Drawn(base: nat, k: nat): nat {
    (base + k) % COUNTER_SPAN
  }

  lemma LowBitsSurviveTheWrap(base: nat, k: nat)
    ensures Drawn(base, k) % LABELS == (base + k) % LABELS
  {
    var x := base + k;
    var q := x / COUNTER_SPAN;
    assert x == Drawn(base, k) + LABELS * (q * (COUNTER_SPAN / LABELS));
    SameLowBits(Drawn(base, k), q * (COUNTER_SPAN / LABELS));
  }

  lemma SameLowBits(x: nat, m: nat)
    ensures (x + LABELS * m) % LABELS == x % LABELS
  {
    var y := x + LABELS * m;
    assert y / LABELS * LABELS + y % LABELS == x / LABELS * LABELS + x % LABELS + LABELS * m;
    var d := y / LABELS - x / LABELS - m;
    assert LABELS * d == x % LABELS - y % LABELS;
    assert -1 < d < 1;
  }

  lemma CloseNumbersDiffer(x: nat, y: nat)
    requires x < y < x + LABELS
    ensures x % LABELS != y % LABELS
  {
  }

  lemma NextDrawn(base: nat, k: nat)
    ensures (Drawn(base, k) + 1) % COUNTER_SPAN == Drawn(base, k + 1)
  {
  }

  /** Ids are unique as long as fewer than 65536 of them are drawn in any one second, even where the
      counter wraps. */
  lemma IdsAreUnique(base: nat, stamp: string, i: nat, stamp': string, j: nat)
    requires i < j && (stamp == stamp' ==> j - i < 65536)
    ensures NewRunId(stamp, Drawn(base, i)) != NewRunId(stamp', Drawn(base, j))
  {
    IdsClash(stamp, Drawn(base, i), stamp', Drawn(base, j));
    if stamp == stamp' {
      LowBitsSurviveTheWrap(base, i);
      LowBitsSurviveTheWrap(base, j);
      CloseNumbersDiffer(base + i, base + j);
    }
  }

  /** The bound is tight: 65536 draws apart in one second the label repeats. */
  lemma LabelsRepeat(base: nat, stamp: string, i: nat)
    ensures NewRunId(stamp, Drawn(base, i)) == NewRunId(stamp, Drawn(base, i + 65536))
  {
    LowBitsSurviveTheWrap(base, i);
    LowBitsSurviveTheWrap(base, i + LABELS);
    SameLowBits(base + i, 1);
    IdsClash(stamp, Drawn(base, i), stamp, Drawn(base, i + LABELS));
  }
}

module ServerRuns {
  import opened Options
  import opened Ranges
  import opened RunId
  import opened RunSlot

  /** Where the goroutine of one run is; `recovered` tells whether the panic guard called finish. */
  datatype RunPc =
    | Executing                    // in execute, before it calls finish
    | Persisting(recovered: bool)  // has swapped `finished`, about to append the record
    | Announcing(recovered: bool)  // has appended, broadcasting the outcome
    | Unwinding                    // in the panic guard, before it calls finish
    | Releasing                    // about to release the busy slot
    | Cancelling                   // about to cancel its own context
    | Closing                      // about to close done
    | Ended

  /** `second` is the time of the start as its id shows it; `stops` holds the ids of the CancelRun calls
      that cancelled this run's context. */
  datatype Run = Run(second: string, id: string, pc: RunPc, finished: bool, stops: set<string>)

  /** `history` lists the runs whose append to the history was attempted, in that order. */
  datatype State = State(slot: Slot, runs: seq<Run>, history: seq<nat>, counter: nat)

  datatype Event =
    | StartRun(second: string)
    | CancelRun(id: string)
    | Step(run: nat)
    | Panic(run: nat)

  /** The run counter belongs to the process and may stand anywhere. */
  predicate Init(s: State) {
    s.slot == FREE && s.runs == [] && s.history == [] && s.counter < COUNTER_SPAN
  }

  predicate CanPanic(pc: RunPc) {
    pc.Executing? || (pc.Announcing? && !pc.recovered)
  }

  predicate Enabled(s: State, e: Event) {
    match e
    case StartRun(_) => true
    case CancelRun(_) => true
    case Step(r) => r < |s.runs| && !s.runs[r].pc.Ended?
    case Panic(r) => r < |s.runs| && CanPanic(s.runs[r].pc)
  }

  function StartStep(s: State, second: string): State {
    if s.slot.busy then s
    else
      var n := (s.counter + 1) % COUNTER_SPAN;
      var id := NewRunId(second, n);
      State(StartSection(s.slot, id, |s.runs|), s.runs + [Run(second, id, Executing, false, {})], s.history, n)
  }

  function CancelStep(s: State, id: string): State {
    var (slot, hit) := CancelSection(s.slot, id);
    match hit
    case None => s.(slot := slot)
    case Some(r) =>
      if r < |s.runs|
      then s.(slot := slot, runs := s.runs[r := s.runs[r].(stops := s.runs[r].stops + {id})])
      else s.(slot := slot)
  }

  /** The closure that calls the server's finish at most once. */
  function CallFinish(run: Run, recovered: bool): Run {
    if run.finished then run.(pc := Releasing)
    else run.(finished := true, pc := Persisting(recovered))
  }

  function RunStep(run: Run): Run {
    match run.pc
    case Executing => CallFinish(run, false)
    case Persisting(recovered) => run.(pc := Announcing(recovered))
    case Announcing(_) => run.(pc := Releasing)
    case Unwinding => CallFinish(run, true)
    case Releasing => run.(pc := Cancelling)
    case Cancelling => run.(pc := Closing)
    case Closing => run.(pc := Ended)
    case Ended => run
  }

  function Apply(s: State, e: Event): State
    requires Enabled(s, e)
  {
    match e
    case StartRun(second) => StartStep(s, second)
    case CancelRun(id) => CancelStep(s, id)
    case Step(r) =>
      State(if s.runs[r].pc.Releasing? then ReleaseSection(s.slot) else s.slot,
            s.runs[r := RunStep(s.runs[r])],
            if s.runs[r].pc.Persisting? then s.history + [r] else s.history,
            s.counter)
    case Panic(r) => s.(runs := s.runs[r := s.runs[r].(pc := Unwinding)])
  }

  ghost predicate IsRun(ss: seq<State>, es: seq<Event>) {
    && |ss| == |es| + 1 && Init(ss[0])
    && forall i :: 0 <= i < |es| ==> Enabled(ss[i], es[i]) && ss[i + 1] == Apply(ss[i], es[i])
  }

  // ----- the invariant ------------------------------------------------------

  /** The run has handed its slot back. */
  predicate Over(pc: RunPc) {
    pc.Cancelling? || pc.Closing? || pc.Ended?
  }

  /** The run's record has been offered to the history. */
  predicate Recorded(run: Run) {
    run.pc.Announcing? || run.pc.Releasing? || Over(run.pc) || (run.pc.Unwinding? && run.finished)
  }

  predicate FlagSound(run: Run) {
    && (run.pc.Executing? ==> !run.finished)
    && (run.pc.Persisting? || Recorded(run) ==> run.finished)
  }

  /** Every run but the latest is over, and the slot is taken by the latest until it is over too. */
  ghost predicate SlotSound(s: State) {
    && (forall i :: 0 <= i < |s.runs| - 1 ==> Over(s.runs[i].pc))
    && (s.slot.busy ==> s.runs != [] && !Over(s.runs[|s.runs| - 1].pc) && s.slot.current == s.runs[|s.runs| - 1].id)
    && (!s.slot.busy ==> s.slot == FREE && (s.runs != [] ==> Over(s.runs[|s.runs| - 1].pc)))
    && (s.slot.cancel.Some? ==> s.slot.busy && s.slot.cancel.value == |s.runs| - 1)
  }

  ghost predicate FlagsSound(s: State) {
    forall i :: 0 <= i < |s.runs| ==> FlagSound(s.runs[i])
  }

  /** How many runs have been recorded: all of them, or all but the latest. */
  function RecordedCount(s: State): nat {
    if s.runs == [] || Recorded(s.runs[|s.runs| - 1]) then |s.runs| else |s.runs| - 1
  }

  /** The history holds every recorded run once, in the order the runs were started. */
  ghost predicate HistorySound(s: State) {
    s.history == Range(RecordedCount(s))
  }

  /** A run is only ever cancelled by its own id, and its cancel function is dropped only by being called
      or when the slot is handed back. */
  ghost predicate StopsSound(s: State) {
    && (forall i :: 0 <= i < |s.runs| ==> s.runs[i].stops <= {s.runs[i].id})
    && (s.slot.busy && s.runs != [] && s.slot.cancel == None ==>
          s.runs[|s.runs| - 1].id in s.runs[|s.runs| - 1].stops)
  }

  /** Ids are drawn in the order of the starts. */
  ghost predicate IdsSound(base: nat, s: State) {
    && s.counter == Drawn(base, |s.runs|)
    && forall i :: 0 <= i < |s.runs| ==> s.runs[i].id == NewRunId(s.runs[i].second, Drawn(base, i + 1))
  }

  ghost predicate Sound(s: State) {
    SlotSound(s) && FlagsSound(s) && HistorySound(s) && StopsSound(s)
  }

  lemma SlotKept(s: State, e: Event)
    requires SlotSound(s) && FlagsSound(s) && Enabled(s, e)
    ensures SlotSound(Apply(s, e))
  {
  }

  lemma FlagsKept(s: State, e: Event)
    requires FlagsSound(s) && Enabled(s, e)
    ensures FlagsSound(Apply(s, e))
  {
  }

  lemma StopsKept(s: State, e: Event)
    requires SlotSound(s) && StopsSound(s) && Enabled(s, e)
    ensures StopsSound(Apply(s, e))
  {
  }

  /** A step of a run that is already over, or that records nothing, leaves the count alone. */
  lemma HistoryKept(s: State, e: Event)
    requires SlotSound(s) && FlagsSound(s) && HistorySound(s) && Enabled(s, e)
    ensures HistorySound(Apply(s, e))
  {
    if e.Step? && s.runs[e.run].pc.Persisting? {
      assert e.run == |s.runs| - 1;
      RangeStep(|s.runs| - 1);
    }
  }

  lemma IdsKept(base: nat, s: State, e: Event)
    requires SlotSound(s) && IdsSound(base, s) && Enabled(s, e)
    ensures IdsSound(base, Apply(s, e))
  {
    hide NewRunId, Drawn;
    if e.StartRun? {
      NextDrawn(base, |s.runs|);
    }
  }

  lemma SoundKept(s: State, e: Event)
    requires Sound(s) && Enabled(s, e)
    ensures Sound(Apply(s, e))
  {
    hide SlotSound, FlagsSound, HistorySound, StopsSound, Enabled, Apply;
    SlotKept(s, e);
    FlagsKept(s, e);
    HistoryKept(s, e);
    StopsKept(s, e);
  }

  lemma {:induction false} SoundOverRuns(ss: seq<State>, es: seq<Event>, i: nat)
    requires IsRun(ss, es) && i < |ss|
    ensures Sound(ss[i])
  {
    hide Enabled, Apply;
    if i > 0 {
      SoundOverRuns(ss, es, i - 1);
      SoundKept(ss[i - 1], es[i - 1]);
    }
  }

  // ----- what the server promises -------------------------------------------

  ghost function InFlight(s: State): set<nat> {
    set i: nat | i < |s.runs| && !Over(s.runs[i].pc)
  }

  /** At most one run is in flight, and busy says whether there is one. */
  lemma OneInFlight(ss: seq<State>, es: seq<Event>, i: nat)
    requires IsRun(ss, es) && i < |ss|
    ensures InFlight(ss[i]) == if ss[i].slot.busy then {|ss[i].runs| - 1} else {}
  {
    hide IsRun;
    SoundOverRuns(ss, es, i);
  }

  /** A run that has handed back its slot, and so a run whose done channel is closed, has had exactly one
      append attempted for it, panics or not; and the history's order is the order of the starts. */
  lemma RecordedOnceBeforeRelease(ss: seq<State>, es: seq<Event>, i: nat, r: nat)
    requires IsRun(ss, es) && i < |ss| && r < |ss[i].runs|
    ensures Over(ss[i].runs[r].pc) ==> multiset(ss[i].history)[r] == 1
    ensures multiset(ss[i].history)[r] <= 1
    ensures exists n: nat :: n <= |ss[i].runs| <= n + 1 && ss[i].history == Range(n)
  {
    hide IsRun;
    SoundOverRuns(ss, es, i);
    RangeCounts(RecordedCount(ss[i]));
  }

  /** A start is always answered: a run is accepted exactly when none is in flight, and a refused start changes
      nothing. */
  lemma StartIffIdle(ss: seq<State>, es: seq<Event>, i: nat, second: string)
    requires IsRun(ss, es) && i < |ss|
    ensures Enabled(ss[i], StartRun(second))
    ensures var t := Apply(ss[i], StartRun(second));
      if InFlight(ss[i]) == {} then |t.runs| == |ss[i].runs| + 1 && t.runs[..|ss[i].runs|] == ss[i].runs && t.slot.busy
      else t == ss[i]
  {
    OneInFlight(ss, es, i);
  }

  /** CancelRun reports success exactly when the run with that id is in flight, and then that run's context is
      cancelled, its cancel function dropped, and no other run is touched. */
  lemma CancelHitsItsRun(ss: seq<State>, es: seq<Event>, i: nat, id: string, r: nat)
    requires IsRun(ss, es) && i < |ss| && r < |ss[i].runs|
    ensures Answers(ss[i].slot, id) <==> exists k: nat :: k in InFlight(ss[i]) && ss[i].runs[k].id == id
    ensures Enabled(ss[i], CancelRun(id))
    ensures var t := Apply(ss[i], CancelRun(id)); var hit := r in InFlight(ss[i]) && ss[i].runs[r].id == id;
      && r < |t.runs|
      && (if hit then t.runs[r].stops == {id} && t.slot.cancel.None? else t.runs[r] == ss[i].runs[r])
  {
    OneInFlight(ss, es, i);
    SoundOverRuns(ss, es, i);
    if ss[i].slot.busy {
      assert |ss[i].runs| - 1 in InFlight(ss[i]);
    }
  }

  lemma {:induction false} IdsOverRuns(ss: seq<State>, es: seq<Event>, i: nat)
    requires IsRun(ss, es) && i < |ss|
    ensures IdsSound(ss[0].counter, ss[i])
  {
    hide Enabled, Apply, Sound;
    if i > 0 {
      IdsOverRuns(ss, es, i - 1);
      SoundOverRuns(ss, es, i - 1);
      SlotOfSound(ss[i - 1]);
      IdsKept(ss[0].counter, ss[i - 1], es[i - 1]);
    }
  }

  lemma SlotOfSound(s: State)
    requires Sound(s)
    ensures SlotSound(s)
  {
  }

  /** No cancellation asked for one run ever reaches another, unless 65536 runs started in one second. */
  lemma CancelledOnlyByOwnId(ss: seq<State>, es: seq<Event>, i: nat, r: nat, other: nat)
    requires IsRun(ss, es) && i < |ss|
    requires r < |ss[i].runs| && other < |ss[i].runs| && r != other
    requires ss[i].runs[r].second == ss[i].runs[other].second ==> -65536 < r - other < 65536
    ensures ss[i].runs[other].id !in ss[i].runs[r].stops
  {
    hide IsRun, NewRunId, Drawn;
    SoundOverRuns(ss, es, i);
    IdsOverRuns(ss, es, i);
    var a, b := if r < other then r else other, if r < other then other else r;
    IdsAreUnique(ss[0].counter, ss[i].runs[a].second, a + 1, ss[i].runs[b].second, b + 1);
  }

  // ----- every run ends -----------------------------------------------------

  function StepsLeft(pc: RunPc): nat {
    match pc
    case Executing => 9
    case Persisting(recovered) => if recovered then 5 else 8
    case Announcing(recovered) => if recovered then 4 else 7
    case Unwinding => 6
    case Releasing => 3
    case Cancelling => 2
    case Closing => 1
    case Ended => 0
  }

  predicate ActsFor(e: Event, r: nat) {
    (e.Step? || e.Panic?) && e.run == r
  }

  /** Each of a run's own events, panics included, brings it closer to its end, no other event moves it
      back, and a run that has not ended can always move: the slot is always handed back. */
  lemma RunAlwaysEnds(s: State, e: Event, r: nat)
    requires Sound(s) && Enabled(s, e) && r < |s.runs|
    ensures var t := Apply(s, e);
      && r < |t.runs|
      && (if ActsFor(e, r) then StepsLeft(t.runs[r].pc) < StepsLeft(s.runs[r].pc) else t.runs[r].pc == s.runs[r].pc)
    ensures s.runs[r].pc.Ended? || Enabled(s, Step(r))
  {
  }

  // ----- a panic ------------------------------------------------------------

  function Twice(s: State, r: nat): State
    requires r < |s.runs| && !s.runs[r].pc.Ended? && !RunStep(s.runs[r]).pc.Ended?
  {
    Apply(Apply(s, Step(r)), Step(r))
  }

  /** A run that executes can panic, and its unwinding then records it; one that has been recorded can panic in its
      status broadcast, and its unwinding does not record it again. */
  lemma PanicIsRecordedOnce(ss: seq<State>, es: seq<Event>, i: nat, r: nat)
    requires IsRun(ss, es) && i < |ss| && r < |ss[i].runs| && ss[i].runs[r].pc.Executing?
    ensures Enabled(ss[i], Panic(r))
    ensures var early := Apply(ss[i], Panic(r)); Twice(early, r).history == ss[i].history + [r]
    ensures var announcing := Twice(ss[i], r);
      && announcing.history == ss[i].history + [r] && Enabled(announcing, Panic(r))
      && var late := Apply(Apply(announcing, Panic(r)), Step(r));
         late.history == announcing.history && late.runs[r].pc.Releasing?
  {
    hide IsRun;
    SoundOverRuns(ss, es, i);
    assert FlagSound(ss[i].runs[r]);
  }
}
