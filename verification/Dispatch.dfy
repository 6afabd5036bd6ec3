// The dispatch loop of a batch: a semaphore bounds the peer tests, each test
// records its result under a mutex, and the loop waits for all of them.

module Dispatch {
  import opened Ranges

  /** Where the goroutine of one peer is. */
  datatype TestPc =
    | Testing    // holds a semaphore slot and runs the peer test
    | Recorded   // has appended its result and written the checkpoint line
    | Notified   // has called OnResult
    | Released   // has given the slot back
    | Done

  datatype MainPc = Dispatching | Waiting | Returned

  /** Peers are known by their index.  `results`, `checkpoint` and `notified` list the peers whose result was
      appended, whose checkpoint line was written and for which OnResult was called, in that order; `lost`
      tells whether a checkpoint write failed. */
  datatype State = State(
    main: MainPc, tests: seq<TestPc>, slots: nat, ctxDone: bool,
    results: seq<nat>, checkpoint: seq<nat>, notified: seq<nat>, lost: bool)

  datatype Plan = Plan(peers: nat, concurrency: nat)

  datatype Event =
    | Cancel
    | Spawn
    | Break
    | LoopEnd
    | Return
    | Record(i: nat, written: bool)
    | Notify(i: nat)
    | Release(i: nat)
    | Finish(i: nat)

  const START := State(Dispatching, [], 0, false, [], [], [], false)

  predicate At(s: State, i: nat, pc: TestPc) {
    i < |s.tests| && s.tests[i] == pc
  }

  predicate Enabled(p: Plan, s: State, e: Event) {
    match e
    case Cancel => true
    case Spawn => s.main.Dispatching? && |s.tests| < p.peers && s.slots < p.concurrency
    case Break => s.main.Dispatching? && |s.tests| < p.peers && s.ctxDone
    case LoopEnd => s.main.Dispatching? && |s.tests| >= p.peers
    case Return => s.main.Waiting? && forall i | 0 <= i < |s.tests| :: s.tests[i].Done?
    case Record(i, _) => At(s, i, Testing)
    case Notify(i) => At(s, i, Recorded)
    case Release(i) => At(s, i, Notified) && s.slots > 0
    case Finish(i) => At(s, i, Released)
  }

  function Apply(p: Plan, s: State, e: Event): State
    requires Enabled(p, s, e)
  {
    match e
    case Cancel => s.(ctxDone := true)
    case Spawn => s.(tests := s.tests + [Testing], slots := s.slots + 1)
    case Break => s.(main := Waiting)
    case LoopEnd => s.(main := Waiting)
    case Return => s.(main := Returned)
    case Record(i, written) =>
      s.(tests := s.tests[i := Recorded], results := s.results + [i],
         checkpoint := if written then s.checkpoint + [i] else s.checkpoint, lost := s.lost || !written)
    case Notify(i) => s.(tests := s.tests[i := Notified], notified := s.notified + [i])
    case Release(i) => s.(tests := s.tests[i := Released], slots := s.slots - 1)
    case Finish(i) => s.(tests := s.tests[i := Done])
  }

  ghost predicate IsRun(p: Plan, ss: seq<State>, es: seq<Event>) {
    && |ss| == |es| + 1 && ss[0] == START
    && forall i :: 0 <= i < |es| ==> Enabled(p, ss[i], es[i]) && ss[i + 1] == Apply(p, ss[i], es[i])
  }

  // ----- slots and results --------------------------------------------------

  function Holds(pc: TestPc): nat {
    if pc.Testing? || pc.Recorded? || pc.Notified? then 1 else 0
  }

  function StepsLeft(pc: TestPc): nat {
    match pc case Testing => 4 case Recorded => 3 case Notified => 2 case Released => 1 case Done => 0
  }

  function Total(tests: seq<TestPc>, weight: TestPc -> nat): nat {
    if tests == [] then 0 else Total(tests[..|tests| - 1], weight) + weight(tests[|tests| - 1])
  }

  lemma {:induction false} TotalUpdate(tests: seq<TestPc>, i: nat, pc: TestPc, weight: TestPc -> nat)
    requires i < |tests|
    ensures Total(tests[i := pc], weight) == Total(tests, weight) - weight(tests[i]) + weight(pc)
  {
    var n := |tests| - 1;
    if i < n {
      TotalUpdate(tests[..n], i, pc, weight);
      assert tests[i := pc][..n] == tests[..n][i := pc];
    } else {
      assert tests[i := pc][..n] == tests[..n];
    }
  }

  lemma TotalAppend(tests: seq<TestPc>, pc: TestPc, weight: TestPc -> nat)
    ensures Total(tests + [pc], weight) == Total(tests, weight) + weight(pc)
  {
    assert (tests + [pc])[..|tests|] == tests;
  }

  /** The peers whose test has come past a point. */
  predicate HasResult(s: State, i: nat) {
    i < |s.tests| && !s.tests[i].Testing?
  }

  predicate HasNotice(s: State, i: nat) {
    i < |s.tests| && !s.tests[i].Testing? && !s.tests[i].Recorded?
  }

  /** The semaphore counts the slots held and never exceeds the concurrency. */
  ghost predicate SlotsSound(p: Plan, s: State) {
    |s.tests| <= p.peers && s.slots == Total(s.tests, Holds) <= p.concurrency
  }

  /** Every finished test has exactly one result and one notice, and nothing else has; checkpoint lines
      follow the results. */
  ghost predicate ResultsSound(s: State) {
    && (forall i: nat :: multiset(s.results)[i] == if HasResult(s, i) then 1 else 0)
    && (forall i: nat :: multiset(s.notified)[i] == if HasNotice(s, i) then 1 else 0)
    && (!s.lost ==> s.checkpoint == s.results)
  }

  /** The loop leaves early only when cancelled, and returns only after every test. */
  ghost predicate MainSound(p: Plan, s: State) {
    && (!s.main.Dispatching? && |s.tests| < p.peers ==> s.ctxDone)
    && (s.main.Returned? ==> forall i | 0 <= i < |s.tests| :: s.tests[i].Done?)
  }

  ghost predicate Sound(p: Plan, s: State) {
    SlotsSound(p, s) && ResultsSound(s) && MainSound(p, s)
  }

  lemma SlotsKept(p: Plan, s: State, e: Event)
    requires SlotsSound(p, s) && Enabled(p, s, e)
    ensures SlotsSound(p, Apply(p, s, e))
  {
    hide Total;
    match e
    case Spawn => TotalAppend(s.tests, Testing, Holds);
    case Record(i, _) => TotalUpdate(s.tests, i, Recorded, Holds);
    case Notify(i) => TotalUpdate(s.tests, i, Notified, Holds);
    case Release(i) => TotalUpdate(s.tests, i, Released, Holds);
    case Finish(i) => TotalUpdate(s.tests, i, Done, Holds);
    case _ =>
  }

  lemma Counted(s: seq<nat>, i: nat, k: nat)
    ensures multiset(s + [i])[k] == multiset(s)[k] + if k == i then 1 else 0
  {
    assert multiset(s + [i]) == multiset(s) + multiset{i};
  }

  lemma ResultOfOne(p: Plan, s: State, e: Event, k: nat)
    requires Enabled(p, s, e) && multiset(s.results)[k] == if HasResult(s, k) then 1 else 0
    ensures var t := Apply(p, s, e); multiset(t.results)[k] == if HasResult(t, k) then 1 else 0
  {
    if e.Record? {
      Counted(s.results, e.i, k);
    }
  }

  lemma NoticeOfOne(p: Plan, s: State, e: Event, k: nat)
    requires Enabled(p, s, e) && multiset(s.notified)[k] == if HasNotice(s, k) then 1 else 0
    ensures var t := Apply(p, s, e); multiset(t.notified)[k] == if HasNotice(t, k) then 1 else 0
  {
    if e.Notify? {
      Counted(s.notified, e.i, k);
    }
  }

  lemma CheckpointKept(p: Plan, s: State, e: Event)
    requires Enabled(p, s, e) && (!s.lost ==> s.checkpoint == s.results)
    ensures var t := Apply(p, s, e); !t.lost ==> t.checkpoint == t.results
  {
  }

  lemma ResultsKept(p: Plan, s: State, e: Event)
    requires ResultsSound(s) && Enabled(p, s, e)
    ensures ResultsSound(Apply(p, s, e))
  {
    hide Apply, Enabled, HasResult, HasNotice;
    var t := Apply(p, s, e);
    CheckpointKept(p, s, e);
    forall k: nat ensures multiset(t.results)[k] == if HasResult(t, k) then 1 else 0 {
      ResultOfOne(p, s, e, k);
    }
    forall k: nat ensures multiset(t.notified)[k] == if HasNotice(t, k) then 1 else 0 {
      NoticeOfOne(p, s, e, k);
    }
  }

  lemma MainKept(p: Plan, s: State, e: Event)
    requires MainSound(p, s) && Enabled(p, s, e)
    ensures MainSound(p, Apply(p, s, e))
  {
  }

  lemma SoundKept(p: Plan, s: State, e: Event)
    requires Sound(p, s) && Enabled(p, s, e)
    ensures Sound(p, Apply(p, s, e))
  {
    hide SlotsSound, ResultsSound, MainSound, Apply, Enabled;
    SlotsKept(p, s, e);
    ResultsKept(p, s, e);
    MainKept(p, s, e);
  }

  lemma SoundStart(p: Plan)
    ensures Sound(p, START)
  {
  }

  lemma {:induction false} SoundOverRuns(p: Plan, ss: seq<State>, es: seq<Event>, i: nat)
    requires IsRun(p, ss, es) && i < |ss|
    ensures Sound(p, ss[i])
  {
    hide Sound, Apply, Enabled;
    if i == 0 {
      SoundStart(p);
    } else {
      SoundOverRuns(p, ss, es, i - 1);
      SoundKept(p, ss[i - 1], es[i - 1]);
    }
  }

  function InFlight(pc: TestPc): nat {
    if pc.Testing? then 1 else 0
  }

  lemma {:induction false} InFlightHolds(tests: seq<TestPc>)
    ensures Total(tests, InFlight) <= Total(tests, Holds)
  {
    if tests != [] {
      InFlightHolds(tests[..|tests| - 1]);
    }
  }

  /** There are never more peer tests in flight than the configured concurrency. */
  lemma ConcurrencyBound(p: Plan, ss: seq<State>, es: seq<Event>, i: nat)
    requires IsRun(p, ss, es) && i < |ss|
    ensures Total(ss[i].tests, InFlight) <= p.concurrency
  {
    hide IsRun;
    SoundOverRuns(p, ss, es, i);
    InFlightHolds(ss[i].tests);
  }

  // ----- what dispatch returns ----------------------------------------------

  lemma OncePerPeer(s: seq<nat>, n: nat)
    requires forall i: nat :: multiset(s)[i] == if i < n then 1 else 0
    ensures multiset(s) == multiset(Range(n)) && |s| == n
  {
    RangeCounts(n);
    assert multiset(s) == multiset(Range(n));
    assert |s| == |multiset(s)| == |multiset(Range(n))|;
  }

  /** On return there is exactly one result and one OnResult call for each peer of a prefix of the list, the
      whole list unless the context was cancelled, and if no write failed the checkpoint has the results'
      lines in the results' order. */
  lemma ReturnsOnePerPeer(p: Plan, ss: seq<State>, es: seq<Event>, i: nat)
    requires IsRun(p, ss, es) && i < |ss| && ss[i].main.Returned?
    ensures var s := ss[i];
      exists n: nat :: n <= p.peers
        && multiset(s.results) == multiset(Range(n)) && |s.results| == n
        && multiset(s.notified) == multiset(Range(n)) && |s.notified| == n
        && (!s.ctxDone ==> n == p.peers)
    ensures !ss[i].lost ==> ss[i].checkpoint == ss[i].results
  {
    hide IsRun;
    SoundOverRuns(p, ss, es, i);
    OncePerPeer(ss[i].results, |ss[i].tests|);
    OncePerPeer(ss[i].notified, |ss[i].tests|);
  }

  // ----- progress -----------------------------------------------------------

  /** Once the context is cancelled it stays so, and the loop can stop scheduling at every turn. */
  lemma {:induction false} CancelIsHeard(p: Plan, ss: seq<State>, es: seq<Event>, i: nat, j: nat)
    requires IsRun(p, ss, es) && i < j < |ss| && es[i].Cancel?
    ensures ss[j].ctxDone
    ensures ss[j].main.Dispatching? && |ss[j].tests| < p.peers ==> Enabled(p, ss[j], Break)
  {
    if i + 1 < j {
      CancelIsHeard(p, ss, es, i, j - 1);
    }
    assert Enabled(p, ss[j - 1], es[j - 1]) && ss[j] == Apply(p, ss[j - 1], es[j - 1]);
  }

  /** Steps left before the return, however they are interleaved. */
  function Rank(p: Plan, s: State): int {
    5 * (p.peers - |s.tests|) + Total(s.tests, StepsLeft)
    + match s.main case Dispatching => 2 case Waiting => 1 case Returned => 0
  }

  /** Every step but a cancel brings the return closer. */
  lemma RankDecreases(p: Plan, s: State, e: Event)
    requires Sound(p, s) && Enabled(p, s, e) && !e.Cancel?
    ensures 0 <= Rank(p, Apply(p, s, e)) < Rank(p, s)
  {
    hide Total, Sound;
    assert |s.tests| <= p.peers by {
      PeersBound(p, s);
    }
    match e
    case Spawn => TotalAppend(s.tests, Testing, StepsLeft);
    case Record(i, _) => TotalUpdate(s.tests, i, Recorded, StepsLeft);
    case Notify(i) => TotalUpdate(s.tests, i, Notified, StepsLeft);
    case Release(i) => TotalUpdate(s.tests, i, Released, StepsLeft);
    case Finish(i) => TotalUpdate(s.tests, i, Done, StepsLeft);
    case _ =>
  }

  lemma PeersBound(p: Plan, s: State)
    requires Sound(p, s)
    ensures |s.tests| <= p.peers
  {
  }

  lemma {:induction false} AllDone(tests: seq<TestPc>, weight: TestPc -> nat)
    requires forall i | 0 <= i < |tests| :: weight(tests[i]) == 0
    ensures Total(tests, weight) == 0
  {
    if tests != [] {
      AllDone(tests[..|tests| - 1], weight);
    }
  }

  lemma {:induction false} HolderHasSlot(tests: seq<TestPc>, i: nat)
    requires i < |tests| && Holds(tests[i]) == 1
    ensures Total(tests, Holds) >= 1
  {
    if i < |tests| - 1 {
      HolderHasSlot(tests[..|tests| - 1], i);
    }
  }

  /** Dispatch never deadlocks: as long as it has not returned, some step is possible. */
  lemma NeverStuck(p: Plan, s: State) returns (e: Event)
    requires Sound(p, s) && !s.main.Returned? && p.concurrency >= 1
    ensures Enabled(p, s, e) && !e.Cancel?
  {
    hide Total;
    if i :| 0 <= i < |s.tests| && !s.tests[i].Done? {
      match s.tests[i]
      case Testing => e := Record(i, true);
      case Recorded => e := Notify(i);
      case Notified =>
        HolderHasSlot(s.tests, i);
        e := Release(i);
      case Released => e := Finish(i);
    } else {
      AllDone(s.tests, Holds);
      e := if s.main.Waiting? then Return else if |s.tests| < p.peers then Spawn else LoopEnd;
    }
  }
}
