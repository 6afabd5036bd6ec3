// The multi-stream download: the byte cap shared by the streams, the peak
// sampler, and the figures a run record draws from them.

module Download {
  import opened Options

  const BUFFER := 32 * 1024

  // ----- the byte cap -------------------------------------------------------

  /** Where one stream is in its read loop. */
  datatype StreamPc =
    | Dialing
    | Checking         // about to look whether the download's context is done
    | Capping          // about to look whether the cap is met
    | Reading
    | Adding(n: nat)
    | Added(seen: nat) // has added what it read and seen the new total
    | Stopped

  /** The caller's goroutine: it waits for the streams, cancels, and waits for the sampler. */
  datatype MainPc = Joining | Cancelling | AwaitingSampler | Returned

  /** One download: its streams, its cap, where 0 is none, and whether it has a time limit. */
  datatype Setup = Setup(streams: nat, maxBytes: nat, timed: bool)

  /** The shared counter, the streams and what each has read; whether the download's context is done, and
      whether the caller's is; the caller's goroutine, and whether the sampler still runs. */
  datatype State = State(
    total: nat, streams: seq<StreamPc>, got: seq<nat>,
    ctxDone: bool, callerDone: bool, main: MainPc, sampling: bool)

  datatype Event =
    | CallerEnds                       // the caller's context is done
    | TimeRunsOut
    | Step(i: nat, n: nat, quit: bool) // stream i acts: a read yields n bytes; quit stands for a failed
                                       // request, or the end or error of a read
    | MainActs
    | SamplerExits

  predicate AllStopped(s: State) {
    forall i | 0 <= i < |s.streams| :: s.streams[i].Stopped?
  }

  predicate Enabled(p: Setup, s: State, e: Event) {
    match e
    case CallerEnds => true
    case TimeRunsOut => p.timed
    case Step(i, n, _) => i < |s.streams| == |s.got| && !s.streams[i].Stopped? && n <= BUFFER
    case MainActs =>
      (s.main.Joining? && AllStopped(s)) || s.main.Cancelling? || (s.main.AwaitingSampler? && !s.sampling)
    case SamplerExits => s.sampling && s.ctxDone
  }

  function Start(p: Setup): State {
    State(0, seq(p.streams, _ => Dialing), seq(p.streams, _ => 0), false, false, Joining, true)
  }

  function Put(s: State, i: nat, pc: StreamPc): State
    requires i < |s.streams|
  {
    s.(streams := s.streams[i := pc])
  }

  /** The download's own cancel; without a time limit it does nothing. */
  function CancelDownload(p: Setup, s: State): State {
    s.(ctxDone := s.ctxDone || p.timed)
  }

  /** One atomic action of stream i: the look at the context, the look at the cap, the read, the atomic add,
      or the check of the total it returned.  A stream that meets the cap cancels the download. */
  function Act(p: Setup, s: State, i: nat, n: nat, quit: bool): State
    requires i < |s.streams| == |s.got| && n <= BUFFER
  {
    match s.streams[i]
    case Dialing => Put(s, i, if quit then Stopped else Checking)
    case Checking => Put(s, i, if s.ctxDone then Stopped else Capping)
    case Capping =>
      if p.maxBytes > 0 && s.total >= p.maxBytes then CancelDownload(p, Put(s, i, Stopped)) else Put(s, i, Reading)
    case Reading => if n > 0 then Put(s, i, Adding(n)) else if quit then Put(s, i, Stopped) else Put(s, i, Checking)
    case Adding(k) => Put(s, i, Added(s.total + k)).(total := s.total + k, got := s.got[i := s.got[i] + k])
    case Added(seen) =>
      if p.maxBytes > 0 && seen >= p.maxBytes then CancelDownload(p, Put(s, i, Stopped))
      else Put(s, i, if quit then Stopped else Checking)
    case Stopped => s
  }

  function Apply(p: Setup, s: State, e: Event): State
    requires Enabled(p, s, e)
  {
    match e
    case CallerEnds => s.(callerDone := true, ctxDone := true)
    case TimeRunsOut => s.(ctxDone := true)
    case Step(i, n, quit) => Act(p, s, i, n, quit)
    case MainActs =>
      if s.main.Joining? then s.(main := Cancelling)
      else if s.main.Cancelling? then CancelDownload(p, s).(main := AwaitingSampler)
      else s.(main := Returned)
    case SamplerExits => s.(sampling := false)
  }

  function Sum(s: seq<nat>): nat {
    if s == [] then 0 else s[0] + Sum(s[1..])
  }

  lemma {:induction false} SumUpdate(s: seq<nat>, i: nat, v: nat)
    requires i < |s|
    ensures Sum(s[i := v]) == Sum(s) - s[i] + v
  {
    if i > 0 {
      SumUpdate(s[1..], i - 1, v);
      assert s[i := v][1..] == s[1..][i - 1 := v];
    }
  }

  function Busy(pc: StreamPc): nat {
    if pc.Reading? || pc.Adding? then 1 else 0
  }

  /** How many streams are past the check and have not added what they read. */
  function BusyCount(streams: seq<StreamPc>): nat {
    if streams == [] then 0 else Busy(streams[0]) + BusyCount(streams[1..])
  }

  lemma {:induction false} BusyUpdate(s: seq<StreamPc>, i: nat, pc: StreamPc)
    requires i < |s|
    ensures BusyCount(s[i := pc]) == BusyCount(s) - Busy(s[i]) + Busy(pc)
  {
    if i > 0 {
      BusyUpdate(s[1..], i - 1, pc);
      assert s[i := pc][1..] == s[1..][i - 1 := pc];
    }
  }

  lemma {:induction false} BusyBound(s: seq<StreamPc>)
    ensures BusyCount(s) <= |s|
  {
    if s != [] {
      BusyBound(s[1..]);
    }
  }

  /** The counter is the sum of what the streams read, and each stream that is not busy has used at most one
      buffer beyond the cap. */
  ghost predicate Capped(p: Setup, s: State) {
    && |s.streams| == |s.got| == p.streams && s.total == Sum(s.got)
    && (forall i | 0 <= i < |s.streams| && s.streams[i].Adding? :: s.streams[i].n <= BUFFER)
    && (p.maxBytes > 0 ==> s.total <= p.maxBytes - 1 + BUFFER * (|s.streams| - BusyCount(s.streams)))
  }

  /** What one action of a stream can do. */
  lemma ActEffect(p: Setup, s: State, i: nat, n: nat, quit: bool)
    requires i < |s.streams| == |s.got| && n <= BUFFER
    ensures var s', pc := Act(p, s, i, n, quit), s.streams[i];
      && |s'.streams| == |s.streams| && s'.streams == s.streams[i := s'.streams[i]]
      && (if pc.Adding? then s'.total == s.total + pc.n && s'.got == s.got[i := s.got[i] + pc.n]
          else s'.total == s.total && s'.got == s.got)
      && (pc.Adding? ==> s'.streams[i].Added?)
      && (s'.streams[i].Adding? ==> pc.Reading? && s'.streams[i].n <= BUFFER)
      && (s'.streams[i].Reading? ==> pc.Capping? && (p.maxBytes == 0 || s.total < p.maxBytes))
  {
    match s.streams[i]
    case Dialing =>
    case Checking =>
    case Capping =>
    case Reading =>
    case Adding(_) =>
    case Added(_) =>
    case Stopped =>
  }

  lemma CappedAct(p: Setup, s: State, i: nat, n: nat, quit: bool)
    requires Capped(p, s) && i < |s.streams| && n <= BUFFER && !s.streams[i].Stopped?
    ensures Capped(p, Act(p, s, i, n, quit))
  {
    hide Sum, BusyCount, Act;
    ActEffect(p, s, i, n, quit);
    var s' := Act(p, s, i, n, quit);
    BusyUpdate(s.streams, i, s'.streams[i]);
    BusyBound(s'.streams);
    if s.streams[i].Adding? {
      SumUpdate(s.got, i, s.got[i] + s.streams[i].n);
    }
  }

  lemma CappedKept(p: Setup, s: State, e: Event)
    requires Capped(p, s) && Enabled(p, s, e)
    ensures Capped(p, Apply(p, s, e))
  {
    hide Sum, BusyCount, Act, AllStopped;
    if e.Step? {
      CappedAct(p, s, e.i, e.n, e.quit);
    }
  }

  ghost predicate IsRun(p: Setup, ss: seq<State>, es: seq<Event>) {
    && |ss| == |es| + 1 && ss[0] == Start(p)
    && forall i :: 0 <= i < |es| ==> Enabled(p, ss[i], es[i]) && ss[i + 1] == Apply(p, ss[i], es[i])
  }

  lemma StartCapped(p: Setup)
    ensures Capped(p, Start(p))
  {
    StartZero(p.streams);
  }

  lemma {:induction false} StartZero(n: nat)
    ensures Sum(seq(n, _ => 0)) == 0 && BusyCount(seq(n, _ => Dialing)) == 0
  {
    if n > 0 {
      StartZero(n - 1);
      var zeros, dialing := seq(n, _ => 0), seq(n, _ => Dialing);
      assert zeros[1..] == seq(n - 1, _ => 0) && dialing[1..] == seq(n - 1, _ => Dialing);
    }
  }

  /** In any interleaving of the streams the total is the sum of what they read, and with a cap it exceeds
      the cap by less than one buffer for each stream. */
  lemma {:induction false} TotalWithinCap(p: Setup, ss: seq<State>, es: seq<Event>, i: nat)
    requires IsRun(p, ss, es) && i < |ss|
    ensures Capped(p, ss[i])
    ensures |ss[i].streams| == p.streams && ss[i].total == Sum(ss[i].got)
    ensures p.maxBytes > 0 ==> ss[i].total <= p.maxBytes - 1 + 32768 * p.streams
  {
    hide Capped, Apply, Enabled;
    if i == 0 {
      StartCapped(p);
    } else {
      TotalWithinCap(p, ss, es, i - 1);
      CappedKept(p, ss[i - 1], es[i - 1]);
    }
    CappedBound(p, ss[i]);
  }

  lemma CappedBound(p: Setup, s: State)
    requires Capped(p, s)
    ensures |s.streams| == p.streams && s.total == Sum(s.got)
    ensures p.maxBytes > 0 ==> s.total <= p.maxBytes - 1 + BUFFER * p.streams
  {
    hide Sum, BusyCount;
  }

  /** What the reads up to the n-th event have returned. */
  ghost function Delivered(ss: seq<State>, es: seq<Event>, n: nat): nat
    requires n <= |es| < |ss|
  {
    if n == 0 then 0
    else Delivered(ss, es, n - 1)
         + match es[n - 1]
           case Step(i, got, _) => if i < |ss[n - 1].streams| && ss[n - 1].streams[i].Reading? then got else 0
           case _ => 0
  }

  /** What has been read and not yet added. */
  function OnTheWay(streams: seq<StreamPc>): nat {
    if streams == [] then 0
    else Carried(streams[0]) + OnTheWay(streams[1..])
  }

  function Carried(pc: StreamPc): nat {
    match pc case Adding(n) => n case _ => 0
  }

  lemma {:induction false} OnTheWayUpdate(streams: seq<StreamPc>, i: nat, pc: StreamPc)
    requires i < |streams|
    ensures OnTheWay(streams[i := pc]) == OnTheWay(streams) - Carried(streams[i]) + Carried(pc)
  {
    if i > 0 {
      OnTheWayUpdate(streams[1..], i - 1, pc);
      assert streams[i := pc][1..] == streams[1..][i - 1 := pc];
    }
  }

  lemma {:induction false} NothingOnTheWay(n: nat)
    ensures OnTheWay(seq(n, _ => Dialing)) == 0
  {
    if n > 0 {
      NothingOnTheWay(n - 1);
      var dialing := seq(n, _ => Dialing);
      assert dialing[1..] == seq(n - 1, _ => Dialing);
    }
  }

  lemma ReadIsCarried(p: Setup, s: State, i: nat, n: nat, quit: bool)
    requires i < |s.streams| == |s.got| && n <= BUFFER
    ensures var s', pc := Act(p, s, i, n, quit), s.streams[i];
      && Carried(s'.streams[i]) == (if pc.Reading? then n else 0)
      && s'.total == s.total + Carried(pc)
  {
  }

  /** Not a byte is lost or counted twice: what the reads have returned is what has been added and what is about
      to be. */
  lemma {:induction false} EveryByteCounted(p: Setup, ss: seq<State>, es: seq<Event>, n: nat)
    requires IsRun(p, ss, es) && n <= |es|
    ensures |ss| == |es| + 1 && Delivered(ss, es, n) == ss[n].total + OnTheWay(ss[n].streams)
    ensures AllStopped(ss[n]) ==> ss[n].total == Delivered(ss, es, n)
  {
    hide Act;
    if n == 0 {
      NothingOnTheWay(p.streams);
    } else {
      EveryByteCounted(p, ss, es, n - 1);
      var s := ss[n - 1];
      assert Enabled(p, s, es[n - 1]) && ss[n] == Apply(p, s, es[n - 1]);
      if es[n - 1].Step? {
        var i := es[n - 1].i;
        ActEffect(p, s, i, es[n - 1].n, es[n - 1].quit);
        ReadIsCarried(p, s, i, es[n - 1].n, es[n - 1].quit);
        OnTheWayUpdate(s.streams, i, ss[n].streams[i]);
      }
    }
    if AllStopped(ss[n]) {
      StoppedCarryNothing(ss[n].streams);
    }
  }

  lemma {:induction false} StoppedCarryNothing(streams: seq<StreamPc>)
    requires forall i | 0 <= i < |streams| :: streams[i].Stopped?
    ensures OnTheWay(streams) == 0
  {
    if streams != [] {
      StoppedCarryNothing(streams[1..]);
    }
  }

  lemma Extend(p: Setup, ss: seq<State>, es: seq<Event>, e: Event) returns (ss': seq<State>, es': seq<Event>)
    requires IsRun(p, ss, es) && |ss| == |es| + 1 && Enabled(p, ss[|es|], e)
    ensures IsRun(p, ss', es') && |ss'| == |es'| + 1 && ss'[|es'|] == Apply(p, ss[|es|], e)
  {
    hide Apply, Enabled;
    ss', es' := ss + [Apply(p, ss[|es|], e)], es + [e];
  }

  /** The first k streams hold a full buffer each. */
  function Loaded(p: Setup, k: nat): State {
    Start(p).(streams := seq(p.streams, i => if i < k then Adding(BUFFER) else Dialing))
  }

  /** The first k of them have added it and stopped. */
  function Drained(p: Setup, k: nat): State {
    Start(p).(total := BUFFER * k, ctxDone := p.timed && k > 0,
              streams := seq(p.streams, i => if i < k then Stopped else Adding(BUFFER)),
              got := seq(p.streams, i => if i < k then BUFFER else 0))
  }

  lemma Load(p: Setup, ss: seq<State>, es: seq<Event>, k: nat) returns (ss': seq<State>, es': seq<Event>)
    requires IsRun(p, ss, es) && |ss| == |es| + 1 && k < p.streams && p.maxBytes == 1 && ss[|es|] == Loaded(p, k)
    ensures IsRun(p, ss', es') && |ss'| == |es'| + 1 && ss'[|es'|] == Loaded(p, k + 1)
  {
    hide IsRun;
    ss', es' := Extend(p, ss, es, Step(k, 0, false));
    ss', es' := Extend(p, ss', es', Step(k, 0, false));
    ss', es' := Extend(p, ss', es', Step(k, 0, false));
    ss', es' := Extend(p, ss', es', Step(k, BUFFER, false));
    assert ss'[|es'|].streams == Loaded(p, k + 1).streams;
  }

  lemma Drain(p: Setup, ss: seq<State>, es: seq<Event>, k: nat) returns (ss': seq<State>, es': seq<Event>)
    requires IsRun(p, ss, es) && |ss| == |es| + 1 && k < p.streams && p.maxBytes == 1 && ss[|es|] == Drained(p, k)
    ensures IsRun(p, ss', es') && |ss'| == |es'| + 1 && ss'[|es'|] == Drained(p, k + 1)
  {
    hide IsRun;
    ss', es' := Extend(p, ss, es, Step(k, 0, false));
    ss', es' := Extend(p, ss', es', Step(k, 0, false));
    assert ss'[|es'|].streams == Drained(p, k + 1).streams && ss'[|es'|].got == Drained(p, k + 1).got;
  }

  /** The bound is reached: with a cap of one byte all streams can pass the check before any of them adds. */
  lemma CapIsTight(p: Setup) returns (ss: seq<State>, es: seq<Event>)
    requires p.maxBytes == 1
    ensures IsRun(p, ss, es) && |ss| == |es| + 1 && ss[|es|].total == p.maxBytes - 1 + 32768 * p.streams
  {
    hide IsRun;
    ss, es := [Start(p)], [];
    assert IsRun(p, ss, es) by {
      Alone(p);
    }
    var k := 0;
    assert ss[0].streams == Loaded(p, 0).streams;
    while k < p.streams
      invariant k <= p.streams && IsRun(p, ss, es) && |ss| == |es| + 1 && ss[|es|] == Loaded(p, k)
    {
      ss, es := Load(p, ss, es, k);
      k := k + 1;
    }
    assert ss[|es|].streams == Drained(p, 0).streams && ss[|es|].got == Drained(p, 0).got;
    k := 0;
    while k < p.streams
      invariant k <= p.streams && IsRun(p, ss, es) && |ss| == |es| + 1 && ss[|es|] == Drained(p, k)
    {
      ss, es := Drain(p, ss, es, k);
      k := k + 1;
    }
  }

  lemma Alone(p: Setup)
    ensures IsRun(p, [Start(p)], [])
  {
  }

  /** Once the cap is met no stream starts another read. */
  lemma CapStopsReads(p: Setup, s: State, e: Event)
    requires Enabled(p, s, e) && p.maxBytes > 0 && s.total >= p.maxBytes
    ensures var s' := Apply(p, s, e);
      && s'.total >= p.maxBytes && |s'.streams| == |s.streams|
      && forall i | 0 <= i < |s.streams| && s'.streams[i].Reading? :: s.streams[i].Reading?
  {
    hide Act, AllStopped;
    if e.Step? {
      ActEffect(p, s, e.i, e.n, e.quit);
    }
  }

  /** With a time limit and the cap met, the download's context is done, or a stream that has seen the cap met
      is about to cancel it. */
  ghost predicate CancelDue(p: Setup, s: State) {
    p.timed && p.maxBytes > 0 && s.total >= p.maxBytes ==>
      s.ctxDone || exists i :: 0 <= i < |s.streams| && s.streams[i].Added? && s.streams[i].seen >= p.maxBytes
  }

  lemma CancelDueKept(p: Setup, s: State, e: Event)
    requires CancelDue(p, s) && Enabled(p, s, e)
    ensures CancelDue(p, Apply(p, s, e))
  {
    var s' := Apply(p, s, e);
    if e.Step? && s.streams[e.i].Adding? {
      assert s'.streams[e.i] == Added(s'.total);
      if i :| 0 <= i < |s.streams| && s.streams[i].Added? && s.streams[i].seen >= p.maxBytes {
        assert s'.streams[i] == s.streams[i];
      }
    } else if p.timed && p.maxBytes > 0 && s.total >= p.maxBytes && !s.ctxDone {
      var i :| 0 <= i < |s.streams| && s.streams[i].Added? && s.streams[i].seen >= p.maxBytes;
      assert s'.ctxDone || s'.streams[i] == s.streams[i];
    }
  }

  /** The stream that meets the cap of a download with a time limit ends it for all: once every stream has
      stopped with the cap met, the download's context is done. */
  lemma {:induction false} CapCancels(p: Setup, ss: seq<State>, es: seq<Event>, i: nat)
    requires IsRun(p, ss, es) && i < |ss|
    ensures CancelDue(p, ss[i])
    ensures p.timed && p.maxBytes > 0 && ss[i].total >= p.maxBytes && AllStopped(ss[i]) ==> ss[i].ctxDone
  {
    hide Apply, Enabled;
    if i > 0 {
      CapCancels(p, ss, es, i - 1);
      CancelDueKept(p, ss[i - 1], es[i - 1]);
    }
  }

  // ----- when streams stop --------------------------------------------------

  predicate CapMet(p: Setup, s: State) {
    p.maxBytes > 0 && s.total >= p.maxBytes
  }

  /** The steps a stream has left once the context is done: it looks at that before each turn. */
  function LeftWhenDone(pc: StreamPc): nat {
    match pc
    case Dialing => 2 case Checking => 1 case Capping => 5 case Reading => 4 case Adding(_) => 3 case Added(_) => 2
    case Stopped => 0
  }

  /** The steps it has left once the cap is met: it looks at that before it reads and after it has added. */
  function LeftWhenCapped(pc: StreamPc): nat {
    match pc
    case Dialing => 3 case Checking => 2 case Capping => 1 case Reading => 5 case Adding(_) => 4 case Added(_) => 3
    case Stopped => 0
  }

  lemma ActStops(p: Setup, s: State, i: nat, n: nat, quit: bool)
    requires i < |s.streams| == |s.got| && n <= BUFFER && !s.streams[i].Stopped?
    ensures var s' := Act(p, s, i, n, quit);
      && (s.ctxDone ==> s'.ctxDone && LeftWhenDone(s'.streams[i]) < LeftWhenDone(s.streams[i]))
      && (CapMet(p, s) ==> LeftWhenCapped(s'.streams[i]) < LeftWhenCapped(s.streams[i]))
  {
    match s.streams[i]
    case Dialing =>
    case Checking =>
    case Capping =>
    case Reading =>
    case Adding(_) =>
    case Added(_) =>
  }

  /** Once the context is done or the cap is met that stays so, and every step of a stream brings its own stop
      closer: it takes at most five more.  A time limit, and the caller, can always end the context. */
  lemma StreamsStop(p: Setup, s: State, e: Event, i: nat)
    requires Enabled(p, s, e) && i < |s.streams|
    ensures var s' := Apply(p, s, e); var turn := e.Step? && e.i == i;
      && |s'.streams| == |s.streams|
      && (s.ctxDone || e.TimeRunsOut? || e.CallerEnds? ==> s'.ctxDone)
      && (CapMet(p, s) ==> CapMet(p, s'))
      && (s.ctxDone && turn ==> LeftWhenDone(s'.streams[i]) < LeftWhenDone(s.streams[i]) <= 5)
      && (CapMet(p, s) && turn ==> LeftWhenCapped(s'.streams[i]) < LeftWhenCapped(s.streams[i]) <= 5)
      && (!turn ==> s'.streams[i] == s.streams[i])
    ensures Enabled(p, s, CallerEnds) && (p.timed ==> Enabled(p, s, TimeRunsOut))
  {
    hide Act, AllStopped;
    if e.Step? {
      ActStops(p, s, e.i, e.n, e.quit);
      ActEffect(p, s, e.i, e.n, e.quit);
    }
  }

  /** A failed request, and the end or failure of a read, stops its stream, but not before what was read is added. */
  lemma FailureStops(p: Setup, s: State, i: nat, n: nat)
    requires i < |s.streams| == |s.got| && n <= BUFFER
    requires s.streams[i].Dialing? || s.streams[i].Reading? || s.streams[i].Added?
    ensures Act(p, s, i, n, true).streams[i] == if s.streams[i].Reading? && n > 0 then Adding(n) else Stopped
  {
  }

  /** A stream that has not failed goes on until the context is done or the cap is met. */
  predicate GoesOn(p: Setup, s: State, i: nat) {
    && i < |s.streams| == |s.got|
    && (s.streams[i].Added? ==> s.streams[i].seen <= s.total)
    && (s.streams[i].Stopped? ==> s.ctxDone || CapMet(p, s))
  }

  lemma GoesOnAct(p: Setup, s: State, i: nat, n: nat)
    requires GoesOn(p, s, i) && n <= BUFFER
    ensures GoesOn(p, Act(p, s, i, n, false), i)
  {
    match s.streams[i]
    case Dialing =>
    case Checking =>
    case Capping =>
    case Reading =>
    case Adding(_) =>
    case Added(_) =>
    case Stopped =>
  }

  lemma GoesOnKept(p: Setup, s: State, e: Event, i: nat)
    requires GoesOn(p, s, i) && Enabled(p, s, e) && (e.Step? && e.i == i ==> !e.quit)
    ensures GoesOn(p, Apply(p, s, e), i)
  {
    hide Act, AllStopped;
    StreamsStop(p, s, e, i);
    if e.Step? {
      ActEffect(p, s, e.i, e.n, e.quit);
      if e.i == i {
        GoesOnAct(p, s, i, e.n);
      }
    }
  }

  /** Nothing but an error of its own, the end of the context or the cap stops a stream: until then it can always
      take another step. */
  lemma {:induction false} KeepsDownloading(p: Setup, ss: seq<State>, es: seq<Event>, n: nat, i: nat)
    requires IsRun(p, ss, es) && n < |ss| && i < p.streams
    requires forall k :: 0 <= k < n && es[k].Step? && es[k].i == i ==> !es[k].quit
    ensures GoesOn(p, ss[n], i)
    ensures ss[n].ctxDone || (p.maxBytes > 0 && ss[n].total >= p.maxBytes) || Enabled(p, ss[n], Step(i, 0, false))
  {
    hide Apply;
    if n > 0 {
      KeepsDownloading(p, ss, es, n - 1, i);
      GoesOnKept(p, ss[n - 1], es[n - 1], i);
    }
  }

  // ----- the end of the call ------------------------------------------------

  /** The download's context is done only because of the time limit, of the cancel it comes with, or of the
      caller, and the sampler and the call end only after it. */
  predicate EndSound(p: Setup, s: State) {
    && (s.ctxDone ==> p.timed || s.callerDone)
    && (s.callerDone ==> s.ctxDone)
    && (!s.sampling ==> s.ctxDone)
    && (s.main.AwaitingSampler? && p.timed ==> s.ctxDone)
    && (s.main.Returned? ==> !s.sampling)
    && (!s.main.Joining? ==> AllStopped(s))
  }

  lemma EndKept(p: Setup, s: State, e: Event)
    requires EndSound(p, s) && Enabled(p, s, e)
    ensures EndSound(p, Apply(p, s, e))
  {
  }

  lemma {:induction false} EndOverRuns(p: Setup, ss: seq<State>, es: seq<Event>, i: nat)
    requires IsRun(p, ss, es) && i < |ss|
    ensures EndSound(p, ss[i])
  {
    hide Apply, Enabled;
    if i > 0 {
      EndOverRuns(p, ss, es, i - 1);
      EndKept(p, ss[i - 1], es[i - 1]);
    }
  }

  predicate CanDo(p: Setup, s: State, es: seq<Event>)
    decreases |es|
  {
    es == [] || (Enabled(p, s, es[0]) && CanDo(p, Apply(p, s, es[0]), es[1..]))
  }

  function After(p: Setup, s: State, es: seq<Event>): State
    requires CanDo(p, s, es)
    decreases |es|
  {
    if es == [] then s else After(p, Apply(p, s, es[0]), es[1..])
  }

  /** Steps of the download's own goroutines. */
  predicate OwnSteps(es: seq<Event>) {
    forall i :: 0 <= i < |es| ==> es[i].MainActs? || es[i].SamplerExits?
  }

  lemma {:induction false} EndAfter(p: Setup, s: State, es: seq<Event>)
    requires EndSound(p, s) && CanDo(p, s, es) && OwnSteps(es)
    ensures EndSound(p, After(p, s, es)) && After(p, s, es).callerDone == s.callerDone
    decreases |es|
  {
    hide EndSound;
    if es != [] {
      EndKept(p, s, es[0]);
      EndAfter(p, Apply(p, s, es[0]), es[1..]);
    }
  }

  lemma Prefix(p: Setup, s: State, e: Event, rest: seq<Event>)
    requires Enabled(p, s, e) && CanDo(p, Apply(p, s, e), rest)
    ensures CanDo(p, s, [e] + rest) && After(p, s, [e] + rest) == After(p, Apply(p, s, e), rest)
  {
    hide Enabled, Apply;
    assert ([e] + rest)[1..] == rest;
  }

  /** What the call has left to do once its streams have stopped. */
  lemma WayOut(p: Setup, s: State) returns (es: seq<Event>)
    requires EndSound(p, s) && AllStopped(s) && (p.timed || s.callerDone)
    ensures OwnSteps(es) && CanDo(p, s, es) && After(p, s, es).main.Returned?
    decreases match s.main case Joining => 4 case Cancelling => 3 case AwaitingSampler => 1 case Returned => 0,
              s.sampling
  {
    hide CanDo, After;
    if s.main.Returned? {
      es := [];
      Nothing(p, s);
    } else {
      var e := if s.main.AwaitingSampler? && s.sampling then SamplerExits else MainActs;
      EndKept(p, s, e);
      es := WayOut(p, Apply(p, s, e));
      Prefix(p, s, e, es);
      es := [e] + es;
    }
  }

  lemma Nothing(p: Setup, s: State)
    ensures CanDo(p, s, []) && After(p, s, []) == s
  {
  }

  /** Once all streams have stopped, the call can return on its own exactly when it has a time limit or the
      caller's context is done: without a limit, meeting the cap leaves it waiting for the sampler. */
  lemma ReturnsIffLimited(p: Setup, ss: seq<State>, es: seq<Event>, i: nat)
    requires IsRun(p, ss, es) && i < |ss| && AllStopped(ss[i])
    ensures (exists own :: OwnSteps(own) && CanDo(p, ss[i], own) && After(p, ss[i], own).main.Returned?)
       <==> p.timed || ss[i].callerDone
  {
    hide IsRun, CanDo, After;
    EndOverRuns(p, ss, es, i);
    if p.timed || ss[i].callerDone {
      var own := WayOut(p, ss[i]);
    }
    if own :| OwnSteps(own) && CanDo(p, ss[i], own) && After(p, ss[i], own).main.Returned? {
      EndAfter(p, ss[i], own);
    }
  }

  /** The end of the caller's context always lets it return. */
  lemma CallerEndsIt(p: Setup, ss: seq<State>, es: seq<Event>, i: nat) returns (own: seq<Event>)
    requires IsRun(p, ss, es) && i < |ss| && AllStopped(ss[i])
    ensures OwnSteps(own) && Enabled(p, ss[i], CallerEnds)
    ensures CanDo(p, Apply(p, ss[i], CallerEnds), own) && After(p, Apply(p, ss[i], CallerEnds), own).main.Returned?
  {
    hide IsRun, CanDo, After;
    EndOverRuns(p, ss, es, i);
    EndKept(p, ss[i], CallerEnds);
    own := WayOut(p, Apply(p, ss[i], CallerEnds));
  }

  /** No download without a limit ever returns before the caller's context is done. */
  lemma UnlimitedWaitsForCaller(p: Setup, ss: seq<State>, es: seq<Event>, i: nat)
    requires IsRun(p, ss, es) && i < |ss| && !p.timed && ss[i].main.Returned?
    ensures ss[i].callerDone
  {
    EndOverRuns(p, ss, es, i);
  }

  /** When the call returns its streams and its sampler have ended, and the total it reports is every byte read. */
  lemma ReturnsLast(p: Setup, ss: seq<State>, es: seq<Event>, i: nat)
    requires IsRun(p, ss, es) && i < |ss| && ss[i].main.Returned?
    ensures AllStopped(ss[i]) && !ss[i].sampling && ss[i].ctxDone
    ensures i <= |es| < |ss| && ss[i].total == Delivered(ss, es, i)
  {
    hide IsRun;
    EndOverRuns(p, ss, es, i);
    assert |ss| == |es| + 1 by {
      RunLength(p, ss, es);
    }
    EveryByteCounted(p, ss, es, i);
  }

  lemma RunLength(p: Setup, ss: seq<State>, es: seq<Event>)
    requires IsRun(p, ss, es)
    ensures |ss| == |es| + 1
  {
  }

  // ----- the peak sampler ---------------------------------------------------

  /** One tick of the sampler: its time in seconds and the counter it reads. */
  datatype Sample = Sample(at: real, bytes: int)

  function Megabits(bytes: int): real {
    bytes as real * 8.0 / 1000000.0
  }

  /** Ticks come at strictly increasing times after the start, and the counter never falls. */
  ghost predicate Ticks(start: real, samples: seq<Sample>) {
    && (forall i :: 0 <= i < |samples| ==> start < samples[i].at && samples[i].bytes >= 0)
    && (forall i, j :: 0 <= i < j < |samples| ==> samples[i].at < samples[j].at && samples[i].bytes <= samples[j].bytes)
  }

  function Rate(from: Sample, to: Sample): real
    requires from.at < to.at
  {
    Megabits(to.bytes - from.bytes) / (to.at - from.at)
  }

  function Points(start: real, samples: seq<Sample>): seq<Sample> {
    [Sample(start, 0)] + samples
  }

  ghost predicate Increasing(points: seq<Sample>) {
    forall i, j :: 0 <= i < j < |points| ==> points[i].at < points[j].at && points[i].bytes <= points[j].bytes
  }

  function Max(a: real, b: real): real {
    if a < b then b else a
  }

  /** The largest rate between consecutive points among the first k + 1. */
  function MaxRate(points: seq<Sample>, k: nat): real
    requires k < |points| && forall i, j :: 0 <= i < j < |points| ==> points[i].at < points[j].at
  {
    if k == 0 then 0.0 else Max(MaxRate(points, k - 1), Rate(points[k - 1], points[k]))
  }

  lemma RateSign(from: Sample, to: Sample)
    requires from.at < to.at && from.bytes <= to.bytes
    ensures Rate(from, to) >= 0.0 && (to.bytes == from.bytes ==> Rate(from, to) == 0.0)
    ensures Rate(from, to) * (to.at - from.at) == Megabits(to.bytes - from.bytes)
  {
    var megabits, d := Megabits(to.bytes - from.bytes), to.at - from.at;
    Quotient(megabits, d);
  }

  /** The rate between two ticks, in bits and seconds, is at most `peak` megabits per second. */
  predicate RateWithin(from: Sample, to: Sample, peak: real) {
    (to.bytes - from.bytes) as real * 8.0 <= peak * (to.at - from.at) * 1000000.0
  }

  predicate RateReaches(from: Sample, to: Sample, peak: real) {
    (to.bytes - from.bytes) as real * 8.0 == peak * (to.at - from.at) * 1000000.0
  }

  lemma RateInBits(from: Sample, to: Sample, peak: real)
    requires from.at < to.at && from.bytes <= to.bytes
    ensures RateWithin(from, to, peak) <==> Rate(from, to) <= peak
    ensures RateReaches(from, to, peak) <==> Rate(from, to) == peak
  {
    RateSign(from, to);
    var d := to.at - from.at;
    Cancel(Rate(from, to), peak, d);
    assert Rate(from, to) * d == (to.bytes - from.bytes) as real * 8.0 / 1000000.0;
    assert (to.bytes - from.bytes) as real * 8.0 == Rate(from, to) * d * 1000000.0;
  }

  lemma Cancel(x: real, y: real, d: real)
    requires d > 0.0
    ensures x * d <= y * d <==> x <= y
    ensures x * d == y * d <==> x == y
  {
  }

  lemma {:induction false} MaxRateBounds(points: seq<Sample>, k: nat, i: nat)
    requires Increasing(points) && 0 < i <= k < |points|
    ensures Rate(points[i - 1], points[i]) <= MaxRate(points, k)
  {
    hide Rate;
    if i < k {
      MaxRateBounds(points, k - 1, i);
    }
  }

  lemma {:induction false} MaxRateAttained(points: seq<Sample>, k: nat) returns (i: nat)
    requires Increasing(points) && k < |points|
    ensures MaxRate(points, k) >= 0.0
    ensures MaxRate(points, k) > 0.0 ==> 0 < i <= k && Rate(points[i - 1], points[i]) == MaxRate(points, k)
  {
    hide Rate;
    i := 0;
    if k > 0 {
      i := MaxRateAttained(points, k - 1);
      if MaxRate(points, k) != MaxRate(points, k - 1) {
        i := k;
      }
    }
  }

  /** The peak is what a peak has to be: no interval is faster, and some interval is as fast, unless nothing
      moved. */
  lemma MaxRateIsPeak(points: seq<Sample>, k: nat)
    requires Increasing(points) && k < |points|
    ensures forall i :: 0 < i <= k ==> RateWithin(points[i - 1], points[i], MaxRate(points, k))
    ensures MaxRate(points, k) > 0.0 ==>
              exists i :: 0 < i <= k && RateReaches(points[i - 1], points[i], MaxRate(points, k))
  {
    hide Rate, RateWithin, RateReaches, MaxRate;
    var peak := MaxRate(points, k);
    forall i | 0 < i <= k
      ensures RateWithin(points[i - 1], points[i], peak)
    {
      MaxRateBounds(points, k, i);
      RateInBits(points[i - 1], points[i], peak);
    }
    var i := MaxRateAttained(points, k);
    if peak > 0.0 {
      RateInBits(points[i - 1], points[i], peak);
    }
  }

  lemma Quotient(x: real, d: real)
    requires x >= 0.0 && d > 0.0
    ensures x / d >= 0.0 && x / d * d == x
  {
  }

  /** The sampler loop: the peak is the largest rate between consecutive ticks. */
  method SamplePeak(start: real, samples: seq<Sample>) returns (peak: real)
    requires Ticks(start, samples)
    ensures Increasing(Points(start, samples))
    ensures peak == MaxRate(Points(start, samples), |samples|)
    ensures var points := Points(start, samples);
      && (forall i :: 0 < i < |points| ==> RateWithin(points[i - 1], points[i], peak))
      && (peak > 0.0 ==> exists i :: 0 < i < |points| && RateReaches(points[i - 1], points[i], peak))
  {
    hide Rate, Megabits, RateWithin, RateReaches;
    ghost var points := Points(start, samples);
    assert Increasing(points);
    var lastBytes, lastTime := 0, start;
    peak := 0.0;
    for k := 0 to |samples|
      invariant lastBytes == points[k].bytes && lastTime == points[k].at
      invariant peak == MaxRate(points, k) && peak >= 0.0
    {
      var t, currentBytes := samples[k].at, samples[k].bytes;
      assert points[k + 1] == samples[k];
      var bytesInInterval := currentBytes - lastBytes;
      var intervalSec := t - lastTime;
      RateSign(points[k], points[k + 1]);
      RateIs(points[k], points[k + 1]);
      if intervalSec > 0.0 && bytesInInterval > 0 {
        var currentMbps := Megabits(bytesInInterval) / intervalSec;
        // The compare-and-swap loop: only this goroutine writes, so one round suffices.
        if currentMbps > peak {
          peak := currentMbps;
        }
      }
      lastBytes, lastTime := currentBytes, t;
    }
    MaxRateIsPeak(points, |samples|);
  }

  lemma RateIs(from: Sample, to: Sample)
    requires from.at < to.at
    ensures Rate(from, to) == Megabits(to.bytes - from.bytes) / (to.at - from.at)
  {
  }

  lemma Scale(x: real, y: real, d: real)
    requires d >= 0.0 && x <= y
    ensures x * d <= y * d
  {
  }

  lemma MaxRateGrows(points: seq<Sample>, k: nat)
    requires Increasing(points) && 0 < k < |points|
    ensures MaxRate(points, k) >= MaxRate(points, k - 1) && MaxRate(points, k) >= Rate(points[k - 1], points[k])
  {
    hide Rate;
  }

  /** Peak times the time sampled is at least the megabits sampled: the peak bounds the sampled average. */
  lemma {:induction false} PeakBoundsAverage(points: seq<Sample>, k: nat)
    requires Increasing(points) && k < |points|
    ensures MaxRate(points, k) * (points[k].at - points[0].at) >= Megabits(points[k].bytes - points[0].bytes)
    ensures MaxRate(points, k) * (points[k].at - points[0].at) * 1000000.0
         >= (points[k].bytes - points[0].bytes) as real * 8.0
  {
    hide Rate, MaxRate, Megabits;
    MegabitsAre(points[k].bytes - points[0].bytes);
    if k == 0 {
      FirstPoint(points);
    } else {
      PeakBoundsAverage(points, k - 1);
      MaxRateGrows(points, k);
      RateSign(points[k - 1], points[k]);
      var d, e := points[k - 1].at - points[0].at, points[k].at - points[k - 1].at;
      var earlier, last := points[k - 1].bytes - points[0].bytes, points[k].bytes - points[k - 1].bytes;
      Combine(MaxRate(points, k), MaxRate(points, k - 1), Rate(points[k - 1], points[k]), d, e,
              Megabits(earlier), Megabits(last));
      MegabitsAdd(earlier, last);
    }
  }

  lemma FirstPoint(points: seq<Sample>)
    requires Increasing(points) && points != []
    ensures MaxRate(points, 0) * 0.0 >= Megabits(0)
  {
  }

  lemma Combine(peak: real, before: real, rate: real, d: real, e: real, m: real, n: real)
    requires before <= peak && rate <= peak && d >= 0.0 && e >= 0.0 && before * d >= m && rate * e == n
    ensures peak * (d + e) >= m + n
  {
    Scale(before, peak, d);
    Scale(rate, peak, e);
    assert peak * (d + e) == peak * d + peak * e;
  }

  lemma MegabitsAre(bytes: int)
    ensures Megabits(bytes) * 1000000.0 == bytes as real * 8.0
  {
  }

  lemma MegabitsAdd(a: int, b: int)
    ensures Megabits(a + b) == Megabits(a) + Megabits(b)
  {
  }

  // ----- the figures --------------------------------------------------------

  /** The figures of one download. */
  datatype Figures = Figures(avgMbps: real, peakMbps: real)

  /** The end of a download that moved data: the average over its duration, and the peak raised to it. */
  function Finish(totalBytes: nat, durationSec: real, sampledPeak: real): (f: Figures)
    requires totalBytes > 0
    ensures durationSec > 0.0 ==> f.avgMbps * durationSec * 1000000.0 == totalBytes as real * 8.0
    ensures durationSec <= 0.0 ==> f.avgMbps == 0.0
    ensures f.avgMbps <= f.peakMbps && sampledPeak <= f.peakMbps
    ensures f.peakMbps == f.avgMbps || f.peakMbps == sampledPeak
  {
    var avg := if durationSec > 0.0 then Megabits(totalBytes) / durationSec else 0.0;
    Figures(avg, if sampledPeak < avg then avg else sampledPeak)
  }
}
