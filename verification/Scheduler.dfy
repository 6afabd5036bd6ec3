// The scheduler's state and its critical sections.
//
// Each section of code that runs under the scheduler's mutex is one function on
// the guarded state.  The class holds the same state in mutable fields; its
// methods are the sections as the program performs them, each proved equal to
// its function.  The interleavings of the sections are in SchedulerProtocol.

module Scheduler {
  import opened Options
  import opened Cron

  /** The guarded state.  A channel is known by the number it was made with; None is a nil channel. */
  datatype Guarded = Guarded(
    spec: Spec, running: bool, stopped: bool,
    stopCh: Option<nat>, done: Option<nat>, replan: Option<nat>,
    next: int, nextSet: bool, runs: nat, skipped: nat)

  function New(spec: Spec): Guarded {
    Guarded(spec, false, false, None, None, None, 0, false, 0, 0)
  }

  /** Start: make the three channels, numbered from `id`, unless they exist. */
  function StartSection(g: Guarded, id: nat): Guarded {
    if g.stopCh.Some? then g
    else g.(stopCh := Some(id), done := Some(id + 1), replan := Some(id + 2))
  }

  /** SetSpec reaches a live scheduler only between Start and Stop. */
  predicate Live(g: Guarded) {
    g.stopCh.Some? && !g.stopped
  }

  function SetSpecSection(g: Guarded, spec: Spec): Guarded {
    if Live(g) then g.(spec := spec, nextSet := false) else g.(spec := spec)
  }

  datatype Plan = WantStop | NoFiring | Fire(at: int)

  function PlanNextSection(g: Guarded, now: int): (Guarded, Plan) {
    if g.stopped then (g, WantStop)
    else if g.nextSet && g.next > now then (g, Fire(g.next))
    else match NextFiring(g.spec, now)
      case None => (g.(nextSet := false), NoFiring)
      case Some(fire) => (g.(next := fire, nextSet := true), Fire(fire))
  }

  function AdvanceSection(g: Guarded, fire: int): Guarded {
    match NextFiring(g.spec, fire)
    case None => g
    case Some(nx) => g.(next := nx, nextSet := true)
  }

  predicate ClaimSucceeds(g: Guarded) {
    !g.running && !g.stopped
  }

  function ClaimSection(g: Guarded): Guarded {
    if ClaimSucceeds(g) then g.(running := true) else g
  }

  /** The ticks an interval job has eaten by running for `elapsed`. */
  function Missed(spec: Spec, elapsed: int): (missed: nat)
  {
    if spec.Interval? && spec.every > 0 && elapsed > spec.every then elapsed / spec.every else 0
  }

  function FinishSection(g: Guarded, elapsed: int): Guarded {
    g.(running := false, runs := g.runs + 1, skipped := g.skipped + Missed(g.spec, elapsed))
  }

  /** The count differs from the number of whole intervals outlived only at exactly one interval. */
  lemma MissedIsWholeIntervals(every: int, elapsed: int)
    requires every > 0 && elapsed >= 0
    ensures Missed(Interval(every), elapsed) == elapsed / every <==> elapsed != every
    ensures Missed(Interval(every), elapsed) * every <= elapsed
  {
    var q, r := elapsed / every, elapsed % every;
    assert elapsed == q * every + r;
    if elapsed < every {
      assert q == 0 by {
        if q >= 1 {
          MulMonotone(1, q, every);
        } else if q <= -1 {
          MulMonotone(q, -1, every);
        }
      }
    } else if elapsed == every {
      assert q == 1 by {
        if q >= 2 {
          MulMonotone(2, q, every);
        } else if q <= 0 {
          MulMonotone(q, 0, every);
        }
      }
    }
  }

  lemma MulMonotone(a: int, b: int, c: int)
    requires a <= b && c >= 0
    ensures a * c <= b * c
  {
  }

  /** A planned instant lies strictly in the future, and a clock plan satisfies the specification. */
  lemma PlanIsAhead(g: Guarded, now: int)
    requires g.spec.Interval? ==> g.spec.every > 0
    requires g.nextSet && g.spec.Clock? ==> Match(g.spec, g.next)
    ensures var (h, plan) := PlanNextSection(g, now);
      && (plan.Fire? ==> plan.at > now && h.nextSet && h.next == plan.at && Match(h.spec, plan.at))
      && (plan.NoFiring? ==> !h.nextSet && h.spec.Clock? && NextFiring(h.spec, now).None?)
      && h.spec == g.spec
  {
    hide NextFiring;
    NextFiringIsLater(g.spec, now);
    NextFiringCases(g.spec, now);
  }

  class Scheduler {
    var spec: Spec
    var running: bool
    var stopped: bool
    var stopCh: Option<nat>
    var done: Option<nat>
    var replan: Option<nat>
    var next: int
    var nextSet: bool
    var runs: nat
    var skipped: nat

    ghost function View(): Guarded
      reads this
    {
      Guarded(spec, running, stopped, stopCh, done, replan, next, nextSet, runs, skipped)
    }

    constructor (spec: Spec)
      ensures View() == New(spec)
    {
      this.spec := spec;
      running, stopped := false, false;
      stopCh, done, replan := None, None, None;
      next, nextSet := 0, false;
      runs, skipped := 0, 0;
    }

    /** Next, as the status page reads it. */
    method Next() returns (at: Option<int>)
      ensures at.Some? <==> !stopped && nextSet
      ensures at.Some? ==> at.value == next
    {
      if stopped || !nextSet {
        return None;
      }
      return Some(next);
    }

    method StartLocked(id: nat) returns (first: bool)
      modifies this
      ensures View() == StartSection(old(View()), id) && first == old(View()).stopCh.None?
    {
      if stopCh.Some? {
        return false;
      }
      stopCh := Some(id);
      done := Some(id + 1);
      replan := Some(id + 2);
      return true;
    }

    method SetSpecLocked(spec: Spec) returns (live: bool)
      modifies this
      ensures View() == SetSpecSection(old(View()), spec) && live == Live(old(View()))
      ensures this.spec == spec && (live <==> stopCh.Some? && !stopped)
      ensures nextSet <==> old(nextSet) && !live
    {
      if stopCh.None? || stopped {
        this.spec := spec;
        return false;
      }
      this.spec := spec;
      nextSet := false;
      return true;
    }

    /** wakeLoop's section; the caller closes what it returns. */
    method SwapReplan(id: nat) returns (stale: Option<nat>)
      modifies this
      ensures View() == old(View()).(replan := Some(id)) && stale == old(View()).replan
    {
      stale := replan;
      replan := Some(id);
    }

    /** Stop's section; on success the caller closes stopCh and waits for done. */
    method StopLocked() returns (first: bool)
      modifies this
      ensures first == Live(old(View()))
      ensures View() == if first then old(View()).(stopped := true) else old(View())
    {
      if stopCh.None? || stopped {
        return false;
      }
      stopped := true;
      return true;
    }

    method PlanNext(now: int) returns (plan: Plan)
      modifies this
      ensures (View(), plan) == PlanNextSection(old(View()), now)
    {
      if stopped {
        return WantStop;
      }
      if nextSet && next > now {
        return Fire(next);
      }
      var fire := NextAfter(spec, now);
      if fire.None? {
        nextSet := false;
        return NoFiring;
      }
      next := fire.value;
      nextSet := true;
      return Fire(fire.value);
    }

    method Advance(fire: int)
      modifies this
      ensures View() == AdvanceSection(old(View()), fire)
    {
      var nx := NextAfter(spec, fire);
      if nx.Some? {
        next := nx.value;
        nextSet := true;
      }
    }

    method Claim() returns (ok: bool)
      modifies this
      ensures View() == ClaimSection(old(View())) && ok == ClaimSucceeds(old(View()))
      ensures ok <==> !old(running) && !stopped
      ensures running <==> old(running) || ok
    {
      if running || stopped {
        return false;
      }
      running := true;
      return true;
    }

    method Skip()
      modifies this
      ensures View() == old(View()).(skipped := old(View()).skipped + 1)
    {
      skipped := skipped + 1;
    }

    method Finish(elapsed: int)
      modifies this
      ensures View() == FinishSection(old(View()), elapsed)
    {
      var missed: nat := 0;
      if spec.Interval? && spec.every > 0 && elapsed > spec.every {
        missed := elapsed / spec.every;
      }
      running := false;
      runs := runs + 1;
      skipped := skipped + missed;
    }
  }
}
