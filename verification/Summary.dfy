// The three figures a run record carries.

module Summary {
  import opened Options
  import opened Ranking
  import opened Download

  /** Rounding to three digits: the absolute value is scaled and truncated half up. */
  function Round3(v: real): (r: real)
    ensures v >= 0.0 ==> r >= 0.0 && -0.0005 < r - v <= 0.0005
    ensures r * 1000.0 == (r * 1000.0).Floor as real
  {
    var a := if v < 0.0 then -v else v;
    (a * 1000.0 + 0.5).Floor as real / 1000.0
  }

  /** The same to two digits. */
  function Round2(v: real): (r: real)
    ensures v >= 0.0 ==> r >= 0.0 && -0.005 < r - v <= 0.005
    ensures r * 100.0 == (r * 100.0).Floor as real
  {
    var a := if v < 0.0 then -v else v;
    (a * 100.0 + 0.5).Floor as real / 100.0
  }

  lemma Round3Monotone(a: real, b: real)
    requires 0.0 <= a <= b
    ensures Round3(a) <= Round3(b)
  {
    FloorMonotone(a * 1000.0 + 0.5, b * 1000.0 + 0.5);
    Thousandths((a * 1000.0 + 0.5).Floor, (b * 1000.0 + 0.5).Floor);
  }

  lemma FloorMonotone(x: real, y: real)
    requires x <= y
    ensures x.Floor <= y.Floor
  {
  }

  lemma Thousandths(m: int, n: int)
    requires m <= n
    ensures m as real / 1000.0 <= n as real / 1000.0
  {
  }

  /** The measured values of the successful results, in order. */
  function Measured(results: seq<SpeedResult>, value: SpeedResult -> Option<real>): seq<real> {
    if results == [] then []
    else
      var r := results[|results| - 1];
      Measured(results[..|results| - 1], value)
      + if !Failed(r) && value(r).Some? then [value(r).value] else []
  }

  function Total(s: seq<real>): real {
    if s == [] then 0.0 else Total(s[..|s| - 1]) + s[|s| - 1]
  }

  function Highest(s: seq<real>): (m: real)
    ensures m >= 0.0 && forall i :: 0 <= i < |s| ==> s[i] <= m
    ensures m == 0.0 || m in s
  {
    if s == [] then 0.0
    else
      var m := Highest(s[..|s| - 1]);
      assert forall i :: 0 <= i < |s| - 1 ==> s[i] == s[..|s| - 1][i];
      if s[|s| - 1] > m then s[|s| - 1] else m
  }

  const SPEED: SpeedResult -> Option<real> := (r: SpeedResult) => r.downloadMbps
  const PEAK: SpeedResult -> Option<real> := (r: SpeedResult) => r.peakMbps
  const PING: SpeedResult -> Option<real> := (r: SpeedResult) => r.pingMs

  function Mean(s: seq<real>): real {
    if s == [] then 0.0 else Total(s) / |s| as real
  }

  lemma MeasuredStep(results: seq<SpeedResult>, i: nat, value: SpeedResult -> Option<real>)
    requires i < |results|
    ensures var before, after := Measured(results[..i], value), Measured(results[..i + 1], value);
      if !Failed(results[i]) && value(results[i]).Some?
      then after == before + [value(results[i]).value] && Total(after) == Total(before) + value(results[i]).value
           && Highest(after) == (if value(results[i]).value > Highest(before) then value(results[i]).value else Highest(before))
      else after == before
  {
    assert results[..i + 1][..i] == results[..i];
    if !Failed(results[i]) && value(results[i]).Some? {
      var before := Measured(results[..i], value);
      assert (before + [value(results[i]).value])[..|before|] == before;
    }
  }

  /** What is measured, result by result: a success that has the figure counts once, and nothing else does. */
  lemma MeasuredOne(r: SpeedResult)
    ensures Measured([r], SPEED) == if r.error == "" && r.downloadMbps.Some? then [r.downloadMbps.value] else []
    ensures Measured([r], PEAK) == if r.error == "" && r.peakMbps.Some? then [r.peakMbps.value] else []
    ensures Measured([r], PING) == if r.error == "" && r.pingMs.Some? then [r.pingMs.value] else []
  {
    assert [r][..0] == [];
  }

  lemma {:induction false} MeasuredConcat(a: seq<SpeedResult>, b: seq<SpeedResult>, value: SpeedResult -> Option<real>)
    ensures Measured(a + b, value) == Measured(a, value) + Measured(b, value)
  {
    if b == [] {
      assert a + b == a;
    } else {
      var n := |b| - 1;
      MeasuredConcat(a, b[..n], value);
      assert (a + b)[..|a + b| - 1] == a + b[..n] && (a + b)[|a + b| - 1] == b[n];
    }
  }

  lemma {:induction false} TotalConcat(a: seq<real>, b: seq<real>)
    ensures Total(a + b) == Total(a) + Total(b)
  {
    if b == [] {
      assert a + b == a;
    } else {
      TotalConcat(a, b[..|b| - 1]);
      assert (a + b)[..|a + b| - 1] == a + b[..|b| - 1];
    }
  }

  /** The mean times the count is the sum, and the sum adds up what is measured. */
  lemma MeanIsMean(s: seq<real>, x: real)
    ensures Total([x]) == x && Total([]) == 0.0
    ensures s == [] ==> Mean(s) == 0.0
    ensures s != [] ==> Mean(s) * |s| as real == Total(s)
  {
    assert [x][..0] == [];
    if s != [] {
      Undo(Total(s), |s| as real);
    }
  }

  lemma Undo(x: real, n: real)
    requires n > 0.0
    ensures x / n * n == x
  {
  }

  /** summarise: means over what was measured, and the highest peak; failed results do not count. */
  method Summarise(results: seq<SpeedResult>) returns (avg: real, max: real, avgPing: real)
    ensures avg == Round3(Mean(Measured(results, SPEED)))
    ensures max == Round3(Highest(Measured(results, PEAK)))
    ensures avgPing == Round2(Mean(Measured(results, PING)))
  {
    hide Measured, Total, Highest, Round3, Round2;
    var speedSum, pingSum := 0.0, 0.0;
    var speedN, pingN := 0, 0;
    max := 0.0;
    MeasuredNone();
    for i := 0 to |results|
      invariant speedSum == Total(Measured(results[..i], SPEED)) && speedN == |Measured(results[..i], SPEED)|
      invariant max == Highest(Measured(results[..i], PEAK))
      invariant pingSum == Total(Measured(results[..i], PING)) && pingN == |Measured(results[..i], PING)|
    {
      var r := results[i];
      MeasuredStep(results, i, SPEED);
      MeasuredStep(results, i, PEAK);
      MeasuredStep(results, i, PING);
      if r.error != "" {
        continue;
      }
      if r.downloadMbps.Some? {
        speedSum := speedSum + r.downloadMbps.value;
        speedN := speedN + 1;
      }
      if r.peakMbps.Some? && r.peakMbps.value > max {
        max := r.peakMbps.value;
      }
      if r.pingMs.Some? {
        pingSum := pingSum + r.pingMs.value;
        pingN := pingN + 1;
      }
    }
    assert results[..|results|] == results;
    RoundZero();
    avg := if speedN > 0 then Round3(speedSum / speedN as real) else 0.0;
    avgPing := if pingN > 0 then Round2(pingSum / pingN as real) else 0.0;
    max := Round3(max);
  }

  lemma MeasuredNone()
    ensures forall value: SpeedResult -> Option<real> :: Measured([], value) == []
    ensures Total([]) == 0.0 && Highest([]) == 0.0
  {
  }

  lemma RoundZero()
    ensures Round3(0.0) == 0.0 && Round2(0.0) == 0.0
  {
  }

  /** Every successful result with a speed has a peak at least as high, as the download reports it. */
  ghost predicate PeaksBoundSpeeds(results: seq<SpeedResult>) {
    forall i | 0 <= i < |results| && !Failed(results[i]) && results[i].downloadMbps.Some? ::
      0.0 <= results[i].downloadMbps.value && results[i].peakMbps.Some?
      && results[i].downloadMbps.value <= results[i].peakMbps.value
  }

  lemma {:induction false} SpeedsBelowHighest(results: seq<SpeedResult>)
    requires PeaksBoundSpeeds(results)
    ensures forall i :: 0 <= i < |Measured(results, SPEED)| ==>
              0.0 <= Measured(results, SPEED)[i] <= Highest(Measured(results, PEAK))
  {
    if results != [] {
      var n := |results| - 1;
      SpeedsBelowHighest(results[..n]);
      assert results[..n + 1] == results;
      MeasuredStep(results, n, SPEED);
      MeasuredStep(results, n, PEAK);
    }
  }

  lemma {:induction false} TotalBound(s: seq<real>, m: real)
    requires forall i :: 0 <= i < |s| ==> 0.0 <= s[i] <= m
    ensures 0.0 <= Total(s) <= m * |s| as real
  {
    if s != [] {
      TotalBound(s[..|s| - 1], m);
      assert m * |s| as real == m * (|s| - 1) as real + m;
    }
  }

  lemma MeanBound(s: seq<real>, m: real)
    requires m >= 0.0 && forall i :: 0 <= i < |s| ==> 0.0 <= s[i] <= m
    ensures 0.0 <= Mean(s) <= m
  {
    TotalBound(s, m);
    if s != [] {
      Divide(Total(s), |s| as real, m);
    }
  }

  lemma Divide(x: real, n: real, m: real)
    requires n > 0.0 && 0.0 <= x <= m * n
    ensures 0.0 <= x / n <= m
  {
  }

  /** Every run record built from such results has an average no higher than its maximum, rounding
      included. */
  lemma AverageBelowMaximum(results: seq<SpeedResult>)
    requires PeaksBoundSpeeds(results)
    ensures Round3(Mean(Measured(results, SPEED))) <= Round3(Highest(Measured(results, PEAK)))
  {
    SpeedsBelowHighest(results);
    MeanBound(Measured(results, SPEED), Highest(Measured(results, PEAK)));
    Round3Monotone(Mean(Measured(results, SPEED)), Highest(Measured(results, PEAK)));
  }

  /** A result as the peer test builds it: failed, or carrying the figures of a finished download. */
  ghost predicate FromDownload(r: SpeedResult) {
    Failed(r) || exists bytes: nat, duration: real, peak: real :: bytes > 0 && Carries(r, bytes, duration, peak)
  }

  ghost predicate Carries(r: SpeedResult, bytes: nat, duration: real, peak: real)
    requires bytes > 0
  {
    var f := Finish(bytes, duration, peak);
    r.downloadMbps == Some(f.avgMbps) && r.peakMbps == Some(f.peakMbps)
  }

  /** So every record of a run has AvgMbps <= MaxMbps. */
  lemma RecordsAreConsistent(results: seq<SpeedResult>)
    requires forall r | r in results :: FromDownload(r)
    ensures Round3(Mean(Measured(results, SPEED))) <= Round3(Highest(Measured(results, PEAK)))
  {
    forall i | 0 <= i < |results| && !Failed(results[i])
      ensures results[i].downloadMbps.Some? && results[i].peakMbps.Some?
      ensures 0.0 <= results[i].downloadMbps.value <= results[i].peakMbps.value
    {
      assert results[i] in results;
      var bytes: nat, duration: real, peak: real :| bytes > 0 && Carries(results[i], bytes, duration, peak);
      AverageIsNonNegative(bytes, duration, peak);
    }
    AverageBelowMaximum(results);
  }

  lemma AverageIsNonNegative(bytes: nat, duration: real, peak: real)
    requires bytes > 0
    ensures Finish(bytes, duration, peak).avgMbps >= 0.0
  {
  }
}
