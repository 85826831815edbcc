/**
 * The performance monitor: operation counters, bounded histories of durations that drop
 * their oldest entry once full (a `deque` with a maximum length), averages that are 0.0 on
 * an empty history, and four ordered grades bucketed from an average.
 */
module Performance {
  import opened Wrappers

  /** The four grades, from best to worst. */
  datatype Grade = Excellent | Good | Fair | Poor
  {
    function Rank(): (r: nat)
      ensures r <= 3
    {
      match this
      case Excellent => 0
      case Good => 1
      case Fair => 2
      case Poor => 3
    }
  }

  /** The figures the stop report is built from (its text layout is not modelled). */
  datatype Report = Report(
    totalTime: real,
    snapshotCount: nat, touchCount: nat, errorCount: nat, warningCount: nat,
    averageSnapshotTime: real, averageTouchTime: real,
    snapshotGrade: Grade, touchGrade: Grade)

  /** The last `n` elements of `s` (all of them when there are fewer). */
  function LastN(s: seq<real>, n: nat): (r: seq<real>)
    ensures |r| == if |s| <= n then |s| else n
    ensures forall i :: 0 <= i < |r| ==> r[i] == s[|s| - |r| + i]
  {
    if |s| <= n then s else s[|s| - n..]
  }

  /** A deque with maximum length `n` after appending `x`. */
  function BoundedAppend(h: seq<real>, x: real, n: nat): (r: seq<real>)
    requires |h| <= n
    ensures |r| <= n
    ensures n > 0 ==> r != [] && r[|r| - 1] == x
    ensures |h| < n ==> r == h + [x]
    ensures |h| == n && n > 0 ==> r == h[1..] + [x]
  {
    LastN(h + [x], n)
  }

  /** Appending the values of `xs` one by one to a deque with maximum length `n`. */
  function AppendAll(h: seq<real>, xs: seq<real>, n: nat): (r: seq<real>)
    requires |h| <= n
    ensures |r| <= n
    decreases |xs|
  {
    if xs == [] then h else AppendAll(BoundedAppend(h, xs[0], n), xs[1..], n)
  }

  function Sum(s: seq<real>): real
  {
    if s == [] then 0.0 else Sum(s[..|s| - 1]) + s[|s| - 1]
  }

  /** `sum(h) / len(h)`, or 0.0 for an empty history. */
  function Average(s: seq<real>): (r: real)
    ensures s == [] ==> r == 0.0
    ensures s != [] ==> r * (|s| as real) == Sum(s)
  {
    if s == [] then 0.0 else Sum(s) / (|s| as real)
  }

  /** Touch bucketing: at most 0.1, 0.2 and 0.5 seconds, then worse. */
  function TouchGrade(average: real): (g: Grade)
    ensures g == Excellent <==> average <= 0.1
    ensures g == Good <==> 0.1 < average <= 0.2
    ensures g == Fair <==> 0.2 < average <= 0.5
    ensures g == Poor <==> average > 0.5
  {
    if average <= 0.1 then Excellent
    else if average <= 0.2 then Good
    else if average <= 0.5 then Fair
    else Poor
  }

  /** Snapshot bucketing: at most 0.5, 1.0 and 2.0 seconds, then worse. */
  function SnapshotGrade(average: real): (g: Grade)
    ensures g == Excellent <==> average <= 0.5
    ensures g == Good <==> 0.5 < average <= 1.0
    ensures g == Fair <==> 1.0 < average <= 2.0
    ensures g == Poor <==> average > 2.0
  {
    if average <= 0.5 then Excellent
    else if average <= 1.0 then Good
    else if average <= 2.0 then Fair
    else Poor
  }

  /** `not self.start_time`: never started, or started at time 0. */
  predicate Started(start: Option<real>)
  {
    start.Some? && start.value != 0.0
  }

  // ---- Properties ----

  /** The deque keeps exactly the last `n` values ever appended, oldest dropped first. */
  lemma {:induction false} AppendAllKeepsLast(h: seq<real>, xs: seq<real>, n: nat)
    requires |h| <= n
    ensures AppendAll(h, xs, n) == LastN(h + xs, n)
    decreases |xs|
  {
    if xs == [] {
      assert h + xs == h;
    } else {
      var h' := BoundedAppend(h, xs[0], n);
      calc {
        AppendAll(h, xs, n);
        AppendAll(h', xs[1..], n);
        { AppendAllKeepsLast(h', xs[1..], n); }
        LastN(LastN(h + [xs[0]], n) + xs[1..], n);
        { LastNConcat(h + [xs[0]], xs[1..], n); }
        LastN(h + [xs[0]] + xs[1..], n);
        { assert h + [xs[0]] + xs[1..] == h + xs; }
        LastN(h + xs, n);
      }
    }
  }

  /** Trimming a prefix first does not change the last `n` of a longer sequence. */
  lemma LastNConcat(s: seq<real>, t: seq<real>, n: nat)
    ensures LastN(LastN(s, n) + t, n) == LastN(s + t, n)
  {
    var a := LastN(LastN(s, n) + t, n);
    var b := LastN(s + t, n);
    assert |a| == |b|;
    forall i | 0 <= i < |a|
      ensures a[i] == b[i]
    {
      var u := LastN(s, n) + t;
      var k := |u| - |a| + i;
      if k >= |LastN(s, n)| {
        assert u[k] == t[k - |LastN(s, n)|];
      }
    }
  }

  /** Every element bounded below and above bounds the sum by the count. */
  lemma {:induction false} SumBounds(s: seq<real>, lo: real, hi: real)
    requires forall i :: 0 <= i < |s| ==> lo <= s[i] <= hi
    ensures (|s| as real) * lo <= Sum(s) <= (|s| as real) * hi
  {
    if s != [] {
      SumBounds(s[..|s| - 1], lo, hi);
    }
  }

  /** The average lies between any lower and upper bound of the recorded values. */
  lemma AverageBounds(s: seq<real>, lo: real, hi: real)
    requires s != []
    requires forall i :: 0 <= i < |s| ==> lo <= s[i] <= hi
    ensures lo <= Average(s) <= hi
  {
    SumBounds(s, lo, hi);
    var n := |s| as real;
    DivideBounds(Sum(s), n, lo, hi);
  }

  lemma DivideBounds(total: real, n: real, lo: real, hi: real)
    requires n > 0.0 && n * lo <= total <= n * hi
    ensures lo <= total / n <= hi
  {
    var q := total / n;
    assert q * n == total;
    assert (q - lo) * n == total - lo * n;
    assert (hi - q) * n == hi * n - total;
  }

  /** A larger average never gets a better touch grade. */
  lemma TouchGradeMonotone(a: real, b: real)
    requires a <= b
    ensures TouchGrade(a).Rank() <= TouchGrade(b).Rank()
  {
  }

  /** A larger average never gets a better snapshot grade. */
  lemma SnapshotGradeMonotone(a: real, b: real)
    requires a <= b
    ensures SnapshotGrade(a).Rank() <= SnapshotGrade(b).Rank()
  {
  }

  /** An empty history grades as the best in both buckets. */
  lemma EmptyHistoryIsExcellent()
    ensures TouchGrade(Average([])) == Excellent && SnapshotGrade(Average([])) == Excellent
  {
  }

  class PerformanceMonitor {
    const maxHistory: nat
    var startTime: Option<real>
    var snapshotTimes: seq<real>
    var touchTimes: seq<real>
    var snapshotCount: nat
    var touchCount: nat
    var errorCount: nat
    var warningCount: nat

    /** Each history fits its deque, and a count never falls behind its history. */
    ghost predicate Valid()
      reads this
    {
      && |snapshotTimes| <= maxHistory && |snapshotTimes| <= snapshotCount
      && |touchTimes| <= maxHistory && |touchTimes| <= touchCount
    }

    constructor (maxHistory: nat)
      ensures Valid()
      ensures this.maxHistory == maxHistory && startTime == None
      ensures snapshotTimes == [] && touchTimes == []
      ensures snapshotCount == 0 && touchCount == 0 && errorCount == 0 && warningCount == 0
    {
      this.maxHistory := maxHistory;
      startTime := None;
      snapshotTimes := [];
      touchTimes := [];
      snapshotCount := 0;
      touchCount := 0;
      errorCount := 0;
      warningCount := 0;
    }

    method StartMonitoring(now: real)
      modifies this
      ensures startTime == Some(now)
      ensures snapshotTimes == old(snapshotTimes) && touchTimes == old(touchTimes)
      ensures snapshotCount == old(snapshotCount) && touchCount == old(touchCount)
      ensures errorCount == old(errorCount) && warningCount == old(warningCount)
    {
      startTime := Some(now);
    }

    function AverageSnapshotTime(): (r: real)
      reads this
      ensures snapshotTimes == [] ==> r == 0.0
      ensures snapshotTimes != [] ==> r * (|snapshotTimes| as real) == Sum(snapshotTimes)
    {
      Average(snapshotTimes)
    }

    function AverageTouchTime(): (r: real)
      reads this
      ensures touchTimes == [] ==> r == 0.0
      ensures touchTimes != [] ==> r * (|touchTimes| as real) == Sum(touchTimes)
    {
      Average(touchTimes)
    }

    /** No report when monitoring was never started; otherwise the elapsed time, the
        counters, the averages and their grades. */
    method StopMonitoring(now: real) returns (report: Option<Report>)
      ensures report.None? <==> !Started(startTime)
      ensures report.Some? ==> report.value.totalTime == now - startTime.value
      ensures report.Some? ==>
        && report.value.touchCount == touchCount && report.value.errorCount == errorCount
        && report.value.snapshotCount == snapshotCount && report.value.warningCount == warningCount
      ensures report.Some? ==>
        && report.value.averageTouchTime == Average(touchTimes)
        && report.value.touchGrade == TouchGrade(Average(touchTimes))
        && report.value.averageSnapshotTime == Average(snapshotTimes)
        && report.value.snapshotGrade == SnapshotGrade(Average(snapshotTimes))
    {
      if startTime.None? || startTime.value == 0.0 {
        return None;
      }
      var totalTime := now - startTime.value;
      var avgSnapshot := AverageSnapshotTime();
      var avgTouch := AverageTouchTime();
      report := Some(Report(totalTime, snapshotCount, touchCount, errorCount, warningCount,
        avgSnapshot, avgTouch, SnapshotGrade(avgSnapshot), TouchGrade(avgTouch)));
    }

    method RecordSnapshot(duration: real)
      requires Valid()
      modifies this
      ensures Valid()
      ensures snapshotCount == old(snapshotCount) + 1
      ensures snapshotTimes == LastN(old(snapshotTimes) + [duration], maxHistory)
      ensures touchTimes == old(touchTimes) && touchCount == old(touchCount)
      ensures errorCount == old(errorCount) && warningCount == old(warningCount)
      ensures startTime == old(startTime)
    {
      snapshotCount := snapshotCount + 1;
      snapshotTimes := BoundedAppend(snapshotTimes, duration, maxHistory);
    }

    method RecordTouch(duration: real)
      requires Valid()
      modifies this
      ensures Valid()
      ensures touchCount == old(touchCount) + 1
      ensures touchTimes == LastN(old(touchTimes) + [duration], maxHistory)
      ensures snapshotTimes == old(snapshotTimes) && snapshotCount == old(snapshotCount)
      ensures errorCount == old(errorCount) && warningCount == old(warningCount)
      ensures startTime == old(startTime)
    {
      touchCount := touchCount + 1;
      touchTimes := BoundedAppend(touchTimes, duration, maxHistory);
    }

    method RecordError(errorType: string, message: string)
      modifies this
      ensures errorCount == old(errorCount) + 1
      ensures warningCount == old(warningCount)
      ensures snapshotTimes == old(snapshotTimes) && touchTimes == old(touchTimes)
      ensures snapshotCount == old(snapshotCount) && touchCount == old(touchCount)
      ensures startTime == old(startTime)
    {
      errorCount := errorCount + 1;
    }

    method RecordWarning(warningType: string, message: string)
      modifies this
      ensures warningCount == old(warningCount) + 1
      ensures errorCount == old(errorCount)
      ensures snapshotTimes == old(snapshotTimes) && touchTimes == old(touchTimes)
      ensures snapshotCount == old(snapshotCount) && touchCount == old(touchCount)
      ensures startTime == old(startTime)
    {
      warningCount := warningCount + 1;
    }
  }
}
