/**
 * The reporting aggregator: pass and fail counters, the cumulative duration
 * of each step name over passing runs, and the values the report and the
 * desktop notification show.
 */
module Reporter {
  import opened Wrappers
  import opened Strings
  import opened Events

  const AppName: string := "CppWatch"
  const ShowTimeoutMs: nat := 3000

  /** Step name to the total duration of that step over all passing runs. */
  type History = map<string, Duration>

  function TotalFor(h: History, name: string): Duration {
    if name in h then h[name] else 0
  }

  /** One step's contribution: its entry grows by its duration, or is created with it. */
  function AddStep(h: History, step: StepData): History {
    h[step.name := TotalFor(h, step.name) + step.GetDuration()]
  }

  /** The history after adding the steps of one run, in order; no entry is ever removed. */
  function Accumulate(h: History, steps: seq<StepData>): (r: History)
    ensures h.Keys <= r.Keys
    decreases |steps|
  {
    if |steps| == 0 then h
    else AddStep(Accumulate(h, steps[..|steps| - 1]), steps[|steps| - 1])
  }

  /** The total duration of the steps called `name`. */
  function SumNamed(steps: seq<StepData>, name: string): Duration
    decreases |steps|
  {
    if |steps| == 0 then 0
    else
      var last := steps[|steps| - 1];
      SumNamed(steps[..|steps| - 1], name) + (if last.name == name then last.GetDuration() else 0)
  }

  /** The total duration of all the steps. */
  function SumDurations(steps: seq<StepData>): Duration
    decreases |steps|
  {
    if |steps| == 0 then 0 else SumDurations(steps[..|steps| - 1]) + steps[|steps| - 1].GetDuration()
  }

  /**
   * Adding a run's steps creates entries exactly for the names that occur in
   * it, and each entry grows by the durations of the steps of that name.
   */
  lemma {:induction false} AccumulateTotals(h: History, steps: seq<StepData>, name: string)
    ensures name in Accumulate(h, steps) <==> name in h || exists i :: 0 <= i < |steps| && steps[i].name == name
    ensures TotalFor(Accumulate(h, steps), name) == TotalFor(h, name) + SumNamed(steps, name)
    decreases |steps|
  {
    if |steps| > 0 {
      var n := |steps| - 1;
      AccumulateTotals(h, steps[..n], name);
      assert forall i :: 0 <= i < n ==> steps[..n][i] == steps[i];
    }
  }

  /** `max(1, n)`: the divisor that keeps an empty count from dividing by zero. */
  function MaxOne(n: nat): (m: nat)
    ensures m >= 1 && m >= n && (n >= 1 ==> m == n)
  {
    if n == 0 then 1 else n
  }

  function StatusAsStr(status: bool): (txt: string)
    ensures txt == "done" <==> status
    ensures txt == "failed" <==> !status
  {
    if status then "done" else "failed"
  }

  function GetIconName(status: bool): (icon: string)
    ensures icon == "emblem-checked" <==> status
    ensures icon == "emblem-error" <==> !status
  {
    if status then "emblem-checked" else "emblem-error"
  }

  /** The status text and the icon each tell the two outcomes apart. */
  lemma StatusTextsDistinct()
    ensures StatusAsStr(true) == "done" && StatusAsStr(false) == "failed"
    ensures GetIconName(true) == "emblem-checked" && GetIconName(false) == "emblem-error"
    ensures StatusAsStr(true) != StatusAsStr(false) && GetIconName(true) != GetIconName(false)
  {
  }

  /** The colour band the pass ratio is shown in, carrying the number shown. */
  datatype RatioColor = Red(ratio: nat) | Yellow(ratio: nat) | Green(ratio: nat) | Invalid

  function RatioToColor(ratio: nat): (c: RatioColor)
    ensures c.Red? <==> ratio < 50
    ensures c.Yellow? <==> 50 <= ratio < 80
    ensures c.Green? <==> 80 <= ratio <= 100
    ensures c.Invalid? <==> ratio > 100
    ensures !c.Invalid? ==> c.ratio == ratio
  {
    if ratio <= 49 then Red(ratio)
    else if ratio <= 79 then Yellow(ratio)
    else if ratio <= 100 then Green(ratio)
    else Invalid
  }

  /**
   * The signed difference of two durations in whole milliseconds: positive
   * when `current` is longer by at least a millisecond, and its size the
   * difference with the sub-millisecond part dropped.
   */
  function DurationDiffAsMillis(current: Duration, expected: Duration): (r: int)
    ensures current > expected ==> r >= 0
    ensures current <= expected ==> r <= 0
    ensures r > 0 <==> current >= expected + NanosPerMilli
    ensures (if r >= 0 then r else -r) == AsMillis(if current > expected then current - expected else expected - current)
  {
    if current > expected then AsMillis(current - expected) else -(AsMillis(expected - current) as int)
  }

  /** The delta added to the average gives the duration back to within a millisecond. */
  lemma DiffRecoversDuration(current: Duration, expected: Duration)
    ensures var r := DurationDiffAsMillis(current, expected);
      var back := expected + r * NanosPerMilli;
      (if current >= back then current - back else back - current) < NanosPerMilli
  {
    var r := DurationDiffAsMillis(current, expected);
    if current > expected {
      var d := current - expected;
      assert d == (d / NanosPerMilli) * NanosPerMilli + d % NanosPerMilli;
      assert r * NanosPerMilli == (d / NanosPerMilli) * NanosPerMilli;
    } else {
      var d := expected - current;
      assert d == (d / NanosPerMilli) * NanosPerMilli + d % NanosPerMilli;
      assert r * NanosPerMilli == -((d / NanosPerMilli) * NanosPerMilli);
    }
  }

  /** The values a per-step report line shows, in milliseconds. */
  datatype StepReport = StepReport(name: string, durationMs: nat, averageMs: nat, deltaMs: int)

  /**
   * The values the terminal report of one outcome shows: the run id, one line
   * per step, the pass ratio in its colour band with passes over all runs,
   * and the status text.
   */
  datatype Report = Report(id: nat, steps: seq<StepReport>, ratio: RatioColor, passes: nat, runs: nat, status: string)

  /** The desktop notification's content. */
  datatype Notification = Notification(summary: string, icon: string, body: string, timeoutMs: nat)

  /**
   * The notification for a finalised run: the run id, its status, and the
   * whole seconds of all its steps' durations added up.
   */
  method ShowNotification(event: ExecutorEvent) returns (n: Notification)
    ensures n.summary == AppName && n.icon == GetIconName(event.Success?) && n.timeoutMs == ShowTimeoutMs
    ensures n.body == "Build " + Decimal(event.id) + " " + StatusAsStr(event.Success?)
                      + " after " + Decimal(AsSecs(SumDurations(event.steps))) + " sec."
  {
    var success := event.Success?;
    var steps := event.steps;
    var totalDur: Duration := 0;
    var i := 0;
    while i < |steps|
      invariant 0 <= i <= |steps|
      invariant totalDur == SumDurations(steps[..i])
    {
      assert steps[..i + 1][..i] == steps[..i];
      totalDur := totalDur + steps[i].GetDuration();
      i := i + 1;
    }
    assert steps[..|steps|] == steps;
    var txt := "Build " + Decimal(event.id) + " " + StatusAsStr(success) + " after " + Decimal(AsSecs(totalDur)) + " sec.";
    n := Notification(AppName, GetIconName(success), txt, ShowTimeoutMs);
  }

  /** The aggregator's state, owned by the reporting task. */
  class Context {
    var passTotal: nat
    var failTotal: nat
    var history: History

    constructor ()
      ensures passTotal == 0 && failTotal == 0 && history == map[]
    {
      passTotal := 0;
      failTotal := 0;
      history := map[];
    }

    /** Counts the outcome; a passing run also adds its steps' durations to the history. */
    method Update(event: ExecutorEvent)
      modifies this
      ensures passTotal == old(passTotal) + (if event.Success? then 1 else 0)
      ensures failTotal == old(failTotal) + (if event.Fail? then 1 else 0)
      ensures history == if event.Success? then Accumulate(old(history), event.steps) else old(history)
    {
      var success := event.Success?;
      var steps := event.steps;
      passTotal := passTotal + (if success then 1 else 0);
      failTotal := failTotal + (if success then 0 else 1);
      if success {
        var i := 0;
        while i < |steps|
          invariant 0 <= i <= |steps|
          invariant history == Accumulate(old(history), steps[..i])
          invariant passTotal == old(passTotal) + 1 && failTotal == old(failTotal)
        {
          var step := steps[i];
          var duration := step.GetDuration();
          if step.name in history {
            history := history[step.name := history[step.name] + duration];
          } else {
            history := history[step.name := duration];
          }
          assert steps[..i + 1][..i] == steps[..i];
          i := i + 1;
        }
        assert steps[..|steps|] == steps;
      }
    }

    /**
     * The average duration of a step over all passing runs, in whole
     * milliseconds: absent for a name never seen in a passing run, otherwise
     * the floor of the truncated total over the number of passes (at least 1).
     */
    function GetDurationAvg(name: string): (r: Option<Duration>)
      reads this
      ensures r.None? <==> name !in history
      ensures r.Some? ==>
        && r.value % NanosPerMilli == 0
        && var ms := r.value / NanosPerMilli;
           ms * MaxOne(passTotal) <= AsMillis(history[name]) < (ms + 1) * MaxOne(passTotal)
      ensures r.Some? && passTotal <= 1 ==> r.value == AsMillis(history[name]) * NanosPerMilli
    {
      var total := MaxOne(passTotal);
      if name in history then
        var ms := AsMillis(history[name]) / total;
        assert AsMillis(history[name]) == ms * total + AsMillis(history[name]) % total;
        Some(ms * NanosPerMilli)
      else None
    }

    /**
     * The pass ratio in whole percent: the floor of 100 times the passes over
     * the runs, 0 before any run, never above 100 (so never shown as invalid).
     */
    function GetRatio(): (r: nat)
      reads this
      ensures r <= 100 && !RatioToColor(r).Invalid?
      ensures passTotal + failTotal == 0 ==> r == 0
      ensures r * MaxOne(passTotal + failTotal) <= passTotal * 100 < (r + 1) * MaxOne(passTotal + failTotal)
    {
      var total := MaxOne(passTotal + failTotal);
      var r := passTotal * 100 / total;
      assert passTotal * 100 == r * total + (passTotal * 100) % total;
      assert r * total <= 100 * total;
      r
    }

    /** The values the report shows for one step; a name with no history shows an average of 0. */
    function StepReportOf(step: StepData): (r: StepReport)
      reads this
      ensures r.name == step.name && r.durationMs == AsMillis(step.GetDuration())
      ensures step.name !in history ==> r.averageMs == 0
      ensures step.name in history ==> r.averageMs * NanosPerMilli == GetDurationAvg(step.name).value
      ensures r.deltaMs == DurationDiffAsMillis(step.GetDuration(), r.averageMs * NanosPerMilli)
    {
      var avg := match GetDurationAvg(step.name)
        case Some(d) => d
        case None => 0;
      var duration := step.GetDuration();
      StepReport(step.name, AsMillis(duration), AsMillis(avg), DurationDiffAsMillis(duration, avg))
    }

    /** The report of one outcome, read from the statistics as they stand. */
    method PrintReport(event: ExecutorEvent) returns (report: Report)
      ensures report.id == event.id && report.status == StatusAsStr(event.Success?)
      ensures |report.steps| == |event.steps|
      ensures forall i :: 0 <= i < |event.steps| ==> report.steps[i] == StepReportOf(event.steps[i])
      ensures report.ratio == RatioToColor(GetRatio()) && !report.ratio.Invalid?
      ensures report.passes == passTotal && report.runs == passTotal + failTotal
    {
      var lines: seq<StepReport> := [];
      var i := 0;
      while i < |event.steps|
        invariant 0 <= i <= |event.steps|
        invariant |lines| == i
        invariant forall j :: 0 <= j < i ==> lines[j] == StepReportOf(event.steps[j])
      {
        lines := lines + [StepReportOf(event.steps[i])];
        i := i + 1;
      }
      report := Report(event.id, lines, RatioToColor(GetRatio()), passTotal, passTotal + failTotal, StatusAsStr(event.Success?));
    }

    /**
     * One received outcome: update the statistics, then report and notify.
     * The report is read after the update, so a passing run's own steps are
     * already in the history its averages come from.
     */
    method ProcessEvent(event: ExecutorEvent) returns (report: Report, n: Notification)
      modifies this
      ensures passTotal == old(passTotal) + (if event.Success? then 1 else 0)
      ensures failTotal == old(failTotal) + (if event.Fail? then 1 else 0)
      ensures history == if event.Success? then Accumulate(old(history), event.steps) else old(history)
      ensures report.id == event.id && report.status == StatusAsStr(event.Success?)
      ensures |report.steps| == |event.steps|
      ensures forall i :: 0 <= i < |event.steps| ==> report.steps[i] == StepReportOf(event.steps[i])
      ensures report.ratio == RatioToColor(GetRatio()) && report.passes == passTotal && report.runs == passTotal + failTotal
      ensures event.Success? ==> forall i :: 0 <= i < |event.steps| ==> event.steps[i].name in history
      ensures n.summary == AppName && n.icon == GetIconName(event.Success?) && n.timeoutMs == ShowTimeoutMs
      ensures n.body == "Build " + Decimal(event.id) + " " + StatusAsStr(event.Success?)
                        + " after " + Decimal(AsSecs(SumDurations(event.steps))) + " sec."
    {
      var before := history;
      Update(event);
      if event.Success? {
        forall i | 0 <= i < |event.steps|
          ensures event.steps[i].name in history
        {
          AccumulateTotals(before, event.steps, event.steps[i].name);
        }
      }
      report := PrintReport(event);
      n := ShowNotification(event);
    }
  }

  lemma {:induction false} MulAtLeast(c: int, a: nat)
    requires c >= 1
    ensures c * a >= a
    decreases c
  {
    if c > 1 {
      MulAtLeast(c - 1, a);
      assert c * a == (c - 1) * a + a;
    }
  }

  /** Division is determined by quotient and remainder. */
  lemma DivUnique(x: nat, a: nat, k: nat, rest: nat)
    requires a > 0 && x == k * a + rest && rest < a
    ensures x / a == k
  {
    var q, r := x / a, x % a;
    assert q * a + r == k * a + rest;
    if q > k {
      MulAtLeast(q - k, a);
    } else if q < k {
      MulAtLeast(k - q, a);
    }
  }

  /**
   * Truncating a total to milliseconds and then dividing by the number of
   * passes is the floor of the total over that many milliseconds.
   */
  lemma AverageOverRuns(total: Duration, passes: nat)
    requires passes >= 1
    ensures AsMillis(total) / MaxOne(passes) == total / (NanosPerMilli * passes)
  {
    var m := NanosPerMilli;
    var q := total / (m * passes);
    var rest := total % (m * passes);
    assert total == q * (m * passes) + rest;
    var hi, lo := rest / m, rest % m;
    assert rest == hi * m + lo;
    assert total == (q * passes + hi) * m + lo;
    DivUnique(total, m, q * passes + hi, lo);
    assert hi < passes;
    DivUnique(AsMillis(total), passes, q, hi);
  }
}
