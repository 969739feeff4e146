/**
 * Whole runs driven through the run context, the action handler, the
 * outcome queue and the aggregator, as the pre-spawn hook and the watcher
 * drive them: the clock readings are in nanoseconds.
 */
module Scenarios {
  import opened Wrappers
  import opened Events
  import Strings
  import F = Filters
  import W = Watcher
  import R = Reporter

  function Completion(end: F.ProcessEnd): F.Event {
    F.Event([F.ProcessCompletion(Some(end))])
  }

  const Ms: nat := NanosPerMilli

  /** Build passes after 200 ms, test after 300 ms more: one `Success` for run 1, and a pass ratio of 100. */
  method BuildAndTestPass()
  {
    var tx := new Channel();
    var config := W.Config("/src", "", "make -j4", "make test", Some(0));
    var context := new W.Context(config, tx);
    assert context.stepsLimit == 2;

    context.StartStep(0);
    var outcome, ok := W.OnUpdate(context, [Completion(F.Success)], config.delay, 200 * Ms);
    assert ok && outcome == None && tx.queue == [];
    assert context.steps == [StepData(true, 0, 200 * Ms, "Build")];

    context.StartStep(200 * Ms);
    var build := StepData(true, 0, 200 * Ms, "Build");
    var test := StepData(true, 200 * Ms, 500 * Ms, "Test");
    assert context.State() == W.RunState([build, StepData(false, 200 * Ms, 200 * Ms, "Test")], 1, 1, 2);
    assert W.Stamp(context.steps, 1, true, 500 * Ms) == [build, test];
    outcome, ok := W.OnUpdate(context, [Completion(F.Success)], config.delay, 500 * Ms);
    assert ok && tx.queue == [Success(1, [build, test])];
    assert context.steps == [] && context.stepsFinished == 0 && context.taskNum == 1;
  }

  /** The aggregator receiving that run: pass ratio 100, and the averages are the step lengths. */
  method ReportPassingRun()
  {
    var build := StepData(true, 0, 200 * Ms, "Build");
    var test := StepData(true, 200 * Ms, 500 * Ms, "Test");
    var reporter := new R.Context();
    var report, _ := reporter.ProcessEvent(Success(1, [build, test]));
    assert reporter.passTotal == 1 && reporter.failTotal == 0;
    assert reporter.GetRatio() == 100;
    assert R.Accumulate(map[], [build]) == map["Build" := 200 * Ms];
    assert [build, test][..1] == [build];
    assert reporter.history == map["Build" := 200 * Ms, "Test" := 300 * Ms];
    assert reporter.GetDurationAvg("Build") == Some(200 * Ms);
    assert report.steps[0].averageMs == 200 && report.steps[0].deltaMs == 0;
    assert report.ratio == R.Green(100) && report.runs == 1;
  }

  /** The notification for that run: its id, "done", and the whole seconds of 500 ms. */
  method NotifyPassingRun()
  {
    var build := StepData(true, 0, 200 * Ms, "Build");
    var test := StepData(true, 200 * Ms, 500 * Ms, "Test");
    var note := R.ShowNotification(Success(1, [build, test]));
    assert [build, test][..1] == [build] && [build][..0] == [];
    assert R.SumDurations([build]) == 200 * Ms;
    assert R.SumDurations([build, test]) == 500 * Ms;
    assert AsSecs(500 * Ms) == 0;
    assert Strings.Decimal(1) == "1" && Strings.Decimal(0) == "0";
    assert note.body == "Build " + "1" + " " + "done" + " after " + "0" + " sec.";
    assert note.icon == "emblem-checked" && note.summary == "CppWatch";
  }

  /** Build passes, test exits with 1: one `Fail` with the test step failed, and no history from it. */
  method TestFailsRun()
  {
    var tx := new Channel();
    var config := W.Config("/src", "", "make -j4", "make test", None);
    var context := new W.Context(config, tx);

    context.StartStep(0);
    var outcome, ok := W.OnUpdate(context, [Completion(F.Success)], config.delay, 200 * Ms);
    context.StartStep(200 * Ms);
    var build := StepData(true, 0, 200 * Ms, "Build");
    var test := StepData(false, 200 * Ms, 500 * Ms, "Test");
    assert context.State() == W.RunState([build, StepData(false, 200 * Ms, 200 * Ms, "Test")], 1, 1, 2);
    assert W.Stamp(context.steps, 1, false, 500 * Ms) == [build, test];
    outcome, ok := W.OnUpdate(context, [Completion(F.ExitError(1))], config.delay, 500 * Ms);
    assert outcome == Some(W.Stop);
    assert ok && tx.queue == [Fail(1, [build, test])];
    assert context.steps == [] && context.stepsFinished == 0;

    var reporter := new R.Context();
    var received := tx.Recv();
    reporter.Update(received.value);
    assert reporter.passTotal == 0 && reporter.failTotal == 1;
    assert reporter.GetRatio() == 0;
    assert reporter.history == map[];
  }

  /** A source change while a run is in flight: the restart is conditional on nothing running, and the step is untouched. */
  method ChangeDuringRunIsCoalesced()
  {
    var tx := new Channel();
    var config := W.Config("/src", "", "make -j4", "make test", None);
    var context := new W.Context(config, tx);
    context.StartStep(0);
    ghost var before := context.State();
    var change := F.Event([F.FileEventKind(F.Modify(F.Data)), F.Path(F.Utf8("/src/main.cpp"))]);
    var outcome, ok := W.OnUpdate(context, [change], config.delay, 50 * Ms);
    assert outcome == Some(W.IfRunning(W.DoNothing, W.Sequence([W.Clear, W.Start])));
    assert context.State() == before && tx.queue == [];
  }

  /** The queue hands outcomes over in the order they were sent, and refuses a 17th. */
  method ChannelOrder(a: ExecutorEvent, b: ExecutorEvent)
  {
    var ch := new Channel();
    var ok := ch.TrySend(a);
    assert ok;
    ok := ch.TrySend(b);
    assert ok;
    var r := ch.Recv();
    assert r == Some(a);
    r := ch.Recv();
    assert r == Some(b);
    r := ch.Recv();
    assert r == None;
    var i := 0;
    while i < ChannelCapacity
      invariant 0 <= i <= ChannelCapacity
      invariant ch.Valid() && |ch.queue| == i
    {
      ok := ch.TrySend(a);
      i := i + 1;
    }
    ok := ch.TrySend(b);
    assert !ok && |ch.queue| == ChannelCapacity;
  }
}
