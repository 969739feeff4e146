/**
 * Properties of the run context's transitions, one call at a time and over
 * whole sequences of calls as the pre-spawn hook and the action handler make
 * them.
 */
module RunProperties {
  import opened Wrappers
  import opened Events
  import opened Watcher

  /** With no run in flight, a completion changes nothing and sends nothing. */
  lemma FinishWithoutRunIsIgnored(s: RunState, status: bool, now: Instant)
    requires s.steps == []
    ensures Finished(s, status, now) == Transition(s, None)
  {
  }

  /** A failing step finalises the run at once, with the failing step stamped, and empties the context; the run id stays. */
  lemma FailFinalisesRun(s: RunState, now: Instant)
    requires s.steps != []
    ensures var t := Finished(s, false, now);
      && t.sent.Some? && t.sent.value.Fail? && t.sent.value.id == s.taskNum
      && |t.sent.value.steps| == |s.steps|
      && (s.stepsFinished < |s.steps| ==>
            t.sent.value.steps[s.stepsFinished] == s.steps[s.stepsFinished].(stopAt := now, status := false))
      && (forall i :: 0 <= i < |s.steps| && i != s.stepsFinished ==> t.sent.value.steps[i] == s.steps[i])
      && t.state == RunState([], s.taskNum, 0, s.stepsLimit)
  {
  }

  /**
   * A passing step is stamped passed at `now` and counted. It finalises the
   * run as `Success` exactly when it is the last step; otherwise the stamped
   * steps stay in flight.
   */
  lemma SuccessFinalisesOnlyAtLimit(s: RunState, now: Instant)
    requires s.steps != []
    ensures var t := Finished(s, true, now);
      && (t.sent.Some? <==> s.stepsFinished + 1 == s.stepsLimit)
      && (t.sent.Some? ==> t.sent.value == Success(s.taskNum, Stamp(s.steps, s.stepsFinished, true, now))
                           && t.state == RunState([], s.taskNum, 0, s.stepsLimit))
      && (t.sent.None? ==> t.state.stepsFinished == s.stepsFinished + 1
                           && t.state.steps == Stamp(s.steps, s.stepsFinished, true, now)
                           && t.state.taskNum == s.taskNum)
      && |Stamp(s.steps, s.stepsFinished, true, now)| == |s.steps|
      && (s.stepsFinished < |s.steps| ==>
            Stamp(s.steps, s.stepsFinished, true, now)[s.stepsFinished] == s.steps[s.stepsFinished].(stopAt := now, status := true))
      && (forall i :: 0 <= i < |s.steps| && i != s.stepsFinished ==> Stamp(s.steps, s.stepsFinished, true, now)[i] == s.steps[i])
  {
  }

  /**
   * Build then test, both passing: the first completion sends nothing, the
   * second sends one `Success` with both steps, and the context is empty.
   */
  lemma BuildAndTestPass(id: nat, t0: Instant, t1: Instant, t2: Instant, t3: Instant)
    requires t0 <= t1 <= t2 <= t3
    ensures var s0 := RunState([], id, 0, 2);
      var f1 := Finished(Started(s0, t0), true, t1);
      var f2 := Finished(Started(f1.state, t2), true, t3);
      && f1.sent == None
      && f2.sent == Some(Success(id + 1, [StepData(true, t0, t1, "Build"), StepData(true, t2, t3, "Test")]))
      && f2.sent.value.steps[0].GetDuration() == t1 - t0
      && f2.sent.value.steps[1].GetDuration() == t3 - t2
      && f2.state == RunState([], id + 1, 0, 2)
  {
    var s1 := Started(RunState([], id, 0, 2), t0);
    assert s1 == RunState([StepData(false, t0, t0, "Build")], id + 1, 0, 2);
    var f1 := Finished(s1, true, t1);
    assert f1 == Transition(RunState([StepData(true, t0, t1, "Build")], id + 1, 1, 2), None);
    var s2 := Started(f1.state, t2);
    assert s2.steps == [StepData(true, t0, t1, "Build"), StepData(false, t2, t2, "Test")];
    assert Stamp(s2.steps, 1, true, t3) == [StepData(true, t0, t1, "Build"), StepData(true, t2, t3, "Test")];
  }

  /** Build passes, test fails: one `Fail` with both steps, the second marked failed, and no `Success`. */
  lemma TestFailureFailsRun(id: nat, t0: Instant, t1: Instant, t2: Instant, t3: Instant)
    ensures var s0 := RunState([], id, 0, 2);
      var f1 := Finished(Started(s0, t0), true, t1);
      var f2 := Finished(Started(f1.state, t2), false, t3);
      && f1.sent == None
      && f2.sent == Some(Fail(id + 1, [StepData(true, t0, t1, "Build"), StepData(false, t2, t3, "Test")]))
      && f2.state == RunState([], id + 1, 0, 2)
  {
    var s1 := Started(RunState([], id, 0, 2), t0);
    assert s1 == RunState([StepData(false, t0, t0, "Build")], id + 1, 0, 2);
    var f1 := Finished(s1, true, t1);
    assert f1 == Transition(RunState([StepData(true, t0, t1, "Build")], id + 1, 1, 2), None);
    var s2 := Started(f1.state, t2);
    assert s2.steps == [StepData(true, t0, t1, "Build"), StepData(false, t2, t2, "Test")];
    assert Stamp(s2.steps, 1, false, t3) == [StepData(true, t0, t1, "Build"), StepData(false, t2, t3, "Test")];
  }

  /** The calls the run context receives: a pre-spawn hook or a verdict, each with the clock reading. */
  datatype Call = StartCall(now: Instant) | FinishCall(status: bool, now: Instant)

  function Apply(s: RunState, call: Call): Transition {
    match call
    case StartCall(now) => Transition(Started(s, now), None)
    case FinishCall(status, now) => Finished(s, status, now)
  }

  /** The state after a sequence of calls, and the outcomes sent on the way, in order. */
  function Replay(s: RunState, calls: seq<Call>): (RunState, seq<ExecutorEvent>)
    decreases |calls|
  {
    if |calls| == 0 then (s, [])
    else
      var (mid, sent) := Replay(s, calls[..|calls| - 1]);
      var t := Apply(mid, calls[|calls| - 1]);
      (t.state, sent + (if t.sent.Some? then [t.sent.value] else []))
  }

  /** Every step is named after its position in the run. */
  ghost predicate WellNamed(steps: seq<StepData>) {
    forall i :: 0 <= i < |steps| ==> steps[i].name == StepName(i)
  }

  /** What holds of the state and the outcomes sent so far, along any sequence of calls. */
  ghost predicate History(s: RunState, sent: seq<ExecutorEvent>) {
    && Inv(s)
    && WellNamed(s.steps)
    && (s.steps != [] ==> s.taskNum >= 1)
    && (forall i, j :: 0 <= i < j < |sent| ==> sent[i].id < sent[j].id)
    && (forall i :: 0 <= i < |sent| ==> 1 <= sent[i].id <= s.taskNum && WellNamed(sent[i].steps))
    && (s.steps != [] ==> forall i :: 0 <= i < |sent| ==> sent[i].id < s.taskNum)
  }

  lemma ApplyKeepsHistory(s: RunState, sent: seq<ExecutorEvent>, call: Call)
    requires History(s, sent)
    ensures var t := Apply(s, call);
      History(t.state, sent + (if t.sent.Some? then [t.sent.value] else []))
  {
    var t := Apply(s, call);
    InvPreserved(s, call.FinishCall? && call.status, call.now);
    if call.FinishCall? && s.steps != [] {
      var stamped := Stamp(s.steps, s.stepsFinished, call.status, call.now);
      assert WellNamed(stamped);
    }
  }

  /**
   * From a fresh context, along any sequence of calls: when the step count
   * is positive, completions never reach it between calls, run ids of sent outcomes strictly
   * increase (an id is never reused), and every sent run names its steps
   * Build, Test, ... by position.
   */
  lemma {:induction false} ReplayKeepsHistory(limit: nat, calls: seq<Call>)
    requires limit <= 2
    ensures var (s, sent) := Replay(RunState([], 0, 0, limit), calls); History(s, sent)
    decreases |calls|
  {
    if |calls| > 0 {
      var (mid, sent) := Replay(RunState([], 0, 0, limit), calls[..|calls| - 1]);
      ReplayKeepsHistory(limit, calls[..|calls| - 1]);
      ApplyKeepsHistory(mid, sent, calls[|calls| - 1]);
    }
  }

  /** The run id never falls, and grows by at most one per call (a start on an empty context, see `Started`). */
  lemma {:induction false} RunIdMonotone(s: RunState, calls: seq<Call>)
    ensures Replay(s, calls).0.taskNum >= s.taskNum
    ensures Replay(s, calls).0.taskNum <= s.taskNum + |calls|
    decreases |calls|
  {
    if |calls| > 0 {
      RunIdMonotone(s, calls[..|calls| - 1]);
    }
  }
}
