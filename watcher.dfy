/**
 * The run-decision engine: configuration helpers, the run context that
 * tracks the steps of the run in flight, the verdict carried by a process
 * completion, and the per-batch decision of what to do next.
 */
module Watcher {
  import opened Wrappers
  import opened Strings
  import opened Events
  import F = Filters

  /** The watcher's configuration; the sending end of the outcome queue is kept beside it, in `Context.tx`. */
  datatype Config = Config(
    watchDir: string,
    buildDir: string,
    buildCommand: string,
    testCommand: string,
    delay: Option<nat>)

  /** Where the build runs: the watch directory, an absolute build directory, or one relative to the watch directory. */
  function GetBuildDir(config: Config): (dir: string)
    ensures config.buildDir == "" ==> dir == config.watchDir
    ensures config.buildDir != "" && config.buildDir[0] == '/' ==> dir == config.buildDir
    ensures config.buildDir != "" && config.buildDir[0] != '/' ==> dir == config.watchDir + "/" + config.buildDir
  {
    if config.buildDir == "" then config.watchDir
    else if config.buildDir[0] == '/' then config.buildDir
    else config.watchDir + "/" + config.buildDir
  }

  /** A configured build directory is always the tail of the resolved one, and an absolute watch directory gives an absolute result. */
  lemma BuildDirResolution(config: Config)
    ensures var dir := GetBuildDir(config);
      && |config.buildDir| <= |dir| && dir[|dir| - |config.buildDir|..] == config.buildDir
      && (config.watchDir != "" && config.watchDir[0] == '/' ==> dir != "" && dir[0] == '/')
  {
  }

  /** A program and its arguments, as handed to the process supervisor. */
  datatype Command = Exec(prog: string, args: seq<string>)

  /**
   * Splits a command line on single spaces: the first part is the program,
   * the rest its arguments. Never fails, not even on the empty line.
   */
  function ParseCommand(input: string): (r: Option<Command>)
    ensures r.Some?
    ensures Join([r.value.prog] + r.value.args, ' ') == input
    ensures ' ' !in r.value.prog && forall i :: 0 <= i < |r.value.args| ==> ' ' !in r.value.args[i]
  {
    var parts := Split(input, ' ');
    assert [parts[0]] + parts[1..] == parts;
    Some(Exec(parts[0], parts[1..]))
  }

  /** Parsing undoes writing a command out with single spaces. */
  lemma {:induction false} ParseWrittenCommand(prog: string, args: seq<string>)
    requires ' ' !in prog && forall i :: 0 <= i < |args| ==> ' ' !in args[i]
    ensures ParseCommand(Join([prog] + args, ' ')) == Some(Exec(prog, args))
  {
    var parts := [prog] + args;
    assert forall i :: 0 <= i < |parts| ==> ' ' !in parts[i] by {
      forall i | 0 <= i < |parts| ensures ' ' !in parts[i] {
        if i > 0 { assert parts[i] == args[i - 1]; }
      }
    }
    SplitJoin(parts, ' ');
    assert parts[1..] == args;
  }

  /** The commands the supervisor runs: the build command, then the test command when it parses. */
  function GetCommands(config: Config): (cmds: seq<Command>)
    ensures |cmds| == 2
    ensures cmds[0] == ParseCommand(config.buildCommand).value && cmds[1] == ParseCommand(config.testCommand).value
    ensures Join([cmds[0].prog] + cmds[0].args, ' ') == config.buildCommand
    ensures Join([cmds[1].prog] + cmds[1].args, ' ') == config.testCommand
  {
    var build := ParseCommand(config.buildCommand);
    var test := ParseCommand(config.testCommand);
    [build.value] + (if test.Some? then [test.value] else [])
  }

  /** The number of steps a run has: one per non-empty command. */
  function StepsLimit(config: Config): (n: nat)
    ensures n <= 2
    ensures n == 0 <==> config.buildCommand == "" && config.testCommand == ""
    ensures n == 2 <==> config.buildCommand != "" && config.testCommand != ""
  {
    (if config.buildCommand != "" then 1 else 0) + (if config.testCommand != "" then 1 else 0)
  }

  /** An empty test command still yields a second command, although a run then has only one step. */
  lemma EmptyTestCommandStillRuns(config: Config)
    requires config.buildCommand != "" && config.testCommand == ""
    ensures |GetCommands(config)| == 2 && GetCommands(config)[1] == Exec("", [])
    ensures StepsLimit(config) == 1
  {
  }

  /** The commands one per configured (non-empty) command line, so that there are as many as a run has steps. */
  function ConfiguredCommands(config: Config): (cmds: seq<Command>)
    ensures |cmds| == StepsLimit(config)
    ensures forall i :: 0 <= i < |cmds| ==> Join([cmds[i].prog] + cmds[i].args, ' ') != ""
    ensures config.buildCommand != "" ==> cmds[0] == GetCommands(config)[0]
    ensures config.testCommand != "" ==> cmds[|cmds| - 1] == GetCommands(config)[1]
  {
    (if config.buildCommand != "" then [ParseCommand(config.buildCommand).value] else [])
    + (if config.testCommand != "" then [ParseCommand(config.testCommand).value] else [])
  }

  /** The name of the step at position `index` of a run. */
  function StepName(index: nat): (name: string)
    ensures name == "Build" <==> index == 0
    ensures name == "Test" <==> index == 1
    ensures name == "Unknown" <==> index >= 2
  {
    match index
    case 0 => "Build"
    case 1 => "Test"
    case _ => "Unknown"
  }

  /** The run context's fields as one value: the steps of the run in flight, the run id, the completions seen, the steps a run has. */
  datatype RunState = RunState(steps: seq<StepData>, taskNum: nat, stepsFinished: nat, stepsLimit: nat)

  /** What `finish_step` leaves behind, and the outcome it hands to the queue, if any. */
  datatype Transition = Transition(state: RunState, sent: Option<ExecutorEvent>)

  /** `start_step`: a new run id when no run is in flight, and one more step, named by its position, with no length yet. */
  function Started(s: RunState, now: Instant): (r: RunState)
    ensures |r.steps| == |s.steps| + 1 && r.steps[..|s.steps|] == s.steps
    ensures r.steps[|s.steps|] == StepData(false, now, now, StepName(|s.steps|))
    ensures r.steps[|s.steps|].GetDuration() == 0
    ensures r.taskNum == (if s.steps == [] then s.taskNum + 1 else s.taskNum)
    ensures r.stepsFinished == s.stepsFinished && r.stepsLimit == s.stepsLimit
  {
    s.(steps := s.steps + [StepData(false, now, now, StepName(|s.steps|))],
       taskNum := if s.steps == [] then s.taskNum + 1 else s.taskNum)
  }

  /** Stamps step `i`, when there is one, with its stop time and verdict. */
  function Stamp(steps: seq<StepData>, i: nat, status: bool, now: Instant): seq<StepData> {
    if i < |steps| then steps[i := steps[i].(stopAt := now, status := status)] else steps
  }

  /** `reset`: no run in flight; the run id is kept. */
  function ResetState(s: RunState): RunState {
    s.(steps := [], stepsFinished := 0)
  }

  /**
   * `finish_step`: ignored when no run is in flight. Otherwise stamps the
   * step whose completion this is and counts it; a failure finalises the run
   * as `Fail`, the last expected success as `Success`.
   */
  function Finished(s: RunState, status: bool, now: Instant): (t: Transition)
    ensures t.state.taskNum == s.taskNum && t.state.stepsLimit == s.stepsLimit
    ensures s.steps == [] ==> t == Transition(s, None)
    ensures t.sent.Some? ==> t.sent.value.id == s.taskNum && t.sent.value.Success? == status
                             && t.state.steps == [] && t.state.stepsFinished == 0
    ensures s.steps != [] && !status ==> t.sent.Some?
  {
    if s.steps == [] then Transition(s, None)
    else
      var steps := Stamp(s.steps, s.stepsFinished, status, now);
      var finished := s.stepsFinished + 1;
      if !status then Transition(ResetState(s), Some(Fail(s.taskNum, steps)))
      else if finished == s.stepsLimit then Transition(ResetState(s), Some(Success(s.taskNum, steps)))
      else Transition(s.(steps := steps, stepsFinished := finished), None)
  }

  /** Between calls, the step count is at most 2 and, when it is positive, a run has seen fewer completions than it. */
  ghost predicate Inv(s: RunState) {
    s.stepsLimit <= 2 && (s.stepsLimit >= 1 ==> s.stepsFinished < s.stepsLimit)
  }

  lemma InvPreserved(s: RunState, status: bool, now: Instant)
    requires Inv(s)
    ensures Inv(Started(s, now))
    ensures Inv(Finished(s, status, now).state)
  {
  }

  /**
   * What a `finish_step` call does to the run context and the queue. When the
   * queue is full the send fails (the source then panics): the steps have
   * already been taken and the completion counted, and nothing is queued.
   */
  ghost predicate FinishedAs(
    before: RunState, q0: seq<ExecutorEvent>, status: bool, now: Instant,
    after: RunState, q1: seq<ExecutorEvent>, sendOk: bool)
  {
    var t := Finished(before, status, now);
    match t.sent
    case None => sendOk && after == t.state && q1 == q0
    case Some(e) =>
      && sendOk == (|q0| < ChannelCapacity)
      && (sendOk ==> after == t.state && q1 == q0 + [e])
      && (!sendOk ==> after == before.(steps := [], stepsFinished := before.stepsFinished + 1) && q1 == q0)
  }

  /** The run context shared by the action handler and the pre-spawn hook. */
  class Context {
    const config: Config
    const tx: Channel
    const stepsLimit: nat
    var steps: seq<StepData>
    var taskNum: nat
    var stepsFinished: nat

    function State(): RunState
      reads this
    {
      RunState(steps, taskNum, stepsFinished, stepsLimit)
    }

    ghost predicate Valid()
      reads this, tx
    {
      tx.Valid() && Inv(State())
    }

    constructor (config: Config, tx: Channel)
      requires tx.Valid()
      ensures Valid()
      ensures this.config == config && this.tx == tx
      ensures State() == RunState([], 0, 0, StepsLimit(config))
    {
      this.config := config;
      this.tx := tx;
      this.stepsLimit := StepsLimit(config);
      steps := [];
      stepsFinished := 0;
      taskNum := 0;
    }

    function GetStepName(): string
      reads this
    {
      StepName(|steps|)
    }

    method StartStep(now: Instant)
      requires Valid()
      modifies this
      ensures Valid()
      ensures State() == Started(old(State()), now)
    {
      if steps == [] {
        taskNum := taskNum + 1;
      }
      var step := StepData(false, now, now, GetStepName());
      steps := steps + [step];
    }

    method FinishStep(status: bool, now: Instant) returns (sendOk: bool)
      requires Valid()
      modifies this, tx
      ensures tx.Valid()
      ensures FinishedAs(old(State()), old(tx.queue), status, now, State(), tx.queue, sendOk)
      ensures sendOk ==> Valid()
    {
      InvPreserved(State(), status, now);
      if steps == [] {
        return true;
      }
      if stepsFinished < |steps| {
        steps := steps[stepsFinished := steps[stepsFinished].(stopAt := now, status := status)];
      }
      stepsFinished := stepsFinished + 1;
      if status {
        sendOk := OnSuccess();
      } else {
        sendOk := OnFail();
      }
    }

    /** Finalises the run as `Success` once every step has passed. */
    method OnSuccess() returns (sendOk: bool)
      requires tx.Valid()
      modifies this, tx
      ensures tx.Valid() && taskNum == old(taskNum)
      ensures old(stepsFinished) != stepsLimit ==>
        sendOk && steps == old(steps) && stepsFinished == old(stepsFinished) && tx.queue == old(tx.queue)
      ensures old(stepsFinished) == stepsLimit ==>
        && sendOk == (|old(tx.queue)| < ChannelCapacity)
        && steps == []
        && stepsFinished == (if sendOk then 0 else old(stepsFinished))
        && tx.queue == if sendOk then old(tx.queue) + [Success(old(taskNum), old(steps))] else old(tx.queue)
    {
      sendOk := true;
      if stepsFinished == stepsLimit {
        var id := taskNum;
        var payload := TakeSteps();
        sendOk := tx.TrySend(Success(id, payload));
        if sendOk {
          Reset();
        }
      }
    }

    /** Finalises the run as `Fail`. */
    method OnFail() returns (sendOk: bool)
      requires tx.Valid()
      modifies this, tx
      ensures tx.Valid() && taskNum == old(taskNum) && steps == []
      ensures sendOk == (|old(tx.queue)| < ChannelCapacity)
      ensures stepsFinished == (if sendOk then 0 else old(stepsFinished))
      ensures tx.queue == if sendOk then old(tx.queue) + [Fail(old(taskNum), old(steps))] else old(tx.queue)
    {
      var id := taskNum;
      var payload := TakeSteps();
      sendOk := tx.TrySend(Fail(id, payload));
      if sendOk {
        Reset();
      }
    }

    /** Hands over the step buffer, leaving an empty one. */
    method TakeSteps() returns (out: seq<StepData>)
      modifies this`steps
      ensures out == old(steps) && steps == []
    {
      out := steps;
      steps := [];
    }

    method Reset()
      modifies this`steps, this`stepsFinished
      ensures steps == [] && stepsFinished == 0
      ensures State() == ResetState(old(State()))
    {
      steps := [];
      stepsFinished := 0;
    }
  }

  /** Tag `i` is the first process-completion tag of `tags`. */
  ghost predicate FirstCompletionAt(tags: seq<F.Tag>, i: int) {
    0 <= i < |tags| && tags[i].ProcessCompletion? &&
    forall j :: 0 <= j < i ==> !tags[j].ProcessCompletion?
  }

  /**
   * The verdict an event carries: decided by its first process-completion
   * tag alone, `true` only for a clean exit, absent when that tag has no end
   * or there is no such tag.
   */
  function CommandResult(tags: seq<F.Tag>): (r: Option<bool>)
    ensures r.Some? <==> exists i :: FirstCompletionAt(tags, i) && tags[i].end.Some?
    ensures r == Some(true) <==> exists i :: FirstCompletionAt(tags, i) && tags[i].end == Some(F.Success)
    decreases |tags|
  {
    if |tags| == 0 then None
    else
      match tags[0]
      case ProcessCompletion(end) =>
        assert FirstCompletionAt(tags, 0);
        (match end
         case None => None
         case Some(e) => Some(e.Success?))
      case _ =>
        var r := CommandResult(tags[1..]);
        assert forall i :: FirstCompletionAt(tags, i) <==> i > 0 && FirstCompletionAt(tags[1..], i - 1);
        r
  }

  /** Does the event carry an interrupt or terminate signal? */
  predicate HasStopSignal(e: F.Event)
    ensures HasStopSignal(e) <==> exists i :: 0 <= i < |e.tags| && e.tags[i].Signal? && F.IsStopSignal(e.tags[i].signal)
  {
    F.AnyTag(e.tags, (t: F.Tag) => t.Signal? && F.IsStopSignal(t.signal))
  }

  /** Does the event name a path (of any extension)? */
  predicate HasPath(e: F.Event)
    ensures HasPath(e) <==> exists i :: 0 <= i < |e.tags| && e.tags[i].Path?
  {
    F.AnyTag(e.tags, (t: F.Tag) => t.Path?)
  }

  /** What a batch of events amounts to: a stop request, a path change, and the combined verdict. */
  datatype BatchSummary = BatchSummary(stop: bool, mods: bool, status: Option<bool>)

  /** Folds one more verdict into the batch verdict: the first present one, then a conjunction. */
  function CombineVerdict(acc: Option<bool>, v: Option<bool>): Option<bool> {
    match v
    case None => acc
    case Some(x) => Some((if acc.Some? then acc.value else x) && x)
  }

  /** The fold over a batch, event by event. */
  function Summarize(events: seq<F.Event>): BatchSummary
    decreases |events|
  {
    if |events| == 0 then BatchSummary(false, false, None)
    else
      var n := |events| - 1;
      var b := Summarize(events[..n]);
      var e := events[n];
      BatchSummary(b.stop || HasStopSignal(e), b.mods || HasPath(e), CombineVerdict(b.status, CommandResult(e.tags)))
  }

  lemma {:induction false} SummarizeStop(events: seq<F.Event>)
    ensures Summarize(events).stop <==> exists i :: 0 <= i < |events| && HasStopSignal(events[i])
    decreases |events|
  {
    if |events| > 0 {
      var n := |events| - 1;
      SummarizeStop(events[..n]);
      assert forall i :: 0 <= i < n ==> events[..n][i] == events[i];
    }
  }

  lemma {:induction false} SummarizeMods(events: seq<F.Event>)
    ensures Summarize(events).mods <==> exists i :: 0 <= i < |events| && HasPath(events[i])
    decreases |events|
  {
    if |events| > 0 {
      var n := |events| - 1;
      SummarizeMods(events[..n]);
      assert forall i :: 0 <= i < n ==> events[..n][i] == events[i];
    }
  }

  lemma {:induction false} SummarizeStatus(events: seq<F.Event>)
    ensures Summarize(events).status.None? <==> forall i :: 0 <= i < |events| ==> CommandResult(events[i].tags).None?
    ensures Summarize(events).status == Some(false) <==> exists i :: 0 <= i < |events| && CommandResult(events[i].tags) == Some(false)
    decreases |events|
  {
    if |events| > 0 {
      var n := |events| - 1;
      SummarizeStatus(events[..n]);
      assert forall i :: 0 <= i < n ==> events[..n][i] == events[i];
    }
  }

  /**
   * Every event of a batch contributes: a stop signal anywhere stops, a path
   * anywhere is a change, and the verdict is present when some event carries
   * one and passes only when all of them pass.
   */
  lemma SummarizeMeaning(events: seq<F.Event>)
    ensures var b := Summarize(events);
      && (b.stop <==> exists i :: 0 <= i < |events| && HasStopSignal(events[i]))
      && (b.mods <==> exists i :: 0 <= i < |events| && HasPath(events[i]))
      && (b.status.None? <==> forall i :: 0 <= i < |events| ==> CommandResult(events[i].tags).None?)
      && (b.status == Some(false) <==> exists i :: 0 <= i < |events| && CommandResult(events[i].tags) == Some(false))
  {
    SummarizeStop(events);
    SummarizeMods(events);
    SummarizeStatus(events);
  }

  /** The loop of the action handler computing the three batch facts. */
  method SummarizeBatch(events: seq<F.Event>) returns (summary: BatchSummary)
    ensures summary == Summarize(events)
  {
    var eventStop := false;
    var eventMods := false;
    var processStatus: Option<bool> := None;
    var i := 0;
    while i < |events|
      invariant 0 <= i <= |events|
      invariant BatchSummary(eventStop, eventMods, processStatus) == Summarize(events[..i])
    {
      var event := events[i];
      eventStop := eventStop || HasStopSignal(event);
      eventMods := eventMods || HasPath(event);
      var verdict := CommandResult(event.tags);
      if verdict.Some? {
        var exist := if processStatus.Some? then processStatus.value else verdict.value;
        processStatus := Some(exist && verdict.value);
      }
      assert events[..i + 1][..i] == events[..i] && events[..i + 1][i] == event;
      i := i + 1;
    }
    assert events[..|events|] == events;
    summary := BatchSummary(eventStop, eventMods, processStatus);
  }

  /** The supervisor instructions the handler can give; their execution belongs to the supervisor. */
  datatype Outcome =
    | DoNothing
    | Exit
    | Stop
    | Clear
    | Start
    | Sleep(seconds: nat)
    | IfRunning(whenRunning: Outcome, otherwise: Outcome)
    | Sequence(items: seq<Outcome>)

  /** What the handler does with a batch: the outcome it sets (none when it sets none) and the verdict it finishes a step with. */
  datatype Decision = Decision(outcome: Option<Outcome>, finish: Option<bool>)

  /** Clear, then wait the configured delay when there is one, then start the first command. */
  function RestartSequence(delay: Option<nat>): seq<Outcome> {
    match delay
    case None => [Clear, Start]
    case Some(d) => [Clear, Sleep(d), Start]
  }

  /** The decision by priority: stop, then a path change, then a verdict. */
  function Decide(b: BatchSummary, delay: Option<nat>): (d: Decision)
    ensures d.outcome == Some(Exit) <==> b.stop
    ensures !b.stop && b.mods ==> d.outcome == Some(IfRunning(DoNothing, Sequence(RestartSequence(delay))))
    ensures d.finish.Some? <==> !b.stop && !b.mods && b.status.Some?
    ensures d.finish.Some? ==> d.finish == b.status && (d.outcome == Some(Stop) <==> d.finish == Some(false))
    ensures d.finish == Some(true) ==> d.outcome == None
    ensures d.finish.None? && !(!b.stop && b.mods) ==> d.outcome == (if b.stop then Some(Exit) else None)
  {
    if b.stop then Decision(Some(Exit), None)
    else if b.mods then Decision(Some(IfRunning(DoNothing, Sequence(RestartSequence(delay)))), None)
    else if b.status.Some? then Decision(if b.status.value then None else Some(Stop), b.status)
    else Decision(None, None)
  }

  /** A stop signal anywhere in a batch wins over path changes and verdicts, and leaves the run context alone. */
  lemma StopTakesPriority(events: seq<F.Event>, delay: Option<nat>)
    requires exists i :: 0 <= i < |events| && HasStopSignal(events[i])
    ensures Decide(Summarize(events), delay) == Decision(Some(Exit), None)
  {
    SummarizeStop(events);
  }

  /**
   * Without a stop signal, a path change restarts unless a run is in flight,
   * whatever verdicts the batch carries, and leaves the run context alone.
   */
  lemma PathChangeRestarts(events: seq<F.Event>, delay: Option<nat>)
    requires forall i :: 0 <= i < |events| ==> !HasStopSignal(events[i])
    requires exists i :: 0 <= i < |events| && HasPath(events[i])
    ensures Decide(Summarize(events), delay) ==
      Decision(Some(IfRunning(DoNothing, Sequence(RestartSequence(delay)))), None)
  {
    SummarizeStop(events);
    SummarizeMods(events);
  }

  /**
   * Otherwise the combined verdict, when present, finishes the current step:
   * a failure anywhere in the batch fails the step and stops the process.
   */
  lemma VerdictFinishesStep(events: seq<F.Event>, delay: Option<nat>)
    requires forall i :: 0 <= i < |events| ==> !HasStopSignal(events[i]) && !HasPath(events[i])
    ensures var d := Decide(Summarize(events), delay);
      && (d.finish.None? <==> forall i :: 0 <= i < |events| ==> CommandResult(events[i].tags).None?)
      && (d.finish == Some(false) <==> exists i :: 0 <= i < |events| && CommandResult(events[i].tags) == Some(false))
      && d.outcome == (if d.finish == Some(false) then Some(Stop) else None)
  {
    SummarizeMeaning(events);
  }

  /**
   * Example: a batch of exactly two completions, one passing and one failing,
   * fails the step (the general rule is `VerdictFinishesStep`).
   */
  lemma MixedVerdictsFail(delay: Option<nat>)
    ensures Decide(Summarize([F.Event([F.ProcessCompletion(Some(F.Success))]),
                              F.Event([F.ProcessCompletion(Some(F.ExitError(1)))])]), delay)
         == Decision(Some(Stop), Some(false))
  {
  }

  /** A stop signal (interrupt or terminate) and a modification in one batch: exit, never restart. */
  lemma StopBeatsModification(delay: Option<nat>)
    ensures Decide(Summarize([F.Event([F.FileEventKind(F.Modify(F.Data)), F.Path(F.Utf8("main.c"))]),
                              F.Event([F.Signal(F.Interrupt)])]), delay)
         == Decision(Some(Exit), None)
    ensures Decide(Summarize([F.Event([F.FileEventKind(F.Modify(F.Data)), F.Path(F.Utf8("main.c"))]),
                              F.Event([F.Signal(F.Terminate)])]), delay)
         == Decision(Some(Exit), None)
    ensures Decide(Summarize([F.Event([F.FileEventKind(F.Modify(F.Data)), F.Path(F.Utf8("main.c")),
                                       F.Signal(F.Terminate)])]), delay)
         == Decision(Some(Exit), None)
  {
  }

  /** Only the first completion tag is read, even when it has no end and a later one has. */
  lemma FirstCompletionDecides()
    ensures CommandResult([F.Source, F.ProcessCompletion(None), F.ProcessCompletion(Some(F.Success))]) == None
    ensures CommandResult([F.ProcessCompletion(Some(F.ExitSignal(F.Terminate))), F.ProcessCompletion(Some(F.Success))]) == Some(false)
    ensures CommandResult([F.Path(F.NonUtf8)]) == None
    ensures forall e: F.ProcessEnd :: e != F.Success ==> CommandResult([F.ProcessCompletion(Some(e))]) == Some(false)
    ensures forall e: F.ProcessEnd, rest: seq<F.Tag> ::
      CommandResult([F.ProcessCompletion(Some(e))] + rest) == Some(e == F.Success)
    ensures forall tags: seq<F.Tag> :: (forall i :: 0 <= i < |tags| ==> !tags[i].ProcessCompletion?) ==>
      CommandResult(tags) == None
    ensures forall prefix: seq<F.Tag>, rest: seq<F.Tag> ::
      (forall i :: 0 <= i < |prefix| ==> !prefix[i].ProcessCompletion?) ==>
      CommandResult(prefix + [F.ProcessCompletion(None)] + rest) == None
  {
    forall prefix: seq<F.Tag>, rest: seq<F.Tag> | forall i :: 0 <= i < |prefix| ==> !prefix[i].ProcessCompletion?
      ensures CommandResult(prefix + [F.ProcessCompletion(None)] + rest) == None
    {
      var tags := prefix + [F.ProcessCompletion(None)] + rest;
      assert FirstCompletionAt(tags, |prefix|);
      assert forall i :: FirstCompletionAt(tags, i) ==> i == |prefix|;
    }
  }

  /**
   * The action handler: summarises the batch, sets the outcome, and on a
   * verdict finishes the current step (stopping the supervised process first
   * on failure). Nothing else touches the run context.
   */
  method OnUpdate(context: Context, events: seq<F.Event>, delay: Option<nat>, now: Instant)
    returns (outcome: Option<Outcome>, sendOk: bool)
    requires context.Valid()
    modifies context, context.tx
    ensures context.tx.Valid()
    ensures outcome == Decide(Summarize(events), delay).outcome
    ensures Decide(Summarize(events), delay).finish.None? ==>
      sendOk && context.State() == old(context.State()) && context.tx.queue == old(context.tx.queue)
    ensures Decide(Summarize(events), delay).finish.Some? ==>
      FinishedAs(old(context.State()), old(context.tx.queue), Decide(Summarize(events), delay).finish.value, now,
                 context.State(), context.tx.queue, sendOk)
    ensures sendOk ==> context.Valid()
  {
    var summary := SummarizeBatch(events);
    outcome := None;
    sendOk := true;
    if summary.stop {
      outcome := Some(Exit);
    } else if summary.mods {
      if delay.Some? {
        outcome := Some(IfRunning(DoNothing, Sequence([Clear, Sleep(delay.value), Start])));
      } else {
        outcome := Some(IfRunning(DoNothing, Sequence([Clear, Start])));
      }
    } else if summary.status.Some? {
      var status := summary.status.value;
      if !status {
        outcome := Some(Stop);
      }
      sendOk := context.FinishStep(status, now);
    }
  }
}
